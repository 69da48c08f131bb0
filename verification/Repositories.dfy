/** The database session of a use case and the repositories on top of it. */
module Repositories {
  import opened Domain
  import opened Entities
  import opened Events
  import opened Results
  import opened Stores
  import opened UseCases

  /**
   * A session of the database. Other transactions go on meanwhile, so each statement meets rows of its
   * own: `env(n)` are the committed rows that the n-th statement of the session meets, once it holds the
   * row it updates.
   */
  class Session {
    const env: Environment
    var statements: nat        // statements executed so far
    var pending: seq<Write>    // saves of the open transaction
    var durable: seq<Write>    // saves of the committed ones

    constructor (env: Environment)
      ensures this.env == env && statements == 0 && pending == [] && durable == []
    {
      this.env := env;
      statements, pending, durable := 0, [], [];
    }

    /** SELECT ... scalar_one_or_none(), which raises if there are two hits */
    method SelectOne(q: Query) returns (r: Result<Reply>)
      modifies this`statements
      ensures statements == old(statements) + 1
      ensures r == if AtMostOneHit(env(old(statements)), q) then Ok(Select(env(old(statements)), q))
                   else Err(MultipleResultsFound)
    {
      var rows := env(statements);
      statements := statements + 1;
      if k1, k2 :| k1 in rows.Keys && k2 in rows.Keys && k1 != k2
                   && Matches(q, k1, rows[k1].row) && Matches(q, k2, rows[k2].row)
      {
        return Err(MultipleResultsFound);
      }
      if k :| k in rows.Keys && Matches(q, k, rows[k].row) {
        r := Ok(Some(Found(k, rows[k])));
      } else {
        r := Ok(None);
      }
    }

    /** INSERT, refused by a primary key or the unique email column */
    method InsertRow(key: Key, row: Row) returns (r: Outcome)
      modifies this`statements, this`pending
      ensures Saved(Insert(key, row), r)
    {
      var rows := env(statements);
      statements := statements + 1;
      if key in rows || EmailTaken(rows, row) {
        return Raised(IntegrityError);
      }
      pending := pending + [Insert(key, row)];
      r := Done;
    }

    /** UPDATE ... WHERE id = key AND version = expected; the number of rows it changed */
    method UpdateRow(key: Key, expected: nat, row: Row) returns (rowCount: nat)
      modifies this`statements, this`pending
      ensures rowCount <= 1
      ensures Saved(Update(key, expected, row), if rowCount == 1 then Done else Raised(ConcurrencyError))
    {
      var rows := env(statements);
      statements := statements + 1;
      if key in rows && rows[key].version == expected {
        pending := pending + [Update(key, expected, row)];
        rowCount := 1;
      } else {
        rowCount := 0;
      }
    }

    /** The save w was attempted by one statement and ended in r. */
    twostate predicate Saved(w: Write, r: Outcome)
      reads this
    {
      && statements == old(statements) + 1 && durable == old(durable)
      && match SaveError(env(old(statements)), w)
         case Some(e) => r == Raised(e) && pending == old(pending)
         case None => r == Done && pending == old(pending) + [w]
    }
  }

  /** SQLAlchemyTransaction: commits when the block ends normally, rolls back when it raises. */
  class Transaction {
    const session: Session

    constructor (session: Session)
      ensures this.session == session
    {
      this.session := session;
    }

    method Enter()
      modifies session`pending
      ensures session.pending == []
    {
      session.pending := [];
    }

    method Exit(r: Outcome)
      modifies session`pending, session`durable
      ensures session.pending == []
      ensures session.durable == old(session.durable) + if r.Done? then old(session.pending) else []
    {
      if r.Done? {
        session.durable := session.durable + session.pending;
      }
      session.pending := [];
    }
  }

  /** What saving an entity of this version writes. */
  function SaveOf(key: Key, version: Option<nat>, row: Row): Write {
    if version.None? then Insert(key, row) else Update(key, version.value, row)
  }

  function NextVersion(version: Option<nat>): nat {
    if version.None? then 1 else version.value + 1
  }

  class UserRepository {
    const session: Session

    constructor (session: Session)
      ensures this.session == session
    {
      this.session := session;
    }

    /** A user as loaded from a reply: `orm2domain`. */
    twostate predicate IsLoaded(new user: User?, reply: Reply)
      reads if user == null then {} else {user}
    {
      match LoadUser(reply)
      case None => user == null
      case Some(u) =>
        && user != null && fresh(user) && user.id == u.id && user.Data() == u.data
        && user.version == Some(u.version) && user.events == []
    }

    /** What a lookup ends in: the loaded user, null, or the error if there are two hits. */
    twostate predicate IsAnswer(new r: Result<User?>, rows: Store, q: Query)
      reads if r.Ok? && r.value != null then {r.value} else {}
    {
      && (UniqueHits(rows) ==> r.Ok?)
      && match r
         case Err(e) => e == MultipleResultsFound && !AtMostOneHit(rows, q)
         case Ok(found) => AtMostOneHit(rows, q) && IsLoaded(found, Select(rows, q))
    }

    method Orm2Domain(reply: Reply) returns (user: User?)
      ensures IsLoaded(user, reply)
    {
      if reply.None? || !reply.value.cell.row.UserRow? {
        return null;
      }
      var u := reply.value.cell.row.user;
      var loaded := new User(reply.value.key.id, u.email, u.passwordHash, u.active, u.verified, u.createdAt);
      loaded.version := Some(reply.value.cell.version);
      user := loaded;
    }

    method GetByEmail(email: string) returns (r: Result<User?>)
      modifies session`statements
      ensures session.statements == old(session.statements) + 1
      ensures IsAnswer(r, session.env(old(session.statements)), UserByEmail(email))
    {
      var reply := session.SelectOne(UserByEmail(email));
      if reply.Err? {
        return Err(reply.error);
      }
      var user := Orm2Domain(reply.value);
      r := Ok(user);
    }

    method GetById(id: Id) returns (r: Result<User?>)
      modifies session`statements
      ensures session.statements == old(session.statements) + 1
      ensures IsAnswer(r, session.env(old(session.statements)), UserById(id))
    {
      var reply := session.SelectOne(UserById(id));
      if reply.Err? {
        return Err(reply.error);
      }
      var user := Orm2Domain(reply.value);
      r := Ok(user);
    }

    method Save(user: User) returns (r: Outcome)
      modifies session`statements, session`pending, user`version
      ensures session.Saved(old(SaveOf(UserKey(user.id), user.version, UserRow(user.Data()))), r)
      ensures user.version == if r.Done? then Some(NextVersion(old(user.version))) else old(user.version)
    {
      var data := UserData(user.email, user.passwordHash, user.active, user.isEmailVerified, user.createdAt);
      if user.version.None? {
        r := session.InsertRow(UserKey(user.id), UserRow(data));
        if r.Raised? {
          return;
        }
        user.version := Some(1);
      } else {
        var expected := user.version.value;
        var rowCount := session.UpdateRow(UserKey(user.id), expected, UserRow(data));
        if rowCount != 1 {
          return Raised(ConcurrencyError);
        }
        user.version := Some(expected + 1);
        r := Done;
      }
    }
  }

  class OneTimeTokenRepository {
    const session: Session

    constructor (session: Session)
      ensures this.session == session
    {
      this.session := session;
    }

    twostate predicate IsLoaded(new ott: OneTimeToken?, reply: Reply)
      reads if ott == null then {} else {ott}
    {
      match LoadOneTime(reply)
      case None => ott == null
      case Some(t) =>
        && ott != null && fresh(ott) && ott.id == t.id && ott.Data() == t.data && ott.version == Some(t.version)
    }

    /** What a lookup ends in: the loaded token, null, or the error if there are two hits. */
    twostate predicate IsAnswer(new r: Result<OneTimeToken?>, rows: Store, q: Query)
      reads if r.Ok? && r.value != null then {r.value} else {}
    {
      && (UniqueHits(rows) ==> r.Ok?)
      && match r
         case Err(e) => e == MultipleResultsFound && !AtMostOneHit(rows, q)
         case Ok(found) => AtMostOneHit(rows, q) && IsLoaded(found, Select(rows, q))
    }

    method Orm2Domain(reply: Reply) returns (ott: OneTimeToken?)
      ensures IsLoaded(ott, reply)
    {
      if reply.None? || !reply.value.cell.row.OneTimeRow? {
        return null;
      }
      var t := reply.value.cell.row.ott;
      var loaded := new OneTimeToken(reply.value.key.id, t.userId, t.tokenHash, t.expiresAt, t.purpose, t.used);
      loaded.version := Some(reply.value.cell.version);
      ott := loaded;
    }

    method GetByString(token: string) returns (r: Result<OneTimeToken?>)
      modifies session`statements
      ensures session.statements == old(session.statements) + 1
      ensures IsAnswer(r, session.env(old(session.statements)), OneTimeByHash(Sha256(token)))
    {
      var reply := session.SelectOne(OneTimeByHash(Sha256(token)));
      if reply.Err? {
        return Err(reply.error);
      }
      var ott := Orm2Domain(reply.value);
      r := Ok(ott);
    }

    method Save(ott: OneTimeToken) returns (r: Outcome)
      modifies session`statements, session`pending, ott`version
      ensures session.Saved(old(SaveOf(OneTimeKey(ott.id), ott.version, OneTimeRow(ott.Data()))), r)
      ensures ott.version == if r.Done? then Some(NextVersion(old(ott.version))) else old(ott.version)
    {
      var data := OneTimeData(ott.userId, ott.tokenHash, ott.expiresAt, ott.purpose, ott.used);
      if ott.version.None? {
        r := session.InsertRow(OneTimeKey(ott.id), OneTimeRow(data));
        if r.Raised? {
          return;
        }
        ott.version := Some(1);
      } else {
        var expected := ott.version.value;
        var rowCount := session.UpdateRow(OneTimeKey(ott.id), expected, OneTimeRow(data));
        if rowCount != 1 {
          return Raised(ConcurrencyError);
        }
        ott.version := Some(expected + 1);
        r := Done;
      }
    }
  }

  class RefreshTokenRepository {
    const session: Session

    constructor (session: Session)
      ensures this.session == session
    {
      this.session := session;
    }

    /** The loaded token has no client metadata, for none is stored. */
    twostate predicate IsLoaded(new rt: RefreshToken?, reply: Reply)
      reads if rt == null then {} else {rt}
    {
      match LoadRefresh(reply)
      case None => rt == null
      case Some(t) =>
        && rt != null && fresh(rt) && rt.id == t.id && rt.Data() == t.data && rt.version == Some(t.version)
        && rt.client == NO_CLIENT && rt.events == []
    }

    /** What a lookup ends in: the loaded token, null, or the error if there are two hits. */
    twostate predicate IsAnswer(new r: Result<RefreshToken?>, rows: Store, q: Query)
      reads if r.Ok? && r.value != null then {r.value} else {}
    {
      && (UniqueHits(rows) ==> r.Ok?)
      && match r
         case Err(e) => e == MultipleResultsFound && !AtMostOneHit(rows, q)
         case Ok(found) => AtMostOneHit(rows, q) && IsLoaded(found, Select(rows, q))
    }

    method Orm2Domain(reply: Reply) returns (rt: RefreshToken?)
      ensures IsLoaded(rt, reply)
    {
      if reply.None? || !reply.value.cell.row.RefreshRow? {
        return null;
      }
      var t := reply.value.cell.row.rt;
      var loaded := new RefreshToken(
        reply.value.key.id, t.userId, t.tokenHash, t.expiresAt, t.createdAt, t.revokedAt, t.replacedBy, NO_CLIENT);
      loaded.version := Some(reply.value.cell.version);
      rt := loaded;
    }

    method GetByString(token: string) returns (r: Result<RefreshToken?>)
      modifies session`statements
      ensures session.statements == old(session.statements) + 1
      ensures IsAnswer(r, session.env(old(session.statements)), RefreshByHash(Sha256(token)))
    {
      var reply := session.SelectOne(RefreshByHash(Sha256(token)));
      if reply.Err? {
        return Err(reply.error);
      }
      var rt := Orm2Domain(reply.value);
      r := Ok(rt);
    }

    method Save(rt: RefreshToken) returns (r: Outcome)
      modifies session`statements, session`pending, rt`version
      ensures session.Saved(old(SaveOf(RefreshKey(rt.id), rt.version, RefreshRow(rt.Data()))), r)
      ensures rt.version == if r.Done? then Some(NextVersion(old(rt.version))) else old(rt.version)
    {
      var data := RefreshData(rt.userId, rt.tokenHash, rt.expiresAt, rt.createdAt, rt.revokedAt, rt.replacedById);
      if rt.version.None? {
        r := session.InsertRow(RefreshKey(rt.id), RefreshRow(data));
        if r.Raised? {
          return;
        }
        rt.version := Some(1);
      } else {
        var expected := rt.version.value;
        var rowCount := session.UpdateRow(RefreshKey(rt.id), expected, RefreshRow(data));
        if rowCount != 1 {
          return Raised(ConcurrencyError);
        }
        rt.version := Some(expected + 1);
        r := Done;
      }
    }
  }
}
