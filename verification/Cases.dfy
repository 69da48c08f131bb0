/** The use cases as objects: each runs its transaction on a session and publishes after the commit. */
module Cases {
  import opened Domain
  import opened Entities
  import opened Events
  import opened EventQueues
  import opened Repositories
  import opened Results
  import Services
  import opened Stores
  import opened UseCases

  function Saves(plan: Plan): seq<Write> {
    [plan.first] + if plan.second.Some? then [plan.second.value] else []
  }

  /**
   * A session that has just been opened for a request. Its environment never has two hits for a query, as
   * the machine guarantees, so no lookup raises.
   */
  ghost predicate IsNew(s: Session)
    reads s
  {
    s.statements == 0 && s.pending == [] && s.durable == [] && forall n :: UniqueHits(s.env(n))
  }

  /** The block of a transaction did what the program of the use case does on what the session met. */
  twostate predicate RanBlock(s: Session, req: Request, d: Draw, r: Outcome, events: seq<Event>)
    reads s
  {
    && s.durable == old(s.durable)
    && match Transact(req, d, s.env)
       case Err(e) => r == Raised(e)
       case Ok(plan) => r == Done && s.pending == Saves(plan) && events == plan.published
  }

  /**
   * The use case ended as its program does on what the session met: either its saves are durable, its
   * events were handed over and are in the queues, or nothing left a trace.
   */
  twostate predicate Ran(s: Session, p: EventPublisher, req: Request, d: Draw, r: Outcome)
    reads s, p, p.queue, p.notifications
  {
    && p.queue.Valid()
    && match Transact(req, d, s.env)
       case Err(e) =>
         && r == Raised(e) && s.durable == old(s.durable) && p.handed == old(p.handed)
         && p.queue.log == old(p.queue.log) && p.notifications.events == old(p.notifications.events)
       case Ok(plan) =>
         && r == Done && s.durable == old(s.durable) + Saves(plan) && p.handed == old(p.handed) + plan.published
         && p.queue.log == old(p.queue.log) + DomainEvents(plan.published)
         && p.notifications.events == old(p.notifications.events) + NotificationEvents(plan.published)
  }

  /**
   * The pair that a login or a refresh answers: its texts are those of the refresh token that the plan
   * inserts, by hash, and of that token's user.
   */
  ghost predicate Answers(result: Result<Plan>, pair: Option<TokenPair>) {
    match result
    case Err(_) => pair.None?
    case Ok(plan) =>
      && pair.Some? && plan.second.Some? && plan.second.value.Insert? && plan.second.value.row.RefreshRow?
      && plan.second.value.row.rt.tokenHash == Sha256(pair.value.refresh)
      && plan.second.value.row.rt.userId == pair.value.access.subject
  }

  /** Two saves, one after the other; the first failure ends the transaction. */
  twostate predicate SavedBoth(s: Session, first: Write, second: Write, r: Outcome)
    reads s
  {
    && s.durable == old(s.durable)
    && match SaveError(s.env(old(s.statements)), first)
       case Some(e) => r == Raised(e)
       case None =>
         match SaveError(s.env(old(s.statements) + 1), second)
         case Some(e) => r == Raised(e)
         case None => r == Done && s.pending == old(s.pending) + [first, second]
  }

  /** Saves the user, then the one-time token. */
  method SaveUserAndToken(users: UserRepository, otts: OneTimeTokenRepository, user: User, ott: OneTimeToken)
    returns (r: Outcome)
    requires users.session == otts.session
    modifies users.session`statements, users.session`pending, user`version, ott`version
    ensures SavedBoth(users.session, old(SaveOf(UserKey(user.id), user.version, UserRow(user.Data()))),
                      old(SaveOf(OneTimeKey(ott.id), ott.version, OneTimeRow(ott.Data()))), r)
  {
    hide SaveError;
    r := users.Save(user);
    if r.Raised? {
      return;
    }
    r := otts.Save(ott);
  }

  class VerifyEmailCase {
    const tx: Transaction
    const users: UserRepository
    const otts: OneTimeTokenRepository
    const publisher: EventPublisher

    ghost predicate Ready()
      reads tx.session, publisher.queue
    {
      users.session == tx.session && otts.session == tx.session && IsNew(tx.session) && publisher.queue.Valid()
    }

    constructor (tx: Transaction, users: UserRepository, otts: OneTimeTokenRepository, publisher: EventPublisher)
      ensures this.tx == tx && this.users == users && this.otts == otts && this.publisher == publisher
    {
      this.tx, this.users, this.otts, this.publisher := tx, users, otts, publisher;
    }

    /** Uses the token, verifies the user and pulls its events. */
    method Redeem(user: User, ott: OneTimeToken, d: Draw) returns (r: Outcome, events: seq<Event>)
      requires user.version.Some? && ott.version.Some? && user.events == []
      modifies user`isEmailVerified, user`events, ott`used
      ensures user.version == old(user.version) && ott.version == old(ott.version)
      ensures match PlanEmailVerification(
                Some(Loaded(ott.id, old(ott.Data()), ott.version.value)),
                Some(Loaded(user.id, old(user.Data()), user.version.value)), d)
              case Err(e) => r == Raised(e)
              case Ok(plan) =>
                && r == Done && events == plan.published
                && plan.first == SaveOf(UserKey(user.id), user.version, UserRow(user.Data()))
                && plan.second == Some(SaveOf(OneTimeKey(ott.id), ott.version, OneTimeRow(ott.Data())))
    {
      events := [];
      r := ott.Use(VERIFY_EMAIL, d.checkedAt);
      if r.Raised? {
        return;
      }
      r := user.VerifyEmail();
      if r.Raised? {
        return;
      }
      var pulled := user.PullDomainEvents();
      events := events + pulled;
    }

    method InTransaction(token: string, d: Draw) returns (r: Outcome, events: seq<Event>)
      requires Ready()
      modifies tx.session`statements, tx.session`pending
      ensures RanBlock(tx.session, EmailVerification(token), d, r, events)
    {
      hide Select, SaveError, UniqueHits;
      events := [];
      var found := otts.GetByString(token);
      var ott := found.value;
      if ott == null {
        return Raised(OneTimeTokenNotFound), events;
      }
      var foundUser := users.GetById(ott.userId);
      var user := foundUser.value;
      if user == null {
        return Raised(UserNotFound), events;
      }
      r, events := Redeem(user, ott, d);
      if r.Raised? {
        return;
      }
      hide PlanEmailVerification;
      r := SaveUserAndToken(users, otts, user, ott);
    }

    method Execute(token: string, d: Draw) returns (r: Outcome)
      requires Ready()
      modifies tx.session, publisher`handed, publisher.queue, publisher.notifications
      ensures Ran(tx.session, publisher, EmailVerification(token), d, r)
    {
      hide Transact, UniqueHits;
      tx.Enter();
      var events;
      r, events := InTransaction(token, d);
      tx.Exit(r);
      if r.Raised? {
        return;
      }
      publisher.Publish(events);
    }
  }

  class RegisterUserCase {
    const tx: Transaction
    const users: UserRepository
    const otts: OneTimeTokenRepository
    const publisher: EventPublisher

    ghost predicate Ready()
      reads tx.session, publisher.queue
    {
      users.session == tx.session && otts.session == tx.session && IsNew(tx.session) && publisher.queue.Valid()
    }

    constructor (tx: Transaction, users: UserRepository, otts: OneTimeTokenRepository, publisher: EventPublisher)
      ensures this.tx == tx && this.users == users && this.otts == otts && this.publisher == publisher
    {
      this.tx, this.users, this.otts, this.publisher := tx, users, otts, publisher;
    }

    method InTransaction(email: string, password: string, d: Draw) returns (r: Outcome, events: seq<Event>)
      requires Ready()
      modifies tx.session`statements, tx.session`pending
      ensures RanBlock(tx.session, Register(email, password), d, r, events)
    {
      hide Select, SaveError, UniqueHits, CreateUser, Domain.RequestEmailVerification;
      events := [];
      var found := users.GetByEmail(email);
      var user := found.value;
      if user != null && user.isEmailVerified {
        return Raised(UserAlreadyExists), events;
      }
      if user == null {
        var created := User.Create(d.userId, email, password, d.bornAt);
        if created.Err? {
          return Raised(created.error), events;
        }
        user := created.value;
      }
      var ott := Services.RequestVerification(user, d);
      if ott.Err? {
        return Raised(ott.error), events;
      }
      var pulled := user.PullDomainEvents();
      events := events + pulled;
      r := SaveUserAndToken(users, otts, user, ott.value);
    }

    method Execute(email: string, password: string, d: Draw) returns (r: Outcome)
      requires Ready()
      modifies tx.session, publisher`handed, publisher.queue, publisher.notifications
      ensures Ran(tx.session, publisher, Register(email, password), d, r)
    {
      hide Transact, UniqueHits;
      tx.Enter();
      var events;
      r, events := InTransaction(email, password, d);
      tx.Exit(r);
      if r.Raised? {
        return;
      }
      publisher.Publish(events);
    }
  }

  /** Saves the user, then the refresh token. */
  method SaveUserAndRefreshToken(users: UserRepository, rts: RefreshTokenRepository, user: User, rt: RefreshToken)
    returns (r: Outcome)
    requires users.session == rts.session
    modifies users.session`statements, users.session`pending, user`version, rt`version
    ensures SavedBoth(users.session, old(SaveOf(UserKey(user.id), user.version, UserRow(user.Data()))),
                      old(SaveOf(RefreshKey(rt.id), rt.version, RefreshRow(rt.Data()))), r)
  {
    hide SaveError;
    r := users.Save(user);
    if r.Raised? {
      return;
    }
    r := rts.Save(rt);
  }

  class LoginUserCase {
    const tx: Transaction
    const users: UserRepository
    const refreshTokens: RefreshTokenRepository
    const publisher: EventPublisher

    ghost predicate Ready()
      reads tx.session, publisher.queue
    {
      users.session == tx.session && refreshTokens.session == tx.session && IsNew(tx.session) && publisher.queue.Valid()
    }

    constructor (
      tx: Transaction, users: UserRepository, refreshTokens: RefreshTokenRepository, publisher: EventPublisher)
      ensures this.tx == tx && this.users == users && this.refreshTokens == refreshTokens && this.publisher == publisher
    {
      this.tx, this.users, this.refreshTokens, this.publisher := tx, users, refreshTokens, publisher;
    }

    method InTransaction(email: string, password: string, client: Client, d: Draw)
      returns (r: Outcome, events: seq<Event>, pair: Option<TokenPair>)
      requires Ready()
      modifies tx.session`statements, tx.session`pending
      ensures RanBlock(tx.session, Login(email, password, client), d, r, events)
      ensures r.Done? ==> Answers(Transact(Login(email, password, client), d, tx.session.env), pair)
    {
      hide Select, SaveError, UniqueHits, Domain.AssertCanLogin;
      events, pair := [], None;
      var found := users.GetByEmail(email);
      var user := found.value;
      if user == null {
        return Raised(UserNotFound), events, None;
      }
      r := user.AssertCanLogin(password);
      if r.Raised? {
        return;
      }
      var access := AccessToken(user.id);
      var refreshToken := RefreshToken.Create(d.tokenId, user.id, d.token, d.issuedAt, client);
      pair := Some(TokenPair(access, d.token));
      var pulled := user.PullDomainEvents();
      var pulledToo := refreshToken.PullDomainEvents();
      events := events + pulled + pulledToo;
      r := SaveUserAndRefreshToken(users, refreshTokens, user, refreshToken);
    }

    method Execute(email: string, password: string, client: Client, d: Draw)
      returns (r: Outcome, pair: Option<TokenPair>)
      requires Ready()
      modifies tx.session, publisher`handed, publisher.queue, publisher.notifications
      ensures Ran(tx.session, publisher, Login(email, password, client), d, r)
      ensures Answers(Transact(Login(email, password, client), d, tx.session.env), pair)
    {
      hide Transact, UniqueHits;
      tx.Enter();
      var events;
      r, events, pair := InTransaction(email, password, client, d);
      tx.Exit(r);
      if r.Raised? {
        return r, None;
      }
      publisher.Publish(events);
    }
  }

  class RevokeTokenCase {
    const tx: Transaction
    const refreshTokens: RefreshTokenRepository
    const publisher: EventPublisher

    ghost predicate Ready()
      reads tx.session, publisher.queue
    {
      refreshTokens.session == tx.session && IsNew(tx.session) && publisher.queue.Valid()
    }

    constructor (tx: Transaction, refreshTokens: RefreshTokenRepository, publisher: EventPublisher)
      ensures this.tx == tx && this.refreshTokens == refreshTokens && this.publisher == publisher
    {
      this.tx, this.refreshTokens, this.publisher := tx, refreshTokens, publisher;
    }

    method InTransaction(token: string, client: Client, d: Draw) returns (r: Outcome, events: seq<Event>)
      requires Ready()
      modifies tx.session`statements, tx.session`pending
      ensures RanBlock(tx.session, Revoke(token, client), d, r, events)
    {
      hide Select, SaveError, UniqueHits;
      events := [];
      var found := refreshTokens.GetByString(token);
      var rt := found.value;
      if rt == null {
        return Raised(RefreshTokenNotFound), events;
      }
      r := rt.Revoke(d.checkedAt, d.revokedAt);
      if r.Raised? {
        return;
      }
      var securityThreat := AssessRisk(rt.client, client);
      if securityThreat != 0 {
        events := events + [SuspiciousRefreshTokenRevocation(rt.userId, rt.id, client)];
      }
      var pulled := rt.PullDomainEvents();
      events := events + pulled;
      r := refreshTokens.Save(rt);
    }

    method Execute(token: string, client: Client, d: Draw) returns (r: Outcome)
      requires Ready()
      modifies tx.session, publisher`handed, publisher.queue, publisher.notifications
      ensures Ran(tx.session, publisher, Revoke(token, client), d, r)
    {
      hide Transact, UniqueHits;
      tx.Enter();
      var events;
      r, events := InTransaction(token, client, d);
      tx.Exit(r);
      if r.Raised? {
        return;
      }
      publisher.Publish(events);
    }
  }

  class ChangePasswordCase {
    const tx: Transaction
    const users: UserRepository
    const publisher: EventPublisher

    ghost predicate Ready()
      reads tx.session, publisher.queue
    {
      users.session == tx.session && IsNew(tx.session) && publisher.queue.Valid()
    }

    constructor (tx: Transaction, users: UserRepository, publisher: EventPublisher)
      ensures this.tx == tx && this.users == users && this.publisher == publisher
    {
      this.tx, this.users, this.publisher := tx, users, publisher;
    }

    method InTransaction(subject: Option<Id>, oldPassword: string, newPassword: string, d: Draw)
      returns (r: Outcome, events: seq<Event>)
      requires Ready()
      modifies tx.session`statements, tx.session`pending
      ensures RanBlock(tx.session, PasswordChange(subject, oldPassword, newPassword), d, r, events)
    {
      hide Select, SaveError, UniqueHits, Domain.ChangePassword;
      events := [];
      if subject.None? {
        return Raised(InvalidAccessToken), events;
      }
      var found := users.GetById(subject.value);
      var user := found.value;
      if user == null {
        return Raised(UserNotFound), events;
      }
      r := user.ChangePassword(oldPassword, newPassword);
      if r.Raised? {
        return;
      }
      var pulled := user.PullDomainEvents();
      events := events + pulled;
      r := users.Save(user);
    }

    method Execute(subject: Option<Id>, oldPassword: string, newPassword: string, d: Draw) returns (r: Outcome)
      requires Ready()
      modifies tx.session, publisher`handed, publisher.queue, publisher.notifications
      ensures Ran(tx.session, publisher, PasswordChange(subject, oldPassword, newPassword), d, r)
    {
      hide Transact, UniqueHits;
      tx.Enter();
      var events;
      r, events := InTransaction(subject, oldPassword, newPassword, d);
      tx.Exit(r);
      if r.Raised? {
        return;
      }
      publisher.Publish(events);
    }
  }

  class PasswordRecoverRequestCase {
    const tx: Transaction
    const users: UserRepository
    const otts: OneTimeTokenRepository
    const publisher: EventPublisher

    ghost predicate Ready()
      reads tx.session, publisher.queue
    {
      users.session == tx.session && otts.session == tx.session && IsNew(tx.session) && publisher.queue.Valid()
    }

    constructor (tx: Transaction, users: UserRepository, otts: OneTimeTokenRepository, publisher: EventPublisher)
      ensures this.tx == tx && this.users == users && this.otts == otts && this.publisher == publisher
    {
      this.tx, this.users, this.otts, this.publisher := tx, users, otts, publisher;
    }

    method InTransaction(email: string, d: Draw) returns (r: Outcome, events: seq<Event>)
      requires Ready()
      modifies tx.session`statements, tx.session`pending
      ensures RanBlock(tx.session, PasswordRecoverRequest(email), d, r, events)
    {
      hide Select, SaveError, UniqueHits, Domain.RequestPasswordRecover;
      events := [];
      var found := users.GetByEmail(email);
      var user := found.value;
      if user == null {
        return Raised(UserNotFound), events;
      }
      var ott := Services.RequestPasswordRecover(user, d);
      if ott.Err? {
        return Raised(ott.error), events;
      }
      var pulled := user.PullDomainEvents();
      events := events + pulled;
      r := SaveUserAndToken(users, otts, user, ott.value);
    }

    method Execute(email: string, d: Draw) returns (r: Outcome)
      requires Ready()
      modifies tx.session, publisher`handed, publisher.queue, publisher.notifications
      ensures Ran(tx.session, publisher, PasswordRecoverRequest(email), d, r)
    {
      hide Transact, UniqueHits;
      tx.Enter();
      var events;
      r, events := InTransaction(email, d);
      tx.Exit(r);
      if r.Raised? {
        return;
      }
      publisher.Publish(events);
    }
  }

  class PasswordRecoverCase {
    const tx: Transaction
    const users: UserRepository
    const otts: OneTimeTokenRepository
    const publisher: EventPublisher

    ghost predicate Ready()
      reads tx.session, publisher.queue
    {
      users.session == tx.session && otts.session == tx.session && IsNew(tx.session) && publisher.queue.Valid()
    }

    constructor (tx: Transaction, users: UserRepository, otts: OneTimeTokenRepository, publisher: EventPublisher)
      ensures this.tx == tx && this.users == users && this.otts == otts && this.publisher == publisher
    {
      this.tx, this.users, this.otts, this.publisher := tx, users, otts, publisher;
    }

    /** Changes the password first, then uses the token, and pulls the events of the user. */
    method Redeem(user: User, ott: OneTimeToken, password: string, d: Draw) returns (r: Outcome, events: seq<Event>)
      requires user.version.Some? && ott.version.Some? && user.events == []
      modifies user`passwordHash, user`events, ott`used
      ensures user.version == old(user.version) && ott.version == old(ott.version)
      ensures match PlanPasswordRecover(
                password,
                Some(Loaded(ott.id, old(ott.Data()), ott.version.value)),
                Some(Loaded(user.id, old(user.Data()), user.version.value)), d)
              case Err(e) => r == Raised(e)
              case Ok(plan) =>
                && r == Done && events == plan.published
                && plan.first == SaveOf(UserKey(user.id), user.version, UserRow(user.Data()))
                && plan.second == Some(SaveOf(OneTimeKey(ott.id), ott.version, OneTimeRow(ott.Data())))
    {
      hide UseOneTime, Domain.RecoverPassword;
      events := [];
      r := user.RecoverPassword(password);
      if r.Raised? {
        return;
      }
      r := ott.Use(RECOVER_PASSWORD, d.checkedAt);
      if r.Raised? {
        return;
      }
      var pulled := user.PullDomainEvents();
      events := events + pulled;
    }

    method InTransaction(token: string, password: string, d: Draw) returns (r: Outcome, events: seq<Event>)
      requires Ready()
      modifies tx.session`statements, tx.session`pending
      ensures RanBlock(tx.session, PasswordRecover(token, password), d, r, events)
    {
      hide Select, SaveError, UniqueHits, UseOneTime, Domain.RecoverPassword;
      events := [];
      var found := otts.GetByString(token);
      var ott := found.value;
      if ott == null {
        return Raised(OneTimeTokenNotFound), events;
      }
      var foundUser := users.GetById(ott.userId);
      var user := foundUser.value;
      if user == null {
        return Raised(UserNotFound), events;
      }
      r, events := Redeem(user, ott, password, d);
      if r.Raised? {
        return;
      }
      hide PlanPasswordRecover;
      r := SaveUserAndToken(users, otts, user, ott);
    }

    method Execute(token: string, password: string, d: Draw) returns (r: Outcome)
      requires Ready()
      modifies tx.session, publisher`handed, publisher.queue, publisher.notifications
      ensures Ran(tx.session, publisher, PasswordRecover(token, password), d, r)
    {
      hide Transact, UniqueHits;
      tx.Enter();
      var events;
      r, events := InTransaction(token, password, d);
      tx.Exit(r);
      if r.Raised? {
        return;
      }
      publisher.Publish(events);
    }
  }

  /**
   * The outcome of a refresh. A success hands nothing to the publisher. On reuse a second transaction
   * reads the token once more, and its report is handed over; the queues drop it.
   */
  twostate predicate RanRefresh(s: Session, p: EventPublisher, token: string, client: Client, d: Draw, r: Outcome)
    reads s, p, p.queue, p.notifications
  {
    && p.queue.Valid()
    && p.queue.log == old(p.queue.log) && p.notifications.events == old(p.notifications.events)
    && p.handed == old(p.handed)
         + (if r == Raised(RefreshTokenReuse) then ReuseReport(token, client, s.env(1)) else [])
    && match Transact(Refresh(token, client), d, s.env)
       case Err(e) => r == Raised(e) && s.durable == old(s.durable)
       case Ok(plan) => r == Done && s.durable == old(s.durable) + Saves(plan)
  }

  lemma NoSaveRaisesReuse()
    ensures forall s, w :: SaveError(s, w) != Some(RefreshTokenReuse)
  {
  }

  class RefreshTokenCase {
    const tx: Transaction
    const refreshTokens: RefreshTokenRepository
    const publisher: EventPublisher

    ghost predicate Ready()
      reads tx.session, publisher.queue
    {
      refreshTokens.session == tx.session && IsNew(tx.session) && publisher.queue.Valid()
    }

    constructor (tx: Transaction, refreshTokens: RefreshTokenRepository, publisher: EventPublisher)
      ensures this.tx == tx && this.refreshTokens == refreshTokens && this.publisher == publisher
    {
      this.tx, this.refreshTokens, this.publisher := tx, refreshTokens, publisher;
    }

    /** Uses the token, creates its successor, and pulls the events of both. */
    method UseAndRotate(rt: RefreshToken, d: Draw)
      returns (r: Outcome, newRt: RefreshToken?, pair: Option<TokenPair>, events: seq<Event>)
      requires rt.version.Some?
      modifies rt`revokedAt, rt`events, rt`replacedById
      ensures rt.version == old(rt.version)
      ensures match PlanRefresh(Some(Loaded(rt.id, old(rt.Data()), rt.version.value)), d)
              case Err(e) => r == Raised(e)
              case Ok(plan) =>
                && r == Done && newRt != null && fresh(newRt) && newRt.version == None
                && Answers(Ok(plan), pair)
                && plan.first == SaveOf(RefreshKey(rt.id), rt.version, RefreshRow(rt.Data()))
                && plan.second == Some(SaveOf(RefreshKey(newRt.id), None, RefreshRow(newRt.Data())))
    {
      hide UseRefresh, MarkReplaced;
      events, newRt, pair := [], null, None;
      r := rt.Use(d.checkedAt, d.revokedAt);
      if r.Raised? {
        return;
      }
      var rotated := Services.Rotate(rt, d);
      if rotated.Err? {
        return Raised(rotated.error), null, None, events;
      }
      newRt := rotated.value.newToken;
      pair := Some(TokenPair(rotated.value.access, rotated.value.raw));
      var pulled := rt.PullDomainEvents();
      var pulledToo := newRt.PullDomainEvents();
      events := events + pulled + pulledToo;
    }

    method InTransaction(token: string, client: Client, d: Draw)
      returns (r: Outcome, pair: Option<TokenPair>, events: seq<Event>)
      requires Ready()
      modifies tx.session`statements, tx.session`pending
      ensures RanBlock(tx.session, Refresh(token, client), d, r, [])
      ensures r.Done? ==> Answers(Transact(Refresh(token, client), d, tx.session.env), pair)
      ensures r == Raised(RefreshTokenReuse) ==> tx.session.statements == 1
    {
      hide Select, SaveError, UniqueHits;
      events, pair := [], None;
      var found := refreshTokens.GetByString(token);
      var rt := found.value;
      if rt == null {
        return Raised(RefreshTokenNotFound), None, events;
      }
      var newRt: RefreshToken?;
      r, newRt, pair, events := UseAndRotate(rt, d);
      if r.Raised? {
        return;
      }
      hide PlanRefresh, Answers;
      NoSaveRaisesReuse();
      r := refreshTokens.Save(rt);
      if r.Raised? {
        return;
      }
      r := refreshTokens.Save(newRt);
    }

    /** The second transaction, which looks the reused token up again. */
    method ReuseEvents(token: string, client: Client) returns (events: seq<Event>)
      requires refreshTokens.session == tx.session && UniqueHits(tx.session.env(tx.session.statements))
      modifies tx.session`statements, tx.session`pending, tx.session`durable
      ensures tx.session.durable == old(tx.session.durable)
      ensures events == ReuseReport(token, client, tx.session.env(old(tx.session.statements)))
    {
      hide Select, UniqueHits;
      events := [];
      tx.Enter();
      var found := refreshTokens.GetByString(token);
      var rt := found.value;
      if rt != null {
        events := events + [RefreshTokenReuseDetected(rt.userId, rt.id, client)];
      }
      tx.Exit(Done);
    }

    method Execute(token: string, client: Client, d: Draw) returns (r: Outcome, pair: Option<TokenPair>)
      requires Ready()
      modifies tx.session, publisher`handed, publisher.queue, publisher.notifications
      ensures RanRefresh(tx.session, publisher, token, client, d, r)
      ensures Answers(Transact(Refresh(token, client), d, tx.session.env), pair)
    {
      hide Transact, UniqueHits;
      tx.Enter();
      var pulled;
      r, pair, pulled := InTransaction(token, client, d);
      tx.Exit(r);
      if r.Raised? {
        pair := None;
      }
      if r == Raised(RefreshTokenReuse) {
        var events := ReuseEvents(token, client);
        publisher.Publish(events);
        ReportIsDropped(events);
      }
    }
  }
}
