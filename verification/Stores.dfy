/**
 * The committed tables as versioned rows, what a SELECT finds in them, and what an INSERT or a
 * conditional UPDATE does to them.
 */
module Stores {
  import opened Domain
  import opened Events
  import opened Results

  /** The primary keys of the three tables. */
  datatype Key = UserKey(id: Id) | OneTimeKey(id: Id) | RefreshKey(id: Id)

  datatype Row = UserRow(user: UserData) | OneTimeRow(ott: OneTimeData) | RefreshRow(rt: RefreshData)

  /** A stored row with its `version` column. */
  datatype Cell = Cell(row: Row, version: nat)

  type Store = map<Key, Cell>

  /** The lookups of the repositories. */
  datatype Query =
    | UserByEmail(email: string)
    | UserById(id: Id)
    | OneTimeByHash(hash: TokenHash)
    | RefreshByHash(hash: TokenHash)

  predicate Matches(q: Query, k: Key, r: Row) {
    match q
    case UserByEmail(email) => k.UserKey? && r.UserRow? && r.user.email == email
    case UserById(id) => k == UserKey(id) && r.UserRow?
    case OneTimeByHash(hash) => k.OneTimeKey? && r.OneTimeRow? && r.ott.tokenHash == hash
    case RefreshByHash(hash) => k.RefreshKey? && r.RefreshRow? && r.rt.tokenHash == hash
  }

  datatype Found = Found(key: Key, cell: Cell)

  type Reply = Option<Found>

  /** What `scalar_one_or_none` returns unless it raises on a second hit, see AtMostOneHit. */
  ghost function Select(s: Store, q: Query): (r: Reply)
    ensures r.Some? ==> r.value.key in s && r.value.cell == s[r.value.key] && Matches(q, r.value.key, r.value.cell.row)
    ensures r.None? ==> forall k :: k in s ==> !Matches(q, k, s[k].row)
  {
    if k :| k in s && Matches(q, k, s[k].row) then Some(Found(k, s[k])) else None
  }

  /** No lookup has two hits. */
  ghost predicate UniqueHits(s: Store) {
    forall q, k1, k2 ::
      k1 in s && k2 in s && Matches(q, k1, s[k1].row) && Matches(q, k2, s[k2].row) ==> k1 == k2
  }

  /** In well-formed rows a query selects the one row that matches. */
  lemma Selects(s: Store, q: Query, k: Key)
    requires UniqueHits(s) && k in s && Matches(q, k, s[k].row)
    ensures Select(s, q) == Some(Found(k, s[k]))
  {
  }

  ghost predicate AtMostOneHit(s: Store, q: Query) {
    forall k1, k2 :: k1 in s && k2 in s && Matches(q, k1, s[k1].row) && Matches(q, k2, s[k2].row) ==> k1 == k2
  }

  datatype Write = Insert(key: Key, row: Row) | Update(key: Key, expected: nat, row: Row)

  /** The UPDATE of one-time tokens does not assign the purpose column. */
  function Overwrite(stored: Row, row: Row): Row {
    if stored.OneTimeRow? && row.OneTimeRow? then OneTimeRow(row.ott.(purpose := stored.ott.purpose)) else row
  }

  predicate EmailTaken(s: Store, row: Row) {
    row.UserRow? && exists k :: k in s && s[k].row.UserRow? && s[k].row.user.email == row.user.email
  }

  /** The error that a save raises when it meets the committed rows `s`, if any. */
  function SaveError(s: Store, w: Write): Option<Error> {
    match w
    case Insert(k, row) => if k in s || EmailTaken(s, row) then Some(IntegrityError) else None
    case Update(k, expected, _) => if k in s && s[k].version == expected then None else Some(ConcurrencyError)
  }

  /**
   * A save that succeeds touches one row: an insert adds version 1 under a key that was free, an update
   * replaces the expected version by the next one, and keeps the purpose of a one-time token.
   */
  lemma SaveTouchesOneRow(s: Store, w: Write)
    requires SaveError(s, w).None?
    ensures w.Insert? <==> w.key !in s
    ensures w.Insert? && w.row.UserRow? ==>
              forall k :: k in s && s[k].row.UserRow? ==> s[k].row.user.email != w.row.user.email
    ensures ApplyWrite(s, w).Keys == s.Keys + {w.key}
    ensures forall k :: k in s && k != w.key ==> ApplyWrite(s, w)[k] == s[k]
    ensures ApplyWrite(s, w)[w.key].version == if w.key in s then s[w.key].version + 1 else 1
    ensures w.Update? ==> s[w.key].version == w.expected
    ensures w.Update? && s[w.key].row.OneTimeRow? && w.row.OneTimeRow? ==>
              ApplyWrite(s, w)[w.key].row == OneTimeRow(w.row.ott.(purpose := s[w.key].row.ott.purpose))
    ensures w.Insert? || !s[w.key].row.OneTimeRow? ==> ApplyWrite(s, w)[w.key].row == w.row
  {
  }

  function ApplyWrite(s: Store, w: Write): Store {
    match w
    case Insert(k, row) => s[k := Cell(row, 1)]
    case Update(k, expected, row) =>
      if k in s then s[k := Cell(Overwrite(s[k].row, row), expected + 1)] else s
  }
}
