/**
 * The eight use cases as transaction programs: what each reads, what it computes from the replies,
 * and what it then saves and publishes.
 */
module UseCases {
  import opened Domain
  import opened Events
  import opened Results
  import opened Stores

  datatype Request =
    | Register(email: string, password: string)
    | EmailVerification(token: string)
    | Login(email: string, password: string, client: Client)
    | Refresh(token: string, client: Client)
    | Revoke(token: string, client: Client)
    | PasswordChange(subject: Option<Id>, oldPassword: string, newPassword: string)
    | PasswordRecoverRequest(email: string)
    | PasswordRecover(token: string, password: string)

  /** The saves of a transaction, in order, and the events handed to the publisher after the commit. */
  datatype Plan = Plan(first: Write, second: Option<Write>, published: seq<Event>)
  {
    predicate Has(i: nat) {
      i == 0 || (i == 1 && second.Some?)
    }

    function Save(i: nat): Write
      requires Has(i)
    {
      if i == 0 then first else second.value
    }

    function Count(): nat {
      if second.Some? then 2 else 1
    }
  }

  /** An entity as a repository returns it: `orm2domain` keeps the version beside the data. */
  datatype Loaded<T> = Loaded(id: Id, data: T, version: nat)

  function LoadUser(r: Reply): Option<Loaded<UserData>> {
    if r.Some? && r.value.cell.row.UserRow?
    then Some(Loaded(r.value.key.id, r.value.cell.row.user, r.value.cell.version)) else None
  }

  function LoadOneTime(r: Reply): Option<Loaded<OneTimeData>> {
    if r.Some? && r.value.cell.row.OneTimeRow?
    then Some(Loaded(r.value.key.id, r.value.cell.row.ott, r.value.cell.version)) else None
  }

  function LoadRefresh(r: Reply): Option<Loaded<RefreshData>> {
    if r.Some? && r.value.cell.row.RefreshRow?
    then Some(Loaded(r.value.key.id, r.value.cell.row.rt, r.value.cell.version)) else None
  }

  /** The next SELECT of a use case that has received the replies `view`; None once it stops reading. */
  function NextQuery(req: Request, view: seq<Reply>): Option<Query> {
    if |view| == 0 then
      match req
      case Register(email, _) => Some(UserByEmail(email))
      case EmailVerification(token) => Some(OneTimeByHash(Sha256(token)))
      case Login(email, _, _) => Some(UserByEmail(email))
      case Refresh(token, _) => Some(RefreshByHash(Sha256(token)))
      case Revoke(token, _) => Some(RefreshByHash(Sha256(token)))
      case PasswordChange(subject, _, _) => if subject.Some? then Some(UserById(subject.value)) else None
      case PasswordRecoverRequest(email) => Some(UserByEmail(email))
      case PasswordRecover(token, _) => Some(OneTimeByHash(Sha256(token)))
    else if |view| == 1 && (req.EmailVerification? || req.PasswordRecover?) && LoadOneTime(view[0]).Some? then
      Some(UserById(LoadOneTime(view[0]).value.data.userId))
    else None
  }

  function PlanRegister(email: string, password: string, user: Option<Loaded<UserData>>, d: Draw): Result<Plan> {
    if user.Some? && user.value.data.verified then Err(UserAlreadyExists)
    else
      var created :- if user.Some? then Ok(Change(user.value.data, []))
                     else CreateUser(d.userId, email, password, d.bornAt);
      var id := if user.Some? then user.value.id else d.userId;
      var ott := CreateOneTime(id, d.token, d.issuedAt, EMAIL_TOKEN_EXPIRY, VERIFY_EMAIL);
      var asked :- RequestEmailVerification(id, created.data, d.token);
      var save := if user.Some? then Update(UserKey(id), user.value.version, UserRow(asked.data))
                  else Insert(UserKey(id), UserRow(asked.data));
      Ok(Plan(save, Some(Insert(OneTimeKey(d.tokenId), OneTimeRow(ott))), created.events + asked.events))
  }

  function PlanEmailVerification(
    ott: Option<Loaded<OneTimeData>>, user: Option<Loaded<UserData>>, d: Draw): Result<Plan>
  {
    if ott.None? then Err(OneTimeTokenNotFound)
    else if user.None? then Err(UserNotFound)
    else
      var used :- UseOneTime(ott.value.data, VERIFY_EMAIL, d.checkedAt);
      var verified :- VerifyEmail(user.value.id, user.value.data);
      Ok(Plan(Update(UserKey(user.value.id), user.value.version, UserRow(verified.data)),
              Some(Update(OneTimeKey(ott.value.id), ott.value.version, OneTimeRow(used))),
              verified.events))
  }

  function PlanLogin(password: string, client: Client, user: Option<Loaded<UserData>>, d: Draw): Result<Plan> {
    if user.None? then Err(UserNotFound)
    else
      match AssertCanLogin(user.value.data, password)
      case Raised(e) => Err(e)
      case Done =>
        var rt := CreateRefresh(user.value.id, d.token, d.issuedAt);
        Ok(Plan(Update(UserKey(user.value.id), user.value.version, UserRow(user.value.data)),
                Some(Insert(RefreshKey(d.tokenId), RefreshRow(rt))),
                [RefreshTokenCreated(user.value.id, d.tokenId, client)]))
  }

  /** The successful path pulls the events of both tokens and returns without publishing them. */
  function PlanRefresh(rt: Option<Loaded<RefreshData>>, d: Draw): Result<Plan> {
    if rt.None? then Err(RefreshTokenNotFound)
    else
      var used :- UseRefresh(rt.value.id, rt.value.data, d.checkedAt, d.revokedAt);
      var successor := CreateRefresh(used.data.userId, d.token, d.issuedAt);
      var replaced :- MarkReplaced(used.data, d.tokenId);
      Ok(Plan(Update(RefreshKey(rt.value.id), rt.value.version, RefreshRow(replaced)),
              Some(Insert(RefreshKey(d.tokenId), RefreshRow(successor))),
              []))
  }

  /** A loaded token has no client metadata, so the risk is assessed against NO_CLIENT. */
  function PlanRevoke(client: Client, rt: Option<Loaded<RefreshData>>, d: Draw): Result<Plan> {
    if rt.None? then Err(RefreshTokenNotFound)
    else
      var revoked :- RevokeRefresh(rt.value.id, rt.value.data, d.checkedAt, d.revokedAt);
      var reported := if AssessRisk(NO_CLIENT, client) != 0
                      then [SuspiciousRefreshTokenRevocation(rt.value.data.userId, rt.value.id, client)] else [];
      Ok(Plan(Update(RefreshKey(rt.value.id), rt.value.version, RefreshRow(revoked.data)),
              None,
              reported + revoked.events))
  }

  function PlanPasswordChange(
    subject: Option<Id>, oldPassword: string, newPassword: string, user: Option<Loaded<UserData>>): Result<Plan>
  {
    if subject.None? then Err(InvalidAccessToken)
    else if user.None? then Err(UserNotFound)
    else
      var changed :- ChangePassword(user.value.id, user.value.data, oldPassword, newPassword);
      Ok(Plan(Update(UserKey(user.value.id), user.value.version, UserRow(changed.data)), None, changed.events))
  }

  function PlanPasswordRecoverRequest(user: Option<Loaded<UserData>>, d: Draw): Result<Plan> {
    if user.None? then Err(UserNotFound)
    else
      var ott := CreateOneTime(user.value.id, d.token, d.issuedAt, PASSWORD_RECOVER_TOKEN_EXPIRY, RECOVER_PASSWORD);
      var asked :- RequestPasswordRecover(user.value.id, user.value.data, d.token);
      Ok(Plan(Update(UserKey(user.value.id), user.value.version, UserRow(asked.data)),
              Some(Insert(OneTimeKey(d.tokenId), OneTimeRow(ott))),
              asked.events))
  }

  function PlanPasswordRecover(
    password: string, ott: Option<Loaded<OneTimeData>>, user: Option<Loaded<UserData>>, d: Draw): Result<Plan>
  {
    if ott.None? then Err(OneTimeTokenNotFound)
    else if user.None? then Err(UserNotFound)
    else
      var recovered :- RecoverPassword(user.value.id, user.value.data, password);
      var used :- UseOneTime(ott.value.data, RECOVER_PASSWORD, d.checkedAt);
      Ok(Plan(Update(UserKey(user.value.id), user.value.version, UserRow(recovered.data)),
              Some(Update(OneTimeKey(ott.value.id), ott.value.version, OneTimeRow(used))),
              recovered.events))
  }

  /** What a use case computes once it has stopped reading. */
  function Compute(req: Request, view: seq<Reply>, d: Draw): Result<Plan> {
    var r0 := if |view| > 0 then view[0] else None;
    var r1 := if |view| > 1 then view[1] else None;
    match req
    case Register(email, password) => PlanRegister(email, password, LoadUser(r0), d)
    case EmailVerification(_) => PlanEmailVerification(LoadOneTime(r0), LoadUser(r1), d)
    case Login(_, password, client) => PlanLogin(password, client, LoadUser(r0), d)
    case Refresh(_, _) => PlanRefresh(LoadRefresh(r0), d)
    case Revoke(_, client) => PlanRevoke(client, LoadRefresh(r0), d)
    case PasswordChange(subject, before, after) => PlanPasswordChange(subject, before, after, LoadUser(r0))
    case PasswordRecoverRequest(_) => PlanPasswordRecoverRequest(LoadUser(r0), d)
    case PasswordRecover(_, password) => PlanPasswordRecover(password, LoadOneTime(r0), LoadUser(r1), d)
  }

  /** The committed rows that the n-th statement of a transaction meets, for every n. */
  type Environment = nat -> Store

  ghost function View(req: Request, env: Environment): seq<Reply> {
    match NextQuery(req, [])
    case None => []
    case Some(q) =>
      var first := Select(env(0), q);
      match NextQuery(req, [first])
      case None => [first]
      case Some(q') => [first, Select(env(1), q')]
  }

  /** The transaction of a use case: reads, computation, then the saves one after the other. */
  ghost function Transact(req: Request, d: Draw, env: Environment): Result<Plan> {
    var view := View(req, env);
    var plan :- Compute(req, view, d);
    var failed := SaveError(env(|view|), plan.first);
    if failed.Some? then Err(failed.value)
    else if plan.second.None? then Ok(plan)
    else
      var failedToo := SaveError(env(|view| + 1), plan.second.value);
      if failedToo.Some? then Err(failedToo.value) else Ok(plan)
  }

  function Apply(s: Store, plan: Plan): Store {
    var s1 := ApplyWrite(s, plan.first);
    if plan.second.Some? then ApplyWrite(s1, plan.second.value) else s1
  }

  /** The reuse report of the second transaction of a refresh, which met the rows `s`. */
  ghost function ReuseReport(token: string, client: Client, s: Store): seq<Event> {
    match LoadRefresh(Select(s, RefreshByHash(Sha256(token))))
    case None => []
    case Some(rt) => [RefreshTokenReuseDetected(rt.data.userId, rt.id, client)]
  }

  /** Every direct revocation is reported as suspicious: a loaded token never has an address to compare. */
  lemma EveryRevocationIsSuspicious(client: Client, rt: Option<Loaded<RefreshData>>, d: Draw)
    requires PlanRevoke(client, rt, d).Ok?
    ensures PlanRevoke(client, rt, d).value.published ==
              [SuspiciousRefreshTokenRevocation(rt.value.data.userId, rt.value.id, client),
               RefreshTokenRevoked(rt.value.data.userId, rt.value.id)]
  {
  }

  /**
   * A refresh is classified as reuse exactly if the token was replaced, whatever the clock says; a
   * token that was revoked directly, or expired, is invalid instead.
   */
  lemma ReuseIffReplaced(rt: Loaded<RefreshData>, d: Draw)
    ensures PlanRefresh(Some(rt), d) == Err(RefreshTokenReuse) <==> rt.data.replacedBy.Some?
    ensures PlanRefresh(Some(rt), d) == Err(TokenInvalid) <==>
            rt.data.replacedBy.None? && RevokedOrExpired(rt.data, d.checkedAt)
    ensures PlanRefresh(Some(rt), d).Ok? <==> RefreshUsable(rt.data, d.checkedAt)
  {
  }
}
