/** The entities as objects: their methods update fields and append to the list of pending events. */
module Entities {
  import opened Domain
  import opened Events
  import opened PasswordValidator
  import opened Results
  import EmailValidator

  class User {
    const id: Id
    var email: string
    var passwordHash: PasswordHash
    var active: bool
    var isEmailVerified: bool
    var createdAt: Time
    var events: seq<Event>
    var version: Option<nat>  // set by the repository

    ghost function Data(): UserData
      reads this
    {
      UserData(email, passwordHash, active, isEmailVerified, createdAt)
    }

    /** The call ended as `change` says: an error and no effect, or the changed data and the appended events. */
    twostate predicate Became(change: Result<Change<UserData>>, r: Outcome)
      reads this
    {
      && version == old(version)
      && match change
         case Err(e) => r == Raised(e) && Data() == old(Data()) && events == old(events)
         case Ok(c) => r == Done && Data() == c.data && events == old(events) + c.events
    }

    constructor (
      id: Id, email: string, passwordHash: PasswordHash, active: bool, isEmailVerified: bool, createdAt: Time)
      ensures this.id == id && Data() == UserData(email, passwordHash, active, isEmailVerified, createdAt)
      ensures events == [] && version == None
    {
      this.id, this.email, this.passwordHash := id, email, passwordHash;
      this.active, this.isEmailVerified, this.createdAt := active, isEmailVerified, createdAt;
      events, version := [], None;
    }

    static method Create(id: Id, email: string, password: string, now: Time) returns (r: Result<User>)
      ensures r.Err? <==> CreateUser(id, email, password, now).Err?
      ensures r.Err? ==> r.error == CreateUser(id, email, password, now).error
      ensures r.Ok? ==>
                && fresh(r.value) && r.value.id == id && r.value.version == None
                && CreateUser(id, email, password, now) == Ok(Change(r.value.Data(), r.value.events))
    {
      hide EmailValidator.ValidateEmail, ValidateHashPassword;
      var normal := EmailValidator.ValidateEmail(Text(email));
      if normal.Err? {
        return Err(normal.error);
      }
      var hash := ValidateHashPassword(Text(password));
      if hash.Err? {
        return Err(hash.error);
      }
      var user := new User(id, normal.value, hash.value, true, false, now);
      user.events := user.events + [UserCreated(user.id, user.email)];
      assert user.events == [UserCreated(id, normal.value)];
      r := Ok(user);
    }

    method RequestEmailVerification(token: string) returns (r: Outcome)
      modifies this`events
      ensures Became(Domain.RequestEmailVerification(id, old(Data()), token), r)
    {
      if isEmailVerified {
        return Raised(EmailAlreadyVerified);
      }
      events := events + [UserEmailVerificationRequested(id, email, token)];
      r := Done;
    }

    method RequestPasswordRecover(token: string) returns (r: Outcome)
      modifies this`events
      ensures Became(Domain.RequestPasswordRecover(id, old(Data()), token), r)
    {
      if !isEmailVerified {
        return Raised(EmailNotVerified);
      }
      events := events + [UserPasswordRecoverRequested(id, email, token)];
      r := Done;
    }

    method VerifyEmail() returns (r: Outcome)
      modifies this`isEmailVerified, this`events
      ensures Became(Domain.VerifyEmail(id, old(Data())), r)
    {
      if isEmailVerified {
        return Raised(EmailAlreadyVerified);
      }
      isEmailVerified := true;
      events := events + [UserEmailVerified(id, email)];
      r := Done;
    }

    method AssertCanLogin(password: string) returns (r: Outcome)
      ensures r == Domain.AssertCanLogin(Data(), password)
    {
      if !active {
        return Raised(AccountDeactivated);
      }
      if !isEmailVerified {
        return Raised(EmailNotVerified);
      }
      if !PasswordValidator.VerifyPassword(password, passwordHash) {
        return Raised(InvalidPassword);
      }
      r := Done;
    }

    method ChangePassword(oldPassword: string, newPassword: string) returns (r: Outcome)
      modifies this`passwordHash, this`events
      ensures Became(Domain.ChangePassword(id, old(Data()), oldPassword, newPassword), r)
    {
      hide ValidateHashPassword;
      if !PasswordValidator.VerifyPassword(oldPassword, passwordHash) {
        return Raised(WrongOldPassword);
      }
      if oldPassword == newPassword {
        return Raised(SamePassword);
      }
      var hash := ValidateHashPassword(Text(newPassword));
      if hash.Err? {
        return Raised(hash.error);
      }
      passwordHash := hash.value;
      events := events + [UserPasswordChanged(id)];
      r := Done;
    }

    method RecoverPassword(newPassword: string) returns (r: Outcome)
      modifies this`passwordHash, this`events
      ensures Became(Domain.RecoverPassword(id, old(Data()), newPassword), r)
    {
      hide ValidateHashPassword;
      var hash := ValidateHashPassword(Text(newPassword));
      if hash.Err? {
        return Raised(hash.error);
      }
      passwordHash := hash.value;
      events := events + [UserPasswordRecovered(id)];
      r := Done;
    }

    method PullDomainEvents() returns (pulled: seq<Event>)
      modifies this`events
      ensures pulled == old(events) && events == []
    {
      pulled := events;
      events := [];
    }
  }

  class OneTimeToken {
    const id: Id
    var userId: Id
    var tokenHash: TokenHash
    var expiresAt: Time
    var purpose: Purpose
    var used: bool
    var version: Option<nat>

    ghost function Data(): OneTimeData
      reads this
    {
      OneTimeData(userId, tokenHash, expiresAt, purpose, used)
    }

    constructor (id: Id, userId: Id, tokenHash: TokenHash, expiresAt: Time, purpose: Purpose, used: bool)
      ensures this.id == id && Data() == OneTimeData(userId, tokenHash, expiresAt, purpose, used)
      ensures version == None
    {
      this.id, this.userId, this.tokenHash := id, userId, tokenHash;
      this.expiresAt, this.purpose, this.used := expiresAt, purpose, used;
      version := None;
    }

    static method Create(id: Id, userId: Id, token: string, now: Time, expiry: Time, purpose: Purpose)
      returns (ott: OneTimeToken)
      ensures fresh(ott) && ott.id == id && ott.version == None
      ensures ott.Data() == CreateOneTime(userId, token, now, expiry, purpose)
    {
      var tokenHash := Sha256(token);
      var expiresAt := now + expiry;
      ott := new OneTimeToken(id, userId, tokenHash, expiresAt, purpose, false);
    }

    method Use(purpose: Purpose, now: Time) returns (r: Outcome)
      modifies this`used
      ensures match UseOneTime(old(Data()), purpose, now)
              case Err(e) => r == Raised(e) && Data() == old(Data())
              case Ok(data) => r == Done && Data() == data
    {
      if this.purpose != purpose {
        return Raised(TokenPurposeMismatch);
      }
      var usable := IsUsable(now);
      if !usable {
        return Raised(TokenInvalid);
      }
      used := true;
      r := Done;
    }

    method IsUsable(now: Time) returns (usable: bool)
      ensures usable == OneTimeUsable(Data(), now)
    {
      usable := !used && now <= expiresAt;
    }
  }

  class RefreshToken {
    const id: Id
    var userId: Id
    var tokenHash: TokenHash
    var expiresAt: Time
    var createdAt: Time
    var revokedAt: Option<Time>
    var replacedById: Option<Id>
    var client: Client  // never persisted
    var events: seq<Event>
    var version: Option<nat>

    ghost function Data(): RefreshData
      reads this
    {
      RefreshData(userId, tokenHash, expiresAt, createdAt, revokedAt, replacedById)
    }

    twostate predicate Became(change: Result<Change<RefreshData>>, r: Outcome)
      reads this
    {
      && version == old(version) && client == old(client)
      && match change
         case Err(e) => r == Raised(e) && Data() == old(Data()) && events == old(events)
         case Ok(c) => r == Done && Data() == c.data && events == old(events) + c.events
    }

    constructor (id: Id, userId: Id, tokenHash: TokenHash, expiresAt: Time, createdAt: Time,
                 revokedAt: Option<Time>, replacedById: Option<Id>, client: Client)
      ensures this.id == id && this.client == client && events == [] && version == None
      ensures Data() == RefreshData(userId, tokenHash, expiresAt, createdAt, revokedAt, replacedById)
    {
      this.id, this.userId, this.tokenHash := id, userId, tokenHash;
      this.expiresAt, this.createdAt := expiresAt, createdAt;
      this.revokedAt, this.replacedById, this.client := revokedAt, replacedById, client;
      events, version := [], None;
    }

    static method Create(id: Id, userId: Id, token: string, now: Time, client: Client) returns (rt: RefreshToken)
      ensures fresh(rt) && rt.id == id && rt.version == None && rt.client == client
      ensures rt.Data() == CreateRefresh(userId, token, now)
      ensures rt.events == [RefreshTokenCreated(userId, id, client)]
    {
      var tokenHash := Sha256(token);
      var expiresAt := now + REFRESH_TOKEN_EXPIRY;
      rt := new RefreshToken(id, userId, tokenHash, expiresAt, now, None, None, client);
      rt.events := rt.events + [RefreshTokenCreated(userId, rt.id, client)];
    }

    method IsRevokedOrExpired(now: Time) returns (b: bool)
      ensures b == RevokedOrExpired(Data(), now)
    {
      b := revokedAt.Some? || now > expiresAt;
    }

    method Revoke(checkedAt: Time, now: Time) returns (r: Outcome)
      modifies this`revokedAt, this`events
      ensures Became(RevokeRefresh(id, old(Data()), checkedAt, now), r)
    {
      var invalid := IsRevokedOrExpired(checkedAt);
      if invalid {
        return Raised(TokenInvalid);
      }
      revokedAt := Some(now);
      events := events + [RefreshTokenRevoked(userId, id)];
      r := Done;
    }

    method MarkAsReplacedBy(newTokenId: Id) returns (r: Outcome)
      modifies this`replacedById
      ensures match MarkReplaced(old(Data()), newTokenId)
              case Err(e) => r == Raised(e) && Data() == old(Data())
              case Ok(data) => r == Done && Data() == data
    {
      if replacedById.Some? {
        return Raised(TokenAlreadyReplaced);
      }
      replacedById := Some(newTokenId);
      r := Done;
    }

    method Use(checkedAt: Time, now: Time) returns (r: Outcome)
      modifies this`revokedAt, this`events
      ensures Became(UseRefresh(id, old(Data()), checkedAt, now), r)
    {
      if replacedById.Some? {
        return Raised(RefreshTokenReuse);
      }
      var invalid := IsRevokedOrExpired(checkedAt);
      if invalid {
        return Raised(TokenInvalid);
      }
      revokedAt := Some(now);
      events := events + [RefreshTokenRevoked(userId, id)];
      r := Done;
    }

    method IsUsable(now: Time) returns (usable: bool)
      ensures usable == RefreshUsable(Data(), now)
    {
      var invalid := IsRevokedOrExpired(now);
      usable := !invalid && replacedById.None?;
    }

    method PullDomainEvents() returns (pulled: seq<Event>)
      modifies this`events
      ensures pulled == old(events) && events == []
    {
      pulled := events;
      events := [];
    }
  }
}
