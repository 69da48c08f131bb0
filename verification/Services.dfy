/** The domain services that coordinate two entities. */
module Services {
  import opened Domain
  import opened Entities
  import opened Events
  import opened Results

  /** EmailVerificationService.request_verification */
  method RequestVerification(user: User, d: Draw) returns (r: Result<OneTimeToken>)
    modifies user`events
    ensures user.Became(Domain.RequestEmailVerification(user.id, old(user.Data()), d.token),
                        if r.Ok? then Done else Raised(r.error))
    ensures r.Ok? ==>
              && fresh(r.value) && r.value.id == d.tokenId && r.value.version == None
              && r.value.Data() == CreateOneTime(user.id, d.token, d.issuedAt, EMAIL_TOKEN_EXPIRY, VERIFY_EMAIL)
  {
    var ott := OneTimeToken.Create(d.tokenId, user.id, d.token, d.issuedAt, EMAIL_TOKEN_EXPIRY, VERIFY_EMAIL);
    var asked := user.RequestEmailVerification(d.token);
    if asked.Raised? {
      return Err(asked.error);
    }
    r := Ok(ott);
  }

  /** PasswordRecoverService.request_password_recover */
  method RequestPasswordRecover(user: User, d: Draw) returns (r: Result<OneTimeToken>)
    modifies user`events
    ensures user.Became(Domain.RequestPasswordRecover(user.id, old(user.Data()), d.token),
                        if r.Ok? then Done else Raised(r.error))
    ensures r.Ok? ==>
              && fresh(r.value) && r.value.id == d.tokenId && r.value.version == None
              && r.value.Data() == CreateOneTime(
                   user.id, d.token, d.issuedAt, PASSWORD_RECOVER_TOKEN_EXPIRY, RECOVER_PASSWORD)
  {
    var ott := OneTimeToken.Create(
      d.tokenId, user.id, d.token, d.issuedAt, PASSWORD_RECOVER_TOKEN_EXPIRY, RECOVER_PASSWORD);
    var asked := user.RequestPasswordRecover(d.token);
    if asked.Raised? {
      return Err(asked.error);
    }
    r := Ok(ott);
  }

  /** The successor of a rotated token, its raw text, and a new access token. */
  datatype Rotated = Rotated(newToken: RefreshToken, raw: string, access: AccessToken)

  /** RefreshTokenRotationService.rotate: creates the successor and links the old token to it. */
  method Rotate(oldToken: RefreshToken, d: Draw) returns (r: Result<Rotated>)
    modifies oldToken`replacedById
    ensures r.Err? ==>
              MarkReplaced(old(oldToken.Data()), d.tokenId) == Err(r.error) && oldToken.Data() == old(oldToken.Data())
    ensures r.Ok? ==>
              && MarkReplaced(old(oldToken.Data()), d.tokenId) == Ok(oldToken.Data())
              && var newToken := r.value.newToken;
                 && fresh(newToken) && newToken.id == d.tokenId && newToken.version == None
                 && newToken.Data() == CreateRefresh(oldToken.userId, d.token, d.issuedAt)
                 && newToken.tokenHash == Sha256(r.value.raw) && newToken.userId == r.value.access.subject
                 && newToken.events == [RefreshTokenCreated(oldToken.userId, d.tokenId, NO_CLIENT)]
  {
    var newToken := RefreshToken.Create(d.tokenId, oldToken.userId, d.token, d.issuedAt, NO_CLIENT);
    var marked := oldToken.MarkAsReplacedBy(newToken.id);
    if marked.Raised? {
      return Err(marked.error);
    }
    var access := AccessToken(newToken.userId);
    r := Ok(Rotated(newToken, d.token, access));
  }
}
