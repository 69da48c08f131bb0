/** Domain events as tagged objects, the form in which the Redis list stores them. */
module Serializer {
  import opened Events
  import opened Results

  /** The JSON values that occur in an event. */
  datatype Json = JsonNull | JsonText(text: string) | JsonId(id: Id) | JsonAddress(address: Address)

  type Fields = map<string, Json>

  const TYPE_KEY := "__type__"

  function OptionalText(v: Option<string>): Json {
    if v.None? then JsonNull else JsonText(v.value)
  }

  function OptionalAddress(v: Option<Address>): Json {
    if v.None? then JsonNull else JsonAddress(v.value)
  }

  /** `type(event).__name__` */
  function TypeName(e: Event): string {
    match e
    case UserCreated(_, _) => "UserCreated"
    case UserActivated(_) => "UserActivated"
    case UserDeactivated(_) => "UserDeactivated"
    case UserEmailVerified(_, _) => "UserEmailVerified"
    case UserPasswordChanged(_) => "UserPasswordChanged"
    case UserPasswordRecovered(_) => "UserPasswordRecovered"
    case RefreshTokenCreated(_, _, _) => "RefreshTokenCreated"
    case RefreshTokenRevoked(_, _) => "RefreshTokenRevoked"
    case UserEmailVerificationRequested(_, _, _) => "UserEmailVerificationRequested"
    case UserPasswordRecoverRequested(_, _, _) => "UserPasswordRecoverRequested"
    case RefreshTokenReuseDetected(_, _, _) => "RefreshTokenReuseDetected"
    case SuspiciousRefreshTokenRevocation(_, _, _) => "SuspiciousRefreshTokenRevocation"
  }

  /** `event.model_dump()` */
  function ModelDump(e: Event): Fields {
    match e
    case UserCreated(u, email) => map["user_id" := JsonId(u), "email" := JsonText(email)]
    case UserActivated(u) => map["user_id" := JsonId(u)]
    case UserDeactivated(u) => map["user_id" := JsonId(u)]
    case UserEmailVerified(u, email) => map["user_id" := JsonId(u), "email" := JsonText(email)]
    case UserPasswordChanged(u) => map["user_id" := JsonId(u)]
    case UserPasswordRecovered(u) => map["user_id" := JsonId(u)]
    case RefreshTokenCreated(u, t, c) =>
      map["user_id" := JsonId(u), "token_id" := JsonId(t), "client_ip" := OptionalAddress(c.ip),
          "user_agent" := OptionalText(c.agent), "location" := OptionalText(c.location)]
    case RefreshTokenRevoked(u, t) => map["user_id" := JsonId(u), "token_id" := JsonId(t)]
    case UserEmailVerificationRequested(u, email, token) =>
      map["user_id" := JsonId(u), "email" := JsonText(email), "token" := JsonText(token)]
    case UserPasswordRecoverRequested(u, email, token) =>
      map["user_id" := JsonId(u), "email" := JsonText(email), "token" := JsonText(token)]
    case RefreshTokenReuseDetected(u, t, c) =>
      map["user_id" := JsonId(u), "token_id" := JsonId(t), "client_ip" := OptionalAddress(c.ip),
          "user_agent" := OptionalText(c.agent), "location" := OptionalText(c.location)]
    case SuspiciousRefreshTokenRevocation(u, t, c) =>
      map["user_id" := JsonId(u), "token_id" := JsonId(t), "client_ip" := OptionalAddress(c.ip),
          "user_agent" := OptionalText(c.agent), "location" := OptionalText(c.location)]
  }

  function Serialize(e: Event): Fields {
    ModelDump(e)[TYPE_KEY := JsonText(TypeName(e))]
  }

  function RequiredId(data: Fields, key: string): Result<Id> {
    if key in data && data[key].JsonId? then Ok(data[key].id) else Err(SchemaMismatch)
  }

  function RequiredText(data: Fields, key: string): Result<string> {
    if key in data && data[key].JsonText? then Ok(data[key].text) else Err(SchemaMismatch)
  }

  /** A field with the default None: it may be absent or null. */
  function DefaultedText(data: Fields, key: string): Result<Option<string>> {
    if key !in data || data[key].JsonNull? then Ok(None)
    else if data[key].JsonText? then Ok(Some(data[key].text))
    else Err(SchemaMismatch)
  }

  function DefaultedAddress(data: Fields, key: string): Result<Option<Address>> {
    if key !in data || data[key].JsonNull? then Ok(None)
    else if data[key].JsonAddress? then Ok(Some(data[key].address))
    else Err(SchemaMismatch)
  }

  function ValidateClient(data: Fields): Result<Client> {
    var ip :- DefaultedAddress(data, "client_ip");
    var agent :- DefaultedText(data, "user_agent");
    var location :- DefaultedText(data, "location");
    Ok(Client(ip, agent, location))
  }

  /** `_REGISTRY[name].model_validate(data)`: the registry holds the eight domain events only. */
  function ModelValidate(name: string, data: Fields): Result<Event> {
    if name == "UserCreated" then
      var u :- RequiredId(data, "user_id");
      var email :- RequiredText(data, "email");
      Ok(UserCreated(u, email))
    else if name == "UserActivated" then
      var u :- RequiredId(data, "user_id");
      Ok(UserActivated(u))
    else if name == "UserDeactivated" then
      var u :- RequiredId(data, "user_id");
      Ok(UserDeactivated(u))
    else if name == "UserEmailVerified" then
      var u :- RequiredId(data, "user_id");
      var email :- RequiredText(data, "email");
      Ok(UserEmailVerified(u, email))
    else if name == "UserPasswordChanged" then
      var u :- RequiredId(data, "user_id");
      Ok(UserPasswordChanged(u))
    else if name == "UserPasswordRecovered" then
      var u :- RequiredId(data, "user_id");
      Ok(UserPasswordRecovered(u))
    else if name == "RefreshTokenCreated" then
      var u :- RequiredId(data, "user_id");
      var t :- RequiredId(data, "token_id");
      var c :- ValidateClient(data);
      Ok(RefreshTokenCreated(u, t, c))
    else if name == "RefreshTokenRevoked" then
      var u :- RequiredId(data, "user_id");
      var t :- RequiredId(data, "token_id");
      Ok(RefreshTokenRevoked(u, t))
    else Err(UnknownType)
  }

  function Deserialize(raw: Fields): Result<Event> {
    if TYPE_KEY !in raw then Err(MissingType)
    else
      var data := raw - {TYPE_KEY};
      if raw[TYPE_KEY].JsonText? then ModelValidate(raw[TYPE_KEY].text, data) else Err(UnknownType)
  }

  /** Popping the tag gives back the dumped fields, because no event has a field of that name. */
  lemma PopUndoesTag(e: Event)
    ensures Serialize(e) - {TYPE_KEY} == ModelDump(e)
    ensures TYPE_KEY in Serialize(e) && Serialize(e)[TYPE_KEY] == JsonText(TypeName(e))
  {
    assert TYPE_KEY[0] == '_';
    forall key | key in ModelDump(e) ensures key != TYPE_KEY {
      assert key[0] != '_';
    }
  }

  /** The name and the fields under which each event of a user is stored. */
  lemma UserEventForms(id: Id, email: string)
    ensures Serialize(UserCreated(id, email))
            == map["user_id" := JsonId(id), "email" := JsonText(email), "__type__" := JsonText("UserCreated")]
    ensures Serialize(UserEmailVerified(id, email))
            == map["user_id" := JsonId(id), "email" := JsonText(email), "__type__" := JsonText("UserEmailVerified")]
    ensures Serialize(UserActivated(id)) == map["user_id" := JsonId(id), "__type__" := JsonText("UserActivated")]
    ensures Serialize(UserDeactivated(id)) == map["user_id" := JsonId(id), "__type__" := JsonText("UserDeactivated")]
    ensures Serialize(UserPasswordChanged(id))
            == map["user_id" := JsonId(id), "__type__" := JsonText("UserPasswordChanged")]
    ensures Serialize(UserPasswordRecovered(id))
            == map["user_id" := JsonId(id), "__type__" := JsonText("UserPasswordRecovered")]
  {
  }

  /** The same for the events of a refresh token; missing metadata is stored as null. */
  lemma TokenEventForms(id: Id, tokenId: Id, client: Client)
    ensures Serialize(RefreshTokenRevoked(id, tokenId))
            == map["user_id" := JsonId(id), "token_id" := JsonId(tokenId),
                   "__type__" := JsonText("RefreshTokenRevoked")]
    ensures Serialize(RefreshTokenCreated(id, tokenId, client))
            == map["user_id" := JsonId(id), "token_id" := JsonId(tokenId),
                   "client_ip" := if client.ip.None? then JsonNull else JsonAddress(client.ip.value),
                   "user_agent" := if client.agent.None? then JsonNull else JsonText(client.agent.value),
                   "location" := if client.location.None? then JsonNull else JsonText(client.location.value),
                   "__type__" := JsonText("RefreshTokenCreated")]
  {
  }

  /** An event is read back as written exactly if it is a domain event. */
  lemma RoundTripIffDomain(e: Event)
    ensures e.IsDomain() ==> Deserialize(Serialize(e)) == Ok(e)
    ensures !e.IsDomain() ==> Deserialize(Serialize(e)) == Err(UnknownType)
  {
    PopUndoesTag(e);
    assert Deserialize(Serialize(e)) == ModelValidate(TypeName(e), ModelDump(e));
    ValidateUndoesDump(e);
  }

  lemma ValidateUndoesDump(e: Event)
    ensures ModelValidate(TypeName(e), ModelDump(e)) == if e.IsDomain() then Ok(e) else Err(UnknownType)
  {
    hide ModelValidate, ModelDump, TypeName;
    if e.RefreshTokenCreated? || e.RefreshTokenRevoked? {
      TokenEventIsValidated(e);
    } else if e.IsDomain() {
      UserEventIsValidated(e);
    } else {
      OtherEventIsUnknown(e);
    }
  }

  lemma UserEventIsValidated(e: Event)
    requires e.IsDomain() && !e.RefreshTokenCreated? && !e.RefreshTokenRevoked?
    ensures ModelValidate(TypeName(e), ModelDump(e)) == Ok(e)
  {
    hide ValidateClient;
  }

  lemma TokenEventIsValidated(e: Event)
    requires e.RefreshTokenCreated? || e.RefreshTokenRevoked?
    ensures ModelValidate(TypeName(e), ModelDump(e)) == Ok(e)
  {
    if e.RefreshTokenCreated? {
      ClientIsKept(e);
    }
    hide ValidateClient;
  }

  lemma OtherEventIsUnknown(e: Event)
    requires !e.IsDomain()
    ensures ModelValidate(TypeName(e), ModelDump(e)) == Err(UnknownType)
  {
    hide ValidateClient, ModelDump;
  }

  lemma ClientIsKept(e: Event)
    requires e.RefreshTokenCreated?
    ensures ValidateClient(ModelDump(e)) == Ok(e.client)
  {
  }

  /** Two different domain events never serialize to the same object. */
  lemma SerializeIsInjective(a: Event, b: Event)
    requires a.IsDomain() && b.IsDomain() && Serialize(a) == Serialize(b)
    ensures a == b
  {
    RoundTripIffDomain(a);
    RoundTripIffDomain(b);
  }
}
