/** The events of the domain and of the application, and where each kind may go. */
module Events {
  import opened Results

  type Id = nat

  /** A client address as far as the service looks into it: an IPv4 /24 network with a host, or not. */
  datatype Address = Ipv4(network: nat, host: nat) | OtherAddress(text: string)

  /** The metadata of a request; every part of it may be missing. */
  datatype Client = Client(ip: Option<Address>, agent: Option<string>, location: Option<string>)

  const NO_CLIENT := Client(None, None, None)

  datatype Event =
    | UserCreated(userId: Id, email: string)
    | UserActivated(userId: Id)
    | UserDeactivated(userId: Id)
    | UserEmailVerified(userId: Id, email: string)
    | UserPasswordChanged(userId: Id)
    | UserPasswordRecovered(userId: Id)
    | RefreshTokenCreated(userId: Id, tokenId: Id, client: Client)
    | RefreshTokenRevoked(userId: Id, tokenId: Id)
    | UserEmailVerificationRequested(userId: Id, email: string, token: string)
    | UserPasswordRecoverRequested(userId: Id, email: string, token: string)
    | RefreshTokenReuseDetected(userId: Id, tokenId: Id, client: Client)
    | SuspiciousRefreshTokenRevocation(userId: Id, tokenId: Id, client: Client)
  {
    /** NotificationEvent: carries a raw one-time token. */
    predicate IsNotification() {
      UserEmailVerificationRequested? || UserPasswordRecoverRequested?
    }

    /** ApplicationEvent: a security report, neither a DomainEvent nor a NotificationEvent. */
    predicate IsApplication() {
      RefreshTokenReuseDetected? || SuspiciousRefreshTokenRevocation?
    }

    /** DomainEvent: safe for the audit log. */
    predicate IsDomain() {
      !IsNotification() && !IsApplication()
    }
  }

  /** The events of `events` that satisfy `keep`, in order. */
  function Filter(events: seq<Event>, keep: Event -> bool): (kept: seq<Event>)
    ensures forall e :: e in kept <==> e in events && keep(e)
  {
    if events == [] then []
    else
      var front := Filter(events[..|events| - 1], keep);
      var last := events[|events| - 1];
      if keep(last) then front + [last] else front
  }

  predicate ForAuditLog(e: Event) {
    e.IsDomain()
  }

  predicate ForNotification(e: Event) {
    e.IsNotification()
  }

  /** The events that the audit log keeps. */
  function DomainEvents(events: seq<Event>): seq<Event> {
    Filter(events, ForAuditLog)
  }

  function NotificationEvents(events: seq<Event>): seq<Event> {
    Filter(events, ForNotification)
  }

  lemma FilterAppendsOne(events: seq<Event>, e: Event, keep: Event -> bool)
    ensures Filter(events + [e], keep) == Filter(events, keep) + if keep(e) then [e] else []
  {
    assert (events + [e])[..|events|] == events;
  }

  lemma FilterNone(keep: Event -> bool)
    ensures Filter([], keep) == []
  {
  }

  /** The Redis queue keeps no security report, and no report is a notification. */
  lemma {:induction false} ReportIsDropped(events: seq<Event>)
    requires forall e :: e in events ==> e.IsApplication()
    ensures DomainEvents(events) == [] && NotificationEvents(events) == []
    decreases |events|
  {
    if events == [] {
    } else {
      ReportIsDropped(events[..|events| - 1]);
    }
  }
}
