/** The state the browser-facing views read and write: the Django session
    of one client (its stored `service`, its `warn` flag and the user it
    is logged in as) and the store that service tickets are created in. */
module Sessions {
  import opened CasBase

  /** A snapshot of one client's session. `service` is the session's
      'service' key, `warn` its 'warn' key (absent reads as false), `user`
      the authenticated user of the request, if any. */
  datatype SessionState = SessionState(service: Option<string>, warn: bool, user: Option<User>)

  /** A freshly started (or flushed) session. */
  const EMPTY_SESSION := SessionState(None, false, None)

  /** The views only ever store a non-empty service URL. */
  predicate StoredServiceOk(s: SessionState) {
    s.service.Some? ==> s.service.value != ""
  }

  /** A request to create a service ticket, as passed to `create_ticket`. */
  datatype Mint = Mint(service: string, user: User, primary: bool)

  /** A service ticket as the store records it. */
  datatype Issued = Issued(id: string, service: string, user: User, primary: bool)

  /** The record a mint leaves in the store, given the identifier the
      ticket generator produced. */
  function Record(m: Option<Mint>, id: string): seq<Issued> {
    match m
    case None => []
    case Some(Mint(service, user, primary)) => [Issued(id, service, user, primary)]
  }

  /** The effect of one request on a session: the session afterwards, the
      ticket minted (if any) and the reply. */
  datatype Step = Step(after: SessionState, mint: Option<Mint>, reply: Reply)

  /** The client's session, updated in place by the views. */
  class Session {
    var service: Option<string>
    var warn: bool
    var user: Option<User>

    function State(): SessionState
      reads this
    {
      SessionState(service, warn, user)
    }

    /** `LoginView.warn_user`: the session's 'warn' key, false when absent. */
    function WarnUser(): (w: bool)
      reads this
      ensures w <==> State().warn
    {
      warn
    }

    ghost predicate Valid()
      reads this
    {
      StoredServiceOk(State())
    }

    constructor ()
      ensures Valid() && State() == EMPTY_SESSION
    {
      service, warn, user := None, false, None;
    }

    /** `LogoutUserMixin.logout_user`: ends the SSO session by flushing the
        whole session. */
    method LogoutUser()
      modifies this
      ensures Valid() && State() == EMPTY_SESSION
    {
      service, warn, user := None, false, None;
    }
  }

  /** The service ticket table. Identifiers come from the ticket generator,
      which is outside this model, and are passed in. */
  class TicketStore {
    var issued: seq<Issued>

    constructor ()
      ensures issued == []
    {
      issued := [];
    }

    /** `ServiceTicket.objects.create_ticket`: records a ticket for `service`
        and `user` and returns its identifier. */
    method CreateTicket(service: string, user: User, primary: bool, id: string) returns (ticket: string)
      modifies this
      ensures issued == old(issued) + [Issued(id, service, user, primary)]
      ensures ticket == id
    {
      issued := issued + [Issued(id, service, user, primary)];
      ticket := id;
    }
  }
}
