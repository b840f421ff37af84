/** `/login` (sections 2.1 and 2.2 of CAS 3.0): the credential requestor
    (GET) and the credential acceptor (successful POST). */
module Login {
  import opened CasBase
  import opened Sessions

  /** The query of GET /login, with `renew` and `gateway` already read as
      booleans. */
  datatype LoginQuery = LoginQuery(service: Option<string>, renew: bool, gateway: bool)

  /** The service a GET /login works for: the query's `service` when it is
      non-empty, otherwise the one remembered in the session, otherwise the
      (absent or empty) query value. */
  function TargetService(stored: Option<string>, requested: Option<string>): (svc: Option<string>)
    ensures Truthy(requested) ==> svc == requested
    ensures !Truthy(requested) && stored.Some? ==> svc == stored
    ensures Truthy(svc) <==> Truthy(requested) || Truthy(stored)
  {
    if Truthy(requested) then requested
    else if stored.Some? then stored
    else requested
  }

  /** Where the client goes once a ticket for `service` exists: through the
      warn page when the session asks to be warned, otherwise straight back
      to the service. */
  function TicketRedirect(service: string, ticket: string, warn: bool): Reply {
    if warn then Redirect(WarnPage, [("service", service), ("ticket", ticket)], None)
    else Redirect(Url(service), [("ticket", ticket)], None)
  }

  /** GET /login: what the credential requestor does to session `s` for
      query `q`, where `ticket` is the identifier a new ticket would get. */
  function GetStep(s: SessionState, q: LoginQuery, ticket: string): (r: Step)
    // a non-empty `service` is remembered; otherwise the session is untouched
    ensures Truthy(q.service) ==> r.after == s.(service := q.service)
    ensures !Truthy(q.service) ==> r.after == s
    ensures StoredServiceOk(s) ==> StoredServiceOk(r.after)
    // renew takes precedence over gateway and over an existing SSO session
    ensures q.renew ==> r.mint == None && r.reply == RenderLoginForm(None)
    // gateway without an SSO session: back to the service, without a ticket
    ensures var svc := TargetService(s.service, q.service);
      !q.renew && q.gateway && Truthy(svc) && s.user.None? ==>
        r.mint == None && r.reply == Redirect(Url(svc.value), [], None)
    // an SSO session and a known service: exactly one non-primary ticket
    ensures var svc := TargetService(s.service, q.service);
      r.mint.Some? <==> !q.renew && s.user.Some? && Truthy(svc)
    ensures var svc := TargetService(s.service, q.service);
      !q.renew && s.user.Some? && Truthy(svc) ==>
        && r.mint == Some(Mint(svc.value, s.user.value, false))
        && r.reply == TicketRedirect(svc.value, ticket, s.warn)
    // the client leaves the login page only towards a known service
    ensures var svc := TargetService(s.service, q.service);
      r.reply.Redirect? <==> !q.renew && Truthy(svc) && (q.gateway || s.user.Some?)
    ensures var svc := TargetService(s.service, q.service);
      !q.renew && !Truthy(svc) && s.user.Some? ==>
        r.reply == RenderLoginForm(Some(LoggedInAs(s.user.value)))
    ensures var svc := TargetService(s.service, q.service);
      !q.renew && s.user.None? && !(q.gateway && Truthy(svc)) ==>
        r.reply == RenderLoginForm(None)
  {
    var svc := TargetService(s.service, q.service);
    var after := if Truthy(q.service) then s.(service := q.service) else s;
    if q.renew then
      Step(after, None, RenderLoginForm(None))
    else if q.gateway && Truthy(svc) then
      if s.user.Some? then
        Step(after, Some(Mint(svc.value, s.user.value, false)), TicketRedirect(svc.value, ticket, s.warn))
      else
        Step(after, None, Redirect(Url(svc.value), [], None))
    else if s.user.Some? then
      if Truthy(svc) then
        Step(after, Some(Mint(svc.value, s.user.value, false)), TicketRedirect(svc.value, ticket, s.warn))
      else
        Step(after, None, RenderLoginForm(Some(LoggedInAs(s.user.value))))
    else
      Step(after, None, RenderLoginForm(None))
  }

  /** Successful POST /login: `user` presented valid credentials, `warnChecked`
      is the form's `warn` box and `service` the query's `service`. */
  function FormValidStep(s: SessionState, user: User, warnChecked: bool, service: Option<string>, ticket: string): (r: Step)
    // the SSO session starts; warn is set when checked and never cleared
    ensures r.after == SessionState(s.service, s.warn || warnChecked, Some(user))
    ensures StoredServiceOk(s) ==> StoredServiceOk(r.after)
    // a primary ticket exactly when the query names a service
    ensures r.mint.Some? <==> Truthy(service)
    ensures Truthy(service) ==>
      && r.mint == Some(Mint(service.value, user, true))
      && r.reply == Redirect(Url(service.value), [("ticket", ticket)], None)
    ensures !Truthy(service) ==> r.reply == Redirect(LoginPage, [], None)
  {
    var after := SessionState(s.service, if warnChecked then true else s.warn, Some(user));
    if Truthy(service) then
      Step(after, Some(Mint(service.value, user, true)), Redirect(Url(service.value), [("ticket", ticket)], None))
    else
      Step(after, None, Redirect(LoginPage, [], None))
  }

  /** `LoginView.get`, updating the session and the ticket store in place. */
  method Get(session: Session, store: TicketStore, q: LoginQuery, ticketId: string) returns (reply: Reply)
    requires session.Valid()
    modifies session, store
    ensures session.Valid()
    ensures var r := GetStep(old(session.State()), q, ticketId);
      && session.State() == r.after
      && reply == r.reply
      && store.issued == old(store.issued) + Record(r.mint, ticketId)
  {
    var service := q.service;
    if Truthy(service) {
      session.service := service;
    } else if session.service.Some? {
      service := session.service;
    }
    if q.renew {
      reply := RenderLoginForm(None);
    } else if q.gateway && Truthy(service) {
      if session.user.Some? {
        var st := store.CreateTicket(service.value, session.user.value, false, ticketId);
        reply := TicketRedirect(service.value, st, session.WarnUser());
      } else {
        reply := Redirect(Url(service.value), [], None);
      }
    } else if session.user.Some? {
      if Truthy(service) {
        var st := store.CreateTicket(service.value, session.user.value, false, ticketId);
        reply := TicketRedirect(service.value, st, session.WarnUser());
      } else {
        reply := RenderLoginForm(Some(LoggedInAs(session.user.value)));
      }
    } else {
      reply := RenderLoginForm(None);
    }
  }

  /** `LoginView.form_valid`, updating the session and the ticket store in
      place. */
  method FormValid(session: Session, store: TicketStore, user: User, warnChecked: bool, service: Option<string>, ticketId: string)
    returns (reply: Reply)
    requires session.Valid()
    modifies session, store
    ensures session.Valid()
    ensures var r := FormValidStep(old(session.State()), user, warnChecked, service, ticketId);
      && session.State() == r.after
      && reply == r.reply
      && store.issued == old(store.issued) + Record(r.mint, ticketId)
  {
    session.user := Some(user);
    if warnChecked {
      session.warn := true;
    }
    if Truthy(service) {
      var st := store.CreateTicket(service.value, session.user.value, true, ticketId);
      reply := Redirect(Url(service.value), [("ticket", st)], None);
    } else {
      reply := Redirect(LoginPage, [], None);
    }
  }

  /** A GET that names a service remembers it: a later GET without one, in
      the same SSO session, still issues its ticket for that service. */
  lemma RememberedService(s: SessionState, first: LoginQuery, later: LoginQuery, t1: string, t2: string)
    requires Truthy(first.service) && s.user.Some?
    requires !later.renew && !Truthy(later.service)
    ensures var r := GetStep(GetStep(s, first, t1).after, later, t2);
      r.mint == Some(Mint(first.service.value, s.user.value, false))
  {
  }

  /** The acceptor reads `service` from the query only: what it mints and
      where it redirects do not depend on the service stored in the session. */
  lemma FormValidIgnoresStoredService(s1: SessionState, s2: SessionState, user: User, warnChecked: bool,
                                      service: Option<string>, ticket: string)
    ensures FormValidStep(s1, user, warnChecked, service, ticket).mint
         == FormValidStep(s2, user, warnChecked, service, ticket).mint
    ensures FormValidStep(s1, user, warnChecked, service, ticket).reply
         == FormValidStep(s2, user, warnChecked, service, ticket).reply
  {
  }

  /** Credentials presented once start an SSO session: a following GET for a
      service (without renew) is answered with a non-primary ticket, through
      the warn page when the box was checked or the session already asked to
      be warned. Stated for a POST by the session's own user or into a session
      without one, where Django's `login()` keeps the session's keys. */
  lemma SingleSignOn(s: SessionState, user: User, warnChecked: bool, post: Option<string>,
                     q: LoginQuery, t1: string, t2: string)
    requires s.user.None? || s.user == Some(user)
    requires Truthy(q.service) && !q.renew
    ensures var r := GetStep(FormValidStep(s, user, warnChecked, post, t1).after, q, t2);
      && r.mint == Some(Mint(q.service.value, user, false))
      && (r.reply.to == WarnPage <==> s.warn || warnChecked)
  {
  }
}
