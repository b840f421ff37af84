/** `/warn` (section 2.2.1 of CAS 3.0): asks a logged-in user to confirm
    before being sent on to a service with a ticket. */
module Warn {
  import opened CasBase
  import opened Sessions
  import Login

  /** The query of GET /warn. */
  datatype WarnQuery = WarnQuery(service: Option<string>, ticket: Option<string>)

  /** `WarnView.get` for the logged-in `user` (the login-required guard in
      front of the view is outside this model). */
  function Get(q: WarnQuery, user: User, isValidServiceUrl: string -> bool): (r: Reply)
    // the confirmation page is shown only for a non-empty, whitelisted service
    ensures r.RenderWarnPage? <==> Truthy(q.service) && isValidServiceUrl(q.service.value)
    ensures r.RenderWarnPage? ==>
      r == RenderWarnPage(ConfirmAccess(q.service.value, user), q.service.value, q.ticket)
    ensures !r.RenderWarnPage? ==> r == Redirect(LoginPage, [], None)
  {
    if !Truthy(q.service) || !isValidServiceUrl(q.service.value) then
      Redirect(LoginPage, [], None)
    else
      RenderWarnPage(ConfirmAccess(q.service.value, user), q.service.value, q.ticket)
  }

  /** The query the warn page receives from a redirect's parameters. */
  function QueryOf(params: seq<Param>): WarnQuery {
    WarnQuery(Lookup(params, "service"), Lookup(params, "ticket"))
  }

  /** When GET /login sends the client to the warn page, the page offers to
      continue to the same service with the ticket just minted, for the
      user of the SSO session, provided the service is whitelisted. */
  lemma LoginThenWarn(s: SessionState, q: Login.LoginQuery, ticket: string, isValidServiceUrl: string -> bool)
    requires Login.GetStep(s, q, ticket).reply.Redirect?
    requires Login.GetStep(s, q, ticket).reply.to == WarnPage
    ensures var r := Login.GetStep(s, q, ticket);
      && r.mint.Some? && s.user.Some?
      && (isValidServiceUrl(r.mint.value.service) <==>
          Get(QueryOf(r.reply.params), s.user.value, isValidServiceUrl)
            == RenderWarnPage(ConfirmAccess(r.mint.value.service, s.user.value), r.mint.value.service, Some(ticket)))
  {
    var r := Login.GetStep(s, q, ticket);
    var service := r.mint.value.service;
    var params := r.reply.params;
    assert params == [("service", service), ("ticket", ticket)];
    assert Lookup(params, "service") == Some(service);
    assert Lookup(params[1..], "ticket") == Some(ticket);
  }
}
