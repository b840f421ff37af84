/** `/logout` (section 2.3 of CAS 3.0): ends the SSO session and picks
    where the client goes next. */
module Logout {
  import opened CasBase
  import opened Sessions
  import Login

  /** The query of GET /logout: `service` (CAS 3.0) and `url` (CAS 1.0 and
      2.0). */
  datatype LogoutQuery = LogoutQuery(service: Option<string>, url: Option<string>)

  /** GET /logout under the `MAMA_CAS_FOLLOW_LOGOUT_URL` setting `followUrl`
      (true when unset). */
  function GetStep(q: LogoutQuery, followUrl: bool, isValidServiceUrl: string -> bool): (r: Step)
    // the session always ends and nothing is minted
    ensures r.after == EMPTY_SESSION && r.mint == None
    ensures r.reply.Redirect? && r.reply.params == []
    // `service` is followed whenever the setting allows it
    ensures Truthy(q.service) && followUrl ==> r.reply == Redirect(Url(q.service.value), [], None)
    // the client leaves for an application only when the setting allows it
    ensures r.reply.to.Url? <==>
      followUrl && (Truthy(q.service) || (Truthy(q.url) && isValidServiceUrl(q.url.value)))
    // `url` is followed only when it is whitelisted
    ensures r.reply.to.Url? && !Truthy(q.service) ==>
      r.reply.to == Url(q.url.value) && isValidServiceUrl(q.url.value)
    ensures !r.reply.to.Url? ==> r.reply.to == LoginPage && r.reply.params == []
    // a whitelisted `url` that is not followed is offered as a link
    ensures r.reply.notice ==
      (if !followUrl && Truthy(q.url) && isValidServiceUrl(q.url.value) then Some(FollowLink(q.url.value)) else None)
  {
    var reply :=
      if Truthy(q.service) && followUrl then
        Redirect(Url(q.service.value), [], None)
      else if Truthy(q.url) && isValidServiceUrl(q.url.value) then
        if followUrl then Redirect(Url(q.url.value), [], None)
        else Redirect(LoginPage, [], Some(FollowLink(q.url.value)))
      else
        Redirect(LoginPage, [], None);
    Step(EMPTY_SESSION, None, reply)
  }

  /** `LogoutView.get`, ending the session in place. */
  method Get(session: Session, q: LogoutQuery, followUrl: bool, isValidServiceUrl: string -> bool) returns (reply: Reply)
    modifies session
    ensures session.Valid()
    ensures var r := GetStep(q, followUrl, isValidServiceUrl);
      session.State() == r.after && reply == r.reply
  {
    var service := q.service;
    var url := q.url;
    session.LogoutUser();
    if Truthy(service) && followUrl {
      reply := Redirect(Url(service.value), [], None);
    } else if Truthy(url) && isValidServiceUrl(url.value) {
      if followUrl {
        reply := Redirect(Url(url.value), [], None);
        return;
      }
      reply := Redirect(LoginPage, [], Some(FollowLink(url.value)));
    } else {
      reply := Redirect(LoginPage, [], None);
    }
  }

  /** After logout no ticket is issued without new credentials: a GET
      /login mints nothing, whatever its query. */
  lemma LogoutEndsSingleSignOn(q: LogoutQuery, followUrl: bool, isValidServiceUrl: string -> bool,
                               next: Login.LoginQuery, ticket: string)
    ensures Login.GetStep(GetStep(q, followUrl, isValidServiceUrl).after, next, ticket).mint == None
  {
  }
}
