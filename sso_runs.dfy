/** One client's SSO session across a run of requests to /login and
    /logout, and the properties that hold of every such run. */
module SsoRuns {
  import opened CasBase
  import opened Sessions
  import Login
  import Logout

  /** A browser request that may change the session; `ticket` is the
      identifier a ticket minted by it would get. */
  datatype Request =
    | LoginGet(query: Login.LoginQuery, ticket: string)
    | LoginPost(user: User, warnChecked: bool, service: Option<string>, ticket: string)
    | LogoutGet(logout: Logout.LogoutQuery)

  /** The server settings the views consult. */
  datatype Settings = Settings(followLogoutUrl: bool, isValidServiceUrl: string -> bool)

  function Apply(s: SessionState, req: Request, cfg: Settings): Step {
    match req
    case LoginGet(q, ticket) => Login.GetStep(s, q, ticket)
    case LoginPost(user, warnChecked, service, ticket) => Login.FormValidStep(s, user, warnChecked, service, ticket)
    case LogoutGet(q) => Logout.GetStep(q, cfg.followLogoutUrl, cfg.isValidServiceUrl)
  }

  function TicketId(req: Request): string {
    match req
    case LoginGet(_, ticket) => ticket
    case LoginPost(_, _, _, ticket) => ticket
    case LogoutGet(_) => ""
  }

  /** The session after `reqs`, and the tickets they minted, in order. */
  function Run(s: SessionState, reqs: seq<Request>, cfg: Settings): (SessionState, seq<Issued>)
    decreases |reqs|
  {
    if reqs == [] then (s, [])
    else
      var step := Apply(s, reqs[0], cfg);
      var rest := Run(step.after, reqs[1..], cfg);
      (rest.0, Record(step.mint, TicketId(reqs[0])) + rest.1)
  }

  /** Number of credential presentations in `reqs` whose query named a
      service. */
  function PostsForService(reqs: seq<Request>): nat {
    if reqs == [] then 0
    else (if reqs[0].LoginPost? && Truthy(reqs[0].service) then 1 else 0) + PostsForService(reqs[1..])
  }

  function PrimaryCount(issued: seq<Issued>): nat {
    if issued == [] then 0
    else (if issued[0].primary then 1 else 0) + PrimaryCount(issued[1..])
  }

  lemma {:induction false} PrimaryCountAppend(a: seq<Issued>, b: seq<Issued>)
    ensures PrimaryCount(a + b) == PrimaryCount(a) + PrimaryCount(b)
  {
    if a != [] {
      assert (a + b)[1..] == a[1..] + b;
      PrimaryCountAppend(a[1..], b);
    } else {
      assert a + b == b;
    }
  }

  /** No ticket without credentials: a client that is not logged in and
      never presents credentials gets no ticket, whatever it asks for. */
  lemma {:induction false} NoTicketWithoutCredentials(s: SessionState, reqs: seq<Request>, cfg: Settings)
    requires s.user.None?
    requires forall i :: 0 <= i < |reqs| ==> !reqs[i].LoginPost?
    ensures Run(s, reqs, cfg).1 == []
    decreases |reqs|
  {
    if reqs != [] {
      var step := Apply(s, reqs[0], cfg);
      assert !reqs[0].LoginPost?;
      assert step.mint == None && step.after.user.None?;
      NoTicketWithoutCredentials(step.after, reqs[1..], cfg);
    }
  }

  /** Primary tickets come only from credential presentations: a run mints
      exactly one for each POST whose query names a service. */
  lemma {:induction false} PrimaryTicketsFromCredentials(s: SessionState, reqs: seq<Request>, cfg: Settings)
    ensures PrimaryCount(Run(s, reqs, cfg).1) == PostsForService(reqs)
    decreases |reqs|
  {
    if reqs != [] {
      var step := Apply(s, reqs[0], cfg);
      PrimaryTicketsFromCredentials(step.after, reqs[1..], cfg);
      PrimaryCountAppend(Record(step.mint, TicketId(reqs[0])), Run(step.after, reqs[1..], cfg).1);
    }
  }

  /** Once set, the warn flag lasts until the session ends at logout. Stated
      for runs in which one user `user` presents all credentials, into a
      session without a user or already theirs: there Django's `login()`
      keeps the session's keys (its flush on a change of user is outside
      this model). */
  lemma {:induction false} WarnLastsUntilLogout(s: SessionState, reqs: seq<Request>, cfg: Settings, user: User)
    requires s.warn
    requires s.user.None? || s.user == Some(user)
    requires forall i :: 0 <= i < |reqs| ==> !reqs[i].LogoutGet?
    requires forall i :: 0 <= i < |reqs| && reqs[i].LoginPost? ==> reqs[i].user == user
    ensures Run(s, reqs, cfg).0.warn
    decreases |reqs|
  {
    if reqs != [] {
      assert !reqs[0].LogoutGet?;
      assert reqs[0].LoginPost? ==> reqs[0].user == user;
      var after := Apply(s, reqs[0], cfg).after;
      assert after.user.None? || after.user == Some(user);
      WarnLastsUntilLogout(after, reqs[1..], cfg, user);
    }
  }

  /** Every session a run reaches stores only non-empty service URLs. */
  lemma {:induction false} StoredServiceStaysNonEmpty(s: SessionState, reqs: seq<Request>, cfg: Settings)
    requires StoredServiceOk(s)
    ensures StoredServiceOk(Run(s, reqs, cfg).0)
    decreases |reqs|
  {
    if reqs != [] {
      StoredServiceStaysNonEmpty(Apply(s, reqs[0], cfg).after, reqs[1..], cfg);
    }
  }
}
