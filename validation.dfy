/** The ticket validation endpoints (sections 2.4 to 2.7 and 4.2 of CAS
    3.0): which validator each one calls, with which arguments, and what it
    makes of the validator's answer. The validators themselves are outside
    this model and are passed in as a function from calls to verdicts. */
module Validation {
  import opened CasBase

  /** `ProxyTicket.TICKET_PREFIX`, the wire prefix of proxy tickets. */
  const PROXY_TICKET_PREFIX := "PT-"

  /** What the views read of a validated ticket. */
  datatype Ticket = Ticket(id: string, service: string, user: User)

  /** A validation failure, rendered by the response classes. */
  datatype ValidationError = ValidationError(code: string, message: string)

  /** A call into `ValidateTicketMixin`. */
  datatype Call =
    | ServiceTicketCall(service: Option<string>, ticket: Option<string>, pgtUrl: Option<string>, renew: bool)
    | ProxyTicketCall(service: Option<string>, ticket: Option<string>, pgtUrl: Option<string>)
    | ProxyGrantingTicketCall(pgt: Option<string>, targetService: Option<string>)

  /** What a validator returns: the ticket on success, a proxy-granting
      ticket when one was issued, the proxy chain (proxy tickets only) and
      the error on failure. */
  datatype Verdict = Verdict(ticket: Option<Ticket>, pgt: Option<string>, proxies: Option<seq<string>>,
                             error: Option<ValidationError>)

  type Validator = Call -> Verdict

  /** The context handed to the XML and SAML renderers. `attributesFor` names
      the user and service whose custom attributes are looked up. */
  datatype Context = Context(ticket: Option<Ticket>, pgt: Option<string>, proxies: Option<seq<string>>,
                             error: Option<ValidationError>, attributesFor: Option<(User, string)>)

  /** The query of /validate, /serviceValidate and /proxyValidate, with
      `renew` already read as a boolean. */
  datatype ValidationQuery = ValidationQuery(service: Option<string>, ticket: Option<string>,
                                             pgtUrl: Option<string>, renew: bool)

  /** Attributes are looked up only for a ticket that validated. */
  function AttributesFor(t: Option<Ticket>): Option<(User, string)> {
    if t.Some? then Some((t.value.user, t.value.service)) else None
  }

  /** The renderer context of a service-ticket validation. */
  function ServiceContext(v: Verdict): Context {
    Context(v.ticket, v.pgt, None, v.error, AttributesFor(v.ticket))
  }

  // ---------------------------------------------------------------------
  // /validate (CAS 1.0)

  /** The plain-text body of /validate: its first line says whether a ticket
      validated. */
  function Cas1Body(st: Option<Ticket>): (body: string)
    ensures |body| >= 4 && (body[..4] == "yes\n" <==> st.Some?)
    ensures st.Some? ==> body[4..] == st.value.user.username + "\n"
  {
    if st.Some? then "yes\n" + st.value.user.username + "\n"
    else assert "no\n\n"[0] != "yes\n"[0]; "no\n\n"
  }

  /** `ValidateView.get`: validates a service ticket, never with a proxy
      callback, and answers in plain text. */
  function Validate(q: ValidationQuery, validator: Validator): (body: string)
    ensures var v := validator(ServiceTicketCall(q.service, q.ticket, None, q.renew));
      && (v.ticket.Some? ==> body == "yes\n" + v.ticket.value.user.username + "\n")
      && (v.ticket.None? ==> body == "no\n\n")
  {
    var v := validator(ServiceTicketCall(q.service, q.ticket, None, q.renew));
    Cas1Body(v.ticket)
  }

  /** Python's `'\n'.join`. */
  function Join(lines: seq<string>): string
    requires |lines| >= 1
  {
    if |lines| == 1 then lines[0] else lines[0] + "\n" + Join(lines[1..])
  }

  /** Python's `str.split('\n')`: lines without line breaks that join back
      into `s`. */
  function Lines(s: string): (r: seq<string>)
    ensures |r| >= 1
    ensures forall i :: 0 <= i < |r| ==> '\n' !in r[i]
    ensures Join(r) == s
  {
    if s == [] then [""]
    else
      var rest := Lines(s[1..]);
      if s[0] == '\n' then
        assert s == "\n" + s[1..];
        [""] + rest
      else
        var r := [[s[0]] + rest[0]] + rest[1..];
        assert r[1..] == rest[1..];
        assert s == [s[0]] + s[1..];
        r
  }

  /** How a CAS 1.0 client reads a /validate body: `Some(None)` for a
      failure, `Some(Some(u))` for a success for user `u`, `None` for a body
      that is neither. */
  function ReadCas1(body: string): Option<Option<string>> {
    var lines := Lines(body);
    if lines == ["no", "", ""] then Some(None)
    else if |lines| == 3 && lines[0] == "yes" && lines[2] == "" then Some(Some(lines[1]))
    else None
  }

  /** A line without a line break, followed by one, splits off as a line of
      its own. */
  lemma {:induction false} LinesOfLine(line: string, tail: string)
    requires '\n' !in line
    ensures Lines(line + "\n" + tail) == [line] + Lines(tail)
  {
    var s := line + "\n" + tail;
    if line == [] {
      assert s[0] == '\n' && s[1..] == tail;
    } else {
      assert s[0] == line[0] && s[1..] == line[1..] + "\n" + tail;
      LinesOfLine(line[1..], tail);
      assert [line[0]] + line[1..] == line;
    }
  }

  /** A CAS 1.0 client reads back exactly the outcome the server wrote, as
      long as usernames hold no line break. */
  lemma {:induction false} Cas1RoundTrip(st: Option<Ticket>)
    requires st.Some? ==> '\n' !in st.value.user.username
    ensures ReadCas1(Cas1Body(st)) == Some(if st.Some? then Some(st.value.user.username) else None)
  {
    LinesOfLine("", "");
    assert Lines("\n") == ["", ""] by {
      assert "" + "\n" + "" == "\n";
    }
    if st.Some? {
      var u := st.value.user.username;
      assert Cas1Body(st) == "yes" + "\n" + (u + "\n" + "");
      LinesOfLine("yes", u + "\n" + "");
      LinesOfLine(u, "");
      assert Lines(Cas1Body(st)) == ["yes", u, ""];
    } else {
      assert Cas1Body(st) == "no" + "\n" + ("" + "\n" + "");
      LinesOfLine("no", "" + "\n" + "");
    }
  }

  // ---------------------------------------------------------------------
  // /serviceValidate and /proxyValidate (CAS 2.0)

  /** `ServiceValidateView.get_context_data`. */
  function ServiceValidate(q: ValidationQuery, validator: Validator): (ctx: Context)
    ensures var v := validator(ServiceTicketCall(q.service, q.ticket, q.pgtUrl, q.renew));
      && ctx.ticket == v.ticket && ctx.pgt == v.pgt && ctx.error == v.error
      && ctx.proxies == None
      && (ctx.attributesFor.Some? <==> v.ticket.Some?)
      && (v.ticket.Some? ==> ctx.attributesFor == Some((v.ticket.value.user, v.ticket.value.service)))
  {
    ServiceContext(validator(ServiceTicketCall(q.service, q.ticket, q.pgtUrl, q.renew)))
  }

  /** The validator /proxyValidate calls: proxy-ticket validation, without
      `renew`, for a missing or empty ticket or one with the proxy-ticket
      prefix; service-ticket validation otherwise. */
  function ProxyValidateCall(q: ValidationQuery): (c: Call)
    ensures c.ProxyTicketCall? <==>
      !Truthy(q.ticket)
      || (|PROXY_TICKET_PREFIX| <= |q.ticket.value| && q.ticket.value[..|PROXY_TICKET_PREFIX|] == PROXY_TICKET_PREFIX)
    ensures c.ProxyTicketCall? || c.ServiceTicketCall?
    ensures c.service == q.service && c.ticket == q.ticket && c.pgtUrl == q.pgtUrl
    ensures c.ServiceTicketCall? ==> c.renew == q.renew
  {
    if !Truthy(q.ticket) || StartsWith(q.ticket.value, PROXY_TICKET_PREFIX) then
      ProxyTicketCall(q.service, q.ticket, q.pgtUrl)
    else
      ServiceTicketCall(q.service, q.ticket, q.pgtUrl, q.renew)
  }

  /** `ProxyValidateView.get_context_data`. */
  function ProxyValidate(q: ValidationQuery, validator: Validator): (ctx: Context)
    ensures var v := validator(ProxyValidateCall(q));
      && ctx.ticket == v.ticket && ctx.pgt == v.pgt && ctx.error == v.error
      && ctx.proxies == (if ProxyValidateCall(q).ProxyTicketCall? then v.proxies else None)
      && (ctx.attributesFor.Some? <==> v.ticket.Some?)
      && (v.ticket.Some? ==> ctx.attributesFor == Some((v.ticket.value.user, v.ticket.value.service)))
  {
    var call := ProxyValidateCall(q);
    var v := validator(call);
    if call.ProxyTicketCall? then
      Context(v.ticket, v.pgt, v.proxies, v.error, AttributesFor(v.ticket))
    else
      ServiceContext(v)
  }

  /** On a ticket that is not a proxy ticket, /proxyValidate answers exactly
      as /serviceValidate does. */
  lemma ProxyValidateOnServiceTickets(q: ValidationQuery, validator: Validator)
    requires Truthy(q.ticket) && !StartsWith(q.ticket.value, PROXY_TICKET_PREFIX)
    ensures ProxyValidate(q, validator) == ServiceValidate(q, validator)
  {
  }

  /** On a proxy ticket (or none at all) /proxyValidate ignores `renew`. */
  lemma ProxyValidateIgnoresRenewOnProxyTickets(q: ValidationQuery, validator: Validator)
    requires !Truthy(q.ticket) || StartsWith(q.ticket.value, PROXY_TICKET_PREFIX)
    ensures ProxyValidate(q.(renew := true), validator) == ProxyValidate(q.(renew := false), validator)
  {
  }

  // ---------------------------------------------------------------------
  // /proxy (CAS 2.0)

  /** The query of /proxy. */
  datatype ProxyQuery = ProxyQuery(pgt: Option<string>, targetService: Option<string>)

  /** The renderer context of /proxy: the proxy ticket issued, or the error. */
  datatype ProxyContext = ProxyContext(ticket: Option<Ticket>, error: Option<ValidationError>)

  /** `ProxyView.get_context_data`: hands `pgt` and `targetService` to
      proxy-granting-ticket validation unchanged. */
  function Proxy(q: ProxyQuery, validator: Validator): (ctx: ProxyContext)
    ensures var v := validator(ProxyGrantingTicketCall(q.pgt, q.targetService));
      ctx.ticket == v.ticket && ctx.error == v.error
  {
    var v := validator(ProxyGrantingTicketCall(q.pgt, q.targetService));
    ProxyContext(v.ticket, v.error)
  }

  // ---------------------------------------------------------------------
  // /samlValidate (CAS 3.0)

  /** An `AssertionArtifact` element; `text` is None for an empty element. */
  datatype SamlElement = SamlElement(text: Option<string>)

  /** What parsing the POSTed SAML request yields: `Rejected` when the parser
      refuses it (malformed XML, or a DTD, which is forbidden), otherwise
      the first `AssertionArtifact` element, if there is one. */
  datatype SamlDocument = Rejected | Parsed(artifact: Option<SamlElement>)

  /** The ticket the SAML request carries; every parse failure and every
      missing artifact becomes "no ticket". */
  function SamlTicket(doc: SamlDocument): (ticket: Option<string>)
    ensures ticket.Some? <==> doc.Parsed? && doc.artifact.Some? && doc.artifact.value.text.Some?
    ensures ticket.Some? ==> ticket == doc.artifact.value.text
  {
    match doc
    case Rejected => None
    case Parsed(None) => None
    case Parsed(Some(element)) => element.text
  }

  /** `SamlValidateView.get_context_data` for the query's `target`. */
  function SamlValidate(target: Option<string>, doc: SamlDocument, validator: Validator): (ctx: Context)
    ensures var v := validator(ServiceTicketCall(target, SamlTicket(doc), None, false));
      && ctx.ticket == v.ticket && ctx.pgt == v.pgt && ctx.error == v.error
      && ctx.proxies == None
      && (ctx.attributesFor.Some? <==> v.ticket.Some?)
      && (v.ticket.Some? ==> ctx.attributesFor == Some((v.ticket.value.user, v.ticket.value.service)))
  {
    ServiceContext(validator(ServiceTicketCall(target, SamlTicket(doc), None, false)))
  }

  /** A SAML request is validated as a /serviceValidate request for its
      `target` and artifact, without renew and without a proxy callback. */
  lemma SamlIsServiceValidation(target: Option<string>, doc: SamlDocument, validator: Validator)
    ensures SamlValidate(target, doc, validator)
         == ServiceValidate(ValidationQuery(target, SamlTicket(doc), None, false), validator)
  {
  }

  /** A request the parser rejects is validated as one without a ticket. */
  lemma SamlRejectedHasNoTicket(target: Option<string>, validator: Validator)
    ensures SamlValidate(target, Rejected, validator)
         == ServiceValidate(ValidationQuery(target, None, None, false), validator)
  {
  }
}
