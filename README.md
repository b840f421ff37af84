# MamaCAS endpoint logic in Dafny

A model of the endpoint layer of MamaCAS, a Central Authentication Service
server for Django (CAS protocol 3.0). Each view in `mama_cas/views.py`
decides a few things per request:

- whether a service ticket is minted, and whether it is *primary* (issued
  from presented credentials);
- where the client is redirected, and with which query parameters;
- which ticket validator is called, and with which arguments;
- what the CAS 1.0 plain-text body is.

The model has these modules:

- `CasBase`: optional parameters, Python truthiness of a parameter,
  `str.startswith`, redirect targets and the replies of the browser-facing
  views.
- `Sessions`: one client's Django session (stored `service`, `warn` flag,
  authenticated user) as the class `Session`, and the service ticket table
  as the class `TicketStore`. A pure snapshot `SessionState` and a `Step`
  record (session afterwards, ticket minted, reply) specify the views that
  change state.
- `Login`: `LoginView.get` (the credential requestor, section 2.1 of CAS
  3.0) and `LoginView.form_valid` (the credential acceptor, section 2.2).
  Each is a method that updates a `Session` and a `TicketStore` in place,
  following the source statement by statement. Each is proved equal to a
  step function (`GetStep`, `FormValidStep`), and the step functions'
  contracts state the renew / gateway / SSO precedence.
- `Warn`: `WarnView.get` (section 2.2.1).
- `Logout`: `LogoutView.get` (section 2.3), a method that ends the session,
  plus its step function.
- `Validation`: `/validate` (2.4), `/serviceValidate` (2.5),
  `/proxyValidate` (2.6), `/proxy` (2.7) and `/samlValidate` (4.2). The
  ticket validators are a function parameter from `Call` (which validator,
  which arguments) to `Verdict` (what it returns). The CAS 1.0 body comes
  with a client-side reader and a round-trip proof.
- `SsoRuns`: a run of login and logout requests against one session, with
  properties proved by induction over every run. Examples: no ticket is
  minted without credentials; primary tickets come only from credential
  POSTs; `warn` lasts until logout.

Collaborators that `views.py` calls but does not define are inputs:

- `is_valid_service_url` is a `string -> bool` parameter.
- The validators of `ValidateTicketMixin` are a `Call -> Verdict` parameter.
- The identifier that `create_ticket` gives a new ticket is a parameter.
- `to_bool` is applied before the model: queries hold `renew` and
  `gateway` as booleans.
- The `MAMA_CAS_FOLLOW_LOGOUT_URL` setting is a boolean parameter.
- The SAML document is given as what `defusedxml` yields.

`ProxyTicket.TICKET_PREFIX` is taken to be `"PT-"`, the CAS wire prefix.
`mama_cas/models.py` is not part of this model, and no proof depends on
that value.

Two behaviours of the code are worth knowing, and the model follows them:

- On logout, `views.py` follows `service` whenever the follow setting is
  on, without checking it against the service whitelist. The whitelist
  gates only `url`. Whether the `redirect` helper checks the URL again is
  outside this model.
- A SAML request that cannot be parsed, or that has no artifact, is
  validated with no ticket at all (`ticket = None`). `views.py` does not
  pick an error for it. Which error the validator then reports is outside
  this model.

## Model

| member | source | states |
|---|---|---|
| `CasBase.StartsWith` | mama_cas/views.py:304 | `str.startswith`: true exactly when the prefix fits and the string's first characters equal it |
| `CasBase.Lookup` | mama_cas/views.py:165-166 | reading a query parameter as `QueryDict.get` does: found exactly when some parameter has that name, and then the value is that of the last parameter with the name |
| `Sessions.TicketStore.CreateTicket` | mama_cas/views.py:149-151 | creating a ticket appends exactly one record (id, service, user, primary) to the store and returns its id |
| `Sessions.Session.WarnUser` | mama_cas/views.py:102-107 | `warn_user`: true exactly when the session's `warn` flag is set; an unset flag reads as false |
| `Sessions.Session.LogoutUser` | mama_cas/views.py:203 | ending the SSO session leaves an empty session: no user, no stored service, no warn flag |
| `Login.TargetService` | mama_cas/views.py:62-69 | a non-empty query `service` wins; otherwise the session's stored service is used; a usable service exists exactly when one of the two is non-empty |
| `Login.GetStep` | mama_cas/views.py:62-107 | GET /login: a non-empty `service` is stored, otherwise the session is untouched; renew renders the form and mints nothing, even with gateway or an SSO session; gateway without a session redirects to the service with no ticket; a ticket is minted exactly when there is no renew, a user is logged in and a service is known, and it is never primary; that ticket goes through the warn page exactly when `warn` is set; the client is redirected exactly when there is no renew, a service is known, and gateway or an SSO session is present; the stored-service invariant is kept |
| `Login.FormValidStep` | mama_cas/views.py:141-153 | successful POST: the user is logged in; `warn` becomes true when checked and is never cleared; a primary ticket is minted exactly when the query names a non-empty service, and the client goes back to it with the ticket; otherwise the client goes to the login page |
| `Login.Get` | mama_cas/views.py:47-100 | the in-place GET /login leaves the session, the reply and the ticket store exactly as `GetStep` says, and keeps the session invariant |
| `Login.FormValid` | mama_cas/views.py:118-153 | the in-place POST /login leaves the session, the reply and the ticket store exactly as `FormValidStep` says |
| `Login.RememberedService` | mama_cas/views.py:62-69 | after a GET that names a service, a later GET without one, in the same SSO session, mints its ticket for the remembered service |
| `Login.FormValidIgnoresStoredService` | mama_cas/views.py:147-153 | what a POST mints and where it redirects do not depend on the service stored in the session |
| `Login.SingleSignOn` | mama_cas/views.py:87-96 | after credentials are presented (by the session's own user, or into a session without one, where `login()` keeps the session's keys), a GET for a service without renew mints a non-primary ticket for it, through the warn page exactly when `warn` was already set or was checked |
| `Warn.Get` | mama_cas/views.py:164-176 | the confirmation page is shown exactly for a non-empty, whitelisted service, and it continues to that service with the given ticket; anything else redirects to the login page |
| `Warn.LoginThenWarn` | mama_cas/views.py:81-83 | when GET /login sends the client to the warn page, that page continues to the same service with the ticket just minted, for the session's user, exactly when the service is whitelisted |
| `Logout.GetStep` | mama_cas/views.py:199-211 | logout always empties the session and mints nothing; every reply is a redirect without query parameters; `service` is followed whenever the setting allows it; the client goes to an application URL exactly when the setting allows it and `service` is given, or `url` is given and whitelisted; a `url` is followed only when whitelisted; otherwise the login page; an unfollowed whitelisted `url` is offered as a link |
| `Logout.Get` | mama_cas/views.py:199-211 | the in-place logout leaves the session empty and replies as `GetStep` says |
| `Logout.LogoutEndsSingleSignOn` | mama_cas/views.py:182-188 | after logout, no GET /login mints a ticket, whatever its query |
| `Validation.Validate` | mama_cas/views.py:228-239 | /validate calls service-ticket validation with the query's service, ticket and renew and never a proxy callback URL; the body is exactly `yes\n<username>\n` when a ticket comes back and exactly `no\n\n` otherwise |
| `Validation.Cas1Body` | mama_cas/views.py:235-238 | the CAS 1.0 body's first line is `yes` exactly when a ticket validated, and then the rest is the username followed by a line break |
| `Validation.Cas1RoundTrip` | mama_cas/views.py:235-238 | a CAS 1.0 client that splits the body into lines gets back exactly the outcome written (success for that username, or failure), for usernames without line breaks |
| `Validation.ServiceValidate` | mama_cas/views.py:263-273 | /serviceValidate passes service, ticket, pgtUrl and renew to service-ticket validation; the context carries its ticket, PGT and error, no proxies, and attributes exactly when a ticket validated, for that ticket's user and service |
| `Validation.ProxyValidateCall` | mama_cas/views.py:304-312 | /proxyValidate uses proxy-ticket validation exactly when the ticket is missing or empty or starts with the proxy-ticket prefix; every other ticket goes to service-ticket validation; service, ticket and pgtUrl are passed unchanged, and renew is passed only to service-ticket validation |
| `Validation.ProxyValidate` | mama_cas/views.py:298-315 | the /proxyValidate context carries the validator's ticket, PGT and error; it carries proxies only from proxy-ticket validation (None in the other branch); attributes exactly when a ticket validated, for that ticket's user and service |
| `Validation.ProxyValidateOnServiceTickets` | mama_cas/views.py:309-312 | on a non-empty ticket without the proxy-ticket prefix, /proxyValidate answers exactly as /serviceValidate |
| `Validation.ProxyValidateIgnoresRenewOnProxyTickets` | mama_cas/views.py:304-308 | on a proxy ticket, or no ticket, `renew` makes no difference to /proxyValidate |
| `Validation.Proxy` | mama_cas/views.py:331-336 | /proxy passes `pgt` and `targetService` unchanged to proxy-granting-ticket validation; the context carries only the proxy ticket and the error |
| `Validation.SamlTicket` | mama_cas/views.py:360-364 | the SAML ticket exists exactly when the document parsed and has an artifact element with text, and then it is that text; a rejected document (malformed XML, a DTD) yields no ticket |
| `Validation.SamlValidate` | mama_cas/views.py:355-369 | /samlValidate validates the artifact as a service ticket for `target`, without renew and without a proxy callback; the context has no proxies, and attributes exactly when a ticket validated, for that ticket's user and service |
| `Validation.SamlIsServiceValidation` | mama_cas/views.py:366-369 | a SAML validation answers exactly as /serviceValidate would for its target and artifact, without renew or pgtUrl |
| `Validation.SamlRejectedHasNoTicket` | mama_cas/views.py:360-366 | a document the parser rejects is validated exactly like a request without a ticket |
| `SsoRuns.NoTicketWithoutCredentials` | mama_cas/views.py:76-96 | a client that is not logged in and never presents credentials gets no ticket in any run of logins and logouts |
| `SsoRuns.PrimaryTicketsFromCredentials` | mama_cas/views.py:147-152 | in every run, the number of primary tickets equals the number of credential POSTs whose query named a service |
| `SsoRuns.WarnLastsUntilLogout` | mama_cas/views.py:144-145 | once set, `warn` stays set through every run without a logout in which a single user presents all credentials, into a session without a user or already theirs |
| `SsoRuns.StoredServiceStaysNonEmpty` | mama_cas/views.py:62-64 | every session a run reaches stores only non-empty service URLs |

## Left out

- The ticket validators (`ValidateTicketMixin`), ticket creation details, consumption, expiry and ticket-id generation. They are in files that are not part of this model. Validators are a function parameter, and ticket ids are inputs.
- The utilities `to_bool`, `is_valid_service_url`, `add_query_params`, `clean_service_url` and `redirect`, and how `redirect` resolves view names. They are not part of this model. Targets are kept symbolic (`LoginPage`, `WarnPage`, `Url`), and the warn page's message keeps the raw service URL where the source shows `clean_service_url(service)`.
- Logout.GetStep: `logout_user` (a mixin, not part of this model) is taken to flush the whole session. Its consumption of the user's tickets and its single sign-out requests are not modelled.
- Login.FormValidStep: Django's `login()` is modelled as setting the session's user only. The session flush that `login()` performs when a different user was already logged in is not modelled. For that reason `Login.SingleSignOn` and `SsoRuns.WarnLastsUntilLogout` are stated only for credentials presented by the session's own user or into a session without one.
- The login-required guard in front of `WarnView` is not modelled. `Warn.Get` takes the logged-in user as input.
- XML and SAML rendering (`ValidationResponse`, `ProxyResponse`, `SamlValidationResponse`), custom attribute lookup (`get_attributes`) and `get_username`. The context records whose attributes are looked up, and a user's username is a field of `User`.
- SAML parsing with `defusedxml`, and the assertion that `defusedxml` is installed. A document is given as what the parser yields: rejected, or parsed with or without an `AssertionArtifact`.
- Django plumbing: HTTP responses, templates, the messages framework (kept only as the notice a reply carries), translations, CSRF and never-cache mixins, logging and the debug output in `LoginView.get`.
- Credential checking (`LoginForm` and the authentication backends that `mama_cas/tests/test_forms.py` exercises). Its code is not part of this model. A successful POST is given the authenticated user.
- Concurrent requests on one session are not modelled. Each view runs as one sequential step.
