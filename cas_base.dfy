/** Values shared by every endpoint of the CAS server: optional query
    parameters, users, redirect targets and the replies a view produces. */
module CasBase {

  datatype Option<+T> = None | Some(value: T)

  /** The authenticated principal; `username` is what `get_username` yields. */
  datatype User = User(username: string)

  /** Python truthiness of an optional string parameter (`if service:`):
      present and non-empty. */
  predicate Truthy(p: Option<string>) {
    p.Some? && p.value != ""
  }

  /** Python's `str.startswith`. */
  function StartsWith(s: string, prefix: string): (r: bool)
    ensures r <==> |prefix| <= |s| && s[..|prefix|] == prefix
  {
    if prefix == [] then true
    else if s == [] then false
    else s[0] == prefix[0] && StartsWith(s[1..], prefix[1..])
  }

  /** Where a redirect goes: one of the server's own named views
      (`cas_login`, `cas_warn`) or a service URL. */
  datatype Target = LoginPage | WarnPage | Url(url: string)

  /** A query parameter added to a redirect, in insertion order. */
  type Param = (string, string)

  /** The flash messages the views push through the messages framework. */
  datatype Notice =
    | LoggedInAs(user: User)
    | FollowLink(url: string)
    | ConfirmAccess(service: string, user: User)

  /** What a browser-facing view answers. */
  datatype Reply =
    | RenderLoginForm(notice: Option<Notice>)
    | RenderWarnPage(confirm: Notice, service: string, ticket: Option<string>)
    | Redirect(to: Target, params: seq<Param>, notice: Option<Notice>)

  /** `QueryDict.get`: the value of the last parameter named `key`, if any. */
  function Lookup(params: seq<Param>, key: string): (v: Option<string>)
    ensures v.Some? <==> exists i :: 0 <= i < |params| && params[i].0 == key
    ensures v.Some? ==>
      exists i :: 0 <= i < |params| && params[i] == (key, v.value)
        && forall j :: i < j < |params| ==> params[j].0 != key
  {
    if params == [] then None
    else if params[|params| - 1].0 == key then Some(params[|params| - 1].1)
    else Lookup(params[..|params| - 1], key)
  }
}
