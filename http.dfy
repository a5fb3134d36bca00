/** What the route handlers read from the request context: headers,
    environment variables and the authenticated session. */
module Http {
  import opened Options

  /** JavaScript falsiness of an optional string (`!x`): absent or empty. */
  predicate IsBlank(s: Option<string>) {
    s.None? || s.value == ""
  }

  /** The user object of an authenticated session (`session.user`). */
  datatype SessionUser = SessionUser(id: Option<string>, email: Option<string>)

  /** `session?.user?.id` when it is truthy; None is the 401 case. */
  function AuthenticatedId(session: Option<SessionUser>): (r: Option<string>)
    ensures r.Some? <==> session.Some? && !IsBlank(session.value.id)
    ensures r.Some? ==> r.value != "" && r == session.value.id
  {
    if session.Some? && !IsBlank(session.value.id) then session.value.id else None
  }
}
