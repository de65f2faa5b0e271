/** What the pages see of the browser: the token kept in `localStorage`, the
    answer of `fetch("/api/auth/me")` and the router's navigation targets. */
module Browser {
  import opened Wrappers

  const LoginPath := "/login"
  const UnauthorizedPath := "/unauthorized"

  /** `fetch("/api/auth/me")` followed by `res.json()` and `user.role`:
      a non-ok response, the signed-in user's role, or an exception
      (network failure, a body that is not JSON, a body without `user`). */
  datatype MeReply = NotOk | Answered(role: string) | Threw

  /** `localStorage.getItem("token")` is truthy: present and not empty. */
  predicate HasToken(token: Option<string>) {
    token.Some? && token.value != []
  }
}
