/**
 * What the pages read from the identity provider's session and the effects
 * they produce: the user record, the access token, and alerts and route
 * changes.
 */
module Session {
  import opened Wrappers
  import opened Values

  /** The fields of the provider's user record the pages read. */
  datatype User = User(emailConfirmedAt: Json, userMetadata: map<string, Json>)

  /** `user.email_confirmed_at` is truthy. */
  predicate Confirmed(user: User) {
    JsTruthy(user.emailConfirmedAt)
  }

  /** `token` is truthy: present and not the empty string. */
  predicate HasToken(token: Option<string>) {
    token.Some? && token.value != ""
  }

  /** What a page does to the outside world besides sending requests. */
  datatype Effect =
    | Alert(text: string)
    | Navigate(route: string)

  const LoginRoute := "/login"
}
