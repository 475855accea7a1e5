/** The `handleRequest` hooks of the two guards: how the error and the user
    produced by Passport become the guard's answer.  A user is `None` when
    Passport hands over a falsy value. */
module Guards {
  import opened Common

  /** The strategies the combined guard runs, in this order. */
  const MultiAuthStrategies: seq<string> := ["jwt", "api-key", "basic"]

  const MultiAuthMessage :=
    "Authentication required. Please provide valid Bearer token, API Key (X-API-Key header), or Basic Auth credentials"

  const BasicAuthMessage := "Invalid credentials"

  /** What `handleRequest` does: return the user, rethrow whatever the strategy
      produced (any value), or throw a new 401. */
  datatype Decision<E, U> = Allow(user: U) | Rethrow(err: E) | Deny(error: Error)

  /** `if (err || !user) throw err || new UnauthorizedException(message); return user;`
      A falsy `err` or `user` is `None`. */
  function Decide<E, U>(err: Option<E>, user: Option<U>, message: string): Decision<E, U>
  {
    if err.Some? then Rethrow(err.value)
    else if user.None? then Deny(Unauthorized(message))
    else Allow(user.value)
  }

  /** The combined guard: a strategy error wins, even over a user; no user gives
      the combined 401; otherwise the very user object is returned. */
  function MultiAuthHandleRequest<E, U>(err: Option<E>, user: Option<U>): (r: Decision<E, U>)
    ensures err.Some? ==> r == Rethrow(err.value)
    ensures err.None? && user.None? ==> r == Deny(Unauthorized(MultiAuthMessage))
    ensures err.None? && user.Some? ==> r == Allow(user.value)
    ensures r.Allow? ==> err.None? && user == Some(r.user)
  {
    Decide(err, user, MultiAuthMessage)
  }

  /** The Basic-only guard: the same precedence, with its own message. */
  function BasicAuthHandleRequest<E, U>(err: Option<E>, user: Option<U>): (r: Decision<E, U>)
    ensures err.Some? ==> r == Rethrow(err.value)
    ensures err.None? && user.None? ==> r == Deny(Unauthorized(BasicAuthMessage))
    ensures err.None? && user.Some? ==> r == Allow(user.value)
    ensures r.Allow? ==> err.None? && user == Some(r.user)
  {
    Decide(err, user, BasicAuthMessage)
  }

  /** The two guards differ only in the message of the missing-user error. */
  lemma GuardsAgreeExceptMessage<E, U>(err: Option<E>, user: Option<U>)
    ensures MultiAuthHandleRequest(err, user).Allow? <==> BasicAuthHandleRequest(err, user).Allow?
    ensures err.Some? || user.Some? ==> MultiAuthHandleRequest(err, user) == BasicAuthHandleRequest(err, user)
  {
  }
}
