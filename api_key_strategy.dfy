/** The API-key strategy: the `X-API-Key` header is looked up among the users. */
module ApiKeyStrategy {
  import opened Common

  /** The two arguments the strategy passes to Passport's `done` callback. */
  datatype Done = Done(err: Option<Error>, data: Option<Identity>)

  predicate KeyMatches(u: User, apiKey: string)
  {
    u.apiKey == apiKey && u.active
  }

  /** Accepts exactly when an active user holds this very key, answering with the
      first such user; otherwise reports Unauthorized and no data. */
  function Validate(users: seq<User>, apiKey: string): (r: Done)
    ensures r.data.Some? <==> exists k :: 0 <= k < |users| && KeyMatches(users[k], apiKey)
    ensures r.data.None? ==> r.err == Some(Unauthorized("Invalid API Key"))
    ensures r.data.Some? ==>
      && r.err.None?
      && exists k :: 0 <= k < |users| && KeyMatches(users[k], apiKey) &&
           (forall j :: 0 <= j < k ==> !KeyMatches(users[j], apiKey)) &&
           r.data.value == Identity(users[k].id, users[k].username, "api-key")
  {
    match FindFirst(users, (u: User) => KeyMatches(u, apiKey))
    case None => Done(Some(Unauthorized("Invalid API Key")), None)
    case Some(k) => Done(None, Some(Identity(users[k].id, users[k].username, "api-key")))
  }

  /** Inactive users are invisible: validating against the whole fixture is the
      same as validating against its active users alone. */
  lemma ValidateSeesOnlyActiveUsers(users: seq<User>, apiKey: string)
    ensures Validate(users, apiKey) == Validate(ActiveUsers(users), apiKey)
  {
    FindFirstIgnoresFiltered(users, (u: User) => KeyMatches(u, apiKey), (u: User) => u.active);
  }
}
