/** The HTTP Basic strategy (RFC 7617): an active user with the given name whose
    password matches a small plaintext demo table or the stored bcrypt hash. */
module BasicStrategy {
  import opened Common
  import OAuth

  /** What `bcrypt.compare(password, hash)` does: resolve to true or false, or throw. */
  datatype HashCheck = Match | Mismatch | Threw

  type HashCompare = (string, string) -> HashCheck

  /** The plaintext passwords this strategy accepts besides the hashes. */
  const PlainTextPasswords: map<string, string> := map["admin" := "admin123", "user" := "user123"]

  predicate PlainTextMatches(username: string, password: string)
  {
    username in PlainTextPasswords && PlainTextPasswords[username] == password
  }

  function Validate(users: seq<User>, username: string, password: string, compare: HashCompare): (r: Result<Identity>)
    ensures r.Err? ==> r.error == Unauthorized("Invalid credentials")
    // no active user of that name: rejected before any password is looked at
    ensures (forall k :: 0 <= k < |users| ==> !(users[k].username == username && users[k].active)) ==>
      r == Err(Unauthorized("Invalid credentials"))
    ensures ActiveUserNamed(users, username).Some? ==>
      var user := users[ActiveUserNamed(users, username).value];
      && (r.Ok? <==> PlainTextMatches(username, password) || compare(password, user.password) == Match)
      && (r.Ok? ==> r.value == Identity(user.id, user.username, "basic"))
  {
    match ActiveUserNamed(users, username)
    case None => Err(Unauthorized("Invalid credentials"))
    case Some(k) =>
      var user := users[k];
      var isValidPlainText := PlainTextMatches(username, password);
      // an exception from the comparison leaves the flag false
      var isValidBcrypt := compare(password, user.password) == Match;
      if !isValidPlainText && !isValidBcrypt then Err(Unauthorized("Invalid credentials"))
      else Ok(Identity(user.id, user.username, "basic"))
  }

  /** A comparison that throws counts as a mismatch, not as an error. */
  lemma ThrowingCompareIsMismatch(users: seq<User>, username: string, password: string, compare: HashCompare)
    ensures Validate(users, username, password, compare) ==
            Validate(users, username, password, (p: string, h: string) => if compare(p, h) == Threw then Mismatch else compare(p, h))
  {
  }

  /** Inactive users are invisible to the strategy. */
  lemma ValidateSeesOnlyActiveUsers(users: seq<User>, username: string, password: string, compare: HashCompare)
    ensures Validate(users, username, password, compare) == Validate(ActiveUsers(users), username, password, compare)
  {
    FindFirstIgnoresFiltered(users, (u: User) => u.username == username && u.active, (u: User) => u.active);
  }

  /** The plaintext table is a strict part of the token service's demo table:
      the other demo users get in through Basic only by their hash. */
  lemma PlainTextTableIsSmaller(users: seq<User>, username: string, password: string, compare: HashCompare)
    requires username in OAuth.DemoPasswords && username !in PlainTextPasswords
    requires Validate(users, username, password, compare).Ok?
    ensures compare(password, users[ActiveUserNamed(users, username).value].password) == Match
    ensures forall u :: u in PlainTextPasswords ==> u in OAuth.DemoPasswords && OAuth.DemoPasswords[u] == PlainTextPasswords[u]
  {
  }
}
