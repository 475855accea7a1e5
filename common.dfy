/** Shared vocabulary of the mock API: optional values, the HTTP exceptions the
    services raise, first-match search over an array (JavaScript's `Array.find`),
    the user fixture as the authentication code sees it, and a few string helpers. */
module Common {

  datatype Option<T> = None | Some(value: T)

  /** The NestJS exceptions thrown by the core, each with its message. */
  datatype Error =
    | Unauthorized(message: string)   // 401
    | BadRequest(message: string)     // 400
    | NotFound(message: string)       // 404

  /** A returned value or a thrown exception. */
  datatype Result<T> = Ok(value: T) | Err(error: Error)

  /** A check that returns nothing or throws. */
  datatype Outcome = Pass | Fail(error: Error)

  /** A record of the users fixture, with the fields the authentication code reads. */
  datatype User = User(
    id: string,
    username: string,
    password: string,   // a bcrypt hash in the fixture
    apiKey: string,
    email: string,
    role: string,
    active: bool)

  /** The object a Passport strategy hands to the guard on success. */
  datatype Identity = Identity(userId: string, username: string, authMethod: string)

  /** The first active user with this username. */
  function ActiveUserNamed(users: seq<User>, username: string): Option<nat>
  {
    FindFirst(users, (u: User) => u.username == username && u.active)
  }

  /** The active users, in fixture order. */
  function ActiveUsers(users: seq<User>): seq<User>
  {
    Filter(users, (u: User) => u.active)
  }

  /** JavaScript truthiness of an optional string: present and not empty. */
  predicate Truthy(s: Option<string>)
  {
    s.Some? && s.value != ""
  }

  /** JavaScript `s || fallback` on an optional string. */
  function OrElse(s: Option<string>, fallback: string): string
  {
    if Truthy(s) then s.value else fallback
  }

  /** `s.startsWith(prefix)`. */
  predicate StartsWith(s: string, prefix: string)
  {
    |prefix| <= |s| && s[..|prefix|] == prefix
  }

  /** The index of the first element of `s` satisfying `p`, as `Array.find` scans. */
  function FindFirst<T>(s: seq<T>, p: T -> bool): (r: Option<nat>)
    ensures r.Some? ==> r.value < |s| && p(s[r.value])
    ensures r.Some? ==> forall j :: 0 <= j < r.value ==> !p(s[j])
    ensures r.None? ==> forall j :: 0 <= j < |s| ==> !p(s[j])
  {
    if |s| == 0 then None
    else if p(s[0]) then Some(0)
    else match FindFirst(s[1..], p)
      case None => None
      case Some(k) => Some(k + 1)
  }

  /** The elements of `s` that satisfy `q`, in order. */
  function Filter<T>(s: seq<T>, q: T -> bool): (r: seq<T>)
    ensures |r| <= |s|
    ensures forall x :: x in r ==> x in s && q(x)
  {
    if |s| == 0 then []
    else (if q(s[0]) then [s[0]] else []) + Filter(s[1..], q)
  }

  /** Searching for `p` finds the same element whether or not the elements
      failing `q` are removed first, when every element satisfying `p` satisfies `q`. */
  lemma {:induction false} FindFirstIgnoresFiltered<T>(s: seq<T>, p: T -> bool, q: T -> bool)
    requires forall x :: p(x) ==> q(x)
    ensures FindFirst(s, p).None? <==> FindFirst(Filter(s, q), p).None?
    ensures FindFirst(s, p).Some? ==>
      s[FindFirst(s, p).value] == Filter(s, q)[FindFirst(Filter(s, q), p).value]
  {
    if |s| > 0 {
      FindFirstIgnoresFiltered(s[1..], p, q);
      if q(s[0]) {
        assert Filter(s, q) == [s[0]] + Filter(s[1..], q);
        assert Filter(s, q)[1..] == Filter(s[1..], q);
      } else {
        assert Filter(s, q) == Filter(s[1..], q);
      }
    }
  }

  /** Two searches that agree, position by position, on which elements match
      find the same position. */
  lemma {:induction false} FindFirstAgrees<T, U>(s: seq<T>, p: T -> bool, s': seq<U>, p': U -> bool)
    requires |s| == |s'|
    requires forall i :: 0 <= i < |s| ==> (p(s[i]) <==> p'(s'[i]))
    ensures FindFirst(s, p) == FindFirst(s', p')
  {
    if |s| > 0 && !p(s[0]) {
      FindFirstAgrees(s[1..], p, s'[1..], p');
    }
  }
}
