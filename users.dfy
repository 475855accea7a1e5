/** The users service: the users fixture with the secret fields removed at
    load time, listed whole or looked up by id. */
module Users {
  import opened Common
  import opened Records

  /** The fields never exposed by the service. */
  const SecretFields: set<string> := {"password", "apiKey"}

  predicate Public(r: Record)
  {
    "password" !in r && "apiKey" !in r
  }

  /** Collections in which no record carries a secret field. */
  type PublicRecords = s: seq<Record> | forall i :: 0 <= i < |s| ==> Public(s[i])
    witness []

  /** `({ password, apiKey, ...user }) => user`: the record without the two secret
      fields and with every other field unchanged. */
  function Strip(r: Record): (p: Record)
    ensures Public(p)
    ensures p.Keys == r.Keys - SecretFields
    ensures forall f :: f in p ==> p[f] == r[f]
  {
    r - SecretFields
  }

  /** Loading: one stripped record per fixture record, in fixture order. */
  function LoadUsers(all: seq<Record>): (users: PublicRecords)
    ensures |users| == |all|
    ensures forall i :: 0 <= i < |all| ==> users[i] == Strip(all[i])
  {
    seq(|all|, i requires 0 <= i < |all| => Strip(all[i]))
  }

  /** The service over the stripped collection; nothing changes it after loading. */
  datatype UsersService = UsersService(users: PublicRecords) {

    /** The loaded collection itself; no record in it has a secret field. */
    function FindAll(): (r: seq<Record>)
      ensures r == users
      ensures forall i :: 0 <= i < |r| ==> Public(r[i])
    {
      users
    }

    /** The first user whose id is exactly `id`, or NotFound when there is none;
        the user returned has no secret field. */
    function FindOne(id: string): (r: Result<Record>)
      ensures r.Ok? <==> exists k :: 0 <= k < |users| && HasId(users[k], id)
      ensures r.Ok? ==>
        exists k :: 0 <= k < |users| && users[k] == r.value && HasId(r.value, id) &&
          forall j :: 0 <= j < k ==> !HasId(users[j], id)
      ensures r.Ok? ==> Public(r.value)
      ensures r.Err? ==> r.error == NotFound("User with ID " + id + " not found")
    {
      match FindById(users, id)
      case None => Err(NotFound("User with ID " + id + " not found"))
      case Some(k) => Ok(users[k])
    }
  }

  /** Stripping keeps the ids, so looking a user up in the loaded service finds
      the stripped form of the first fixture record with that id, and fails
      exactly when the fixture has none. */
  lemma LoadedLookupMatchesFixture(all: seq<Record>, id: string)
    ensures var r := UsersService(LoadUsers(all)).FindOne(id);
      match FindById(all, id)
      case None => r == Err(NotFound("User with ID " + id + " not found"))
      case Some(k) => r == Ok(Strip(all[k]))
  {
    var loaded := LoadUsers(all);
    forall i | 0 <= i < |all|
      ensures HasId(loaded[i], id) <==> HasId(all[i], id)
    {
      assert "id" !in SecretFields;
    }
    FindFirstAgrees(loaded, (r: Record) => HasId(r, id), all, (r: Record) => HasId(r, id));
  }
}
