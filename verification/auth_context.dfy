/** The client's session store: four pieces of auth state mirrored into the
    browser's key-value storage, and the hook that reads them. */
module AuthContext {
  import opened Common

  /** The storage keys the provider loads on mount and removes on logout. */
  const AuthKeys: set<string> := {"accessToken", "refreshToken", "username", "id"}

  /** `localStorage.getItem(key) || ""`: the stored value, or the empty
      string when the key is absent. */
  function Stored(storage: map<string, string>, key: string): (v: string)
    ensures key in storage ==> v == storage[key]
    ensures key !in storage ==> v == ""
  {
    if key in storage then storage[key] else ""
  }

  /** What a call of the hook yields: the context, or the error it throws. */
  datatype Thrown<T> = Returned(value: T) | Threw(message: string)

  /** The provider's state. `storage` is the browser's local storage, which
      outlives the provider. */
  class AuthProvider {
    var accessToken: string
    var refreshToken: string
    var username: string
    var userId: string
    var storage: map<string, string>

    /** A fresh provider over the given storage, before its mount effect. */
    constructor (storage: map<string, string>)
      ensures accessToken == "" && refreshToken == "" && username == "" && userId == ""
      ensures this.storage == storage
    {
      accessToken := "";
      refreshToken := "";
      username := "";
      userId := "";
      this.storage := storage;
    }

    /** The mount effect: each field takes its stored value. */
    method Mount()
      modifies this
      ensures accessToken == Stored(storage, "accessToken")
      ensures refreshToken == Stored(storage, "refreshToken")
      ensures username == Stored(storage, "username")
      ensures userId == Stored(storage, "id")
      ensures storage == old(storage)
    {
      accessToken := Stored(storage, "accessToken");
      refreshToken := Stored(storage, "refreshToken");
      username := Stored(storage, "username");
      userId := Stored(storage, "id");
    }

    /** setTokens: both fields and both keys take the arguments. */
    method SetTokens(access: string, refresh: string)
      modifies this
      ensures accessToken == access && refreshToken == refresh
      ensures storage == old(storage)["accessToken" := access]["refreshToken" := refresh]
      ensures username == old(username) && userId == old(userId)
    {
      accessToken := access;
      refreshToken := refresh;
      storage := storage["accessToken" := access];
      storage := storage["refreshToken" := refresh];
    }

    /** setUser: the department goes to storage only. */
    method SetUser(name: string, id: string, department: string)
      modifies this
      ensures username == name && userId == id
      ensures storage == old(storage)["username" := name]["id" := id]["department" := department]
      ensures accessToken == old(accessToken) && refreshToken == old(refreshToken)
    {
      username := name;
      userId := id;
      storage := storage["username" := name];
      storage := storage["id" := id];
      storage := storage["department" := department];
    }

    /** clearAuth: the four fields are emptied and the four keys removed;
        every other key, `department` among them, is kept. */
    method ClearAuth()
      modifies this
      ensures accessToken == "" && refreshToken == "" && username == "" && userId == ""
      ensures storage == old(storage) - AuthKeys
    {
      accessToken := "";
      refreshToken := "";
      username := "";
      userId := "";
      storage := storage - {"accessToken"};
      storage := storage - {"refreshToken"};
      storage := storage - {"username"};
      storage := storage - {"id"};
      assert storage == old(storage) - AuthKeys;
    }
  }

  /** After a logout a remount finds no session, but a stored department is
      still there. */
  lemma ClearedStorage(storage: map<string, string>)
    ensures forall k :: k in AuthKeys ==> Stored(storage - AuthKeys, k) == ""
    ensures "department" in storage ==> "department" in storage - AuthKeys
    ensures "department" in storage ==>
      (storage - AuthKeys)["department"] == storage["department"]
    ensures forall k :: k in storage && k !in AuthKeys ==> k in storage - AuthKeys
  {
  }

  /** The keys `setTokens` and `setUser` write are the ones a remount reads
      back. */
  lemma StoredRoundTrip(storage: map<string, string>, access: string, refresh: string,
                        name: string, id: string, department: string)
    ensures var s := storage["accessToken" := access]["refreshToken" := refresh]
                            ["username" := name]["id" := id]["department" := department];
      Stored(s, "accessToken") == access && Stored(s, "refreshToken") == refresh
      && Stored(s, "username") == name && Stored(s, "id") == id
  {
  }

  /** useAuth: outside a provider there is no context and the hook throws. */
  function UseAuth(context: Option<AuthProvider>): (r: Thrown<AuthProvider>)
    ensures r.Returned? <==> context.Some?
    ensures r.Returned? ==> r.value == context.value
    ensures r.Threw? ==> r.message == "useAuth must be used within an AuthProvider"
  {
    if context.None? then Threw("useAuth must be used within an AuthProvider")
    else Returned(context.value)
  }
}
