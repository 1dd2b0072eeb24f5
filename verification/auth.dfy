/**
 * The session store: the current user, the startup loading flag, and the
 * browser's key-value storage, with rehydration, login and logout.
 */
module Auth {
  import opened Wrappers
  import opened Types
  import Api

  const TOKEN_KEY: string := "authToken"
  const USER_KEY: string := "authUser"

  /** The `{_id, name, email}` record written under `authUser`; the token is deliberately not part of it. */
  datatype Profile = Profile(id: string, name: string, email: string)

  function ProfileOf(u: User): Profile {
    Profile(u.id, u.name, u.email)
  }

  /**
   * `JSON.parse` and `JSON.stringify` of the stored profile, taken as given
   * functions: `parse` answers None where `JSON.parse` throws.
   */
  datatype ProfileCodec = ProfileCodec(parse: string -> Option<Profile>, stringify: Profile -> string)

  /** A codec that reads back what it writes and never writes the empty string. */
  ghost predicate Faithful(codec: ProfileCodec) {
    forall p :: codec.parse(codec.stringify(p)) == Some(p) && codec.stringify(p) != []
  }

  /** `localStorage.getItem(key)`. */
  function Lookup(storage: map<string, string>, key: string): Option<string> {
    if key in storage then Some(storage[key]) else None
  }

  /** The stored entry is truthy: present and not the empty string. */
  predicate Truthy(storage: map<string, string>, key: string) {
    key in storage && storage[key] != []
  }

  /** What the startup check finds in storage. */
  datatype Restore = Restored(user: User) | NothingStored | Corrupted

  /**
   * The startup check: a session is restored only when both entries are
   * truthy and the profile parses; the restored user is the parsed profile
   * with the stored token put back.
   */
  function RestoreFrom(storage: map<string, string>, codec: ProfileCodec): (r: Restore)
    ensures r.NothingStored? <==> !(Truthy(storage, TOKEN_KEY) && Truthy(storage, USER_KEY))
    ensures r.Corrupted? <==>
              Truthy(storage, TOKEN_KEY) && Truthy(storage, USER_KEY) && codec.parse(storage[USER_KEY]).None?
    ensures r.Restored? ==>
              r.user.token == storage[TOKEN_KEY] && codec.parse(storage[USER_KEY]) == Some(ProfileOf(r.user))
  {
    if Truthy(storage, TOKEN_KEY) && Truthy(storage, USER_KEY) then
      match codec.parse(storage[USER_KEY])
      case Some(p) => Restored(User(p.id, storage[TOKEN_KEY], p.name, p.email))
      case None => Corrupted
    else
      NothingStored
  }

  /** Storage after the startup check: both keys go only when the profile failed to parse. */
  function StorageAfterRestore(storage: map<string, string>, codec: ProfileCodec): map<string, string> {
    if RestoreFrom(storage, codec).Corrupted? then storage - {TOKEN_KEY, USER_KEY} else storage
  }

  /** Storage after a successful login: the token, and the profile without the token. */
  function StorageAfterLogin(storage: map<string, string>, codec: ProfileCodec, u: User): map<string, string> {
    storage[TOKEN_KEY := u.token][USER_KEY := codec.stringify(ProfileOf(u))]
  }

  class AuthStore {
    var user: Option<User>
    var isLoading: bool
    var storage: map<string, string>
    const codec: ProfileCodec

    /** The provider mounts with no user and the loading flag raised. */
    constructor (storage: map<string, string>, codec: ProfileCodec)
      ensures this.user == None && this.isLoading
      ensures this.storage == storage && this.codec == codec
    {
      this.user := None;
      this.isLoading := true;
      this.storage := storage;
      this.codec := codec;
    }

    /** `isAuthenticated: !!user`. */
    predicate IsAuthenticated()
      reads this
    {
      user.Some?
    }

    /**
     * The mount effect. A missing entry leaves everything as it was; a parse
     * failure is caught and clears both entries; the loading flag drops on
     * every path.
     */
    method Rehydrate()
      modifies this
      ensures user == (match RestoreFrom(old(storage), codec)
                       case Restored(u) => Some(u)
                       case _ => old(user))
      ensures storage == StorageAfterRestore(old(storage), codec)
      ensures !isLoading
    {
      var storedToken := Lookup(storage, TOKEN_KEY);
      var storedUser := Lookup(storage, USER_KEY);
      if storedToken.Some? && storedToken.value != [] && storedUser.Some? && storedUser.value != [] {
        var parsed := codec.parse(storedUser.value);
        if parsed.Some? {
          var p := parsed.value;
          user := Some(User(p.id, storedToken.value, p.name, p.email));
        } else {
          storage := storage - {TOKEN_KEY};
          storage := storage - {USER_KEY};
        }
      }
      isLoading := false;
    }

    /**
     * `login`, given how the `loginUser` call came out. Success stores the
     * user and both entries; failure changes nothing and is rethrown.
     */
    method Login(outcome: Result<User, Api.ApiError>) returns (thrown: Option<Api.ApiError>)
      modifies this
      ensures outcome.Ok? ==> user == Some(outcome.value) && thrown == None
                              && storage == StorageAfterLogin(old(storage), codec, outcome.value)
      ensures outcome.Err? ==> user == old(user) && storage == old(storage) && thrown == Some(outcome.error)
      ensures isLoading == old(isLoading)
    {
      match outcome
      case Ok(userData) =>
        user := Some(userData);
        storage := storage[TOKEN_KEY := userData.token];
        storage := storage[USER_KEY := codec.stringify(Profile(userData.id, userData.name, userData.email))];
        thrown := None;
      case Err(e) =>
        thrown := Some(e);
    }

    /** `logout`: no user, and neither entry left in storage. */
    method Logout()
      modifies this
      ensures user == None && !IsAuthenticated()
      ensures storage == old(storage) - {TOKEN_KEY, USER_KEY}
      ensures isLoading == old(isLoading)
    {
      user := None;
      storage := storage - {TOKEN_KEY};
      storage := storage - {USER_KEY};
    }
  }

  /**
   * Round trip: the entries a successful login writes restore the same
   * user, with id, name, email and token, and the startup check leaves them in place.
   */
  lemma LoginThenRestore(storage: map<string, string>, codec: ProfileCodec, u: User)
    requires Faithful(codec) && u.token != []
    ensures RestoreFrom(StorageAfterLogin(storage, codec, u), codec) == Restored(u)
    ensures StorageAfterRestore(StorageAfterLogin(storage, codec, u), codec) == StorageAfterLogin(storage, codec, u)
  {
    var s := StorageAfterLogin(storage, codec, u);
    assert s[USER_KEY] == codec.stringify(ProfileOf(u));
    assert codec.parse(s[USER_KEY]) == Some(ProfileOf(u));
  }

  /** A login whose response carries an empty token is not restored after a restart. */
  lemma EmptyTokenNotRestored(storage: map<string, string>, codec: ProfileCodec, u: User)
    requires u.token == []
    ensures RestoreFrom(StorageAfterLogin(storage, codec, u), codec) == NothingStored
  {
  }

  /** Corrupted storage ends with both entries removed and no session restored. */
  lemma CorruptedStorageCleared(storage: map<string, string>, codec: ProfileCodec)
    requires RestoreFrom(storage, codec).Corrupted?
    ensures TOKEN_KEY !in StorageAfterRestore(storage, codec)
    ensures USER_KEY !in StorageAfterRestore(storage, codec)
    ensures RestoreFrom(StorageAfterRestore(storage, codec), codec) == NothingStored
  {
  }

  /**
   * A restart after a successful login, run through the store itself: a
   * fresh store over the written storage comes back authenticated as the
   * same user, with the loading flag down.
   */
  method RestartAfterLogin(storage: map<string, string>, codec: ProfileCodec, u: User)
    returns (restored: Option<User>, loading: bool)
    requires Faithful(codec) && u.token != []
    ensures restored == Some(u) && !loading
  {
    var first := new AuthStore(storage, codec);
    first.Rehydrate();
    var _ := first.Login(Ok(u));
    LoginThenRestore(first.storage, codec, u);
    var second := new AuthStore(first.storage, codec);
    second.Rehydrate();
    restored, loading := second.user, second.isLoading;
  }

  /**
   * The bearer header follows the session: after a successful login every
   * request carries the new token, after logout none carries one (unless a
   * caller passes its own `Authorization`).
   */
  lemma RequestsFollowSession(storage: map<string, string>, codec: ProfileCodec, u: User, call: Api.Call)
    requires u.token != [] && Api.AUTHORIZATION !in call.headers
    ensures var r := Api.BuildRequest(Lookup(StorageAfterLogin(storage, codec, u), TOKEN_KEY), call);
            Api.AUTHORIZATION in r.headers && r.headers[Api.AUTHORIZATION] == "Bearer " + u.token
    ensures Api.AUTHORIZATION !in Api.BuildRequest(Lookup(storage - {TOKEN_KEY, USER_KEY}, TOKEN_KEY), call).headers
  {
    Api.CredentialAttachment(Lookup(StorageAfterLogin(storage, codec, u), TOKEN_KEY), call);
    Api.CredentialAttachment(Lookup(storage - {TOKEN_KEY, USER_KEY}, TOKEN_KEY), call);
  }
}
