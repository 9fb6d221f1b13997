/** The session manager (`AuthProvider`, src/contexts/AuthContext.tsx): the signed-in user, its
    bearer token and a loading flag in memory, and two persisted entries in the browser's
    string-valued key-value storage. The server's answer to login and register is an input. */
module Session {
  import opened Wrappers
  import opened Records
  import Codec

  /** The storage key of the bearer token. */
  const TokenKey: string := "Usertoken"
  /** The storage key of the serialised user record. */
  const UserKey: string := "authUser"

  /** Serialises a user record for storage; what is written is never empty, and reading it
      back yields the record that was written. */
  function EncodeUser(u: User): (r: string)
    ensures r != ""
    ensures DecodeUser(r) == Some(u)
  {
    Codec.DecodeEncode([u.id, u.email, u.name, u.createdAt, u.token]);
    Codec.EncodeFields([u.id, u.email, u.name, u.createdAt, u.token])
  }

  /** Parses a serialised user record; None where `JSON.parse` would throw. */
  function DecodeUser(s: string): (r: Option<User>)
    ensures r.Some? <==> Codec.DecodeFields(s).Some? && |Codec.DecodeFields(s).value| == 5
    ensures r.Some? ==> Codec.DecodeFields(s).value == [r.value.id, r.value.email, r.value.name, r.value.createdAt, r.value.token]
  {
    match Codec.DecodeFields(s)
    case Some(fs) => if |fs| == 5 then Some(User(fs[0], fs[1], fs[2], fs[3], fs[4])) else None
    case None => None
  }

  /** `localStorage.getItem(key)` seen through JavaScript truthiness: a missing entry (null)
      and an empty string both read as "". */
  function Lookup(storage: map<string, string>, key: string): (r: string)
    ensures key !in storage ==> r == ""
    ensures key in storage ==> r == storage[key]
  {
    if key in storage then storage[key] else ""
  }

  /** What the restore effect finds: no session, a session, or a token beside a user entry
      that does not parse. */
  datatype Stored = NoSession | Found(token: string, user: User) | Unparsable(token: string)

  function ReadSession(storage: map<string, string>): (r: Stored)
    ensures r.NoSession? <==> Lookup(storage, TokenKey) == "" || Lookup(storage, UserKey) == ""
    ensures r.Found? ==>
      && TokenKey in storage && storage[TokenKey] == r.token && r.token != ""
      && UserKey in storage && DecodeUser(storage[UserKey]) == Some(r.user)
    ensures r.Unparsable? ==>
      && TokenKey in storage && storage[TokenKey] == r.token && r.token != ""
      && UserKey in storage && DecodeUser(storage[UserKey]) == None
  {
    var t := Lookup(storage, TokenKey);
    var u := Lookup(storage, UserKey);
    if t == "" || u == "" then NoSession
    else match DecodeUser(u)
      case Some(user) => Found(t, user)
      case None => Unparsable(t)
  }

  /** Storage after a successful login or register: both entries written, every other
      entry untouched. */
  function Persist(storage: map<string, string>, u: User): (r: map<string, string>)
    ensures TokenKey in r && r[TokenKey] == u.token
    ensures UserKey in r && r[UserKey] == EncodeUser(u)
    ensures forall key :: key != TokenKey && key != UserKey ==> (key in r <==> key in storage)
    ensures forall key :: key in storage && key != TokenKey && key != UserKey ==> r[key] == storage[key]
  {
    storage[TokenKey := u.token][UserKey := EncodeUser(u)]
  }

  /** Storage after logout: both entries removed, every other entry untouched. */
  function Forget(storage: map<string, string>): (r: map<string, string>)
    ensures TokenKey !in r && UserKey !in r
    ensures forall key :: key != TokenKey && key != UserKey ==> (key in r <==> key in storage)
    ensures forall key :: key in r ==> r[key] == storage[key]
  {
    storage - {TokenKey, UserKey}
  }

  /** A session persisted by login or register is the session restore finds. */
  lemma RestoreAfterPersist(storage: map<string, string>, u: User)
    requires u.token != ""
    ensures ReadSession(Persist(storage, u)) == Found(u.token, u)
  {
    assert TokenKey != UserKey;
  }

  /** After logout, restore finds no session. */
  lemma RestoreAfterForget(storage: map<string, string>)
    ensures ReadSession(Forget(storage)) == NoSession
  {
  }

  /** Logging out twice is logging out once. */
  lemma ForgetIdempotent(storage: map<string, string>)
    ensures Forget(Forget(storage)) == Forget(storage)
  {
  }

  /** Logging in and then out leaves storage as a logout alone would have left it. */
  lemma ForgetAfterPersist(storage: map<string, string>, u: User)
    ensures Forget(Persist(storage, u)) == Forget(storage)
  {
  }

  class SessionManager {
    var user: Option<User>
    var token: Option<string>
    var loading: bool
    var storage: map<string, string>

    /** The in-memory user and token are set and cleared together. */
    ghost predicate Paired()
      reads this
    {
      token.Some? <==> user.Some?
    }

    /** The provider as mounted: no session yet, and `loading` true until restore ends. */
    constructor (storage: map<string, string>)
      ensures user == None && token == None && loading && this.storage == storage
      ensures Paired()
    {
      user := None;
      token := None;
      loading := true;
      this.storage := storage;
    }

    /** The mount effect. A user entry that does not parse makes `JSON.parse` throw after
        `setToken` has run, so the effect stops before it clears `loading`. */
    method Restore()
      modifies this
      ensures storage == old(storage)
      ensures match ReadSession(old(storage))
        case NoSession => user == old(user) && token == old(token) && !loading
        case Found(t, u) => token == Some(t) && user == Some(u) && !loading
        case Unparsable(t) => token == Some(t) && user == old(user) && loading == old(loading)
      ensures !ReadSession(old(storage)).Unparsable? && old(Paired()) ==> Paired()
    {
      var stored := ReadSession(storage);
      match stored
      case NoSession =>
        loading := false;
      case Found(t, u) =>
        token := Some(t);
        user := Some(u);
        loading := false;
      case Unparsable(t) =>
        token := Some(t);
    }

    /** The shared body of login and register: commit the session when the response user
        carries a token. */
    method Authenticate(response: Option<User>) returns (ok: bool)
      modifies this
      ensures !loading
      ensures ok <==> response.Some? && response.value.token != ""
      ensures ok ==> user == response && token == Some(response.value.token)
                     && storage == Persist(old(storage), response.value)
      ensures !ok ==> user == old(user) && token == old(token) && storage == old(storage)
      ensures old(Paired()) || ok ==> Paired()
    {
      loading := true;
      if response.Some? && response.value.token != "" {
        var u := response.value;
        token := Some(u.token);
        user := Some(u);
        storage := storage[TokenKey := u.token];
        storage := storage[UserKey := EncodeUser(u)];
        ok := true;
      } else {
        ok := false;
      }
      loading := false;
    }

    /** `login`: `response` is the server's `result.user`, None for any other response shape
        and for a request that throws. */
    method Login(response: Option<User>) returns (ok: bool)
      modifies this
      ensures !loading
      ensures ok <==> response.Some? && response.value.token != ""
      ensures ok ==> user == response && token == Some(response.value.token)
                     && storage == Persist(old(storage), response.value)
      ensures !ok ==> user == old(user) && token == old(token) && storage == old(storage)
      ensures old(Paired()) || ok ==> Paired()
    {
      ok := Authenticate(response);
    }

    /** `register`: same contract as login; success signs the new user in at once. */
    method Register(response: Option<User>) returns (ok: bool)
      modifies this
      ensures !loading
      ensures ok <==> response.Some? && response.value.token != ""
      ensures ok ==> user == response && token == Some(response.value.token)
                     && storage == Persist(old(storage), response.value)
      ensures !ok ==> user == old(user) && token == old(token) && storage == old(storage)
      ensures old(Paired()) || ok ==> Paired()
    {
      ok := Authenticate(response);
    }

    method Logout()
      modifies this
      ensures user == None && token == None && loading == old(loading)
      ensures storage == Forget(old(storage))
      ensures Paired()
    {
      user := None;
      token := None;
      storage := storage - {TokenKey};
      storage := storage - {UserKey};
    }
  }

  /** A login followed by a restart of the application restores the same session. */
  method LoginThenRestart(storage: map<string, string>, response: User)
    returns (ok: bool, user: Option<User>, token: Option<string>)
    ensures ok <==> response.token != ""
    ensures ok ==> user == Some(response) && token == Some(response.token)
  {
    var m := new SessionManager(storage);
    ok := m.Login(Some(response));
    var m2 := new SessionManager(m.storage);
    if ok {
      RestoreAfterPersist(storage, response);
    }
    m2.Restore();
    user, token := m2.user, m2.token;
  }

  /** Logging out twice leaves the storage a single logout leaves, and a restart after
      logout finds no session. */
  method LogoutTwiceThenRestart(storage: map<string, string>)
    returns (once: map<string, string>, twice: map<string, string>, user: Option<User>, loading: bool)
    ensures once == Forget(storage) && twice == once
    ensures user == None && !loading
  {
    var m := new SessionManager(storage);
    m.Logout();
    once := m.storage;
    m.Logout();
    ForgetIdempotent(storage);
    twice := m.storage;
    var m2 := new SessionManager(m.storage);
    m2.Restore();
    user, loading := m2.user, m2.loading;
  }
}
