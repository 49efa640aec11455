/**
 * The session store (src/context/AuthContext.jsx): the signed-in `user`, a `loading`
 * flag, the last `error`, and the browser's key-value storage whose `'user'` slot
 * caches the signed-in user. Backend calls are oracle answers (`Api.Reply`);
 * `JSON.stringify`/`JSON.parse` are a `Codec` the store is created with.
 */
module AuthStore {
  import opened Wrappers
  import opened Api

  /** A user object, as far as the portal reads it. */
  datatype User = User(fullName: Option<string>, email: Option<string>, gender: Option<string>)

  /** The body of a successful login. */
  datatype LoginResponse = LoginResponse(user: User)

  /**
   * `JSON.stringify` for users and `JSON.parse` back: `None` when `JSON.parse` throws,
   * `Some(None)` when it yields `null`, `Some(Some(u))` when it yields the user `u`.
   */
  datatype Codec = Codec(stringify: User -> string, parse: string -> Option<Option<User>>)

  /** Parsing what was stringified gives the user back. */
  ghost predicate RoundTrips(codec: Codec)
  {
    forall u :: codec.parse(codec.stringify(u)) == Some(Some(u))
  }

  const UserKey: string := "user"

  /** `localStorage.getItem('user')` is truthy: present and not the empty string. */
  predicate HasCachedUser(storage: map<string, string>)
  {
    UserKey in storage && storage[UserKey] != ""
  }

  /** Everything the store holds: its three state fields and the storage. */
  datatype Session = Session(
    user: Option<User>,
    loading: bool,
    error: Option<Message>,
    storage: map<string, string>)

  /** `isAuthenticated: !!user`. */
  predicate IsAuthenticated(s: Session)
  {
    s.user.Some?
  }

  /** The store as it is mounted, before `checkAuth` has run. */
  function Initial(storage: map<string, string>): (s: Session)
    ensures !IsAuthenticated(s) && s.loading && s.error == None
    ensures s.storage == storage
  {
    Session(None, true, None, storage)
  }

  /**
   * `err.response?.data?.message || err.message || fallback`: the response's message
   * wins when it is truthy, then the error's own message, then the fallback.
   */
  function ErrorMessage(e: ApiError, fallback: string): (m: Message)
    ensures fallback != "" ==> Truthy(m)
    ensures ResponseMessage(e).Some? ==> m == ResponseMessage(e).value
    ensures ResponseMessage(e).None? && e.message != "" ==> m == MessageText(e.message)
    ensures ResponseMessage(e).None? && e.message == "" ==> m == MessageText(fallback)
  {
    match ResponseMessage(e)
    case Some(m) => m
    case None => if e.message != "" then MessageText(e.message) else MessageText(fallback)
  }

  /**
   * The session after `checkAuth(profile)`. A cached value on which `JSON.parse`
   * throws is dropped; otherwise (a cached `null` included) the profile answer decides: a resolved profile signs in and
   * is cached, a rejected one signs out and drops any cached value.
   */
  function AfterCheckAuth(s: Session, codec: Codec, profile: Reply<User>): (r: Session)
    ensures !r.loading && r.error == s.error
    ensures IsAuthenticated(r) ==>
      (profile.Resolved? && r.user == Some(profile.value)
       && r.storage == s.storage[UserKey := codec.stringify(profile.value)])
    ensures !IsAuthenticated(r) ==>
      r.storage == if HasCachedUser(s.storage) then s.storage - {UserKey} else s.storage
    ensures profile.Rejected? ==> !IsAuthenticated(r)
    ensures HasCachedUser(s.storage) && codec.parse(s.storage[UserKey]).None? ==>
      !IsAuthenticated(r) && r.storage == s.storage - {UserKey}
    ensures profile.Resolved? && (!HasCachedUser(s.storage) || codec.parse(s.storage[UserKey]).Some?) ==>
      r.user == Some(profile.value) && r.storage == s.storage[UserKey := codec.stringify(profile.value)]
  {
    var done := s.(loading := false);
    if HasCachedUser(s.storage) then
      match codec.parse(s.storage[UserKey])
      case None => done.(user := None, storage := s.storage - {UserKey})
      case Some(_) =>
        match profile
        case Resolved(p) => done.(user := Some(p), storage := s.storage[UserKey := codec.stringify(p)])
        case Rejected(_) => done.(user := None, storage := s.storage - {UserKey})
    else
      match profile
      case Resolved(p) => done.(user := Some(p), storage := s.storage[UserKey := codec.stringify(p)])
      case Rejected(_) => done.(user := None)
  }

  /** The session after `register(userData)`: only `error` can change. */
  function AfterRegister(s: Session, reply: Reply<User>): (r: Session)
    ensures r.user == s.user && r.storage == s.storage && r.loading == s.loading
    ensures reply.Resolved? <==> r.error == None
    ensures reply.Rejected? ==> r.error == Some(ErrorMessage(reply.error, "Registration failed"))
  {
    match reply
    case Resolved(_) => s.(error := None)
    case Rejected(e) => s.(error := Some(ErrorMessage(e, "Registration failed")))
  }

  /**
   * The session after `login(email, password)`: on success the response's user is
   * signed in and cached; on failure only `error` changes.
   */
  function AfterLogin(s: Session, codec: Codec, reply: Reply<LoginResponse>): (r: Session)
    ensures r.loading == s.loading
    ensures reply.Resolved? ==>
      (r.user == Some(reply.value.user) && r.error == None
       && r.storage == s.storage[UserKey := codec.stringify(reply.value.user)])
    ensures reply.Rejected? ==>
      (r.user == s.user && r.storage == s.storage
       && r.error == Some(ErrorMessage(reply.error, "Login failed")))
  {
    match reply
    case Resolved(response) =>
      s.(error := None, user := Some(response.user),
         storage := s.storage[UserKey := codec.stringify(response.user)])
    case Rejected(e) => s.(error := Some(ErrorMessage(e, "Login failed")))
  }

  /** The session after `logout()`: signed out and uncached whatever the backend answers. */
  function AfterLogout(s: Session, reply: Reply<()>): (r: Session)
    ensures !IsAuthenticated(r) && UserKey !in r.storage
    ensures r.storage == s.storage - {UserKey}
    ensures r.error == s.error && r.loading == s.loading
  {
    match reply
    case Resolved(_) => s.(user := None, storage := s.storage - {UserKey})
    case Rejected(_) => s.(user := None, storage := s.storage - {UserKey})
  }

  /** After a successful login, what is cached reads back as the signed-in user. */
  lemma LoginCachesUser(s: Session, codec: Codec, response: LoginResponse)
    requires RoundTrips(codec)
    ensures var r := AfterLogin(s, codec, Resolved(response));
      HasCachedUser(r.storage) ==> codec.parse(r.storage[UserKey]) == Some(r.user)
    ensures var r := AfterLogin(s, codec, Resolved(response));
      UserKey in r.storage && codec.parse(r.storage[UserKey]) == Some(Some(response.user))
  {
  }

  /**
   * A successful login followed by a `checkAuth` whose profile call succeeds signs
   * in the profile's user: the cached value parses, so the profile is consulted.
   */
  lemma LoginThenCheckAuth(s: Session, codec: Codec, response: LoginResponse, profile: User)
    requires RoundTrips(codec)
    requires codec.stringify(response.user) != ""
    ensures AfterCheckAuth(AfterLogin(s, codec, Resolved(response)), codec, Resolved(profile)).user == Some(profile)
  {
  }

  /**
   * With this repository's backend, where every call rejects: `checkAuth` always ends
   * signed out and done loading, `login` never signs in and reports the backend's
   * message, and `register` always reports it too.
   */
  lemma DisabledBackendNeverSignsIn(s: Session, codec: Codec)
    ensures var r := AfterCheckAuth(s, codec, DisabledReply());
      !IsAuthenticated(r) && !r.loading && !HasCachedUser(r.storage)
    ensures var r := AfterLogin(s, codec, DisabledReply());
      r.user == s.user && r.error == Some(MessageText(DisabledMessage))
    ensures AfterRegister(s, DisabledReply()).error == Some(MessageText(DisabledMessage))
  {
  }

  /** The `AuthProvider` component's state and handlers. */
  class AuthProvider {
    var user: Option<User>
    var loading: bool
    var error: Option<Message>
    /** The browser's `localStorage`. */
    var storage: map<string, string>
    const codec: Codec

    function State(): Session
      reads this
    {
      Session(user, loading, error, storage)
    }

    /** `user = null`, `loading = true`, `error = null`; storage as the browser has it. */
    constructor (codec: Codec, storage: map<string, string>)
      ensures State() == Initial(storage)
      ensures this.codec == codec
    {
      this.codec := codec;
      this.storage := storage;
      user := None;
      loading := true;
      error := None;
    }

    /** `checkAuth()`, `profile` being the answer of `authAPI.getProfile()` if it is called. */
    method CheckAuth(profile: Reply<User>)
      modifies this
      ensures State() == AfterCheckAuth(old(State()), codec, profile)
    {
      var cached := if UserKey in storage then storage[UserKey] else "";
      if cached != "" {
        var parsed := codec.parse(cached);
        if parsed.Some? {
          user := parsed.value;
          match profile {
            case Resolved(p) =>
              user := Some(p);
              storage := storage[UserKey := codec.stringify(p)];
            case Rejected(_) =>
              user := None;
              storage := storage - {UserKey};
          }
        } else {
          storage := storage - {UserKey};
          user := None;
        }
      } else {
        match profile {
          case Resolved(p) =>
            user := Some(p);
            storage := storage[UserKey := codec.stringify(p)];
          case Rejected(_) =>
            user := None;
        }
      }
      loading := false;
    }

    /** `register(userData)`: the backend's answer is returned, or its error rethrown. */
    method Register(reply: Reply<User>) returns (outcome: Reply<User>)
      modifies this
      ensures State() == AfterRegister(old(State()), reply)
      ensures outcome == reply
    {
      error := None;
      match reply {
        case Resolved(_) =>
        case Rejected(e) =>
          error := Some(ErrorMessage(e, "Registration failed"));
      }
      outcome := reply;
    }

    /** `login(email, password)`: the backend's answer is returned, or its error rethrown. */
    method Login(reply: Reply<LoginResponse>) returns (outcome: Reply<LoginResponse>)
      modifies this
      ensures State() == AfterLogin(old(State()), codec, reply)
      ensures outcome == reply
    {
      error := None;
      match reply {
        case Resolved(response) =>
          user := Some(response.user);
          storage := storage[UserKey := codec.stringify(response.user)];
        case Rejected(e) =>
          error := Some(ErrorMessage(e, "Login failed"));
      }
      outcome := reply;
    }

    /** `logout()`: the backend's failure is swallowed. */
    method Logout(reply: Reply<()>)
      modifies this
      ensures State() == AfterLogout(old(State()), reply)
    {
      match reply {
        case Resolved(_) =>
          user := None;
          storage := storage - {UserKey};
        case Rejected(_) =>
          user := None;
          storage := storage - {UserKey};
      }
    }
  }
}
