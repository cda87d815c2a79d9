/** `AuthService`: the current user (the value its `BehaviorSubject`
    replays), persisted in local storage under the key `currentUser`.
    `JSON.stringify` and `JSON.parse` are an opaque pair of functions, a
    `Codec`; a parse that throws is `Malformed`. */
module Auth {
  import opened Models
  import opened Effects

  /** The local-storage key holding the serialised user. */
  const StorageKey: string := "currentUser"

  const LoginUrl: string := "http://localhost:3000/auth/login"

  /** The success toast ("Login successful!"). */
  const LoginSucceeded: string := "Đăng nhập thành công!"

  /** The error toast used when the server gives no message ("An error
      occurred, please try again!"). */
  const LoginFallback: string := "Có lôi xảy ra xin vui lòng thử lại!"

  /** What `JSON.parse` yields: a user or `null`, or an exception. */
  datatype Parsed = Parsed(user: Option<User>) | Malformed

  datatype Codec = Codec(stringify: Option<User> -> string, parse: string -> Parsed)

  /** What `JSON.stringify`/`JSON.parse` guarantee of each other on user
      records and `null`: parsing a serialisation gives the value back, and
      a serialisation is never the empty string. */
  ghost predicate Lawful(codec: Codec) {
    forall v :: codec.parse(codec.stringify(v)) == Parsed(v) && codec.stringify(v) != ""
  }

  /** The constructor's restore: a non-empty stored value that parses
      becomes the current user; a missing or empty value, or one that does
      not parse, leaves it `null`. */
  function Restored(items: map<string, string>, codec: Codec): Option<User> {
    if StorageKey in items && items[StorageKey] != "" then
      match codec.parse(items[StorageKey])
      case Parsed(v) => v
      case Malformed => None
    else None
  }

  /** The server's message `error.error.meta.message`, if every level is
      present. */
  function ServerMessage(e: HttpError): Option<string> {
    if e.body.Some? && e.body.value.meta.Some? then e.body.value.meta.value.message else None
  }

  /** The error toast after a failed login: the server's message when it is
      present and non-empty, the fixed fallback otherwise. The toast is
      never empty. */
  function LoginErrorMessage(e: HttpError): (m: string)
    ensures m != ""
    ensures ServerMessage(e).Some? && ServerMessage(e).value != "" ==> m == ServerMessage(e).value
    ensures ServerMessage(e).None? || ServerMessage(e).value == "" ==> m == LoginFallback
  {
    var message := ServerMessage(e);
    if message.Some? && message.value != "" then message.value else LoginFallback
  }

  /** What a reload finds after a successful login: the stored user is
      restored exactly, whatever else the store holds. */
  lemma RestoreAfterLogin(items: map<string, string>, data: Option<User>, codec: Codec)
    requires Lawful(codec)
    ensures Restored(items[StorageKey := codec.stringify(data)], codec) == data
  {
    var stored := items[StorageKey := codec.stringify(data)];
    assert codec.parse(codec.stringify(data)) == Parsed(data) && codec.stringify(data) != "";
    assert stored[StorageKey] == codec.stringify(data);
  }

  /** What a reload finds after a logout: no user. */
  lemma RestoreAfterLogout(items: map<string, string>, codec: Codec)
    ensures Restored(items - {StorageKey}, codec) == None
  {
  }

  /** A store whose entry is missing, empty or unparsable restores no user:
      the failure is swallowed, never propagated. */
  lemma RestoreFailuresGiveNoUser(items: map<string, string>, codec: Codec)
    requires StorageKey !in items || items[StorageKey] == "" || codec.parse(items[StorageKey]).Malformed?
    ensures Restored(items, codec) == None
  {
  }

  class AuthService {
    var currentUser: Option<User>
    const storage: LocalStorage
    const toastr: Toastr
    const router: Router
    const codec: Codec

    /** The constructor: the subject starts at `null`, then the stored
        session, if any, is restored. */
    constructor (storage: LocalStorage, toastr: Toastr, router: Router, codec: Codec)
      ensures currentUser == Restored(storage.items, codec)
      ensures this.storage == storage && this.toastr == toastr && this.router == router && this.codec == codec
    {
      this.storage := storage;
      this.toastr := toastr;
      this.router := router;
      this.codec := codec;
      currentUser := None;
      new;
      var stored := storage.GetItem(StorageKey);
      if stored.Some? && stored.value != "" {
        match codec.parse(stored.value)
        case Parsed(v) =>
          currentUser := v;
        case Malformed =>
      }
    }

    /** `login(credentials)`: a POST of the credentials; its result passes
        through to the caller. On success the user is published, a success
        toast shown, the user stored and the home page requested; on failure
        only an error toast is shown. */
    method Login(credentials: Credentials, outcome: HttpResult<Option<User>>)
      returns (request: Request<Credentials>, result: HttpResult<Option<User>>)
      modifies this, storage, toastr, router
      ensures request == Request(Post, LoginUrl, Some(credentials)) && result == outcome
      ensures outcome.Ok? ==> currentUser == outcome.body
      ensures outcome.Ok? ==> storage.items == old(storage.items)[StorageKey := codec.stringify(outcome.body)]
      ensures outcome.Ok? ==> toastr.shown == old(toastr.shown) + [Toast(Success, LoginSucceeded, "Success")]
      ensures outcome.Ok? ==> router.navigations == old(router.navigations) + [""]
      ensures outcome.Failed? ==> currentUser == old(currentUser) && storage.items == old(storage.items)
      ensures outcome.Failed? ==> router.navigations == old(router.navigations)
      ensures outcome.Failed? ==> toastr.shown == old(toastr.shown) + [Toast(Error, LoginErrorMessage(outcome.error), "Error")]
    {
      request := Request(Post, LoginUrl, Some(credentials));
      result := outcome;
      match outcome
      case Ok(data) =>
        currentUser := data;
        toastr.Success(LoginSucceeded, "Success");
        storage.SetItem(StorageKey, codec.stringify(data));
        router.Navigate("");
      case Failed(error) =>
        toastr.Error(LoginErrorMessage(error), "Error");
    }

    /** `logout()`: no user, no stored session (other keys are kept), and
        the login page requested. */
    method Logout()
      modifies this, storage, router
      ensures currentUser == None
      ensures storage.items == old(storage.items) - {StorageKey}
      ensures router.navigations == old(router.navigations) + ["auth/login"]
    {
      currentUser := None;
      storage.RemoveItem(StorageKey);
      router.Navigate("auth/login");
    }
  }

  /** Logging out twice leaves the session and the store as one logout
      does; only the navigation is requested again. */
  method LogoutTwice(auth: AuthService)
    modifies auth, auth.storage, auth.router
    ensures auth.currentUser == None
    ensures auth.storage.items == old(auth.storage.items) - {StorageKey}
    ensures auth.router.navigations == old(auth.router.navigations) + ["auth/login", "auth/login"]
  {
    auth.Logout();
    ghost var once := auth.storage.items;
    auth.Logout();
    assert auth.storage.items == once;
  }

  /** A successful login survives a reload: a service constructed afresh on
      the same storage restores the logged-in user. */
  method LoginThenReload(auth: AuthService, credentials: Credentials, data: Option<User>)
    returns (reloaded: AuthService)
    requires Lawful(auth.codec)
    modifies auth, auth.storage, auth.toastr, auth.router
    ensures fresh(reloaded)
    ensures reloaded.currentUser == data && auth.currentUser == data
  {
    var _, _ := auth.Login(credentials, Ok(data));
    reloaded := new AuthService(auth.storage, auth.toastr, auth.router, auth.codec);
    RestoreAfterLogin(old(auth.storage.items), data, auth.codec);
  }
}
