/**
 * `AuthProvider`: the session controller. It holds token, user, loading and
 * error, restores the token from the store once at start, logs in through
 * `loginAdmin` behind an admin-only role gate, and logs out.
 */
module Auth {
  import opened Wrappers
  import opened Ui
  import Api
  import Storage

  /** The `user` object of the login response; its own `role` is not what the gate reads. */
  datatype User = User(id: string, name: string, role: string)

  /**
   * `response.data.data` of a login. The gate reads `role` from this record,
   * beside `token` and `user`; a response without that field has no role.
   */
  datatype LoginData = LoginData(role: Option<string>, token: string, user: User)

  /**
   * How `loginAdmin` ended: a response, or a thrown error with the server's
   * `response.data.message` (when there was one) and the error's own `message`.
   */
  datatype LoginOutcome =
    | Responded(data: LoginData)
    | Threw(serverMessage: Option<string>, message: string)

  const AccessDenied := "Akses ditolak. Hanya untuk admin."

  /** What `login` makes of an outcome: a session to store, or the text to show in `error`. */
  datatype Verdict = Granted(token: string, user: User) | Denied(message: string)

  function Judge(outcome: LoginOutcome): (v: Verdict)
    ensures v.Granted? <==> outcome.Responded? && outcome.data.role == Some("admin")
    ensures v.Granted? ==> v.token == outcome.data.token && v.user == outcome.data.user
    ensures outcome.Responded? && v.Denied? ==> v.message == AccessDenied
    ensures outcome.Threw? && Truthy(outcome.serverMessage) ==> v == Denied(outcome.serverMessage.value)
    ensures outcome.Threw? && !Truthy(outcome.serverMessage) ==> v == Denied(outcome.message)
  {
    match outcome
    case Responded(data) =>
      if data.role != Some("admin") then Denied(AccessDenied) else Granted(data.token, data.user)
    case Threw(serverMessage, message) =>
      Denied(if Truthy(serverMessage) then serverMessage.value else message)
  }

  /** The gate looks at the envelope's role: an admin `user` under a record without `role` is refused. */
  lemma RoleReadFromEnvelope(token: string, id: string, name: string)
    ensures Judge(Responded(LoginData(None, token, User(id, name, "admin")))).Denied?
    ensures Judge(Responded(LoginData(Some("admin"), token, User(id, name, "farmer")))).Granted?
  {
  }

  class AuthProvider {
    const storage: Storage.LocalStorage
    var token: Option<string>
    var user: Option<User>
    var loading: bool
    var error: Option<string>

    /** The in-memory token is the stored `"adminToken"` value (absence is `null`). */
    ghost predicate Synced()
      reads this, storage
    {
      token == storage.GetItem(Storage.AdminTokenKey)
    }

    /** Mounting the provider: the token is read from the store once; no user, idle, no error. */
    constructor (storage: Storage.LocalStorage)
      ensures this.storage == storage
      ensures token == storage.GetItem(Storage.AdminTokenKey)
      ensures user == None && !loading && error == None
      ensures Synced()
    {
      this.storage := storage;
      token := storage.GetItem(Storage.AdminTokenKey);
      user := None;
      loading := false;
      error := None;
    }

    /** `login` up to its await: `loading` on, `error` cleared, the login request issued. */
    method BeginLogin(email: string, password: string) returns (req: Api.Request)
      modifies this`loading, this`error
      ensures loading && error == None
      ensures req == Api.LoginAdmin(email, password)
    {
      loading := true;
      error := None;
      req := Api.LoginAdmin(email, password);
    }

    /**
     * `login` after its await. An admin response stores token and user in
     * memory and the same token under `"adminToken"`; anything else leaves
     * token, user and store alone and sets `error`. `loading` ends false.
     */
    method CompleteLogin(outcome: LoginOutcome) returns (success: bool)
      modifies this`token, this`user, this`loading, this`error, storage
      ensures !loading
      ensures success <==> Judge(outcome).Granted?
      ensures success ==>
        && token == Some(outcome.data.token) && user == Some(outcome.data.user)
        && storage.items == old(storage.items)[Storage.AdminTokenKey := outcome.data.token]
        && error == old(error)
        && Synced()
      ensures !success ==>
        && token == old(token) && user == old(user)
        && storage.items == old(storage.items)
        && error == Some(Judge(outcome).message)
        && (old(Synced()) ==> Synced())
    {
      var verdict := Judge(outcome);
      match verdict {
        case Granted(t, u) =>
          token := Some(t);
          user := Some(u);
          storage.SetItem(Storage.AdminTokenKey, t);
          success := true;
        case Denied(message) =>
          error := Some(message);
          success := false;
      }
      loading := false;
    }

    /** The whole of `login`, with the network's answer supplied as `outcome`. */
    method Login(email: string, password: string, outcome: LoginOutcome) returns (req: Api.Request, success: bool)
      requires Synced()
      modifies this`token, this`user, this`loading, this`error, storage
      ensures req == Api.LoginAdmin(email, password)
      ensures !loading && Synced()
      ensures success <==> Judge(outcome).Granted?
      ensures success ==>
        && token == Some(outcome.data.token) && user == Some(outcome.data.user) && error == None
        && storage.items == old(storage.items)[Storage.AdminTokenKey := outcome.data.token]
      ensures !success ==>
        && token == old(token) && user == old(user) && storage.items == old(storage.items)
        && error == Some(Judge(outcome).message)
    {
      req := BeginLogin(email, password);
      success := CompleteLogin(outcome);
    }

    /** `logout`: no token, no user, no stored `"adminToken"`; no network call. */
    method Logout()
      modifies this`token, this`user, storage
      ensures token == None && user == None
      ensures storage.items == old(storage.items) - {Storage.AdminTokenKey}
      ensures Synced()
    {
      token := None;
      user := None;
      storage.RemoveItem(Storage.AdminTokenKey);
    }
  }

  /** After a logout, the interceptor sends any request on without an `Authorization` header of its own. */
  method LogoutDropsHeader(auth: AuthProvider, config: Api.Request) returns (sent: Api.Request)
    modifies auth`token, auth`user, auth.storage
    ensures auth.token == None && !Truthy(auth.storage.GetItem(Storage.AdminTokenKey))
    ensures sent == config
  {
    auth.Logout();
    sent := Api.Intercept(auth.storage, config);
  }

  /** Logging out twice leaves exactly the state one logout leaves. */
  method LogoutTwice(auth: AuthProvider)
    modifies auth, auth.storage
    ensures auth.token == None && auth.user == None
    ensures auth.storage.items == old(auth.storage.items) - {Storage.AdminTokenKey}
    ensures auth.loading == old(auth.loading) && auth.error == old(auth.error)
  {
    auth.Logout();
    ghost var once := auth.storage.items;
    auth.Logout();
    assert auth.storage.items == once;
  }
}
