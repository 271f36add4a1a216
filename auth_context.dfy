/** The session provider: an in-memory token and a loading flag, mirrored
    into the browser's `token` slot, with the mount step, `login`,
    `register`, `logout` and `isAuthenticated`. */
module AuthContext {
  import opened JsValues
  import opened Browser
  import opened Api

  /** The `/auth/login` payload; only its `token` field is read. */
  datatype LoginData = LoginData(token: Field)

  /** Everything the provider's transitions read or write: the two state
      cells and the storage slot. The token cell starts as `null` and takes
      whatever the login payload's `token` field holds. */
  datatype Session = Session(token: Field, loading: bool, slot: Option<string>)

  /** The provider as first rendered over a storage slot. */
  function Initial(slot: Option<string>): Session
  {
    Session(Null, true, slot)
  }

  /** The mount effect: adopt the stored token only when it is truthy, then
      stop loading. */
  function AfterMount(s: Session): (r: Session)
    ensures !r.loading && r.slot == s.slot
    ensures Truthy(s.slot) ==> r.token == Str(s.slot.value)
    ensures Authenticated(r) <==> Truthy(s.slot) || Authenticated(s)
  {
    Session(if Truthy(s.slot) then Str(s.slot.value) else s.token, false, s.slot)
  }

  /** A login whose API call succeeded: the slot receives `String(data.token)`
      and the state cell `data.token` itself. */
  function AfterLogin(s: Session, data: LoginData): (r: Session)
    ensures r.token == data.token && r.loading == s.loading
    ensures r.slot == Some(StoredText(data.token))
    ensures Authenticated(r) <==> TruthyField(data.token)
    ensures Truthy(r.slot) <==> data.token != Str("")
  {
    Session(data.token, s.loading, Some(StoredText(data.token)))
  }

  /** `logout`: the slot is emptied and the token cell reset to `null`. */
  function AfterLogout(s: Session): (r: Session)
    ensures !Authenticated(r) && r.token == Null && r.slot == None && r.loading == s.loading
  {
    Session(Null, s.loading, None)
  }

  /** `!!token` */
  predicate Authenticated(s: Session)
  {
    TruthyField(s.token)
  }

  /** A fresh provider starts logged out and loading, whatever is stored. */
  lemma InitialIsLoggedOut(slot: Option<string>)
    ensures !Authenticated(Initial(slot)) && Initial(slot).loading
    ensures Initial(slot).token == Null
  {
  }

  /** After mounting, the session is authenticated exactly when the slot
      holds a non-empty token, and then with that token; loading is over. */
  lemma MountAdoptsOnlyTruthy(slot: Option<string>)
    ensures Authenticated(AfterMount(Initial(slot))) <==> Truthy(slot)
    ensures Truthy(slot) ==> AfterMount(Initial(slot)).token == Str(slot.value)
    ensures !Truthy(slot) ==> AfterMount(Initial(slot)).token == Null
    ensures !AfterMount(Initial(slot)).loading
  {
  }

  /** Logging out twice leaves the same state as logging out once: logged
      out, with the slot empty. */
  lemma LogoutIdempotent(s: Session)
    ensures AfterLogout(AfterLogout(s)) == AfterLogout(s)
    ensures !Authenticated(AfterLogout(s)) && AfterLogout(s).slot == None
  {
  }

  /** A login with a non-empty token survives a reload: a new provider
      mounted over the same slot holds the same token. */
  lemma LoginSurvivesReload(s: Session, data: LoginData)
    requires TruthyField(data.token)
    ensures AfterMount(Initial(AfterLogin(s, data).slot)).token == AfterLogin(s, data).token
    ensures Authenticated(AfterLogin(s, data))
  {
  }

  /** A login payload whose token is absent or `null` leaves the session
      logged out, but the slot then holds the text "undefined" or "null", so
      a reload comes back logged in with that text as the credential. */
  lemma MissingTokenAuthenticatesAfterReload(s: Session, t: Field)
    requires !t.Str?
    ensures !Authenticated(AfterLogin(s, LoginData(t)))
    ensures t.Undefined? ==> AfterMount(Initial(AfterLogin(s, LoginData(t)).slot)).token == Str("undefined")
    ensures t.Null? ==> AfterMount(Initial(AfterLogin(s, LoginData(t)).slot)).token == Str("null")
    ensures Authenticated(AfterMount(Initial(AfterLogin(s, LoginData(t)).slot)))
  {
  }

  /** An empty token is accepted and stored, yet counts as logged out, both
      now and after a reload. */
  lemma EmptyTokenIsLoggedOut(s: Session)
    ensures AfterLogin(s, LoginData(Str(""))).slot == Some("")
    ensures !Authenticated(AfterLogin(s, LoginData(Str(""))))
    ensures !Authenticated(AfterMount(Initial(AfterLogin(s, LoginData(Str(""))).slot)))
  {
  }

  /** The provider component. Its storage slot is the one the API client's
      interceptor reads. */
  class AuthProvider {
    var token: Field
    var loading: bool
    const api: ApiClient

    constructor (api: ApiClient)
      ensures this.api == api
      ensures State() == Initial(api.store.slot)
    {
      this.api := api;
      token := Null;
      loading := true;
    }

    function State(): Session
      reads this, api.store
    {
      Session(token, loading, api.store.slot)
    }

    /** `isAuthenticated()` */
    function IsAuthenticated(): (b: bool)
      reads this, api.store
      ensures b <==> Authenticated(State())
    {
      TruthyField(token)
    }

    /** The mount effect. */
    method Mount()
      modifies this
      ensures State() == AfterMount(old(State()))
    {
      var stored := api.store.GetItem();
      if Truthy(stored) {
        token := Str(stored.value);
      }
      loading := false;
    }

    /** `login`: the API call first; storage and state are written only
        when it succeeds, and the payload is handed back unchanged. */
    method Login(email: string, password: string, reply: Reply<LoginData>) returns (r: Reply<LoginData>)
      modifies this, api, api.store
      ensures r == reply
      ensures api.sent == old(api.sent) + [Outgoing(LoginUser(email, password), old(api.store.slot))]
      ensures reply.Ok? ==> State() == AfterLogin(old(State()), reply.data)
      ensures reply.Fail? ==> State() == old(State())
    {
      r := api.Send(LoginUser(email, password), reply);
      if r.Ok? {
        api.store.SetItem(StoredText(r.data.token));
        token := r.data.token;
      }
    }

    /** `register`: the API call only; the session is never touched. */
    method Register<D>(name: string, email: string, password: string, reply: Reply<D>) returns (r: Reply<D>)
      modifies api
      ensures r == reply
      ensures api.sent == old(api.sent) + [Outgoing(RegisterUser(name, email, password), api.store.slot)]
      ensures State() == old(State())
    {
      r := api.Send(RegisterUser(name, email, password), reply);
    }

    /** `logout` */
    method Logout()
      modifies this, api.store
      ensures State() == AfterLogout(old(State()))
    {
      api.store.RemoveItem();
      token := Null;
    }
  }

  /** After a login whose payload carries the non-empty token `t`, the next
      request the client sends carries `Authorization: Bearer t`. */
  method LoginThenRequestCarriesBearer(t: string) returns (authorization: Option<string>)
    requires t != ""
    ensures authorization == Some("Bearer " + t)
  {
    var store := new CredentialStore(None);
    var api := new ApiClient(store);
    var session := new AuthProvider(api);
    session.Mount();
    var data := session.Login("user@example.com", "secret1", Ok(LoginData(Str(t))));
    var me := api.Send<LoginData>(GetCurrentUser, Fail(None));
    var last := api.sent[|api.sent| - 1];
    BearerIffToken(GetCurrentUser, store.slot);
    authorization := if "Authorization" in last.headers then Some(last.headers["Authorization"]) else None;
  }

  /** Logging out once or twice from the same starting point leaves the
      same token and the same slot. */
  method LogoutTwiceIsLogoutOnce(stored: Option<string>) returns (once: Session, twice: Session)
    ensures once == twice
    ensures once.token == Null && once.slot == None
  {
    var store1 := new CredentialStore(stored);
    var api1 := new ApiClient(store1);
    var session1 := new AuthProvider(api1);
    session1.Mount();
    session1.Logout();
    once := session1.State();

    var store2 := new CredentialStore(stored);
    var api2 := new ApiClient(store2);
    var session2 := new AuthProvider(api2);
    session2.Mount();
    session2.Logout();
    session2.Logout();
    twice := session2.State();
  }

  /** A failed login leaves an existing session exactly as it was. */
  method FailedLoginKeepsSession(stored: Option<string>, message: Option<string>) returns (before: Session, after: Session)
    ensures before == after
    ensures Authenticated(after) <==> Truthy(stored)
  {
    var store := new CredentialStore(stored);
    var api := new ApiClient(store);
    var session := new AuthProvider(api);
    session.Mount();
    before := session.State();
    var r := session.Login("user@example.com", "wrong-password", Fail(message));
    after := session.State();
  }
}
