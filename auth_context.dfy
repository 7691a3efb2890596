/**
  * The admin session store: the signed-in flag, the start-up flag, the email
  * and the bearer token, and the two-key persistent store (`localStorage`,
  * modelled as a map). Logging in, logging out, validating a token and the
  * start-up revalidation of a remembered session.
  */
module AuthContext {
  import opened Wrappers
  import opened Text
  import opened Http
  import PostsApi

  const TokenKey := "posts_manager_auth_token"
  const EmailKey := "posts_manager_email"

  /**
    * The body of `POST /admin/login`: `error.message` ("" when absent) and `data.token`.
    * `token == None` stands only for a missing `data`, where reading the token throws;
    * a present `data` without a token is not modelled.
    */
  datatype LoginBody = LoginBody(errorMessage: string, token: Option<string>)

  function AdminLoginRequest(email: string, password: string): Request {
    Request(POST, "/admin/login", [], [JsonContentType, AcceptJson],
            Some(JObj([("email", JStr(email)), ("password", JStr(password))])))
  }

  /**
    * `adminLogin`: the token of a 2xx reply; a failed reply throws the backend's
    * message, else `Admin login failed: <status>`.
    */
  function AdminLogin(reply: Reply<LoginBody>): (r: Result<string>)
    ensures r.Ok? <==> IsOk(reply) && reply.body.token.Some?
    ensures r.Ok? ==> r.value == reply.body.token.value
    ensures reply.Response? && !IsOk(reply) && reply.body.errorMessage != "" ==> r == Err(Error(reply.body.errorMessage))
    ensures reply.Response? && !IsOk(reply) && reply.body.errorMessage == "" ==> r == Err(Error("Admin login failed: " + IntToString(reply.status)))
    ensures reply.Thrown? ==> r == Err(reply.error)
  {
    match reply
    case Thrown(e) => Err(e)
    case Response(status, body) =>
      if !IsOk(reply) then Err(PostsApi.StatusError(status, body.errorMessage, "Admin login failed: "))
      // reading `data.data.token` when `data.data` is missing throws a TypeError with this message
      else if body.token.None? then Err(Error("Cannot read properties of undefined (reading 'token')"))
      else Ok(body.token.value)
  }

  /** The cheap authenticated read that checks a token. */
  function ValidationRequest(token: string): Request {
    Request(GET, PostsApi.PostsPath, [("pagination[page]", "1"), ("pagination[pageSize]", "1")], PostsApi.AuthHeaders(token), None)
  }

  /** `validateToken`: false for an empty token without a request; otherwise `response.ok`, and false on an exception. */
  function ValidateToken(token: string, reply: Reply<()>): (r: Traced<bool>)
    ensures token == "" ==> r == Traced(false, [])
    ensures token != "" ==> r.sent == [ValidationRequest(token)] && (r.value <==> IsOk(reply))
  {
    if token == "" then Traced(false, [])
    else Traced(IsOk(reply), [ValidationRequest(token)])
  }

  /** The remembered token and email, when both are stored and non-empty. */
  function Saved(storage: map<string, string>): (saved: Option<(string, string)>)
    ensures saved.Some? <==> TokenKey in storage && EmailKey in storage && storage[TokenKey] != "" && storage[EmailKey] != ""
    ensures saved.Some? ==> saved.value == (storage[TokenKey], storage[EmailKey])
  {
    if TokenKey in storage && EmailKey in storage && storage[TokenKey] != "" && storage[EmailKey] != ""
    then Some((storage[TokenKey], storage[EmailKey]))
    else None
  }

  class AuthProvider {
    var isAuthenticated: bool
    var isInitializing: bool
    var email: string
    var authToken: string
    /** `localStorage`. */
    var storage: map<string, string>

    /** Being signed in implies holding a token. */
    predicate SignedInHasToken()
      reads this
    {
      isAuthenticated ==> authToken != ""
    }

    /** The provider as it mounts, over whatever the browser has stored. */
    constructor (persisted: map<string, string>)
      ensures !isAuthenticated && isInitializing && email == "" && authToken == ""
      ensures storage == persisted
      ensures SignedInHasToken()
    {
      isAuthenticated := false;
      isInitializing := true;
      email := "";
      authToken := "";
      storage := persisted;
    }

    /**
      * `login`: on success holds the token and the email, is signed in, and remembers
      * both keys exactly when `rememberMe`; on failure re-throws and changes nothing.
      */
    method Login(userEmail: string, password: string, rememberMe: bool, reply: Reply<LoginBody>)
      returns (outcome: Result<()>, sent: seq<Request>)
      modifies this
      ensures sent == [AdminLoginRequest(userEmail, password)]
      ensures outcome.Ok? <==> AdminLogin(reply).Ok?
      ensures outcome.Err? ==> outcome.error == AdminLogin(reply).error
      ensures outcome.Err? ==> unchanged(this)
      ensures outcome.Ok? ==> && isAuthenticated
                              && authToken == AdminLogin(reply).value
                              && email == userEmail
                              && storage == if rememberMe
                                            then old(storage)[TokenKey := authToken][EmailKey := userEmail]
                                            else old(storage)
      ensures isInitializing == old(isInitializing)
      ensures outcome.Ok? ==> (SignedInHasToken() <==> AdminLogin(reply).value != "")
    {
      sent := [AdminLoginRequest(userEmail, password)];
      var token := AdminLogin(reply);
      if token.Err? {
        return Err(token.error), sent;
      }
      if rememberMe {
        storage := storage[TokenKey := token.value];
        storage := storage[EmailKey := userEmail];
      }
      authToken := token.value;
      email := userEmail;
      isAuthenticated := true;
      outcome := Ok(());
    }

    /** `logout`: forgets both keys and the in-memory session, whatever the state was. */
    method Logout()
      modifies this
      ensures storage == old(storage) - {TokenKey, EmailKey}
      ensures !isAuthenticated && authToken == "" && email == ""
      ensures isInitializing == old(isInitializing)
      ensures SignedInHasToken()
    {
      storage := storage - {TokenKey};
      storage := storage - {EmailKey};
      isAuthenticated := false;
      authToken := "";
      email := "";
    }

    /**
      * `initializeAuth`: validates only a remembered token with a remembered email.
      * A valid one signs in with them; an invalid one is forgotten, in memory and in
      * storage. Start-up ends on every path.
      */
    method InitializeAuth(validation: Reply<()>) returns (sent: seq<Request>)
      modifies this
      ensures !isInitializing
      ensures old(Saved(storage)).None? ==>
                && sent == []
                && storage == old(storage) && authToken == old(authToken) && email == old(email)
                && isAuthenticated == old(isAuthenticated)
      ensures old(Saved(storage)).Some? ==> sent == [ValidationRequest(old(Saved(storage)).value.0)]
      ensures old(Saved(storage)).Some? && IsOk(validation) ==>
                && isAuthenticated
                && authToken == old(Saved(storage)).value.0 && email == old(Saved(storage)).value.1
                && storage == old(storage)
      ensures old(Saved(storage)).Some? && !IsOk(validation) ==>
                && storage == old(storage) - {TokenKey, EmailKey}
                && authToken == "" && email == ""
                && isAuthenticated == old(isAuthenticated)
      // a rejected token leaves the signed-in flag as it was, so the invariant is kept
      // only from the signed-out state that mounting starts in
      ensures !old(isAuthenticated) ==> SignedInHasToken()
    {
      sent := [];
      var saved := Saved(storage);
      if saved.Some? {
        var (savedToken, savedEmail) := saved.value;
        email := savedEmail;
        authToken := savedToken;
        var check := ValidateToken(savedToken, validation);
        sent := check.sent;
        if check.value {
          isAuthenticated := true;
        } else {
          storage := storage - {TokenKey};
          storage := storage - {EmailKey};
          authToken := "";
          email := "";
        }
      }
      isInitializing := false;
    }
  }

  /**
    * Start-up from a fresh provider: signed in exactly when a complete remembered
    * session is present and its token validates; the flag ends false.
    */
  method StartUp(persisted: map<string, string>, validation: Reply<()>) returns (auth: AuthProvider)
    ensures fresh(auth)
    ensures !auth.isInitializing
    ensures auth.isAuthenticated <==> Saved(persisted).Some? && IsOk(validation)
    ensures auth.SignedInHasToken()
  {
    auth := new AuthProvider(persisted);
    var _ := auth.InitializeAuth(validation);
  }
}
