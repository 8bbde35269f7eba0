/** The authentication context (frontend/cardano_frontend/context/AuthContext.tsx):
    the `user`, `isLoading` and `error` cells of the provider, changed step
    by step by its actions through the API client and the wallet context.

    Each action is specified by a function from the client's state to the
    action's outcome, the client's new state and the calls it made to the
    server and the wallet, in order. Navigation (`router.push`) is not
    modelled. */
module AuthContext {
  import opened Wrappers
  import opened Strings
  import opened Json
  import opened CardanoLib
  import opened WalletContext
  import opened ApiClient

  /** A call made on the way: a request to the server, or a signature asked
      of the wallet. */
  datatype Step = Fetch(request: Outgoing) | Sign(address: string, payload: string)

  /** `const { message } = null` throws before anything is signed. */
  const DESTRUCTURE_NULL: JsError :=
    JsError("TypeError", "Cannot destructure property 'message' of '(intermediate value)' as it is null.")

  /** `Buffer.from(message, 'utf8')` of a message that is not a string: one
      TypeError stands in for the several the runtime can throw there. */
  const NOT_A_STRING: JsError := JsError("TypeError", "The first argument must be of type string")

  /** `login()` once a wallet is connected: fetch a challenge for the
      wallet's address, sign exactly its message, and log in with the same
      address and message and the wallet's signature and key; the user is
      the answer's `user`. */
  function LoginFlow(fetch: Outgoing -> FetchResult, baseURL: string, s: ClientState, w: ConnectedWallet)
    : (r: (Result<Option<Value>, JsError>, ClientState, seq<Step>))
    ensures r.0.Err? ==> r.1 == s
    ensures 1 <= |r.2| <= 3 && r.2[0] == Fetch(ChallengeRequest(baseURL, s.token, w.address))
    ensures r.0.Ok? ==>
      && |r.2| == 3
      && var challenge := Answer(fetch(ChallengeRequest(baseURL, s.token, w.address)));
      && challenge.Ok? && challenge.value != Null
      && var message := Get(challenge.value, "message");
      && message.Some? && message.value.Str?
      && r.2[1..] == SignAndLogin(fetch, baseURL, s, w, message.value.s).2
      && r.0 == SignAndLogin(fetch, baseURL, s, w, message.value.s).0
      && r.1 == SignAndLogin(fetch, baseURL, s, w, message.value.s).1
  {
    var challengeRequest := ChallengeRequest(baseURL, s.token, w.address);
    var trace := [Fetch(challengeRequest)];
    match Answer(fetch(challengeRequest))
    case Err(e) => (Err(e), s, trace)
    case Ok(challenge) =>
      if challenge == Null then (Err(DESTRUCTURE_NULL), s, trace)
      else
        var message := Get(challenge, "message");
        if !(message.Some? && message.value.Str?) then (Err(NOT_A_STRING), s, trace)
        else
          var rest := SignAndLogin(fetch, baseURL, s, w, message.value.s);
          (rest.0, rest.1, trace + rest.2)
  }

  /** The rest of `login()` once the challenge message `m` is known: the
      wallet signs exactly `m`, and the login request carries the same
      address and message, the wallet's signature and its normalised key. */
  function SignAndLogin(fetch: Outgoing -> FetchResult, baseURL: string, s: ClientState, w: ConnectedWallet, m: string)
    : (r: (Result<Option<Value>, JsError>, ClientState, seq<Step>))
    ensures r.0.Err? ==> r.1 == s
    ensures 1 <= |r.2| <= 2 && r.2[0] == Sign(w.address, MessagePayload(m))
    ensures r.0.Ok? ==>
      && |r.2| == 2
      && SignMessage(w.api, w.address, m).Ok?
      && var signed := SignMessage(w.api, w.address, m).value;
      && var proof := WalletProof(w.address, m, signed.signature, signed.key);
      && NormalizePublicKey(signed.key).Ok?
      && r.2[1] == Fetch(LoginRequest(baseURL, s.token, proof, NormalizePublicKey(signed.key).value))
      && LoginStep(fetch, baseURL, s, proof).0.Ok?
      && r.0 == Ok(Get(LoginStep(fetch, baseURL, s, proof).0.value, "user"))
      && r.1 == LoginStep(fetch, baseURL, s, proof).1
  {
    var trace := [Sign(w.address, MessagePayload(m))];
    match SignMessage(w.api, w.address, m)
    case Err(e) => (Err(e), s, trace)
    case Ok(signed) =>
      var proof := WalletProof(w.address, m, signed.signature, signed.key);
      var trace := trace + (match NormalizePublicKey(signed.key)
                            case Ok(key) => [Fetch(LoginRequest(baseURL, s.token, proof, key))]
                            case Err(_) => []);
      match LoginStep(fetch, baseURL, s, proof)
      case (Err(e), after) => (Err(e), after, trace)
      case (Ok(auth), after) => (Ok(Get(auth, "user")), after, trace)
  }

  /** The text a failed `login()` puts in `error`. */
  function LoginErrorText(e: JsError): string {
    if e.message != "" then e.message else "Authentication failed"
  }

  /** `restoreSession()`: with a token, ask for the user; if that fails (or
      the user is `null`, whose `address` cannot be read), refresh once and
      ask again; if that fails too, clear the tokens. */
  function RestoreFlow(fetch: Outgoing -> FetchResult, baseURL: string, s: ClientState, user: Option<Value>)
    : (r: (Option<Value>, ClientState, seq<Outgoing>))
    ensures !Truthy(s.token) ==> r == (user, s, [])
    ensures |r.2| <= 3
    ensures Truthy(s.token) ==> |r.2| >= 1 && r.2[0] == MeRequest(baseURL, s.token)
    ensures forall i :: 0 <= i < |r.2| && r.2[i].url == baseURL + "/api/auth/refresh" ==> i == 1
    ensures (&& Truthy(s.token)
             && Answer(fetch(MeRequest(baseURL, s.token))).Ok?
             && Answer(fetch(MeRequest(baseURL, s.token))).value != Null) ==>
      r == (Some(Answer(fetch(MeRequest(baseURL, s.token))).value), s, [MeRequest(baseURL, s.token)])
    ensures (Truthy(s.token) && RefreshStep(fetch, baseURL, s).0.Err?
             && !(Answer(fetch(MeRequest(baseURL, s.token))).Ok? && Answer(fetch(MeRequest(baseURL, s.token))).value != Null)) ==>
      r.1 == Cleared(s)
  {
    if !Truthy(s.token) then (user, s, [])
    else
      var me := MeRequest(baseURL, s.token);
      var first := Answer(fetch(me));
      if first.Ok? && first.value != Null then (Some(first.value), s, [me])
      else
        var user := if first.Ok? then Some(first.value) else user;
        var refresh := Stored(s.items, "refresh_token");
        var trace := [me] + (if Truthy(refresh) then [RefreshRequest(baseURL, s.token, refresh.value)] else []);
        match RefreshStep(fetch, baseURL, s)
        case (Err(_), _) => (user, Cleared(s), trace)
        case (Ok(_), refreshed) =>
          var again := MeRequest(baseURL, refreshed.token);
          var second := Answer(fetch(again));
          var trace := trace + [again];
          if second.Ok? && second.value != Null then (Some(second.value), refreshed, trace)
          else if second.Ok? then (Some(Null), Cleared(refreshed), trace)
          else (user, Cleared(refreshed), trace)
  }

  class AuthProvider {
    var user: Option<Value>
    var isLoading: bool
    var error: Option<string>
    const client: APIClient
    const wallet: WalletProvider

    /** The state when the provider mounts, before the session is restored. */
    constructor(client: APIClient, wallet: WalletProvider)
      ensures this.client == client && this.wallet == wallet
      ensures user == Some(Null) && isLoading && error == None
    {
      this.client := client;
      this.wallet := wallet;
      user := Some(Null);
      isLoading := true;
      error := None;
    }

    /** `isAuthenticated`: a user is set and the client holds a token. */
    method IsAuthenticated() returns (b: bool)
      ensures b <==> Truthy(user) && Truthy(client.accessToken)
      ensures b ==> "Authorization" in RequestHeaders(client.accessToken)
    {
      var hasToken := client.IsAuthenticated();
      b := Truthy(user) && hasToken;
    }

    /** `restoreSession()`. */
    method RestoreSession(fetch: Outgoing -> FetchResult)
      modifies this, client, client.storage
      ensures var flow := RestoreFlow(fetch, client.baseURL, old(client.State()), old(user));
        user == flow.0 && client.State() == flow.1
      ensures !isLoading && error == old(error)
    {
      var hasToken := client.IsAuthenticated();
      if hasToken {
        var first := client.GetCurrentUser(fetch);
        if first.Ok? {
          user := Some(first.value);
        }
        if !(first.Ok? && first.value != Null) {
          var refreshed := client.RefreshToken(fetch);
          if refreshed.Ok? {
            var second := client.GetCurrentUser(fetch);
            if second.Ok? {
              user := Some(second.value);
            }
            if !(second.Ok? && second.value != Null) {
              client.ClearTokens();
            }
          } else {
            client.ClearTokens();
          }
        }
      }
      isLoading := false;
    }

    /** `login()`: refused before any state change without a connected
        wallet; otherwise loading, the flow, and the user or the error. */
    method Login(fetch: Outgoing -> FetchResult) returns (r: Result<(), JsError>)
      modifies this, client, client.storage
      ensures old(wallet.connectedWallet).None? ==>
        && r == Err(Thrown("Please connect your wallet first"))
        && user == old(user) && isLoading == old(isLoading) && error == old(error)
        && client.State() == old(client.State())
      ensures old(wallet.connectedWallet).Some? ==>
        var flow := LoginFlow(fetch, client.baseURL, old(client.State()), old(wallet.connectedWallet).value);
        && !isLoading
        && client.State() == flow.1
        && (flow.0.Ok? ==> r == Ok(()) && user == flow.0.value && error == None)
        && (flow.0.Err? ==> r == Err(flow.0.error) && user == old(user) && error == Some(LoginErrorText(flow.0.error)))
    {
      if wallet.connectedWallet.None? {
        return Err(Thrown("Please connect your wallet first"));
      }
      var w := wallet.connectedWallet.value;
      isLoading := true;
      error := None;
      r := LoginSteps(fetch, w);
      isLoading := false;
    }

    /** The body of `login()`'s try block and its catch. */
    method LoginSteps(fetch: Outgoing -> FetchResult, w: ConnectedWallet) returns (r: Result<(), JsError>)
      requires wallet.connectedWallet == Some(w)
      modifies this, client, client.storage
      ensures isLoading == old(isLoading)
      ensures var flow := LoginFlow(fetch, client.baseURL, old(client.State()), w);
        && client.State() == flow.1
        && (flow.0.Ok? ==> r == Ok(()) && user == flow.0.value && error == old(error))
        && (flow.0.Err? ==> r == Err(flow.0.error) && user == old(user) && error == Some(LoginErrorText(flow.0.error)))
    {
      var outcome := Authenticate(fetch, w);
      match outcome {
        case Ok(newUser) =>
          user := newUser;
          r := Ok(());
        case Err(e) =>
          error := Some(LoginErrorText(e));
          r := Err(e);
      }
    }

    /** Challenge, signature and login, in that order. */
    method Authenticate(fetch: Outgoing -> FetchResult, w: ConnectedWallet) returns (r: Result<Option<Value>, JsError>)
      requires wallet.connectedWallet == Some(w)
      modifies client, client.storage
      ensures var flow := LoginFlow(fetch, client.baseURL, old(client.State()), w);
        r == flow.0 && client.State() == flow.1
    {
      var challenge := client.GetChallenge(fetch, w.address);
      if challenge.Err? {
        return Err(challenge.error);
      }
      if challenge.value == Null {
        return Err(DESTRUCTURE_NULL);
      }
      var message := Get(challenge.value, "message");
      if !(message.Some? && message.value.Str?) {
        return Err(NOT_A_STRING);
      }
      var signed := wallet.SignMessageWithWallet(message.value.s);
      if signed.Err? {
        return Err(signed.error);
      }
      var auth := client.Login(fetch, WalletProof(w.address, message.value.s, signed.value.signature, signed.value.key));
      if auth.Err? {
        return Err(auth.error);
      }
      r := Ok(Get(auth.value, "user"));
    }

    /** `logout()`: the user is gone and the tokens are cleared whatever the
        server answered, so the context is no longer authenticated. */
    method Logout(fetch: Outgoing -> FetchResult)
      modifies this, client, client.storage
      ensures user == Some(Null)
      ensures client.State() == LogoutStep(fetch, client.baseURL, old(client.State())).1
      ensures isLoading == old(isLoading) && error == old(error)
      ensures !(Truthy(user) && Truthy(client.accessToken))
    {
      var _ := client.Logout(fetch);
      user := Some(Null);
    }

    /** `refreshUser()`: the user from the server, or `null` on failure. */
    method RefreshUser(fetch: Outgoing -> FetchResult)
      modifies this
      ensures var me := Answer(fetch(MeRequest(client.baseURL, client.accessToken)));
        user == (if me.Ok? then Some(me.value) else Some(Null))
      ensures isLoading == old(isLoading) && error == old(error)
    {
      var me := client.GetCurrentUser(fetch);
      user := if me.Ok? then Some(me.value) else Some(Null);
    }
  }

  /** A login that fails leaves the client's tokens as they were; one that
      succeeds has signed the challenge's own message. */
  lemma LoginSignsTheChallenge(fetch: Outgoing -> FetchResult, baseURL: string, s: ClientState, w: ConnectedWallet)
    requires LoginFlow(fetch, baseURL, s, w).0.Ok?
    ensures var trace := LoginFlow(fetch, baseURL, s, w).2;
      var challenge := Answer(fetch(ChallengeRequest(baseURL, s.token, w.address))).value;
      trace[1].Sign? && HexDecode(trace[1].payload) == Some(Utf8(Get(challenge, "message").value.s))
      && trace[2].request.body.value.fields["message"] == Get(challenge, "message").value
      && trace[2].request.body.value.fields["address"] == Str(w.address)
  {
    var challenge := Answer(fetch(ChallengeRequest(baseURL, s.token, w.address))).value;
    var m := Get(challenge, "message").value.s;
    var rest := SignAndLogin(fetch, baseURL, s, w, m);
    var trace := LoginFlow(fetch, baseURL, s, w).2;
    assert trace[1] == trace[1..][0] == rest.2[0];
    assert trace[2] == trace[1..][1] == rest.2[1];
    SignAndLoginSigns(fetch, baseURL, s, w, m);
  }

  /** A successful sign-and-login signs `m` and sends it back with the address. */
  lemma SignAndLoginSigns(fetch: Outgoing -> FetchResult, baseURL: string, s: ClientState, w: ConnectedWallet, m: string)
    requires SignAndLogin(fetch, baseURL, s, w, m).0.Ok?
    ensures var trace := SignAndLogin(fetch, baseURL, s, w, m).2;
      trace[0].Sign? && HexDecode(trace[0].payload) == Some(Utf8(m))
      && trace[1].request.body.value.fields["message"] == Str(m)
      && trace[1].request.body.value.fields["address"] == Str(w.address)
  {
    PayloadDecodes(m);
    var signed := SignMessage(w.api, w.address, m).value;
    ProofBodyFields(w.address, m, signed.signature, NormalizePublicKey(signed.key).value);
  }
}
