/**
  The auth flows: log in, register, log out and re-fetch the profile. Each
  is a sequence of store actions around network steps; each network step is
  an input `Outcome`. Failures are turned into one message with a fixed
  precedence over the shape of the axios error.
*/
module AuthService {
  import opened Js
  import opened Http
  import AuthStore
  import AxiosConfig

  const LoginDefault := "Login failed. Please check your credentials."
  const InvalidCredentials := "Invalid username or password."
  const NoResponseMessage := "No response from server. Please try again later."
  const RegisterDefault := "Registration failed. Please try again."

  function SetupMessage(message: string): string
  {
    "An error occurred: " + message
  }

  /** `Object.values(data)` */
  function Values(entries: seq<(string, Json)>): (vs: seq<Json>)
    ensures |vs| == |entries|
    ensures forall i :: 0 <= i < |entries| ==> vs[i] == entries[i].1
  {
    if |entries| == 0 then [] else [entries[0].1] + Values(entries[1..])
  }

  /** `.flat()`: array values are spliced in, one level deep. */
  function Flat(vs: seq<Json>): seq<Json>
  {
    if |vs| == 0 then []
    else (if vs[0].JArr? then vs[0].items else [vs[0]]) + Flat(vs[1..])
  }

  /** `Object.values(data).flat().join(' ')` */
  function FlatValuesText(data: Json): string
    requires !data.JNull? && !data.JUndefined?
  {
    JoinJson(Flat(Values(Entries(data))), " ")
  }

  /** What a JavaScript expression evaluates to: a value, or a TypeError
      thrown while evaluating it. */
  datatype Attempt = Returns(message: string) | ThrowsTypeError

  // ---------------------------------------------------------------- login

  /** The login catch block as written: `Object.values` is reached with a
      null body (`typeof null === 'object'`) and throws there. */
  function LoginErrorMessageAsWritten(e: AxiosError): Attempt
  {
    match e
    case ErrResponse(status, data) =>
      if Truthy(data) && Truthy(Get(data, "detail")) then Returns(ToStr(Get(data, "detail")))
      else if IsObjectType(data) then
        if data.JNull? then ThrowsTypeError
        else Returns(OrElse(FlatValuesText(data), LoginDefault))
      else if status == 401 then Returns(InvalidCredentials)
      else Returns(LoginDefault)
    case NoResponse => Returns(NoResponseMessage)
    case SetupError(m) => Returns(SetupMessage(m))
  }

  /** The login error message, with a null body handled like any other
      non-object body. */
  function LoginErrorMessage(e: AxiosError): string
  {
    match e
    case ErrResponse(status, data) =>
      if Truthy(data) && Truthy(Get(data, "detail")) then ToStr(Get(data, "detail"))
      else if data.JArr? || data.JObj? then OrElse(FlatValuesText(data), LoginDefault)
      else if status == 401 then InvalidCredentials
      else LoginDefault
    case NoResponse => NoResponseMessage
    case SetupError(m) => SetupMessage(m)
  }

  /** The precedence of the login message: the body's `detail`, then the
      flattened field messages of an object body if there are any, then the
      401 message for a body that is not an object, then the default; no
      response and set-up errors have messages of their own. */
  lemma LoginMessagePrecedence(e: AxiosError)
    ensures e.ErrResponse? && Truthy(Get(e.data, "detail")) ==>
      LoginErrorMessage(e) == ToStr(Get(e.data, "detail"))
    ensures e.ErrResponse? && !Truthy(Get(e.data, "detail")) && (e.data.JObj? || e.data.JArr?) ==>
      LoginErrorMessage(e) == OrElse(FlatValuesText(e.data), LoginDefault)
    ensures e.ErrResponse? && !e.data.JObj? && !e.data.JArr? ==>
      LoginErrorMessage(e) == (if e.status == 401 then InvalidCredentials else LoginDefault)
    ensures e.NoResponse? ==> LoginErrorMessage(e) == NoResponseMessage
    ensures e.SetupError? ==> LoginErrorMessage(e) == SetupMessage(e.message)
  {
  }

  /** The correction changes nothing but the null body. */
  lemma LoginMessageAsWrittenAgrees(e: AxiosError)
    requires !(e.ErrResponse? && e.data.JNull?)
    ensures LoginErrorMessageAsWritten(e) == Returns(LoginErrorMessage(e))
  {
  }

  /** A reply whose body is JSON `null` makes the login catch block throw. */
  lemma LoginNullBodyThrows()
    ensures LoginErrorMessageAsWritten(ErrResponse(500, JNull)) == ThrowsTypeError
    ensures LoginErrorMessage(ErrResponse(500, JNull)) == LoginDefault
    ensures LoginErrorMessage(ErrResponse(401, JNull)) == InvalidCredentials
  {
  }

  datatype LoginResult = LoginSucceeded(user: Json) | LoginFailed(error: string)

  /** The headers the profile request of `loginUser` goes out with, as
      written: the call sets `Authorization` to the new access token, and
      the request interceptor then overwrites it with the store's access
      token whenever the store still holds a truthy one. */
  function ProfileHeadersAsWritten(storeToken: Json, access: Json): map<string, string>
  {
    AxiosConfig.Stamped(map["Authorization" := AxiosConfig.Bearer(access)], storeToken)
  }

  /** The headers the profile request is meant to carry: the new token. */
  function ProfileHeaders(access: Json): map<string, string>
  {
    map["Authorization" := AxiosConfig.Bearer(access)]
  }

  /** The profile request carries the new token exactly when the store
      holds no token, or one that prints the same. */
  lemma ProfileHeadersAgreement(storeToken: Json, access: Json)
    ensures ProfileHeadersAsWritten(storeToken, access) == ProfileHeaders(access)
        <==> !Truthy(storeToken) || ToStr(storeToken) == ToStr(access)
    ensures "Authorization" in ProfileHeaders(access)
            && ProfileHeaders(access)["Authorization"] == "Bearer " + ToStr(access)
  {
    var stale, current := ToStr(storeToken), ToStr(access);
    if Truthy(storeToken) && ProfileHeadersAsWritten(storeToken, access) == ProfileHeaders(access) {
      assert ProfileHeadersAsWritten(storeToken, access)["Authorization"] == "Bearer " + stale;
      assert "Bearer " + stale == "Bearer " + current;
      assert ("Bearer " + stale)[7..] == stale;
      assert ("Bearer " + current)[7..] == current;
    }
  }

  /** Logging in as one user while the store still holds another session's
      access token fetches the old session's profile with it. */
  lemma ProfileFetchUsesStaleToken()
    ensures ProfileHeadersAsWritten(JStr("old-access"), JStr("new-access"))["Authorization"] == "Bearer old-access"
    ensures ProfileHeaders(JStr("new-access"))["Authorization"] == "Bearer new-access"
  {
  }

  /** The error the login catch block receives, if any: the token exchange's
      own error, the TypeError of destructuring a null or undefined token
      body, or the profile fetch's error. */
  function LoginError(tokenReply: Outcome, profileReply: Outcome): Option<AxiosError>
  {
    match tokenReply
    case Err(e) => Some(e)
    case Ok(data) =>
      if data.JNull? || data.JUndefined? then
        Some(SetupError(DestructureError("access", "response.data", data)))
      else if profileReply.Err? then Some(profileReply.error)
      else None
  }

  /** `loginUser(credentials)`: `loginRequest`, the token exchange
      (`tokenReply`), the profile fetch (`profileReply`), then
      `loginSuccess` with all three, or `loginFailure` with the message.
      `profileRequest` is the headers the profile call passes and
      `profileSent` those it goes out with once the request interceptor
      has run. The message is the corrected one: wherever the catch block
      as written produces a message, it is the same one. */
  method LoginUser(store: AuthStore.Store, tokenReply: Outcome, profileReply: Outcome)
    returns (result: LoginResult, profileRequest: Option<map<string, string>>,
             profileSent: Option<map<string, string>>)
    modifies store
    ensures result.LoginSucceeded? <==> LoginError(tokenReply, profileReply).None?
    // the profile is requested only after a token exchange with a body,
    // and with the new access token
    ensures profileRequest.Some? <==> tokenReply.Ok? && !tokenReply.data.JNull? && !tokenReply.data.JUndefined?
    ensures profileRequest.Some? ==> profileRequest.value == ProfileHeaders(Get(tokenReply.data, "access"))
    // the interceptor stamps the token the store held before the login
    ensures profileSent.Some? <==> profileRequest.Some?
    ensures profileSent.Some? ==>
      profileSent.value == ProfileHeadersAsWritten(old(store.accessToken), Get(tokenReply.data, "access"))
    // the flow settles with the code's own message whenever the code's
    // catch block evaluates to one
    ensures LoginError(tokenReply, profileReply).Some?
            && LoginErrorMessageAsWritten(LoginError(tokenReply, profileReply).value).Returns? ==>
      result == LoginFailed(LoginErrorMessageAsWritten(LoginError(tokenReply, profileReply).value).message)
    ensures LoginError(tokenReply, profileReply).None? ==>
      var access, refresh := Get(tokenReply.data, "access"), Get(tokenReply.data, "refresh");
      result == LoginSucceeded(profileReply.data)
      && store.State() == AuthStore.Session(profileReply.data, access, refresh, false, None)
      && store.history == old(store.history)
           + [AuthStore.Action.LoginRequest, AuthStore.Action.LoginSuccess(profileReply.data, access, refresh)]
    ensures LoginError(tokenReply, profileReply).Some? ==>
      var message := LoginErrorMessage(LoginError(tokenReply, profileReply).value);
      result == LoginFailed(message)
      && store.State() == AuthStore.InitialSession.(error := Some(message))
      && store.history == old(store.history)
           + [AuthStore.Action.LoginRequest, AuthStore.Action.LoginFailure(Some(message))]
  {
    store.LoginRequest();
    profileRequest, profileSent := None, None;
    var failure: Option<AxiosError> := None;
    match tokenReply {
      case Err(e) =>
        failure := Some(e);
      case Ok(data) =>
        if data.JNull? || data.JUndefined? {
          failure := Some(SetupError(DestructureError("access", "response.data", data)));
        } else {
          var access, refresh := Get(data, "access"), Get(data, "refresh");
          profileRequest := Some(ProfileHeaders(access));
          var config := new AxiosConfig.RequestConfig(ProfileHeaders(access));
          AxiosConfig.StampAuthorization(store, config);
          profileSent := Some(config.headers);
          match profileReply {
            case Err(e) =>
              failure := Some(e);
            case Ok(userData) =>
              store.LoginSuccess(userData, access, refresh);
              result := LoginSucceeded(userData);
              return;
          }
        }
    }
    var message := LoginErrorMessage(failure.value);
    if LoginErrorMessageAsWritten(failure.value).Returns? {
      LoginMessageAsWrittenAgrees(failure.value);
    }
    store.LoginFailure(Some(message));
    result := LoginFailed(message);
  }

  // ------------------------------------------------------------- register

  /** Whether `messages.join(' ')` can be evaluated for every entry: only
      arrays have `join`. */
  predicate AllArrays(entries: seq<(string, Json)>)
  {
    forall i :: 0 <= i < |entries| ==> entries[i].1.JArr?
  }

  /** The register catch block as written: every body with
      `typeof data === 'object'` goes through `Object.entries(...).map(...)`,
      which throws on a null body and on any entry whose value is not an
      array; the `detail` branch after it is never reached for such bodies. */
  function RegisterErrorMessageAsWritten(e: AxiosError): Attempt
  {
    match e
    case ErrResponse(_, data) =>
      if IsObjectType(data) then
        if data.JNull? || !AllArrays(Entries(data)) then ThrowsTypeError
        else Returns(OrElse(FieldErrors(data), RegisterDefault))
      else if Truthy(data) && Truthy(Get(data, "detail")) then Returns(ToStr(Get(data, "detail")))
      else Returns(RegisterDefault)
    case NoResponse => Returns(NoResponseMessage)
    case SetupError(m) => Returns(SetupMessage(m))
  }

  /** The register error message, with a null body treated as no body and a
      non-array message printed as it is, as the submission error formatter
      does. */
  function RegisterErrorMessage(e: AxiosError): (message: string)
    ensures message != ""
  {
    match e
    case ErrResponse(_, data) =>
      if data.JArr? || data.JObj? then OrElse(FieldErrors(data), RegisterDefault)
      else if Truthy(data) && Truthy(Get(data, "detail")) then ToStr(Get(data, "detail"))
      else RegisterDefault
    case NoResponse => NoResponseMessage
    case SetupError(m) => SetupMessage(m)
  }

  /** On the bodies the code handles, the correction changes nothing: a
      non-empty object body gives its `field: msgs` entries joined by "; ",
      and an empty one the default message. */
  lemma RegisterMessageAsWrittenAgrees(e: AxiosError)
    requires e.ErrResponse? && IsObjectType(e.data) ==> !e.data.JNull? && AllArrays(Entries(e.data))
    ensures RegisterErrorMessageAsWritten(e) == Returns(RegisterErrorMessage(e))
    ensures e.ErrResponse? && e.data.JObj? ==>
      RegisterErrorMessage(e) == if e.data.entries == [] then RegisterDefault else FieldErrors(e.data)
  {
    if e.ErrResponse? && e.data.JObj? {
      FieldErrorsEmpty(e.data);
    }
  }

  /** A throttled or rejected request answered with Django REST framework's
      usual `{"detail": "..."}` body makes the register catch block throw. */
  lemma RegisterDetailBodyThrows()
    ensures RegisterErrorMessageAsWritten(ErrResponse(429, JObj([("detail", JStr("Request was throttled."))])))
         == ThrowsTypeError
    ensures RegisterErrorMessage(ErrResponse(429, JObj([("detail", JStr("Request was throttled."))])))
         == "detail: Request was throttled."
  {
    var entry := ("detail", JStr("Request was throttled."));
    var body := JObj([entry]);
    assert Entries(body)[0] == entry;
    assert !AllArrays(Entries(body));
    assert FieldErrorText(entry) == "detail: Request was throttled.";
    assert FieldErrorTexts(Entries(body)) == [FieldErrorText(entry)];
  }

  datatype RegisterResult = Registered(data: Json) | RegisterFailed(error: string)

  /** `registerUser(userData)`: `loginRequest`, the register call (`reply`),
      then on success only the two status fields are reset (the user is not
      logged in), and on failure `loginFailure` with the message, which also
      clears the user and both tokens. The message is the corrected one:
      wherever the catch block as written produces a message, it is the
      same one. */
  method RegisterUser(store: AuthStore.Store, reply: Outcome) returns (result: RegisterResult)
    modifies store
    ensures reply.Ok? ==>
      result == Registered(reply.data)
      && store.State() == old(store.State()).(isLoading := false, error := None)
      && store.history == old(store.history)
           + [AuthStore.Action.LoginRequest, AuthStore.Action.SetState(false, None)]
    ensures reply.Err? ==>
      var message := RegisterErrorMessage(reply.error);
      result == RegisterFailed(message)
      && store.State() == AuthStore.InitialSession.(error := Some(message))
      && store.history == old(store.history)
           + [AuthStore.Action.LoginRequest, AuthStore.Action.LoginFailure(Some(message))]
    ensures reply.Err? && RegisterErrorMessageAsWritten(reply.error).Returns? ==>
      result == RegisterFailed(RegisterErrorMessageAsWritten(reply.error).message)
  {
    store.LoginRequest();
    match reply {
      case Ok(data) =>
        store.SetState(false, None);
        result := Registered(data);
      case Err(e) =>
        var message := RegisterErrorMessage(e);
        if RegisterErrorMessageAsWritten(e).Returns? {
          RegisterMessageAsWrittenAgrees(e);
        }
        store.LoginFailure(Some(message));
        result := RegisterFailed(message);
    }
  }

  // --------------------------------------------------------------- logout

  /** `logoutUser()`: the backend is told only when a refresh token is held
      (`backendCall` is the token it is sent); whatever that call's outcome
      (`reply`), the store is then reset. */
  method LogoutUser(store: AuthStore.Store, reply: Outcome) returns (backendCall: Option<Json>)
    modifies store
    ensures backendCall == if Truthy(old(store.refreshToken)) then Some(old(store.refreshToken)) else None
    ensures store.State() == AuthStore.InitialSession && !store.IsAuthenticated()
    ensures store.history == old(store.history) + [AuthStore.Action.Logout]
  {
    var refreshToken := store.refreshToken;
    backendCall := None;
    if Truthy(refreshToken) {
      backendCall := Some(refreshToken);
      // the outcome of the backend call is swallowed either way
    }
    store.Logout();
  }

  // -------------------------------------------------------------- profile

  /** `fetchUserProfile()`: on success the new profile is installed with the
      tokens the store holds (through `loginSuccess`, which also resets the
      status fields); on failure the store is reset only for a 401, and the
      error is rethrown in every case. */
  method FetchUserProfile(store: AuthStore.Store, reply: Outcome) returns (result: Outcome)
    modifies store
    ensures result == reply
    ensures reply.Ok? ==>
      store.State() == old(store.State()).(user := reply.data, isLoading := false, error := None)
      && store.history == old(store.history)
           + [AuthStore.Action.LoginSuccess(reply.data, old(store.accessToken), old(store.refreshToken))]
    ensures reply.Err? && IsUnauthorized(reply.error) ==>
      store.State() == AuthStore.InitialSession
      && store.history == old(store.history) + [AuthStore.Action.Logout]
    ensures reply.Err? && !IsUnauthorized(reply.error) ==>
      store.State() == old(store.State()) && store.history == old(store.history)
  {
    match reply {
      case Ok(data) =>
        store.LoginSuccess(data, store.accessToken, store.refreshToken);
      case Err(e) =>
        if IsUnauthorized(e) {
          store.Logout();
        }
    }
    result := reply;
  }

  /** `fetchUserProfile()` with its GET `/auth/user/` sent through the
      shared instance: `response` is the first reply, `refresh` and
      `replay` those of the refresh call and the replay when the response
      interceptor takes the refresh path. The body then reads the tokens
      the interceptor left in the store, and a failed refresh has already
      logged out before the error reaches the catch block. */
  method FetchUserProfileThroughInterceptor(store: AuthStore.Store, response: Outcome, refresh: Outcome, replay: Outcome)
    returns (result: Outcome, refreshCalls: seq<Json>)
    modifies store
    // no refresh: the body sees the first reply and the entry state
    ensures !(response.Err? && AxiosConfig.ShouldRefresh(response.error, false, old(store.refreshToken))) ==>
      result == response && refreshCalls == []
      && (response.Ok? ==>
            store.State() == old(store.State()).(user := response.data, isLoading := false, error := None)
            && store.history == old(store.history)
                 + [AuthStore.Action.LoginSuccess(response.data, old(store.accessToken), old(store.refreshToken))])
      && (response.Err? ==>
            store.State() == (if IsUnauthorized(response.error) then AuthStore.InitialSession else old(store.State()))
            && store.history == old(store.history)
                 + (if IsUnauthorized(response.error) then [AuthStore.Action.Logout] else []))
    // a 401 with a refresh token: one refresh call with the held token
    ensures response.Err? && AxiosConfig.ShouldRefresh(response.error, false, old(store.refreshToken)) ==>
      refreshCalls == [old(store.refreshToken)]
      && match AxiosConfig.ReadRefresh(refresh)
         case RefreshFailed(e) =>
           // the interceptor has logged out, and a 401 from the refresh call logs out again
           result == Err(e) && store.State() == AuthStore.InitialSession
           && store.history == old(store.history) + [AuthStore.Action.Logout]
                + (if IsUnauthorized(e) then [AuthStore.Action.Logout] else [])
         case Refreshed(access, newRefresh) =>
           var kept := AxiosConfig.KeptRefreshToken(newRefresh, old(store.refreshToken));
           var refreshed := old(store.State()).(accessToken := access, refreshToken := kept);
           result == replay
           // the profile is installed with the refreshed tokens
           && (replay.Ok? ==>
                 store.State() == refreshed.(user := replay.data, isLoading := false, error := None)
                 && store.history == old(store.history)
                      + [AuthStore.Action.SetTokens(access, kept), AuthStore.Action.LoginSuccess(replay.data, access, kept)])
           && (replay.Err? && IsUnauthorized(replay.error) ==>
                 store.State() == AuthStore.InitialSession
                 && store.history == old(store.history) + [AuthStore.Action.SetTokens(access, kept), AuthStore.Action.Logout])
           && (replay.Err? && !IsUnauthorized(replay.error) ==>
                 store.State() == refreshed
                 && store.history == old(store.history) + [AuthStore.Action.SetTokens(access, kept)])
  {
    var config := new AxiosConfig.RequestConfig(map[]);
    var reply, sent;
    reply, sent, refreshCalls := AxiosConfig.Send(store, config, response, refresh, replay);
    result := FetchUserProfile(store, reply);
  }
}
