/**
  The shared axios instance: a request interceptor that stamps every
  outgoing request with the store's access token, and a response
  interceptor that answers a 401 by refreshing the token and replaying the
  request once. One request is one run of `Send`; the network's answers to
  the request, to the refresh call and to the replay are its inputs.

  There is no de-duplication of refreshes: every request that meets the
  refresh guard makes its own refresh call.
*/
module AxiosConfig {
  import opened Js
  import opened Http
  import AuthStore

  /** The header value `Bearer ${token}`. */
  function Bearer(token: Json): string
  {
    "Bearer " + ToStr(token)
  }

  /** The headers of a request after the request interceptor has run with
      the store holding `accessToken`. */
  function Stamped(headers: map<string, string>, accessToken: Json): map<string, string>
  {
    if Truthy(accessToken) then headers["Authorization" := Bearer(accessToken)] else headers
  }

  /** A truthy token overrides whatever Authorization header the caller set;
      any other token leaves every header as the caller set it. */
  lemma StampedOverrides(headers: map<string, string>, accessToken: Json)
    ensures Truthy(accessToken) ==>
      ("Authorization" in Stamped(headers, accessToken)
       && Stamped(headers, accessToken)["Authorization"] == Bearer(accessToken))
    ensures forall k :: k in headers && k != "Authorization" ==>
      (k in Stamped(headers, accessToken) && Stamped(headers, accessToken)[k] == headers[k])
    ensures !Truthy(accessToken) ==> Stamped(headers, accessToken) == headers
  {
  }

  /** The guard of the refresh path: a reply with status 401, to a request
      not yet retried, while the store holds a truthy refresh token. */
  predicate ShouldRefresh(e: AxiosError, retried: bool, refreshToken: Json)
  {
    IsUnauthorized(e) && !retried && Truthy(refreshToken)
  }

  /** Timeouts and unreachable servers (no response), request set-up errors,
      every status but 401 and every request already replayed are rejected
      as they are. */
  lemma OnlyFirst401Refreshes(e: AxiosError, retried: bool, refreshToken: Json)
    ensures ShouldRefresh(e, retried, refreshToken)
        <==> e.ErrResponse? && e.status == 401 && !retried && Truthy(refreshToken)
    ensures e.NoResponse? || e.SetupError? || retried ==> !ShouldRefresh(e, retried, refreshToken)
  {
  }

  /** What the response interceptor makes of the refresh call: the two
      tokens destructured from the reply body, or the error its catch block
      receives (the call's own error, or the TypeError of destructuring a
      null body). */
  datatype RefreshResult = Refreshed(access: Json, refresh: Json) | RefreshFailed(error: AxiosError)

  function ReadRefresh(reply: Outcome): RefreshResult
  {
    match reply
    case Err(e) => RefreshFailed(e)
    case Ok(data) =>
      if data.JNull? || data.JUndefined? then
        RefreshFailed(SetupError(DestructureError("access", "refreshResponse.data", data)))
      else
        Refreshed(Get(data, "access"), Get(data, "refresh"))
  }

  /** `newRefreshToken || refreshToken`: the refresh token kept after a
      successful refresh. A returned token replaces the old one; otherwise
      the old one stays, so a store that could refresh still can. */
  function KeptRefreshToken(newRefresh: Json, current: Json): (kept: Json)
    ensures Truthy(newRefresh) ==> kept == newRefresh
    ensures !Truthy(newRefresh) ==> kept == current
    ensures Truthy(kept) <==> Truthy(newRefresh) || Truthy(current)
  {
    if Truthy(newRefresh) then newRefresh else current
  }

  /** The parts of an axios request config the interceptors touch. */
  class RequestConfig {
    var headers: map<string, string>
    /** `_retry`: set once the request has gone down the refresh path. */
    var retry: bool

    constructor (headers: map<string, string>)
      ensures this.headers == headers && !retry
    {
      this.headers := headers;
      retry := false;
    }
  }

  /** The request interceptor. */
  method StampAuthorization(store: AuthStore.Store, config: RequestConfig)
    modifies config`headers
    ensures config.headers == Stamped(old(config.headers), store.accessToken)
  {
    if Truthy(store.accessToken) {
      config.headers := config.headers["Authorization" := Bearer(store.accessToken)];
    }
  }

  /** One request through the instance: the request interceptor, the
      network (`response`), and the response interceptor, which on the
      refresh path consumes `refresh` and sends the request again, through
      both interceptors, to receive `replay`.
      `sent` lists the headers of every dispatch of the request and
      `refreshCalls` the refresh token of every refresh call it made. */
  method Send(store: AuthStore.Store, config: RequestConfig, response: Outcome, refresh: Outcome, replay: Outcome)
    returns (result: Outcome, sent: seq<map<string, string>>, refreshCalls: seq<Json>)
    modifies store, config
    decreases if config.retry then 0 else 1
    // every dispatch carries the token the store holds at that moment
    ensures 1 <= |sent| <= 2 && |refreshCalls| <= 1
    ensures sent[0] == Stamped(old(config.headers), old(store.accessToken))
    // a request is replayed at most once, and only after a refresh call
    ensures |sent| == 2 ==> |refreshCalls| == 1
    ensures old(config.retry) ==> config.retry && |sent| == 1 && refreshCalls == [] && result == response
    // the request keeps the headers of its last dispatch
    ensures config.headers == sent[|sent| - 1]
    // 2xx replies pass through untouched
    ensures response.Ok? ==>
      result == response && |sent| == 1 && refreshCalls == [] && config.retry == old(config.retry)
      && store.State() == old(store.State()) && store.history == old(store.history)
    // every other failure is rejected with the original error
    ensures response.Err? && !ShouldRefresh(response.error, old(config.retry), old(store.refreshToken)) ==>
      result == response && |sent| == 1 && refreshCalls == [] && config.retry == old(config.retry)
      && store.State() == old(store.State()) && store.history == old(store.history)
    // the refresh path
    ensures response.Err? && ShouldRefresh(response.error, old(config.retry), old(store.refreshToken)) ==>
      config.retry && refreshCalls == [old(store.refreshToken)]
      && match ReadRefresh(refresh)
         case RefreshFailed(e) =>
           result == Err(e) && |sent| == 1
           && store.State() == AuthStore.InitialSession
           && store.history == old(store.history) + [AuthStore.Action.Logout]
         case Refreshed(access, newRefresh) =>
           var kept := KeptRefreshToken(newRefresh, old(store.refreshToken));
           result == replay && |sent| == 2
           && "Authorization" in sent[1] && sent[1]["Authorization"] == Bearer(access)
           // the replay keeps every other header of the first dispatch
           && sent[1] == Stamped(sent[0]["Authorization" := Bearer(access)], access)
           && store.State() == old(store.State()).(accessToken := access, refreshToken := kept)
           && store.history == old(store.history) + [AuthStore.Action.SetTokens(access, kept)]
  {
    StampAuthorization(store, config);
    sent := [config.headers];
    refreshCalls := [];
    if response.Ok? {
      result := response;
      return;
    }
    var refreshToken := store.refreshToken;
    if !ShouldRefresh(response.error, config.retry, refreshToken) {
      result := response;
      return;
    }
    config.retry := true;
    refreshCalls := [refreshToken];
    match ReadRefresh(refresh)
    case RefreshFailed(e) =>
      store.Logout();
      result := Err(e);
    case Refreshed(access, newRefresh) =>
      store.SetTokens(access, KeptRefreshToken(newRefresh, refreshToken));
      config.headers := config.headers["Authorization" := Bearer(access)];
      var replaySent, replayRefreshes;
      result, replaySent, replayRefreshes := Send(store, config, replay, refresh, replay);
      sent := sent + replaySent;
  }
}
