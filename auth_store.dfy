/**
  The authentication session store (a zustand store persisted to
  localStorage under 'auth-storage'): five fields, the five actions that
  `set` them and zustand's own `setState`, the `isAuthenticated` getter and the `partialize` function that
  chooses what is persisted.
*/
module AuthStore {
  import opened Js

  /** The value of the five store fields. */
  datatype Session = Session(
    user: Json,
    accessToken: Json,
    refreshToken: Json,
    isLoading: bool,
    error: Option<string>)

  /** `initialState`: everything null, not loading. */
  const InitialSession := Session(JNull, JNull, JNull, false, None)

  /** The record written to storage. */
  datatype Snapshot = Snapshot(user: Json, refreshToken: Json, accessToken: Json)

  /** `partialize`: the persisted part of a session. */
  function Partialize(s: Session): Snapshot
  {
    Snapshot(s.user, s.refreshToken, s.accessToken)
  }

  /** Rehydration at start-up: the persist middleware merges the stored
      record over the store's current state (shallow merge). */
  function Rehydrate(current: Session, p: Snapshot): Session
  {
    current.(user := p.user, accessToken := p.accessToken, refreshToken := p.refreshToken)
  }

  /** Two sessions persist to the same record exactly when they agree on the
      user and both tokens: `isLoading` and `error` are never persisted. */
  lemma PartializeExactlyPersisted(s: Session, t: Session)
    ensures Partialize(s) == Partialize(t)
        <==> (s.user == t.user && s.accessToken == t.accessToken && s.refreshToken == t.refreshToken)
  {
  }

  /** What is written can be read back: rehydrating a record and persisting
      again gives the same record, and rehydrating at start-up restores a
      session up to its loading flag and error. */
  lemma RehydrateRoundTrip(s: Session, p: Snapshot)
    ensures Partialize(Rehydrate(InitialSession, p)) == p
    ensures Rehydrate(InitialSession, Partialize(s)) == s.(isLoading := false, error := None)
  {
  }

  /** The store actions, recorded in the order they are called. */
  datatype Action =
    | LoginRequest
    | LoginSuccess(user: Json, accessToken: Json, refreshToken: Json)
    | LoginFailure(message: Option<string>)
    | Logout
    | SetTokens(accessToken: Json, refreshToken: Json)
    | SetState(isLoading: bool, error: Option<string>)

  class Store {
    var user: Json
    var accessToken: Json
    var refreshToken: Json
    var isLoading: bool
    var error: Option<string>
    /** Every action called on this store so far. */
    ghost var history: seq<Action>

    function State(): Session
      reads this
    {
      Session(user, accessToken, refreshToken, isLoading, error)
    }

    constructor ()
      ensures State() == InitialSession && history == []
    {
      user, accessToken, refreshToken := JNull, JNull, JNull;
      isLoading, error := false, None;
      history := [];
    }

    /** `isAuthenticated()`: a truthy access token, which for a string token
        means a non-empty one, and never null or undefined. */
    function IsAuthenticated(): (r: bool)
      reads this
      ensures accessToken.JNull? || accessToken.JUndefined? ==> !r
      ensures accessToken.JStr? ==> (r <==> |accessToken.s| > 0)
    {
      Truthy(accessToken)
    }

    /** `loginRequest()` */
    method LoginRequest()
      modifies this
      ensures isLoading && error == None
      ensures user == old(user) && accessToken == old(accessToken) && refreshToken == old(refreshToken)
      ensures history == old(history) + [Action.LoginRequest]
    {
      isLoading, error := true, None;
      history := history + [Action.LoginRequest];
    }

    /** `loginSuccess(userData, accessToken, refreshToken)` installs exactly
        what it is given. */
    method LoginSuccess(userData: Json, access: Json, refresh: Json)
      modifies this
      ensures State() == Session(userData, access, refresh, false, None)
      ensures history == old(history) + [Action.LoginSuccess(userData, access, refresh)]
    {
      user, accessToken, refreshToken := userData, access, refresh;
      isLoading, error := false, None;
      history := history + [Action.LoginSuccess(userData, access, refresh)];
    }

    /** `loginFailure(errorMessage)`: the user and both tokens are cleared
        together with the error being set. */
    method LoginFailure(message: Option<string>)
      modifies this
      ensures State() == InitialSession.(error := message)
      ensures !IsAuthenticated()
      ensures history == old(history) + [Action.LoginFailure(message)]
    {
      error, isLoading := message, false;
      user, accessToken, refreshToken := JNull, JNull, JNull;
      history := history + [Action.LoginFailure(message)];
    }

    /** `logout()`: back to `initialState`, whatever the state was, so a
        second logout changes nothing. */
    method Logout()
      modifies this
      ensures State() == InitialSession
      ensures !IsAuthenticated()
      ensures history == old(history) + [Action.Logout]
    {
      user, accessToken, refreshToken := JNull, JNull, JNull;
      isLoading, error := false, None;
      history := history + [Action.Logout];
    }

    /** `setTokens(accessToken, refreshToken)`: only the two tokens change. */
    method SetTokens(access: Json, refresh: Json)
      modifies this
      ensures State() == old(State()).(accessToken := access, refreshToken := refresh)
      ensures history == old(history) + [Action.SetTokens(access, refresh)]
    {
      accessToken, refreshToken := access, refresh;
      history := history + [Action.SetTokens(access, refresh)];
    }

    /** `useAuthStore.setState({ isLoading, error })`: a partial update of
        the two status fields. */
    method SetState(loading: bool, message: Option<string>)
      modifies this
      ensures State() == old(State()).(isLoading := loading, error := message)
      ensures history == old(history) + [Action.SetState(loading, message)]
    {
      isLoading, error := loading, message;
      history := history + [Action.SetState(loading, message)];
    }
  }
}
