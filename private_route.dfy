/** `src/layouts/PrivateRoute.tsx`: the guard in front of the protected routes. */
module PrivateRoute {
  import opened Wrappers
  import opened Storage
  import opened AuthSlice

  /** What the guard renders: the spinner, the protected child routes (`<Outlet/>`), or a
      `<Navigate>` to a path, replacing the history entry or not. */
  datatype Screen = Spinner | ProtectedContent | Redirect(to: string, replace: bool)

  const LoginPath: string := "/login"

  /** The render decision over the session's `loading` and `isAuthenticated` flags. The three
      outcomes are mutually exclusive and cover every state; the redirect keeps no return path. */
  function Gate(loading: bool, isAuthenticated: bool): (screen: Screen)
    ensures screen == Spinner <==> loading
    ensures screen == ProtectedContent <==> !loading && isAuthenticated
    ensures screen == Redirect(LoginPath, true) <==> !loading && !isAuthenticated
  {
    if loading then Spinner
    else if isAuthenticated then ProtectedContent
    else Redirect(LoginPath, true)
  }

  /** Mounting the guard: it renders once from the current state, and the effect of that first
      commit dispatches `refreshToken` (no local expiry check), so the store ends in the refresh's
      outcome. When that first render is the login redirect, navigating away unmounts the guard
      and it renders nothing more. Otherwise the pending case shows the spinner, and once the refresh
      settles the guard shows the protected content if the refresh was fulfilled, or the login
      redirect if it was rejected. */
  method Mount(store: AuthStore, tokens: Option<seq<TokenRecord>>, freshToken: string, now: int,
               mintNow: int, patchOk: bool) returns (renders: seq<Screen>, run: ThunkRun<RefreshPayload, AuthRequest>)
    requires store.Valid()
    modifies store, store.storage
    ensures store.Valid()
    ensures run == RefreshToken(old(store.token), tokens, freshToken, now, mintNow, patchOk)
    ensures run.result.Ok? ==>
      store.State() == old(store.State()).(token := Some(run.result.value.token), isAuthenticated := true,
                                           loading := false, error := None) &&
      store.storage.entries == old(store.storage.entries)[TokenKey := run.result.value.token]
    ensures run.result.Err? ==>
      store.State() == old(store.State()).(token := None, isAuthenticated := false, loading := false,
                                           error := Some(run.result.message)) &&
      store.storage.entries == old(store.storage.entries) - {TokenKey}
    ensures renders ==
      if Gate(old(store.loading), old(store.isAuthenticated)).Redirect? then
        [Redirect(LoginPath, true)]
      else
        [Gate(old(store.loading), old(store.isAuthenticated)), Spinner,
         if run.result.Ok? then ProtectedContent else Redirect(LoginPath, true)]
  {
    var first := Gate(store.loading, store.isAuthenticated);
    store.Pending();
    var second := Gate(store.loading, store.isAuthenticated);
    run := store.CompleteRefresh(tokens, freshToken, now, mintNow, patchOk);
    var third := Gate(store.loading, store.isAuthenticated);
    if first.Redirect? {
      renders := [first];
    } else {
      renders := [first, second, third];
    }
  }
}
