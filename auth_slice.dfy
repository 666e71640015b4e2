/** `src/redux/slices/authSlice.ts`: the session state, the decisions of the `loginUser` and
    `refreshToken` thunks, and the reducers that apply their outcomes. */
module AuthSlice {
  import opened Wrappers
  import opened Sequences
  import opened Text
  import opened Storage

  /** Twenty minutes, in milliseconds. */
  const TokenLifetime: int := 20 * 60 * 1000

  const FetchUsersFailed: string := "Failed to fetch users"
  const InvalidCredentials: string := "Invalid email or password"
  const SaveTokenFailed: string := "Failed to save token"
  const LoginRequired: string := "Login Required"
  const FetchTokensFailed: string := "Failed to fetch tokens"
  const SessionExpired: string := "Session expired. Please log in again."
  const RefreshFailed: string := "Failed to refresh token"
  /** Used by `loginUser.rejected` when the action carries no message. */
  const LoginFailed: string := "Login failed"

  /** A record of the `/users` collection; credentials are compared in clear text. */
  datatype User = User(id: string, email: string, password: string)

  /** A record of the `/tokens` collection. */
  datatype TokenRecord = TokenRecord(id: string, token: string, userId: string, expiresAt: int)

  /** The requests the two thunks send to the data service. */
  datatype AuthRequest =
    | GetUsers
    | PostToken(token: string, userId: string, expiresAt: int)
    | GetTokens
    | PatchToken(id: string, token: string, expiresAt: int)

  datatype LoginPayload = LoginPayload(user: User, token: string, expiresAt: int)
  datatype RefreshPayload = RefreshPayload(token: string, expiresAt: int)

  function HasCredentials(email: string, password: string): User -> bool
  {
    (u: User) => u.email == email && u.password == password
  }

  function HasToken(token: string): TokenRecord -> bool
  {
    (t: TokenRecord) => t.token == token
  }

  /** The body of `loginUser`. `users` is the decoded `/users` response (None when it is not ok),
      `freshToken` the minted token, `now` the clock, `saveOk` whether the POST is ok. */
  function LoginUser(email: string, password: string, users: Option<seq<User>>,
                     freshToken: string, now: int, saveOk: bool): (run: ThunkRun<LoginPayload, AuthRequest>)
    ensures run.result.Err? ==> run.result.message != ""
    ensures users.None? ==> run == ThunkRun(Err(FetchUsersFailed), [GetUsers])
    ensures run.result.Ok? <==>
      users.Some? && saveOk &&
      exists i :: 0 <= i < |users.value| && users.value[i].email == email && users.value[i].password == password
    ensures (users.Some? && forall i :: 0 <= i < |users.value| ==>
               !(users.value[i].email == email && users.value[i].password == password)) ==>
      run == ThunkRun(Err(InvalidCredentials), [GetUsers])
    ensures forall i :: users.Some? && IsFirst(users.value, HasCredentials(email, password), i) ==>
      run == ThunkRun(
        if saveOk then Ok(LoginPayload(users.value[i], freshToken, now + TokenLifetime)) else Err(SaveTokenFailed),
        [GetUsers, PostToken(freshToken, users.value[i].id, now + TokenLifetime)])
    ensures run.result.Ok? ==>
      run.result.value.token == freshToken && run.result.value.expiresAt == now + TokenLifetime &&
      run.requests == [GetUsers, PostToken(freshToken, run.result.value.user.id, now + TokenLifetime)]
  {
    if users.None? then ThunkRun(Err(FetchUsersFailed), [GetUsers])
    else
      var i := FirstIndex(users.value, HasCredentials(email, password));
      if i == -1 then ThunkRun(Err(InvalidCredentials), [GetUsers])
      else
        var user := users.value[i];
        var expiresAt := now + TokenLifetime;
        var post := PostToken(freshToken, user.id, expiresAt);
        if !saveOk then ThunkRun(Err(SaveTokenFailed), [GetUsers, post])
        else ThunkRun(Ok(LoginPayload(user, freshToken, expiresAt)), [GetUsers, post])
  }

  /** The body of `refreshToken`. `currentToken` is the session's token, `tokens` the decoded
      `/tokens` response (None when it is not ok), `freshToken` the minted token, `now` and
      `mintNow` the two clock readings (expiry test, new expiry), `patchOk` whether the PATCH is ok. */
  function RefreshToken(currentToken: Option<string>, tokens: Option<seq<TokenRecord>>,
                        freshToken: string, now: int, mintNow: int, patchOk: bool): (run: ThunkRun<RefreshPayload, AuthRequest>)
    ensures run.result.Err? ==> run.result.message != ""
    ensures !Truthy(currentToken) ==> run == ThunkRun(Err(LoginRequired), [])
    ensures Truthy(currentToken) && tokens.None? ==> run == ThunkRun(Err(FetchTokensFailed), [GetTokens])
    ensures (Truthy(currentToken) && tokens.Some? &&
             forall i :: 0 <= i < |tokens.value| ==> tokens.value[i].token != currentToken.value) ==>
      run == ThunkRun(Err(SessionExpired), [GetTokens])
    ensures forall i :: Truthy(currentToken) && tokens.Some? && IsFirst(tokens.value, HasToken(currentToken.value), i) ==>
      if tokens.value[i].expiresAt < now then
        run == ThunkRun(
          if patchOk then Ok(RefreshPayload(freshToken, mintNow + TokenLifetime)) else Err(RefreshFailed),
          [GetTokens, PatchToken(tokens.value[i].id, freshToken, mintNow + TokenLifetime)])
      else
        run == ThunkRun(Ok(RefreshPayload(currentToken.value, tokens.value[i].expiresAt)), [GetTokens])
  {
    if !Truthy(currentToken) then ThunkRun(Err(LoginRequired), [])
    else if tokens.None? then ThunkRun(Err(FetchTokensFailed), [GetTokens])
    else
      var i := FirstIndex(tokens.value, HasToken(currentToken.value));
      if i == -1 then ThunkRun(Err(SessionExpired), [GetTokens])
      else
        var record := tokens.value[i];
        if record.expiresAt < now then
          var newExpiresAt := mintNow + TokenLifetime;
          var patch := PatchToken(record.id, freshToken, newExpiresAt);
          if !patchOk then ThunkRun(Err(RefreshFailed), [GetTokens, patch])
          else ThunkRun(Ok(RefreshPayload(freshToken, newExpiresAt)), [GetTokens, patch])
        else ThunkRun(Ok(RefreshPayload(currentToken.value, record.expiresAt)), [GetTokens])
  }

  // The data service's side of the two writes, as the lemmas below assume it: POST appends a
  // record under a server-chosen id; PATCH merges the new fields into every record with that id.

  function AfterPost(tokens: seq<TokenRecord>, newId: string, request: AuthRequest): seq<TokenRecord>
    requires request.PostToken?
  {
    tokens + [TokenRecord(newId, request.token, request.userId, request.expiresAt)]
  }

  function AfterPatch(tokens: seq<TokenRecord>, request: AuthRequest): seq<TokenRecord>
    requires request.PatchToken?
  {
    seq(|tokens|, i requires 0 <= i < |tokens| =>
      if tokens[i].id == request.id then tokens[i].(token := request.token, expiresAt := request.expiresAt)
      else tokens[i])
  }

  /** A refresh that found a live record wrote nothing, and refreshing again with the token it
      returned, no later than its expiry, returns the same result, whatever else is minted. */
  lemma RefreshIsIdempotentWhileLive(current: string, tokens: seq<TokenRecord>,
                                     fresh1: string, now1: int, mint1: int, patchOk1: bool,
                                     fresh2: string, now2: int, mint2: int, patchOk2: bool)
    requires RefreshToken(Some(current), Some(tokens), fresh1, now1, mint1, patchOk1).result.Ok?
    requires RefreshToken(Some(current), Some(tokens), fresh1, now1, mint1, patchOk1).requests == [GetTokens]
    requires now2 <= RefreshToken(Some(current), Some(tokens), fresh1, now1, mint1, patchOk1).result.value.expiresAt
    ensures var run := RefreshToken(Some(current), Some(tokens), fresh1, now1, mint1, patchOk1);
      run.result.value.token == current &&
      RefreshToken(Some(run.result.value.token), Some(tokens), fresh2, now2, mint2, patchOk2) == run
  {
  }

  /** After a successful login the data service holds the minted token; a refresh with it,
      before it expires, keeps it and writes nothing, provided the minted token is non-empty
      and no earlier record already carried it. */
  lemma LoginStartsLiveSession(email: string, password: string, users: seq<User>, minted: string,
                               now: int, tokens: seq<TokenRecord>, newId: string,
                               fresh2: string, now2: int, mint2: int, patchOk2: bool)
    requires LoginUser(email, password, Some(users), minted, now, true).result.Ok?
    requires minted != ""
    requires forall j :: 0 <= j < |tokens| ==> tokens[j].token != minted
    requires now2 <= now + TokenLifetime
    ensures var run := LoginUser(email, password, Some(users), minted, now, true);
      RefreshToken(Some(minted), Some(AfterPost(tokens, newId, run.requests[1])), fresh2, now2, mint2, patchOk2)
        == ThunkRun(Ok(RefreshPayload(minted, now + TokenLifetime)), [GetTokens])
  {
    var run := LoginUser(email, password, Some(users), minted, now, true);
    var table := AfterPost(tokens, newId, run.requests[1]);
    assert table[|tokens|].token == minted;
    assert IsFirst(table, HasToken(minted), |tokens|);
  }

  /** Renewing an expired record moves its expiry later, provided the second clock reading is not
      earlier than the first (an empty session token never reaches the lookup). */
  lemma RenewalExtendsExpiry(current: string, tokens: seq<TokenRecord>, i: int, minted: string,
                             now: int, mintNow: int)
    requires current != ""
    requires now <= mintNow
    requires IsFirst(tokens, HasToken(current), i)
    requires tokens[i].expiresAt < now
    ensures var run := RefreshToken(Some(current), Some(tokens), minted, now, mintNow, true);
      run.result.Ok? && run.result.value.expiresAt > tokens[i].expiresAt &&
      run.requests == [GetTokens, PatchToken(tokens[i].id, minted, run.result.value.expiresAt)]
  {
  }

  /** After a refresh renewed an expired record, the data service holds the new token; a refresh
      with it, before the new expiry, keeps it and writes nothing, provided the minted token is
      non-empty and no record already carried it. */
  lemma RenewedTokenIsLive(current: string, tokens: seq<TokenRecord>, minted: string, now: int, mint: int,
                           fresh2: string, now2: int, mint2: int, patchOk2: bool)
    requires RefreshToken(Some(current), Some(tokens), minted, now, mint, true).result.Ok?
    requires |RefreshToken(Some(current), Some(tokens), minted, now, mint, true).requests| == 2
    requires minted != ""
    requires forall j :: 0 <= j < |tokens| ==> tokens[j].token != minted
    requires now2 <= mint + TokenLifetime
    ensures var run := RefreshToken(Some(current), Some(tokens), minted, now, mint, true);
      run.result.value == RefreshPayload(minted, mint + TokenLifetime) &&
      RefreshToken(Some(minted), Some(AfterPatch(tokens, run.requests[1])), fresh2, now2, mint2, patchOk2)
        == ThunkRun(Ok(RefreshPayload(minted, mint + TokenLifetime)), [GetTokens])
  {
    var run := RefreshToken(Some(current), Some(tokens), minted, now, mint, true);
    var i := FirstIndex(tokens, HasToken(current));
    assert i != -1;
    var id := tokens[i].id;
    assert run.requests[1] == PatchToken(id, minted, mint + TokenLifetime);
    var table := AfterPatch(tokens, run.requests[1]);
    var k := FirstIndex(tokens, (t: TokenRecord) => t.id == id);
    assert k != -1 && k <= i;
    assert table[k].token == minted && table[k].expiresAt == mint + TokenLifetime;
    forall j | 0 <= j < k
      ensures table[j].token != minted
    {
      assert table[j] == tokens[j];
    }
    assert IsFirst(table, HasToken(minted), k);
  }

  /** The observable fields of the slice. */
  datatype AuthState = AuthState(user: Option<User>, token: Option<string>, isAuthenticated: bool,
                                 loading: bool, error: Option<string>)

  /** `initialState`, built from the value persisted under 'token'. */
  function InitialState(persisted: Option<string>): (s: AuthState)
    ensures s.token == persisted
    ensures s.isAuthenticated <==> persisted.Some? && |persisted.value| > 0
    ensures s.user == None && !s.loading && s.error == None
  {
    AuthState(None, persisted, Truthy(persisted), false, None)
  }

  /** The slice's draft state together with the browser storage it writes through to. */
  class AuthStore {
    var user: Option<User>
    var token: Option<string>
    var isAuthenticated: bool
    var loading: bool
    var error: Option<string>
    const storage: LocalStorage

    function State(): AuthState
      reads this
    {
      AuthState(user, token, isAuthenticated, loading, error)
    }

    /** The persisted 'token' entry mirrors the state's token, an authenticated session
        always holds a token, and a non-empty token always means an authenticated session. */
    ghost predicate Valid()
      reads this, storage
    {
      storage.GetItem(TokenKey) == token && (isAuthenticated ==> token.Some?) &&
      (Truthy(token) ==> isAuthenticated)
    }

    constructor (storage: LocalStorage)
      ensures this.storage == storage
      ensures State() == InitialState(storage.GetItem(TokenKey))
      ensures Valid()
    {
      this.storage := storage;
      user := None;
      token := storage.GetItem(TokenKey);
      isAuthenticated := Truthy(storage.GetItem(TokenKey));
      loading := false;
      error := None;
    }

    /** `logout`: clears the session and the persisted token; loading and error are kept. */
    method Logout()
      requires Valid()
      modifies this, storage
      ensures Valid()
      ensures State() == old(State()).(user := None, token := None, isAuthenticated := false)
      ensures storage.entries == old(storage.entries) - {TokenKey}
    {
      user := None;
      token := None;
      isAuthenticated := false;
      storage.RemoveItem(TokenKey);
    }

    /** `clearAuthError`. */
    method ClearAuthError()
      requires Valid()
      modifies this
      ensures Valid()
      ensures State() == old(State()).(error := None)
    {
      error := None;
    }

    /** `loginUser.pending` and `refreshToken.pending`, which are the same case. */
    method Pending()
      requires Valid()
      modifies this
      ensures Valid()
      ensures State() == old(State()).(loading := true, error := None)
    {
      loading := true;
      error := None;
    }

    /** `loginUser.fulfilled`: adopts the user and token and persists the token. */
    method LoginFulfilled(payload: LoginPayload)
      requires Valid()
      modifies this, storage
      ensures Valid()
      ensures State() == old(State()).(loading := false, user := Some(payload.user),
                                       token := Some(payload.token), isAuthenticated := true)
      ensures storage.entries == old(storage.entries)[TokenKey := payload.token]
    {
      loading := false;
      user := Some(payload.user);
      token := Some(payload.token);
      isAuthenticated := true;
      storage.SetItem(TokenKey, payload.token);
    }

    /** `loginUser.rejected`: only loading and error change; the session is kept. */
    method LoginRejected(message: Option<string>)
      requires Valid()
      modifies this
      ensures Valid()
      ensures State() == old(State()).(loading := false, error := Some(OrElse(message, LoginFailed)))
    {
      loading := false;
      error := Some(OrElse(message, LoginFailed));
    }

    /** `refreshToken.fulfilled`: adopts the token and persists it; the user is untouched. */
    method RefreshFulfilled(payload: RefreshPayload)
      requires Valid()
      modifies this, storage
      ensures Valid()
      ensures State() == old(State()).(loading := false, isAuthenticated := true, token := Some(payload.token))
      ensures storage.entries == old(storage.entries)[TokenKey := payload.token]
    {
      loading := false;
      isAuthenticated := true;
      token := Some(payload.token);
      storage.SetItem(TokenKey, payload.token);
    }

    /** `refreshToken.rejected`: ends the session and removes the persisted token. */
    method RefreshRejected(message: Option<string>)
      requires Valid()
      modifies this, storage
      ensures Valid()
      ensures State() == old(State()).(loading := false, isAuthenticated := false, token := None,
                                       error := Some(OrElse(message, SessionExpired)))
      ensures storage.entries == old(storage.entries) - {TokenKey}
    {
      loading := false;
      isAuthenticated := false;
      token := None;
      error := Some(OrElse(message, SessionExpired));
      storage.RemoveItem(TokenKey);
    }

    /** Dispatching `loginUser`: pending, then the thunk, then fulfilled or rejected with the
        thrown message. */
    method DispatchLogin(email: string, password: string, users: Option<seq<User>>,
                         freshToken: string, now: int, saveOk: bool) returns (run: ThunkRun<LoginPayload, AuthRequest>)
      requires Valid()
      modifies this, storage
      ensures Valid()
      ensures run == LoginUser(email, password, users, freshToken, now, saveOk)
      ensures run.result.Ok? ==>
        State() == old(State()).(user := Some(run.result.value.user), token := Some(freshToken),
                                 isAuthenticated := true, loading := false, error := None) &&
        storage.entries == old(storage.entries)[TokenKey := freshToken]
      ensures run.result.Err? ==>
        State() == old(State()).(loading := false, error := Some(run.result.message)) &&
        storage.entries == old(storage.entries)
    {
      Pending();
      run := LoginUser(email, password, users, freshToken, now, saveOk);
      if run.result.Ok? {
        LoginFulfilled(run.result.value);
      } else {
        LoginRejected(Some(run.result.message));
      }
    }

    /** The part of dispatching `refreshToken` after pending: the thunk, reading the
        session's token, then fulfilled or rejected with the thrown message. */
    method CompleteRefresh(tokens: Option<seq<TokenRecord>>, freshToken: string, now: int,
                           mintNow: int, patchOk: bool) returns (run: ThunkRun<RefreshPayload, AuthRequest>)
      requires Valid()
      modifies this, storage
      ensures Valid()
      ensures run == RefreshToken(old(token), tokens, freshToken, now, mintNow, patchOk)
      ensures run.result.Ok? ==>
        State() == old(State()).(token := Some(run.result.value.token), isAuthenticated := true, loading := false) &&
        storage.entries == old(storage.entries)[TokenKey := run.result.value.token]
      ensures run.result.Err? ==>
        State() == old(State()).(token := None, isAuthenticated := false, loading := false,
                                 error := Some(run.result.message)) &&
        storage.entries == old(storage.entries) - {TokenKey}
    {
      run := RefreshToken(token, tokens, freshToken, now, mintNow, patchOk);
      if run.result.Ok? {
        RefreshFulfilled(run.result.value);
      } else {
        RefreshRejected(Some(run.result.message));
      }
    }

    /** Dispatching `refreshToken`: pending, then `CompleteRefresh`. */
    method DispatchRefresh(tokens: Option<seq<TokenRecord>>, freshToken: string, now: int,
                           mintNow: int, patchOk: bool) returns (run: ThunkRun<RefreshPayload, AuthRequest>)
      requires Valid()
      modifies this, storage
      ensures Valid()
      ensures run == RefreshToken(old(token), tokens, freshToken, now, mintNow, patchOk)
      ensures run.result.Ok? ==>
        State() == old(State()).(token := Some(run.result.value.token), isAuthenticated := true,
                                 loading := false, error := None) &&
        storage.entries == old(storage.entries)[TokenKey := run.result.value.token]
      ensures run.result.Err? ==>
        State() == old(State()).(token := None, isAuthenticated := false, loading := false,
                                 error := Some(run.result.message)) &&
        storage.entries == old(storage.entries) - {TokenKey}
    {
      Pending();
      run := CompleteRefresh(tokens, freshToken, now, mintNow, patchOk);
    }

    /** Not a reducer of its own: the composition of `logout` with a refresh dispatched right
        after it, stating the property the two together promise. The refresh fails with "Login Required" before sending
        any request, whatever the data service holds. */
    method LogoutThenRefresh(tokens: Option<seq<TokenRecord>>, freshToken: string, now: int,
                             mintNow: int, patchOk: bool) returns (run: ThunkRun<RefreshPayload, AuthRequest>)
      requires Valid()
      modifies this, storage
      ensures Valid()
      ensures run == ThunkRun(Err(LoginRequired), [])
      ensures State() == old(State()).(user := None, token := None, isAuthenticated := false,
                                       loading := false, error := Some(LoginRequired))
      ensures storage.entries == old(storage.entries) - {TokenKey}
    {
      Logout();
      run := DispatchRefresh(tokens, freshToken, now, mintNow, patchOk);
    }
  }
}
