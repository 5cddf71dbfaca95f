/** What the session transitions of module AuthModel guarantee, alone and in sequence. */
module AuthProperties {
  import opened AuthModel

  // ---------------------------------------------------------------------------------------
  // The timer queue

  /** Draining the queue touches neither the storage nor the current user, and only ever adds
      user requests after the ones already outstanding. */
  lemma {:induction false} DrainedKeeps(s: Session)
    ensures Drained(s).store == s.store
    ensures Drained(s).currentUser == s.currentUser
    ensures Drained(s).loginsInFlight == s.loginsInFlight
    ensures s.requests <= Drained(s).requests
    decreases |s.pending|
  {
    if s.pending != [] {
      var t := TimerFired(s);
      DrainedKeeps(t);
      assert s.requests <= t.requests;
    }
  }

  /** When the last queued callback publishes the default status, that is the status once the
      queue has drained: callbacks run in the order they were queued. */
  lemma {:induction false} DrainedEndsWithDefault(s: Session)
    requires s.pending != [] && s.pending[|s.pending| - 1] == PublishDefault
    ensures Drained(s).authStatus == DefaultAuthStatus
    decreases |s.pending|
  {
    var t := TimerFired(s);
    if t.pending != [] {
      assert t.pending[|t.pending| - 1] == s.pending[|s.pending| - 1];
      DrainedEndsWithDefault(t);
    }
  }

  /** A queue holding only default publications changes nothing but the queue once the status
      is already the default. */
  lemma {:induction false} DrainedDefaultsOnly(s: Session)
    requires s.authStatus == DefaultAuthStatus
    requires forall i :: 0 <= i < |s.pending| ==> s.pending[i] == PublishDefault
    ensures Drained(s) == s.(pending := [])
    decreases |s.pending|
  {
    if s.pending != [] {
      DrainedDefaultsOnly(TimerFired(s));
    }
  }

  // ---------------------------------------------------------------------------------------
  // logout

  /** After `logout(clearToken)` and the next turns of the event loop, the status is the
      default one, the current user is the one before, and the token is gone exactly when
      `clearToken` was set. */
  lemma LogoutEventuallyDefault(s: Session, clearToken: bool)
    ensures Drained(LoggedOut(s, clearToken)).authStatus == DefaultAuthStatus
    ensures Drained(LoggedOut(s, clearToken)).currentUser == s.currentUser
    ensures clearToken ==> TokenOf(Drained(LoggedOut(s, clearToken)).store) == ""
    ensures !clearToken ==> Drained(LoggedOut(s, clearToken)).store == s.store
  {
    var l := LoggedOut(s, clearToken);
    DrainedEndsWithDefault(l);
    DrainedKeeps(l);
  }

  /** A second logout after the first has taken effect leaves the same state, except that a
      hard second logout also removes a token the first one kept. */
  lemma LogoutIdempotent(s: Session, first: bool, second: bool)
    ensures var t := Drained(LoggedOut(s, first));
            Drained(LoggedOut(t, second)) == t.(store := if second then t.store - {JwtKey} else t.store)
  {
    var t := Drained(LoggedOut(s, first));
    LogoutEventuallyDefault(s, first);
    DrainedDefaultsOnly(LoggedOut(t, second));
  }

  /** Any number of logouts, taking effect one after the other, end in the default status with
      the current user untouched. */
  lemma {:induction false} RepeatedLogouts(s: Session, clears: seq<bool>)
    requires clears != []
    ensures RunLogouts(s, clears).authStatus == DefaultAuthStatus
    ensures RunLogouts(s, clears).currentUser == s.currentUser
    decreases |clears|
  {
    LogoutEventuallyDefault(s, clears[0]);
    if |clears| > 1 {
      RepeatedLogouts(Drained(LoggedOut(s, clears[0])), clears[1..]);
    }
  }

  function RunLogouts(s: Session, clears: seq<bool>): Session
    decreases |clears|
  {
    if clears == [] then s else RunLogouts(Drained(LoggedOut(s, clears[0])), clears[1..])
  }

  // ---------------------------------------------------------------------------------------
  // Construction

  /** An absent, empty or expired token makes construction a hard logout: the token is gone at
      once, and the default status is published on the next turn. */
  lemma ConstructionHardLogout(deps: Collaborators, store: map<string, string>, nowMs: int)
    requires TokenOf(store) == "" ||
             (deps.decode(TokenOf(store)).Payload? && Expired(nowMs, deps.decode(TokenOf(store)).claims.exp))
    ensures Constructed(deps, store, nowMs).Returned?
    ensures var s := Constructed(deps, store, nowMs).value;
            JwtKey !in s.store && s.pending == [PublishDefault] &&
            Drained(s).authStatus == DefaultAuthStatus && Drained(s).currentUser == EmptyUser &&
            Drained(s).requests == []
  {
    var s := Constructed(deps, store, nowMs).value;
    assert s == LoggedOut(Initial(store), true);
    assert Drained(s) == TimerFired(s);
  }

  /** The expiry boundary is inclusive: a token whose `exp` is exactly the current second, in
      milliseconds, is treated as expired at construction. */
  lemma TokenExpiringNowIsExpired(deps: Collaborators, store: map<string, string>, expSeconds: int)
    requires TokenOf(store) != "" && deps.decode(TokenOf(store)).Payload?
    requires deps.decode(TokenOf(store)).claims.exp == Seconds(expSeconds)
    ensures Constructed(deps, store, expSeconds * 1000).Returned?
    ensures var s := Constructed(deps, store, expSeconds * 1000).value;
            JwtKey !in s.store && Drained(s).authStatus == DefaultAuthStatus
  {
    ConstructionHardLogout(deps, store, expSeconds * 1000);
  }

  /** One millisecond earlier the same token is still valid and is resumed. */
  lemma TokenBeforeExpiryIsResumed(deps: Collaborators, store: map<string, string>, expSeconds: int)
    requires TokenOf(store) != "" && deps.decode(TokenOf(store)).Payload?
    requires deps.decode(TokenOf(store)).claims.exp == Seconds(expSeconds)
    ensures Constructed(deps, store, expSeconds * 1000 - 1).Returned?
    ensures var s := Constructed(deps, store, expSeconds * 1000 - 1).value;
            s.store == store && s.authStatus == deps.transformJwtToken(deps.decode(TokenOf(store)).claims)
  {
    ConstructionResumes(deps, store, expSeconds * 1000 - 1);
  }

  /** A token without an `exp` claim never expires: the comparison with NaN is false. */
  lemma TokenWithoutExpIsResumed(deps: Collaborators, store: map<string, string>, nowMs: int)
    requires TokenOf(store) != "" && deps.decode(TokenOf(store)).Payload?
    requires deps.decode(TokenOf(store)).claims.exp == Missing
    ensures Constructed(deps, store, nowMs).Returned?
    ensures Constructed(deps, store, nowMs).value.store == store
    ensures Constructed(deps, store, nowMs).value.pending == [SubscribeResume]
  {
    ConstructionResumes(deps, store, nowMs);
  }

  /** A token that decodes and has not expired is resumed: its status is published before the
      constructor returns with the storage untouched, and only the resume subscription waits for
      the next turn, where it requests the user when that status is authenticated. */
  lemma ConstructionResumes(deps: Collaborators, store: map<string, string>, nowMs: int)
    requires TokenOf(store) != "" && deps.decode(TokenOf(store)).Payload?
    requires !Expired(nowMs, deps.decode(TokenOf(store)).claims.exp)
    ensures Constructed(deps, store, nowMs).Returned?
    ensures var s := Constructed(deps, store, nowMs).value;
            var status := deps.transformJwtToken(deps.decode(TokenOf(store)).claims);
            s.store == store && s.authStatus == status && s.currentUser == EmptyUser &&
            s.pending == [SubscribeResume] && !s.resumeActive && s.requests == [] &&
            Drained(s).authStatus == status && Drained(s).resumeActive &&
            Drained(s).requests ==
              (if status.isAuthenticated then [UserRequest(ResumePipeline, TokenOf(store))] else [])
  {
    var s := Constructed(deps, store, nowMs).value;
    var t := TimerFired(s);
    assert Drained(s) == Drained(t) == t;
  }

  // ---------------------------------------------------------------------------------------
  // login

  /** A successful login stores the provider's token, publishes the status of that very token
      and leaves the timer queue and the current user alone; when the status is authenticated
      the login pipeline (and the resume pipeline, while subscribed) request the user with it. */
  lemma LoginSuccess(deps: Collaborators, s: Session, t: string)
    requires s.loginsInFlight > 0 && deps.decode(t).Payload?
    ensures var r := LoginCompleted(deps, s, AccessToken(t));
            TokenOf(r.store) == t && r.store == s.store[JwtKey := t] &&
            deps.decode(TokenOf(r.store)) == deps.decode(t) &&
            r.authStatus == deps.transformJwtToken(deps.decode(t).claims) &&
            r.currentUser == s.currentUser && r.pending == s.pending &&
            r.loginsInFlight == s.loginsInFlight - 1 &&
            r.requests == s.requests +
              (if s.resumeActive && r.authStatus.isAuthenticated then [UserRequest(ResumePipeline, t)] else []) +
              (if r.authStatus.isAuthenticated then [UserRequest(LoginPipeline, t)] else [])
  {
  }

  /** The provider fails: the error callback's soft logout queues the default status and keeps
      the storage as it is. */
  lemma LoginProviderFailure(deps: Collaborators, s: Session)
    requires s.loginsInFlight > 0
    ensures var r := LoginCompleted(deps, s, ProviderFailed);
            r.store == s.store && r.authStatus == s.authStatus &&
            r.pending == s.pending + [PublishDefault] &&
            Drained(r).authStatus == DefaultAuthStatus && Drained(r).store == s.store
  {
    var r := LoginCompleted(deps, s, ProviderFailed);
    DrainedEndsWithDefault(r);
    DrainedKeeps(r);
  }

  /** The provider's token does not decode: it was stored before the decode threw, and the soft
      logout of the error callback does not remove it, so it outlives the failed login. */
  lemma LoginDecodeFailureKeepsToken(deps: Collaborators, s: Session, t: string)
    requires s.loginsInFlight > 0 && deps.decode(t).InvalidToken?
    ensures var r := LoginCompleted(deps, s, AccessToken(t));
            TokenOf(r.store) == t && r.authStatus == s.authStatus &&
            r.pending == s.pending + [PublishDefault] &&
            TokenOf(Drained(r).store) == t && Drained(r).authStatus == DefaultAuthStatus
  {
    var r := LoginCompleted(deps, s, AccessToken(t));
    DrainedEndsWithDefault(r);
    DrainedKeeps(r);
  }

  /** A login whose provider fails, from any state, leaves no token behind and ends in the
      default status once the queued callbacks have run. */
  lemma FailedLoginLeavesCleanState(deps: Collaborators, s: Session)
    ensures var r := Drained(LoginCompleted(deps, LoginStarted(s), ProviderFailed));
            TokenOf(r.store) == "" && r.authStatus == DefaultAuthStatus
  {
    var c := LoginCompleted(deps, LoginStarted(s), ProviderFailed);
    DrainedEndsWithDefault(c);
    DrainedKeeps(c);
  }

  /** Starting the service with nothing stored and then logging in with a token that decodes
      gives the status of that token and `getToken()` returns it. */
  lemma FreshStartLoginStatus(deps: Collaborators, nowMs: int, t: string)
    requires deps.decode(t).Payload?
    ensures Constructed(deps, map[], nowMs).Returned?
    ensures var s0 := Drained(Constructed(deps, map[], nowMs).value);
            var r := Drained(LoginCompleted(deps, LoginStarted(s0), AccessToken(t)));
            s0.authStatus == DefaultAuthStatus &&
            r.authStatus == deps.transformJwtToken(deps.decode(t).claims) && TokenOf(r.store) == t
  {
    ConstructionHardLogout(deps, map[], nowMs);
    var s0 := Drained(Constructed(deps, map[], nowMs).value);
    LoginSuccess(deps, LoginStarted(s0), t);
  }

  /** `login` does not publish anything before the provider answers, so a session that was
      authenticated stays authenticated with no token stored in between. */
  lemma LoginStartLeavesStatusWithoutToken(s: Session)
    requires s.authStatus.isAuthenticated
    ensures LoginStarted(s).authStatus.isAuthenticated && TokenOf(LoginStarted(s).store) == ""
  {
  }

  // ---------------------------------------------------------------------------------------
  // All events

  /** The things that can happen to a running service. */
  datatype Event =
    | LogoutCall(clearToken: bool)
    | LoginCall
    | ProviderAnswer(reply: ProviderReply)
    | UserAnswer(index: nat, userReply: UserReply)
    | TimerTick

  predicate Enabled(s: Session, e: Event) {
    match e
    case ProviderAnswer(_) => s.loginsInFlight > 0
    case UserAnswer(k, _) => k < |s.requests|
    case TimerTick => s.pending != []
    case _ => true
  }

  function Apply(deps: Collaborators, s: Session, e: Event): Session
    requires Enabled(s, e)
  {
    match e
    case LogoutCall(c) => LoggedOut(s, c)
    case LoginCall => LoginStarted(s)
    case ProviderAnswer(reply) => LoginCompleted(deps, s, reply)
    case UserAnswer(k, reply) => UserArrived(s, k, reply)
    case TimerTick => TimerFired(s)
  }

  /** The user is requested only on the publication of an authenticated status: any event that
      issues requests leaves an authenticated status published, appends the requests after the
      outstanding ones, and each carries the token stored at that moment. */
  lemma RequestsOnlyWhenAuthenticated(deps: Collaborators, s: Session, e: Event)
    requires Enabled(s, e)
    ensures var r := Apply(deps, s, e);
            |r.requests| > |s.requests| ==>
              r.authStatus.isAuthenticated && s.requests <= r.requests &&
              forall i :: |s.requests| <= i < |r.requests| ==> r.requests[i].token == TokenOf(r.store)
  {
  }

  /** The resume subscription is taken at most once (the constructor queues it once), and a
      resume request is outstanding only while that subscription is live. */
  ghost predicate Wf(s: Session) {
    multiset(s.pending)[SubscribeResume] + (if s.resumeActive then 1 else 0) <= 1 &&
    (forall q :: q in s.requests && q.origin == ResumePipeline ==> s.resumeActive)
  }

  lemma ConstructionEstablishesWf(deps: Collaborators, store: map<string, string>, nowMs: int)
    requires Constructed(deps, store, nowMs).Returned?
    ensures Wf(Constructed(deps, store, nowMs).value)
  {
  }

  lemma EventPreservesWf(deps: Collaborators, s: Session, e: Event)
    requires Enabled(s, e) && Wf(s)
    ensures Wf(Apply(deps, s, e))
  {
    match e
    case TimerTick =>
      assert s.pending == [s.pending[0]] + s.pending[1..];
    case UserAnswer(k, reply) =>
      var rest := s.requests[..k] + s.requests[k + 1..];
      assert forall q :: q in rest ==> q in s.requests;
    case _ =>
  }
}
