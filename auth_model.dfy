/** Values and pure transitions of the client-side JWT session kept by AuthJwtService.

    The whole observable state of one service instance is a `Session`: the persisted key-value
    storage, the current values of the two behaviour subjects, the queue of `setTimeout(..., 0)`
    callbacks not yet run, whether the resume pipeline is subscribed, the outstanding
    `getCurrentUser()` requests and the number of `authProvider` calls still unanswered.
    Each function below is one transition of that state; the class in module AuthJwt performs
    the same transitions in place.
 */
module AuthModel {

  /** Storage key of the raw token. */
  const JwtKey: string := "jwt"

  /** The application's role enumeration; only `None` is fixed by the service. */
  datatype Role = None | Granted(name: string)

  datatype AuthStatus = AuthStatus(isAuthenticated: bool, userRole: Role, userId: string)

  /** `defaultAuthStatus`: not authenticated, no role, empty user id. */
  const DefaultAuthStatus: AuthStatus := AuthStatus(false, None, "")

  /** A user profile, identified by its id; the rest of the profile is opaque here. */
  datatype User = User(id: string, profile: map<string, string>)

  /** `new User()`: the empty profile, told apart from any real one by its empty id. */
  const EmptyUser: User := User("", map[])

  /** The `exp` claim in seconds since the epoch, or its absence. */
  datatype Exp = Seconds(seconds: int) | Missing

  datatype Claims = Claims(exp: Exp, other: map<string, string>)

  /** What `decode` (jwt-decode) gives for a string: the payload, or a thrown InvalidTokenError. */
  datatype Decoded = Payload(claims: Claims) | InvalidToken

  datatype Failure = InvalidTokenError | ProviderError | FetchError

  /** Normal return with a value, or an exception that nothing in the service catches. */
  datatype Outcome<T> = Returned(value: T) | Threw(error: Failure)

  /** The collaborators whose code is not part of this model: the token decoder and the
      subclass's `transformJwtToken`. Both are deterministic. */
  datatype Collaborators = Collaborators(decode: string -> Decoded, transformJwtToken: Claims -> AuthStatus)

  /** A callback queued with `setTimeout(..., 0)`. */
  datatype Task =
    | PublishDefault   // `authStatus$.next(defaultAuthStatus)` queued by logout
    | SubscribeResume  // `resumeCurrentUser$.subscribe()` queued by the constructor

  /** Which subscription asked for the user: the resume pipeline or one login pipeline. */
  datatype Origin = ResumePipeline | LoginPipeline

  /** An outstanding `getCurrentUser()` call, with the token stored when it was issued. */
  datatype UserRequest = UserRequest(origin: Origin, token: string)

  /** What `authProvider(email, password)` eventually emits. */
  datatype ProviderReply = AccessToken(accessToken: string) | ProviderFailed

  /** What `getCurrentUser()` eventually emits. */
  datatype UserReply = Fetched(user: User) | FetchFailed

  datatype Session = Session(
    store: map<string, string>,
    authStatus: AuthStatus,
    currentUser: User,
    pending: seq<Task>,
    resumeActive: bool,
    requests: seq<UserRequest>,
    loginsInFlight: nat)

  /** The state right after the field initialisers ran, over the persisted storage. */
  function Initial(store: map<string, string>): Session {
    Session(store, DefaultAuthStatus, EmptyUser, [], false, [], 0)
  }

  /** `getItem('jwt') ?? ''`. */
  function TokenOf(store: map<string, string>): string {
    if JwtKey in store then store[JwtKey] else ""
  }

  /** `Date.now() >= payload.exp * 1000`. A missing `exp` makes the product NaN, and a
      comparison with NaN is false, so such a token never counts as expired. */
  function Expired(nowMs: int, exp: Exp): bool {
    match exp
    case Seconds(s) => nowMs >= s * 1000
    case Missing => false
  }

  /** `hasExpiredToken()`: an empty or absent token is expired; otherwise the payload decides,
      and a token that does not decode throws. */
  function ExpiryCheck(deps: Collaborators, store: map<string, string>, nowMs: int): Outcome<bool> {
    var jwt := TokenOf(store);
    if jwt != "" then
      match deps.decode(jwt)
      case Payload(c) => Returned(Expired(nowMs, c.exp))
      case InvalidToken => Threw(InvalidTokenError)
    else
      Returned(true)
  }

  /** `getAuthStatusFromToken()`: decode the stored token and transform its payload. */
  function StatusFromToken(deps: Collaborators, store: map<string, string>): Outcome<AuthStatus> {
    match deps.decode(TokenOf(store))
    case Payload(c) => Returned(deps.transformJwtToken(c))
    case InvalidToken => Threw(InvalidTokenError)
  }

  /** The resume pipeline's reaction to a value of `authStatus$`: while subscribed, an
      authenticated status passes the filter and issues a `getCurrentUser()` request. */
  function ResumeReaction(s: Session, status: AuthStatus): (r: Session)
    ensures s.requests <= r.requests  // earlier requests stay, in order
    ensures |r.requests| > |s.requests| <==> s.resumeActive && status.isAuthenticated
    ensures |r.requests| <= |s.requests| + 1  // one request per publication at most
    ensures forall i :: |s.requests| <= i < |r.requests| ==>
              r.requests[i] == UserRequest(ResumePipeline, TokenOf(s.store))
    ensures r.(requests := s.requests) == s
  {
    if s.resumeActive && status.isAuthenticated then
      s.(requests := s.requests + [UserRequest(ResumePipeline, TokenOf(s.store))])
    else
      s
  }

  /** `authStatus$.next(status)`: the subject takes the new value and its live subscribers react. */
  function Published(s: Session, status: AuthStatus): (r: Session)
    ensures r.authStatus == status
    ensures r.store == s.store && r.currentUser == s.currentUser && r.pending == s.pending
    ensures r.resumeActive == s.resumeActive && r.loginsInFlight == s.loginsInFlight
    ensures s.requests <= r.requests  // earlier requests stay, in order
    ensures |r.requests| > |s.requests| <==> s.resumeActive && status.isAuthenticated
  {
    ResumeReaction(s.(authStatus := status), status)
  }

  /** `logout(clearToken)`: remove the token when asked, and queue the publication of the
      default status; nothing else, the current user included, changes. */
  function LoggedOut(s: Session, clearToken: bool): (r: Session)
    ensures clearToken ==> JwtKey !in r.store && r.store == s.store - {JwtKey}
    ensures !clearToken ==> r.store == s.store
    ensures r.pending == s.pending + [PublishDefault]
    ensures r.authStatus == s.authStatus && r.currentUser == s.currentUser
    ensures r.requests == s.requests && r.resumeActive == s.resumeActive
    ensures r.loginsInFlight == s.loginsInFlight
  {
    var store := if clearToken then s.store - {JwtKey} else s.store;
    s.(store := store, pending := s.pending + [PublishDefault])
  }

  /** The constructor body over the initial state: a hard logout for an absent, empty or
      expired token; otherwise publish the token's status and queue the resume subscription.
      A stored token that does not decode makes the constructor throw. */
  function Constructed(deps: Collaborators, store: map<string, string>, nowMs: int): (r: Outcome<Session>)
    ensures r.Threw? <==> TokenOf(store) != "" && deps.decode(TokenOf(store)).InvalidToken?
    ensures r.Returned? ==> r.value.currentUser == EmptyUser && r.value.requests == [] &&
                            !r.value.resumeActive && r.value.loginsInFlight == 0
  {
    var s := Initial(store);
    match ExpiryCheck(deps, store, nowMs)
    case Threw(e) => Threw(e)
    case Returned(true) => Returned(LoggedOut(s, true))
    case Returned(false) =>
      match StatusFromToken(deps, store)
      case Threw(e) => Threw(e)
      case Returned(status) =>
        var p := Published(s, status);
        Returned(p.(pending := p.pending + [SubscribeResume]))
  }

  /** The synchronous part of `login`: remove the token, then call the provider. */
  function LoginStarted(s: Session): (r: Session)
    ensures JwtKey !in r.store && r.store == s.store - {JwtKey}
    ensures r.loginsInFlight == s.loginsInFlight + 1
    ensures r.authStatus == s.authStatus && r.currentUser == s.currentUser && r.pending == s.pending
    ensures r.requests == s.requests && r.resumeActive == s.resumeActive
  {
    s.(store := s.store - {JwtKey}, loginsInFlight := s.loginsInFlight + 1)
  }

  /** The login pipeline once the provider answers: store the token, decode it, publish its
      status and, when authenticated, request the user. A provider failure or a token that does
      not decode ends in the error callback, which performs a soft logout. */
  function LoginCompleted(deps: Collaborators, s: Session, reply: ProviderReply): (r: Session)
    requires s.loginsInFlight > 0
    ensures reply.AccessToken? ==> r.store == s.store[JwtKey := reply.accessToken]
    ensures reply.ProviderFailed? ==> r.store == s.store && r.pending == s.pending + [PublishDefault]
    ensures r.currentUser == s.currentUser && r.loginsInFlight == s.loginsInFlight - 1
    ensures s.requests <= r.requests
  {
    var s1 := s.(loginsInFlight := s.loginsInFlight - 1);
    match reply
    case ProviderFailed => LoggedOut(s1, false)
    case AccessToken(t) =>
      var s2 := s1.(store := s1.store[JwtKey := t]);
      match deps.decode(t)
      case InvalidToken => LoggedOut(s2, false)
      case Payload(c) =>
        var status := deps.transformJwtToken(c);
        var s3 := Published(s2, status);
        if status.isAuthenticated then
          s3.(requests := s3.requests + [UserRequest(LoginPipeline, TokenOf(s3.store))])
        else
          s3
  }

  /** The requests that are left once the resume pipeline has ended: the login ones, in order. */
  function LoginRequests(rs: seq<UserRequest>): (r: seq<UserRequest>)
    ensures r == rs || |r| < |rs|
    ensures forall q :: q in r <==> q in rs && q.origin == LoginPipeline
    ensures forall q :: multiset(r)[q] == (if q.origin == LoginPipeline then multiset(rs)[q] else 0)
  {
    if rs == [] then []
    else
      assert rs == [rs[0]] + rs[1..];
      (if rs[0].origin == LoginPipeline then [rs[0]] else []) + LoginRequests(rs[1..])
  }

  /** The answer to request `k` arrives. A user is published to `currentUser$`. A failure on a
      login pipeline reaches its error callback (soft logout); a failure on the resume pipeline
      ends that subscription, dropping its other outstanding requests. */
  function UserArrived(s: Session, k: nat, reply: UserReply): (r: Session)
    requires k < |s.requests|
    ensures reply.Fetched? ==> r.currentUser == reply.user && r.authStatus == s.authStatus &&
                               r.pending == s.pending && r.resumeActive == s.resumeActive
    ensures reply.FetchFailed? ==> r.currentUser == s.currentUser && r.authStatus == s.authStatus
    ensures reply.FetchFailed? && s.requests[k].origin == LoginPipeline ==>
              r.pending == s.pending + [PublishDefault]
    ensures reply.FetchFailed? && s.requests[k].origin == ResumePipeline ==>
              !r.resumeActive && r.pending == s.pending &&
              forall q :: q in r.requests ==> q.origin == LoginPipeline
    ensures reply.Fetched? || s.requests[k].origin == LoginPipeline ==>
              r.requests == s.requests[..k] + s.requests[k + 1..] && r.resumeActive == s.resumeActive
    ensures reply.FetchFailed? && s.requests[k].origin == ResumePipeline ==>
              r.requests == LoginRequests(s.requests)
    ensures r.store == s.store && r.loginsInFlight == s.loginsInFlight && |r.requests| < |s.requests|
  {
    var rest := s.requests[..k] + s.requests[k + 1..];
    match reply
    case Fetched(u) => s.(currentUser := u, requests := rest)
    case FetchFailed =>
      if s.requests[k].origin == LoginPipeline then LoggedOut(s.(requests := rest), false)
      else s.(resumeActive := false, requests := LoginRequests(s.requests))
  }

  /** The event loop runs the oldest queued timer callback. */
  function TimerFired(s: Session): (r: Session)
    requires s.pending != []
    ensures r.pending == s.pending[1..]
    ensures r.store == s.store && r.currentUser == s.currentUser && r.loginsInFlight == s.loginsInFlight
    ensures s.pending[0] == PublishDefault ==>
              r.authStatus == DefaultAuthStatus && r.resumeActive == s.resumeActive && r.requests == s.requests
    ensures s.pending[0] == SubscribeResume ==>
              r.authStatus == s.authStatus && r.resumeActive &&
              r.requests == s.requests +
                (if s.authStatus.isAuthenticated then [UserRequest(ResumePipeline, TokenOf(s.store))] else [])
  {
    var s1 := s.(pending := s.pending[1..]);
    match s.pending[0]
    case PublishDefault => Published(s1, DefaultAuthStatus)
    case SubscribeResume =>
      // a new subscriber of a BehaviorSubject first receives the current value
      ResumeReaction(s1.(resumeActive := true), s1.authStatus)
  }

  /** Run every queued timer callback, oldest first. */
  function Drained(s: Session): (r: Session)
    ensures r.pending == []
    decreases |s.pending|
  {
    if s.pending == [] then s else Drained(TimerFired(s))
  }
}
