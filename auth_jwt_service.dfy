/** The session service as the application sees it: one object whose fields are the persisted
    storage, the two behaviour subjects' current values, the timer queue and the outstanding
    asynchronous calls. Every method updates those fields in place and states its new state
    as the matching transition of module AuthModel applied to the old one.
 */
module AuthJwt {
  import opened AuthModel

  class AuthJwtService {
    const deps: Collaborators
    var store: map<string, string>
    var authStatus: AuthStatus
    var currentUser: User
    var pending: seq<Task>
    var resumeActive: bool
    var requests: seq<UserRequest>
    var loginsInFlight: nat

    /** The abstract value of the object. */
    function Snapshot(): Session
      reads this
    {
      Session(store, authStatus, currentUser, pending, resumeActive, requests, loginsInFlight)
    }

    /** The field initialisers: both subjects hold their defaults, nothing is queued,
        nothing is subscribed and the storage is whatever was persisted before. */
    constructor (deps: Collaborators, persisted: map<string, string>)
      ensures this.deps == deps
      ensures Snapshot() == Initial(persisted)
    {
      this.deps := deps;
      store := persisted;
      authStatus := DefaultAuthStatus;
      currentUser := EmptyUser;
      pending := [];
      resumeActive := false;
      requests := [];
      loginsInFlight := 0;
    }

    /** The constructor body, run once on the freshly initialised object. When it throws, the
        object is never handed out, so its state then does not matter. */
    method Start(nowMs: int) returns (outcome: Outcome<()>)
      requires Snapshot() == Initial(store)
      modifies this
      ensures outcome.Threw? <==> Constructed(deps, old(store), nowMs).Threw?
      ensures outcome.Returned? ==> Constructed(deps, old(store), nowMs) == Returned(Snapshot())
    {
      var expired := HasExpiredToken(nowMs);
      match expired {
        case Threw(e) =>
          outcome := Threw(e);
        case Returned(true) =>
          Logout(true);
          outcome := Returned(());
        case Returned(false) =>
          var status := GetAuthStatusFromToken();
          match status {
            case Threw(e) =>
              outcome := Threw(e);
            case Returned(st) =>
              PublishStatus(st);
              pending := pending + [SubscribeResume];
              outcome := Returned(());
          }
      }
    }

    /** `authStatus$.next(status)` together with the reaction of the resume subscription. */
    method PublishStatus(status: AuthStatus)
      modifies this
      ensures Snapshot() == Published(old(Snapshot()), status)
    {
      authStatus := status;
      if resumeActive && status.isAuthenticated {
        requests := requests + [UserRequest(ResumePipeline, GetToken())];
      }
    }

    /** `login(email, password)` up to the provider call, which stays outstanding. */
    method LoginStart()
      modifies this
      ensures Snapshot() == LoginStarted(old(Snapshot()))
    {
      ClearToken();
      loginsInFlight := loginsInFlight + 1;
    }

    /** The rest of the login pipeline, run when the provider answers. */
    method LoginComplete(reply: ProviderReply)
      requires loginsInFlight > 0
      modifies this
      ensures Snapshot() == LoginCompleted(deps, old(Snapshot()), reply)
    {
      loginsInFlight := loginsInFlight - 1;
      match reply {
        case ProviderFailed =>
          Logout(false);
        case AccessToken(t) =>
          SetToken(t);
          match deps.decode(t) {
            case InvalidToken =>
              Logout(false);
            case Payload(c) =>
              var status := deps.transformJwtToken(c);
              PublishStatus(status);
              if status.isAuthenticated {
                requests := requests + [UserRequest(LoginPipeline, GetToken())];
              }
          }
      }
    }

    /** `logout(clearToken)`; `logout()` is `Logout(false)`. */
    method Logout(clearToken: bool)
      modifies this
      ensures Snapshot() == LoggedOut(old(Snapshot()), clearToken)
    {
      if clearToken {
        ClearToken();
      }
      pending := pending + [PublishDefault];
    }

    /** `getToken()`: the stored token, or the empty string when there is none. */
    function GetToken(): (t: string)
      reads this
      ensures JwtKey in store ==> t == store[JwtKey]
      ensures JwtKey !in store ==> t == ""
    {
      TokenOf(store)
    }

    method SetToken(jwt: string)
      modifies this
      ensures store == old(store)[JwtKey := jwt] && GetToken() == jwt
      ensures Snapshot() == old(Snapshot()).(store := store)
    {
      store := store[JwtKey := jwt];
    }

    method ClearToken()
      modifies this
      ensures store == old(store) - {JwtKey} && GetToken() == ""
      ensures Snapshot() == old(Snapshot()).(store := store)
    {
      store := store - {JwtKey};
    }

    /** `hasExpiredToken()`, with `Date.now()` passed in as `nowMs`. */
    method HasExpiredToken(nowMs: int) returns (r: Outcome<bool>)
      ensures GetToken() == "" ==> r == Returned(true)
      ensures GetToken() != "" && deps.decode(GetToken()).InvalidToken? ==> r == Threw(InvalidTokenError)
      ensures GetToken() != "" && deps.decode(GetToken()).Payload? ==>
                var exp := deps.decode(GetToken()).claims.exp;
                r == Returned(exp.Seconds? && nowMs >= exp.seconds * 1000)
      ensures r == ExpiryCheck(deps, store, nowMs)
    {
      var jwt := GetToken();
      if jwt != "" {
        match deps.decode(jwt) {
          case InvalidToken =>
            return Threw(InvalidTokenError);
          case Payload(payload) =>
            return Returned(Expired(nowMs, payload.exp));
        }
      }
      return Returned(true);
    }

    /** `getAuthStatusFromToken()`. */
    method GetAuthStatusFromToken() returns (r: Outcome<AuthStatus>)
      ensures deps.decode(GetToken()).InvalidToken? ==> r == Threw(InvalidTokenError)
      ensures deps.decode(GetToken()).Payload? ==>
                r == Returned(deps.transformJwtToken(deps.decode(GetToken()).claims))
    {
      match deps.decode(GetToken()) {
        case InvalidToken =>
          r := Threw(InvalidTokenError);
        case Payload(c) =>
          r := Returned(deps.transformJwtToken(c));
      }
    }

    /** The answer to outstanding `getCurrentUser()` request `k` arrives: the
        `currentUser$.next(user)` step, or the pipeline's error handling. */
    method UserFetched(k: nat, reply: UserReply)
      requires k < |requests|
      modifies this
      ensures Snapshot() == UserArrived(old(Snapshot()), k, reply)
    {
      var origin, all := requests[k].origin, requests;
      requests := requests[..k] + requests[k + 1..];
      match reply {
        case Fetched(u) =>
          currentUser := u;
        case FetchFailed =>
          if origin == LoginPipeline {
            Logout(false);
          } else {
            resumeActive := false;
            requests := LoginRequests(all);
          }
      }
    }

    /** The event loop runs the oldest queued timer callback. */
    method RunNext()
      requires pending != []
      modifies this
      ensures Snapshot() == TimerFired(old(Snapshot()))
    {
      var task := pending[0];
      pending := pending[1..];
      match task {
        case PublishDefault =>
          PublishStatus(DefaultAuthStatus);
        case SubscribeResume =>
          resumeActive := true;
          if authStatus.isAuthenticated {
            requests := requests + [UserRequest(ResumePipeline, GetToken())];
          }
      }
    }

    /** Let the event loop run every queued timer callback, in the order they were queued. */
    method RunPending()
      modifies this
      ensures pending == []
      ensures Snapshot() == Drained(old(Snapshot()))
    {
      while pending != []
        invariant Drained(Snapshot()) == Drained(old(Snapshot()))
        decreases |pending|
      {
        RunNext();
      }
    }
  }

  /** A client of the service: start it with nothing persisted, let the event loop settle, log
      in and receive the provider's token `t`. The status published is that of `t`, `getToken()`
      gives `t` back, and the only user requests outstanding are the ones made with `t`. */
  method FreshStartThenLogin(deps: Collaborators, nowMs: int, t: string)
    returns (status: AuthStatus, token: string, requested: seq<UserRequest>)
    requires deps.decode(t).Payload?
    ensures status == deps.transformJwtToken(deps.decode(t).claims)
    ensures token == t
    ensures forall q :: q in requested ==> q.token == t && status.isAuthenticated
  {
    var svc := new AuthJwtService(deps, map[]);
    var started := svc.Start(nowMs);
    assert started.Returned? && svc.pending == [PublishDefault];
    svc.RunPending();
    assert svc.requests == [] && !svc.resumeActive;
    svc.LoginStart();
    svc.LoginComplete(AccessToken(t));
    svc.RunPending();
    status, token, requested := svc.authStatus, svc.GetToken(), svc.requests;
  }
}
