# JWT session service (AuthJwtService), modelled in Dafny

This project models `AuthJwtService`, the client-side service of an Angular application that
keeps the user's JSON Web Token and publishes who is logged in. The service:

- keeps the raw token in persistent key-value storage under the key `jwt`;
- publishes two behaviour subjects: `authStatus$` (authenticated flag, role, user id; default
  `{false, Role.None, ''}`) and `currentUser$` (default: a user with an empty id);
- on construction, resumes a stored unexpired token or performs a hard logout;
- on `login`, removes the token, asks the credential provider, stores the returned token,
  decodes it, publishes its status and fetches the current user when authenticated;
- on `logout(clearToken?)`, removes the token when asked and publishes the default status on
  the next turn of the event loop.

Files:

- `auth_model.dfy`, module `AuthModel`: the values (`AuthStatus`, `User`, `Claims`, ...), the
  whole state of one service as a `Session` record, and one pure function per transition.
- `auth_jwt_service.dfy`, module `AuthJwt`: class `AuthJwtService`, whose fields are the parts of
  a `Session` and whose methods update them in place. Each method's postcondition says that
  `Snapshot()` afterwards is the matching `AuthModel` transition of the state before.
- `auth_properties.dfy`, module `AuthProperties`: lemmas about the transitions, alone and in
  sequence.

How the asynchronous parts are represented:

- `setTimeout(..., 0)` callbacks are a FIFO queue `pending` of `Task`s. `RunNext` runs the
  oldest one, and `RunPending` (function `Drained`) runs them all in order.
- A behaviour subject is represented by its current value. A new subscriber first receives that
  value, so its replay is applied when the subscription is taken.
- The provider call (`authProvider`) is split into `LoginStart` and `LoginComplete(reply)`. The
  count of unanswered provider calls is `loginsInFlight`.
- Each `getCurrentUser()` call is recorded in `requests` with the pipeline that made it and the
  token stored at that moment. Its answer arrives through `UserFetched(k, reply)`, in any order.
- The resume pipeline (`resumeCurrentUser$`) stays subscribed to `authStatus$` once subscribed.
  So every later authenticated publish also requests the user (`resumeActive`).
- `Date.now()` is the parameter `nowMs`.
- `decode` (jwt-decode) and the subclass's `transformJwtToken` are function-valued fields of a
  `Collaborators` value given to the constructor. `decode` may fail (`InvalidToken`).
- Dafny's constructor runs the field initialisers. The constructor body (source lines 54-61) is
  the method `Start(nowMs)`. It returns `Threw(InvalidTokenError)` when a stored token does not
  decode, because nothing in the source catches that exception.

Where the code does not do what a JWT session service is expected to do, the model follows the code:

- A stored token that does not decode makes construction throw
  (src/app/auth/auth-jwt.service.ts:123). It is not treated as expired. See
  `AuthModel.Constructed`.
- A failed login performs a soft `logout()` (:91). That logout does not remove the storage, so a
  token stored at :80 whose decode fails at :81 stays stored. See
  `AuthProperties.LoginDecodeFailureKeepsToken`.
- `logout` never resets `currentUser$` (:99-104). See `AuthProperties.LogoutEventuallyDefault`.
- "Authenticated implies a token is stored" does not hold in between. `login` removes the
  token without publishing anything, and a hard logout publishes the default only on the next
  turn. See `AuthProperties.LoginStartLeavesStatusWithoutToken`.
- A token without an `exp` claim never expires. `undefined * 1000` is NaN, and `Date.now() >= NaN`
  is false (:124). See `AuthProperties.TokenWithoutExpIsResumed`.

## Model

| member | source | states |
|---|---|---|
| `AuthModel.ResumeReaction` | src/app/auth/auth-jwt.service.ts:38-49 | the resume subscription requests the user exactly when it is live and the status is authenticated; at most one request per publication, carrying the stored token; nothing else changes |
| `AuthModel.Published` | src/app/auth/auth-jwt.service.ts:45-49 | `authStatus$.next` sets the status; a request is added only for an authenticated status while resume is subscribed; storage, user and queue are unchanged |
| `AuthModel.LoggedOut` | src/app/auth/auth-jwt.service.ts:99-104 | `logout(true)` removes `jwt` and `logout()` keeps the storage; status and current user are unchanged at once; exactly one default publication is queued |
| `AuthModel.Constructed` | src/app/auth/auth-jwt.service.ts:51-62 | construction throws exactly when a non-empty stored token does not decode; otherwise the user is still empty and nothing is requested or subscribed yet |
| `AuthModel.LoginStarted` | src/app/auth/auth-jwt.service.ts:75-78 | `login` removes `jwt` before calling the provider and changes nothing published |
| `AuthModel.LoginCompleted` | src/app/auth/auth-jwt.service.ts:78-94 | the provider's token is stored whatever happens next; a provider failure queues the default and keeps the storage; the current user is never touched |
| `AuthModel.LoginRequests` | src/app/auth/auth-jwt.service.ts:42 | when the resume pipeline ends, exactly the login pipelines' requests stay outstanding, each as many times as before |
| `AuthModel.UserArrived` | src/app/auth/auth-jwt.service.ts:40-42 | a fetched user becomes `currentUser`; a failure on a login pipeline queues the default; a failure on the resume pipeline unsubscribes it and drops exactly its requests; otherwise only request `k` is removed and every other in-flight request stays outstanding; storage and provider count are unchanged |
| `AuthModel.TimerFired` | src/app/auth/auth-jwt.service.ts:60 | the oldest queued callback is consumed first: a default publication sets the default status; the resume subscription goes live and replays the current status, requesting the user once if it is authenticated; storage and user are unchanged |
| `AuthModel.Drained` | src/app/auth/auth-jwt.service.ts:103 | running the queued callbacks leaves none queued |
| `AuthJwt.AuthJwtService.constructor` | src/app/auth/auth-jwt.service.ts:45-49 | both subjects start at their defaults over the persisted storage |
| `AuthJwt.AuthJwtService.Start` | src/app/auth/auth-jwt.service.ts:51-62 | throws exactly when `Constructed` throws; otherwise leaves the state `Constructed` gives |
| `AuthJwt.AuthJwtService.PublishStatus` | src/app/auth/auth-jwt.service.ts:84 | the new state is `Published` of the old one |
| `AuthJwt.AuthJwtService.LoginStart` | src/app/auth/auth-jwt.service.ts:75-78 | the new state is `LoginStarted` of the old one |
| `AuthJwt.AuthJwtService.LoginComplete` | src/app/auth/auth-jwt.service.ts:78-94 | the new state is `LoginCompleted` of the old one and the provider's reply |
| `AuthJwt.AuthJwtService.Logout` | src/app/auth/auth-jwt.service.ts:99-104 | the new state is `LoggedOut` of the old one |
| `AuthJwt.AuthJwtService.GetToken` | src/app/auth/auth-jwt.service.ts:106-108 | the value stored under `jwt`, or `''` when the key is absent; reads only |
| `AuthJwt.AuthJwtService.SetToken` | src/app/auth/auth-jwt.service.ts:111-113 | `jwt` maps to the new token and nothing else changes |
| `AuthJwt.AuthJwtService.ClearToken` | src/app/auth/auth-jwt.service.ts:115-117 | `jwt` is removed and nothing else changes |
| `AuthJwt.AuthJwtService.HasExpiredToken` | src/app/auth/auth-jwt.service.ts:119-128 | true for an absent or empty token; throws for one that does not decode; otherwise true exactly when `nowMs >= exp * 1000` (false without `exp`) |
| `AuthJwt.AuthJwtService.GetAuthStatusFromToken` | src/app/auth/auth-jwt.service.ts:130-132 | the transformed payload of the stored token, or a throw when it does not decode |
| `AuthJwt.AuthJwtService.UserFetched` | src/app/auth/auth-jwt.service.ts:38-43 | the new state is `UserArrived` of the old one |
| `AuthJwt.AuthJwtService.RunNext` | src/app/auth/auth-jwt.service.ts:103 | the new state is `TimerFired` of the old one |
| `AuthJwt.AuthJwtService.RunPending` | src/app/auth/auth-jwt.service.ts:60 | the queue is empty and the new state is `Drained` of the old one |
| `AuthJwt.FreshStartThenLogin` | src/app/auth/auth-jwt.service.ts:51-97 | after a start with nothing stored and a login with a decodable token `t`, the status is that of `t`, `getToken()` is `t`, and every outstanding request uses `t` under an authenticated status |
| `AuthProperties.DrainedKeeps` | src/app/auth/auth-jwt.service.ts:60 | the queued callbacks never touch the storage or the current user and only add requests |
| `AuthProperties.DrainedEndsWithDefault` | src/app/auth/auth-jwt.service.ts:103 | when the last queued callback publishes the default, the default is the status after draining |
| `AuthProperties.DrainedDefaultsOnly` | src/app/auth/auth-jwt.service.ts:103 | default publications over a default status change nothing |
| `AuthProperties.LogoutEventuallyDefault` | src/app/auth/auth-jwt.service.ts:99-104 | after any logout and the next turns, the status is the default, the current user is the old one, and the token is gone exactly for a hard logout |
| `AuthProperties.LogoutIdempotent` | src/app/auth/auth-jwt.service.ts:99-104 | a second logout after the first took effect changes nothing, except that a hard one also removes a token the first kept |
| `AuthProperties.RepeatedLogouts` | src/app/auth/auth-jwt.service.ts:99-104 | any non-empty series of logouts ends in the default status with the current user untouched |
| `AuthProperties.ConstructionHardLogout` | src/app/auth/auth-jwt.service.ts:54-55 | an absent, empty or expired token: `jwt` is removed at once and, after the next turn, the status is the default, the user empty, and nothing requested |
| `AuthProperties.TokenExpiringNowIsExpired` | src/app/auth/auth-jwt.service.ts:124 | `exp * 1000 == now` counts as expired: construction is a hard logout |
| `AuthProperties.TokenBeforeExpiryIsResumed` | src/app/auth/auth-jwt.service.ts:124 | one millisecond before `exp * 1000` the token is resumed |
| `AuthProperties.TokenWithoutExpIsResumed` | src/app/auth/auth-jwt.service.ts:124 | a decodable token without `exp` is always resumed |
| `AuthProperties.ConstructionResumes` | src/app/auth/auth-jwt.service.ts:56-61 | a valid token: its status is published before construction returns, storage untouched, only the resume subscription queued; after the next turn the user is requested with that token exactly when the status is authenticated |
| `AuthProperties.LoginSuccess` | src/app/auth/auth-jwt.service.ts:79-85 | the stored token is the provider's, the published status is the transform of that same token's payload, and the user is requested with it exactly when authenticated; queue and user unchanged |
| `AuthProperties.LoginProviderFailure` | src/app/auth/auth-jwt.service.ts:88-93 | a provider failure queues a soft logout: storage unchanged, default status after draining |
| `AuthProperties.LoginDecodeFailureKeepsToken` | src/app/auth/auth-jwt.service.ts:80-91 | a token that does not decode stays stored after the failed login, and the status becomes the default |
| `AuthProperties.FailedLoginLeavesCleanState` | src/app/auth/auth-jwt.service.ts:75-93 | a login whose provider fails leaves no token and, after draining, the default status |
| `AuthProperties.FreshStartLoginStatus` | src/app/auth/auth-jwt.service.ts:51-97 | start with nothing stored gives the default status; a login with a decodable token then publishes that token's status and stores it |
| `AuthProperties.LoginStartLeavesStatusWithoutToken` | src/app/auth/auth-jwt.service.ts:75-76 | an authenticated status stays published while `login` has removed the token |
| `AuthProperties.RequestsOnlyWhenAuthenticated` | src/app/auth/auth-jwt.service.ts:38-43 | any event that requests the user leaves an authenticated status published; the new requests come after the old ones and carry the stored token |
| `AuthProperties.ConstructionEstablishesWf` | src/app/auth/auth-jwt.service.ts:56-61 | construction takes the resume subscription at most once, and no resume request is outstanding while it is not live |
| `AuthProperties.EventPreservesWf` | src/app/auth/auth-jwt.service.ts:38-104 | every event keeps that invariant |

## Left out

- RxJS mechanics are not modelled. Subscribers other than the resume pipeline are left out,
  including `LoginComponent`'s `combineLatest`. Also left out: the second run of `authProvider`
  when a caller subscribes to the `Observable` returned by `login` (it is cold), and the
  `throwError` value returned from the error callback at :92, which is discarded.
- `transformError` is not part of this model. The model assumes that it rethrows, so that a
  failure inside a login pipeline reaches the error callback at :89-93. A failure inside the
  resume pipeline ends that subscription.
- `CacheService` is not part of this model. The storage is a `map<string, string>` with no
  serialisation, and `getItem` is a plain lookup.
- The credential provider, `getCurrentUser()` and jwt-decode are external. Their results are
  parameters (`ProviderReply`, `UserReply`, `Collaborators.decode`). jwt-decode's parsing and the
  token signature are not modelled. `exp` is an integer number of seconds or absent; a
  non-numeric or fractional `exp` is not modelled.
- `User` and the `Role` enumeration are not part of this model. A user is an id plus an opaque
  profile, and a role is `None` or a named role.
- The token recorded with each user request models what `getCurrentUser()` would send. Its body
  is in the subclasses, which are not part of this model.
- Angular dependency injection, `console.error`, the wall clock (a parameter) and timer delays
  other than 0 are left out.
- src/app/components/login/login.component.ts and src/app/app-routing.module.ts are UI wiring and
  a declarative route table; they are not modelled.
