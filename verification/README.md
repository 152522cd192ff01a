# Session logic of the salon booking app, in Dafny

The app is a React Native client for salon booking and virtual try-on. Apart from screens,
its client-side session logic lives in two places, and this project models both:

- **The auth store** (`store/authStore.ts`). This is one global record with four fields:
  `isAuthenticated`, `isGuest`, `token` and `user`. Four mutators change it: `login`,
  `loginAsGuest`, `logout` and `setUser`. Two queries read it: `getUser` and
  `canAccessGuestProtectedRoute`. The value lives in `AuthStore.AuthState`, and each mutator
  is a function on it. Each function uses datatype update, so every field the mutator does
  not name keeps its old value, just as the store merges a partial object into its state.
  The mutable global is the class `AuthStore.Store`. Each of its methods is proved against
  the matching function. Its ghost `history` records the calls made on it. Its object
  invariant says the fields equal what that history produces from the initial state, so
  every property proved about reachable states holds of the object.
- **The bearer-token session policy** (`services/axios.ts`). `initAxiosApi` decides whether
  to save, delete or keep the token in the secure-storage slot `"authToken"`. It then builds
  a new client, which gets a default `Authorization: Bearer <token>` header only when the
  caller is logged in with a non-empty token; the token itself is never checked. The request
  interceptor overwrites `Authorization` with the stored token whenever one is stored. The
  response interceptor deletes the stored token on a 401 and passes every outcome on
  unchanged. Modelling choices:
  - Secure storage is the class `Session.SecureStore`, over a `map`.
  - A client is the record `Session.ClientConfig`.
  - A request on its way out is the object `Session.RequestConfig`. The interceptor
    rewrites its `headers` in place.
  - The class `Session.Api` holds the module's `axiosApi`. Its methods are proved against the
    heap-free `Session.Step`.
  - `Session.Run` replays a sequence of events. The lemmas about whole sessions are stated
    over `Session.Run`.

`AppSession` puts the two side by side. The store and secure storage each hold a copy of the
token. Logging in or out on both sides keeps the copies equal. A 401 clears only the stored
copy: the store still reports a signed-in user holding the token. The client's baked-in
default header also still sends that token on the next request. The source leaves this gap
open (`services/axios.ts:57-60`), and the model states it as lemmas rather than fixing it.
Logging in with an empty token is a second way the copies part: the store holds `""`, while
secure storage keeps whatever it held before.

Three behaviours of the code that the model keeps as they are:

- `logout` resets the store from any state, the initial one included
  (`store/authStore.ts:42-48`).
- A client built while logged out adds no `Authorization` default, but a header the caller
  sets on the request itself still goes out (`services/axios.ts:36-37, 48`).
  `Session.LoggedOutRequestsCarryNoCredential` therefore speaks of requests whose caller set
  no such header.
- `initAxiosApi` with `isLoggedIn` true and a `null` or empty token leaves the slot exactly
  as it was (`services/axios.ts:22-27`).

## Model

| member | source | states |
|---|---|---|
| `AuthStore.AuthState.Login` | store/authStore.ts:30-35 | `login(t)`: authenticated, not a guest, holding `t`, passes the route guard, satisfies the invariant; `user` is unchanged |
| `AuthStore.AuthState.LoginAsGuest` | store/authStore.ts:36-41 | `loginAsGuest()`: authenticated guest with no token even if one was held, fails the route guard, satisfies the invariant; `user` is unchanged |
| `AuthStore.AuthState.Logout` | store/authStore.ts:42-48 | `logout()` yields the initial state from every state |
| `AuthStore.AuthState.SetUser` | store/authStore.ts:49-52 | `setUser(u)` replaces `user` wholesale in any state and leaves the other three fields unchanged |
| `AuthStore.AuthState.GetUser` | store/authStore.ts:53-55 | `getUser()` returns the current user record: storing it back with `setUser` leaves the state unchanged |
| `AuthStore.AuthState.CanAccessGuestProtectedRoute` | store/authStore.ts:56-59 | the route guard never passes without signing in, never for a guest, and always for an authenticated non-guest |
| `AuthStore.LogoutIdempotent` | store/authStore.ts:42-48 | logging out twice is logging out once |
| `AuthStore.GetUserSeesSetUser` | store/authStore.ts:53-55 | `getUser` returns what `setUser` stored; `login` and `loginAsGuest` leave it, `logout` clears it |
| `AuthStore.RunInPhase` | store/authStore.ts:30-52 | from an anonymous, guest or signed-in state, every sequence of mutator calls stays in one of those three |
| `AuthStore.RunSnoc` | store/authStore.ts:30-52 | replaying a history and then one more call equals replaying the longer history |
| `AuthStore.ReachableIffInPhase` | store/authStore.ts:25-52 | a state is reachable from the initial one exactly when it is anonymous, a guest without a token, or signed in with a token (any user record) |
| `AuthStore.ReachableWellFormed` | store/authStore.ts:25-52 | every reachable state satisfies the invariant: a guest is authenticated with no token; a token holder is authenticated and no guest |
| `AuthStore.ReachableRouteGuardIffToken` | store/authStore.ts:56-59 | in a reachable state, `canAccessGuestProtectedRoute()` holds exactly when a token is held |
| `AuthStore.Store.constructor` | store/authStore.ts:25-29 | the store starts unauthenticated, not a guest, with `null` token and user |
| `AuthStore.Store.Login` | store/authStore.ts:30-35 | the object's new state is `login(t)` of the old one; the invariant and the route guard hold afterwards |
| `AuthStore.Store.LoginAsGuest` | store/authStore.ts:36-41 | the object's new state is `loginAsGuest()` of the old one; the route guard fails afterwards |
| `AuthStore.Store.Logout` | store/authStore.ts:42-48 | the object is back in its initial state |
| `AuthStore.Store.SetUser` | store/authStore.ts:49-52 | the object's new state is `setUser(u)` of the old one and still satisfies the invariant |
| `Session.Bearer` | services/axios.ts:37 | the header value is the prefix `Bearer ` followed by exactly the token |
| `Session.BearerRoundTrip` | services/axios.ts:48 | the header value built for a token determines that token: stripping the `Bearer ` prefix gives it back unchanged |
| `Session.StoreAfterInit` | services/axios.ts:18-27 | logged in with a non-empty token, the slot holds that token; not logged in (or `isLoggedIn` omitted), the slot is deleted; logged in with a null or empty token, storage is unchanged; other keys are never touched |
| `Session.BaseUrl` | services/axios.ts:31 | the base URL is the environment's API URL when set, and the text "undefined" when unset |
| `Session.CreateClient` | services/axios.ts:29-39 | a new client has timeout 60000, params `{is_mobile: true}` and a base URL from the environment (the text "undefined" when unset); it has a default `Authorization` of `Bearer <token>` exactly when logged in with a non-empty token, and no other default header |
| `Session.WithStoredToken` | services/axios.ts:45-51 | a non-empty stored token sets `Authorization` to `Bearer <stored>` over any previous value and leaves all other headers alone; otherwise the headers are unchanged |
| `Session.Dispatch` | services/axios.ts:30-51 | a request goes out exactly when a client exists; `Authorization` is the stored token if one is stored, else the caller's header, else the client's default; every other header is the caller's if set, else the client's default |
| `Session.StoreAfterResponse` | services/axios.ts:54-63 | a rejection with status 401 deletes the slot; any other outcome, including an error without a response, leaves storage unchanged |
| `Session.AxiosError.Unauthorized` | services/axios.ts:57 | an error counts as a 401 only when it has a response whose status is 401; an error without a response never does |
| `Session.StoredTokenWins` | services/axios.ts:44-51 | with a client and a non-empty stored token, every request goes out with `Bearer <stored>`, whatever the client's defaults or the request's own headers say |
| `Session.NoStoredTokenKeepsHeaders` | services/axios.ts:45-51 | without a stored token, a request goes out with the client's defaults under its own headers, so a baked-in header survives |
| `Session.TokenSurvives` | services/axios.ts:18-63 | a stored token stays stored through any events that are not a 401, not a logged-out init and not an init saving another token |
| `Session.LoginRoundTrip` | services/axios.ts:22-48 | after `initAxiosApi({isLoggedIn: true, token: t})` with non-empty `t`, and until such an event, every request carries `Bearer t` |
| `Session.AnonymousSurvives` | services/axios.ts:18-63 | with no stored token and no default header, both stay absent through any events except an init that saves a token |
| `Session.LoggedOutRequestsCarryNoCredential` | services/axios.ts:19-51 | after an init with `isLoggedIn` false or omitted, and until an init saves a token, a request whose caller set no `Authorization` goes out without one |
| `Session.BakedHeaderOutlivesUnauthorized` | services/axios.ts:36-61 | after a logged-in init and a 401, storage has no token but the next request still carries the old `Bearer` header from the client's defaults |
| `Session.SecureStore.SetItemAsync` | services/axios.ts:23 | writing the slot overwrites it and nothing else |
| `Session.SecureStore.DeleteItemAsync` | services/axios.ts:26 | deleting removes the key, and a missing key is not an error |
| `Session.SecureStore.GetItemAsync` | services/axios.ts:46 | reading returns the stored value, or nothing when the key is absent |
| `Session.RequestConfig.constructor` | services/axios.ts:30-39 | a request takes its method, URL and body from the caller, its base URL, timeout and params from the client, and its headers from the client's defaults under the caller's own |
| `Session.Api.constructor` | services/axios.ts:9 | the module starts with no client |
| `Session.Api.InitAxiosApi` | services/axios.ts:18-39 | the new storage and client are one init step of the old state; the slot ends as the token saved, as deleted, or as it was |
| `Session.Api.InterceptRequest` | services/axios.ts:45-51 | the interceptor returns the same config object, with only its `headers` rewritten by the stored-token rule |
| `Session.Api.Send` | services/axios.ts:44-51 | a request exists exactly when a client does; its headers are those of `Dispatch`; its method, URL and body come from the request, and its base URL, timeout and params from the client |
| `Session.Api.InterceptResponse` | services/axios.ts:54-63 | the outcome is passed on unchanged with no retry, and storage changes exactly as the 401 rule says |
| `AppSession.LoginAgrees` | services/axios.ts:22-23 | logging in on the store and initialising with the same non-empty token leaves the two copies of the token equal |
| `AppSession.LogoutAgrees` | services/axios.ts:24-27 | logging out on the store and initialising logged out leaves both copies absent |
| `AppSession.UnauthorizedDisagrees` | services/axios.ts:56-63 | a 401 makes the copies disagree whenever the store holds a token, and the store still passes the route guard |
| `AppSession.EmptyTokenLoginDisagrees` | services/axios.ts:22-27 | logging in with `""` on both sides leaves storage untouched while the store holds `""`, so the two copies disagree |
| `AppSession.UnauthorizedScenario` | services/axios.ts:57-60 | on the objects: after login, init and a 401, the store still grants access and holds the token, secure storage is empty, and the next request still sends `Bearer <token>` |

## Left out

- The response cache and the `axios-hooks` configuration (`services/axios.ts:4-7, 42`) are left out. They belong to external libraries whose code is not part of this model, and no eviction policy is modelled.
- `async`/`await` ordering is left out. Each operation is one atomic step on explicit state. The module-level singletons are objects passed in.
- The environment variable is not read. Its value is the `apiUrl` parameter, and `None` stands for an unset variable.
- The `console.error` call on a 401 is left out, because it is logging only.
- Failures of secure storage are not modelled. The source awaits `setItemAsync` and `deleteItemAsync` without a handler, so a failure would reject `initAxiosApi` or replace the 401 rejection. The model assumes every storage call succeeds.
- Case-insensitive header names and axios's normalisation of headers are not modelled. `Authorization` is matched literally.
- The merge of client defaults into a request is simplified: the caller's headers win over the defaults. The base URL, timeout and params always come from the client, and per-request overrides of those are not modelled.
- Each `initAxiosApi` call registers one request and one response interceptor on its new client. The model applies those two rules to every request on the current client. Requests still in flight on a discarded client are not modelled.
- Fields of the user record beyond `id`, `name`, `email` and `role` are typed `any` in the source. They are kept as strings.
- Request and response bodies are opaque strings.
- Screens, layouts and navigation are not part of this model. That includes the role redirect in `app/index.tsx` and the form checks in `app/signup.tsx`. So are the places lookup in `services/places.ts`, the lazy initialisation in `actions/api.ts`, the logger and the type declarations (except `UserType`, which is modelled as a datatype).
