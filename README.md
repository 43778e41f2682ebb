# Session core of the research-tracker web client

This project models the authentication slice of a single-page client for a
research-project tracker, and proves properties of it. The slice has four parts:

- **Session store** (`AuthProvider`): two state slots, `token` and `user`. It is
  backed by one `localStorage` entry, `"jwtToken"`. Its transitions are the first
  render, a one-time rehydration effect on mount, `login(t)` and `logout()`.
- **Request interceptor** of the shared API client. It reads the stored token on
  every request and, when the token is truthy, overwrites the `Authorization`
  header with `Bearer <token>`. The base URL is fixed at `http://localhost:8080/api`.
- **Route guard** (`ProtectedRoute`): a pure allow-or-redirect decision on `role`
  and `userRole`.
- **Navigation bar**: which links are shown, driven by whether `user` is truthy and
  whether `user.role` is `"ADMIN"`.

Modules, one per concern:

- `JsonValue` (json.dfy): the values `JSON.parse` can produce. `user` holds one of
  them, so JavaScript truthiness of `user` is modelled exactly.
- `BrowserStorage` (storage.dfy): `localStorage` as one shared object over a
  `map<string, string>`.
- `SessionModel` (session.dfy): the store's transitions as functions on values. It
  also holds the lemmas about single steps and about any sequence of logins and
  logouts.
- `AuthContext` (auth_context.dfy): the `AuthProvider` class, whose methods update
  the slots and storage in place. Each method is proved to follow the matching
  `SessionModel` function. The module also has the default context value.
- `Api` (api.dfy): the interceptor, the client and the header lemmas.
- `ProtectedRoute` (protected_route.dfy) and `Navbar` (navbar.dfy).

`jwtDecode` comes from a library that is not part of this model. It is a parameter
`decode: string -> Option<Json>`. `None` means it throws. No signature is checked
anywhere.

Four facts about the code shape the model:

- The `useState` argument `token ? jwtDecode(token) : null` is an expression, not a
  lazy initialiser, so it is evaluated on **every** render of the provider.
  `AuthProvider.Render` and `SessionModel.AfterRender` model that decode. A state
  whose token is truthy but does not decode makes the next render throw, and the
  page goes down (`Crashed`).
- As a result, after a successful first render the mount effect changes nothing.
  Its catch branch, which purges a bad token, can never run
  (`RehydrateAfterMountChangesNothing`).
- A `login` whose non-empty token does not decode leaves that token in storage
  before it throws. The page then crashes, and so does every later reload
  (`FailedLoginCrashesEveryReload`).
- A `login("")` that throws does not crash the page, because the re-render does
  not decode the falsy token `""`. The previous `user` stays, so the navigation bar
  keeps its logged-in links. Requests carry no bearer header, and a reload comes up
  logged out (`EmptyTokenLoginKeepsUser`).

## Intended versus actual behaviour

A session store like this one is expected to treat a token that does not decode as
"not logged in". The mount effect's catch branch (src/context/AuthContext.tsx:29-32)
shows that this was the aim. The code falls short of it in three places, and the
model follows the code:

- On load, a stored token that fails to decode is meant to be purged and treated as
  "not logged in". In the code, the unguarded decode of the first render throws
  before the effect that would purge it can run.
- A `login` whose token fails to decode is meant to fall back to "no identity"
  without crashing. In the code, `login` has no error handling. The token is stored
  and put in `token` first, `user` keeps its old value, and the exception reaches
  the caller.
- `user` is meant to be present exactly when `token` is. In the code this holds only
  in part. A stored empty string is a non-null but falsy token with a null `user`.
  A token whose payload is the JSON literal `null` gives a null `user` after a
  successful login. A failed `login("")` leaves a truthy `user` beside a falsy
  `token`. `SessionModel.Synced` states what holds instead.

## Model

| member | source | states |
|---|---|---|
| `AuthContext.Mount` | src/context/AuthContext.tsx:18-20 | The first render reads `"jwtToken"` into `token`. A truthy token is decoded without a guard into `user`, otherwise `user` is null. Creation fails exactly when that decode throws. Storage is not changed. |
| `SessionModel.MountFailsOnlyOnCorruptToken` | src/context/AuthContext.tsx:19-20 | Mounting throws exactly when a truthy stored token does not decode. Otherwise `token` equals the stored value and `user` is its decoded claims, or null when the token is absent or empty. |
| `AuthContext.AuthProvider.Render` | src/context/AuthContext.tsx:19-20 | A re-render throws exactly when the current `token` is truthy and does not decode. |
| `SessionModel.InvariantIsRenderSafe` | src/context/AuthContext.tsx:20 | A state whose `user` is the decode of its truthy `token` never makes a render throw. |
| `AuthContext.AuthProvider.Rehydrate` | src/context/AuthContext.tsx:22-34 | The mount effect: a truthy saved token that decodes sets `user` to the claims and `token` to the saved token. One that does not decode removes the key and leaves both slots unchanged. A falsy one changes nothing. |
| `SessionModel.RehydrateAfterMountChangesNothing` | src/context/AuthContext.tsx:19-33 | After a successful mount the effect is the identity, so its purging branch is unreachable. A corrupt stored token crashes loading. |
| `AuthContext.AuthProvider.Login` | src/context/AuthContext.tsx:36-40 | `login(t)` sets storage `"jwtToken"` to `t` and `token` to `t`, then decodes. On success `user` is the claims. On failure the call throws and `user` keeps its old value. |
| `SessionModel.LoginFailureBehaviour` | src/context/AuthContext.tsx:36-40 | Storage and `token` are written whether or not the decode throws. A throw leaves `user` unchanged, and success sets it to the claims. |
| `SessionModel.FailedLoginCrashesEveryReload` | src/context/AuthContext.tsx:19-40 | A failed login of a non-empty token crashes the page on the render that follows it. It also leaves the token stored, so every later load crashes. |
| `AuthContext.AuthProvider.Logout` | src/context/AuthContext.tsx:42-46 | `logout()` removes `"jwtToken"` and sets `token` and `user` to null, whatever the prior state. |
| `SessionModel.LogoutIdempotent` | src/context/AuthContext.tsx:42-46 | After logout both slots are null and no token is stored. A second logout gives the same state. |
| `AuthContext.LogoutTwice` | src/context/AuthContext.tsx:42-46 | Calling `logout` twice on a provider leaves the same state as calling it once. |
| `SessionModel.LoginLogoutPairing` | src/context/AuthContext.tsx:38-45 | After a successful login `token` is non-null, and `user` is non-null exactly when the decoded payload is not JSON null. After logout both are null. |
| `SessionModel.LoginThenReload` | src/context/AuthContext.tsx:19-39 | Reloading after a successful login of a non-empty token restores the same token and the same decoded identity. |
| `SessionModel.ApplyPreservesInvariant` | src/context/AuthContext.tsx:36-46 | A login or logout on a page that stays up keeps both properties. `token` mirrors the stored entry, and `user` is the decode of a truthy `token` (null when `token` is null). |
| `SessionModel.RunPreservesInvariant` | src/context/AuthContext.tsx:36-46 | Any sequence of logins and logouts keeps that invariant for as long as the page stays up. |
| `SessionModel.ReachableStatesKeepInvariant` | src/context/AuthContext.tsx:19-46 | Every state reachable from page load satisfies the invariant. |
| `SessionModel.RunKeepsOtherKeys` | src/context/AuthContext.tsx:19-46 | While the page stays up, no sequence of logins and logouts changes any storage key other than `"jwtToken"`. |
| `SessionModel.LastOpDecidesToken` | src/context/AuthContext.tsx:37-43 | After a sequence of logins and logouts that leaves the page up, the stored token is the token of the last login, or absent if the last operation was a logout. |
| `AuthContext.ReadContext` | src/context/AuthContext.tsx:11-16 | Outside a provider `token` and `user` are null. Inside one, they are the provider's slots. |
| `AuthContext.ContextLogin` | src/context/AuthContext.tsx:11-16 | Outside a provider, `login` changes nothing and never throws. Inside one, it is the provider's `login`. |
| `AuthContext.ContextLogout` | src/context/AuthContext.tsx:11-16 | Outside a provider, `logout` changes nothing. Inside one, it is the provider's `logout`. |
| `Api.WithBearer` | src/api/axios.ts:8-10 | With a truthy stored token, `Authorization` is `"Bearer " + token`. With none, or with `""`, the headers are unchanged. No other header changes. |
| `Api.AttachToken` | src/api/axios.ts:7-12 | The interceptor reads the stored token at call time and updates only `headers` on the given config. It returns the same config object. |
| `Api.ApiClient.Prepare` | src/api/axios.ts:3-12 | Every request gets the base URL `http://localhost:8080/api`, the caller's path and method, and headers from the interceptor, using the token stored at that moment. |
| `Api.CallerHeaderOverridden` | src/api/axios.ts:8-10 | A caller-supplied `Authorization` header is replaced when a truthy token is stored, and kept when none is. |
| `Api.HeaderReadsOnlyTokenKey` | src/api/axios.ts:8 | The header depends on the `"jwtToken"` entry alone. |
| `Api.HeaderFollowsLastSessionOp` | src/api/axios.ts:7-10 | While the page stays up, a request after any sequence of logins and logouts carries the bearer form of the last login's token when that token is non-empty. After a logout, or after a `login("")`, it carries the caller's headers unchanged. |
| `Api.HeaderMatchesSessionToken` | src/api/axios.ts:8-10 | On every reachable page the header built from storage equals the one built from the session's `token` slot. |
| `ProtectedRoute.Guard` | src/routes/ProtectedRoute.tsx:10-15 | No required role (absent or `""`) renders the children, and so does a required role equal to `userRole`. A different required role, including against an absent `userRole`, redirects to `/login` with `replace`. |
| `ProtectedRoute.GuardAgreesWithAllow` | src/routes/ProtectedRoute.tsx:10-15 | The guard renders exactly when the rule "no role required, or the roles agree" allows it, or when the required role is `""`. |
| `ProtectedRoute.AdminScenario` | src/routes/ProtectedRoute.tsx:10-15 | After logging in with claims whose role is `"ADMIN"`, an `"ADMIN"` route renders. After logging out it redirects to `/login`. |
| `JsonValue.RoleOf` | src/components/Navbar.tsx:46 | `user.role` is a string only when `user` is an object whose own `role` member is that string. |
| `Navbar.VisibleLinks` | src/components/Navbar.tsx:29-77 | With no user, exactly the brand, Login and Register links are shown. With a user, exactly the brand, Projects, Milestones, Documents and Logout are shown, in that order, with Admin before Logout when the user's role is `"ADMIN"`. Admin is shown only then. No other entry appears, and none appears twice. |
| `Navbar.EmptyTokenLoginKeepsUser` | src/context/AuthContext.tsx:36-40 | A `login("")` that throws keeps the page up with `token` `""` and the previous `user`. The bar keeps its logged-in links, requests get no bearer header, and a reload comes up logged out. |
| `Navbar.LinkSetsExclusive` | src/components/Navbar.tsx:29-77 | Logged-in entries and logged-out entries never appear together. |
| `Navbar.ClickLogout` | src/components/Navbar.tsx:53-60 | The Logout button runs the store's `logout`. Afterwards the bar shows the logged-out links. |

## Left out

- React scheduling: state updates are applied immediately, and the re-render after a change is the explicit `AfterRender`/`Render`. Batching, StrictMode double effects and re-rendering of consumers are not modelled.
- `jwtDecode` internals (splitting the token into three parts, base64url, JSON parsing) are not modelled, because the library's code is outside this repository. Its throw is the `None` of `decode`.
- A `login` call with a non-string argument, such as the `undefined` that would come from a response without a token, is not modelled. `newToken` is always a string.
- `localStorage` quota errors, storage events from other tabs, and concurrent or overlapping logins are left out: these are browser behaviour and asynchronous interleaving.
- The `console.error` logging in the mount effect's catch branch is left out, because it is output only.
- Axios transport: merging of default and request configs beyond `baseURL`, URL joining, case-insensitive header names, and responses are not modelled. A request's headers are a map keyed by the exact name `Authorization`.
- The page components (projects, milestones, documents, login and register forms) and the route table in src/App.tsx are not part of this model. They are network calls and markup. `ProtectedRoute` is not used by the route table, so only its decision is modelled.
- Markup and styling of the navigation bar are left out. Only which entries are shown, and in what order, is modelled.
