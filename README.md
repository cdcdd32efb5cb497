# Daystar client session layer, modelled in Dafny

This project models the client-side session layer of the Daystar habit-tracking
app. It has three parts:

- **AuthContext** (`authcontext.dfy`): the `AuthProvider` session. It holds four
  pieces of React state (`isAuthenticated`, `user`, `token`, `loading`) and one
  persisted credential, the secure-store key `'userToken'`. Its operations are
  `checkAuthStatus`, `login`, `loginWithEmail`, `signup` and `logout`. Each
  operation is a pure transition function `Step*` over the session and the store.
  The class `AuthProvider` performs the same operations field by field and is
  proved against those functions.
- **Api** (`api.dfy`): the shared HTTP client. Its request stage attaches
  `Authorization: Bearer <token>` from the store. Its response stage clears the
  store on 401 and 403 and always rejects the error again.
- **Settings** (`settings.dfy`): the profile form. `handleUpdate` runs its
  checks in order (name after `trim`, then password match, then password
  length) before it calls `updateProfile`. The three password-hint predicates
  are modelled too.

The other files:
- `securestore.dfy` holds the secure store as a class with one `Option<string>`
  field. The session and the gateway share one object of it.
- `common.dfy` holds JavaScript truthiness of `string | null` and the shapes of
  settled HTTP calls.
- `lifecycle.dfy` composes everything into runs of events and proves properties
  of every run.

Server replies are parameters: `Resolved(data)` for an answer, or `Thrown(HttpError)`
for a rejection. A rejection carries an optional `response` with its status and
its optional `data.error`. Each operation is one atomic step.

Behaviour of the code worth knowing:

- Signup posts to `/auth/signup`. Endpoints are labels only and do not appear
  in the model.
- Nothing sets the session to unauthenticated when the gateway sees a 401 or 403.
  The response stage only clears the store, so the session keeps its token
  while requests go out without one (`Lifecycle.StaleSessionAfterAuthFailure`).
- `AuthContext.tsx` calls plain `axios`, not the `api` instance. The
  interceptors therefore never see its verify and sign-in calls.
- `checkAuthStatus` tests the stored token for truthiness. An empty stored
  string is treated like no token and is not deleted.
- `loginWithEmail` and `signup` throw a new `Error` whose message is
  `response.data.error`, or a fixed fallback when that is absent or empty.
  `login` rethrows the original error.
- `updateProfile` is destructured from the context in `settings.tsx`, but
  `AuthContext.tsx` neither declares nor provides it. Its outcome is therefore
  an input of `HandleUpdate`, and the profile update itself is not modelled.
  With `AuthProvider` as written, the destructured value is `undefined`, so the
  call at `settings.tsx:45` throws a `TypeError` that the catch at lines 49-50
  turns into the error alert: only `UpdateFailed` can happen.
- `password.length` counts UTF-16 code units (`Utf16Length`). A character
  outside the Basic Multilingual Plane counts twice. `trim` strips the
  ECMAScript WhiteSpace and LineTerminator characters.
- The confirm field is rendered only when `password` is non-empty, but its state
  is kept. If a user types both fields and then clears `password`, the hidden
  confirmation still makes `Validate` reject with "Passwords do not match".

## Model

| member | source | states |
|---|---|---|
| SecureStore.CredentialStore.GetItem | app/context/AuthContext.tsx:50 | reading the key returns exactly what the store holds |
| SecureStore.CredentialStore.SetItem | app/context/AuthContext.tsx:86 | saving overwrites any earlier value with the new token |
| SecureStore.CredentialStore.DeleteItem | app/context/AuthContext.tsx:147 | deleting leaves the key empty, however often it is repeated |
| AuthContext.ErrorMessage | app/context/AuthContext.tsx:115-118 | the thrown message is the server's `data.error` when the error has a response with a non-empty one, otherwise the fallback; never empty when the fallback is not |
| AuthContext.StepCheckAuthStatus | app/context/AuthContext.tsx:48-72 | loading is false on every path; with no truthy stored token, no auth field and not the store changes; with a stored token and a `success && valid` answer the session takes the stored token and the returned user and is authenticated; otherwise the store is emptied and the session's auth fields are untouched; consistency is preserved |
| AuthContext.StepSignIn | app/context/AuthContext.tsx:74-144 | on a `success` answer store = token = returned JWT, user = returned user, authenticated, loading untouched; a `success: false` answer changes nothing; a thrown error changes nothing and rejects with the original error (Google) or an `Error` carrying the server message or fallback (email login, signup); consistency is preserved |
| AuthContext.StepLogout | app/context/AuthContext.tsx:146-151 | store empty, token and user null, not authenticated, loading untouched; the result is consistent whatever the state before |
| AuthContext.AuthProvider.constructor | app/context/AuthContext.tsx:39-42 | the new provider is unauthenticated and undecided (no user, no token, loading) and consistent; the store is left as it was |
| AuthContext.AuthProvider.CheckAuthStatus | app/context/AuthContext.tsx:48-72 | the method's new session and store are exactly those of `StepCheckAuthStatus`, and the object invariant is kept |
| AuthContext.AuthProvider.Establish | app/context/AuthContext.tsx:85-90 | the JWT is persisted; then token and user are set and the session is authenticated, with loading unchanged |
| AuthContext.AuthProvider.Login | app/context/AuthContext.tsx:74-96 | new session, store and completion are those of `StepSignIn(Google, …)`; invariant kept |
| AuthContext.AuthProvider.LoginWithEmail | app/context/AuthContext.tsx:98-120 | new session, store and completion are those of `StepSignIn(EmailLogin, …)`; invariant kept |
| AuthContext.AuthProvider.Signup | app/context/AuthContext.tsx:122-144 | new session, store and completion are those of `StepSignIn(Signup, …)`; invariant kept |
| AuthContext.AuthProvider.Logout | app/context/AuthContext.tsx:146-151 | new session and store are those of `StepLogout`; the invariant holds afterwards from any state |
| Api.Decorate | app/utils/api.ts:13-17 | with a truthy stored token the headers gain exactly `Authorization = "Bearer " + token`, every other header kept; with none or an empty string the headers are returned untouched |
| Api.StoreAfterRejection | app/utils/api.ts:23-33 | a 401 or 403 empties the store; any other status or no response leaves it as it was |
| Api.RequestInterceptor | app/utils/api.ts:12-18 | returns the same config object whose headers are now `Decorate` of the old headers and the store read at this call |
| Api.ResponseInterceptor | app/utils/api.ts:21-34 | the outcome is passed on as it came (an answer unchanged, an error rejected again, never retried); the store changes only as `StoreAfterRejection` says, and not at all on an answer |
| Api.Send | app/utils/api.ts:7-34 | one call through the client: the headers sent, which are also the config's headers afterwards, are decorated from the store as it was before the call; the outcome is the transport's, and the store is updated by the response stage |
| Settings.Trim | app/settings.tsx:26 | the trimmed name is empty exactly when every character is JavaScript whitespace; otherwise it neither starts nor ends with whitespace |
| Settings.TrimIsSlice | app/settings.tsx:26 | the trimmed name is the part of the input left after cutting off a blank prefix and a blank suffix |
| Settings.TrimIdempotent | app/settings.tsx:26 | trimming a trimmed name changes nothing, so the name passed on is already in trimmed form |
| Settings.Utf16Length | app/settings.tsx:37 | `length` lies between the number of characters and twice it, and equals it exactly when every character is in the Basic Multilingual Plane |
| Settings.Utf16One | app/settings.tsx:37 | one character counts one code unit, or two outside the Basic Multilingual Plane |
| Settings.Utf16Additive | app/settings.tsx:37 | the code-unit length of a concatenation is the sum of the lengths, so with `Utf16One` it is fixed for every string |
| Settings.Validate | app/settings.tsx:25-41 | "Name is required" exactly when the name is blank; "Passwords do not match" exactly when the name is not blank, either field is non-empty and they differ; "too short" exactly when they match, are non-empty and are under 6 code units; otherwise submit the trimmed name and the password, or `undefined` if it is empty |
| Settings.NoPasswordSubmitsName | app/settings.tsx:31-45 | with both password fields empty no password rule applies and `updateProfile(name.trim(), undefined)` follows |
| Settings.SubmittedPasswordIsLongEnough | app/settings.tsx:37-45 | a password that is sent has at least 6 code units, so the length hint is not shown for it |
| Settings.PasswordHints | app/settings.tsx:112-116 | the length hint is shown exactly when `length < 6`, the uppercase hint exactly when no `A`–`Z` occurs, the lowercase hint exactly when no `a`–`z` occurs; no hint twice, and those shown come in the order length, uppercase, lowercase |
| Settings.HintTextsDiffer | app/settings.tsx:113-115 | the three hint texts differ, so each line on screen names one rule |
| Settings.HintLines | app/settings.tsx:112-116 | the length line is shown exactly when `length < 6`, the uppercase line exactly when no `A`–`Z` occurs, the lowercase line exactly when no `a`–`z` occurs; no line twice, one line per hint in the hints' order |
| Settings.LongMatchingPasswordSubmits | app/settings.tsx:31-45 | for every non-blank name, a password of at least 6 code units typed twice is sent as it is with the trimmed name, whatever letters it holds |
| Settings.CaseHintsDoNotBlockUpdate | app/settings.tsx:113-115 | the case hints are advice only: for every non-blank name, "123456" shows both and still passes `handleUpdate`'s checks |
| Settings.SettingsScreen.constructor | app/settings.tsx:20-23 | the form starts with the user's name (or "" without a user), empty password fields and not loading |
| Settings.SettingsScreen.HandleUpdate | app/settings.tsx:25-54 | when `Validate` rejects, no call is made, the error alert carries its message and `loading` is untouched; when it submits, `updateProfile` gets the validated arguments, loading is false afterwards, and the alert is the success alert or the error's message (falling back to "Failed to update profile") |
| Lifecycle.RunPreservesConsistent | app/context/AuthContext.tsx:39-151 | every run of operations and gateway rejections keeps `isAuthenticated` ⇔ `token ≠ null` ⇔ `user ≠ null` |
| Lifecycle.NoCredentialNeverAuthenticates | app/context/AuthContext.tsx:48-72 | starting unauthenticated with no usable stored token, no run without a successful sign-in ever authenticates or stores a usable token |
| Lifecycle.LoadingStaysCleared | app/context/AuthContext.tsx:69-71 | once loading is false no operation sets it back |
| Lifecycle.StartupSettles | app/context/AuthContext.tsx:44-46 | after the startup verification, whatever follows, loading is false |
| Lifecycle.SignedInRequestsCarryToken | app/utils/api.ts:12-17 | after a successful sign-in with a non-empty token, the next request carries "Bearer " + the token the session holds |
| Lifecycle.AuthFailureEndsCredentialNotSession | app/utils/api.ts:24-32 | a 401/403 empties the store, leaves the session as it was, and the next request goes out without a bearer header |
| Lifecycle.StaleSessionAfterAuthFailure | app/utils/api.ts:29-31 | after an email login and a 401 the session still reports authenticated with its token, while requests carry no Authorization header |
| Lifecycle.SharedStoreScenario | app/utils/api.ts:12-32 | with one store shared by provider and client: startup, email login, a request carrying the new token, a 401, then a bare request, while the provider still reports authenticated |

## Left out

- Transport and storage: real HTTP, encryption and `expo-secure-store` I/O. The
  store is one field. A failing storage call is not modelled, so `setItemAsync`
  and `deleteItemAsync` always succeed.
- Request contents: request bodies (id token, email, password, name), the verify
  call's own bearer header, and the base URLs and endpoint paths. Only the reply
  to each call is an input.
- Async interleaving: concurrent or overlapping operations and React's batching
  of state updates. Each operation is one atomic step.
- Rendering: JSX, alerts beyond their title and message, router navigation
  (`router.back()` after success), and `console.log`/`console.error`.
- Regular expressions: `/[A-Z]/` and `/[a-z]/` are modelled by their meaning,
  "some character lies in the range".
- `updateProfile`: `AuthContext.tsx` does not define it, so its outcome is a
  parameter of `HandleUpdate`.
- Habits: listing, creation, check-ins and streaks lie outside the session
  layer and are not part of this model.
- Server answers whose shape breaks the contract (for example a `success` reply
  without a `user`). The reply types always carry the fields the code reads.
