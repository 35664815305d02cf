# auth-ui session and API-client model

A Dafny model of the two pieces of logic in the auth-ui Next.js client that go beyond rendering:

- **The API client** (`AuthService`). It builds the login, signup and profile requests. It attaches `Authorization: Bearer <token>` from the stored `auth_token`. It turns a non-OK response's `message` field into one display string: a list becomes a bulleted string, a truthy scalar is used unchanged, and anything else becomes a per-operation fallback. `fetch` is replaced by a `Response` parameter: `Ok(payload)` or `NotOk(errorBody)`. The result is an `Exchange`: the request sent, plus the outcome, which is `Resolved(value)` or `Rejected(message)`.
- **The session provider** (`AuthProvider`). It is a class with a `user` field that is `None` (anonymous) or `Some(u)` (authenticated). It works over a `LocalStorage` object that holds a `map<string, string>`. Several providers may share that object, as they share the browser's `localStorage`. `Login` writes `auth_user` and `auth_token`, and `Logout` removes both. `Hydrate` is the one-time mount effect: it restores `user` from `auth_user`.

`JSON.stringify`/`JSON.parse` of the user record are modelled by `UserJson`. It has a canonical encoding `{"id":…,"username":"…","email":"…"}` and a parser for that shape. The round trip `Parse(Serialize(u)) == Some(u)` and its converse (whatever `Parse` accepts is exactly what `Serialize` writes) are proved, not assumed.

Modules: `Wrappers` (Option), `AuthTypes` (the `User` and `AuthResponse` records of `auth.type.ts`), `UserJson`, `Storage` (the `LocalStorage` class and the two key names), `AuthService`, `AuthProvider`.

Behaviour worth noting:
- Only `getProfile` attaches a bearer header. Login and signup send `Content-Type` alone, and `Login`/`Signup` state that no `Authorization` header is sent.
- A list `message` is used even when it is empty, because an empty array is truthy in JavaScript. So `message: []` gives `"• "`, not the fallback (`EmptyListQuirk`).

## Model

| member | source | states |
|---|---|---|
| `AuthService.Fallback` | src/app/services/auth.service.ts:30-31 | Both fallbacks (login's on line 31, signup's on line 51) are non-empty |
| `AuthService.Bulleted` | src/app/services/auth.service.ts:26-27 | The list message starts with the bullet "• "; an empty list gives exactly "• "; a one-item list `[m]` gives "• " + m |
| `AuthService.ErrorMessage` | src/app/services/auth.service.ts:26-31 | The normalised error message is never empty, whatever the error body holds |
| `AuthService.JoinSnoc` | src/app/services/auth.service.ts:27 | `join` appends each further item after one separator: join(xs + [y]) = join(xs) + sep + y |
| `AuthService.BulletedIsOneLinePerMessage` | src/app/services/auth.service.ts:27 | For a non-empty list, `'• ' + join('\n• ')` is the same as one line per message, each line being "• " followed by the message |
| `AuthService.EmptyListQuirk` | src/app/services/auth.service.ts:26-27 | `message: []` is truthy, so login rejects with "• " and not with the fallback |
| `AuthService.GetAuthToken` | src/app/services/auth.service.ts:4-6 | The token is present exactly when `auth_token` is a key of the store, and it is then that key's value |
| `AuthService.AuthHeaders` | src/app/services/auth.service.ts:9-15 | Headers always have `Content-Type: application/json` and have no keys other than `Content-Type` and `Authorization`; `Authorization` is present iff the token is present and non-empty, and it is then "Bearer " + token |
| `AuthService.BearerCredentials` | src/app/services/auth.service.ts:13 | A credential is found exactly when the `Authorization` value starts with the exact `Bearer <token>` form the client writes, and it is the value with that prefix removed |
| `AuthService.AuthorizationCarriesToken` | src/app/services/auth.service.ts:13 | The `Authorization` header built for a non-empty token yields exactly that token when read back as a bearer credential |
| `AuthService.LoginRequest` | src/app/services/auth.service.ts:18-22 | Login POSTs to /auth/login with only `Content-Type: application/json`; its body has exactly the keys `email` and `password`, holding the given values |
| `AuthService.Login` | src/app/services/auth.service.ts:17-35 | On OK, login resolves with the payload. Otherwise it rejects with: a list message as "• " + join("\n• "); a non-empty string message unchanged; "Invalid credentials" when the message is absent or empty. No bearer header is ever sent |
| `AuthService.SignupRequest` | src/app/services/auth.service.ts:38-42 | Signup POSTs to /auth/signup with only `Content-Type`; its body has exactly the keys `firstName`, `lastName`, `email` and `password`, holding the given values |
| `AuthService.Signup` | src/app/services/auth.service.ts:37-55 | Normalises errors the same way as login, with the fallback "Signup failed"; on OK it resolves with the payload; no bearer header is ever sent |
| `AuthService.ProfileRequest` | src/app/services/auth.service.ts:59-62 | The profile GET carries `Content-Type`, and carries `Authorization: Bearer <auth_token>` exactly when the stored token is present and non-empty |
| `AuthService.GetProfile` | src/app/services/auth.service.ts:58-67 | Any non-OK response rejects with "Failed to fetch profile", whatever its body says; an OK one resolves with the payload |
| `AuthService.LoginSignupAgree` | src/app/services/auth.service.ts:23-53 | For a truthy message, login and signup reject with the same text; for a falsy one, each rejects with its own fallback |
| `AuthService.RejectionsAreNonEmpty` | src/app/services/auth.service.ts:17-67 | Every rejection of login, signup or getProfile carries a non-empty message |
| `Storage.Lookup` | src/app/context/auth-provider.tsx:11 | `getItem` gives a value exactly when the key is stored, and the value is the stored string |
| `Storage.LocalStorage.GetItem` | src/app/context/auth-provider.tsx:11 | `localStorage.getItem` gives the stored value exactly when the key is present, and changes nothing |
| `Storage.LocalStorage.SetItem` | src/app/context/auth-provider.tsx:20-21 | `localStorage.setItem` maps the key to the value and leaves every other entry as it was |
| `Storage.LocalStorage.RemoveItem` | src/app/context/auth-provider.tsx:27-28 | `localStorage.removeItem` drops the key and leaves every other entry as it was |
| `UserJson.Serialize` | src/app/context/auth-provider.tsx:20 | The serialised user is a non-empty string starting with `{`, so the mount effect's truthiness test passes on it |
| `UserJson.Parse` | src/app/context/auth-provider.tsx:13 | Whatever the parser accepts as user u is exactly the text `Serialize` writes for u; integers with leading zeros or written as `-0`, which JSON forbids or `Serialize` never writes, are refused |
| `UserJson.ParseIsInverse` | src/app/context/auth-provider.tsx:13-20 | The stored text parses to user u if and only if it is the text login wrote for u |
| `UserJson.ParseSerialize` | src/app/context/auth-provider.tsx:13-20 | Parsing what login serialised gives back the same user |
| `AuthProvider.HydrationOf` | src/app/context/auth-provider.tsx:10-15 | The mount effect is skipped exactly when `auth_user` is missing or empty; it restores u only when `auth_user` parses to u; it fails exactly when a non-empty `auth_user` does not parse |
| `AuthProvider.StoreAfterLogin` | src/app/context/auth-provider.tsx:17-22 | After login, `auth_user` holds the serialised user and `auth_token` the access token; the key set gains only these two keys, and every other key keeps its value |
| `AuthProvider.StoreAfterLogout` | src/app/context/auth-provider.tsx:24-29 | After logout neither session key is present; every other key remains with its value |
| `AuthProvider.AuthProvider.constructor` | src/app/context/auth-provider.tsx:8 | A new provider is anonymous (`user == None`) over the given store |
| `AuthProvider.AuthProvider.Hydrate` | src/app/context/auth-provider.tsx:10-15 | The effect sets `user` to the restored user when `auth_user` parses, and otherwise leaves `user` unchanged; it changes nothing else |
| `AuthProvider.AuthProvider.Login` | src/app/context/auth-provider.tsx:17-22 | `user` becomes the logged-in user, and the store becomes `StoreAfterLogin` of the old store |
| `AuthProvider.AuthProvider.Logout` | src/app/context/auth-provider.tsx:24-29 | `user` becomes None, and the store becomes `StoreAfterLogout` of the old store |
| `AuthProvider.ReloadAfterLogin` | src/app/context/auth-provider.tsx:10-22 | Hydrating from the store login left behind restores exactly the user who logged in |
| `AuthProvider.ReloadAfterLogout` | src/app/context/auth-provider.tsx:10-29 | Hydrating from the store logout left behind is skipped, so the provider stays anonymous |
| `AuthProvider.LogoutIdempotent` | src/app/context/auth-provider.tsx:24-29 | Logging out twice leaves the same store as logging out once |
| `AuthProvider.LoginThenLogout` | src/app/context/auth-provider.tsx:17-29 | Login followed by logout leaves the same store as logout alone |
| `AuthProvider.HydrationIgnoresToken` | src/app/context/auth-provider.tsx:10-15 | Hydration does not depend on `auth_token`: setting or removing it does not change the result |
| `AuthProvider.SessionStaysPaired` | src/app/context/auth-provider.tsx:17-29 | After login both session keys are present, and after logout neither is |
| `AuthProvider.ProfileRequestFollowsSession` | src/app/services/auth.service.ts:9-15 | After login, the profile request carries "Bearer " + the new token iff that token is non-empty; after logout it carries no `Authorization` header |
| `AuthProvider.ReloadAfterLoginScenario` | src/app/context/auth-provider.tsx:8-22 | A second, new provider over the same storage, mounted after a login, holds the logged-in user, and the store is as after that login |
| `AuthProvider.ReloadAfterLogoutScenario` | src/app/context/auth-provider.tsx:8-29 | After login and two logouts, a new provider mounted afterwards is anonymous, and the store is as after a single logout |

## Left out

- Network I/O: `fetch`, `await`, `response.json()` and the `NEXT_PUBLIC_API_URL` base-URL lookup. A response is given as a parameter, and request paths are written without the base URL.
- JavaScript stringification of non-string `message` values is left out. `message` is modelled as absent, a string, or a list of strings, so a numeric message or list items that are not strings are not covered. A `null` or `false` message behaves like `Absent`.
- UserJson.Parse: accepts only the canonical text that `UserJson.Serialize` writes, and this is proved (`UserJson.ParseIsInverse`). Apart from raw control characters inside a string (see the `UserJson.Serialize` line below), it accepts nothing that `JSON.parse` rejects. Real `JSON.parse` also accepts whitespace, other key orders and other values, and a user stored that way is not restored. `JSON.parse` throws on malformed text; that throw is modelled as the `ParseFailed` result, with `user` left unchanged.
- UserJson.Serialize: escapes only `"` and `\`. `JSON.stringify` also escapes control characters (`\n`, `\uXXXX`, …). The `id` is modelled as an integer, not a JavaScript number.
- AuthService.BearerCredentials: reads only the exact form the client writes: "Bearer" in that case, followed by one space. Section 2.1 of RFC 6750 also allows several spaces and a case-insensitive scheme name (section 2.1 of RFC 7235). It does not check the token against the `b64token` character set either, and neither does the source.
- React mechanics: `useState`/`useEffect` scheduling, the context object, and the throw-if-missing guard of `useAuth` in src/app/context/auth-context.tsx. The mount effect is the method `Hydrate`, which a caller runs once.
- The page components (src/app/page.tsx, src/app/signup/page.tsx, src/app/home/page.tsx): rendering, router redirects, the signup page's three-second redirect timer, and the `if (user)` route guards.
- The two `localStorage` writes in `login` are modelled as happening together. A failure between them is not modelled, because execution is single-threaded and the source does not say what such a failure would do.
- src/app/utils/types/user.type.ts is not part of this model. The `User` record follows the user shape in src/app/utils/types/auth.type.ts.
