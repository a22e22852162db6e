# Authentication state machine of auth-api

A Dafny model of the authentication core of a Laravel JSON API: a user
store keyed by email and a Sanctum bearer-token store, the controller
actions that change them (register, login, refresh-token rotation, logout,
logout from all devices, password reset), the read-only actions
(forgot-password, resend-verification), the OAuth callback shared by Google
and Facebook, the two custom middleware (created-at token expiry with
revocation, the `refresh` ability gate), the middleware order of each
protected route, and the `auth-general` rate-limiter key.

Layout:

- `domain.dfy` (`Domain`): users, tokens, the two stores as one `State`
  value, the database invariant `Valid`, responses, and the library
  behaviour the controllers rely on: `Hash`/`HashCheck` (an injective
  stand-in for bcrypt), `TokenCan` (`*` grants every ability), `PhpEmpty`
  (null, `""` and `"0"`).
- `store.dfy` (`Store.Database`): the tables as a class whose Eloquent
  operations update its fields in place.
- `passwords.dfy` (`Passwords`): the password rule of register and reset.
- `auth_rules.dfy` (`AuthRules`): each credential-controller action as a
  function from the stores before to the response and the stores after.
- `auth_controller.dfy` (`AuthController`): the state-changing actions
  carried out step by step on a `Database`, each proved to end in the state
  the matching `AuthRules` function gives.
- `social_auth.dfy` (`SocialRules`, `SocialAuthController`): the OAuth
  callback, parameterised by provider, as a function and as a method.
- `middleware.dfy` (`Middleware`): Sanctum's guard, `ExpireSanctumToken`,
  `EnsureTokenHasRefreshAbility`, `verified` and `throttle`.
- `routes.dfy` (`Routes`): the throttle key, middleware chains and the
  protected endpoints.
- `scenarios.dfy` (`Scenarios`): properties over several requests.

Time is whole minutes. A token's id stands for its plaintext secret. A token
is owned by its user's email, since no action changes an email. Whatever
the request cannot decide itself is a parameter: the breached-password
verdict, the password broker's verdicts, the rate limiter's verdict, the
provider exchange's result, and the random strings.

Consequences of the code worth noting:

- Tokens minted with `['*']` pass the `refresh` ability gate. These are
  the registration token, the OAuth tokens and the access token a rotation
  mints. Only login's `['access']` token is refused.
- `/refresh` also requires a verified email. So a user who has just
  registered gets 403 from `/refresh`, not a new pair.
- Login's tokens have no expiry.
- The router sorts each route's middleware by the framework's priority
  list, so on `/refresh` the rate limiter runs before the `refresh` ability
  gate although the route names them the other way round. A rate-limited
  request with login's access token gets 429, not 403.
- Forgot-password answers 500 when the broker does not report that it sent
  the link.

## Model

| member | source | states |
|---|---|---|
| Domain.AddUser | application/app/Http/Controllers/AuthController.php:39-43 | inserting a user adds exactly that row, changes no other row and no token, and keeps the store valid |
| Domain.SaveUser | application/app/Http/Controllers/AuthController.php:119-122 | saving a user row replaces that row only; tokens are untouched |
| Domain.Mint | application/app/Http/Controllers/AuthController.php:45 | `createToken` adds exactly one token, under a fresh id, with the given owner, name, abilities, creation time and expiry; every other token is unchanged |
| Domain.Revoke | application/app/Http/Controllers/AuthController.php:156 | deleting a token removes that id and no other |
| Domain.RevokeAll | application/app/Http/Controllers/AuthController.php:166 | deleting a user's tokens leaves that user none and leaves every other user's tokens as they were |
| Store.Database.CreateUser | application/app/Http/Controllers/AuthController.php:39-43 | the table update matches `AddUser` |
| Store.Database.UpdateUser | application/app/Http/Controllers/AuthController.php:119-122 | the table update matches `SaveUser` |
| Store.Database.CreateToken | application/app/Http/Controllers/AuthController.php:45 | returns the id it used; the table update matches `Mint` |
| Store.Database.DeleteToken | application/app/Http/Controllers/AuthController.php:156 | the table update matches `Revoke` |
| Store.Database.DeleteTokensOf | application/app/Http/Controllers/AuthController.php:166 | the table update matches `RevokeAll` |
| Passwords.Contains | application/app/Http/Controllers/AuthController.php:31-34 | a class test holds exactly when some character of the password is in the class |
| Passwords.Accepts | application/app/Http/Controllers/AuthController.php:30-35 | accepted exactly when the password has length at least 8, a letter, a lower-case and an upper-case letter, a digit and a symbol, and the breach lookup clears it |
| Passwords.MixedCaseImpliesLetter | application/app/Http/Controllers/AuthController.php:31-32 | a password with both cases always has a letter |
| Passwords.ShortPasswordRefused | application/tests/Feature/AuthTest.php:21-32 | "123" is refused |
| Passwords.RegisterTestPasswordAccepted | application/tests/Feature/AuthTest.php:37-48 | "passwordCreate12!" is accepted |
| Passwords.ResetTestPasswordAccepted | application/tests/Feature/AuthTest.php:87-105 | "novaSenha123!" is accepted |
| AuthRules.Register | application/app/Http/Controllers/AuthController.php:21-50 | 201 exactly when name, email (well formed, not taken) and password (confirmed, strong) pass. A taken email or a weak password gives 422 naming that field, and every 422 leaves both stores unchanged. On 201 exactly one user (unverified, with that name and password hash) and exactly one `*` token owned by it are added, and the answer carries that token |
| AuthRules.Login | application/app/Http/Controllers/AuthController.php:55-75 | 422 on a missing (null, or blank after trimming) or malformed field; 401 "Credenciais inválidas" exactly when the email is unknown or the hash check fails; no token is created unless 200. On 200 exactly two new tokens with distinct ids are added: `{access}` and `{refresh}`, neither with an expiry |
| AuthRules.Refresh | application/app/Http/Controllers/AuthController.php:80-93 | removes exactly the presented token and adds a `*` token expiring at now+60 and a `{refresh}` token expiring at now+10080 for its owner; all other tokens and all users unchanged |
| AuthRules.Logout | application/app/Http/Controllers/AuthController.php:154-159 | removes only the presented token |
| AuthRules.LogoutAll | application/app/Http/Controllers/AuthController.php:164-169 | the caller is left with no tokens; every other user's tokens are unchanged |
| AuthRules.ResetPassword | application/app/Http/Controllers/AuthController.php:98-131 | 200 exactly when validation passes and the broker reports PASSWORD_RESET. Then the user's hash is the new password's, its remember token is replaced, its other columns, all other users and all tokens are unchanged. Otherwise 422 with nothing changed |
| AuthRules.ForgotPassword | application/app/Http/Controllers/AuthController.php:136-149 | unknown or malformed email gives 422 and no notification; for a known user, 200 "Link de redefinição enviado para o email." when the broker sent the link and 500 "Não foi possível enviar o link." otherwise; a notification goes out exactly on 200 |
| AuthRules.ResendVerification | application/app/Http/Controllers/AuthController.php:192-201 | with no user, 500; with a verified user, "E-mail já verificado." and nothing sent; with an unverified user, 200 "Link de verificação enviado." and a mail is sent |
| AuthController.Register | application/app/Http/Controllers/AuthController.php:21-50 | the response and new stores are those of `AuthRules.Register` |
| AuthController.Login | application/app/Http/Controllers/AuthController.php:55-75 | the response and new stores are those of `AuthRules.Login` |
| AuthController.Refresh | application/app/Http/Controllers/AuthController.php:80-93 | the response and new stores are those of `AuthRules.Refresh` |
| AuthController.Logout | application/app/Http/Controllers/AuthController.php:154-159 | the response and new stores are those of `AuthRules.Logout` |
| AuthController.LogoutAll | application/app/Http/Controllers/AuthController.php:164-169 | the response and new stores are those of `AuthRules.LogoutAll` |
| AuthController.ResetPassword | application/app/Http/Controllers/AuthController.php:98-131 | the response and new stores are those of `AuthRules.ResetPassword` |
| SocialRules.FirstMissing | application/app/Http/Controllers/Auth/SocialAuthController.php:33-49 | an empty email is reported whatever name and id are; then an empty name; then the provider's id message; nothing exactly when all three are non-empty |
| SocialRules.NewSocialUser | application/app/Http/Controllers/Auth/SocialAuthController.php:112-119 | the new row has the given email and name, the provider's id slot set and the other empty, a hash of the random password, and no verification |
| SocialRules.FirstOrCreate | application/app/Http/Controllers/Auth/SocialAuthController.php:51-58 | an existing user is kept unchanged; otherwise exactly one row is added |
| SocialRules.Callback | application/app/Http/Controllers/Auth/SocialAuthController.php:22-72 | exchange failure gives 500 with its message; an empty email gives 422 "Email ausente ou inválido"; any missing attribute gives 422 with the first one's message (email, then name, then the provider's id); every non-200 changes nothing. On 200 the user is reused unchanged or created once, and exactly one `*` token named `google-token`/`facebook-token` owned by it is added |
| SocialRules.RepeatSignInReusesUser | application/tests/Feature/SocialAuthTest.php:126-145 | a second successful sign-in with the same email, through either provider, leaves the user store as it was and adds one token to that user |
| SocialAuthController.Callback | application/app/Http/Controllers/Auth/SocialAuthController.php:22-133 | both handlers (Google at 22-72, Facebook at 83-133) in one method parameterised by provider; the response and new stores are those of `SocialRules.Callback` |
| Middleware.Authenticate | application/routes/api.php:25 | the guard resolves exactly a presented, stored token whose owner exists and whose expiry, if any, is not past |
| Middleware.GuardWithExpiration | application/routes/api.php:25 | with `sanctum.expiration` null or 0 the guard is `Authenticate`; otherwise it also refuses a token unless now < created_at + expiration |
| Middleware.ExpiryUnreachableBehindGuard | application/app/Http/Middleware/ExpireSanctumToken.php:21-23 | under the same setting, a token the guard accepts is never found expired by the middleware, which then passes the request and deletes nothing |
| Middleware.ExpireCheck | application/app/Http/Middleware/ExpireSanctumToken.php:16-27 | no token, or expiration unset or 0, passes with nothing changed. 401 "Token expirado" exactly when created_at + expiration < now, and then exactly that token is deleted. Otherwise the request passes and nothing changes |
| Middleware.ExpireSanctumToken | application/app/Http/Middleware/ExpireSanctumToken.php:16-27 | the verdict and new stores are those of `ExpireCheck` |
| Middleware.RefreshAbility | application/app/Http/Middleware/EnsureTokenHasRefreshAbility.php:16-22 | passes exactly when there is a token and it grants `refresh`; otherwise 403 "Token não autorizado para refresh", including when no user is authenticated; returns no new state |
| Middleware.Verified | application/routes/api.php:41 | passes exactly when the token's owner has verified their email; otherwise 403 |
| Middleware.Throttle | application/routes/api.php:29 | stops with 429 exactly when the limiter says so |
| Routes.Lower | application/routes/api.php:14 | same length; each character lower-cased in ASCII |
| Routes.ThrottleKey | application/routes/api.php:12-18 | starts with "auth|"; with a non-empty email the rest is the email without ASCII upper case; otherwise the rest is the client address |
| Routes.ThrottleKeyIgnoresCase | application/routes/api.php:14 | two non-empty emails get the same key exactly when they differ only in letter case |
| Routes.Step | application/routes/api.php:25 | a stage lets through only resolved tokens, and after the guard a token is always present |
| Routes.Run | application/routes/api.php:25 | a chain that passes a request hands on a resolved token whenever it contains the guard |
| Routes.RunAppend | application/routes/api.php:25 | running a chain in two parts is running it whole; the second part runs only if the first lets the request through |
| Routes.AuthenticationFirst | application/routes/api.php:25 | a chain led by the guard answers 401 to a request with no live token, whatever checks follow |
| Routes.FindMove | application/routes/api.php:25 | one scan of the middleware sorter: if it finds nothing to move, the ranked stages from that point on are in priority order and none outranks the last one seen; a move it finds goes strictly forward |
| Routes.MovePermutes | application/routes/api.php:25 | moving a stage forward only reorders the chain |
| Routes.SortMiddleware | application/routes/api.php:25 | a sorted chain is a permutation of the written one with its ranked stages (guard, limiter, bindings) in priority order |
| Routes.RefreshRouteSorted | application/routes/api.php:24-26 | the `api` group's bindings plus the written `[auth:sanctum, refresh.ability, throttle, verified]` sort to guard, limiter, bindings, ability gate, verified |
| Routes.UserRouteSorted | application/routes/api.php:39-41 | the /user chain sorts to guard, bindings, verified |
| Routes.GuardedThrottledRouteSorted | application/routes/api.php:29-30 | the /logout and /logout-all chains sort to guard, limiter, bindings, keeping their written order |
| Routes.ResendRouteAsWrittenSorted | application/routes/api.php:33-35 | the resend chain as written sorts to limiter, bindings |
| Routes.RefreshEndpoint | application/routes/api.php:24-26 | in the sorted order: 401 without a live token, before any other check; then 429 when limited; then 403 for a token without `refresh`; then 403 for an unverified owner; otherwise rotation. Every refusal changes nothing |
| Routes.UserEndpoint | application/routes/api.php:39-41 | 401 without a live token, 403 for an unverified user, else the user's row; nothing changes |
| Routes.LogoutEndpoint | application/routes/api.php:29 | 401 without a live token, 429 when limited, otherwise logout; no verification check |
| Routes.LogoutAllEndpoint | application/routes/api.php:30 | 401 without a live token, 429 when limited, otherwise logout-all; no verification check |
| Routes.ResendEndpointAsWritten | application/routes/api.php:33-35 | only the limiter runs, so the handler always sees no user |
| Routes.ResendAsWrittenFailsForTokenHolders | application/routes/api.php:33-35 | a request with a live token that is not rate limited still gets 500 and no mail |
| Routes.ResendEndpoint | application/routes/api.php:33-35 | with the guard in front: 401 without a live token; 429 and no mail when limited; otherwise 200, and a mail exactly when the owner is unverified |
| Scenarios.RegisterThenRegisterAgain | application/app/Http/Controllers/AuthController.php:25 | the registration token resolves to the new user; registering the same email again gives 422 and changes nothing |
| Scenarios.LoginTokensResolve | application/app/Http/Controllers/AuthController.php:68-74 | login's two tokens are distinct and both resolve to the user |
| Scenarios.LoginAccessTokenRefusedByRefresh | application/app/Http/Middleware/EnsureTokenHasRefreshAbility.php:18-19 | login's access token is refused by /refresh with 403, or with the limiter's 429 when limited, and nothing changes |
| Scenarios.RegisterTokenStopsAtVerification | application/routes/api.php:25 | the registration token passes the refresh gate, and /refresh then refuses the new, unverified user with 403 |
| Scenarios.SocialTokenPassesRefreshGate | application/app/Http/Controllers/Auth/SocialAuthController.php:61 | the OAuth token passes the refresh gate |
| Scenarios.RotationConsumesToken | application/app/Http/Controllers/AuthController.php:84-87 | after a rotation the presented token gets 401; the new access token can itself rotate within its hour |
| Scenarios.ResetThenLogin | application/app/Http/Controllers/AuthController.php:116-122 | after a reset, login succeeds with the new password and gets 401 with any other one that `required` accepts |
| Scenarios.BlankPasswordIsMissing | application/app/Http/Controllers/AuthController.php:57-60 | a login whose password is all spaces gets 422 naming `password`, not 401, even for a stored email, and changes nothing |
| Scenarios.LogoutKeepsOtherSessions | application/app/Http/Controllers/AuthController.php:156 | after logout the presented token fails and every other token authenticates as before |
| Scenarios.LogoutAllEndsCallersSessions | application/tests/Feature/AuthTest.php:157-170 | after logout-all none of the caller's tokens authenticates and every other user's token authenticates as before |

## Findings

| source | as written | input that shows it | evidently intended | confidence | as-written member | corrected member |
|---|---|---|---|---|---|---|
| application/routes/api.php:33-35 | the resend-verification route runs only `throttle:6,1`, so `$request->user()` is null for a bearer-token request and `->hasVerifiedEmail()` is called on null | POST /email/verification-notification with a live bearer token of an unverified user, under the rate limit: 500, no mail | a bearer route (`auth:sanctum` in front): 401 without a token, otherwise send or skip by verification state | medium: assumes the default guard is the session guard, whose configuration is not part of this model; not executed | Routes.ResendAsWrittenFailsForTokenHolders | Routes.ResendEndpoint |

## Left out

- Socialite's redirect and its code-for-profile exchange are network I/O. The exchange's outcome is an input: a profile, or the message of the exception it threw. Other exceptions the callback's catch-all would turn into 500 (database errors, for one) are not modelled.
- bcrypt is modelled as an injective constructor, so `Hash::check` is equality of hashes. Random strings (`Str::random`, the plaintext part of a token) are parameters or fresh ids.
- The password broker's internals are not modelled: reset-token storage, hashing, the 60-minute window, deleting the used token, and mail delivery. Its verdicts are inputs (`tokenValid`, `LinkStatus`). The reset-token table and its scheduled purge are not part of this model.
- The `uncompromised()` breach lookup is network code. Its verdict is an input.
- The rate limiter's counting and time windows are framework state. Its verdict is the input `limited`. The limiter in front of `/register`, `/login`, `/reset-password` and `/forgot-password` answers 429 before those actions. It is not composed with them, because it decides before any state is read.
- Signed-URL email verification (`verifyEmail`, the `signed` middleware), the constant `verificationNotice` answer, and the `Registered`/`PasswordReset` events (including the verification mail sent on registration) are framework side effects.
- `Auth::login` in the OAuth callback sets up a session. Sessions are not modelled, so a request that has not passed the guard has no user.
- Middleware.Authenticate: the route chains use Sanctum's guard with `sanctum.expiration` null. With the setting configured, the guard (`Middleware.GuardWithExpiration`) already refuses any token with created_at + expiration <= now, so `ExpireSanctumToken`'s strict test can never fire behind `auth:sanctum` (`Middleware.ExpiryUnreachableBehindGuard`): such a request gets 401 "Unauthenticated." and the token is not deleted. Where `ExpireSanctumToken` is registered is not part of this model, so it is modelled as a middleware of its own and is not placed in a route chain. The guard's update of `last_used_at` and its secret hashing are library code and are left out.
- Passwords.Accepts: the character classes of the rule's regular expressions (Unicode letters, cases, numbers, separators, symbols and punctuation) are narrowed to ASCII. The mixed-case pattern's `.` does not cross a newline, which is also not modelled; the model asks only for one lower-case and one upper-case letter anywhere.
- Domain.EmailShaped: Laravel's `email` rule, an RFC 5322 validator, is narrowed to "some `@` with text on both sides".
- Domain.Required: values are taken after Laravel's global input middleware, which trims every field except the passwords and turns empty strings into null. The rule itself treats null and any string made only of PHP `trim` characters as missing, so an untrimmed password of spaces is missing too.
- Middleware.Verified: the model assumes the `User` model implements `MustVerifyEmail`, which the feature test of the verified route relies on (tests/Feature/AuthTest.php:208-217). Without that interface, `verified` lets every user through, and a user who has just registered could rotate tokens on /refresh.
- User lookup by email is exact. A database collation that compares emails case-insensitively is not modelled.
- JSON serialisation of the user row (its hidden fields) lives in a model file that is not part of this model. Responses carry the whole row.
- Requests are taken to send `Accept: application/json`, as every feature test does. The 422 of each validation, the 401 of `auth:sanctum` and the 403 of `verified` are the JSON answers. A request that does not expect JSON gets redirects instead: back to the previous page with the errors in the session for a failed validation, to the `login` route for a refused guard, and to the `verification.notice` route for an unverified email. The 500 body "Server Error" of `AuthRules.ResendVerification` with no user also assumes `APP_DEBUG` is off; with it on, the JSON message is the exception's own text, "Call to a member function hasVerifiedEmail() on null".
- Routes.SortMiddleware: the framework's default middleware priority list and the `api` group's content (`SubstituteBindings` only) are taken from the framework, since the application's bootstrap file is not part of this model. Only the ranks of the guard, the limiter and `SubstituteBindings` are modelled. The sorter's restart loop is bounded by a `fuel` count of moves. `None` stands for running out, which the lemmas about the modelled routes show does not happen.
- Concurrent refresh rotations and concurrent find-or-create calls are not modelled; the model is sequential.
- CORS configuration and the scheduled console commands hold no logic of the core.
- Dates are whole minutes: `addDays(7)` is 10080 minutes, and seconds and time zones are not modelled.
