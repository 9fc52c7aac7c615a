# Login components of the forum front end, modelled in Dafny

This project models the four login components of the forum's web front end:

- **WebQRLogin** is the browser side of the QR login handshake. It asks the backend for a QR session. It shows the code. It opens a socket.io connection and joins the session's token. It then reacts to pushed events (`qr-status-update`, `qr-auth-success`, `qr-code-refreshed`, `connect_error`, `error`). On success it hands the JWT to `UserService.login`.
- **MobileSSO** is the sign-in button shown inside the mobile app's web view. It posts one `requestForumSSO` message to the host app.
- **AuthenticationRouter** chooses between a spinner, MobileSSO and WebQRLogin.
- **AdminLogin** is the administrator login form. It has a two-factor modal. After login, an admin check either keeps the session or logs the user out.

Each component has two parts:

- **A pure state value with one function per handler.** These functions are the specification. Their `ensures` clauses state what each event does and what it leaves alone.
- **A class with the component's own fields.** Its methods mirror the handlers. Each method is proved to move the object exactly as the matching function moves the value: `ensures State() == F(old(State()))`.

Side effects go into a ghost `log`: sockets opened, `join-qr-session` emits, `disconnect` calls, login calls with their JWT, posts to the app bridge, AdminLogin's HTTP requests, toasts, redirects and logouts, and MobileSSO's missing-bridge toast. Network and host results are inputs:

- the outcome of the QR creation request;
- the socket's events;
- whether the page runs in a browser and whether the app bridge or the `isIranNationApp` global is present;
- the results of the login and site requests.

Modules:

- `Js` (`js.dfy`): optional properties, JavaScript truthiness, and `String.prototype.trim` with its properties.
- `QRHandshake` (`qr_handshake.dfy`): the WebQRLogin state, handlers and render decisions.
- `QRLoginComponent` (`qr_component.dfy`): the `WebQRLogin` class.
- `QRHandshakeRuns` (`qr_runs.dfy`): whole runs of the handshake. A run feeds a sequence of inputs, and each input is taken only when the environment can produce it:
  - a push only from an open socket;
  - a regenerate click only while that button is shown;
  - a creation outcome only for a pending request.

  The handlers themselves never look at the current status.
- `SSOBridge` (`mobile_sso.dfy`), `AuthRouting` (`auth_router.dfy`), `AdminAuth` (`admin_login.dfy`): the other three components.

What the whole-run lemmas show about WebQRLogin, as the code is written:

- At most one socket is open at any time (`AtMostOneOpenSocket`).
- There are never more login calls than sockets created (`LoginsAtMostSockets`).
- After an authentication, with no creation request pending, no later input changes anything but the log, which keeps its old entries and gains only `disconnect` calls of the closed socket from unmounting, and no further login happens (`HandoffIsFinal`). The handlers are unguarded; the handoff is final only because it disconnects the socket that would deliver further events.
- The "no creation request pending" condition is needed. Suppose "generate new code" is clicked on an expired code and the old socket then delivers a JWT. The login happens, but the late creation success then replaces `authenticated` with `waiting` and opens a new live socket. One more auth success on that socket calls `login` a second time (`LateCreationReopens`, `LateCreationAllowsSecondLogin`).
- The `connect` handler joins the token the socket was created with. A reconnect after `qr-code-refreshed` therefore joins the original token, not the refreshed one (`ReconnectJoinsCreationToken`).
- Unmounting does not abort a pending creation request. If that request succeeds later, it opens a live socket (`UnmountKeepsPendingCreation`). The component's single unmount has already run, so nothing closes that socket.

## Model

| member | source | states |
|---|---|---|
| `QRHandshake.StartGeneration` | src/shared/components/auth/WebQRLogin.tsx:50-53 | every `generateQRCode` first shows `generating` and has one more request pending with its timer armed; nothing else changes |
| `QRHandshake.FailureMessage` | src/shared/components/auth/WebQRLogin.tsx:80-94 | an abort shows the fixed timeout text; a non-OK response shows `failed_to_generate_qr`; another error shows its own message, or `qr_generation_failed` when the message is empty |
| `QRHandshake.ResolveCreation` | src/shared/components/auth/WebQRLogin.tsx:55-94 | the timer is cleared on both paths; success sets URL and token from the response, shows `waiting` and opens a socket bound to exactly that token; failure always ends in `error` with `FailureMessage`, touching neither code nor socket |
| `QRHandshake.DisconnectSocket` | src/shared/components/auth/WebQRLogin.tsx:98-100 | afterwards no socket is live; a `disconnect` is logged only if a socket exists; the screen is unchanged |
| `QRHandshake.ConnectWebSocket` | src/shared/components/auth/WebQRLogin.tsx:97-105 | the old socket is disconnected before a new live one bound to `token` is opened |
| `QRHandshake.OnConnect` | src/shared/components/auth/WebQRLogin.tsx:107-110 | `connect` emits `join-qr-session` with the token the socket was created for, on that socket, and changes nothing else |
| `QRHandshake.OnStatusUpdate` | src/shared/components/auth/WebQRLogin.tsx:112-120 | `scanned` → `scanned`; `expired` and `cancelled` → `expired`; any other status changes nothing; only `status` ever changes |
| `QRHandshake.HandleAuthentication` | src/shared/components/auth/WebQRLogin.tsx:163-186 | the state becomes `authenticated` and the socket is disconnected; `login` is called once with the JWT, `registration_created=false` and `verify_email_sent=false`; one redirect is scheduled |
| `QRHandshake.OnAuthSuccess` | src/shared/components/auth/WebQRLogin.tsx:122-135 | a non-empty JWT is handed off; a missing or empty one gives `error` with "Authentication failed to return a session." and no login |
| `QRHandshake.OnCodeRefreshed` | src/shared/components/auth/WebQRLogin.tsx:137-144 | both URL and token are replaced and the state shows `waiting`; a join for the new token is emitted on the same socket |
| `QRHandshake.OnConnectError` | src/shared/components/auth/WebQRLogin.tsx:146-152 | the state is `error` with `websocket_connection_failed`; nothing else changes |
| `QRHandshake.OnSocketError` | src/shared/components/auth/WebQRLogin.tsx:154-160 | the state is `error` with the error's message, or `websocket_error` when it is empty; nothing else changes |
| `QRHandshake.HandlersIgnoreStatus` | src/shared/components/auth/WebQRLogin.tsx:112-160 | the new state after any status-setting event does not depend on the current status |
| `QRHandshake.Unmount` | src/shared/components/auth/WebQRLogin.tsx:44-48 | unmounting disconnects the socket, if any |
| `QRHandshake.RenderStatus` | src/shared/components/auth/WebQRLogin.tsx:188-215 | the regenerate button appears exactly in `expired`; `error` shows just the stored message in danger style; every other status shows a translated text |
| `QRHandshake.Render` | src/shared/components/auth/WebQRLogin.tsx:217-235 | the spinner shows iff the status is `generating` or `authenticated`; the image shows iff a non-empty URL is set and the status is `waiting`, `scanned` or `error`; spinner and image never show together |
| `QRHandshake.ErrorKeepsLastImage` | src/shared/components/auth/WebQRLogin.tsx:219-235 | after a socket error, the last QR image stays visible under the error text, with no regenerate button |
| `QRLoginComponent.WebQRLogin.constructor` | src/shared/components/auth/WebQRLogin.tsx:33-38 | the component starts in `generating` with no code, token, message or socket |
| `QRLoginComponent.WebQRLogin.ComponentDidMount` | src/shared/components/auth/WebQRLogin.tsx:40-42 | mounting starts a generation (`StartGeneration`) |
| `QRLoginComponent.WebQRLogin.ComponentWillUnmount` | src/shared/components/auth/WebQRLogin.tsx:44-48 | the object moves as `Unmount` |
| `QRLoginComponent.WebQRLogin.GenerateQRCode` | src/shared/components/auth/WebQRLogin.tsx:50-64 | the object moves as `StartGeneration` |
| `QRLoginComponent.WebQRLogin.SettleCreation` | src/shared/components/auth/WebQRLogin.tsx:66-94 | the object moves as `ResolveCreation` |
| `QRLoginComponent.WebQRLogin.DisconnectSocket` | src/shared/components/auth/WebQRLogin.tsx:98-100 | the object moves as `DisconnectSocket` |
| `QRLoginComponent.WebQRLogin.ConnectWebSocket` | src/shared/components/auth/WebQRLogin.tsx:97-105 | the object moves as `ConnectWebSocket` |
| `QRLoginComponent.WebQRLogin.OnConnect` | src/shared/components/auth/WebQRLogin.tsx:107-110 | the object moves as `OnConnect` |
| `QRLoginComponent.WebQRLogin.OnStatusUpdate` | src/shared/components/auth/WebQRLogin.tsx:112-120 | the object moves as `OnStatusUpdate` |
| `QRLoginComponent.WebQRLogin.OnAuthSuccess` | src/shared/components/auth/WebQRLogin.tsx:122-135 | the object moves as `OnAuthSuccess` |
| `QRLoginComponent.WebQRLogin.HandleAuthentication` | src/shared/components/auth/WebQRLogin.tsx:163-186 | the object moves as `HandleAuthentication` |
| `QRLoginComponent.WebQRLogin.OnCodeRefreshed` | src/shared/components/auth/WebQRLogin.tsx:137-144 | the object moves as `OnCodeRefreshed` |
| `QRLoginComponent.WebQRLogin.OnConnectError` | src/shared/components/auth/WebQRLogin.tsx:146-152 | the object moves as `OnConnectError` |
| `QRLoginComponent.WebQRLogin.OnError` | src/shared/components/auth/WebQRLogin.tsx:154-160 | the object moves as `OnSocketError` |
| `QRLoginComponent.WebQRLogin.View` | src/shared/components/auth/WebQRLogin.tsx:217-240 | the rendered view is `Render` of the current fields |
| `QRHandshakeRuns.AtMostOneOpenSocket` | src/shared/components/auth/WebQRLogin.tsx:97-105 | in every run from mount, the log's open sockets are exactly the live socket the component holds, so at most one |
| `QRHandshakeRuns.LoginsAtMostSockets` | src/shared/components/auth/WebQRLogin.tsx:163-176 | in every run, the login calls plus the live socket never outnumber the sockets created, so there are never more login calls than sockets |
| `QRHandshakeRuns.AuthenticatedIsFinal` | src/shared/components/auth/WebQRLogin.tsx:163-167 | from `authenticated`, with the socket closed and nothing pending, every run changes only the log: it keeps its old entries, gains only `disconnect` calls of the closed socket (none when there is no socket), and no login call |
| `QRHandshakeRuns.HandoffIsFinal` | src/shared/components/auth/WebQRLogin.tsx:122-135 | a JWT push with nothing pending logs in exactly once; later inputs change nothing in the resulting state but the log, which keeps its entries and gains only `disconnect` calls of the closed socket, and there is no further login |
| `QRHandshakeRuns.RunConcat` | src/shared/components/auth/WebQRLogin.tsx:44-186 | feeding two input sequences one after the other is the same as feeding their concatenation |
| `QRHandshakeRuns.HandleAuthenticationLogsInOnce` | src/shared/components/auth/WebQRLogin.tsx:163-186 | each `handleAuthentication` calls `login` exactly once, whatever the state |
| `QRHandshakeRuns.ResolveCreationLogsNoLogin` | src/shared/components/auth/WebQRLogin.tsx:55-94 | the end of a creation request never calls `login` |
| `QRHandshakeRuns.LateCreationReopens` | src/shared/components/auth/WebQRLogin.tsx:50-135 | from an expired code with a live socket, the inputs regenerate, JWT push, creation success end in `waiting` with a new live socket for the new token, after one login |
| `QRHandshakeRuns.LateCreationAllowsSecondLogin` | src/shared/components/auth/WebQRLogin.tsx:50-186 | one more JWT push on that new socket makes a second `login` call from the same component |
| `QRHandshakeRuns.ConnectScanAuthenticate` | src/shared/components/auth/WebQRLogin.tsx:122-186 | on any live socket, `connect`, `scanned` and an auth success with a JWT join the socket's token, end `authenticated` with the same code shown, disconnect the socket and log the JWT in once |
| `QRHandshakeRuns.ScanThenAuthenticate` | src/shared/components/auth/WebQRLogin.tsx:107-135 | create `abc123`, scan, authenticate with `xyz`: the browser joins `abc123`, disconnects, and logs in with `xyz` once |
| `QRHandshakeRuns.ExpireThenRegenerate` | src/shared/components/auth/WebQRLogin.tsx:198-209 | in the concrete run from mount (create `abc123`, `expired`, regenerate, create `def456`), the page returns to `waiting` on `def456`, and socket 0 is disconnected before socket 1 opens |
| `QRHandshakeRuns.TimeoutBeforeAnySocket` | src/shared/components/auth/WebQRLogin.tsx:53-93 | in the concrete run from mount whose first creation is aborted, the page ends in `error` with the timeout text and no socket was created |
| `QRHandshakeRuns.ReconnectJoinsCreationToken` | src/shared/components/auth/WebQRLogin.tsx:107-144 | after a refresh, a reconnect joins the creation token again, while the component shows the refreshed token |
| `QRHandshakeRuns.UnmountKeepsPendingCreation` | src/shared/components/auth/WebQRLogin.tsx:44-79 | in the concrete run from mount that unmounts and then sees the creation succeed, a live socket is opened |
| `SSOBridge.Click` | src/shared/components/auth/MobileSSO.tsx:21-41 | a click while signing in changes nothing; with the bridge, the flag is set and exactly one `{"action":"requestForumSSO"}` is posted; without it, nothing is posted, the error toast is raised and the flag stays false |
| `SSOBridge.RenderButton` | src/shared/components/auth/MobileSSO.tsx:49-58 | the button is disabled, and shows a spinner, exactly while `isSigningIn` |
| `SSOBridge.TapsKeepFlag` | src/shared/components/auth/MobileSSO.tsx:21-41 | any sequence of taps keeps "`isSigningIn` iff one request was posted" and never posts a second one |
| `SSOBridge.AtMostOneRequest` | src/shared/components/auth/MobileSSO.tsx:21-34 | from the initial state, any number of taps posts at most one request, and posts one exactly when some tap found the bridge |
| `SSOBridge.MobileSSO.constructor` | src/shared/components/auth/MobileSSO.tsx:11-14 | `isSigningIn` starts false and nothing has been posted |
| `SSOBridge.MobileSSO.HandleSignInClick` | src/shared/components/auth/MobileSSO.tsx:21-41 | the object moves as `Click` |
| `SSOBridge.MobileSSO.ButtonView` | src/shared/components/auth/MobileSSO.tsx:49-58 | the button is `RenderButton` of the flag |
| `AuthRouting.Mount` | src/shared/components/auth/AuthenticationRouter.tsx:20-33 | outside a browser nothing changes; in a browser detection completes and `isAppWebview` is the truthiness of `isIranNationApp` |
| `AuthRouting.Render` | src/shared/components/auth/AuthenticationRouter.tsx:35-50 | the spinner shows exactly while detection is incomplete; after that, exactly one of MobileSSO (in the app) or WebQRLogin (otherwise) |
| `AuthRouting.MountedScreen` | src/shared/components/auth/AuthenticationRouter.tsx:15-50 | the spinner shows before mounting and stays outside a browser; in a browser the app flag alone picks the variant |
| `AuthRouting.AuthenticationRouter.constructor` | src/shared/components/auth/AuthenticationRouter.tsx:15-18 | both flags start false |
| `AuthRouting.AuthenticationRouter.ComponentDidMount` | src/shared/components/auth/AuthenticationRouter.tsx:20-33 | the object moves as `Mount` |
| `AuthRouting.AuthenticationRouter.View` | src/shared/components/auth/AuthenticationRouter.tsx:35-50 | the screen is `Render` of the flags |
| `AdminAuth.LoginSuccess` | src/shared/components/auth/AdminLogin.tsx:46-66 | the response is first used to sign in and the site is fetched; `/admin` is reached iff the site request succeeded and `admin` is true; otherwise `logout` is called |
| `AdminAuth.Submit` | src/shared/components/auth/AdminLogin.tsx:68-90 | with an empty field nothing happens; otherwise `loginRes` becomes loading and the form's credentials are sent; success goes to the admin check; failure resets `loginRes` to empty, opens the modal on `missing_totp_token`, toasts any other failure name, and logs nothing else (no session, redirect or logout) |
| `AdminAuth.SubmitTotp` | src/shared/components/auth/AdminLogin.tsx:92-107 | the form credentials are resent with the code; it returns true iff the login succeeded, and only then closes the modal; success then runs the admin check (`LoginSuccess`), which logs a non-admin out; on failure the modal is unchanged and `incorrect_totp_code` is toasted |
| `AdminAuth.UsernameChange` | src/shared/components/auth/AdminLogin.tsx:109-111 | the user name is stored trimmed; nothing else changes |
| `AdminAuth.PasswordChange` | src/shared/components/auth/AdminLogin.tsx:112-114 | the password is stored verbatim; nothing else changes |
| `AdminAuth.Close2faModal` | src/shared/components/auth/AdminLogin.tsx:115-117 | the modal is closed; nothing else changes |
| `AdminAuth.BlankUsernameBlocksSubmit` | src/shared/components/auth/AdminLogin.tsx:72-77 | a whitespace-only user name is stored empty, so a later submit sends nothing and changes nothing |
| `AdminAuth.SubmitLeavesButton` | src/shared/components/auth/AdminLogin.tsx:160-170 | after a submit that sends a request, the button stays disabled exactly when the login succeeded |
| `AdminAuth.TotpNonAdminLoggedOut` | src/shared/components/auth/AdminLogin.tsx:46-107 | a user who passes the two-factor login but whom the admin check rejects is logged out, and is never redirected to `/admin` |
| `AdminAuth.TwoFactorPath` | src/shared/components/auth/AdminLogin.tsx:81-107 | `missing_totp_token` opens the modal; a correct code then closes it, and that step redirects an admin to `/admin` without logging them out |
| `AdminAuth.AdminLogin.constructor` | src/shared/components/auth/AdminLogin.tsx:33-38 | `loginRes` starts empty, both fields are `""` and the modal is closed |
| `AdminAuth.AdminLogin.HandleLoginSuccess` | src/shared/components/auth/AdminLogin.tsx:46-66 | the object moves as `LoginSuccess` |
| `AdminAuth.AdminLogin.HandleLoginSubmit` | src/shared/components/auth/AdminLogin.tsx:68-90 | the object moves as `Submit` |
| `AdminAuth.AdminLogin.HandleSubmitTotp` | src/shared/components/auth/AdminLogin.tsx:92-107 | the object and the returned flag are as `SubmitTotp` gives them |
| `AdminAuth.AdminLogin.HandleUsernameChange` | src/shared/components/auth/AdminLogin.tsx:109-111 | the object moves as `UsernameChange` |
| `AdminAuth.AdminLogin.HandlePasswordChange` | src/shared/components/auth/AdminLogin.tsx:112-114 | the object moves as `PasswordChange` |
| `AdminAuth.AdminLogin.HandleClose2faModal` | src/shared/components/auth/AdminLogin.tsx:115-117 | the object moves as `Close2faModal` |
| `AdminAuth.AdminLogin.SubmitButtonDisabled` | src/shared/components/auth/AdminLogin.tsx:163 | the submit button is disabled exactly while `loginRes` is loading |
| `Js.LeadingWhitespaceIsMaximal` | src/shared/components/auth/AdminLogin.tsx:110 | the counted leading run is all whitespace and the character after it, if any, is not |
| `Js.TrailingWhitespaceIsMaximal` | src/shared/components/auth/AdminLogin.tsx:110 | the counted trailing run is all whitespace and the character before it, if any, is not |
| `Js.AllWhitespaceIsLeading` | src/shared/components/auth/AdminLogin.tsx:110 | in an all-whitespace string the leading run is the whole string |
| `Js.TrimIsInfix` | src/shared/components/auth/AdminLogin.tsx:110 | `trim()` returns the infix of the input that starts right after its leading whitespace |
| `Js.TrimDropsOnlyWhitespace` | src/shared/components/auth/AdminLogin.tsx:110 | every character `trim()` drops, before or after the result, is whitespace |
| `Js.TrimEdges` | src/shared/components/auth/AdminLogin.tsx:110 | a non-empty result of `trim()` neither starts nor ends with whitespace |
| `Js.TrimIdempotent` | src/shared/components/auth/AdminLogin.tsx:110 | trimming a stored user name again changes nothing |
| `Js.TrimEmptyIffAllWhitespace` | src/shared/components/auth/AdminLogin.tsx:110 | an input trims to `""` exactly when it is all whitespace |

## Left out

- Real I/O is replaced by inputs. The `fetch` call, its JSON body, `AbortController` and `setTimeout` become one `CreationOutcome`; the 5 s timer firing is the `Aborted` outcome. socket.io becomes the `SocketEvent` inputs, and `io`, `emit` and `disconnect` become log entries. The HTTP client's login and site requests become `LoginResult` and `SiteResult`.
- `generateQRCode` is split at its `await`: `GenerateQRCode`/`StartGeneration` is the part before the request, and `SettleCreation`/`ResolveCreation` is the continuation. This lets socket events interleave with a pending request.
- The request body of the creation call (session id from `Date.now()`, user agent) is not modelled. The response body is taken to carry string `qrCodeUrl` and `qrToken`; a response missing them is not modelled.
- socket.io's own reconnection is visible only as repeated `Connected` events on the same socket. A disconnected socket is taken to deliver no more events; that is how runs deliver pushes.
- Runs let `Unmounted` happen at any time and more than once, and do not track the mount lifecycle beyond that. This only lets more runs through the whole-run lemmas.
- Display-only and host-owned effects are not modelled: WebQRLogin's `login_successful` toast, i18n lookups (messages are kept as their keys), `console`, JSX markup beyond the branch decisions, `refreshTheme`, `UnreadCounterService`, and the internals of `UserService` and `HttpService`. The 1.5 s `window.location` redirect is recorded only as `RedirectScheduled`. The admin path's `UserService.Instance.myUserInfo` assignment is recorded as `MyUserInfoSet`.
- `AdminAuth.Submit`: the user typing while the login request is pending is not modelled. The two awaits of a submit (login, then site) are taken as one step, and the credentials sent are those in the form when submit is pressed. `handleLoginSuccess` is not awaited by `handleLoginSubmit`; the model runs it to completion.
- `AdminAuth.AdminLogin.HandleLoginSubmit`: modelled as a method called on the component. The render passes it unbound to `linkEvent(this, …)` (AdminLogin.tsx:134). Inferno calls such a handler as `handler(component, event)`, so as written the component arrives as `event` and `this` is unbound. `event.preventDefault()` at line 69 is then called on the component, which has no such method, so the handler throws before anything changes. The model does not capture that wiring.
- `AdminAuth.AdminLogin.HandleUsernameChange`: same wiring (line 147). As written, `this.setState` at line 110 has no component to act on; the model stores the trimmed input.
- `AdminAuth.AdminLogin.HandlePasswordChange`: same wiring (line 155). As written, `this.setState` at line 113 has no component to act on; the model stores the input.
- `AdminAuth.AdminLogin.HandleClose2faModal`: same wiring (line 130). As written, `this.setState` at line 116 has no component to act on; the model closes the modal. Only `handleSubmitTotp` is bound in the constructor (line 42).
- `AdminLogin`'s `siteRes` state field and the page title are display-only and not modelled. So is `event.preventDefault()`.
- `loginRes` is modelled with only the two values the component assigns, `EMPTY_REQUEST` and `LOADING_REQUEST`.
- JavaScript numbers are modelled as integers plus `NaN`, which is all `!!` needs to tell truthy from falsy.
- `src/shared/components/app/app.tsx`, `build-dev.js` and `build-prod.js` are not part of this model. They are page chrome, routing and build tooling.
