# Realtime chat client of qwe123332/vue, modelled in Dafny

This project models the logic of a Vue chat front end. It has three parts.

**The realtime chat connection manager.** The repository has it twice, in
`src/services/websocket/websocket.js` and in the variant copy
`src/services/websocket/index.js`. `Chat.Variant` (`WebsocketJs | IndexJs`) says
which copy a value belongs to, and so which copy's behaviour it follows.
- The manager keeps one module-level WebSocket, a status that is one of
  initializing, connecting, connected or disconnected, an attempt counter
  (retries stop once 5 attempts are used; the counter itself is not bounded),
  and a reconnect backoff of `min(1000·1.5^(n−1), 5000)` ms.
- It runs one heartbeat interval and at most one pending reconnect timeout.
- It keeps a type-keyed handler map with a `default` fallback.
- Sends try the socket first and fall back to HTTP; a poller covers the time
  when no socket is connected.

The manager is in four modules:
- `Chat` holds what the two copies share in behaviour: the payload builder,
  the backoff, the HTTP fallback mapping and the unread filter. The one
  exception is the start of the websocket.js fallback, which reads
  `socket.readyState` before the mapping (`Chat.FallbackAsWritten`).
- `Lifecycle` is a state machine over the module variables. It also tracks
  every WebSocket object created (`sockets`, where the index is the identity)
  and the runtime's table of live timers (`timers`).
- `Lifecycle.Valid` is the invariant: at most one socket is open or opening,
  and it is the one `socket` holds. At most one heartbeat interval and one
  reconnect timeout are live, and they are the ones the module variables hold.
- `ChatSocket.Manager` is a class with the module variables as fields. Each
  exported function and each callback is a method that updates the fields
  step by step, with the same effect as the source. Two orderings differ
  from a copy's text without changing the result. `OnOpen` sets the status
  and counters before it clears the connection timeout, as websocket.js:79-85
  does, whereas index.js:69-73 clears the timeout first. `InitWebSocket`
  arms the connection timeout just before it records the new socket, whereas
  websocket.js:66-70 creates the socket first. Each method is proved to reach
  the state its `Lifecycle` transition describes.

**The route guard** (`src/router/index.js`, `router.beforeEach`), in module
`RouteGuard`. It reads the session from `localStorage` (class
`WebStorage.LocalStorage`), drops an expired session, and calls `next` exactly
once.

**The HTTP interceptors** (`src/services/api.js`), in module `Api`: the request
interceptor, and the success and error callbacks of the response interceptor.

`Js` models the JavaScript semantics the code relies on:
- truthiness;
- template-literal rendering of ids;
- `parseInt`, including white space, a sign, `0x` and the decimal prefix;
- `toUpperCase` for the characters that can upper-case to the capitals of
  "ADMIN".

### Behaviour worth knowing

The model follows the code in each of these cases.
- **Callbacks of a replaced socket still run.** Each socket's handlers act on
  the module variables, whichever socket those name by then.
  `Lifecycle.StaleCloseClobbersOpenSocket` shows the effect. A socket's
  server starts closing and the heartbeat opens a successor. When the old
  socket's close event arrives, it clears the new socket's heartbeat and marks
  the status disconnected, while the new socket stays open.
- **The heartbeat can tick on a closing socket.** The interval is cleared by
  `onclose`, by the not-open branch of a tick, by index.js's catch of a
  failed heartbeat send (index.js:215), by `startHeartbeat` itself before it
  arms a new one (index.js:207, websocket.js:320), and by `closeConnection`.
  Between the server starting to close and the `close` event, none of these
  runs.
- **A failed heartbeat send in index.js does not reconnect.** Its catch
  (index.js:213-218) sets the status to disconnected and calls
  `initWebSocket()`, so a reconnect is what it aims at. But `initWebSocket()`
  finds the socket still OPEN and returns, so nothing reconnects
  (`Lifecycle.HeartbeatFailureKeepsOpenSocket`). websocket.js swallows the
  failure.
- **A clean close does not cancel a pending retry.** Only `closeConnection`
  cancels it without arming another; `scheduleReconnect` cancels the pending
  one only to replace it. A `closeConnection` while the socket is still
  connecting is followed by that socket's unclean close, and that close
  schedules a reconnect while attempts remain
  (`Lifecycle.LogoutWhileConnectingRetries`).
- **The attempt counter is not reset by `initWebSocket`.** Only a successful
  open resets it. Once five attempts are used, a later external call still
  opens a socket and counts one more attempt, so the counter goes past 5. If
  that socket closes uncleanly, no retry follows.

## Model

| member | source | states |
|---|---|---|
| Js.ParseIntRoundTrip | src/router/index.js:85 | `parseInt` reads back every integer written in decimal |
| Chat.BuildPayload | src/services/websocket/websocket.js:167-205 | no payload iff there is no truthy user id or the type is unknown. A known type with no `data` throws. Otherwise `from` is the user id and `timestamp` is now. CHAT/NEW_MESSAGES copy `receiverId` and `content`; TYPING sets content 'typing'; MARK_READ sends to `senderId` with no content. The builder at index.js:115-150 is the same |
| Chat.BackoffBoundedMonotone | src/services/websocket/websocket.js:308 | the delay is positive, at most 5000 ms, and does not shrink as attempts grow |
| Chat.BackoffSchedule | src/services/websocket/index.js:235 | the delays for attempts 0..4 are 666.67, 1000, 1500, 2250 and 3375 ms; from the fifth attempt on they are 5000 ms |
| Chat.Fallback | src/services/websocket/index.js:179-202 | CHAT makes exactly one POST `/messages/send` with `{receiverId, content}`. MARK_READ makes one POST `/messages/read/<senderId>`. Each gives 'http' on success and 'failed' on failure. TYPING gives 'ignored' and NEW_MESSAGES gives 'none', both with no call |
| Chat.FallbackAsWrittenLosesEveryPost | src/services/websocket/websocket.js:237-262 | with `socket` null, every chat message and read receipt fails with no HTTP call in this copy, while the index.js mapping posts each of them and reports 'http' when the call resolves |
| Chat.UnreadOnly | src/services/websocket/websocket.js:356 | keeps exactly the conversations with `unreadCount > 0`, with their multiplicities, and nothing else |
| Chat.UnreadOnlyConcat | src/services/websocket/websocket.js:356 | the filter keeps the input order: filtering a concatenation is the concatenation of the filtered parts |
| Chat.UnreadOnlyMembers | src/services/websocket/index.js:281 | a conversation is in the result iff it is in the input and has unread messages |
| Lifecycle.Fresh | src/services/websocket/websocket.js:9-19 | the state at module load satisfies the invariant |
| Lifecycle.Schedule | src/services/websocket/websocket.js:302-316 | the pending reconnect timeout is cancelled and exactly one new one is armed with the backoff delay; the invariant is kept |
| Lifecycle.StartHeartbeat | src/services/websocket/websocket.js:319-324 | any running interval is cleared and exactly one is started; the invariant is kept |
| Lifecycle.StopHeartbeat | src/services/websocket/index.js:227-230 | `heartbeatTimer` is null and no heartbeat interval is live |
| Lifecycle.DropSocket | src/services/websocket/websocket.js:52-59 | the current socket, if any, is closed and `socket` becomes null; every other socket is unchanged; the invariant is kept |
| Lifecycle.CancelReconnect | src/services/websocket/websocket.js:288-291 | no reconnect timeout is live any more and nothing else changes; the invariant is kept |
| Lifecycle.Init | src/services/websocket/websocket.js:25-155 | no-op when a socket is open or opening, checked first. With no environment or token: disconnected, nothing created, attempts unchanged. A real attempt counts exactly one attempt, closes the old socket, and creates exactly one CONNECTING socket with `?token=<token>` in its URL, the token being the stored one when it is non-empty (line 42; `store.state` has no `token`) and a live connection timeout. A throwing constructor leaves disconnected and a retry iff attempts remain. index.js:26-112 does the same |
| Lifecycle.InitKeepsTimers | src/services/websocket/websocket.js:25-155 | `initWebSocket` cancels no timer: every live timer stays live and unchanged, except the pending reconnect timeout, which the retry after a throwing constructor replaces |
| Lifecycle.Discard | src/services/websocket/websocket.js:51-62 | the old socket is closed and dropped, the status is connecting, and the attempt is counted |
| Lifecycle.Create | src/services/websocket/websocket.js:64-76 | one new socket, which becomes `socket`, and its 30 s timeout armed |
| Lifecycle.Opened | src/services/websocket/websocket.js:78-92 | connected, attempts 0, delay 1000, the connection timeout cancelled, one immediate PING unless `send` throws, and the heartbeat started |
| Lifecycle.ServerClosing | src/services/websocket/websocket.js:326 | an open socket becomes CLOSING, which the heartbeat test reads as not open; nothing else changes |
| Lifecycle.Closed | src/services/websocket/websocket.js:115-140 | the heartbeat is cleared and the status is disconnected. A reconnect is scheduled iff the close is not clean (not `wasClean` and code ≠ 1000) and attempts < 5, with delay `BackoffDelay(1000, attempts)` |
| Lifecycle.Errored | src/services/websocket/websocket.js:142-146 | only the status changes, to disconnected |
| Lifecycle.TimedOut | src/services/websocket/websocket.js:70-76 | the timeout checks whatever `socket` currently is. If that socket exists and is not open, it is closed and the status is disconnected; otherwise nothing but the timer changes. The socket it closes is the current one; every other socket and every other timer is kept |
| Lifecycle.ReconnectFired | src/services/websocket/websocket.js:312-315 | the timeout clears itself and calls `initWebSocket` |
| Lifecycle.HeartbeatTick | src/services/websocket/index.js:206-225 | on a socket that is not open: heartbeat stopped, disconnected, `initWebSocket` called at once. On an open socket: one PING; a throwing send stops the heartbeat, sets disconnected and calls `initWebSocket`. websocket.js:319-338 swallows a throwing send instead |
| Lifecycle.PingReachesOnlyLiveChannel | src/services/websocket/websocket.js:158-166 | in every state that keeps the invariant, and so after any events since load, a PING is written iff `socket` is OPEN and `send` works; it carries the current time and goes to that socket, and every other socket created is closing or closed |
| Lifecycle.CloseConnection | src/services/websocket/websocket.js:282-299 | the socket is null; no reconnect timeout or heartbeat is live; disconnected; only connection timeouts remain |
| Lifecycle.Step | src/services/websocket/websocket.js:25-338 | every event the runtime can deliver keeps the invariant |
| Lifecycle.Run | src/services/websocket/index.js:26-290 | every sequence of events keeps the invariant |
| Lifecycle.SingleChannel | src/services/websocket/websocket.js:51-66 | after any events since load, at most one socket is open or opening, and at most one heartbeat interval and one reconnect timeout are live, as the module variables record |
| Lifecycle.CloseConnectionIdempotent | src/services/websocket/index.js:253-266 | calling `closeConnection` twice gives the same state as calling it once |
| Lifecycle.FailRound | src/services/websocket/websocket.js:128-131 | an unclean close followed by its reconnect counts one more attempt and opens one more socket |
| Lifecycle.Failures | src/services/websocket/websocket.js:62 | k failed rounds count exactly k attempts and k sockets |
| Lifecycle.RetryCeiling | src/services/websocket/websocket.js:128-135 | after five unclean closes from a fresh login: 5 sockets, attempts 5, disconnected, and no reconnect timeout or heartbeat live |
| Lifecycle.StaleCloseClobbersOpenSocket | src/services/websocket/websocket.js:115-131 | the close of a replaced socket clears the open socket's heartbeat and leaves the status disconnected while that socket stays open |
| Lifecycle.LogoutWhileConnectingRetries | src/services/websocket/websocket.js:282-291 | when a socket is closed by `closeConnection` while still connecting and attempts remain (fewer than 5 used), its unclean close schedules a reconnect |
| Lifecycle.OpenPingOnlyInWebsocketJs | src/services/websocket/index.js:68-75 | the variant's `onopen` writes no PING; only websocket.js writes one, unless `send` throws |
| Lifecycle.Code1000RetriesOnlyInIndexJs | src/services/websocket/index.js:95 | a close with code 1000 not reported as clean schedules a reconnect in the variant copy and not in websocket.js |
| Lifecycle.HeartbeatFailureKeepsOpenSocket | src/services/websocket/index.js:213-218 | a failed heartbeat send on an open socket creates no new socket and schedules no reconnect; the status is disconnected and the heartbeat is stopped |
| ChatSocket.Manager.constructor | src/services/websocket/websocket.js:9-19 | the fields start as the module declares them, with no handlers |
| ChatSocket.Manager.StartHeartbeat | src/services/websocket/index.js:206-209 | reaches `Lifecycle.StartHeartbeat` |
| ChatSocket.Manager.StopHeartbeat | src/services/websocket/index.js:227-230 | clears the interval and nulls `heartbeatTimer`; nothing else changes |
| ChatSocket.Manager.ScheduleReconnect | src/services/websocket/index.js:232-242 | reaches `Lifecycle.Schedule` |
| ChatSocket.Manager.SendPing | src/services/websocket/websocket.js:158-166 | in a state that keeps the invariant, writes what `Lifecycle.SendPing` gives, and a PING it writes goes to the open current socket while every other socket created is closing or closed |
| ChatSocket.Manager.InitWebSocket | src/services/websocket/websocket.js:25-155 | reaches `Lifecycle.Init` and keeps the invariant and the handlers |
| ChatSocket.Manager.OnOpen | src/services/websocket/websocket.js:78-92 | reaches `Lifecycle.Opened`, together with the PING it writes |
| ChatSocket.Manager.OnClosing | src/services/websocket/websocket.js:326 | reaches `Lifecycle.ServerClosing` |
| ChatSocket.Manager.OnClose | src/services/websocket/websocket.js:115-140 | reaches `Lifecycle.Closed` |
| ChatSocket.Manager.OnError | src/services/websocket/index.js:101-104 | reaches `Lifecycle.Errored` |
| ChatSocket.Manager.OnConnectTimeout | src/services/websocket/index.js:59-65 | reaches `Lifecycle.TimedOut` |
| ChatSocket.Manager.OnReconnectTimer | src/services/websocket/index.js:238-241 | reaches `Lifecycle.ReconnectFired` |
| ChatSocket.Manager.OnHeartbeat | src/services/websocket/index.js:209-224 | reaches `Lifecycle.HeartbeatTick`, together with the PING it writes |
| ChatSocket.Manager.CloseConnection | src/services/websocket/index.js:253-266 | reaches `Lifecycle.CloseConnection` |
| ChatSocket.Manager.IsConnected | src/services/websocket/index.js:268-270 | the same open test as the one `sendMessage` and the heartbeat use (`Lifecycle.IsOpen` of the current state) |
| ChatSocket.Manager.ConnectedSendsOverSocket | src/services/websocket/index.js:152-176 | for a message that builds and a working `send`: when `isConnected()` (index.js:268-270) holds, the frame goes over the socket and no HTTP call is made; when it does not, the socket is used only if a connecting socket opens within the wait |
| ChatSocket.Manager.AddMessageHandler | src/services/websocket/websocket.js:272-274 | the handler for the type is replaced, and every other entry and the connection state are unchanged |
| ChatSocket.Manager.RemoveMessageHandler | src/services/websocket/websocket.js:277-279 | exactly that type's entry is removed |
| ChatSocket.Manager.OnMessage | src/services/websocket/websocket.js:94-113 | a parse failure, `null` or PONG invokes nothing. Otherwise the exact-type handler runs if registered and the type is non-empty, else the `default` handler, else nothing; only registered handlers run. index.js:78-86 looks an empty type up like any other |
| ChatSocket.Manager.SendMessage | src/services/websocket/websocket.js:208-263 | 'invalid' without a payload; rejected when `data` is missing. The built frame goes to the socket exactly when it is open, or opens within the wait, and `send` works; this gives 'ws' with no HTTP call. Otherwise the fallback decides: as written in this copy, with `socket` possibly null by then; with `Chat.Fallback` in the copy at index.js:152-203. Never both socket and HTTP |
| ChatSocket.Manager.PollNewMessages | src/services/websocket/index.js:273-290 | does nothing when connected. Requests the unread count, and the conversations only when the count is positive. Calls the NEW_MESSAGES handler at most once, exactly when it is registered and the unread list is non-empty, and with that list |
| RouteGuard.Decide | src/router/index.js:87-113 | Login iff the route requires auth and the session expired, or has no token, or has no user data and the route is not Login. Home iff not Login, the route requires admin, and the upper-cased role is not ADMIN. Otherwise `next()`, in particular for a route that requires nothing |
| RouteGuard.BeforeEach | src/router/index.js:78-114 | `next` is called exactly once, with the decision on the four items as read at lines 79-84, before anything is removed. The four session keys are removed exactly when the expiration is set and has passed |
| RouteGuard.UpperCharCapitals | src/router/index.js:80 | exactly which characters upper-case to A, D, M, I and N |
| RouteGuard.AdminRoleIgnoresCase | src/router/index.js:109 | a role passes iff it is "admin" in any mix of cases, so 'admin' is accepted; the role is upper-cased as line 80 reads it |
| RouteGuard.ExpiredOfNumeral | src/router/index.js:85 | an expiry stored as the integer n has passed iff now > n |
| RouteGuard.ExpiredAdminStillEntersAdminOnlyRoute | src/router/index.js:79-112 | an expired session still enters an admin-only route that does not require auth, because the role was read before removal |
| Api.OnRequest | src/services/api.js:28-41 | `Authorization = 'Bearer ' + token` exactly when a non-empty token is stored and `safeGetLocalStorage` (api.js:4-11) can read it; without a window, or when storage access throws, no header is added; other headers are kept; metadata with the start time and url is always attached |
| Api.OnRequestError | src/services/api.js:42-47 | type REQUEST_ERROR, message 'Request failed: ' + message, and 'Request failed: undefined' for an error without a message |
| Api.Classify | src/services/api.js:75-105 | `success` is false, and code, status and data come from the error. The type is SERVER_ERROR for status ≥ 500, else NETWORK_ERROR with no response, else TIMEOUT_ERROR on ECONNABORTED. The message follows the same precedence, where the server error does not change it |
| Api.SuccessFlagSeparatesOutcomes | src/services/api.js:53-105 | every answer the success callback resolves with has `success` true and the response's data, status and headers; every error response the error callback rejects with has `success` false |
| Api.OnResponseError | src/services/api.js:73-108 | rejects with the classified error response. A 401 removes a non-empty stored token and dispatches exactly one 'unauthorized' event; without a window the dispatch throws instead, while the token read through `safeGetLocalStorage` (api.js:4-11) never throws |
| Api.TimeoutWithoutResponseIsNetworkError | src/services/api.js:84-93 | a timeout without a response reads as a network error |
| Api.ServerErrorWinsOverTimeout | src/services/api.js:84-105 | a 5xx response that timed out is a server error and keeps the timeout message |

## Left out

- The browser `WebSocket` object is reduced to a `readyState` and the URL it was opened with. Frames arrive already parsed (`ChatSocket.Frame`), and `JSON.stringify` is not modelled.
- `Date.now()`, `new Date()` and the 500 ms wait in `sendMessage` are parameters. So is the `readyState` the socket has after the wait; which socket it is then is not modelled.
- `setTimeout`/`setInterval` are a table of live handles. The model does not say when a timer fires, only what it does when it does; the 30 s periods are not modelled.
- Whether `send`, `new WebSocket`, `api.post` and `api.get` throw or resolve is a parameter. The HTTP calls themselves and `axios.create` are not modelled.
- Console logging is left out.
- `store.watch`, the Vuex actions, the debounced `sendMarkRead` and `utils.js` are left out: reactive glue and timing. `main.js`, `vite.config.js` and the route table are left out: bootstrap and data.
- Chat.BackoffDelay: computed in exact real arithmetic. The double-precision rounding of `Math.pow(1.5, -1)` for attempt 0 is not modelled.
- Js.ParseInt: its result is exact for every integer; JavaScript rounds integers above 2^53.
- Js.ToUpper: upper-cases only ASCII letters and the dotless i. Other characters whose upper case is not themselves are kept, which does not change any comparison with "ADMIN".
- ChatSocket.Manager.OnMessage: a `type` member that is not a string is treated like a missing one. This is how both copies route it, as long as handlers are registered under strings.
- ChatSocket.Manager.SendMessage: reports the frame written, but not which socket object received it after the wait.
- Api.OnResponse: the registration and timing logs are left out.
- ChatSocket.Manager.IsConnected: returns a `bool`. websocket.js:267-269 returns `socket && socket.readyState === WebSocket.OPEN`, which is `null` rather than `false` when there is no socket; the two agree in truthiness, which is how callers use it. index.js:268-270 is the copy modelled.
- ChatSocket.Manager.PollNewMessages: reads the handler map when it is called. The source tests `messageHandlers.has('NEW_MESSAGES')` after its two awaited requests (websocket.js:349-359), so a handler added or removed while they are pending is not modelled.
- Lifecycle.Init and RouteGuard.BeforeEach: `localStorage.getItem` is taken never to throw (websocket.js:42, router/index.js:79-84). If it throws there, the exception propagates out of `initWebSocket` or the guard; the model has no such path. Only api.js guards its reads (`Api.Env.StorageThrows`).

## Findings

| source | as written | input that shows it | evidently intended | confidence | as-written member | corrected member |
|---|---|---|---|---|---|---|
| src/services/websocket/websocket.js:240 | the HTTP fallback logs `socket.readyState` inside its `try`. When `socket` is null this throws, so the send resolves as 'failed' and no HTTP call is made | a CHAT send with no socket: never connected, after `closeConnection`, or in an environment without WebSocket | post the message over HTTP, as index.js:179-202 does | high; not executed | Chat.FallbackAsWritten (see Chat.FallbackAsWrittenLosesEveryPost) | Chat.Fallback |

In the model, `ChatSocket.Manager.SendMessage` of the index.js copy uses the
corrected `Chat.Fallback`. The websocket.js copy keeps the as-written
behaviour, so that each copy can be read against its own file.
