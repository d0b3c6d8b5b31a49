/** The lifecycle of the chat connection manager as a state machine over the
    module-level state both copies keep (`socket`, `connectionStatus`,
    `connectionAttempts`, `reconnectDelay`, `heartbeatTimer`,
    `reconnectTimer`), together with the two things that state points into:
    the WebSocket objects the module has created and the runtime's table of
    live timers. One function per event the runtime can deliver. */
module Lifecycle {
  import opened Js
  import opened Chat

  /** `connectionStatus.value`. */
  datatype Status = Initializing | Connecting | Connected | Disconnected

  /** A WebSocket object the module created: the URL it was opened with, its
      `readyState`, and the handle of the 30 s connection timeout armed for it. */
  datatype Sock = Sock(url: string, state: ReadyState, timeout: nat)

  /** What a live `setTimeout`/`setInterval` handle will run. */
  datatype Timer = Heartbeat | Reconnect(delay: real) | ConnectTimeout(socket: nat)

  /** `socket` is an index into `sockets`, the objects in creation order;
      `timers` is the runtime's timer table, `nextHandle` its next handle. */
  datatype Conn = Conn(
    socket: Option<nat>,
    sockets: seq<Sock>,
    status: Status,
    attempts: nat,
    reconnectDelay: real,
    heartbeatTimer: Option<nat>,
    reconnectTimer: Option<nat>,
    timers: map<nat, Timer>,
    nextHandle: nat)

  /** The module-load constants: which copy, whether the environment has
      WebSocket, and `WS_URL`. */
  datatype Config = Config(variant: Variant, available: bool, wsUrl: string)

  /** A frame written to socket number `socket`. */
  datatype Write = Write(socket: nat, frame: Envelope)

  /** The state when the module is loaded. */
  function Fresh(): (s: Conn)
    ensures Valid(s)
  {
    Conn(None, [], Initializing, 0, InitialDelay, None, None, map[], 1)
  }

  predicate Retired(st: ReadyState) {
    st == CLOSING || st == CLOSED
  }

  /** The invariant every event keeps. At most one socket is not retired and
      it is the one `socket` points to; at most one heartbeat interval and at
      most one reconnect timeout are live, and they are the ones the module
      variables hold; every connection timeout belongs to a created socket. */
  ghost predicate Valid(s: Conn) {
    SocketsValid(s) && TimersValid(s)
  }

  /** At most one socket is not retired, and it is the one `socket` names. */
  ghost predicate SocketsValid(s: Conn) {
    && (s.socket.Some? ==> s.socket.value < |s.sockets|)
    && (forall i :: 0 <= i < |s.sockets| && s.socket != Some(i) ==> Retired(s.sockets[i].state))
    && s.reconnectDelay == InitialDelay
  }

  /** The timer table: handles are positive and below `nextHandle`; the
      heartbeat interval and the reconnect timeout are each live at most once,
      as the handle the module variable holds; a connection timeout is live
      only under the handle recorded for its own socket. */
  ghost predicate TimersValid(s: Conn) {
    && 0 < s.nextHandle
    && (forall h :: h in s.timers ==> 0 < h < s.nextHandle)
    && (s.heartbeatTimer.Some? ==> s.heartbeatTimer.value in s.timers && s.timers[s.heartbeatTimer.value] == Heartbeat)
    && (forall h :: h in s.timers && s.timers[h] == Heartbeat ==> s.heartbeatTimer == Some(h))
    && (s.reconnectTimer.Some? ==> s.reconnectTimer.value in s.timers && s.timers[s.reconnectTimer.value].Reconnect?)
    && (forall h :: h in s.timers && s.timers[h].Reconnect? ==> s.reconnectTimer == Some(h))
    && (forall h :: h in s.timers && s.timers[h].ConnectTimeout? ==>
          s.timers[h].socket < |s.sockets| && s.sockets[s.timers[h].socket].timeout == h)
    && (forall i :: 0 <= i < |s.sockets| ==> s.sockets[i].timeout < s.nextHandle)
    && (forall i :: 0 <= i < |s.sockets| && s.sockets[i].timeout in s.timers ==>
          s.timers[s.sockets[i].timeout] == ConnectTimeout(i))
  }

  /** Clearing the connection timeout of socket `i` and giving it a new
      `readyState` keeps the invariant when the new state is allowed for it. */
  lemma ClearTimeoutValid(s: Conn, i: nat, st: ReadyState)
    requires Valid(s) && i < |s.sockets|
    requires s.socket != Some(i) ==> Retired(st)
    ensures var r := s.(sockets := s.sockets[i := s.sockets[i].(state := st)], timers := s.timers - {s.sockets[i].timeout});
            Valid(r) && r.timers.Keys == s.timers.Keys - {s.sockets[i].timeout}
            && (forall h :: h in r.timers ==> r.timers[h] == s.timers[h])
  {
  }

  /** `socket !== null && (readyState === OPEN || readyState === CONNECTING)`. */
  predicate Live(s: Conn) {
    s.socket.Some? && s.socket.value < |s.sockets| &&
    (s.sockets[s.socket.value].state == OPEN || s.sockets[s.socket.value].state == CONNECTING)
  }

  /** `socket && socket.readyState === WebSocket.OPEN`. */
  predicate IsOpen(s: Conn) {
    s.socket.Some? && s.socket.value < |s.sockets| && s.sockets[s.socket.value].state == OPEN
  }

  /** `readyState` after `close()`: an opening or open socket starts closing. */
  function AfterClose(st: ReadyState): (r: ReadyState)
    ensures Retired(r)
    ensures Retired(st) ==> r == st
  {
    if st == CONNECTING || st == OPEN then CLOSING else st
  }

  /** Calls `close()` on socket `i`. */
  function CloseSocket(socks: seq<Sock>, i: nat): (r: seq<Sock>)
    requires i < |socks|
    ensures |r| == |socks| && Retired(r[i].state)
    ensures forall j :: 0 <= j < |socks| && j != i ==> r[j] == socks[j]
    ensures r[i].url == socks[i].url && r[i].timeout == socks[i].timeout
  {
    socks[i := socks[i].(state := AfterClose(socks[i].state))]
  }

  /** `localStorage.getItem('token') || store.state.token`; the store has no
      `token` member, so only a non-empty stored token is used. */
  function TokenOf(stored: Option<string>): (r: Option<string>)
    ensures r.Some? <==> Present(stored)
    ensures r.Some? ==> r == stored && r.value != ""
  {
    if Present(stored) then stored else None
  }

  // ---------------------------------------------------------------------
  // Helpers named after the source's functions

  /** `scheduleReconnect()`: cancels the pending reconnect timeout, if any, and
      arms a new one with the backoff delay for the current attempt count. */
  function Schedule(s: Conn): (r: Conn)
    ensures Valid(s) ==> Valid(r)
    ensures r.reconnectTimer == Some(s.nextHandle)
    ensures s.nextHandle in r.timers && r.timers[s.nextHandle] == Reconnect(BackoffDelay(s.reconnectDelay, s.attempts))
    ensures r.timers == (if s.reconnectTimer.Some? then s.timers - {s.reconnectTimer.value} else s.timers)
                        [s.nextHandle := Reconnect(BackoffDelay(s.reconnectDelay, s.attempts))]
    ensures r == s.(timers := r.timers, reconnectTimer := r.reconnectTimer, nextHandle := s.nextHandle + 1)
  {
    var t := if s.reconnectTimer.Some? then s.timers - {s.reconnectTimer.value} else s.timers;
    var d := BackoffDelay(s.reconnectDelay, s.attempts);
    s.(timers := t[s.nextHandle := Reconnect(d)], reconnectTimer := Some(s.nextHandle), nextHandle := s.nextHandle + 1)
  }

  /** `startHeartbeat()`: clears the running interval, if any, and starts a new one. */
  function StartHeartbeat(s: Conn): (r: Conn)
    ensures Valid(s) ==> Valid(r)
    ensures r.heartbeatTimer == Some(s.nextHandle)
    ensures r == s.(timers := r.timers, heartbeatTimer := r.heartbeatTimer, nextHandle := s.nextHandle + 1)
    ensures r.timers == (if s.heartbeatTimer.Some? then s.timers - {s.heartbeatTimer.value} else s.timers)
                        [s.nextHandle := Heartbeat]
  {
    var t := if s.heartbeatTimer.Some? then s.timers - {s.heartbeatTimer.value} else s.timers;
    s.(timers := t[s.nextHandle := Heartbeat], heartbeatTimer := Some(s.nextHandle), nextHandle := s.nextHandle + 1)
  }

  /** Clearing `heartbeatTimer` (`stopHeartbeat()` in index.js, an inline
      `clearInterval` in websocket.js). */
  function StopHeartbeat(s: Conn): (r: Conn)
    ensures Valid(s) ==> Valid(r)
    ensures r.heartbeatTimer.None?
    ensures Valid(s) ==> forall h :: h in r.timers ==> r.timers[h] != Heartbeat
    ensures r == s.(timers := r.timers, heartbeatTimer := None)
    ensures r.timers == (if s.heartbeatTimer.Some? then s.timers - {s.heartbeatTimer.value} else s.timers)
  {
    if s.heartbeatTimer.Some? then s.(timers := s.timers - {s.heartbeatTimer.value}, heartbeatTimer := None)
    else s
  }

  /** `socket.close(); socket = null` when there is a socket. */
  function DropSocket(s: Conn): (r: Conn)
    requires s.socket.Some? ==> s.socket.value < |s.sockets|
    ensures Valid(s) ==> Valid(r)
    ensures r.socket.None? && |r.sockets| == |s.sockets|
    ensures forall i :: 0 <= i < |s.sockets| ==>
              r.sockets[i] == (if s.socket == Some(i) then s.sockets[i].(state := AfterClose(s.sockets[i].state)) else s.sockets[i])
    ensures r == s.(sockets := r.sockets, socket := None)
  {
    if s.socket.Some? then s.(sockets := CloseSocket(s.sockets, s.socket.value), socket := None) else s
  }

  /** `clearTimeout(reconnectTimer); reconnectTimer = null`. */
  function CancelReconnect(s: Conn): (r: Conn)
    ensures Valid(s) ==> Valid(r)
    ensures r.reconnectTimer.None?
    ensures Valid(s) ==> forall h :: h in r.timers ==> !r.timers[h].Reconnect?
    ensures r == s.(timers := if s.reconnectTimer.Some? then s.timers - {s.reconnectTimer.value} else s.timers,
                    reconnectTimer := None)
  {
    if s.reconnectTimer.Some? then s.(timers := s.timers - {s.reconnectTimer.value}, reconnectTimer := None) else s
  }

  /** The invariant does not depend on the status or the attempt count. */
  lemma CountersKeepValid(s: Conn, st: Status, n: nat)
    requires Valid(s)
    ensures Valid(s.(status := st, attempts := n))
  {
  }

  /** `sendPing()`: writes a PING to `socket` if it is open; a throwing
      `send` (`fails`) is caught and writes nothing. */
  function SendPing(s: Conn, now: int, fails: bool): (w: Option<Write>)
    ensures w.Some? <==> IsOpen(s) && !fails
    ensures w.Some? ==> w.value == Write(s.socket.value, Ping(now))
  {
    if IsOpen(s) && !fails then Some(Write(s.socket.value, Ping(now))) else None
  }

  /** Whether a close event counts as clean: websocket.js also accepts code
      1000, index.js only `event.wasClean`. */
  predicate CleanClose(v: Variant, wasClean: bool, code: int) {
    wasClean || (v == WebsocketJs && code == 1000)
  }

  // ---------------------------------------------------------------------
  // Events

  /** `initWebSocket()` with the stored token `stored`; `ctorThrows` says
      whether `new WebSocket(url)` throws. */
  function Init(cfg: Config, s: Conn, stored: Option<string>, ctorThrows: bool): (r: Conn)
    requires Valid(s)
    ensures Valid(r)
    // already open or opening: nothing happens, before any other check
    ensures Live(s) ==> r == s
    // no WebSocket in the environment, or no token: disconnected, nothing created
    ensures !Live(s) && (!cfg.available || !Present(stored)) ==> r == s.(status := Disconnected)
    // a real attempt: exactly one more attempt, the old socket is discarded ...
    ensures !Live(s) && cfg.available && Present(stored) ==>
              && r.attempts == s.attempts + 1
              && |r.sockets| == |s.sockets| + (if ctorThrows then 0 else 1)
              && (s.socket.Some? ==>
                    && r.socket != s.socket
                    && r.sockets[s.socket.value] == s.sockets[s.socket.value].(state := AfterClose(s.sockets[s.socket.value].state)))
              && r.heartbeatTimer == s.heartbeatTimer
    // ... and exactly one new socket, opened with the token in its URL
    ensures !Live(s) && cfg.available && Present(stored) && !ctorThrows ==>
              && r.status == Connecting
              && r.socket == Some(|s.sockets|)
              && r.sockets[|s.sockets|].url == cfg.wsUrl + "?token=" + stored.value
              && r.sockets[|s.sockets|].state == CONNECTING
              && (forall j :: 0 <= j < |s.sockets| && s.socket != Some(j) ==> r.sockets[j] == s.sockets[j])
              && r.sockets[|s.sockets|].timeout in r.timers
              && r.timers[r.sockets[|s.sockets|].timeout] == ConnectTimeout(|s.sockets|)
              && r.reconnectTimer == s.reconnectTimer
    // a throwing constructor: disconnected, and a retry while attempts remain
    ensures !Live(s) && cfg.available && Present(stored) && ctorThrows ==>
              && r.status == Disconnected
              && r.socket.None?
              && (r.reconnectTimer != s.reconnectTimer <==> s.attempts + 1 < MaxAttempts)
  {
    if Live(s) then s
    else if !cfg.available then s.(status := Disconnected)
    else
      var token := TokenOf(stored);
      if token.None? then s.(status := Disconnected)
      else
        var s1 := Discard(s);
        if ctorThrows then
          CountersKeepValid(s1, Disconnected, s1.attempts);
          var s2 := s1.(status := Disconnected);
          if s2.attempts < MaxAttempts then Schedule(s2) else s2
        else Create(cfg, s1, token.value)
  }

  /** `initWebSocket()` cancels no timer: every live timer stays live and
      unchanged, except the pending reconnect timeout, which the retry after
      a throwing constructor replaces. */
  lemma InitKeepsTimers(cfg: Config, s: Conn, stored: Option<string>, ctorThrows: bool)
    requires Valid(s)
    ensures var r := Init(cfg, s, stored, ctorThrows);
            forall k :: k in s.timers && !(ctorThrows && s.reconnectTimer == Some(k)) ==>
              k in r.timers && r.timers[k] == s.timers[k]
  {
    if !Live(s) && cfg.available && Present(stored) {
      var s1 := Discard(s);
      assert s1.timers == s.timers;
      assert s.nextHandle !in s.timers;
    }
  }

  /** The part of a real attempt before `new WebSocket`: the old socket is
      closed and dropped, the status becomes connecting and the attempt is
      counted. */
  function Discard(s: Conn): (r: Conn)
    requires Valid(s) && !Live(s)
    ensures Valid(r)
    ensures r.socket.None? && r.status == Connecting && r.attempts == s.attempts + 1
    ensures |r.sockets| == |s.sockets| && forall i :: 0 <= i < |r.sockets| ==> Retired(r.sockets[i].state)
    ensures forall i :: 0 <= i < |s.sockets| && s.socket != Some(i) ==> r.sockets[i] == s.sockets[i]
    ensures s.socket.Some? ==> r.sockets[s.socket.value] == s.sockets[s.socket.value].(state := AfterClose(s.sockets[s.socket.value].state))
    ensures r == s.(sockets := r.sockets, socket := None, status := Connecting, attempts := s.attempts + 1)
  {
    var s1 := DropSocket(s);
    CountersKeepValid(s1, Connecting, s.attempts + 1);
    s1.(status := Connecting, attempts := s.attempts + 1)
  }

  /** `socket = new WebSocket(url)` succeeding, then arming its 30 s timeout. */
  function Create(cfg: Config, s: Conn, token: string): (r: Conn)
    requires Valid(s) && s.socket.None? && forall i :: 0 <= i < |s.sockets| ==> Retired(s.sockets[i].state)
    ensures Valid(r)
    ensures r.socket == Some(|s.sockets|) && r.sockets == s.sockets + [Sock(cfg.wsUrl + "?token=" + token, CONNECTING, s.nextHandle)]
    ensures r.timers == s.timers[s.nextHandle := ConnectTimeout(|s.sockets|)]
    ensures r == s.(socket := r.socket, sockets := r.sockets, timers := r.timers, nextHandle := s.nextHandle + 1)
  {
    var h := s.nextHandle;
    var id := |s.sockets|;
    s.(socket := Some(id),
       sockets := s.sockets + [Sock(cfg.wsUrl + "?token=" + token, CONNECTING, h)],
       timers := s.timers[h := ConnectTimeout(id)],
       nextHandle := h + 1)
  }

  /** `onopen` of socket `id`. The browser only opens a socket that is
      connecting. websocket.js then sends an immediate PING (`pingFails`: its
      `send` throws); index.js does not. */
  function Opened(cfg: Config, s: Conn, id: nat, now: int, pingFails: bool): (r: (Conn, Option<Write>))
    requires Valid(s) && id < |s.sockets| && s.sockets[id].state == CONNECTING
    ensures Valid(r.0)
    ensures r.0.status == Connected && r.0.attempts == 0 && r.0.reconnectDelay == InitialDelay
    ensures r.0.socket == s.socket == Some(id) && |r.0.sockets| == |s.sockets| && r.0.sockets[id].state == OPEN
    ensures forall j :: 0 <= j < |s.sockets| && j != id ==> r.0.sockets[j] == s.sockets[j]
    ensures s.sockets[id].timeout !in r.0.timers
    ensures r.0.heartbeatTimer.Some? && StartHeartbeat(s).heartbeatTimer == r.0.heartbeatTimer
    ensures r.0.reconnectTimer == s.reconnectTimer
    ensures r.1 == (if cfg.variant == WebsocketJs && !pingFails then Some(Write(id, Ping(now))) else None)
  {
    var s0 := s.(sockets := s.sockets[id := s.sockets[id].(state := OPEN)],
                 timers := s.timers - {s.sockets[id].timeout});
    ClearTimeoutValid(s, id, OPEN);
    var s1 := s0.(status := Connected, attempts := 0, reconnectDelay := InitialDelay);
    var ping := if cfg.variant == WebsocketJs then SendPing(s1, now, pingFails) else None;
    (StartHeartbeat(s1), ping)
  }

  /** The server starts the closing handshake of an open socket: `readyState`
      becomes CLOSING and no callback runs. */
  function ServerClosing(s: Conn, id: nat): (r: Conn)
    requires Valid(s) && id < |s.sockets| && s.sockets[id].state == OPEN
    ensures Valid(r)
    ensures |r.sockets| == |s.sockets| && r.sockets[id].state == CLOSING && !Live(r)
    ensures r == s.(sockets := r.sockets)
  {
    s.(sockets := s.sockets[id := s.sockets[id].(state := CLOSING)])
  }

  /** `onclose` of socket `id` (which need not be the current one): the
      heartbeat is cleared, the status becomes disconnected, and a reconnect
      is scheduled exactly when the close is not clean and fewer than five
      attempts have been made. */
  function Closed(cfg: Config, s: Conn, id: nat, wasClean: bool, code: int): (r: Conn)
    requires Valid(s) && id < |s.sockets| && s.sockets[id].state != CLOSED
    ensures Valid(r)
    ensures r.status == Disconnected && r.heartbeatTimer.None?
    ensures forall h :: h in r.timers ==> r.timers[h] != Heartbeat
    ensures r.socket == s.socket && |r.sockets| == |s.sockets| && r.attempts == s.attempts
    ensures r.sockets[id].state == CLOSED && s.sockets[id].timeout !in r.timers
    ensures forall j :: 0 <= j < |s.sockets| && j != id ==> r.sockets[j] == s.sockets[j]
    ensures r.reconnectTimer != s.reconnectTimer <==>
              !CleanClose(cfg.variant, wasClean, code) && s.attempts < MaxAttempts
    ensures r.reconnectTimer != s.reconnectTimer ==>
              r.reconnectTimer.Some? && r.reconnectTimer.value in r.timers &&
              r.timers[r.reconnectTimer.value] == Reconnect(BackoffDelay(InitialDelay, s.attempts))
  {
    var s1 := s.(sockets := s.sockets[id := s.sockets[id].(state := CLOSED)],
                 timers := s.timers - {s.sockets[id].timeout});
    ClearTimeoutValid(s, id, CLOSED);
    CountersKeepValid(StopHeartbeat(s1), Disconnected, s.attempts);
    var s2 := StopHeartbeat(s1).(status := Disconnected);
    if !CleanClose(cfg.variant, wasClean, code) && s2.attempts < MaxAttempts then Schedule(s2) else s2
  }

  /** `onerror` of socket `id`: only the status changes. */
  function Errored(s: Conn, id: nat): (r: Conn)
    requires Valid(s) && id < |s.sockets| && s.sockets[id].state != CLOSED
    ensures Valid(r)
    ensures r == s.(status := Disconnected)
  {
    s.(status := Disconnected)
  }

  /** The 30 s connection timeout with handle `h` fires. It looks at the
      current `socket`, not the one it was armed for: if that exists and is
      not open, it is closed and the status becomes disconnected. */
  function TimedOut(s: Conn, h: nat): (r: Conn)
    requires Valid(s) && h in s.timers && s.timers[h].ConnectTimeout?
    ensures Valid(r)
    ensures h !in r.timers && r.socket == s.socket && |r.sockets| == |s.sockets|
    ensures s.socket.Some? && !IsOpen(s) ==> r.status == Disconnected && !Live(r)
    ensures s.socket.None? || IsOpen(s) ==> r == s.(timers := s.timers - {h})
    // the socket it closes is the current one; every other socket and timer is kept
    ensures s.socket.Some? && !IsOpen(s) ==>
              r.sockets[s.socket.value] == s.sockets[s.socket.value].(state := AfterClose(s.sockets[s.socket.value].state))
    ensures forall j :: 0 <= j < |s.sockets| && Some(j) != s.socket ==> r.sockets[j] == s.sockets[j]
    ensures forall k :: k in r.timers <==> k in s.timers && k != h
    ensures forall k :: k in r.timers ==> r.timers[k] == s.timers[k]
  {
    var s1 := s.(timers := s.timers - {h});
    if s1.socket.Some? && s1.sockets[s1.socket.value].state != OPEN then
      s1.(sockets := CloseSocket(s1.sockets, s1.socket.value), status := Disconnected)
    else s1
  }

  /** The pending reconnect timeout fires: it clears itself and calls
      `initWebSocket()`. */
  function ReconnectFired(cfg: Config, s: Conn, stored: Option<string>, ctorThrows: bool): (r: Conn)
    requires Valid(s) && s.reconnectTimer.Some?
    ensures Valid(r)
    ensures r == Init(cfg, CancelReconnect(s), stored, ctorThrows)
  {
    Init(cfg, CancelReconnect(s), stored, ctorThrows)
  }

  /** A tick of the heartbeat interval. If `socket` is not open the interval
      is cleared, the status set to disconnected and `initWebSocket()` called
      at once. If it is open a PING is sent; a throwing `send` (`sendFails`)
      is swallowed by websocket.js and treated by index.js like a socket that
      is not open. */
  function HeartbeatTick(cfg: Config, s: Conn, now: int, sendFails: bool, stored: Option<string>, ctorThrows: bool)
    : (r: (Conn, Option<Write>))
    requires Valid(s) && s.heartbeatTimer.Some?
    ensures Valid(r.0)
    ensures r.1.Some? <==> IsOpen(s) && !sendFails
    ensures r.1.Some? ==> r.1.value == Write(s.socket.value, Ping(now)) && r.0 == s
    ensures !IsOpen(s) ==> r.0 == Init(cfg, StopHeartbeat(s).(status := Disconnected), stored, ctorThrows)
    ensures IsOpen(s) && sendFails ==>
              r.0 == (if cfg.variant == WebsocketJs then s else StopHeartbeat(s).(status := Disconnected))
  {
    CountersKeepValid(StopHeartbeat(s), Disconnected, s.attempts);
    if !IsOpen(s) then
      (Init(cfg, StopHeartbeat(s).(status := Disconnected), stored, ctorThrows), None)
    else if !sendFails then
      (s, Some(Write(s.socket.value, Ping(now))))
    else if cfg.variant == WebsocketJs then
      (s, None)
    else
      var s1 := StopHeartbeat(s).(status := Disconnected);
      assert Live(s1);
      (Init(cfg, s1, stored, ctorThrows), None)
  }

  /** `closeConnection()`: the socket is closed with code 1000 and dropped,
      the reconnect timeout and the heartbeat are cleared, and the status
      becomes disconnected. */
  function CloseConnection(s: Conn): (r: Conn)
    requires Valid(s)
    ensures Valid(r)
    ensures r.socket.None? && r.reconnectTimer.None? && r.heartbeatTimer.None? && r.status == Disconnected
    ensures forall h :: h in r.timers ==> r.timers[h].ConnectTimeout?
    ensures forall i :: 0 <= i < |r.sockets| ==> Retired(r.sockets[i].state)
    ensures |r.sockets| == |s.sockets| && r.attempts == s.attempts
    ensures forall i :: 0 <= i < |s.sockets| ==>
              r.sockets[i].state == (if s.socket == Some(i) then AfterClose(s.sockets[i].state) else s.sockets[i].state)
  {
    var s1 := StopHeartbeat(CancelReconnect(DropSocket(s)));
    CountersKeepValid(s1, Disconnected, s1.attempts);
    s1.(status := Disconnected)
  }

  // ---------------------------------------------------------------------
  // Runs of events

  /** An event the runtime can deliver to the module. */
  datatype Event =
    | InitCall(stored: Option<string>, ctorThrows: bool)
    | SocketOpen(id: nat, now: int, pingFails: bool)
    | SocketClosing(id: nat)
    | SocketClose(id: nat, wasClean: bool, code: int)
    | SocketError(id: nat)
    | ConnectTimeoutFires(handle: nat)
    | ReconnectFires(stored: Option<string>, ctorThrows: bool)
    | HeartbeatFires(now: int, sendFails: bool, stored: Option<string>, ctorThrows: bool)
    | CloseCall

  /** Whether the runtime can deliver `e` in state `s`: a socket opens only
      while connecting, starts its closing handshake only while open, and
      reports errors and its close only before it is closed; a timer fires
      only while it is live. */
  predicate Enabled(s: Conn, e: Event) {
    match e
    case SocketOpen(id, _, _) => id < |s.sockets| && s.sockets[id].state == CONNECTING
    case SocketClosing(id) => id < |s.sockets| && s.sockets[id].state == OPEN
    case SocketClose(id, _, _) => id < |s.sockets| && s.sockets[id].state != CLOSED
    case SocketError(id) => id < |s.sockets| && s.sockets[id].state != CLOSED
    case ConnectTimeoutFires(h) => h in s.timers && s.timers[h].ConnectTimeout?
    case ReconnectFires(_, _) => s.reconnectTimer.Some?
    case HeartbeatFires(_, _, _, _) => s.heartbeatTimer.Some?
    case InitCall(_, _) => true
    case CloseCall => true
  }

  function Step(cfg: Config, s: Conn, e: Event): (r: Conn)
    requires Valid(s) && Enabled(s, e)
    ensures Valid(r)
  {
    match e
    case InitCall(stored, ctorThrows) => Init(cfg, s, stored, ctorThrows)
    case SocketOpen(id, now, pingFails) => Opened(cfg, s, id, now, pingFails).0
    case SocketClosing(id) => ServerClosing(s, id)
    case SocketClose(id, wasClean, code) => Closed(cfg, s, id, wasClean, code)
    case SocketError(id) => Errored(s, id)
    case ConnectTimeoutFires(h) => TimedOut(s, h)
    case ReconnectFires(stored, ctorThrows) => ReconnectFired(cfg, s, stored, ctorThrows)
    case HeartbeatFires(now, sendFails, stored, ctorThrows) => HeartbeatTick(cfg, s, now, sendFails, stored, ctorThrows).0
    case CloseCall => CloseConnection(s)
  }

  /** The state after the events `es`, in order; an event the runtime cannot
      deliver in the state it meets is skipped. */
  function Run(cfg: Config, s: Conn, es: seq<Event>): (r: Conn)
    requires Valid(s)
    ensures Valid(r)
    decreases |es|
  {
    if es == [] then s
    else Run(cfg, if Enabled(s, es[0]) then Step(cfg, s, es[0]) else s, es[1..])
  }

  /** Whatever happens after the module is loaded, no two sockets are ever
      open or opening at the same time, at most one heartbeat interval and
      at most one reconnect timeout are live, and they are the ones the
      module variables hold. */
  lemma SingleChannel(cfg: Config, es: seq<Event>)
    ensures var s := Run(cfg, Fresh(), es);
            && (forall i, j :: 0 <= i < j < |s.sockets| ==> Retired(s.sockets[i].state) || Retired(s.sockets[j].state))
            && (forall h :: h in s.timers && s.timers[h] == Heartbeat ==> s.heartbeatTimer == Some(h))
            && (forall h :: h in s.timers && s.timers[h].Reconnect? ==> s.reconnectTimer == Some(h))
  {
  }

  /** A PING goes to the one channel that is not retired: in every state
      that keeps the invariant (every state the events since load reach, by
      `Run`), the socket `sendPing` writes to is open, and every other
      socket created is closing or closed. */
  lemma PingReachesOnlyLiveChannel(s: Conn, now: int, fails: bool)
    requires Valid(s)
    ensures var w := SendPing(s, now, fails);
            && (w.Some? <==> IsOpen(s) && !fails)
            && (w.Some? ==> && w.value.frame == Ping(now)
                            && w.value.socket < |s.sockets| && s.sockets[w.value.socket].state == OPEN
                            && (forall j :: 0 <= j < |s.sockets| && j != w.value.socket ==> Retired(s.sockets[j].state)))
  {
    assert SocketsValid(s);
  }

  /** `closeConnection()` twice leaves the same state as once. */
  lemma CloseConnectionIdempotent(s: Conn)
    requires Valid(s)
    ensures CloseConnection(CloseConnection(s)) == CloseConnection(s)
  {
  }

  // ---------------------------------------------------------------------
  // The retry ceiling

  /** One failed attempt: the current socket closes uncleanly (code 1006)
      and the reconnect timeout this schedules fires with the token present. */
  function FailRound(cfg: Config, s: Conn, stored: Option<string>): (r: Conn)
    requires Valid(s) && cfg.available && Present(stored)
    requires s.socket.Some? && s.sockets[s.socket.value].state == CONNECTING && s.attempts < MaxAttempts
    ensures Valid(r)
    ensures r.socket == Some(|s.sockets|) && |r.sockets| == |s.sockets| + 1
    ensures r.sockets[|s.sockets|].state == CONNECTING
    ensures r.attempts == s.attempts + 1 && r.status == Connecting
    ensures r.reconnectTimer.None? && r.heartbeatTimer.None?
  {
    var c := Closed(cfg, s, s.socket.value, false, 1006);
    ReconnectFired(cfg, c, stored, false)
  }

  /** `k` failed attempts in a row. */
  function Failures(cfg: Config, s: Conn, stored: Option<string>, k: nat): (r: Conn)
    requires Valid(s) && cfg.available && Present(stored)
    requires s.socket.Some? && s.sockets[s.socket.value].state == CONNECTING && s.attempts + k <= MaxAttempts
    requires s.heartbeatTimer.None? && s.reconnectTimer.None?
    ensures Valid(r) && r.socket.Some? && r.sockets[r.socket.value].state == CONNECTING
    ensures r.attempts == s.attempts + k && |r.sockets| == |s.sockets| + k
    ensures r.reconnectTimer.None? && r.heartbeatTimer.None?
    decreases k
  {
    if k == 0 then s else Failures(cfg, FailRound(cfg, s, stored), stored, k - 1)
  }

  /** From a freshly loaded module with a token: the first attempt and four
      retries each end in an unclean close; after the fifth such close no
      reconnect timeout and no heartbeat is live, so nothing opens a socket
      again until `initWebSocket()` is called from outside. */
  lemma RetryCeiling(cfg: Config, stored: Option<string>)
    requires cfg.available && Present(stored)
    ensures var s1 := Init(cfg, Fresh(), stored, false);
            var s5 := Failures(cfg, s1, stored, 4);
            var s6 := Closed(cfg, s5, s5.socket.value, false, 1006);
            && |s6.sockets| == 5 && s6.attempts == MaxAttempts && s6.status == Disconnected
            && s6.reconnectTimer.None? && s6.heartbeatTimer.None?
            && (forall h :: h in s6.timers ==> s6.timers[h].ConnectTimeout?)
  {
  }

  // ---------------------------------------------------------------------
  // Behaviour worth knowing: consequences of the order the callbacks run in

  /** The callbacks of a replaced socket still act on module state: when the
      old socket's close arrives after its successor has opened, the
      heartbeat of the open socket is cleared and the status reads
      disconnected while that socket stays open. The reconnect this schedules
      finds the socket open and does nothing. */
  lemma StaleCloseClobbersOpenSocket(cfg: Config, stored: Option<string>)
    requires cfg.available && Present(stored)
    ensures var s1 := Init(cfg, Fresh(), stored, false);
            var s2 := Opened(cfg, s1, 0, 0, false).0;
            var s3 := ServerClosing(s2, 0);
            var s4 := HeartbeatTick(cfg, s3, 1, false, stored, false).0;
            var s5 := Opened(cfg, s4, 1, 2, false).0;
            var s6 := Closed(cfg, s5, 0, false, 1006);
            var s7 := ReconnectFired(cfg, s6, stored, false);
            && s5.status == Connected && s5.heartbeatTimer.Some?
            && IsOpen(s7) && s7.socket == Some(1) && |s7.sockets| == 2
            && s7.status == Disconnected && s7.heartbeatTimer.None? && s7.reconnectTimer.None?
  {
  }

  /** `closeConnection()` on a socket that is still connecting: the browser
      then reports an unclean close, and that schedules a reconnect although
      the connection was closed on purpose. */
  lemma LogoutWhileConnectingRetries(cfg: Config, s: Conn, wasClean: bool, code: int)
    requires Valid(s) && s.socket.Some? && s.sockets[s.socket.value].state == CONNECTING
    requires s.attempts < MaxAttempts && !CleanClose(cfg.variant, wasClean, code)
    ensures var c := CloseConnection(s);
            var r := Closed(cfg, c, s.socket.value, wasClean, code);
            c.reconnectTimer.None? && r.reconnectTimer.Some?
  {
  }

  /** index.js: `onopen` writes nothing; the first PING waits for the
      heartbeat. websocket.js writes one at once unless `send` throws. */
  lemma OpenPingOnlyInWebsocketJs(cfg: Config, s: Conn, id: nat, now: int, pingFails: bool)
    requires Valid(s) && id < |s.sockets| && s.sockets[id].state == CONNECTING
    ensures Opened(cfg, s, id, now, pingFails).1.Some? <==> cfg.variant == WebsocketJs && !pingFails
  {
  }

  /** index.js: a close with code 1000 that the browser does not report as
      clean still schedules a reconnect while attempts remain; websocket.js
      treats it as clean. */
  lemma Code1000RetriesOnlyInIndexJs(cfg: Config, s: Conn, id: nat)
    requires Valid(s) && id < |s.sockets| && s.sockets[id].state != CLOSED && s.attempts < MaxAttempts
    ensures Closed(cfg, s, id, false, 1000).reconnectTimer != s.reconnectTimer <==> cfg.variant == IndexJs
  {
  }

  /** index.js: a heartbeat whose `send` throws on an open socket stops the
      heartbeat and marks the status disconnected, but the `initWebSocket()`
      it calls finds the socket open and returns: no new socket is made and
      no reconnect is scheduled. */
  lemma HeartbeatFailureKeepsOpenSocket(cfg: Config, s: Conn, now: int, stored: Option<string>, ctorThrows: bool)
    requires cfg.variant == IndexJs && Valid(s) && s.heartbeatTimer.Some? && IsOpen(s)
    ensures var r := HeartbeatTick(cfg, s, now, true, stored, ctorThrows).0;
            && r.socket == s.socket && r.sockets == s.sockets && IsOpen(r)
            && r.status == Disconnected && r.heartbeatTimer.None?
            && r.attempts == s.attempts && r.reconnectTimer == s.reconnectTimer
  {
  }
}
