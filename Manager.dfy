/** The chat connection manager as the object its module-level variables
    form: each exported function and each socket or timer callback is a
    method that updates the fields in the order the source does, and is
    proved to reach the state the matching transition of `Lifecycle`
    describes. Which copy is modelled is fixed by `cfg.variant`. */
module ChatSocket {
  import opened Js
  import opened Chat
  import opened Lifecycle

  /** An inbound frame after `JSON.parse`: unparsable text, the literal
      `null` (reading `.type` of it throws), or any other value with its
      `type` member when that is a string. */
  datatype Frame = Unparsable | JsonNull | JsonValue(typ: Option<string>)

  /** What `sendMessage` resolves to, the frame it wrote to the socket and
      the HTTP call it made. */
  datatype SendReport = SendReport(reply: Reply, ws: Option<Envelope>, http: Option<HttpCall>)

  /** The outcome of an `api.get`; `Failed` also stands for a call that
      throws while its result is used. */
  datatype Fetch<T> = Fetched(value: T) | Failed

  /** The GET paths `pollNewMessages` requested, and the handler it called
      with its argument. */
  datatype PollReport = PollReport(gets: seq<string>, notified: Option<(nat, seq<Conversation>)>)

  class Manager {
    const cfg: Config
    var socket: Option<nat>
    var sockets: seq<Sock>
    var status: Status
    var attempts: nat
    var reconnectDelay: real
    var heartbeatTimer: Option<nat>
    var reconnectTimer: Option<nat>
    var timers: map<nat, Timer>
    var nextHandle: nat
    /** `messageHandlers`: message type to the identity of its handler. */
    var handlers: map<string, nat>

    ghost function State(): Conn
      reads this
    {
      Conn(socket, sockets, status, attempts, reconnectDelay, heartbeatTimer, reconnectTimer, timers, nextHandle)
    }

    ghost predicate Valid()
      reads this
    {
      Lifecycle.Valid(State())
    }

    /** Loading the module. */
    constructor (cfg: Config)
      ensures this.cfg == cfg && State() == Fresh() && handlers == map[]
      ensures Valid()
    {
      this.cfg := cfg;
      socket := None;
      sockets := [];
      status := Initializing;
      attempts := 0;
      reconnectDelay := InitialDelay;
      heartbeatTimer := None;
      reconnectTimer := None;
      timers := map[];
      nextHandle := 1;
      handlers := map[];
    }

    // -------------------------------------------------------------------
    // The runtime's timer functions and the module's timer helpers

    /** `setTimeout`/`setInterval`: registers `t` under a fresh handle. */
    method SetTimer(t: Timer) returns (h: nat)
      modifies this
      ensures h == old(nextHandle)
      ensures State() == old(State()).(timers := old(timers)[h := t], nextHandle := h + 1)
      ensures handlers == old(handlers)
    {
      h := nextHandle;
      timers := timers[h := t];
      nextHandle := nextHandle + 1;
    }

    /** `clearTimeout`/`clearInterval`. */
    method ClearTimer(h: nat)
      modifies this
      ensures State() == old(State()).(timers := old(timers) - {h})
      ensures handlers == old(handlers)
    {
      timers := timers - {h};
    }

    method StopHeartbeat()
      modifies this
      ensures State() == Lifecycle.StopHeartbeat(old(State()))
      ensures handlers == old(handlers)
    {
      if heartbeatTimer.Some? {
        ClearTimer(heartbeatTimer.value);
        heartbeatTimer := None;
      }
    }

    method StartHeartbeat()
      modifies this
      ensures State() == Lifecycle.StartHeartbeat(old(State()))
      ensures handlers == old(handlers)
    {
      if heartbeatTimer.Some? {
        ClearTimer(heartbeatTimer.value);
      }
      var h := SetTimer(Heartbeat);
      heartbeatTimer := Some(h);
    }

    method ScheduleReconnect()
      modifies this
      ensures State() == Schedule(old(State()))
      ensures handlers == old(handlers)
    {
      if reconnectTimer.Some? {
        ClearTimer(reconnectTimer.value);
      }
      var delay := BackoffDelay(reconnectDelay, attempts);
      var h := SetTimer(Reconnect(delay));
      reconnectTimer := Some(h);
    }

    /** `sendPing()`; `fails` says whether `send` throws. */
    method SendPing(now: int, fails: bool) returns (w: Option<Write>)
      requires Valid()
      ensures w == Lifecycle.SendPing(State(), now, fails)
      // the PING reaches the one channel that is not retired
      ensures w.Some? ==> && w.value.socket < |sockets| && sockets[w.value.socket].state == OPEN
                          && (forall j :: 0 <= j < |sockets| && j != w.value.socket ==> Retired(sockets[j].state))
    {
      if socket.Some? && socket.value < |sockets| && sockets[socket.value].state == OPEN && !fails {
        w := Some(Write(socket.value, Ping(now)));
      } else {
        w := None;
      }
    }

    // -------------------------------------------------------------------
    // Connecting

    method InitWebSocket(stored: Option<string>, ctorThrows: bool)
      requires Valid()
      modifies this
      ensures State() == Init(cfg, old(State()), stored, ctorThrows)
      ensures Valid() && handlers == old(handlers)
    {
      if socket.Some? && (sockets[socket.value].state == OPEN || sockets[socket.value].state == CONNECTING) {
        return;
      }
      if !cfg.available {
        status := Disconnected;
        return;
      }
      var token := TokenOf(stored);
      if token.None? {
        status := Disconnected;
        return;
      }
      if socket.Some? {
        sockets := CloseSocket(sockets, socket.value);
        socket := None;
      }
      status := Connecting;
      attempts := attempts + 1;
      assert State() == Discard(old(State()));
      if ctorThrows {
        status := Disconnected;
        if attempts < MaxAttempts {
          ScheduleReconnect();
        }
        return;
      }
      // the connection timeout is armed right after the object is created;
      // its handle is recorded with the socket it belongs to
      var id := |sockets|;
      var h := SetTimer(ConnectTimeout(id));
      sockets := sockets + [Sock(cfg.wsUrl + "?token=" + token.value, CONNECTING, h)];
      socket := Some(id);
    }

    /** `onopen` of socket `id`; returns the immediate PING websocket.js writes. */
    method OnOpen(id: nat, now: int, pingFails: bool) returns (w: Option<Write>)
      requires Valid() && id < |sockets| && sockets[id].state == CONNECTING
      modifies this
      ensures (State(), w) == Opened(cfg, old(State()), id, now, pingFails)
      ensures Valid() && handlers == old(handlers)
    {
      ghost var s1 := State().(sockets := sockets[id := sockets[id].(state := OPEN)],
                               timers := timers - {sockets[id].timeout},
                               status := Connected, attempts := 0, reconnectDelay := InitialDelay);
      sockets := sockets[id := sockets[id].(state := OPEN)];
      status := Connected;
      attempts := 0;
      reconnectDelay := InitialDelay;
      ClearTimer(sockets[id].timeout);
      assert State() == s1;
      w := None;
      if cfg.variant == WebsocketJs {
        w := SendPing(now, pingFails);
      }
      assert w == (if cfg.variant == WebsocketJs then Lifecycle.SendPing(s1, now, pingFails) else None);
      StartHeartbeat();
    }

    /** The server begins the closing handshake of socket `id`. */
    method OnClosing(id: nat)
      requires Valid() && id < |sockets| && sockets[id].state == OPEN
      modifies this
      ensures State() == ServerClosing(old(State()), id)
      ensures Valid() && handlers == old(handlers)
    {
      sockets := sockets[id := sockets[id].(state := CLOSING)];
    }

    /** `onclose` of socket `id`. */
    method OnClose(id: nat, wasClean: bool, code: int)
      requires Valid() && id < |sockets| && sockets[id].state != CLOSED
      modifies this
      ensures State() == Closed(cfg, old(State()), id, wasClean, code)
      ensures Valid() && handlers == old(handlers)
    {
      ClearTimeoutValid(State(), id, CLOSED);
      sockets := sockets[id := sockets[id].(state := CLOSED)];
      ClearTimer(sockets[id].timeout);
      StopHeartbeat();
      status := Disconnected;
      if !CleanClose(cfg.variant, wasClean, code) && attempts < MaxAttempts {
        ScheduleReconnect();
      }
    }

    /** `onerror` of socket `id`. */
    method OnError(id: nat)
      requires Valid() && id < |sockets| && sockets[id].state != CLOSED
      modifies this
      ensures State() == Errored(old(State()), id)
      ensures Valid() && handlers == old(handlers)
    {
      status := Disconnected;
    }

    /** The connection timeout with handle `h` fires. */
    method OnConnectTimeout(h: nat)
      requires Valid() && h in timers && timers[h].ConnectTimeout?
      modifies this
      ensures State() == TimedOut(old(State()), h)
      ensures Valid() && handlers == old(handlers)
    {
      ClearTimer(h);
      if socket.Some? && sockets[socket.value].state != OPEN {
        sockets := CloseSocket(sockets, socket.value);
        status := Disconnected;
      }
    }

    /** The pending reconnect timeout fires. */
    method OnReconnectTimer(stored: Option<string>, ctorThrows: bool)
      requires Valid() && reconnectTimer.Some?
      modifies this
      ensures State() == ReconnectFired(cfg, old(State()), stored, ctorThrows)
      ensures Valid() && handlers == old(handlers)
    {
      ClearTimer(reconnectTimer.value);
      reconnectTimer := None;
      assert State() == CancelReconnect(old(State()));
      InitWebSocket(stored, ctorThrows);
    }

    /** A tick of the heartbeat interval; returns the PING it writes. */
    method OnHeartbeat(now: int, sendFails: bool, stored: Option<string>, ctorThrows: bool) returns (w: Option<Write>)
      requires Valid() && heartbeatTimer.Some?
      modifies this
      ensures (State(), w) == HeartbeatTick(cfg, old(State()), now, sendFails, stored, ctorThrows)
      ensures Valid() && handlers == old(handlers)
    {
      if !(socket.Some? && sockets[socket.value].state == OPEN) {
        StopHeartbeat();
        CountersKeepValid(State(), Disconnected, attempts);
        status := Disconnected;
        InitWebSocket(stored, ctorThrows);
        w := None;
        return;
      }
      w := SendPing(now, sendFails);
      if sendFails && cfg.variant == IndexJs {
        StopHeartbeat();
        CountersKeepValid(State(), Disconnected, attempts);
        status := Disconnected;
        InitWebSocket(stored, ctorThrows);
      }
    }

    /** `closeConnection()`. */
    method CloseConnection()
      requires Valid()
      modifies this
      ensures State() == Lifecycle.CloseConnection(old(State()))
      ensures Valid() && handlers == old(handlers)
    {
      if socket.Some? {
        sockets := CloseSocket(sockets, socket.value);
        socket := None;
      }
      if reconnectTimer.Some? {
        ClearTimer(reconnectTimer.value);
        reconnectTimer := None;
      }
      StopHeartbeat();
      status := Disconnected;
    }

    /** `isConnected()`. */
    method IsConnected() returns (b: bool)
      ensures b == IsOpen(State())
    {
      b := socket.Some? && socket.value < |sockets| && sockets[socket.value].state == OPEN;
    }

    /** `isConnected()` is the test `sendMessage` goes by. For a message that
        builds and a `send` that works: when connected, the frame goes over
        the socket with no HTTP call; when not, it goes over the socket only
        if a connecting socket opens within the wait. */
    method ConnectedSendsOverSocket(user: Option<User>, m: Intent, now: int,
                                    afterWait: Option<ReadyState>, retryFails: bool, httpOk: bool)
      returns (connected: bool, r: SendReport)
      requires Valid() && BuildPayload(user, m, now).Payload?
      ensures connected ==> r == SendReport(Reply(true, ModeWs), Some(BuildPayload(user, m, now).env), None)
      ensures afterWait != Some(OPEN) ==> (connected <==> r.ws.Some?)
      ensures !connected ==> r.ws.None? || (Live(State()) && afterWait == Some(OPEN) && !retryFails)
    {
      connected := IsConnected();
      r := SendMessage(user, m, now, false, afterWait, retryFails, httpOk);
    }

    // -------------------------------------------------------------------
    // Handlers and inbound frames

    /** `addMessageHandler(typ, handler)`: replaces any handler for `typ`. */
    method AddMessageHandler(typ: string, handler: nat)
      modifies this
      ensures handlers == old(handlers)[typ := handler]
      ensures State() == old(State())
    {
      handlers := handlers[typ := handler];
    }

    method RemoveMessageHandler(typ: string)
      modifies this
      ensures handlers == old(handlers) - {typ}
      ensures State() == old(State())
    {
      handlers := handlers - {typ};
    }

    /** `onmessage`: the handler it invokes, if any. websocket.js first tests
        the type for truthiness, so an empty type goes to the `default`
        handler; index.js looks it up like any other. */
    method OnMessage(frame: Frame) returns (invoked: Option<nat>)
      ensures !frame.JsonValue? ==> invoked.None?
      ensures frame.JsonValue? && frame.typ == Some("PONG") ==> invoked.None?
      ensures invoked.Some? ==> invoked.value in handlers.Values
      ensures frame.JsonValue? && frame.typ.Some? && frame.typ.value != "PONG" && frame.typ.value in handlers
              && (frame.typ.value != "" || cfg.variant == IndexJs)
              ==> invoked == Some(handlers[frame.typ.value])
      ensures frame.JsonValue? && frame.typ != Some("PONG")
              && !(frame.typ.Some? && frame.typ.value in handlers && (frame.typ.value != "" || cfg.variant == IndexJs))
              ==> invoked == MapGet(handlers, "default")
    {
      if !frame.JsonValue? {
        // a parse error, or `.type` of null, is caught and logged
        return None;
      }
      if frame.typ == Some("PONG") {
        return None;
      }
      var typed := frame.typ.Some? && frame.typ.value in handlers;
      if cfg.variant == WebsocketJs {
        typed := typed && frame.typ.value != "";
      }
      if typed {
        invoked := Some(handlers[frame.typ.value]);
      } else if "default" in handlers {
        invoked := Some(handlers["default"]);
      } else {
        invoked := None;
      }
    }

    // -------------------------------------------------------------------
    // Sending and polling

    /** `sendMessage(m)`. `sendFails` says whether `send` throws on an open
        socket, `afterWait` is the `readyState` of whatever `socket` holds
        after the 500 ms wait (`None`: null), `retryFails` whether the send
        after the wait throws, and `httpOk` whether the HTTP call resolves. */
    method SendMessage(user: Option<User>, m: Intent, now: int, sendFails: bool,
                       afterWait: Option<ReadyState>, retryFails: bool, httpOk: bool)
      returns (r: SendReport)
      requires Valid()
      // nothing is sent both ways
      ensures r.ws.None? || r.http.None?
      ensures BuildPayload(user, m, now).NoPayload? ==> r == SendReport(Reply(false, ModeInvalid), None, None)
      ensures BuildPayload(user, m, now).PayloadThrows? ==> r == SendReport(Rejected, None, None)
      // the socket gets the built frame exactly when it is open and `send`
      // works, now or after the wait
      ensures r.ws.Some? <==>
                && BuildPayload(user, m, now).Payload?
                && ((IsOpen(State()) && !sendFails) ||
                    (Live(State()) && !IsOpen(State()) && afterWait == Some(OPEN) && !retryFails))
      ensures r.ws.Some? ==> r.ws.value == BuildPayload(user, m, now).env && r.reply == Reply(true, ModeWs)
      // otherwise the HTTP fallback decides; websocket.js fails it when `socket` is null by then
      ensures BuildPayload(user, m, now).Payload? && r.ws.None? ==>
                var nullThen := socket.None? || (Live(State()) && !IsOpen(State()) && afterWait.None?);
                var fb := if cfg.variant == WebsocketJs then FallbackAsWritten(m, nullThen, httpOk) else Fallback(m, httpOk);
                r.reply == fb.reply && r.http == fb.call
    {
      var built := BuildPayload(user, m, now);
      if built.PayloadThrows? {
        // the TypeError rejects the returned promise
        return SendReport(Rejected, None, None);
      }
      if built.NoPayload? {
        return SendReport(Reply(false, ModeInvalid), None, None);
      }
      var nullThen: bool;
      if socket.Some? && sockets[socket.value].state == OPEN {
        if !sendFails {
          return SendReport(Reply(true, ModeWs), Some(built.env), None);
        }
        nullThen := false;
      } else if socket.Some? && sockets[socket.value].state == CONNECTING {
        if afterWait == Some(OPEN) && !retryFails {
          return SendReport(Reply(true, ModeWs), Some(built.env), None);
        }
        nullThen := afterWait.None?;
      } else {
        nullThen := socket.None?;
      }
      var fb := if cfg.variant == WebsocketJs then FallbackAsWritten(m, nullThen, httpOk) else Fallback(m, httpOk);
      r := SendReport(fb.reply, None, fb.call);
    }

    /** `pollNewMessages()` with the outcomes of its two GET requests. */
    method PollNewMessages(unread: Fetch<int>, convs: Fetch<seq<Conversation>>) returns (r: PollReport)
      ensures status == Connected ==> r == PollReport([], None)
      ensures status != Connected ==>
                r.gets == ["/messages/unread"] +
                          (if unread.Fetched? && unread.value > 0 then ["/messages/conversations"] else [])
      // the NEW_MESSAGES handler is called at most once, with the non-empty
      // list of unread conversations, and exactly when all of this holds
      ensures r.notified.Some? <==>
                && status != Connected && unread.Fetched? && unread.value > 0 && convs.Fetched?
                && UnreadOnly(convs.value) != [] && "NEW_MESSAGES" in handlers
      ensures r.notified.Some? ==> r.notified.value == (handlers["NEW_MESSAGES"], UnreadOnly(convs.value))
    {
      if status == Connected {
        return PollReport([], None);
      }
      var gets := ["/messages/unread"];
      if unread.Failed? || unread.value <= 0 {
        return PollReport(gets, None);
      }
      gets := gets + ["/messages/conversations"];
      if convs.Failed? {
        return PollReport(gets, None);
      }
      var pending := UnreadOnly(convs.value);
      if |pending| > 0 && "NEW_MESSAGES" in handlers {
        r := PollReport(gets, Some((handlers["NEW_MESSAGES"], pending)));
      } else {
        r := PollReport(gets, None);
      }
    }
  }
}
