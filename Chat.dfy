/** The parts of the realtime chat client in which the two copies of the
    connection manager (websocket.js and index.js) behave alike: the wire
    vocabulary, the outbound payload builder, the reconnect backoff, the
    HTTP fallback mapping and the unread-conversation filter of the poller.
    The start of the websocket.js fallback differs, see `FallbackAsWritten`. */
module Chat {
  import opened Js

  /** `WebSocket.readyState`. */
  datatype ReadyState = CONNECTING | OPEN | CLOSING | CLOSED

  /** Which copy of the connection manager a value describes. */
  datatype Variant = WebsocketJs | IndexJs

  const MaxAttempts: nat := 5
  const InitialDelay: real := 1000.0
  const MaxDelay: real := 5000.0

  // ---------------------------------------------------------------------
  // Outbound payloads

  /** `store.state.user`; only its id is read. */
  datatype User = User(id: Option<Id>)

  /** The `data` object of a send intent; absent members are `undefined`. */
  datatype IntentData = IntentData(receiverId: Option<Id>, content: Option<string>, senderId: Option<Id>)

  /** The argument of `sendMessage`: `{type, data}`; `data` may be missing. */
  datatype Intent = Intent(typ: string, data: Option<IntentData>)

  /** A frame written to the socket; `None` members are left out of the JSON. */
  datatype Envelope = Envelope(typ: string, from: Option<Id>, to: Option<Id>, content: Option<string>, timestamp: int)

  /** What `buildMessagePayload` produces: an envelope, `null`, or a
      TypeError from reading a member of a missing `data`. */
  datatype Built = Payload(env: Envelope) | NoPayload | PayloadThrows

  predicate KnownType(t: string) {
    t == "CHAT" || t == "NEW_MESSAGES" || t == "TYPING" || t == "MARK_READ"
  }

  predicate SignedIn(user: Option<User>) {
    user.Some? && HasId(user.value.id)
  }

  /** The heartbeat frame `{type: 'PING', timestamp}`. */
  function Ping(now: int): Envelope {
    Envelope("PING", None, None, None, now)
  }

  /** `buildMessagePayload(message)` with `Date.now()` given as `now`. */
  function BuildPayload(user: Option<User>, m: Intent, now: int): (r: Built)
    ensures r.NoPayload? <==> !SignedIn(user) || !KnownType(m.typ)
    ensures r.PayloadThrows? <==> SignedIn(user) && KnownType(m.typ) && m.data.None?
    ensures r.Payload? ==> r.env.from == user.value.id && r.env.typ == m.typ && r.env.timestamp == now
    ensures r.Payload? && (m.typ == "CHAT" || m.typ == "NEW_MESSAGES") ==>
              r.env.to == m.data.value.receiverId && r.env.content == m.data.value.content
    ensures r.Payload? && m.typ == "TYPING" ==>
              r.env.to == m.data.value.receiverId && r.env.content == Some("typing")
    ensures r.Payload? && m.typ == "MARK_READ" ==>
              r.env.to == m.data.value.senderId && r.env.content.None?
  {
    if !SignedIn(user) then NoPayload
    else
      var from := user.value.id;
      match m.typ
      case "CHAT" =>
        if m.data.None? then PayloadThrows
        else Payload(Envelope(m.typ, from, m.data.value.receiverId, m.data.value.content, now))
      case "NEW_MESSAGES" =>
        if m.data.None? then PayloadThrows
        else Payload(Envelope(m.typ, from, m.data.value.receiverId, m.data.value.content, now))
      case "TYPING" =>
        if m.data.None? then PayloadThrows
        else Payload(Envelope("TYPING", from, m.data.value.receiverId, Some("typing"), now))
      case "MARK_READ" =>
        if m.data.None? then PayloadThrows
        else Payload(Envelope("MARK_READ", from, m.data.value.senderId, None, now))
      case _ => NoPayload
  }

  // ---------------------------------------------------------------------
  // Reconnect backoff: min(reconnectDelay * 1.5^(attempts - 1), 5000)

  function Pow15(k: nat): (r: real)
    ensures r >= 1.0
  {
    if k == 0 then 1.0 else 1.5 * Pow15(k - 1)
  }

  /** 1.5^(attempts - 1); `attempts` is 0 when a socket that had opened
      closes uncleanly, and then the exponent is -1. */
  function Growth(attempts: nat): real {
    if attempts == 0 then 2.0 / 3.0 else Pow15(attempts - 1)
  }

  function Min(a: real, b: real): real {
    if a <= b then a else b
  }

  /** The delay `scheduleReconnect` arms its timer with. */
  function BackoffDelay(base: real, attempts: nat): real {
    Min(base * Growth(attempts), MaxDelay)
  }

  lemma {:induction false} Pow15Monotone(j: nat, k: nat)
    requires j <= k
    ensures Pow15(j) <= Pow15(k)
  {
    if j < k {
      Pow15Monotone(j, k - 1);
    }
  }

  lemma GrowthMonotone(a: nat, b: nat)
    requires a <= b
    ensures 0.0 < Growth(a) <= Growth(b)
  {
    if a > 0 {
      Pow15Monotone(a - 1, b - 1);
    }
  }

  lemma ScaleMonotone(x: real, y: real, z: real)
    requires x > 0.0 && 0.0 < y <= z
    ensures 0.0 < x * y <= x * z
  {
  }

  /** The delay is positive, never above the cap, and does not shrink as
      the attempt count grows. */
  lemma BackoffBoundedMonotone(base: real, a: nat, b: nat)
    requires base > 0.0 && a <= b
    ensures 0.0 < BackoffDelay(base, a) <= MaxDelay
    ensures BackoffDelay(base, a) <= BackoffDelay(base, b)
  {
    GrowthMonotone(a, b);
    ScaleMonotone(base, Growth(a), Growth(b));
  }

  /** The delays for the initial base: 666.67 ms after a connection that had
      opened drops, then 1000, 1500, 2250, 3375 for attempts 1 to 4, and the
      5000 ms cap from the fifth attempt on. */
  lemma BackoffSchedule(attempts: nat)
    ensures attempts == 0 ==> BackoffDelay(InitialDelay, attempts) == 2000.0 / 3.0
    ensures attempts == 1 ==> BackoffDelay(InitialDelay, attempts) == 1000.0
    ensures attempts == 2 ==> BackoffDelay(InitialDelay, attempts) == 1500.0
    ensures attempts == 3 ==> BackoffDelay(InitialDelay, attempts) == 2250.0
    ensures attempts == 4 ==> BackoffDelay(InitialDelay, attempts) == 3375.0
    ensures attempts >= 5 ==> BackoffDelay(InitialDelay, attempts) == MaxDelay
  {
    assert Pow15(4) == 5.0625 by {
      assert Pow15(1) == 1.5;
      assert Pow15(2) == 2.25;
      assert Pow15(3) == 3.375;
    }
    if attempts >= 5 {
      Pow15Monotone(4, attempts - 1);
    }
  }

  // ---------------------------------------------------------------------
  // HTTP fallback

  /** The `mode` of the object `sendMessage` resolves to. */
  datatype Mode = ModeWs | ModeHttp | ModeIgnored | ModeInvalid | ModeNone | ModeFailed

  /** What the promise returned by `sendMessage` settles to. */
  datatype Reply = Reply(success: bool, mode: Mode) | Rejected

  /** The JSON body `{receiverId, content}` of the send-message call. */
  datatype SendBody = SendBody(receiverId: Option<Id>, content: Option<string>)

  datatype HttpCall = Post(path: string, body: Option<SendBody>)

  /** The settled reply of the fallback part and the HTTP call it made. */
  datatype FallbackResult = FallbackResult(reply: Reply, call: Option<HttpCall>)

  /** The HTTP part of `sendMessage` as index.js writes it, for an intent
      whose payload was built; `httpOk` says whether `api.post` resolves. */
  function Fallback(m: Intent, httpOk: bool): (r: FallbackResult)
    requires KnownType(m.typ) && m.data.Some?
    ensures r.call.Some? <==> m.typ == "CHAT" || m.typ == "MARK_READ"
    ensures m.typ == "CHAT" ==>
              r.call == Some(Post("/messages/send", Some(SendBody(m.data.value.receiverId, m.data.value.content))))
    ensures m.typ == "MARK_READ" ==>
              r.call == Some(Post("/messages/read/" + Render(m.data.value.senderId), None))
    ensures r.call.Some? ==> r.reply == (if httpOk then Reply(true, ModeHttp) else Reply(false, ModeFailed))
    ensures m.typ == "TYPING" ==> r.reply == Reply(true, ModeIgnored)
    ensures m.typ == "NEW_MESSAGES" ==> r.reply == Reply(false, ModeNone)
  {
    var d := m.data.value;
    match m.typ
    case "CHAT" =>
      FallbackResult(if httpOk then Reply(true, ModeHttp) else Reply(false, ModeFailed),
                     Some(Post("/messages/send", Some(SendBody(d.receiverId, d.content)))))
    case "MARK_READ" =>
      FallbackResult(if httpOk then Reply(true, ModeHttp) else Reply(false, ModeFailed),
                     Some(Post("/messages/read/" + Render(d.senderId), None)))
    case "TYPING" => FallbackResult(Reply(true, ModeIgnored), None)
    case _ => FallbackResult(Reply(false, ModeNone), None)
  }

  /** The HTTP part of `sendMessage` as websocket.js writes it: its first
      statement logs `socket.readyState`, which throws inside the `try` when
      `socket` is null, so the reply is then 'failed' and nothing is posted. */
  function FallbackAsWritten(m: Intent, socketIsNull: bool, httpOk: bool): (r: FallbackResult)
    requires KnownType(m.typ) && m.data.Some?
    ensures socketIsNull ==> r == FallbackResult(Reply(false, ModeFailed), None)
    ensures !socketIsNull ==> r == Fallback(m, httpOk)
  {
    if socketIsNull then FallbackResult(Reply(false, ModeFailed), None) else Fallback(m, httpOk)
  }

  /** With no socket, websocket.js loses every message the fallback would
      post: a chat message or a read receipt fails without a call, whereas
      the mapping of index.js posts it and reports 'http' when the call
      resolves. */
  lemma FallbackAsWrittenLosesEveryPost(m: Intent, httpOk: bool)
    requires m.data.Some? && (m.typ == "CHAT" || m.typ == "MARK_READ")
    ensures FallbackAsWritten(m, true, httpOk) == FallbackResult(Reply(false, ModeFailed), None)
    ensures Fallback(m, httpOk).call.Some?
    ensures httpOk ==> Fallback(m, httpOk).reply == Reply(true, ModeHttp)
  {
  }

  // ---------------------------------------------------------------------
  // Polling fallback

  /** A conversation summary; only `unreadCount` is inspected. */
  datatype Conversation = Conversation(peer: Option<Id>, unreadCount: Option<int>)

  /** `conv.unreadCount > 0` (false when the member is missing). */
  predicate HasUnread(c: Conversation) {
    c.unreadCount.Some? && c.unreadCount.value > 0
  }

  /** `conversations.filter(conv => conv.unreadCount > 0)`. */
  function UnreadOnly(cs: seq<Conversation>): (r: seq<Conversation>)
    ensures |r| <= |cs|
    ensures forall c :: multiset(r)[c] == (if HasUnread(c) then multiset(cs)[c] else 0)
    ensures forall i :: 0 <= i < |r| ==> HasUnread(r[i])
  {
    if cs == [] then []
    else
      assert cs == [cs[0]] + cs[1..];
      (if HasUnread(cs[0]) then [cs[0]] else []) + UnreadOnly(cs[1..])
  }

  /** The filter keeps the input order: filtering a concatenation filters
      each part and concatenates the results. */
  lemma {:induction false} UnreadOnlyConcat(cs: seq<Conversation>, ds: seq<Conversation>)
    ensures UnreadOnly(cs + ds) == UnreadOnly(cs) + UnreadOnly(ds)
  {
    if cs == [] {
      assert cs + ds == ds;
    } else {
      assert (cs + ds)[1..] == cs[1..] + ds;
      UnreadOnlyConcat(cs[1..], ds);
    }
  }

  lemma UnreadOnlyMembers(cs: seq<Conversation>, c: Conversation)
    ensures c in UnreadOnly(cs) <==> c in cs && HasUnread(c)
  {
    assert c in UnreadOnly(cs) <==> multiset(UnreadOnly(cs))[c] > 0;
    assert c in cs <==> multiset(cs)[c] > 0;
  }
}
