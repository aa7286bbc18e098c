/**
 * The realtime connection manager as a state machine over values.
 *
 * One State holds everything the manager keeps in module-level variables: the
 * published status, the socket reference with the ready-state the transport
 * reports, the two timers (as "armed" flags), the reconnect counter and the
 * handler registry. Its observable side effects (sockets created, close
 * requests, frames written, handler calls, broadcasts, toasts) are appended to
 * one log, in order. Every entry point is a function from the old state (and
 * what the environment supplies) to the new one; the imperative class in
 * module Manager is proved to agree with these functions.
 */
module Connection {
  import opened Wrappers
  import opened Json
  import SocketUrl

  const MAX_RECONNECT_COUNT: nat := 5
  /** Close code of a normal, intentional closure. */
  const NORMAL_CLOSURE: int := 1000

  datatype Status = Connecting | Open | Closed | Error

  /** The ready-state the transport reports for a socket. */
  datatype ReadyState = CONNECTING | OPEN | CLOSING | CLOSED

  datatype Socket = Socket(url: string, ready: ReadyState)

  /** Identity of a registered callback. */
  type HandlerId = nat

  /** The three toasts the manager raises. */
  datatype Notice = Connected | TransportError | GaveUp

  datatype Effect =
    | Created(url: string)
    | CloseRequested(code: int)
    | Sent(frame: string)
    | Called(handler: HandlerId, payload: Value)
    | Broadcast(payload: Value)
    | Notified(notice: Notice)

  /**
   * What a connection attempt reads from outside: the configured API base URL,
   * the access token (null or a string), the interface locale, and whether the
   * WebSocket constructor accepts the URL.
   */
  datatype Env = Env(apiUrl: string, token: Option<string>, locale: string, constructs: bool)

  /** An argument of send: a string is written as it is, anything else as JSON. */
  datatype Outbound = Text(text: string) | Data(value: Value)

  datatype State = State(
    status: Status,
    ws: Option<Socket>,
    reconnectPending: bool,
    heartbeatActive: bool,
    reconnectCount: nat,
    handlers: map<string, HandlerId>,
    effects: seq<Effect>)

  const Initial := State(Closed, None, false, false, 0, map[], [])

  /** The invariant every entry point keeps. */
  predicate Valid(s: State) {
    s.reconnectCount <= MAX_RECONNECT_COUNT && (s.reconnectPending ==> s.reconnectCount >= 1)
  }

  /** The connect guard: a socket that is open or still connecting. */
  predicate Live(s: State) {
    s.ws.Some? && (s.ws.value.ready == OPEN || s.ws.value.ready == CONNECTING)
  }

  /** Sending is possible only on a present socket whose ready-state is OPEN. */
  predicate Writable(s: State) {
    s.ws.Some? && s.ws.value.ready == OPEN
  }

  /** Everything except the timers, the counter and the log is the same. */
  predicate SameConnection(s: State, r: State) {
    r.status == s.status && r.ws == s.ws && r.handlers == s.handlers
  }

  // ---------------------------------------------------------------------------
  // Timers
  // ---------------------------------------------------------------------------

  /** clearTimers: both timers become inactive; nothing else changes. */
  function ClearTimers(s: State): (r: State)
    ensures !r.reconnectPending && !r.heartbeatActive
    ensures SameConnection(s, r) && r.reconnectCount == s.reconnectCount && r.effects == s.effects
    ensures Valid(s) ==> Valid(r)
  {
    s.(reconnectPending := false, heartbeatActive := false)
  }

  /** startHeartbeat: clears both timers, then arms the heartbeat. */
  function StartHeartbeat(s: State): (r: State)
    ensures r.heartbeatActive && !r.reconnectPending
    ensures SameConnection(s, r) && r.reconnectCount == s.reconnectCount && r.effects == s.effects
  {
    ClearTimers(s).(heartbeatActive := true)
  }

  /**
   * scheduleReconnect: with a timer already armed or the counter at the
   * ceiling nothing is scheduled (and at the ceiling the persistent toast is
   * raised, on every such call); otherwise the counter goes up by one and one
   * reconnect timer is armed.
   */
  function ScheduleReconnect(s: State): (r: State)
    ensures s.reconnectPending || s.reconnectCount >= MAX_RECONNECT_COUNT ==>
      r.reconnectCount == s.reconnectCount && r.reconnectPending == s.reconnectPending
    ensures !s.reconnectPending && s.reconnectCount < MAX_RECONNECT_COUNT ==>
      r.reconnectCount == s.reconnectCount + 1 && r.reconnectPending
    ensures r.effects == s.effects + (if s.reconnectCount >= MAX_RECONNECT_COUNT then [Notified(GaveUp)] else [])
    ensures SameConnection(s, r) && r.heartbeatActive == s.heartbeatActive
    ensures Valid(s) ==> Valid(r)
  {
    if s.reconnectPending || s.reconnectCount >= MAX_RECONNECT_COUNT then
      if s.reconnectCount >= MAX_RECONNECT_COUNT then s.(effects := s.effects + [Notified(GaveUp)]) else s
    else
      s.(reconnectCount := s.reconnectCount + 1, reconnectPending := true)
  }

  // ---------------------------------------------------------------------------
  // Connection lifecycle
  // ---------------------------------------------------------------------------

  /**
   * The outcome of the part of a connection attempt that can throw: reading the
   * access token, building the URL, and the WebSocket constructor. Some(url)
   * is the URL of the socket created; None means one of them threw.
   */
  function NewSocketUrl(env: Env): (r: Option<string>)
    ensures r.Some? <==> env.constructs && SocketUrl.BuildSocketUrl(env.apiUrl, env.token, env.locale).Some?
    ensures r.Some? ==> r == SocketUrl.BuildSocketUrl(env.apiUrl, env.token, env.locale)
  {
    var url := SocketUrl.BuildSocketUrl(env.apiUrl, env.token, env.locale);
    if url.Some? && env.constructs then url else None
  }

  /**
   * createWebSocketConnection, given the outcome of its throwing part (see
   * NewSocketUrl). A live socket makes it a no-op. Otherwise a new socket
   * replaces the reference and the status is `connecting`; when the attempt
   * threw, the status is `error`, the old reference stays, and reconnect
   * scheduling runs.
   */
  function Connect(s: State, attempt: Option<string>): (r: State)
    ensures Live(s) ==> r == s
    ensures !Live(s) && attempt.Some? ==>
      r.status == Connecting && r.ws == Some(Socket(attempt.value, CONNECTING)) && r.handlers == s.handlers &&
      r.effects == s.effects + [Created(attempt.value)] &&
      r.reconnectPending == s.reconnectPending && r.heartbeatActive == s.heartbeatActive &&
      r.reconnectCount == s.reconnectCount
    ensures !Live(s) && attempt.None? ==>
      r.status == Error && r.ws == s.ws && r.handlers == s.handlers && r.heartbeatActive == s.heartbeatActive &&
      r.reconnectPending == (s.reconnectPending || s.reconnectCount < MAX_RECONNECT_COUNT) &&
      r.reconnectCount == (if s.reconnectPending || s.reconnectCount >= MAX_RECONNECT_COUNT then s.reconnectCount else s.reconnectCount + 1) &&
      r.effects == s.effects + (if s.reconnectCount >= MAX_RECONNECT_COUNT then [Notified(GaveUp)] else [])
    ensures Valid(s) ==> Valid(r)
  {
    if Live(s) then s
    else
      var connecting := s.(status := Connecting);
      match attempt
      case Some(url) => connecting.(ws := Some(Socket(url, CONNECTING)), effects := s.effects + [Created(url)])
      case None => ScheduleReconnect(connecting.(status := Error))
  }

  /**
   * closeWebSocketConnection: both timers stop, a present socket is asked to
   * close with the normal-closure code and dropped, and the status is `closed`.
   */
  function Disconnect(s: State): (r: State)
    ensures r.status == Closed && r.ws == None && !r.reconnectPending && !r.heartbeatActive
    ensures r.reconnectCount == s.reconnectCount && r.handlers == s.handlers
    ensures r.effects == s.effects + (if s.ws.Some? then [CloseRequested(NORMAL_CLOSURE)] else [])
    ensures Valid(s) ==> Valid(r)
  {
    var cleared := ClearTimers(s);
    var closed := if cleared.ws.Some? then cleared.(ws := None, effects := cleared.effects + [CloseRequested(NORMAL_CLOSURE)]) else cleared;
    closed.(status := Closed)
  }

  /**
   * handleOpen: the status is `open`, the counter is reset, the heartbeat runs
   * and any pending reconnect timer is cancelled (startHeartbeat clears both).
   */
  function OnOpen(s: State): (r: State)
    ensures r.status == Open && r.reconnectCount == 0 && r.heartbeatActive && !r.reconnectPending
    ensures r.ws == s.ws && r.handlers == s.handlers && r.effects == s.effects + [Notified(Connected)]
    ensures Valid(r)
  {
    var reset := s.(status := Open, reconnectCount := 0);
    var beating := StartHeartbeat(reset);
    beating.(effects := beating.effects + [Notified(Connected)])
  }

  /** handleError: the status is `error` and a toast is raised; the socket is left alone. */
  function OnError(s: State): (r: State)
    ensures r.status == Error && r.effects == s.effects + [Notified(TransportError)]
    ensures r.ws == s.ws && r.handlers == s.handlers && r.reconnectCount == s.reconnectCount
    ensures r.reconnectPending == s.reconnectPending && r.heartbeatActive == s.heartbeatActive
  {
    s.(status := Error, effects := s.effects + [Notified(TransportError)])
  }

  /**
   * handleClose: the status is `closed`, the reference is dropped (whichever
   * socket the event came from) and both timers stop; reconnect scheduling
   * runs exactly when the code is not the normal-closure code.
   */
  function OnClose(s: State, code: int): (r: State)
    ensures r.status == Closed && r.ws == None && !r.heartbeatActive && r.handlers == s.handlers
    ensures r.reconnectPending <==> code != NORMAL_CLOSURE && s.reconnectCount < MAX_RECONNECT_COUNT
    ensures r.reconnectCount ==
      if code != NORMAL_CLOSURE && s.reconnectCount < MAX_RECONNECT_COUNT then s.reconnectCount + 1 else s.reconnectCount
    ensures r.effects == s.effects +
      if code != NORMAL_CLOSURE && s.reconnectCount >= MAX_RECONNECT_COUNT then [Notified(GaveUp)] else []
    ensures Valid(s) ==> Valid(r)
  {
    var closed := ClearTimers(s.(status := Closed, ws := None));
    if code != NORMAL_CLOSURE then ScheduleReconnect(closed) else closed
  }

  /**
   * The reconnect timer firing: it forgets its own handle, then connects. A
   * timer is armed afterwards only when this very attempt failed and
   * rescheduled, one count higher.
   */
  function FireReconnect(s: State, attempt: Option<string>): (r: State)
    requires s.reconnectPending
    ensures r == Connect(s.(reconnectPending := false), attempt)
    ensures Live(s) ==> r == s.(reconnectPending := false)
    ensures !Live(s) && attempt.Some? ==>
      r.status == Connecting && r.ws == Some(Socket(attempt.value, CONNECTING)) &&
      r.effects == s.effects + [Created(attempt.value)] && !r.reconnectPending
    ensures !Live(s) && attempt.None? ==>
      r.status == Error && r.ws == s.ws &&
      r.effects == s.effects + (if s.reconnectCount >= MAX_RECONNECT_COUNT then [Notified(GaveUp)] else [])
    ensures r.reconnectCount == s.reconnectCount || r.reconnectCount == s.reconnectCount + 1
    ensures r.reconnectPending ==> r.status == Error && r.reconnectCount == s.reconnectCount + 1
    ensures r.reconnectCount == s.reconnectCount + 1 ==> r.reconnectPending
    ensures r.handlers == s.handlers && r.heartbeatActive == s.heartbeatActive
    ensures Valid(s) ==> Valid(r)
  {
    Connect(s.(reconnectPending := false), attempt)
  }

  // ---------------------------------------------------------------------------
  // Sending and the heartbeat
  // ---------------------------------------------------------------------------

  /** The text written for a send argument. */
  function Frame(data: Outbound): string {
    match data
    case Text(t) => t
    case Data(v) => Stringify(v)
  }

  /**
   * sendWebSocketMessage: false, and nothing written, unless the socket is
   * present and OPEN; then true exactly when the transport write does not throw.
   */
  function Send(s: State, data: Outbound, writeOk: bool): (r: (State, bool))
    ensures r.1 <==> Writable(s) && writeOk
    ensures r.0.effects == s.effects + (if r.1 then [Sent(Frame(data))] else [])
    ensures r.0 == s.(effects := r.0.effects)
  {
    if !Writable(s) then (s, false)
    else if writeOk then (s.(effects := s.effects + [Sent(Frame(data))]), true)
    else (s, false)
  }

  /** The heartbeat probe, `{type: 'ping', timestamp}`. */
  function PingMessage(timestamp: string): (r: Value)
    ensures r.JObj? && TypeProperty(r) == Defined(JStr("ping"))
    ensures LookupMember(r.members, "timestamp") == Defined(JStr(timestamp))
  {
    var members := [("type", JStr("ping")), ("timestamp", JStr(timestamp))];
    assert members[..1] == [("type", JStr("ping"))];
    assert LookupMember(members[..1], "type") == Defined(JStr("ping"));
    JObj(members)
  }

  /**
   * A heartbeat tick: a ping is written only on an OPEN socket; otherwise
   * nothing happens, and in either case the timer stays armed.
   */
  function HeartbeatTick(s: State, timestamp: string, writeOk: bool): (r: State)
    requires s.heartbeatActive
    ensures r.heartbeatActive
    ensures r.effects == s.effects + (if Writable(s) && writeOk then [Sent(Frame(Data(PingMessage(timestamp))))] else [])
    ensures r == s.(effects := r.effects)
  {
    if Writable(s) then Send(s, Data(PingMessage(timestamp)), writeOk).0 else s
  }

  /** The ping frame on the wire: `{"type":"ping","timestamp":<quoted timestamp>}`. */
  lemma PingFrame(timestamp: string)
    ensures Frame(Data(PingMessage(timestamp))) ==
      "{" + (Quote("type") + ":" + Quote("ping") + "," + (Quote("timestamp") + ":" + Quote(timestamp))) + "}"
  {
    PairObject("type", JStr("ping"), "timestamp", JStr(timestamp));
  }

  // ---------------------------------------------------------------------------
  // The handler registry and inbound frames
  // ---------------------------------------------------------------------------

  /** registerMessageHandler: upsert, the last registration for a type wins. */
  function Register(s: State, messageType: string, handler: HandlerId): (r: State)
    ensures messageType in r.handlers && r.handlers[messageType] == handler
    ensures forall t :: t != messageType ==> (t in r.handlers <==> t in s.handlers)
    ensures forall t :: t != messageType && t in s.handlers ==> r.handlers[t] == s.handlers[t]
    ensures r == s.(handlers := r.handlers)
  {
    s.(handlers := s.handlers[messageType := handler])
  }

  /** unregisterMessageHandler: removes that type only. */
  function Unregister(s: State, messageType: string): (r: State)
    ensures messageType !in r.handlers
    ensures forall t :: t != messageType ==> (t in r.handlers <==> t in s.handlers)
    ensures forall t :: t != messageType && t in s.handlers ==> r.handlers[t] == s.handlers[t]
    ensures r == s.(handlers := r.handlers)
  {
    s.(handlers := s.handlers - {messageType})
  }

  /** The registry key of a payload: its `type`, when truthy, as a property key. */
  function TypeKey(v: Value): Option<string> {
    match TypeProperty(v)
    case Defined(t) => if Truthy(t) then Some(PropertyKey(t)) else None
    case _ => None
  }

  datatype Routing =
    | Dropped
    | Heartbeat
    | Dispatch(handler: Option<HandlerId>, payload: Value)

  /**
   * What handleMessage does with a parsed frame (None when JSON.parse threw):
   * unparsable frames and null payloads are dropped, `pong` is consumed, and
   * everything else is dispatched with the whole payload, to the handler
   * registered under its type when there is one.
   */
  function Route(handlers: map<string, HandlerId>, parsed: Option<Value>): (r: Routing)
    ensures r == Dropped <==> parsed.None? || parsed == Some(JNull)
    ensures r == Heartbeat <==> parsed.Some? && TypeProperty(parsed.value) == Defined(JStr("pong"))
    ensures r.Dispatch? ==> parsed == Some(r.payload)
    ensures r.Dispatch? ==>
      (r.handler.Some? <==> TypeKey(r.payload).Some? && TypeKey(r.payload).value in handlers)
    ensures r.Dispatch? && r.handler.Some? ==> r.handler.value == handlers[TypeKey(r.payload).value]
  {
    match parsed
    case None => Dropped
    case Some(v) =>
      match TypeProperty(v)
      case Throws => Dropped
      case Undefined => Dispatch(None, v)
      case Defined(t) =>
        if t == JStr("pong") then Heartbeat
        else if Truthy(t) && PropertyKey(t) in handlers then Dispatch(Some(handlers[PropertyKey(t)]), v)
        else Dispatch(None, v)
  }

  /**
   * handleMessage. Nothing but the log changes. A handler that throws is
   * caught by the same try as everything else, so its frame is not broadcast.
   */
  function OnMessage(s: State, parsed: Option<Value>, handlerThrows: bool): (r: State)
    ensures r == s.(effects := r.effects)
    ensures Route(s.handlers, parsed).Dropped? || Route(s.handlers, parsed).Heartbeat? ==> r == s
    ensures Route(s.handlers, parsed).Dispatch? && Route(s.handlers, parsed).handler.None? ==>
      r.effects == s.effects + [Broadcast(Route(s.handlers, parsed).payload)]
    ensures Route(s.handlers, parsed).Dispatch? && Route(s.handlers, parsed).handler.Some? ==>
      r.effects == s.effects + [Called(Route(s.handlers, parsed).handler.value, Route(s.handlers, parsed).payload)] +
        (if handlerThrows then [] else [Broadcast(Route(s.handlers, parsed).payload)])
  {
    match Route(s.handlers, parsed)
    case Dropped => s
    case Heartbeat => s
    case Dispatch(None, payload) => s.(effects := s.effects + [Broadcast(payload)])
    case Dispatch(Some(h), payload) =>
      s.(effects := s.effects + [Called(h, payload)] + (if handlerThrows then [] else [Broadcast(payload)]))
  }

  /** The transport moves the current socket to another ready-state. */
  function Transport(s: State, ready: ReadyState): (r: State)
    ensures r.ws == if s.ws.Some? then Some(s.ws.value.(ready := ready)) else None
    ensures r == s.(ws := r.ws)
  {
    if s.ws.Some? then s.(ws := Some(s.ws.value.(ready := ready))) else s
  }
}
