/**
 * Runs of the connection manager: every entry point and every callback the
 * browser or a timer can invoke is an event, and a run folds the events over
 * the state functions of module Connection. The lemmas here are about whole
 * runs: the reconnect counter stays within its ceiling, the effects log only
 * grows, reconnects are scheduled only after abnormal closes or failed
 * constructions, and a server that keeps refusing gets exactly five reconnect
 * attempts.
 */
module Trace {
  import opened Wrappers
  import opened Json
  import opened Connection

  datatype Event =
    | ConnectCalled(attempt: Option<string>)
    | DisconnectCalled
    | SocketOpened
    | FrameReceived(parsed: Option<Value>, handlerThrows: bool)
    | SocketErrored
    | SocketClosed(code: int)
    | ReconnectTimerFired(reconnectAttempt: Option<string>)
    | HeartbeatTimerFired(timestamp: string, writeOk: bool)
    | SendCalled(data: Outbound, writeOk: bool)
    | HandlerRegistered(messageType: string, handler: HandlerId)
    | HandlerUnregistered(unregisteredType: string)
    | ReadyStateChanged(ready: ReadyState)

  /** Events that touch the handler registry. */
  predicate IsRegistryEvent(e: Event) {
    e.HandlerRegistered? || e.HandlerUnregistered?
  }

  /**
   * One event. A timer that is not armed cannot fire, so its event changes
   * nothing; socket callbacks may come from any socket, current or stale.
   */
  function Step(s: State, e: Event): (r: State)
    ensures Valid(s) ==> Valid(r)
    ensures !e.SocketOpened? ==> r.reconnectCount >= s.reconnectCount
    ensures r.reconnectCount > s.reconnectCount ==> r.reconnectCount == s.reconnectCount + 1 && r.reconnectPending
    ensures !s.reconnectPending && r.reconnectPending ==>
      (e.SocketClosed? && e.code != NORMAL_CLOSURE) || (e.ConnectCalled? && e.attempt.None?)
    ensures !IsRegistryEvent(e) ==> r.handlers == s.handlers
  {
    match e
    case ConnectCalled(attempt) => Connect(s, attempt)
    case DisconnectCalled => Disconnect(s)
    case SocketOpened => OnOpen(s)
    case FrameReceived(parsed, handlerThrows) => OnMessage(s, parsed, handlerThrows)
    case SocketErrored => OnError(s)
    case SocketClosed(code) => OnClose(s, code)
    case ReconnectTimerFired(attempt) => if s.reconnectPending then FireReconnect(s, attempt) else s
    case HeartbeatTimerFired(timestamp, writeOk) =>
      if s.heartbeatActive then HeartbeatTick(s, timestamp, writeOk) else s
    case SendCalled(data, writeOk) => Send(s, data, writeOk).0
    case HandlerRegistered(messageType, handler) => Register(s, messageType, handler)
    case HandlerUnregistered(messageType) => Unregister(s, messageType)
    case ReadyStateChanged(ready) => Transport(s, ready)
  }

  predicate NoOpen(es: seq<Event>) {
    forall i :: 0 <= i < |es| ==> !es[i].SocketOpened?
  }

  /** The events in order. */
  function Run(s: State, es: seq<Event>): (r: State)
    ensures Valid(s) ==> Valid(r)
    ensures NoOpen(es) ==> r.reconnectCount >= s.reconnectCount
    ensures (forall i :: 0 <= i < |es| ==> !IsRegistryEvent(es[i])) ==> r.handlers == s.handlers
    decreases |es|
  {
    if es == [] then s
    else
      assert NoOpen(es) ==> NoOpen(es[1..]);
      Run(Step(s, es[0]), es[1..])
  }

  /** Running two traces one after the other is running their concatenation. */
  lemma {:induction false} RunAppend(s: State, a: seq<Event>, b: seq<Event>)
    ensures Run(s, a + b) == Run(Run(s, a), b)
    decreases |a|
  {
    if a == [] {
      assert a + b == b;
    } else {
      assert (a + b)[0] == a[0];
      assert (a + b)[1..] == a[1..] + b;
      RunAppend(Step(s, a[0]), a[1..], b);
    }
  }

  lemma RunTwo(s: State, e1: Event, e2: Event)
    ensures Run(s, [e1, e2]) == Step(Step(s, e1), e2)
  {
    assert [e1, e2][1..] == [e2];
    assert [e2][1..] == [];
    assert Run(s, [e1, e2]) == Run(Step(s, e1), [e2]);
    assert Run(Step(s, e1), [e2]) == Run(Step(Step(s, e1), e2), []);
  }

  lemma RunThree(s: State, e1: Event, e2: Event, e3: Event)
    ensures Run(s, [e1, e2, e3]) == Step(Step(Step(s, e1), e2), e3)
  {
    assert [e1, e2, e3][1..] == [e2, e3];
    RunTwo(Step(s, e1), e2, e3);
  }

  /** Every event only appends to the effects log. */
  lemma StepAppends(s: State, e: Event)
    ensures s.effects <= Step(s, e).effects
  {
  }

  /** The effects log of a run extends the log it started from. */
  lemma {:induction false} RunAppends(s: State, es: seq<Event>)
    ensures s.effects <= Run(s, es).effects
    decreases |es|
  {
    if es != [] {
      StepAppends(s, es[0]);
      RunAppends(Step(s, es[0]), es[1..]);
    }
  }

  /** From the initial state the counter never exceeds the ceiling, and an armed reconnect was counted. */
  lemma ReachableIsValid(es: seq<Event>)
    ensures Run(Initial, es).reconnectCount <= MAX_RECONNECT_COUNT
    ensures Run(Initial, es).reconnectPending ==> Run(Initial, es).reconnectCount >= 1
  {
    assert Valid(Initial);
  }

  /**
   * Once the counter has reached the ceiling with no reconnect armed, it stays
   * there and no reconnect is ever armed again until a socket opens.
   */
  lemma {:induction false} CeilingIsFinal(s: State, es: seq<Event>)
    requires s.reconnectCount == MAX_RECONNECT_COUNT && !s.reconnectPending
    requires NoOpen(es)
    ensures Run(s, es).reconnectCount == MAX_RECONNECT_COUNT && !Run(s, es).reconnectPending
    decreases |es|
  {
    if es != [] {
      var t := Step(s, es[0]);
      assert t.reconnectCount == MAX_RECONNECT_COUNT && !t.reconnectPending;
      assert NoOpen(es[1..]);
      CeilingIsFinal(t, es[1..]);
    }
  }

  // ---------------------------------------------------------------------------
  // A server that refuses every connection
  // ---------------------------------------------------------------------------

  /**
   * One refused reconnect: the timer fires and creates a socket for `url`,
   * and the browser reports an error and then an abnormal close for it.
   */
  function Cycle(url: string, code: int): seq<Event> {
    [ReconnectTimerFired(Some(url)), SocketErrored, SocketClosed(code)]
  }

  /** The effects of n refused attempts: the socket is created, then the error toast. */
  function Refusals(url: string, n: nat): seq<Effect> {
    if n == 0 then [] else Refusals(url, n - 1) + [Created(url), Notified(TransportError)]
  }

  /** The state after an abnormal close that armed a reconnect. */
  predicate AwaitingReconnect(s: State) {
    s.status == Closed && s.ws == None && s.reconnectPending && !s.heartbeatActive
  }

  /** One refused attempt below the ceiling: the counter goes up and the next timer is armed. */
  lemma RefusedAttempt(s: State, url: string, code: int)
    requires AwaitingReconnect(s) && code != NORMAL_CLOSURE
    requires s.reconnectCount < MAX_RECONNECT_COUNT
    ensures Run(s, Cycle(url, code)) ==
      s.(reconnectCount := s.reconnectCount + 1, effects := s.effects + [Created(url), Notified(TransportError)])
  {
    var b := RefusedSocket(s, url);
    RunThree(s, ReconnectTimerFired(Some(url)), SocketErrored, SocketClosed(code));
    assert OnClose(b, code) == b.(status := Closed, ws := None, reconnectPending := true, reconnectCount := s.reconnectCount + 1);
  }

  /** The last refused attempt, at the ceiling: no timer is armed and the give-up toast is raised. */
  lemma LastRefusedAttempt(s: State, url: string, code: int)
    requires AwaitingReconnect(s) && code != NORMAL_CLOSURE
    requires s.reconnectCount == MAX_RECONNECT_COUNT
    ensures Run(s, Cycle(url, code)) ==
      s.(reconnectPending := false, effects := s.effects + [Created(url), Notified(TransportError), Notified(GaveUp)])
  {
    var b := RefusedSocket(s, url);
    RunThree(s, ReconnectTimerFired(Some(url)), SocketErrored, SocketClosed(code));
    assert OnClose(b, code) == b.(status := Closed, ws := None, effects := b.effects + [Notified(GaveUp)]);
  }

  /** The first two events of a refused reconnect: the socket is created, then reports an error. */
  lemma RefusedSocket(s: State, url: string) returns (b: State)
    requires AwaitingReconnect(s)
    ensures b == Step(Step(s, ReconnectTimerFired(Some(url))), SocketErrored)
    ensures b == s.(reconnectPending := false, status := Error, ws := Some(Socket(url, CONNECTING)),
                    effects := s.effects + [Created(url), Notified(TransportError)])
  {
    var a := FireReconnect(s, Some(url));
    assert a == s.(reconnectPending := false, status := Connecting, ws := Some(Socket(url, CONNECTING)),
                   effects := s.effects + [Created(url)]);
    b := OnError(a);
  }

  /** The state after n refused attempts from s. */
  function AfterRefusals(s: State, url: string, n: nat): State {
    s.(reconnectCount := s.reconnectCount + n, effects := s.effects + Refusals(url, n))
  }

  lemma AfterOneMoreRefusal(s: State, url: string, n: nat)
    requires n > 0
    ensures AfterRefusals(s, url, n) ==
      AfterRefusals(s, url, n - 1).(reconnectCount := s.reconnectCount + n,
                                   effects := AfterRefusals(s, url, n - 1).effects + [Created(url), Notified(TransportError)])
  {
    assert s.effects + Refusals(url, n) == (s.effects + Refusals(url, n - 1)) + [Created(url), Notified(TransportError)];
  }

  /** n refused reconnects in a row, one cycle after the other. */
  function RunCycles(s: State, url: string, code: int, n: nat): State {
    if n == 0 then s else Run(RunCycles(s, url, code, n - 1), Cycle(url, code))
  }

  /** n refused attempts that stay within the ceiling. */
  lemma {:induction false} RefusedRetries(s: State, url: string, code: int, n: nat)
    requires AwaitingReconnect(s) && code != NORMAL_CLOSURE
    requires s.reconnectCount + n <= MAX_RECONNECT_COUNT
    ensures RunCycles(s, url, code, n) == AfterRefusals(s, url, n)
    decreases n
  {
    if n == 0 {
      assert s.effects + [] == s.effects;
    } else {
      var mid := AfterRefusals(s, url, n - 1);
      RefusedRetries(s, url, code, n - 1);
      RefusedAttempt(mid, url, code);
      AfterOneMoreRefusal(s, url, n);
    }
  }

  lemma {:induction false} RefusalsAppend(url: string, m: nat, n: nat)
    ensures Refusals(url, m) + Refusals(url, n) == Refusals(url, m + n)
    decreases n
  {
    if n > 0 {
      RefusalsAppend(url, m, n - 1);
    }
  }

  /**
   * A first connect that the server refuses, then the reconnect timers: five
   * reconnect attempts are made (six sockets in all), after which nothing is
   * armed, the counter sits at the ceiling and the give-up toast has been
   * raised once.
   */
  lemma {:induction false} RefusingServerGetsFiveRetries(url: string, code: int)
    requires code != NORMAL_CLOSURE
    ensures RunCycles(Run(Initial, [ConnectCalled(Some(url)), SocketErrored, SocketClosed(code)]), url, code, MAX_RECONNECT_COUNT) ==
      State(Closed, None, false, false, MAX_RECONNECT_COUNT, map[], Refusals(url, 6) + [Notified(GaveUp)])
  {
    var c := State(Closed, None, true, false, 1, map[], Refusals(url, 1));
    var d := AfterRefusals(c, url, MAX_RECONNECT_COUNT - 1);
    calc {
      RunCycles(Run(Initial, [ConnectCalled(Some(url)), SocketErrored, SocketClosed(code)]), url, code, MAX_RECONNECT_COUNT);
      { FirstRefusal(url, code); }
      RunCycles(c, url, code, MAX_RECONNECT_COUNT);
      Run(RunCycles(c, url, code, MAX_RECONNECT_COUNT - 1), Cycle(url, code));
      { RefusedRetries(c, url, code, MAX_RECONNECT_COUNT - 1); }
      Run(d, Cycle(url, code));
      { LastRefusedAttempt(d, url, code); }
      d.(reconnectPending := false, effects := d.effects + [Created(url), Notified(TransportError), Notified(GaveUp)]);
      { RefusalsAppend(url, 1, 4); }
      State(Closed, None, false, false, MAX_RECONNECT_COUNT, map[], Refusals(url, 6) + [Notified(GaveUp)]);
    }
  }

  /** The first connect, refused: one socket, the error toast, and the first reconnect armed. */
  lemma FirstRefusal(url: string, code: int)
    requires code != NORMAL_CLOSURE
    ensures Run(Initial, [ConnectCalled(Some(url)), SocketErrored, SocketClosed(code)]) ==
      State(Closed, None, true, false, 1, map[], Refusals(url, 1))
  {
    var a := Connect(Initial, Some(url));
    assert a == State(Connecting, Some(Socket(url, CONNECTING)), false, false, 0, map[], [Created(url)]);
    RunThree(Initial, ConnectCalled(Some(url)), SocketErrored, SocketClosed(code));
  }

  /**
   * At the ceiling, every further failed connect raises the give-up toast
   * again, and still nothing is scheduled.
   */
  lemma GaveUpRepeats(s: State)
    requires s.reconnectCount == MAX_RECONNECT_COUNT && !s.reconnectPending && !Live(s)
    ensures Step(s, ConnectCalled(None)).effects == s.effects + [Notified(GaveUp)]
    ensures Step(s, ConnectCalled(None)).status == Error
    ensures !Step(s, ConnectCalled(None)).reconnectPending
  {
  }

  // ---------------------------------------------------------------------------
  // Behaviour the code has and callers may not expect
  // ---------------------------------------------------------------------------

  /**
   * A close event of a replaced socket clears the reference to the new one:
   * after a connect on a closing socket and that socket's normal close, the
   * new socket exists but the manager holds no reference and reports `closed`.
   */
  lemma StaleCloseOrphansNewSocket(s: State, url: string, data: Outbound)
    requires s.ws.Some? && s.ws.value.ready == CLOSING
    ensures Run(s, [ConnectCalled(Some(url)), SocketClosed(NORMAL_CLOSURE)]).effects == s.effects + [Created(url)]
    ensures Run(s, [ConnectCalled(Some(url)), SocketClosed(NORMAL_CLOSURE)]).ws == None
    ensures Run(s, [ConnectCalled(Some(url)), SocketClosed(NORMAL_CLOSURE)]).status == Closed
    ensures !Send(Run(s, [ConnectCalled(Some(url)), SocketClosed(NORMAL_CLOSURE)]), data, true).1
  {
    RunTwo(s, ConnectCalled(Some(url)), SocketClosed(NORMAL_CLOSURE));
  }

  /**
   * A manual connect does not cancel an armed reconnect timer: it stays armed,
   * and when it fires on the still-connecting socket it only forgets itself.
   */
  lemma ManualConnectKeepsReconnectTimer(s: State, url: string, later: Option<string>)
    requires s.reconnectPending && !Live(s)
    ensures Step(s, ConnectCalled(Some(url))).reconnectPending
    ensures Run(s, [ConnectCalled(Some(url)), ReconnectTimerFired(later)]) ==
      Step(s, ConnectCalled(Some(url))).(reconnectPending := false)
  {
    RunTwo(s, ConnectCalled(Some(url)), ReconnectTimerFired(later));
  }

  /** A second disconnect changes nothing. */
  lemma DisconnectIdempotent(s: State)
    ensures Disconnect(Disconnect(s)) == Disconnect(s)
  {
  }

  /** Registering twice for a type keeps only the second handler. */
  lemma LastRegistrationWins(s: State, messageType: string, h1: HandlerId, h2: HandlerId)
    ensures Register(Register(s, messageType, h1), messageType, h2) == Register(s, messageType, h2)
  {
    assert Register(Register(s, messageType, h1), messageType, h2).handlers == Register(s, messageType, h2).handlers;
  }

  /** After unregistering a type, frames of that type are still broadcast but reach no handler. */
  lemma UnregisterSilencesType(s: State, messageType: string, members: seq<(string, Value)>)
    requires LookupMember(members, "type") == Defined(JStr(messageType)) && messageType != "pong"
    ensures Route(Unregister(s, messageType).handlers, Some(JObj(members))) == Dispatch(None, JObj(members))
  {
  }

  /**
   * A frame whose `type` is a registered string other than `pong` goes, as a
   * whole, to that handler; unless the handler throws it is then broadcast.
   */
  lemma HandledFrameIsBroadcast(s: State, messageType: string, handler: HandlerId,
                                members: seq<(string, Value)>, handlerThrows: bool)
    requires messageType != "" && messageType != "pong"
    requires LookupMember(members, "type") == Defined(JStr(messageType))
    ensures OnMessage(Register(s, messageType, handler), Some(JObj(members)), handlerThrows) ==
      Register(s, messageType, handler).(effects := s.effects + [Called(handler, JObj(members))] +
        (if handlerThrows then [] else [Broadcast(JObj(members))]))
  {
  }

  /**
   * A numeric `type` other than 0 is looked up under its decimal string, the
   * property key JavaScript makes of an integer below 2^53 in magnitude (every
   * such integer is an exact double, written out in full).
   */
  lemma NumericTypeUsesDecimalKey(s: State, n: int, handler: HandlerId, members: seq<(string, Value)>)
    requires n != 0 && -9_007_199_254_740_992 < n < 9_007_199_254_740_992
    requires LookupMember(members, "type") == Defined(JNum(n))
    ensures n > 0 ==> IsDecimal(IntToString(n)) && DecimalValue(IntToString(n)) == n && IntToString(n)[0] != '0'
    ensures Route(Register(s, IntToString(n), handler).handlers, Some(JObj(members))) ==
      Dispatch(Some(handler), JObj(members))
  {
    if n > 0 {
      DigitsDenoteValue(n);
    }
  }

  /** Heartbeat replies, unparsable frames and null payloads leave no trace. */
  lemma SilentFrames(s: State, v: Value, handlerThrows: bool)
    ensures TypeProperty(v) == Defined(JStr("pong")) ==> OnMessage(s, Some(v), handlerThrows) == s
    ensures OnMessage(s, None, handlerThrows) == s
    ensures OnMessage(s, Some(JNull), handlerThrows) == s
  {
  }
}
