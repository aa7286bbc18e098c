/**
 * The connection manager as the source has it: one object whose fields are the
 * module-level variables (status, socket reference, the two timer handles,
 * the reconnect counter, the handler registry), updated step by step by its
 * entry points and callbacks. The calls it makes to the outside world
 * (creating and closing sockets, writing frames, calling handlers,
 * dispatching the global event, raising toasts) are appended to `effects`.
 *
 * Every method is proved to leave the object in the state the matching
 * function of module Connection computes from the old state, so every
 * property proved there (and, for runs, in module Trace) holds of the object.
 */
module Manager {
  import opened Wrappers
  import opened Json
  import opened Connection
  import SocketUrl

  class ConnectionManager {
    /** The configured API base URL, read once when the module loads. */
    const apiUrl: string

    var status: Status
    var ws: Option<Socket>
    /** Whether a reconnect timer handle is held. */
    var reconnectPending: bool
    /** Whether a heartbeat timer handle is held. */
    var heartbeatActive: bool
    var reconnectCount: nat
    var handlers: map<string, HandlerId>
    var effects: seq<Effect>

    /** The object's state as a value of module Connection. */
    function Model(): State
      reads this
    {
      State(status, ws, reconnectPending, heartbeatActive, reconnectCount, handlers, effects)
    }

    predicate Valid()
      reads this
    {
      Connection.Valid(Model())
    }

    /** The module's initial values: closed, no socket, no timers, nothing registered. */
    constructor(apiUrl: string)
      ensures Model() == Initial && this.apiUrl == apiUrl
      ensures Valid()
    {
      this.apiUrl := apiUrl;
      status := Closed;
      ws := None;
      reconnectPending := false;
      heartbeatActive := false;
      reconnectCount := 0;
      handlers := map[];
      effects := [];
    }

    /** The connection attempt's inputs other than the base URL. */
    function EnvOf(token: Option<string>, locale: string, constructs: bool): Env
      reads this
    {
      Env(apiUrl, token, locale, constructs)
    }

    method ClearTimers()
      modifies this
      ensures Model() == Connection.ClearTimers(old(Model()))
      ensures Valid() <==> reconnectCount <= MAX_RECONNECT_COUNT
    {
      if heartbeatActive {
        heartbeatActive := false;
      }
      if reconnectPending {
        reconnectPending := false;
      }
    }

    method StartHeartbeat()
      modifies this
      ensures Model() == Connection.StartHeartbeat(old(Model()))
      ensures Valid() <==> reconnectCount <= MAX_RECONNECT_COUNT
    {
      ClearTimers();
      heartbeatActive := true;
    }

    method ScheduleReconnect()
      requires Valid()
      modifies this
      ensures Model() == Connection.ScheduleReconnect(old(Model()))
      ensures Valid()
    {
      if reconnectPending || reconnectCount >= MAX_RECONNECT_COUNT {
        if reconnectCount >= MAX_RECONNECT_COUNT {
          effects := effects + [Notified(GaveUp)];
        }
        return;
      }
      reconnectCount := reconnectCount + 1;
      reconnectPending := true;
    }

    /**
     * createWebSocketConnection. The token, the locale and whether the
     * WebSocket constructor accepts the URL are what the environment supplies.
     * Returns the new socket, or nothing when none was created.
     */
    method Connect(token: Option<string>, locale: string, constructs: bool) returns (created: Option<Socket>)
      requires Valid()
      modifies this
      ensures Model() == Connection.Connect(old(Model()), NewSocketUrl(EnvOf(token, locale, constructs)))
      ensures created.Some? <==> !Live(old(Model())) && NewSocketUrl(EnvOf(token, locale, constructs)).Some?
      ensures created.Some? ==> ws == created
      ensures Valid()
    {
      if ws.Some? && (ws.value.ready == OPEN || ws.value.ready == CONNECTING) {
        return None;
      }
      status := Connecting;
      var url := SocketUrl.BuildSocketUrl(apiUrl, token, locale);
      if url.Some? && constructs {
        ws := Some(Socket(url.value, CONNECTING));
        effects := effects + [Created(url.value)];
        return ws;
      }
      status := Error;
      ScheduleReconnect();
      return None;
    }

    /** closeWebSocketConnection. */
    method Disconnect()
      requires Valid()
      modifies this
      ensures Model() == Connection.Disconnect(old(Model()))
      ensures Valid()
    {
      ClearTimers();
      if ws.Some? {
        effects := effects + [CloseRequested(NORMAL_CLOSURE)];
        ws := None;
      }
      status := Closed;
    }

    /** The socket's open callback. */
    method HandleOpen()
      modifies this
      ensures Model() == OnOpen(old(Model()))
      ensures Valid()
    {
      status := Open;
      reconnectCount := 0;
      StartHeartbeat();
      effects := effects + [Notified(Connected)];
    }

    /**
     * The socket's message callback, given what JSON.parse made of the frame
     * (None when it threw) and whether the registered handler throws.
     */
    method HandleMessage(parsed: Option<Value>, handlerThrows: bool)
      requires Valid()
      modifies this
      ensures Model() == OnMessage(old(Model()), parsed, handlerThrows)
      ensures Valid()
    {
      if parsed.None? {
        return;
      }
      var data := parsed.value;
      var messageType := TypeProperty(data);
      if messageType.Throws? || messageType == Defined(JStr("pong")) {
        return;
      }
      if messageType.Defined? && Truthy(messageType.value) && PropertyKey(messageType.value) in handlers {
        effects := effects + [Called(handlers[PropertyKey(messageType.value)], data)];
        if handlerThrows {
          return;
        }
      }
      effects := effects + [Broadcast(data)];
    }

    /** The socket's error callback. */
    method HandleError()
      requires Valid()
      modifies this
      ensures Model() == OnError(old(Model()))
      ensures Valid()
    {
      status := Error;
      effects := effects + [Notified(TransportError)];
    }

    /** The close callback, whichever socket it comes from. */
    method HandleClose(code: int)
      requires Valid()
      modifies this
      ensures Model() == OnClose(old(Model()), code)
      ensures Valid()
    {
      status := Closed;
      ws := None;
      ClearTimers();
      if code != NORMAL_CLOSURE {
        ScheduleReconnect();
      }
    }

    /** sendWebSocketMessage; `writeOk` is false when the transport's send throws. */
    method Send(data: Outbound, writeOk: bool) returns (ok: bool)
      requires Valid()
      modifies this
      ensures (Model(), ok) == Connection.Send(old(Model()), data, writeOk)
      ensures Valid()
    {
      if ws.None? || ws.value.ready != OPEN {
        return false;
      }
      var message := Frame(data);
      if !writeOk {
        return false;
      }
      effects := effects + [Sent(message)];
      return true;
    }

    /** registerMessageHandler. */
    method Register(messageType: string, handler: HandlerId)
      requires Valid()
      modifies this
      ensures Model() == Connection.Register(old(Model()), messageType, handler)
      ensures Valid()
    {
      handlers := handlers[messageType := handler];
    }

    /** unregisterMessageHandler. */
    method Unregister(messageType: string)
      requires Valid()
      modifies this
      ensures Model() == Connection.Unregister(old(Model()), messageType)
      ensures Valid()
    {
      handlers := handlers - {messageType};
    }

    /** The reconnect timer's callback: it forgets its handle, then connects. */
    method FireReconnect(token: Option<string>, locale: string, constructs: bool)
      requires Valid() && reconnectPending
      modifies this
      ensures Model() == Connection.FireReconnect(old(Model()), NewSocketUrl(EnvOf(token, locale, constructs)))
      ensures Valid()
    {
      reconnectPending := false;
      var _ := Connect(token, locale, constructs);
    }

    /** The heartbeat timer's callback; `timestamp` is the current time in ISO form. */
    method HeartbeatTick(timestamp: string, writeOk: bool)
      requires Valid() && heartbeatActive
      modifies this
      ensures Model() == Connection.HeartbeatTick(old(Model()), timestamp, writeOk)
      ensures Valid()
    {
      if ws.Some? && ws.value.ready == OPEN {
        var _ := Send(Data(PingMessage(timestamp)), writeOk);
      }
    }

    /** getWebSocketStatus. */
    method GetStatus() returns (current: Status)
      ensures current == status
    {
      return status;
    }

    /** isWebSocketConnected: true exactly when the status is `open`. */
    method IsConnected() returns (connected: bool)
      ensures connected <==> status == Open
    {
      return status == Open;
    }

    /** The transport moves the current socket to another ready-state. */
    method TransportReadyState(ready: ReadyState)
      requires Valid()
      modifies this
      ensures Model() == Transport(old(Model()), ready)
      ensures Valid()
    {
      if ws.Some? {
        ws := Some(ws.value.(ready := ready));
      }
    }
  }
}
