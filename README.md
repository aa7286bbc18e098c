# Realtime connection manager: a Dafny model

This project models the web client's realtime connection manager in
`apps/web/src/api/websocket.ts`. The manager keeps one WebSocket to the
backend's `/ws` endpoint. It builds the socket URL from the configured API base
URL, the access token and the interface locale. It publishes a connection
status (`connecting`, `open`, `closed`, `error`) and sends a heartbeat `ping`
every 30 seconds while the socket is open. After an abnormal close it schedules
up to five reconnect attempts, 5 seconds apart. It also routes inbound JSON
frames to the handler registered for their `type` and rebroadcasts them as a
global `ws-message` event.

The project has these modules:

- `Json` (`json.dfy`): the JavaScript values that cross the wire and the parts
  of JavaScript the router relies on. These are the `type` property read
  (which throws on `null`), truthiness, a value's property-key string, and
  `JSON.stringify`.
- `SocketUrl` (`socket_url.dfy`): building the socket URL. This covers the
  `^http` → `ws` rewrite, resolving the absolute path `/ws` against the base,
  and appending `token` (only when it is truthy) and `lang` with the
  `application/x-www-form-urlencoded` serializer. It is proved against the
  matching parser a server uses.
- `Connection` (`connection.dfy`): the manager as a state machine over
  values. A `State` holds:
  - the status;
  - the socket reference, with the ready-state the transport reports;
  - the reconnect and heartbeat timers, as "armed" flags;
  - the reconnect counter and the handler registry;
  - an ordered log of the side effects: sockets created, close requests,
    frames written, handler calls, broadcasts and toasts.

  Each entry point and callback is a function from the old state to the new one.
- `Trace` (`trace.dfy`): runs of events. An event is an entry-point call, a
  socket callback (from the current socket or a stale one), a timer firing, or
  a registry change. This module holds the properties that span several
  events: the reconnect budget, the give-up toast, the stale-close quirk, and
  the registry laws.
- `Manager` (`manager.dfy`): the module-level variables as the fields of one
  `ConnectionManager` object, with one method per entry point that updates
  them in place. Each method is proved to leave the object in the state that
  the matching `Connection` function computes. All properties proved about
  the functions therefore hold of the object.

Two behaviours of the code that a reader may not expect:

- The "unable to connect, please refresh" toast is not raised exactly once.
  `scheduleReconnect` raises it on every call made while the counter is at the
  ceiling (`apps/web/src/api/websocket.ts:227-235`), so each later abnormal
  close or failed connect raises it again (`Trace.GaveUpRepeats`).
  - Against a server that refuses every connection, it is raised once. This
    happens at the sixth abnormal close, the first one after the five retries
    are used up (`Trace.RefusingServerGetsFiveRetries`).
- A handler that throws is caught, not passed up to the socket. The call sits
  inside the same `try` as parsing and broadcasting
  (`apps/web/src/api/websocket.ts:118-137`). The exception is logged, and that
  frame's `ws-message` broadcast is skipped (`Connection.OnMessage`).

## Model

| member | source | states |
|---|---|---|
| Json.LookupMember | apps/web/src/api/websocket.ts:119 | a found `type` member is the last of the parsed object's members under that key, as `JSON.parse` keeps the last of duplicate keys; "not found" means no member has that key |
| Json.Truthy | apps/web/src/api/websocket.ts:128 | JavaScript truthiness: `null`, `false`, `0` and `""` are falsy, everything else truthy; used by Connection.Route and stated through Trace.HandledFrameIsBroadcast and Trace.NumericTypeUsesDecimalKey |
| Json.PropertyKey | apps/web/src/api/websocket.ts:128-129 | the string a `type` value becomes as a registry key; for a string it is the string itself (Trace.HandledFrameIsBroadcast), for an integer below 2^53 in magnitude its exact decimal form (Trace.NumericTypeUsesDecimalKey) |
| Json.DigitsDenoteValue | apps/web/src/api/websocket.ts:128-129 | the key of a natural number is its decimal notation: digits only, denoting the number, without a leading zero |
| Json.TypeProperty | apps/web/src/api/websocket.ts:123 | reading `data.type` throws exactly when the parsed payload is `null`; only objects can have a defined `type` |
| Json.EscapePlain | apps/web/src/api/websocket.ts:181 | `JSON.stringify` copies a string without quotes, backslashes or control characters unchanged |
| Json.PairObject | apps/web/src/api/websocket.ts:181 | a two-member object is serialized as its two `"key":value` entries, in order, comma-separated, in braces |
| Json.Stringify | apps/web/src/api/websocket.ts:181 | `JSON.stringify` of a value; its properties are stated by Json.EscapePlain, Json.PairObject and Connection.PingFrame |
| SocketUrl.FirstIndexOf | apps/web/src/api/websocket.ts:51 | the index returned is the first occurrence of the character, or the length when there is none |
| SocketUrl.FirstIndexUnique | apps/web/src/api/websocket.ts:51 | any index with the first-occurrence properties is the one FirstIndexOf returns |
| SocketUrl.RewriteScheme | apps/web/src/api/websocket.ts:50 | `apiURL.replace(/^http/, 'ws')`; its properties are stated by SocketUrl.SchemeRewrite |
| SocketUrl.SchemeRewrite | apps/web/src/api/websocket.ts:50 | `http://` becomes `ws://` and `https://` becomes `wss://`; only a leading `http` is rewritten; other bases are unchanged |
| SocketUrl.ParseOrigin | apps/web/src/api/websocket.ts:51 | an accepted base has a valid scheme and authority, starts with `scheme://authority`, and the authority ends at a `/`, `?`, `#` or the end of the string |
| SocketUrl.ParseWellFormedOrigin | apps/web/src/api/websocket.ts:51 | every `scheme://authority[path]` base is accepted, and its origin is exactly that scheme and authority |
| SocketUrl.AuthorityLength | apps/web/src/api/websocket.ts:51 | the authority runs up to the first `/`, `?` or `#` |
| SocketUrl.Utf8 | apps/web/src/api/websocket.ts:55-59 | a character encodes to one to four bytes; an ASCII character encodes to itself; the rest of its meaning is stated by SocketUrl.Utf8Char |
| SocketUrl.Utf8Char | apps/web/src/api/websocket.ts:55-59 | the leading byte of a character's UTF-8 encoding announces the encoding's length, and the bytes give back the character's code point |
| SocketUrl.DecodeChar | apps/web/src/api/websocket.ts:55-59 | UTF-8 decoding of a character's encoding, followed by anything, yields that character first |
| SocketUrl.Utf8RoundTrip | apps/web/src/api/websocket.ts:55-59 | UTF-8 decoding of a string's encoding gives back exactly its code points |
| SocketUrl.Utf8StringInjective | apps/web/src/api/websocket.ts:55-59 | different tokens or locales have different UTF-8 encodings |
| SocketUrl.HexDigit | apps/web/src/api/websocket.ts:55-59 | the percent-encoder's hex digit decodes back to its value |
| SocketUrl.FormEncodeIsEncoded | apps/web/src/api/websocket.ts:55-59 | an encoded token or locale never contains `&`, `=`, `?` or `#`, so it cannot break the query apart |
| SocketUrl.PercentDecode | apps/web/src/api/websocket.ts:55-59 | decoding percent-encoded bytes gives back those bytes, whatever follows them |
| SocketUrl.EncodeCharDecode | apps/web/src/api/websocket.ts:55-59 | one encoded character decodes to its UTF-8 bytes (a space is written as `+`) |
| SocketUrl.FormRoundTrip | apps/web/src/api/websocket.ts:55-59 | decoding the urlencoded form of a value gives back its UTF-8 bytes |
| SocketUrl.PairShape | apps/web/src/api/websocket.ts:55-59 | a serialized `name=value` pair is non-empty query text without `&`, and decodes back to the name and value |
| SocketUrl.QueryRoundTrip | apps/web/src/api/websocket.ts:55-59 | a server's query parser gets back every appended parameter, in order |
| SocketUrl.QueryOfBuiltUrl | apps/web/src/api/websocket.ts:51-59 | the query of the built URL is exactly the serialized parameters |
| SocketUrl.SocketUrlQuery | apps/web/src/api/websocket.ts:46-59 | a server reads `token` from the URL exactly when the token is truthy, then `lang`, each with its value's UTF-8 bytes |
| SocketUrl.QueryIdentifiesInputs | apps/web/src/api/websocket.ts:46-59 | two built URLs whose queries a server parses alike carry the same locale and, when either carries a token, the same token |
| SocketUrl.QueryParams | apps/web/src/api/websocket.ts:54-59 | the parameters appended, `token` only when truthy and then `lang`; stated by SocketUrl.DecodedQueryParams and SocketUrl.SocketUrlQuery |
| SocketUrl.DecodedQueryParams | apps/web/src/api/websocket.ts:54-59 | the decoded parameters are `token` (only when it is truthy) followed by `lang` |
| SocketUrl.RewrittenBase | apps/web/src/api/websocket.ts:50-51 | a base that rewrites to `scheme://host[path]` yields `scheme://host/ws?<query>`; the base's own path is dropped |
| SocketUrl.SecureBaseBecomesWss | apps/web/src/api/websocket.ts:50-59 | an `https://host/...` base yields `wss://host/ws?<query>` |
| SocketUrl.PlainBaseBecomesWs | apps/web/src/api/websocket.ts:50-59 | an `http://host/...` base yields `ws://host/ws?<query>` |
| SocketUrl.BuildSocketUrl | apps/web/src/api/websocket.ts:50-59 | the string handed to the constructor, or none when the model's base parser rejects the base (the cases where that differs from `new URL` are listed under SocketUrl.ParseOrigin in "## Left out"); stated by SocketUrl.SocketUrlQuery, SocketUrl.SecureBaseBecomesWss, SocketUrl.PlainBaseBecomesWs and SocketUrl.RelativeBaseFails |
| SocketUrl.RelativeBaseFails | apps/web/src/api/websocket.ts:51 | a base without a scheme makes `new URL` throw, so no URL is built |
| Connection.ClearTimers | apps/web/src/api/websocket.ts:250-260 | both timers end up disarmed; status, socket, counter, registry and log are unchanged |
| Connection.StartHeartbeat | apps/web/src/api/websocket.ts:210-221 | the heartbeat is armed and any pending reconnect is cancelled; nothing else changes |
| Connection.ScheduleReconnect | apps/web/src/api/websocket.ts:226-245 | with a timer armed or the counter at 5, nothing is scheduled; otherwise the counter goes up by one and a timer is armed; the give-up toast is logged on every call at the ceiling; the counter never exceeds 5 |
| Connection.NewSocketUrl | apps/web/src/api/websocket.ts:46-62 | an attempt yields a socket URL exactly when the URL can be built and the constructor accepts it, and then it is the built URL |
| Connection.Connect | apps/web/src/api/websocket.ts:33-79 | a live (OPEN or CONNECTING) socket makes it a no-op; otherwise a new CONNECTING socket is created and the status is `connecting`; a thrown attempt sets `error`, keeps the old reference and runs reconnect scheduling; a pending reconnect timer is not cleared |
| Connection.Disconnect | apps/web/src/api/websocket.ts:84-94 | timers stop, a present socket is closed with code 1000 and dropped, the status is `closed`; the counter and registry are kept |
| Connection.OnOpen | apps/web/src/api/websocket.ts:99-112 | the status is `open`, the counter is reset to 0, the heartbeat runs, a pending reconnect is cancelled, and the "connected" toast is logged |
| Connection.OnError | apps/web/src/api/websocket.ts:143-151 | the status is `error` and the error toast is logged; socket, timers and counter are untouched |
| Connection.OnClose | apps/web/src/api/websocket.ts:156-169 | the status is `closed`, the reference is dropped and timers stop; a reconnect is armed exactly when the code is not 1000 and fewer than 5 attempts were made; at the ceiling the give-up toast is logged |
| Connection.FireReconnect | apps/web/src/api/websocket.ts:241-244 | the timer forgets its handle, then connects: on a live socket only the handle is forgotten; otherwise a successful attempt leaves a new CONNECTING socket, status `connecting`, the creation logged and no timer; a failed one sets `error` and reschedules; a new timer exists afterwards only when this attempt failed, one count higher |
| Connection.Send | apps/web/src/api/websocket.ts:174-188 | returns true exactly when the socket is present and OPEN and the write does not throw; only then is the frame (a string as is, anything else as JSON) logged; nothing else changes |
| Connection.HeartbeatTick | apps/web/src/api/websocket.ts:213-220 | a tick writes the ping only on an OPEN socket; the heartbeat stays armed and nothing else changes |
| Connection.Frame | apps/web/src/api/websocket.ts:181 | the text written for a send argument: a string as it is, anything else as its `JSON.stringify` form; stated by Connection.Send and Connection.PingFrame |
| Connection.PingMessage | apps/web/src/api/websocket.ts:215-218 | the heartbeat probe is an object whose `type` is `ping` and whose `timestamp` is the given time |
| Connection.PingFrame | apps/web/src/api/websocket.ts:215-218 | the heartbeat frame is `{"type":"ping","timestamp":"<time>"}` |
| Connection.Register | apps/web/src/api/websocket.ts:193-198 | the type maps to the new handler; every other type keeps its handler |
| Connection.Unregister | apps/web/src/api/websocket.ts:203-205 | the type has no handler; every other type keeps its handler |
| Connection.Route | apps/web/src/api/websocket.ts:117-134 | unparsable and `null` frames are dropped; `pong` frames are consumed; every other frame is dispatched with its whole payload, to a handler exactly when its truthy `type`, as a key, is registered |
| Connection.TypeKey | apps/web/src/api/websocket.ts:128 | the registry key of a payload: its truthy `type` as a property key; stated by Connection.Route |
| Connection.OnMessage | apps/web/src/api/websocket.ts:117-138 | only the log changes: dropped and `pong` frames change nothing, others are broadcast, and a matching handler is called first; a throwing handler suppresses the broadcast |
| Connection.Transport | apps/web/src/api/websocket.ts:36 | the transport changes only the current socket's ready-state |
| Trace.Step | apps/web/src/api/websocket.ts:33-274 | every event keeps the counter at most 5, with a pending timer only when the count is at least 1; only an open lowers the counter; the counter rises by one at a time, and only when a timer is armed; a timer is newly armed only by an abnormal close or a failed connect; only registry calls change the registry |
| Trace.Run | apps/web/src/api/websocket.ts:33-274 | any run keeps the invariant; a run without an open never lowers the counter; a run without registry calls keeps the registry |
| Trace.RunAppend | apps/web/src/api/websocket.ts:33-274 | running two event sequences one after the other is running their concatenation |
| Trace.RunAppends | apps/web/src/api/websocket.ts:33-274 | a run only appends to the effects log |
| Trace.ReachableIsValid | apps/web/src/api/websocket.ts:19-21 | from the initial state, the counter never exceeds 5, and a reconnect is pending only after at least one was counted |
| Trace.CeilingIsFinal | apps/web/src/api/websocket.ts:226-236 | once the counter is at 5 with no timer armed, no run without an open arms a timer or changes the counter |
| Trace.RefusedAttempt | apps/web/src/api/websocket.ts:241-244 | a refused attempt below the ceiling creates a socket, logs the error toast, raises the counter by one and arms the next timer |
| Trace.LastRefusedAttempt | apps/web/src/api/websocket.ts:226-236 | a refused attempt at the ceiling arms nothing and logs the give-up toast |
| Trace.RefusedRetries | apps/web/src/api/websocket.ts:226-245 | n refused attempts within the ceiling raise the counter by n and log n socket creations with error toasts |
| Trace.RefusingServerGetsFiveRetries | apps/web/src/api/websocket.ts:156-169 | against a server that refuses everything, one connect gets exactly 5 retries (6 sockets), then stops with the give-up toast logged once and no timer armed |
| Trace.FirstRefusal | apps/web/src/api/websocket.ts:156-169 | the first refused connection logs one socket creation and the error toast, and arms the first retry with count 1 |
| Trace.GaveUpRepeats | apps/web/src/api/websocket.ts:227-235 | at the ceiling, each further failed connect logs the give-up toast again and arms nothing |
| Trace.StaleCloseOrphansNewSocket | apps/web/src/api/websocket.ts:156-158 | a late close from the old socket drops the new socket's reference: the status is `closed` and sends fail while the new socket lives on |
| Trace.ManualConnectKeepsReconnectTimer | apps/web/src/api/websocket.ts:33-79 | a manual connect leaves a pending reconnect armed, and when that timer fires on the now-live socket it only disarms itself |
| Trace.DisconnectIdempotent | apps/web/src/api/websocket.ts:84-94 | disconnecting twice is the same as disconnecting once |
| Trace.LastRegistrationWins | apps/web/src/api/websocket.ts:193-198 | registering twice for a type is the same as registering only the second handler |
| Trace.UnregisterSilencesType | apps/web/src/api/websocket.ts:203-205 | after unregistering any string type other than `pong`, its frames reach no handler but are still dispatched for broadcast |
| Trace.HandledFrameIsBroadcast | apps/web/src/api/websocket.ts:128-134 | every frame whose string `type` (not empty, not `pong`) is registered goes, whole, to that handler, and then is broadcast unless the handler throws; nothing else changes |
| Trace.NumericTypeUsesDecimalKey | apps/web/src/api/websocket.ts:128-129 | every non-zero integer `type` below 2^53 in magnitude looks up the handler registered under its decimal string (a leading `-` for negatives), which denotes the number without a leading zero |
| Trace.SilentFrames | apps/web/src/api/websocket.ts:119-125 | every frame whose `type` is `pong`, every unparsable frame and a `null` payload change nothing |
| Manager.ConnectionManager.constructor | apps/web/src/api/websocket.ts:10-28 | a new manager is closed, with no socket, no timers, count 0, no handlers and an empty log |
| Manager.ConnectionManager.ClearTimers | apps/web/src/api/websocket.ts:250-260 | updates the fields as Connection.ClearTimers does; afterwards the invariant holds exactly when the counter is at most 5, as no timer is pending |
| Manager.ConnectionManager.StartHeartbeat | apps/web/src/api/websocket.ts:210-221 | updates the fields as Connection.StartHeartbeat does; afterwards the invariant holds exactly when the counter is at most 5, as no timer is pending |
| Manager.ConnectionManager.ScheduleReconnect | apps/web/src/api/websocket.ts:226-245 | updates the fields as Connection.ScheduleReconnect does and keeps the invariant |
| Manager.ConnectionManager.Connect | apps/web/src/api/websocket.ts:33-79 | updates the fields as Connection.Connect does; returns the new socket exactly when none was live and the attempt succeeded, and that socket is the one now held |
| Manager.ConnectionManager.Disconnect | apps/web/src/api/websocket.ts:84-94 | updates the fields as Connection.Disconnect does |
| Manager.ConnectionManager.HandleOpen | apps/web/src/api/websocket.ts:99-112 | updates the fields as Connection.OnOpen does |
| Manager.ConnectionManager.HandleMessage | apps/web/src/api/websocket.ts:117-138 | updates the fields as Connection.OnMessage does and keeps the invariant |
| Manager.ConnectionManager.HandleError | apps/web/src/api/websocket.ts:143-151 | updates the fields as Connection.OnError does and keeps the invariant |
| Manager.ConnectionManager.HandleClose | apps/web/src/api/websocket.ts:156-169 | updates the fields as Connection.OnClose does |
| Manager.ConnectionManager.Send | apps/web/src/api/websocket.ts:174-188 | updates the fields and returns the result as Connection.Send does and keeps the invariant |
| Manager.ConnectionManager.Register | apps/web/src/api/websocket.ts:193-198 | updates the registry as Connection.Register does and keeps the invariant |
| Manager.ConnectionManager.Unregister | apps/web/src/api/websocket.ts:203-205 | updates the registry as Connection.Unregister does and keeps the invariant |
| Manager.ConnectionManager.FireReconnect | apps/web/src/api/websocket.ts:241-244 | updates the fields as Connection.FireReconnect does |
| Manager.ConnectionManager.HeartbeatTick | apps/web/src/api/websocket.ts:213-220 | updates the fields as Connection.HeartbeatTick does and keeps the invariant |
| Manager.ConnectionManager.GetStatus | apps/web/src/api/websocket.ts:265-267 | returns the current status |
| Manager.ConnectionManager.IsConnected | apps/web/src/api/websocket.ts:272-274 | true exactly when the status is `open` |
| Manager.ConnectionManager.TransportReadyState | apps/web/src/api/websocket.ts:36 | updates the socket's ready-state as Connection.Transport does and keeps the invariant |

## Left out

- The browser's WebSocket, the Vue ref, the toast library, `document.dispatchEvent` and the console are not modelled as objects. Their visible effects (socket creation, close requests, frames written, handler calls, broadcasts, toasts) are entries of an ordered log.
- Timers are modelled as armed flags and their firings as events. The delays (5000 ms and 30000 ms) and elapsed time are not modelled.
- Any timer firing, socket callback or call may happen in any order. Events of a stale socket carry no socket identity. Callbacks from the old socket are just the same events applied to the current state, as the source's shared callbacks are.
- `new Date().toISOString()` is a timestamp string parameter. The access store, the locale preference and whether the WebSocket constructor throws are parameters of a connection attempt.
- Connection.NewSocketUrl: every exception inside the `try` of `createWebSocketConnection` is folded into one "attempt failed" outcome. This covers a missing access store, an undefined `apiURL`, a base `new URL` rejects, and a constructor that throws.
- SocketUrl.ParseOrigin: only the part of the WHATWG URL parser that `new URL('/ws', base)` needs is modelled. That part is the scheme, `://` and the authority. Host normalisation and lower-casing, ports, credentials, IPv6 literals, backslashes, whitespace stripping and opaque (non-hierarchical) bases are not modelled. The model also rejects bases that `new URL` accepts: for a special scheme the parser tolerates missing or extra slashes after the colon (`https:api.example.com` becomes `wss://api.example.com/ws?…` in a browser), and for these the model records a failed attempt instead of a new socket. A non-special `scheme:/path` base also resolves, without a host, but the WebSocket constructor rejects the resulting URL, so the outcome, a failed attempt, agrees. In the other direction the model accepts some bases that `new URL` rejects, because its authority is any non-empty text without `/`, `?` or `#`: a host holding a forbidden host code point (a space, `<`, `>`, `^`, `|` and others), a port that is not a number or is above 65535, and an empty host after credentials (`https://user@/`). For these `new URL` throws and the source takes its catch branch (status `error`, reconnect scheduled), while the model builds a URL and, when the constructor accepts it, records a new socket.
- `JSON.parse` is its outcome. A frame arrives as a parsed `Json.Value`, or as nothing when parsing threw. JSON numbers are integers only. Floating point and its `toString` are not modelled.
- Json.PropertyKey and Json.Stringify: a JSON number is modelled as an exact integer written in full decimal (Json.IntToString). JavaScript numbers are doubles: above 2^53 in magnitude `JSON.parse` rounds the value, and `Number::toString` writes the shortest digits that round-trip, padded with zeros (2^60 is written `1152921504606847000`), switching to exponent notation from 10^21. The model's key and serialized form agree with JavaScript only below 2^53 in magnitude, the bound under which Trace.NumericTypeUsesDecimalKey is stated.
- Strings are sequences of Unicode scalar values. A JavaScript token or locale holding a lone surrogate cannot be represented; `URLSearchParams` would write it as `%EF%BF%BD`.
- Handlers are identities, and a handler's behaviour is reduced to whether it throws. A handler that re-enters the manager (registering, sending, closing) is not modelled.
- Keys inherited from `Object.prototype` are not modelled. Neither are `__proto__` and a registered value that is not a function. The registry is a plain map from strings to handlers.
- The close reason string and the console messages are left out. The toast texts, positions and auto-dismiss timeouts are left out too; only which toast is raised is modelled.
- Manager.ConnectionManager.GetStatus: returns the status value, not the reactive reference the source hands out.
- The REST client (`request.ts`), the API wrappers built on it, the configuration constants, the stores, the icons and the preferences are not part of this model.
