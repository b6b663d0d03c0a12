# Websocket store model

A Dafny model of the Pinia store `useWebSocketStore` (`src/stores/websocket.js`), the
auto-reconnecting message-stream client of the demo. The store keeps one socket handle
(`ws`), two flags (`isConnected`, `isConnecting`) and a chat log (`messages`). These
change through its entry points (`connect`, `sendMessage`, `disconnect`,
`clearMessages`), through the socket's four callbacks, and through the reconnect
timer that `onclose` arms.

Layout:

- `js_values.dfy` (`JsValues`): the JavaScript values the store handles. It covers
  truthiness, `||`, `===`, property access, `Object.keys(...).length` and the outcome
  of `JSON.parse`.
- `browser.dfy` (`Browser`): the `userInfo` and `token` entries of localStorage.
- `router.dfy` (`Router`): the chat record built from a `message` frame. It also has
  the classification of every inbound frame by its `type`, and the log that
  successive frames extend.
- `store.dfy` (`Store`): `Socket` is the browser WebSocket, reduced to its URL, its
  readyState and the frames written to it. `WebSocketStore` holds the refs as fields,
  with one method per entry point and per event.
- `scenarios.dfy` (`Scenarios`): clients that drive the store through whole event
  sequences, proved from the contracts alone.
- `wrappers.dfy` (`Wrappers`): `Option`.

Each browser event is one method call. The method first makes the change the browser
makes to the socket, then runs the handler. The browser marks the socket OPEN before
`open`, and CLOSED before `error` and `close`. The environment is passed in as
parameters:

- whether the WebSocket constructor throws;
- whether JSON.stringify throws;
- localStorage;
- the clock.

A reconnect timer is a ghost counter, `pendingRetries`. `RetryFires` consumes one.

Behaviour of the code that the model reproduces:

- `disconnect` leaves the pending reconnect armed. The dropped socket still reports its
  close, and that arms a timer. The timer then finds both flags false and connects
  again (`Scenarios.DisconnectThenRetry`).
- The connection state is only the two flags and the socket's readyState. No counter
  tracks retries, and every retry waits the same fixed delay.
- `auth_success` and `auth_failed` are only logged. A failed auth leaves the socket
  open.
- `onopen` sends the auth frame whenever the stored userInfo is truthy and has a key.
  That includes a non-empty array or string, not only a non-empty object.
- `onerror` arms no timer; only `onclose` does.
- At most one socket the store created is live (OPEN or CONNECTING) at any time, and
  it is the handle. `connect` replaces only a handle that is not live, and
  `disconnect` closes the handle before dropping it. `WebSocketStore.Valid()` states
  this, every method keeps it, and `AtMostOneLive` draws the conclusion.

## Model

| member | source | states |
|---|---|---|
| JsValues.Or | src/stores/websocket.js:85-87 | `a \|\| b` is `a` when `a` is truthy and `b` otherwise, so it is truthy iff either operand is |
| JsValues.StrictEquals | src/stores/websocket.js:95 | `===` between values of two separate parses holds exactly for equal primitives: never for an array or object, never between a truthy and a falsy value |
| JsValues.KeyCount | src/stores/websocket.js:35 | `Object.keys(v).length` counts an object's keys and an array's indices, and is positive exactly for a non-empty object, array or string |
| Browser.StoredUserInfo | src/stores/websocket.js:34 | a missing or empty userInfo entry reads as `{}`: truthy, so it passes `if (userInfo)`, but with no keys and no username or nickname; otherwise it is what JSON.parse makes of the stored text |
| Browser.TokenValue | src/stores/websocket.js:39 | the token in the auth frame is the stored string when there is one, null otherwise |
| Router.SenderOf | src/stores/websocket.js:86 | the sender is `sender.username` if truthy, else the raw sender if truthy, else '未知用户'; it is always truthy |
| Router.IsOwn | src/stores/websocket.js:93-96 | own iff the stored userInfo is truthy and the sender is a primitive equal to its username or its nickname |
| Router.Normalize | src/stores/websocket.js:84-96 | field by field: id is the payload id or now; sender per SenderOf; text defaults to ''; timestamp is the payload's or now; isOwn per the username-or-nickname rule |
| Router.NicknameAloneIsOwn | src/stores/websocket.js:95 | a sender matching only the stored nickname still makes the message own (inclusive or) |
| Router.OwnNeedsStoredIdentity | src/stores/websocket.js:86-95 | with neither a truthy username nor nickname stored, no message is own |
| Router.Classify | src/stores/websocket.js:46-117 | a malformed or null frame is dropped. A `message` frame is dropped when its `data` is nullish, when `new Date(...)` throws on its timestamp, or when the stored userInfo does not parse; otherwise it is appended as the normalized payload. auth_success, auth_failed, error and any other type are only logged |
| Router.TimestampWithOwnToStringIsDropped | src/stores/websocket.js:88 | a chat frame whose timestamp is `{"toString": 0}` is dropped, because `new Date(...)` throws |
| Router.MessagesOf | src/stores/websocket.js:82-99 | a frame contributes at most one message, exactly when it classifies as appended, and that message |
| Router.Deliver | src/stores/websocket.js:98 | one frame keeps the old log as a prefix and adds exactly its message (if any) at the end |
| Router.DeliverAllAppends | src/stores/websocket.js:46-53 | a run of frames only appends: the log becomes the old log followed by the accepted messages in arrival order |
| Router.AcceptedConcat | src/stores/websocket.js:46-53 | the messages accepted from two runs are those of the first followed by those of the second |
| Router.DeliverAllConcat | src/stores/websocket.js:46-53 | handling two runs one after the other equals handling their concatenation |
| Router.NonChatFramesKeepLog | src/stores/websocket.js:101-116 | frames that carry no chat message leave the log unchanged, however many arrive |
| Router.ChatFramesInArrivalOrder | src/stores/websocket.js:98 | when every frame is a chat frame, the i-th frame's message is the i-th new log entry |
| Store.AuthFrame | src/stores/websocket.js:36-42 | the auth frame has exactly the keys type and data, type 'auth', and carries back the token and user it was built from |
| Store.AuthFrames | src/stores/websocket.js:34-43 | onopen writes one auth frame iff the stored userInfo parses to a truthy value with at least one key, and none when userInfo is missing |
| Store.Socket.constructor | src/stores/websocket.js:26 | a new socket has the given URL, is CONNECTING and has written nothing |
| Store.Socket.Send | src/stores/websocket.js:127 | send throws while connecting, writes when open, and discards the frame when closing or closed |
| Store.Socket.Close | src/stores/websocket.js:138 | close moves a connecting or open socket to CLOSING and leaves a closing or closed one alone |
| Store.WebSocketStore.constructor | src/stores/websocket.js:6-13 | no socket, both flags false, empty log, no armed timer |
| Store.WebSocketStore.AtMostOneLive | src/stores/websocket.js:17-26 | under the store's invariant, any two OPEN or CONNECTING sockets the store created are the same socket, and it is the handle |
| Store.WebSocketStore.Connect | src/stores/websocket.js:16-77 | no-op when a socket is OPEN or CONNECTING; otherwise a fresh CONNECTING socket to ws://127.0.0.1:2345/ws with isConnecting set, or, if the constructor throws, the old handle kept and isConnecting cleared; isConnected and the log untouched; at most one socket stays live |
| Store.WebSocketStore.OnOpen | src/stores/websocket.js:28-44 | the socket is OPEN, isConnected true, isConnecting false, and exactly the frames of AuthFrames are written |
| Store.WebSocketStore.OnMessage | src/stores/websocket.js:46-53 | the log becomes Deliver of the old log and the frame; nothing else can change |
| Store.WebSocketStore.OnClose | src/stores/websocket.js:55-66 | the socket is CLOSED, both flags false, one more timer armed, handle and log kept |
| Store.WebSocketStore.OnError | src/stores/websocket.js:68-72 | the socket is CLOSED, both flags false, no timer armed, handle and log kept |
| Store.WebSocketStore.RetryFires | src/stores/websocket.js:61-65 | one timer consumed; connect runs with its full effect iff both flags were false, otherwise nothing changes |
| Store.WebSocketStore.SendMessage | src/stores/websocket.js:120-133 | true iff the socket is OPEN and stringify does not throw; the frame is written exactly then; flags, handle and log never change |
| Store.WebSocketStore.Disconnect | src/stores/websocket.js:136-143 | no handle, both flags false; the old socket, if live, is CLOSING; armed timers and the log are kept |
| Store.WebSocketStore.ClearMessages | src/stores/websocket.js:146-148 | the log is empty and nothing else changes |
| Scenarios.RepeatedConnect | src/stores/websocket.js:17-20 | a second connect during connecting keeps the same socket, still CONNECTING |
| Scenarios.LoginThenChat | src/stores/websocket.js:28-99 | with alice and t1 stored: one auth frame written, connected, and alice's 'hi' logged as her own with id 1 |
| Scenarios.AliceAuthFrame | src/stores/websocket.js:34-43 | with alice stored, onopen's frames are exactly one auth frame with token t1 and user alice |
| Scenarios.AuthReplyKeepsLog | src/stores/websocket.js:101-103 | an auth_success reply adds nothing to the log |
| Scenarios.AliceMessageIsOwn | src/stores/websocket.js:84-98 | alice's chat frame appends one message, marked as her own |
| Scenarios.CloseThenRetry | src/stores/websocket.js:55-66 | after an open socket closes, the timer's firing opens a new, different socket that is CONNECTING |
| Scenarios.DisconnectThenRetry | src/stores/websocket.js:136-143 | after disconnect, the old socket's close and its timer still reconnect |
| Scenarios.SendOutsideOpen | src/stores/websocket.js:121-124 | sendMessage returns false before connect, while connecting and after disconnect |
| Scenarios.FramesInOrder | src/stores/websocket.js:46-53 | three frames leave exactly their accepted messages in the log, in arrival order |

## Left out

- `src/api/request.js` is not part of this model. It is a thin wrapper over an HTTP client with no logic of its own.
- The network, and the browser's asynchronous event dispatch. Events are method calls applied one at a time.
- Store.WebSocketStore.OnOpen: requires that `open` arrives for the current handle while it is CONNECTING. A socket that was replaced or closed never opens later, so the handler's `ws.value.send` always reaches the socket that opened.
- The 3000 ms retry delay and `setTimeout`. A timer is a counted event that may fire at any later point.
- JSON text. Parsing is a `ParseResult` (a value or `Malformed`); the written log keeps values, not their text. A stringify failure (cycles, BigInt) is a parameter.
- Numbers are integers: fractional numbers, NaN and -0 are not modelled.
- Router.Normalize: `timestamp` is the value handed to `new Date(...)`; the Date object is not modelled. Both `Date.now()` reads in one handler are taken to return the same `now`.
- Router.Classify: the console lines are not modelled. The `Logged` and `Dropped` outcomes name which branch runs.
- JsValues.KeyCount: counts the characters of a string where JavaScript counts UTF-16 code units. Only "at least one" is used, and on that the two agree.
- Property access ignores inherited properties. None of the keys the store reads (`type`, `data`, `id`, `sender`, `username`, `text`, `timestamp`, `nickname`, `message`) is inherited by a parsed value.
- Store.WebSocketStore.AtMostOneLive: the invariant behind it holds while sockets change only through the store's event methods (`OnOpen`, `OnClose`, `OnError`) and `disconnect`. The closing handshake a server begins is not modelled as a separate event.
- Vue/Pinia reactivity and the singleton store: the refs are plain fields of one object.
- In onopen, a stored userInfo that JSON.parse rejects throws out of the handler after the flags are set. The model keeps the flags and writes nothing; the uncaught error itself is not modelled.
