/**
 * The websocket store: one socket handle, two connection flags and the
 * chat log, changed by the store's entry points (connect, sendMessage,
 * disconnect, clearMessages), by the socket's four callbacks and by the
 * reconnect timer that onclose arms.
 *
 * The browser's asynchronous dispatch is modelled as one method call per
 * event; each event method first makes the change the browser makes to the
 * socket (CONNECTING to OPEN before `open`, CLOSED before `close`) and then
 * runs the handler.  The environment the handlers consult (whether the
 * WebSocket constructor throws, localStorage, the clock, whether
 * JSON.stringify throws) is passed in as parameters.
 */
module Store {
  import opened Wrappers
  import opened JsValues
  import opened Browser
  import opened Router

  /** The server every connection is opened to. */
  const SERVER_URL: string := "ws://127.0.0.1:2345/ws"

  /** `WebSocket.readyState`. */
  datatype ReadyState = Connecting | Open | Closing | Closed

  /** A browser WebSocket, reduced to its URL, its readyState and the frames written to it. */
  class Socket {
    const url: string
    var readyState: ReadyState
    /** The values handed to `send`, before JSON.stringify, oldest first. */
    var sent: seq<Value>

    /** `new WebSocket(url)` when it does not throw. */
    constructor (url: string)
      ensures this.url == url && readyState == Connecting && sent == []
    {
      this.url := url;
      readyState := Connecting;
      sent := [];
    }

    /**
     * `send(frame)`: throws while the socket is still connecting, writes
     * the frame when it is open, and discards it once closing or closed.
     */
    method Send(frame: Value) returns (threw: bool)
      modifies this
      ensures threw <==> old(readyState) == Connecting
      ensures sent == if old(readyState) == Open then old(sent) + [frame] else old(sent)
      ensures readyState == old(readyState)
    {
      threw := readyState == Connecting;
      if readyState == Open {
        sent := sent + [frame];
      }
    }

    /** `close()`: a connecting or open socket starts closing, otherwise nothing changes. */
    method Close()
      modifies this
      ensures readyState == if old(readyState) == Connecting || old(readyState) == Open then Closing else old(readyState)
      ensures sent == old(sent)
    {
      if readyState == Connecting || readyState == Open {
        readyState := Closing;
      }
    }
  }

  /** The auth frame `{type: 'auth', data: {token, user}}`. */
  function AuthFrame(token: Value, user: Value): (f: Value)
    ensures Get(f, "type") == Str("auth")
    ensures Get(Get(f, "data"), "token") == token
    ensures Get(Get(f, "data"), "user") == user
    ensures f.Obj? && f.fields.Keys == {"type", "data"}
  {
    Obj(map["type" := Str("auth"), "data" := Obj(map["token" := token, "user" := user])])
  }

  /**
   * The frames `onopen` writes: one auth frame carrying the stored token
   * and userInfo when the stored userInfo parses to a truthy value with at
   * least one key, none otherwise (JSON.parse throwing included).
   */
  function AuthFrames(storage: Storage): (r: seq<Value>)
    ensures |r| <= 1
    ensures r != [] <==> StoredUserInfo(storage).Parsed? && StoredUserInfo(storage).value.Truthy() &&
                         KeyCount(StoredUserInfo(storage).value) > 0
    ensures r != [] ==> r[0] == AuthFrame(TokenValue(storage), StoredUserInfo(storage).value)
    ensures storage.userInfo.None? ==> r == []
  {
    match StoredUserInfo(storage)
    case Malformed => []
    case Parsed(userInfo) =>
      if userInfo.Truthy() && KeyCount(userInfo) > 0 then [AuthFrame(TokenValue(storage), userInfo)] else []
  }

  class WebSocketStore {
    var ws: Socket?
    var isConnected: bool
    var isConnecting: bool
    var messages: seq<Message>
    /** Reconnect timers armed by onclose that have not fired yet. */
    ghost var pendingRetries: nat
    /** Every socket connect has created. */
    ghost var sockets: set<Socket>

    /**
     * The store only claims to be connecting while it holds a socket, its
     * handle is one of the sockets it created, and every other socket it
     * created is closing or closed: at most one socket is live.
     */
    ghost predicate Valid()
      reads this, sockets
    {
      (isConnecting ==> ws != null) &&
      (ws != null ==> ws in sockets) &&
      (forall s :: s in sockets && s != ws ==> s.readyState == Closing || s.readyState == Closed)
    }

    /** At most one socket the store created is OPEN or CONNECTING, and that one is the handle. */
    lemma AtMostOneLive(s: Socket, t: Socket)
      requires Valid()
      requires s in sockets && (s.readyState == Open || s.readyState == Connecting)
      requires t in sockets && (t.readyState == Open || t.readyState == Connecting)
      ensures s == t && s == ws
    {
    }

    /** The initial values of the refs. */
    constructor ()
      ensures Valid()
      ensures ws == null && !isConnected && !isConnecting && messages == [] && pendingRetries == 0
      ensures sockets == {}
    {
      ws := null;
      isConnected, isConnecting := false, false;
      messages := [];
      pendingRetries := 0;
      sockets := {};
    }

    /** A socket exists whose readyState is OPEN or CONNECTING: connect does nothing then. */
    predicate Live()
      reads this, ws
    {
      ws != null && (ws.readyState == Open || ws.readyState == Connecting)
    }

    /** sendMessage writes only through an open socket. */
    predicate CanSend()
      reads this, ws
    {
      ws != null && ws.readyState == Open
    }

    /**
     * The effect of `connect`: nothing when a live socket exists; otherwise
     * a fresh CONNECTING socket to the server and isConnecting set, or, if
     * the constructor throws, the old handle kept and isConnecting cleared.
     * isConnected and the log are never touched.
     */
    twostate predicate ConnectEffect(constructorThrows: bool)
      reads this, ws
    {
      messages == old(messages) && isConnected == old(isConnected) &&
      (old(Live()) ==> ws == old(ws) && isConnecting == old(isConnecting)) &&
      (!old(Live()) && constructorThrows ==> ws == old(ws) && !isConnecting) &&
      (!old(Live()) && !constructorThrows ==>
         ws != null && fresh(ws) && ws.url == SERVER_URL && ws.readyState == Connecting && ws.sent == [] &&
         isConnecting)
    }

    /** `connect()`. */
    method Connect(constructorThrows: bool)
      requires Valid()
      modifies this
      ensures Valid() && ConnectEffect(constructorThrows)
      ensures pendingRetries == old(pendingRetries)
      ensures sockets == if ws == old(ws) then old(sockets) else old(sockets) + {ws}
    {
      if ws != null && (ws.readyState == Open || ws.readyState == Connecting) {
        return;
      }
      isConnecting := true;
      if constructorThrows {
        isConnecting := false;
      } else {
        ws := new Socket(SERVER_URL);
        sockets := sockets + {ws};
      }
    }

    /**
     * The socket opens and `onopen` runs: both flags say connected, and the
     * auth frame is written if the stored userInfo calls for one.
     */
    method OnOpen(storage: Storage)
      requires Valid() && ws != null && ws.readyState == Connecting
      modifies this, ws
      ensures Valid()
      ensures ws == old(ws) && ws.readyState == Open && ws.sent == old(ws.sent) + AuthFrames(storage)
      ensures sockets == old(sockets)
      ensures isConnected && !isConnecting
      ensures messages == old(messages) && pendingRetries == old(pendingRetries)
    {
      ws.readyState := Open;
      isConnected := true;
      isConnecting := false;
      match StoredUserInfo(storage)
      case Malformed =>
        // JSON.parse throws; the exception leaves the handler here.
      case Parsed(userInfo) =>
        if userInfo.Truthy() && KeyCount(userInfo) > 0 {
          var _ := ws.Send(AuthFrame(TokenValue(storage), userInfo));
        }
    }

    /** A frame arrives and `onmessage` runs: the log grows by the frame's chat message, if any. */
    method OnMessage(frame: ParseResult, storage: Storage, now: int)
      requires Valid()
      modifies this`messages
      ensures Valid()
      ensures messages == Deliver(old(messages), Delivery(frame, storage, now))
    {
      match Classify(Delivery(frame, storage, now))
      case Appended(m) =>
        messages := messages + [m];
      case Logged(_) =>
      case Dropped(_) =>
    }

    /**
     * Socket `s` closes and its `onclose` runs: both flags cleared and one
     * more reconnect timer armed.  `s` need not be the current handle: a
     * socket that disconnect let go still reports its close.
     */
    method OnClose(s: Socket)
      requires Valid()
      modifies this, s
      ensures Valid()
      ensures s.readyState == Closed && s.sent == old(s.sent)
      ensures !isConnected && !isConnecting && pendingRetries == old(pendingRetries) + 1
      ensures ws == old(ws) && messages == old(messages) && sockets == old(sockets)
    {
      s.readyState := Closed;
      isConnected := false;
      isConnecting := false;
      pendingRetries := pendingRetries + 1;
    }

    /**
     * Socket `s` fails and its `onerror` runs: the browser has already
     * marked it CLOSED (its `close` event follows in the same task); both
     * flags are cleared and, unlike onclose, no timer is armed.
     */
    method OnError(s: Socket)
      requires Valid()
      modifies this, s
      ensures Valid()
      ensures s.readyState == Closed && s.sent == old(s.sent)
      ensures !isConnected && !isConnecting && pendingRetries == old(pendingRetries)
      ensures ws == old(ws) && messages == old(messages) && sockets == old(sockets)
    {
      s.readyState := Closed;
      isConnected := false;
      isConnecting := false;
    }

    /** A reconnect timer fires: connect runs only if the store is neither connected nor connecting. */
    method RetryFires(constructorThrows: bool)
      requires Valid() && pendingRetries > 0
      modifies this
      ensures Valid() && pendingRetries == old(pendingRetries) - 1
      ensures old(isConnected) || old(isConnecting) ==>
                ws == old(ws) && isConnected == old(isConnected) && isConnecting == old(isConnecting) &&
                messages == old(messages)
      ensures !old(isConnected) && !old(isConnecting) ==> ConnectEffect(constructorThrows)
      ensures sockets == if ws == old(ws) then old(sockets) else old(sockets) + {ws}
    {
      pendingRetries := pendingRetries - 1;
      if !isConnected && !isConnecting {
        Connect(constructorThrows);
      }
    }

    /**
     * `sendMessage(data)`: false without writing when there is no open
     * socket or JSON.stringify throws; otherwise the frame is written and
     * the result is true.  The store's own fields never change.
     */
    method SendMessage(data: Value, stringifyThrows: bool) returns (ok: bool)
      requires Valid()
      modifies ws
      ensures Valid()
      ensures ok <==> old(CanSend()) && !stringifyThrows
      ensures ws != null ==> ws.readyState == old(ws.readyState)
      ensures ws != null ==> ws.sent == if ok then old(ws.sent) + [data] else old(ws.sent)
      ensures unchanged(this)
    {
      if ws == null || ws.readyState != Open {
        return false;
      }
      if stringifyThrows {
        return false;
      }
      var threw := ws.Send(data);
      ok := !threw;
    }

    /**
     * `disconnect()`: the socket, if any, is asked to close and dropped;
     * both flags are cleared.  Armed reconnect timers stay armed.
     */
    method Disconnect()
      requires Valid()
      modifies this, ws
      ensures Valid()
      ensures ws == null && !isConnected && !isConnecting
      ensures messages == old(messages) && pendingRetries == old(pendingRetries) && sockets == old(sockets)
      ensures old(ws) != null ==>
                old(ws).sent == old(ws.sent) &&
                old(ws).readyState == if old(Live()) then Closing else old(ws.readyState)
    {
      if ws != null {
        ws.Close();
        ws := null;
      }
      isConnected := false;
      isConnecting := false;
    }

    /** `clearMessages()`: the log is emptied, nothing else changes. */
    method ClearMessages()
      requires Valid()
      modifies this`messages
      ensures Valid()
      ensures messages == []
    {
      messages := [];
    }
  }
}
