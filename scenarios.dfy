/**
 * Clients of the store that drive it through the event sequences its
 * users rely on, each proved from the store's contracts alone.
 */
module Scenarios {
  import opened Wrappers
  import opened JsValues
  import opened Browser
  import opened Router
  import opened Store

  /** A second connect while the first socket is still connecting opens no second socket. */
  method RepeatedConnect(secondThrows: bool) returns (sameSocket: bool, state: ReadyState, connecting: bool)
    ensures sameSocket && state == Connecting && connecting
  {
    var store := new WebSocketStore();
    store.Connect(false);
    var first := store.ws;
    store.Connect(secondThrows);
    sameSocket := store.ws == first;
    state := store.ws.readyState;
    connecting := store.isConnecting;
  }

  /**
   * Log in and chat: the socket opens with a stored user alice and token
   * t1, the server accepts the auth frame, then sends alice's message `hi`
   * with id 1, which the log records as her own.
   */
  method LoginThenChat(now: int) returns (written: seq<Value>, connected: bool, log: seq<Message>)
    ensures written == [AuthFrame(Str("t1"), Obj(map["username" := Str("alice")]))]
    ensures connected
    ensures log == [Message(Num(1), Str("alice"), Str("hi"), Num(now), true)]
  {
    var storage := AliceStorage();
    var store := new WebSocketStore();
    store.Connect(false);
    var socket := store.ws;
    assert socket.sent == [] && store.messages == [];
    store.OnOpen(storage);
    AliceAuthFrame();
    written := socket.sent;
    connected := store.isConnected;
    store.OnMessage(AuthReply(), storage, now);
    AuthReplyKeepsLog([], now);
    store.OnMessage(AliceSaysHi(), storage, now);
    AliceMessageIsOwn([], now);
    log := store.messages;
  }

  /** The server's reply accepting the auth frame. */
  function AuthReply(): ParseResult {
    Parsed(Obj(map["type" := Str("auth_success")]))
  }

  /** alice's chat frame `{type: 'message', data: {id: 1, sender: 'alice', text: 'hi'}}`. */
  function AliceSaysHi(): ParseResult {
    Parsed(Obj(map["type" := Str("message"),
                   "data" := Obj(map["id" := Num(1), "sender" := Str("alice"), "text" := Str("hi")])]))
  }

  /** alice, stored as userInfo, with the token t1. */
  function AliceStorage(): Storage {
    Storage(Some(Parsed(Obj(map["username" := Str("alice")]))), Some("t1"))
  }

  /** With alice stored, onopen writes one auth frame carrying her and the token. */
  lemma AliceAuthFrame()
    ensures AuthFrames(AliceStorage()) == [AuthFrame(Str("t1"), Obj(map["username" := Str("alice")]))]
  {
  }

  /** The auth reply adds nothing to the log. */
  lemma AuthReplyKeepsLog(log: seq<Message>, now: int)
    ensures Deliver(log, Delivery(AuthReply(), AliceStorage(), now)) == log
  {
    assert Classify(Delivery(AuthReply(), AliceStorage(), now)) == Logged(AuthSucceeded);
  }

  /** alice's frame adds one message, marked as her own. */
  lemma AliceMessageIsOwn(log: seq<Message>, now: int)
    ensures Deliver(log, Delivery(AliceSaysHi(), AliceStorage(), now)) ==
            log + [Message(Num(1), Str("alice"), Str("hi"), Num(now), true)]
  {
    var chat := Obj(map["id" := Num(1), "sender" := Str("alice"), "text" := Str("hi")]);
    assert Normalize(chat, Obj(map["username" := Str("alice")]), now) ==
           Message(Num(1), Str("alice"), Str("hi"), Num(now), true);
  }

  /** An open connection that closes is reopened by the timer onclose arms, without the caller. */
  method CloseThenRetry() returns (replaced: bool, connecting: bool)
    ensures replaced && connecting
  {
    var store := new WebSocketStore();
    store.Connect(false);
    store.OnOpen(Storage(None, None));
    var first := store.ws;
    store.OnClose(first);
    store.RetryFires(false);
    replaced := store.ws != first;
    connecting := store.isConnecting && store.ws.readyState == Connecting;
  }

  /**
   * disconnect does not cancel reconnection: the dropped socket still
   * reports its close, which arms a timer, and the timer finds both flags
   * false and connects again.
   */
  method DisconnectThenRetry() returns (reconnected: bool)
    ensures reconnected
  {
    var store := new WebSocketStore();
    store.Connect(false);
    store.OnOpen(Storage(None, None));
    var first := store.ws;
    store.Disconnect();
    store.OnClose(first);
    store.RetryFires(false);
    reconnected := store.ws != null && store.ws != first && store.isConnecting;
  }

  /** sendMessage refuses before connecting, while connecting and after disconnecting. */
  method SendOutsideOpen(data: Value) returns (idle: bool, connecting: bool, closed: bool)
    ensures !idle && !connecting && !closed
  {
    var store := new WebSocketStore();
    idle := store.SendMessage(data, false);
    store.Connect(false);
    connecting := store.SendMessage(data, false);
    store.Disconnect();
    closed := store.SendMessage(data, false);
  }

  /** Three frames handled in arrival order leave their chat messages in the log in that order. */
  method FramesInOrder(d1: Delivery, d2: Delivery, d3: Delivery) returns (log: seq<Message>)
    ensures log == Accepted([d1, d2, d3])
  {
    var store := new WebSocketStore();
    store.OnMessage(d1.frame, d1.storage, d1.now);
    store.OnMessage(d2.frame, d2.storage, d2.now);
    store.OnMessage(d3.frame, d3.storage, d3.now);
    log := store.messages;
    var l1 := Deliver([], d1);
    var l2 := Deliver(l1, d2);
    assert [d1, d2, d3][1..] == [d2, d3] && [d2, d3][1..] == [d3] && [d3][1..] == [];
    assert DeliverAll([], [d1, d2, d3]) == DeliverAll(l1, [d2, d3]) == DeliverAll(l2, [d3]) == log;
    DeliverAllAppends([], [d1, d2, d3]);
  }
}
