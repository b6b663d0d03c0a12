/**
 * Inbound frames: the chat-message record the store builds from a
 * `message` frame, the classification of every frame by its `type`, and
 * the message log that successive frames extend.
 */
module Router {
  import opened JsValues
  import opened Browser

  /** Sender shown when a chat frame names none. */
  const UNKNOWN_SENDER: string := "未知用户"

  /**
   * A chat message as the store keeps it.  `timestamp` is the value handed
   * to the Date constructor (the Date object itself is not modelled).
   */
  datatype Message = Message(id: Value, sender: Value, text: Value, timestamp: Value, isOwn: bool)

  /** What the store logs for a frame that is not a chat message. */
  datatype Event =
    | AuthSucceeded
    | AuthFailed
    | ServerError(message: Value)
    | UnknownType(frame: Value)

  /** Why a frame was dropped: each is an exception the handler catches. */
  datatype Failure =
    | Unparseable         // JSON.parse threw
    | NoProperties        // the frame is null, so reading `type` threw
    | MissingPayload      // a `message` frame whose `data` is nullish
    | InvalidTimestamp    // `new Date(...)` threw converting the payload's timestamp
    | UnreadableUserInfo  // JSON.parse of the stored userInfo threw

  /** The effect of one inbound frame on the store. */
  datatype Outcome =
    | Appended(message: Message)
    | Logged(event: Event)
    | Dropped(failure: Failure)

  /** One inbound frame together with the storage and clock it is handled with. */
  datatype Delivery = Delivery(frame: ParseResult, storage: Storage, now: int)

  /** `data.data.sender?.username || data.data.sender || '未知用户'`. */
  function SenderOf(payload: Value): (r: Value)
    ensures r.Truthy()
    ensures Get(Get(payload, "sender"), "username").Truthy() ==>
              r == Get(Get(payload, "sender"), "username")
    ensures !Get(Get(payload, "sender"), "username").Truthy() && Get(payload, "sender").Truthy() ==>
              r == Get(payload, "sender")
    ensures !Get(Get(payload, "sender"), "username").Truthy() && !Get(payload, "sender").Truthy() ==>
              r == Str(UNKNOWN_SENDER)
  {
    var sender := Get(payload, "sender");
    var username := if sender.IsNullish() then Undefined else Get(sender, "username");
    Or(Or(username, sender), Str(UNKNOWN_SENDER))
  }

  /**
   * Whether a message is the user's own: the stored userInfo is truthy and
   * the sender is `===` to its username or to its nickname.
   */
  function IsOwn(sender: Value, userInfo: Value): (own: bool)
    ensures own <==> userInfo.Truthy() && sender.IsPrimitive() &&
                     (sender == Get(userInfo, "username") || sender == Get(userInfo, "nickname"))
  {
    if userInfo.Truthy() then
      StrictEquals(sender, Get(userInfo, "username")) || StrictEquals(sender, Get(userInfo, "nickname"))
    else
      false
  }

  /**
   * The record built for the payload `data.data` of a `message` frame,
   * given the parsed stored userInfo and the current time.
   */
  function Normalize(payload: Value, userInfo: Value, now: int): (m: Message)
    ensures Get(payload, "id").Truthy() ==> m.id == Get(payload, "id")
    ensures !Get(payload, "id").Truthy() ==> m.id == Num(now)
    ensures m.sender == SenderOf(payload) && m.sender.Truthy()
    ensures Get(payload, "text").Truthy() ==> m.text == Get(payload, "text")
    ensures !Get(payload, "text").Truthy() ==> m.text == Str("")
    ensures Get(payload, "timestamp").Truthy() ==> m.timestamp == Get(payload, "timestamp")
    ensures !Get(payload, "timestamp").Truthy() ==> m.timestamp == Num(now)
    ensures m.isOwn <==> userInfo.Truthy() && m.sender.IsPrimitive() &&
                         (m.sender == Get(userInfo, "username") || m.sender == Get(userInfo, "nickname"))
  {
    var sender := SenderOf(payload);
    Message(Or(Get(payload, "id"), Num(now)),
            sender,
            Or(Get(payload, "text"), Str("")),
            Or(Get(payload, "timestamp"), Num(now)),
            IsOwn(sender, userInfo))
  }

  /** Without a truthy stored username or nickname no message is the user's own, since every sender is truthy. */
  lemma OwnNeedsStoredIdentity(payload: Value, userInfo: Value, now: int)
    requires !Get(userInfo, "username").Truthy() && !Get(userInfo, "nickname").Truthy()
    ensures !Normalize(payload, userInfo, now).isOwn
  {
  }

  /** The own-message rule is an inclusive or: matching the nickname alone suffices. */
  lemma NicknameAloneIsOwn(payload: Value, userInfo: Value, now: int, nickname: string)
    requires userInfo.Obj? && "nickname" in userInfo.fields && userInfo.fields["nickname"] == Str(nickname)
    requires SenderOf(payload) == Str(nickname)
    ensures Normalize(payload, userInfo, now).isOwn
  {
  }

  /**
   * The handler of one inbound frame (`onmessage` and the switch of
   * handleWebSocketMessage), as the outcome it has.
   */
  function Classify(d: Delivery): (r: Outcome)
    ensures d.frame.Malformed? ==> r == Dropped(Unparseable)
    ensures r.Appended? <==>
              d.frame.Parsed? && Get(d.frame.value, "type") == Str("message") &&
              !Get(d.frame.value, "data").IsNullish() &&
              !ToPrimitiveThrows(Get(Get(d.frame.value, "data"), "timestamp")) &&
              StoredUserInfo(d.storage).Parsed?
    ensures r == Dropped(MissingPayload) <==>
              d.frame.Parsed? && Get(d.frame.value, "type") == Str("message") &&
              Get(d.frame.value, "data").IsNullish()
    ensures r == Dropped(InvalidTimestamp) <==>
              d.frame.Parsed? && Get(d.frame.value, "type") == Str("message") &&
              !Get(d.frame.value, "data").IsNullish() &&
              ToPrimitiveThrows(Get(Get(d.frame.value, "data"), "timestamp"))
    ensures r == Dropped(UnreadableUserInfo) <==>
              d.frame.Parsed? && Get(d.frame.value, "type") == Str("message") &&
              !Get(d.frame.value, "data").IsNullish() &&
              !ToPrimitiveThrows(Get(Get(d.frame.value, "data"), "timestamp")) &&
              StoredUserInfo(d.storage).Malformed?
    ensures r.Appended? ==>
              r.message == Normalize(Get(d.frame.value, "data"), StoredUserInfo(d.storage).value, d.now)
    ensures r == Logged(AuthSucceeded) <==>
              d.frame.Parsed? && !d.frame.value.IsNullish() && Get(d.frame.value, "type") == Str("auth_success")
    ensures r == Logged(AuthFailed) <==>
              d.frame.Parsed? && !d.frame.value.IsNullish() && Get(d.frame.value, "type") == Str("auth_failed")
    ensures r.Logged? && r.event.ServerError? <==>
              d.frame.Parsed? && !d.frame.value.IsNullish() && Get(d.frame.value, "type") == Str("error")
    ensures r.Logged? && r.event.ServerError? ==> r.event.message == Get(d.frame.value, "message")
    ensures r == Dropped(NoProperties) <==> d.frame.Parsed? && d.frame.value.IsNullish()
    ensures d.frame.Parsed? && !d.frame.value.IsNullish() &&
            Get(d.frame.value, "type") !in [Str("message"), Str("auth_success"), Str("auth_failed"), Str("error")] ==>
              r == Logged(UnknownType(d.frame.value))
  {
    match d.frame
    case Malformed => Dropped(Unparseable)
    case Parsed(data) =>
      if data.IsNullish() then Dropped(NoProperties)
      else
        var tag := Get(data, "type");
        if tag == Str("message") then
          var payload := Get(data, "data");
          if payload.IsNullish() then Dropped(MissingPayload)
          // the record, with its `new Date(...)`, is built before userInfo is read
          else if ToPrimitiveThrows(Or(Get(payload, "timestamp"), Num(d.now))) then Dropped(InvalidTimestamp)
          else
            match StoredUserInfo(d.storage)
            case Malformed => Dropped(UnreadableUserInfo)
            case Parsed(userInfo) => Appended(Normalize(payload, userInfo, d.now))
        else if tag == Str("auth_success") then Logged(AuthSucceeded)
        else if tag == Str("auth_failed") then Logged(AuthFailed)
        else if tag == Str("error") then Logged(ServerError(Get(data, "message")))
        else Logged(UnknownType(data))
  }

  /**
   * A chat frame whose timestamp is an object with its own `toString` key
   * is dropped: `new Date(...)` throws before the record is pushed.
   */
  lemma TimestampWithOwnToStringIsDropped(storage: Storage, now: int)
    ensures Classify(Delivery(Parsed(Obj(map["type" := Str("message"),
                                             "data" := Obj(map["timestamp" := Obj(map["toString" := Num(0)])])])),
                              storage, now))
            == Dropped(InvalidTimestamp)
  {
  }

  /** The messages one frame adds to the log: its chat message, if any. */
  function MessagesOf(d: Delivery): (ms: seq<Message>)
    ensures |ms| <= 1
    ensures ms != [] <==> Classify(d).Appended?
    ensures ms != [] ==> ms[0] == Classify(d).message
  {
    match Classify(d)
    case Appended(m) => [m]
    case _ => []
  }

  /** The log after one frame: the old log, kept whole, and at most one new entry at its end. */
  function Deliver(log: seq<Message>, d: Delivery): (r: seq<Message>)
    ensures |r| == |log| + |MessagesOf(d)| && r[..|log|] == log
    ensures Classify(d).Appended? ==> r[|log|] == Classify(d).message
    ensures !Classify(d).Appended? ==> r == log
  {
    log + MessagesOf(d)
  }

  /** The log after frames arrive one after another, each handled in arrival order. */
  function DeliverAll(log: seq<Message>, ds: seq<Delivery>): seq<Message>
    decreases |ds|
  {
    if ds == [] then log else DeliverAll(Deliver(log, ds[0]), ds[1..])
  }

  /** The chat messages a run of frames carries, in arrival order. */
  function Accepted(ds: seq<Delivery>): seq<Message>
    decreases |ds|
  {
    if ds == [] then [] else MessagesOf(ds[0]) + Accepted(ds[1..])
  }

  /** A run of frames only appends to the log: the new entries are the accepted messages, in order. */
  lemma {:induction false} DeliverAllAppends(log: seq<Message>, ds: seq<Delivery>)
    ensures DeliverAll(log, ds) == log + Accepted(ds)
    decreases |ds|
  {
    if ds != [] {
      DeliverAllAppends(Deliver(log, ds[0]), ds[1..]);
      assert log + MessagesOf(ds[0]) + Accepted(ds[1..]) == log + (MessagesOf(ds[0]) + Accepted(ds[1..]));
    }
  }

  /** Accepting is compositional: the messages of two runs are those of each, in order. */
  lemma {:induction false} AcceptedConcat(a: seq<Delivery>, b: seq<Delivery>)
    ensures Accepted(a + b) == Accepted(a) + Accepted(b)
    decreases |a|
  {
    if a == [] {
      assert a + b == b;
    } else {
      assert (a + b)[0] == a[0] && (a + b)[1..] == a[1..] + b;
      AcceptedConcat(a[1..], b);
      assert MessagesOf(a[0]) + (Accepted(a[1..]) + Accepted(b)) ==
             MessagesOf(a[0]) + Accepted(a[1..]) + Accepted(b);
    }
  }

  /** Handling two runs one after the other is handling their concatenation. */
  lemma {:induction false} DeliverAllConcat(log: seq<Message>, a: seq<Delivery>, b: seq<Delivery>)
    ensures DeliverAll(log, a + b) == DeliverAll(DeliverAll(log, a), b)
    decreases |a|
  {
    if a == [] {
      assert a + b == b;
    } else {
      assert (a + b)[0] == a[0] && (a + b)[1..] == a[1..] + b;
      DeliverAllConcat(Deliver(log, a[0]), a[1..], b);
    }
  }

  /** Frames that carry no chat message (malformed, auth replies, errors, unknown types) leave the log as it was. */
  lemma {:induction false} NonChatFramesKeepLog(log: seq<Message>, ds: seq<Delivery>)
    requires forall i :: 0 <= i < |ds| ==> !Classify(ds[i]).Appended?
    ensures DeliverAll(log, ds) == log
    decreases |ds|
  {
    if ds != [] {
      assert !Classify(ds[0]).Appended?;
      NonChatFramesKeepLog(log, ds[1..]);
    }
  }

  /** When every frame is a chat frame, the i-th frame's message is the i-th new entry of the log. */
  lemma {:induction false} ChatFramesInArrivalOrder(ds: seq<Delivery>, i: nat)
    requires forall j :: 0 <= j < |ds| ==> Classify(ds[j]).Appended?
    requires i < |ds|
    ensures |Accepted(ds)| == |ds|
    ensures Accepted(ds)[i] == Classify(ds[i]).message
    decreases |ds|
  {
    assert Classify(ds[0]).Appended?;
    if |ds| == 1 {
      assert Accepted(ds[1..]) == [];
    } else {
      ChatFramesInArrivalOrder(ds[1..], if i == 0 then 0 else i - 1);
    }
  }
}
