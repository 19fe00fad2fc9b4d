/**
 * The server's module-level `receivedMessagesStore` array and the two routes
 * that touch it: `POST /webhook`, which pushes one record per message in
 * place, and `GET /api/messages`, which returns the array as it is.
 * One request is handled at a time.
 */
module Store {
  import opened Js
  import opened Ingest

  class MessageStore {
    /** The stored records, oldest first. */
    var messages: seq<Record>

    /** The store starts empty when the server starts. */
    constructor ()
      ensures messages == []
    {
      messages := [];
    }

    /** `POST /webhook`: locate the messages, then push one record per message in order.
        `now(i)` is the clock reading `new Date().toISOString()` taken for message `i`. */
    method ReceiveWebhook(body: JsVal, now: nat -> string) returns (reply: PostReply)
      modifies this
      ensures Handled(reply, messages) == Handle(old(messages), body, now)
      ensures |old(messages)| <= |messages| && messages[..|old(messages)|] == old(messages)
    {
      var located := Locate(body);
      if located.Threw? {
        return ServerError;
      }
      match located.value
      case Invalid =>
        reply := InvalidPayload;
      case NoBatch =>
        reply := Received;
      case Batch(msgs) =>
        var completed := ForEachMessage(msgs, now);
        reply := if completed then Received else ServerError;
    }

    /** `messages.forEach(...)`: push one record per message, in order, until the callback
        throws (at `msg.from` or in the log line); `completed` is false when it did. */
    method ForEachMessage(msgs: seq<JsVal>, now: nat -> string) returns (completed: bool)
      modifies this
      ensures completed <==> FirstFault(msgs) == |msgs|
      ensures messages == old(messages) + Records(msgs, now, FirstFault(msgs))
    {
      var i := 0;
      while i < |msgs|
        invariant i <= |msgs|
        invariant forall j :: 0 <= j < i ==> !CallbackThrows(msgs[j])
        invariant messages == old(messages) + Records(msgs, now, i)
      {
        // the callback: read `from` and the text, take the clock, log, then push
        var record := Normalise(msgs[i], now(i));
        if record.Threw? {
          assert FirstFault(msgs) == i;
          return false;
        }
        messages := messages + [record.value];
        i := i + 1;
      }
      assert FirstFault(msgs) == |msgs|;
      return true;
    }

    /** `GET /api/messages`: 200 with the store as it stands; nothing changes. */
    method ListMessages() returns (status: int, snapshot: seq<Record>)
      ensures status == 200 && snapshot == messages
    {
      status := 200;
      snapshot := messages;
    }
  }

  /** A client scenario: a valid text message is stored and then read back; a later
      payload without `object` is refused and leaves the store as it was. */
  method Example(now: nat -> string)
  {
    var store := new MessageStore();
    var msg := Obj(map["from" := Str("15550001"), "text" := Obj(map["body" := Str("hi")])]);
    var value := Obj(map["messages" := Arr([msg])]);
    var change := Obj(map["value" := value]);
    var entry := Obj(map["changes" := Arr([change])]);
    var body := Obj(map["object" := Str("whatsapp_business_account"), "entry" := Arr([entry])]);
    assert FirstEntry(body) == entry;
    assert FirstChange(body) == change;
    assert MessagesField(body) == Arr([msg]);
    assert TextBody(msg) == Str("hi");
    assert !CallbackThrows(msg);
    ValidEnvelopeAppendsInOrder([], body, now, [msg]);
    var reply := store.ReceiveWebhook(body, now);
    assert reply == Received;
    var status, snapshot := store.ListMessages();
    assert TextBody(msg) == Str("hi");
    assert snapshot == [Record(Str("15550001"), Str("hi"), now(0))];

    var refused := Obj(map["entry" := Arr([])]);
    assert ObjectField(refused) == Undefined;
    InvalidEnvelopeRejected(snapshot, refused, now);
    reply := store.ReceiveWebhook(refused, now);
    assert reply == InvalidPayload;
    status, snapshot := store.ListMessages();
    assert |snapshot| == 1;
  }
}
