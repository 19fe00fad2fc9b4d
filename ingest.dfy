/**
 * `POST /webhook`: the provider's notification envelope
 * `{object, entry: [{changes: [{value: {messages: [...]}}]}]}` is checked,
 * `entry[0].changes[0].value.messages` is located, and every message in it
 * becomes a flat `{from, text, timestamp}` record appended to the message store.
 *
 * This module holds the handler as pure functions of the old store, the
 * parsed body and the clock; the store class in module Store runs the same
 * steps in place and is proved equal to `Handle`.
 */
module Ingest {
  import opened Js

  /** The text stored for a message whose `text.body` is missing or falsy. */
  const PLACEHOLDER: string := "No text message"

  /** A stored message. `from` and `text` are whatever JSON values the provider sent
      (normally strings); `timestamp` is the handler's clock reading. */
  datatype Record = Record(from: JsVal, text: JsVal, timestamp: string)

  /** How the handler answers. `ServerError` is a TypeError thrown inside the
      handler, which Express's default error handler turns into a 500. */
  datatype PostReply = Received | InvalidPayload | ServerError

  /** The HTTP response for a reply; the 500 body is Express's error page, not modelled. */
  datatype Response = Response(status: int, body: JsVal)

  function Respond(reply: PostReply): Response {
    match reply
    case Received => Response(200, Obj(map["status" := Str("received")]))
    case InvalidPayload => Response(404, Obj(map["error" := Str("Invalid payload")]))
    case ServerError => Response(500, Undefined)
  }

  // The places in the envelope the handler looks at, each read as `?.` would read it.

  function ObjectField(body: JsVal): JsVal { Own(body, "object") }
  function EntryField(body: JsVal): JsVal { Own(body, "entry") }
  function FirstEntry(body: JsVal): JsVal { Own(EntryField(body), "0") }
  function ChangesField(body: JsVal): JsVal { Own(FirstEntry(body), "changes") }
  function FirstChange(body: JsVal): JsVal { Own(ChangesField(body), "0") }
  function ValueField(body: JsVal): JsVal { Own(FirstChange(body), "value") }
  function MessagesField(body: JsVal): JsVal { Own(ValueField(body), "messages") }

  /** The guard `body.object && body.entry`. */
  predicate IsEnvelope(body: JsVal) {
    Truthy(ObjectField(body)) && Truthy(EntryField(body))
  }

  /** Where the handler gets to before its loop. */
  datatype Located =
    | Invalid                        // the guard failed: 404
    | NoBatch                        // no `changes[0]`, or `messages` falsy: nothing to store
    | Batch(msgs: seq<JsVal>)        // the `messages` array the loop runs over

  /** The guard and `body.entry[0].changes[0]?.value.messages`, with the TypeErrors
      they throw, and `messages.forEach`, which throws unless `messages` is an array. */
  function Locate(body: JsVal): (c: Completion<Located>)
    ensures c == Normal(Invalid) <==> !Nullish(body) && !IsEnvelope(body)
    ensures c.Normal? && c.value.Batch? <==> Truthy(ObjectField(body)) && MessagesField(body).Arr?
    ensures c.Normal? && c.value.Batch? ==> MessagesField(body) == Arr(c.value.msgs)
    ensures c == Normal(NoBatch) <==>
      IsEnvelope(body) && !Nullish(FirstEntry(body)) && !Nullish(ChangesField(body)) &&
      (Nullish(FirstChange(body)) || (!Nullish(ValueField(body)) && !Truthy(MessagesField(body))))
    ensures c.Threw? <==>
      Nullish(body) ||
      (IsEnvelope(body) &&
        (Nullish(FirstEntry(body)) ||
         Nullish(ChangesField(body)) ||
         (!Nullish(FirstChange(body)) && Nullish(ValueField(body))) ||
         (Truthy(MessagesField(body)) && !MessagesField(body).Arr?)))
  {
    var obj :- Member(body, "object");
    if !Truthy(obj) then Normal(Invalid) else
    var entry := Own(body, "entry");        // body is not nullish here: cannot throw
    if !Truthy(entry) then Normal(Invalid) else
    var first := Own(entry, "0");           // entry is truthy here: cannot throw
    var changes :- Member(first, "changes");
    var change :- Member(changes, "0");
    if Nullish(change) then Normal(NoBatch) else
    var value := Own(change, "value");      // change is not nullish here: cannot throw
    var messages :- Member(value, "messages");
    if !Truthy(messages) then Normal(NoBatch)
    else if messages.Arr? then Normal(Batch(messages.elems))
    else Threw
  }

  /** `msg.text?.body`. */
  function TextBody(msg: JsVal): JsVal {
    Own(Own(msg, "text"), "body")
  }

  /** Where the `forEach` callback throws: at `msg.from` on a null message, or in the
      log line's template literal when `from` or the text cannot be turned into a string. */
  predicate CallbackThrows(msg: JsVal) {
    Nullish(msg) || ToStringThrows(Own(msg, "from")) ||
    (Truthy(TextBody(msg)) && ToStringThrows(TextBody(msg)))
  }

  /** One turn of the `forEach` callback: `msg.from`, then `msg.text?.body || "No text message"`,
      then the clock reading `stamp`, then the interpolation `${from}: ${text}` of the log line,
      all before the record is pushed. */
  function Normalise(msg: JsVal, stamp: string): (c: Completion<Record>)
    ensures c.Threw? <==> CallbackThrows(msg)
    ensures c.Normal? ==> c.value.from == Own(msg, "from") && c.value.timestamp == stamp
    ensures c.Normal? && Truthy(TextBody(msg)) ==> c.value.text == TextBody(msg)
    ensures c.Normal? && !Truthy(TextBody(msg)) ==> c.value.text == Str(PLACEHOLDER)
  {
    var from :- Member(msg, "from");
    var text := Own(msg, "text");
    var body := if Nullish(text) then Undefined else Own(text, "body");
    var shown := if Truthy(body) then body else Str(PLACEHOLDER);
    if ToStringThrows(from) || ToStringThrows(shown) then Threw
    else Normal(Record(from, shown, stamp))
  }

  /** The index of the first message the callback throws on, or `|msgs|` if none. */
  function FirstFault(msgs: seq<JsVal>): (k: nat)
    ensures k <= |msgs|
    ensures forall j :: 0 <= j < k ==> !CallbackThrows(msgs[j])
    ensures k < |msgs| ==> CallbackThrows(msgs[k])
  {
    if msgs == [] || CallbackThrows(msgs[0]) then 0 else 1 + FirstFault(msgs[1..])
  }

  /** The records the loop has pushed after its first `k` turns; `now(i)` is the clock
      reading taken in turn `i`. */
  function Records(msgs: seq<JsVal>, now: nat -> string, k: nat): (rs: seq<Record>)
    requires k <= |msgs|
    requires forall j :: 0 <= j < k ==> !CallbackThrows(msgs[j])
    ensures |rs| == k
    ensures forall j :: 0 <= j < k ==> Normalise(msgs[j], now(j)) == Normal(rs[j])
  {
    if k == 0 then [] else Records(msgs, now, k - 1) + [Normalise(msgs[k - 1], now(k - 1)).value]
  }

  /** The handler's reply together with the store it leaves behind. */
  datatype Handled = Handled(reply: PostReply, store: seq<Record>)

  /** The whole `POST /webhook` handler against the store `store`. */
  function Handle(store: seq<Record>, body: JsVal, now: nat -> string): (h: Handled)
    // append-only: what was stored before is kept, in place
    ensures |store| <= |h.store| && h.store[..|store|] == store
    // only a located batch stores anything
    ensures !(Locate(body).Normal? && Locate(body).value.Batch?) ==> h.store == store
  {
    match Locate(body)
    case Threw => Handled(ServerError, store)
    case Normal(Invalid) => Handled(InvalidPayload, store)
    case Normal(NoBatch) => Handled(Received, store)
    case Normal(Batch(msgs)) =>
      var k := FirstFault(msgs);
      Handled(if k == |msgs| then Received else ServerError, store + Records(msgs, now, k))
  }

  /** A body without a truthy `object` and `entry` gets 404 and stores nothing, and
      only such a body gets 404. */
  lemma InvalidEnvelopeRejected(store: seq<Record>, body: JsVal, now: nat -> string)
    ensures Handle(store, body, now).reply == InvalidPayload <==> !Nullish(body) && !IsEnvelope(body)
    ensures Respond(Handle(store, body, now).reply).status == 404 <==> !Nullish(body) && !IsEnvelope(body)
    ensures !Nullish(body) && !IsEnvelope(body) ==>
      Handle(store, body, now) == Handled(InvalidPayload, store) &&
      Respond(Handle(store, body, now).reply).body == Obj(map["error" := Str("Invalid payload")])
  {
  }

  /** The response the route sends: 200 with the one body `{status: "received"}` exactly when
      the handler got through without throwing on a valid envelope, and otherwise 404 or 500. */
  lemma ResponseOfHandle(store: seq<Record>, body: JsVal, now: nat -> string)
    ensures var r := Respond(Handle(store, body, now).reply);
            r.status == 200 || r.status == 404 || r.status == 500
    ensures var r := Respond(Handle(store, body, now).reply);
            r.status == 200 <==> IsEnvelope(body) && match Locate(body)
              case Threw => false
              case Normal(located) => !located.Batch? || FirstFault(located.msgs) == |located.msgs|
    ensures var r := Respond(Handle(store, body, now).reply);
            r.status == 200 ==> r.body == Obj(map["status" := Str("received")])
  {
  }

  /** A valid envelope on whose messages the callback does not throw appends one record per message,
      in message order, after the untouched old store, and gets 200 `{status: "received"}`. */
  lemma ValidEnvelopeAppendsInOrder(store: seq<Record>, body: JsVal, now: nat -> string, msgs: seq<JsVal>)
    requires Truthy(ObjectField(body)) && MessagesField(body) == Arr(msgs)
    requires forall i :: 0 <= i < |msgs| ==> !CallbackThrows(msgs[i])
    ensures Handle(store, body, now).reply == Received
    ensures |Handle(store, body, now).store| == |store| + |msgs|
    ensures Handle(store, body, now).store[..|store|] == store
    ensures forall i :: 0 <= i < |msgs| ==>
      Normalise(msgs[i], now(i)) == Normal(Handle(store, body, now).store[|store| + i])
  {
    var k := FirstFault(msgs);
    assert k == |msgs|;
    var h := Handle(store, body, now);
    assert h.store == store + Records(msgs, now, k);
  }

  /** No `changes[0]`, or a falsy `messages`: 200 `{status: "received"}` and nothing stored. */
  lemma NothingToStoreSucceeds(store: seq<Record>, body: JsVal, now: nat -> string)
    requires IsEnvelope(body) && !Nullish(FirstEntry(body)) && !Nullish(ChangesField(body))
    requires Nullish(FirstChange(body)) || (!Nullish(ValueField(body)) && !Truthy(MessagesField(body)))
    ensures Handle(store, body, now) == Handled(Received, store)
  {
  }

  /** `entry: []` is truthy, so `body.entry[0].changes` reads a property of `undefined`:
      500, nothing stored. */
  lemma EmptyEntryThrows(store: seq<Record>, body: JsVal, now: nat -> string)
    requires Truthy(ObjectField(body)) && EntryField(body) == Arr([])
    ensures Handle(store, body, now) == Handled(ServerError, store)
  {
  }

  /** A valid envelope whose first entry is nullish or has no `changes` (`entry: [{}]`,
      `entry: [null]`, `entry: {}`, `changes: null`): `entry[0].changes` or `changes[0]`
      reads a property of `null`/`undefined`; 500, nothing stored. */
  lemma MissingChangesThrows(store: seq<Record>, body: JsVal, now: nat -> string)
    requires IsEnvelope(body) && (Nullish(FirstEntry(body)) || Nullish(ChangesField(body)))
    ensures Handle(store, body, now) == Handled(ServerError, store)
  {
  }

  /** A `null` or missing body: `body.object` already throws; 500, nothing stored. */
  lemma NullishBodyThrows(store: seq<Record>, body: JsVal, now: nat -> string)
    requires Nullish(body)
    ensures Handle(store, body, now) == Handled(ServerError, store)
  {
  }

  /** The envelope `{"object": "x", "entry": [{}]}` passes the guard and then throws, rather
      than being a notification with nothing to store. */
  lemma EntryWithoutChangesThrows(store: seq<Record>, now: nat -> string)
    ensures Handle(store, Obj(map["object" := Str("x"), "entry" := Arr([Obj(map[])])]), now)
            == Handled(ServerError, store)
  {
    var body := Obj(map["object" := Str("x"), "entry" := Arr([Obj(map[])])]);
    assert FirstEntry(body) == Obj(map[]);
    MissingChangesThrows(store, body, now);
  }

  /** `changes[0]` present without `value`: `.messages` of `undefined` throws; 500, nothing stored. */
  lemma MissingValueThrows(store: seq<Record>, body: JsVal, now: nat -> string)
    requires IsEnvelope(body) && FirstEntry(body).Obj? && ChangesField(body).Arr?
    requires FirstChange(body).Obj? && "value" !in FirstChange(body).props
    ensures Handle(store, body, now) == Handled(ServerError, store)
  {
  }

  /** A message the callback throws on (a `null` message, or one whose `from` or text cannot
      be turned into a string for the log line) stops the loop with a TypeError: the records
      of the messages before it stay in the store, and the reply is 500. */
  lemma ThrowingMessageStopsLoop(store: seq<Record>, body: JsVal, now: nat -> string, msgs: seq<JsVal>, k: nat)
    requires Truthy(ObjectField(body)) && MessagesField(body) == Arr(msgs)
    requires k < |msgs| && CallbackThrows(msgs[k])
    requires forall j :: 0 <= j < k ==> !CallbackThrows(msgs[j])
    ensures Handle(store, body, now).reply == ServerError
    ensures Handle(store, body, now).store == store + Records(msgs, now, k)
  {
    assert FirstFault(msgs) == k;
  }

  /** A batch whose only message has a sender that is an object with its own `toString`
      property: the log line throws before the push, so the reply is 500 and nothing is stored. */
  lemma UnprintableSenderThrows(store: seq<Record>, body: JsVal, now: nat -> string, msg: JsVal)
    requires Truthy(ObjectField(body)) && MessagesField(body) == Arr([msg])
    requires Own(msg, "from").Obj? && "toString" in Own(msg, "from").props
    ensures Handle(store, body, now) == Handled(ServerError, store)
  {
    assert CallbackThrows(msg);
    ThrowingMessageStopsLoop(store, body, now, [msg], 0);
  }


  /** Two runs of records that differ at most in their timestamps. */
  predicate SameMessages(a: seq<Record>, b: seq<Record>) {
    |a| == |b| && forall i :: 0 <= i < |a| ==> a[i].from == b[i].from && a[i].text == b[i].text
  }

  /** Redelivering an envelope that was received stores its messages a second time:
      no deduplication, and only the timestamps can differ. */
  lemma RedeliveryDuplicates(store: seq<Record>, body: JsVal, now1: nat -> string, now2: nat -> string)
    requires Handle(store, body, now1).reply == Received
    ensures Handle(Handle(store, body, now1).store, body, now2).reply == Received
    ensures SameMessages(Handle(store, body, now1).store[|store|..],
                         Handle(Handle(store, body, now1).store, body, now2).store[|Handle(store, body, now1).store|..])
  {
    var once := Handle(store, body, now1).store;
    var twice := Handle(once, body, now2).store;
    if Locate(body).Normal? && Locate(body).value.Batch? {
      var msgs := Locate(body).value.msgs;
      assert FirstFault(msgs) == |msgs|;
      ValidEnvelopeAppendsInOrder(store, body, now1, msgs);
      ValidEnvelopeAppendsInOrder(once, body, now2, msgs);
      forall i | 0 <= i < |msgs|
        ensures once[|store|..][i].from == twice[|once|..][i].from
        ensures once[|store|..][i].text == twice[|once|..][i].text
      {
        assert once[|store|..][i] == once[|store| + i];
        assert twice[|once|..][i] == twice[|once| + i];
      }
    }
  }
}
