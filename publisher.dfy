/** What `sendData` and `sendDataWithKey` hand to the producer and how the
    call ends, as functions of the events. Events are JSON values; `typeof
    event === "object"` holds for null, arrays and objects. */
module Publisher {
  import opened Wrappers
  import opened Json

  /** One `producer.produce(topic, null, value, key)` call; the partition is
      always `null`, and `key == None` is an `undefined` key. */
  datatype Message = Message(topic: string, value: string, key: Option<Json>)

  /** `TypeError` is thrown by the exporter's own code (reading a property of
      `null`, `Buffer.from` of a number or boolean); `FlushError` is the error
      the producer's flush reports. */
  datatype SendError = TypeError | FlushError(reason: string)

  datatype SendOutcome = Sent | Failed(error: SendError)

  /** `typeof e === "object"` */
  predicate IsObject(e: Json)
  {
    e.JNull? || e.JArr? || e.JObj?
  }

  /** Batch normalization: an array is the batch itself, any other value is a
      one-element batch. `None`: `events.constructor` throws on `null`. */
  function Batch(events: Json): Option<seq<Json>>
  {
    match events
    case JNull => None
    case JArr(items) => Some(items)
    case _ => Some([events])
  }

  /** Objects are serialized with `JSON.stringify`; other values pass through. */
  function Stringified(e: Json): Json
  {
    if IsObject(e) then JStr(Serialize(e)) else e
  }

  /** `Buffer.from(v)`: the string's contents; `None` (a `TypeError`) for a
      number or a boolean. */
  function BufferFrom(v: Json): Option<string>
  {
    if v.JStr? then Some(v.s) else None
  }

  /** `event[keyField]`: outer `None` is the `TypeError` of indexing `null`,
      inner `None` is `undefined`. */
  function KeyOf(e: Json, keyField: string): Option<Option<Json>>
  {
    match e
    case JNull => None
    case JObj(fields) => Some(Lookup(fields, keyField))
    case _ => Some(None)
  }

  /** The message `produce` receives for one event, in the order the source
      evaluates the arguments (payload first, then key); `None` where that
      evaluation throws. `keyField == None` is `sendData`. */
  function MessageOf(topic: string, e: Json, keyField: Option<string>): Option<Message>
  {
    match BufferFrom(Stringified(e))
    case None => None
    case Some(value) =>
      match keyField
      case None => Some(Message(topic, value, None))
      case Some(k) =>
        match KeyOf(e, k)
        case None => None
        case Some(key) => Some(Message(topic, value, key))
  }

  /** The messages produced for a batch, one event at a time: production stops
      at the first event whose message throws. The flag says whether the whole
      batch was produced. */
  function Produce(topic: string, events: seq<Json>, keyField: Option<string>): (r: (seq<Message>, bool))
    ensures |r.0| <= |events|
    ensures r.1 ==> |r.0| == |events|
  {
    if events == [] then ([], true)
    else
      var (msgs, complete) := Produce(topic, events[..|events| - 1], keyField);
      if !complete then (msgs, false)
      else
        match MessageOf(topic, events[|events| - 1], keyField)
        case None => (msgs, false)
        case Some(m) => (msgs + [m], true)
  }

  /** `sendData(events)` (`keyField == None`) and `sendDataWithKey(events,
      keyField)`: the messages produced and how the call ends. A single flush
      follows a fully produced batch; its error, if any, rejects the call. */
  function Send(topic: string, events: Json, keyField: Option<string>, flushError: Option<string>): (r: (seq<Message>, SendOutcome))
    ensures r.1 == Sent ==> flushError.None?
    ensures Batch(events).Some? ==> |r.0| <= |Batch(events).value|
  {
    match Batch(events)
    case None => ([], Failed(TypeError))
    case Some(batch) =>
      var (msgs, complete) := Produce(topic, batch, keyField);
      if !complete then (msgs, Failed(TypeError))
      else if flushError.Some? then (msgs, Failed(FlushError(flushError.value)))
      else (msgs, Sent)
  }

  // ---------------------------------------------------------------------------
  // Properties

  /** An event that can be sent: an object or a string, and not `null` when a
      key is read from it. */
  predicate Sendable(e: Json, keyField: Option<string>)
  {
    (IsObject(e) || e.JStr?) && (keyField.Some? ==> !e.JNull?)
  }

  /** The bytes an event is sent as. */
  function Payload(e: Json): string
  {
    if e.JStr? then e.s else Serialize(e)
  }

  /** The key an event is sent with: none for `sendData`, `event[keyField]`
      for `sendDataWithKey`. */
  function KeyFor(e: Json, keyField: Option<string>): Option<Json>
  {
    match keyField
    case None => None
    case Some(k) => if e.JObj? then Lookup(e.fields, k) else None
  }

  /** A message is produced exactly for a sendable event, on the exporter's
      topic, carrying the event's payload and key. */
  lemma MessageOfSendable(topic: string, e: Json, keyField: Option<string>)
    ensures MessageOf(topic, e, keyField).Some? <==> Sendable(e, keyField)
    ensures MessageOf(topic, e, keyField).Some? ==>
      MessageOf(topic, e, keyField).value == Message(topic, Payload(e), KeyFor(e, keyField))
  {
  }

  /** Once a prefix has failed, producing the whole batch stops there. */
  lemma {:induction false} ProduceStopsAtFailure(topic: string, events: seq<Json>, keyField: Option<string>, i: nat)
    requires i <= |events| && !Produce(topic, events[..i], keyField).1
    ensures Produce(topic, events, keyField) == Produce(topic, events[..i], keyField)
    decreases |events|
  {
    if i < |events| {
      var init := events[..|events| - 1];
      assert init[..i] == events[..i];
      ProduceStopsAtFailure(topic, init, keyField, i);
    } else {
      assert events[..i] == events;
    }
  }

  /** Producing one more event of the batch. */
  lemma ProduceStep(topic: string, events: seq<Json>, keyField: Option<string>, i: nat)
    requires i < |events| && Produce(topic, events[..i], keyField).1
    ensures Produce(topic, events[..i + 1], keyField)
         == match MessageOf(topic, events[i], keyField)
            case None => (Produce(topic, events[..i], keyField).0, false)
            case Some(m) => (Produce(topic, events[..i], keyField).0 + [m], true)
  {
    assert events[..i + 1][..i] == events[..i];
  }

  /** `Send` on a batch, in terms of producing the whole batch. */
  lemma SendOfBatch(topic: string, events: Json, keyField: Option<string>, flushError: Option<string>, batch: seq<Json>)
    requires Batch(events) == Some(batch)
    ensures Send(topic, events, keyField, flushError)
         == var (msgs, complete) := Produce(topic, batch, keyField);
            if !complete then (msgs, Failed(TypeError))
            else if flushError.Some? then (msgs, Failed(FlushError(flushError.value)))
            else (msgs, Sent)
  {
  }

  /** Messages come out in input order, one per event, up to the first event
      that cannot be sent; the batch is complete exactly when every event can
      be sent. */
  lemma {:induction false} ProducedInOrder(topic: string, events: seq<Json>, keyField: Option<string>)
    ensures var (msgs, complete) := Produce(topic, events, keyField);
      && (forall i | 0 <= i < |msgs| :: MessageOf(topic, events[i], keyField) == Some(msgs[i]))
      && (complete <==> forall i | 0 <= i < |events| :: MessageOf(topic, events[i], keyField).Some?)
      && (!complete ==> MessageOf(topic, events[|msgs|], keyField).None?)
    decreases |events|
  {
    if events != [] {
      var init := events[..|events| - 1];
      ProducedInOrder(topic, init, keyField);
      assert forall i | 0 <= i < |init| :: init[i] == events[i];
    }
  }

  /** A non-array event other than `null` is sent exactly as the one-element
      batch holding it. */
  lemma SingleEventIsBatch(topic: string, e: Json, keyField: Option<string>, flushError: Option<string>)
    requires !e.JArr? && !e.JNull?
    ensures Send(topic, e, keyField, flushError) == Send(topic, JArr([e]), keyField, flushError)
  {
  }

  /** `null` is the exception: `sendData(null)` throws before producing
      anything, while `sendData([null])` sends the text "null". */
  lemma NullIsNotABatch(topic: string)
    ensures Send(topic, JNull, None, None) == ([], Failed(TypeError))
    ensures Send(topic, JArr([JNull]), None, None) == ([Message(topic, "null", None)], Sent)
  {
    assert [JNull][..0] == [];
    assert MessageOf(topic, JNull, None) == Some(Message(topic, "null", None));
    var m := Message(topic, "null", None);
    assert [] + [m] == [m];
    assert Produce(topic, [JNull], None) == ([m], true);
    assert Batch(JArr([JNull])) == Some([JNull]);
  }

  /** The call succeeds exactly when every event can be sent and the flush
      reports no error; then there is one message per event, in order, with
      the event's payload and key. Whenever the batch was produced in full,
      the flush's answer decides the outcome. */
  lemma SendSucceedsIffFlushSucceeds(topic: string, events: Json, keyField: Option<string>, flushError: Option<string>)
    ensures var (msgs, outcome) := Send(topic, events, keyField, flushError);
      && (outcome == Sent <==>
            Batch(events).Some?
            && (forall i | 0 <= i < |Batch(events).value| :: Sendable(Batch(events).value[i], keyField))
            && flushError.None?)
      && (outcome == Sent ==>
            |msgs| == |Batch(events).value|
            && forall i | 0 <= i < |msgs| ::
                 msgs[i] == Message(topic, Payload(Batch(events).value[i]), KeyFor(Batch(events).value[i], keyField)))
      && (Batch(events).Some? && Produce(topic, Batch(events).value, keyField).1 && flushError.Some? ==>
            outcome == Failed(FlushError(flushError.value)))
  {
    if Batch(events).Some? {
      var batch := Batch(events).value;
      ProducedInOrder(topic, batch, keyField);
      forall i | 0 <= i < |batch| {
        MessageOfSendable(topic, batch[i], keyField);
      }
    }
  }
}
