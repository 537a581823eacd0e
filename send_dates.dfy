/** The transactional example driver's `pushData`: read the last position,
    derive the next key from it, send one keyed event and only then save the
    new position. The clock is a parameter. */
module SendDates {
  import opened Wrappers
  import opened Json
  import opened Checkpoint
  import opened PositionStore
  import opened Publisher
  import opened ExporterCore

  /** JavaScript truthiness of what `getLastPosition` resolves to; a legacy
      buffer is an object and so truthy. */
  predicate Truthy(last: Fetched)
  {
    match last
    case Raw(_) => true
    case Parsed(j) =>
      match j
      case JNull => false
      case JBool(b) => b
      case JInt(n) => n != 0
      case JStr(s) => s != ""
      case _ => true
  }

  /** `lastPosition.key` as the number `+ 1` turns it into: an integer,
      `null` as 0 and a boolean as 0 or 1. `None` where `+ 1` gives `NaN` or
      a string: no such member (`undefined`), a string, an array or an
      object, and any position that is not an object. */
  function KeyOfPosition(last: Fetched): Option<int>
  {
    if last.Parsed? && last.value.JObj? then
      match Lookup(last.value.fields, "key")
      case Some(JInt(k)) => Some(k)
      case Some(JNull) => Some(0)
      case Some(JBool(b)) => Some(if b then 1 else 0)
      case _ => None
    else None
  }

  /** `{timestamp, key}` */
  function Position(timestamp: int, key: int): Json
  {
    JObj([Field("timestamp", JInt(timestamp)), Field("key", JInt(key))])
  }

  /** The key of the next event: 1 without a (truthy) last position, else
      `lastPosition.key + 1`; `None` where that is not an integer. */
  function NextKey(last: Fetched): (key: Option<int>)
    ensures last == NoPosition ==> key == Some(1)
    ensures forall timestamp, k :: last == Parsed(Position(timestamp, k)) ==> key == Some(k + 1)
    ensures last.Raw? ==> key.None?
  {
    if !Truthy(last) then Some(1)
    else match KeyOfPosition(last)
      case Some(k) => Some(k + 1)
      case None => None
  }

  /** `{timestamp, iso_date, key}` */
  function Event(timestamp: int, isoDate: string, key: int): Json
  {
    JObj([Field("timestamp", JInt(timestamp)), Field("iso_date", JStr(isoDate)), Field("key", JInt(key))])
  }

  /** A cold start numbers the first event 1. */
  lemma ColdStartKey(nodes: Nodes, path: string)
    requires path !in nodes
    ensures NextKey(Load(nodes, path)) == Some(1)
  {
  }

  /** After a position with key `k` is saved, the next event gets key `k + 1`. */
  lemma KeyAfterSave(nodes: Nodes, path: string, timestamp: int, key: int)
    ensures NextKey(Load(Save(nodes, path, Some(Position(timestamp, key))), path)) == Some(key + 1)
  {
    SaveThenLoad(nodes, path, Position(timestamp, key));
  }

  /** Sending the event queues exactly one message, carrying the serialized
      event and its key; the flush decides the outcome. */
  lemma SendEvent(topic: string, timestamp: int, isoDate: string, key: int, flushError: Option<string>)
    ensures Send(topic, Event(timestamp, isoDate, key), Some("key"), flushError)
         == ([Message(topic, Serialize(Event(timestamp, isoDate, key)), Some(JInt(key)))],
             if flushError.Some? then Failed(FlushError(flushError.value)) else Sent)
  {
    var e := Event(timestamp, isoDate, key);
    var m := Message(topic, Serialize(e), Some(JInt(key)));
    assert Lookup(e.fields, "key") == Some(JInt(key));
    assert MessageOf(topic, e, Some("key")) == Some(m);
    assert [e][..0] == [];
    assert [] + [m] == [m];
    assert Publisher.Produce(topic, [e], Some("key")) == ([m], true);
  }

  /** `pushData()`: the event is sent before the position is saved, so a
      failed send leaves the checkpoint as it was, and a successful one
      advances it to the sent key. */
  method PushData(exporter: Exporter, timestamp: int, isoDate: string, flushError: Option<string>)
      returns (outcome: SendOutcome)
    requires NextKey(Load(exporter.zk.nodes, exporter.PositionNode())).Some?
    modifies exporter.zk, exporter.producer
    ensures var key := NextKey(Load(old(exporter.zk.nodes), exporter.PositionNode())).value;
      && exporter.producer.produced == old(exporter.producer.produced)
           + [Message(exporter.Topic(), Serialize(Event(timestamp, isoDate, key)), Some(JInt(key)))]
      && (outcome == Sent <==> flushError.None?)
      && (outcome == Sent ==> exporter.zk.nodes == Save(old(exporter.zk.nodes), exporter.PositionNode(), Some(Position(timestamp, key))))
      && (outcome != Sent ==> exporter.zk.nodes == old(exporter.zk.nodes))
    ensures outcome == Sent ==> Load(exporter.zk.nodes, exporter.PositionNode()) == Parsed(Position(timestamp, NextKey(Load(old(exporter.zk.nodes), exporter.PositionNode())).value))
  {
    var lastPosition := exporter.GetLastPosition();
    var key := NextKey(lastPosition).value;
    SendEvent(exporter.Topic(), timestamp, isoDate, key, flushError);
    outcome := exporter.SendDataWithKey(Event(timestamp, isoDate, key), "key", flushError);
    if outcome != Sent {
      return;
    }
    var _ := exporter.SavePosition(Some(Position(timestamp, key)));
  }
}
