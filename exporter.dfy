/** The `Exporter` object and the two collaborators it changes: the shared
    coordination-store client and its own producer. Each method is proved
    against the functions of `PositionStore` and `Publisher`. */
module ExporterCore {
  import opened Wrappers
  import opened Text
  import opened Json
  import opened Checkpoint
  import opened Naming
  import opened PositionStore
  import opened Publisher

  /** The coordination store as the exporter sees it: the existing node paths
      and the data each holds (`None` for a node whose data is not a buffer). */
  class CoordinationStore {
    var nodes: Nodes

    constructor(nodes: Nodes)
      ensures this.nodes == nodes
    {
      this.nodes := nodes;
    }

    /** `setDataAsync(path, data)` on an existing node. */
    method SetData(path: string, data: string)
      requires path in nodes
      modifies this
      ensures nodes == old(nodes)[path := Some(data)]
      ensures nodes.Keys == old(nodes).Keys
    {
      nodes := nodes[path := Some(data)];
    }

    /** `mkdirpAsync(path, data)` on a missing node: the node is created
        holding the data. */
    method Mkdirp(path: string, data: string)
      requires path !in nodes
      modifies this
      ensures nodes == old(nodes)[path := Some(data)]
      ensures nodes.Keys == old(nodes).Keys + {path}
    {
      nodes := nodes[path := Some(data)];
    }
  }

  /** The Kafka producer: the settings it was created with and the messages
      queued on it so far, oldest first. */
  class Producer {
    const settings: map<string, Setting>
    var produced: seq<Message>

    constructor(settings: map<string, Setting>)
      ensures this.settings == settings && produced == []
    {
      this.settings := settings;
      produced := [];
    }

    /** `produce(topic, null, value, key)`: the message joins the queue. */
    method Produce(m: Message)
      modifies this
      ensures produced == old(produced) + [m]
    {
      produced := produced + [m];
    }
  }

  class Exporter {
    const exporterName: string
    /** `KAFKA_TOPIC`; `None` when the variable is not set. */
    const topicOverride: Option<string>
    const transactional: bool
    const producer: Producer
    /** The module-level store client every exporter shares. */
    const zk: CoordinationStore

    /** `new Exporter(exporter_name, transactional)`: the producer is created
        with the base settings, plus the transactional ones in transactional
        mode, and has queued nothing yet. */
    constructor(exporterName: string, transactional: bool, topicOverride: Option<string>, zk: CoordinationStore)
      ensures this.exporterName == exporterName && this.transactional == transactional
      ensures this.topicOverride == topicOverride && this.zk == zk
      ensures fresh(producer) && producer.produced == []
      ensures producer.settings == ProducerSettings(exporterName, transactional, TopicName(exporterName, topicOverride))
      ensures producer.settings["client.id"] == Text(exporterName)
      ensures transactional ==> producer.settings["transactional.id"] == Text(TopicName(exporterName, topicOverride))
    {
      this.exporterName := exporterName;
      this.transactional := transactional;
      this.topicOverride := topicOverride;
      this.zk := zk;
      producer := new Producer(ProducerSettings(exporterName, transactional, TopicName(exporterName, topicOverride)));
    }

    /** `topic_name` */
    function Topic(): string
    {
      TopicName(exporterName, topicOverride)
    }

    /** `zookeeperPositionNode` */
    function PositionNode(): string
    {
      Naming.PositionNode(exporterName, Topic())
    }

    /** `getLastPosition()`: the decoded data of the checkpoint node; `null`
        when the node is missing, its data is not a buffer or the remainder
        after the header does not parse. The store is only read. */
    method GetLastPosition() returns (position: Fetched)
      ensures position == Load(zk.nodes, PositionNode())
      ensures PositionNode() !in zk.nodes ==> position == NoPosition
      ensures PositionNode() in zk.nodes && zk.nodes[PositionNode()].Some?
              && !StartsWith(zk.nodes[PositionNode()].value, FormatHeader)
              ==> position == Raw(zk.nodes[PositionNode()].value)
    {
      var path := PositionNode();
      position := NoPosition;
      if path in zk.nodes {
        var data := zk.nodes[path];
        if data.Some? {
          var value := data.value;
          if StartsWith(value, FormatHeader) {
            ReplacePrefixWithEmpty(value, FormatHeader);
            var parsed := Parse(ReplaceFirst(value, FormatHeader, ""));
            if parsed.Some? {
              position := Parsed(parsed.value);
            }
          } else {
            position := Raw(value);
          }
        }
      }
    }

    /** `savePosition(position)` (`None` is `undefined`): the encoded position
        replaces the data of an existing node or is written to a newly created
        one; either way a later `getLastPosition` gives the position back. */
    method SavePosition(position: Option<Json>) returns (op: StoreOp)
      modifies zk
      ensures zk.nodes == Save(old(zk.nodes), PositionNode(), position)
      ensures op == SaveOp(old(zk.nodes), PositionNode(), position)
      ensures position.Some? ==> Load(zk.nodes, PositionNode()) == Parsed(position.value)
      ensures forall q | q in old(zk.nodes) && q != PositionNode() :: q in zk.nodes && zk.nodes[q] == old(zk.nodes)[q]
    {
      op := Skipped;
      if position.Some? {
        var path := PositionNode();
        var newNodeValue := FormatHeader + Serialize(position.value);
        if path in zk.nodes {
          zk.SetData(path, newNodeValue);
          op := Updated;
        } else {
          zk.Mkdirp(path, newNodeValue);
          op := Created;
        }
        SaveThenLoad(old(zk.nodes), path, position.value);
      }
    }

    /** `sendData(events)`: the events are normalized to a batch and
        stringified, then produced one by one on the topic without a key, and
        a single flush decides the outcome. */
    method SendData(events: Json, flushError: Option<string>) returns (outcome: SendOutcome)
      modifies producer
      ensures producer.produced == old(producer.produced) + Send(Topic(), events, None, flushError).0
      ensures outcome == Send(Topic(), events, None, flushError).1
    {
      if events.JNull? {
        // `events.constructor` of `null`
        return Failed(TypeError);
      }
      var batch := if events.JArr? then events.items else [events];
      SendOfBatch(Topic(), events, None, flushError, batch);
      var payloads := seq(|batch|, k requires 0 <= k < |batch| => Stringified(batch[k]));
      var i := 0;
      while i < |payloads|
        invariant 0 <= i <= |batch|
        invariant Publisher.Produce(Topic(), batch[..i], None).1
        invariant producer.produced == old(producer.produced) + Publisher.Produce(Topic(), batch[..i], None).0
      {
        ProduceStep(Topic(), batch, None, i);
        var value := BufferFrom(payloads[i]);
        if value.None? {
          // `Buffer.from` of a number or a boolean
          ProduceStopsAtFailure(Topic(), batch, None, i + 1);
          return Failed(TypeError);
        }
        producer.Produce(Message(Topic(), value.value, None));
        i := i + 1;
      }
      assert batch[..i] == batch;
      if flushError.Some? {
        return Failed(FlushError(flushError.value));
      }
      return Sent;
    }

    /** `sendDataWithKey(events, keyField)`: as `sendData`, but each message
        carries the key `event[keyField]`, read after the payload. */
    method SendDataWithKey(events: Json, keyField: string, flushError: Option<string>) returns (outcome: SendOutcome)
      modifies producer
      ensures producer.produced == old(producer.produced) + Send(Topic(), events, Some(keyField), flushError).0
      ensures outcome == Send(Topic(), events, Some(keyField), flushError).1
    {
      if events.JNull? {
        return Failed(TypeError);
      }
      var batch := if events.JArr? then events.items else [events];
      SendOfBatch(Topic(), events, Some(keyField), flushError, batch);
      var i := 0;
      while i < |batch|
        invariant 0 <= i <= |batch|
        invariant Publisher.Produce(Topic(), batch[..i], Some(keyField)).1
        invariant producer.produced == old(producer.produced) + Publisher.Produce(Topic(), batch[..i], Some(keyField)).0
      {
        ProduceStep(Topic(), batch, Some(keyField), i);
        var event := batch[i];
        var eventString := Stringified(event);
        var value := BufferFrom(eventString);
        if value.None? {
          ProduceStopsAtFailure(Topic(), batch, Some(keyField), i + 1);
          return Failed(TypeError);
        }
        var key := KeyOf(event, keyField);
        if key.None? {
          // `null[keyField]`
          ProduceStopsAtFailure(Topic(), batch, Some(keyField), i + 1);
          return Failed(TypeError);
        }
        producer.Produce(Message(Topic(), value.value, key.value));
        i := i + 1;
      }
      assert batch[..i] == batch;
      if flushError.Some? {
        return Failed(FlushError(flushError.value));
      }
      return Sent;
    }
  }
}
