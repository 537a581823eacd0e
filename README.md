# san-exporter `Exporter`, modelled in Dafny

san-exporter is the base library of Santiment's data exporters. An exporter
publishes events to a Kafka topic and keeps a checkpoint, its "position", in
a ZooKeeper node so that it can resume after a restart. The `Exporter` class
in `index.js` does four things:

- **Names.** It derives the topic name from the exporter's name or from the
  `KAFKA_TOPIC` override. It derives the checkpoint node
  `/<exporter>/<topic>/block-number`. It builds the producer settings, with
  transactional id and idempotence added in transactional mode.
- **Checkpoint codec.** A position is stored as `format=json;` followed by
  `JSON.stringify(position)`. Data without that header is a legacy payload
  and is handed back unchanged.
- **Position store.** `getLastPosition` reads and decodes the checkpoint
  node. `savePosition` writes it: `setData` on an existing node, `mkdirp` on
  a missing one.
- **Publisher.** `sendData` and `sendDataWithKey` normalize their argument
  to a batch. They stringify objects, queue one message per event on the
  producer, and flush once.

## How it is modelled

| file | module | form |
|---|---|---|
| `wrappers.dfy` | `Wrappers` | `Option`; `None` stands for JavaScript's `undefined` |
| `text.dfy` | `Text` | `startsWith` and `String.prototype.replace` with a string pattern, which replaces only the first occurrence |
| `json.dfy` | `Json` | JSON values, `JSON.stringify`, a parser for the text `JSON.stringify` writes, and the round trip between them |
| `checkpoint.dfy` | `Checkpoint` | `FORMAT_HEADER`, the encoder and the decoder of a node's data |
| `naming.dfy` | `Naming` | `topic_name`, `zookeeperPositionNode`, producer settings |
| `position_store.dfy` | `PositionStore` | `getLastPosition`/`savePosition` as functions of the store's contents |
| `publisher.dfy` | `Publisher` | the messages `sendData`/`sendDataWithKey` queue and how the call ends |
| `exporter.dfy` | `ExporterCore` | classes `CoordinationStore`, `Producer` and `Exporter` |
| `send_dates.dfy` | `SendDates` | the transactional example driver's `pushData` |

**Store and producer.** These are the two external clients, modelled as
classes.

- The store maps each existing node path to its data. The data is `None`
  when it is not a buffer.
- The producer keeps its settings and the sequence of queued messages.
- Each `Exporter` method is a Dafny method that changes these objects. It is
  proved against the functions of `PositionStore` and `Publisher`. The
  properties the source promises are lemmas about those functions.

**Buffers and bytes.** Buffers are the strings they hold: `Buffer.from`
and `toString("utf8")` are identities.

**What can fail.** JavaScript exceptions thrown by the exporter's own code
become `Failed(TypeError)`:

- `null.constructor`
- `Buffer.from` of a number or a boolean
- `null[keyField]`

The flush's error is a parameter (`flushError`). So are the clock and the
`KAFKA_TOPIC` variable.

**`null`.** `getLastPosition` returns JavaScript `null` for "no position".
`null` is also what a stored `format=json;null` parses to. The model keeps
that ambiguity: both are `Parsed(JNull)`, written `NoPosition`.

**Behaviour of `index.js` worth knowing.**

- Records are not passed through as already-encoded bytes. Every value
  with `typeof "object"` is `JSON.stringify`'d, including a `Buffer`.
  Strings pass through. Numbers and booleans make `Buffer.from` throw.
- Headerless checkpoint data is not decoded as a legacy 32-bit integer. It
  is returned as the raw buffer.
- The transaction calls carry no state and check no misuse. They are left
  out (see below), not given a state machine.

## Model

| member | source | states |
|---|---|---|
| Text.IndexOfFrom | index.js:53 | `indexOf`: the result is an occurrence at or after `from`, with no earlier one; `None` exactly when there is no occurrence from `from` on |
| Text.ReplaceFirst | index.js:53 | `replace` with a string pattern splices `rep` in at the FIRST occurrence only; without an occurrence the string is unchanged |
| Text.ReplacePrefixWithEmpty | index.js:97-98 | once `startsWith(FORMAT_HEADER)` holds, `replace(FORMAT_HEADER, "")` strips exactly the header |
| Text.ReplaceAbsent | index.js:53 | a string without the pattern's first character is left alone by `replace` |
| Json.Lookup | index.js:159 | `event[keyField]` on an object: `undefined` exactly when no member has that name, otherwise the value of a member with that name |
| Json.LookupFindsLast | index.js:159 | when several members share the name, `event[keyField]` is the value of the LAST of them |
| Json.NatToString | index.js:114 | `JSON.stringify` of a number: at least one digit, all digits, a leading '0' only for zero |
| Json.EscapePlain | index.js:114 | `JSON.stringify` of a string without quotes, backslashes or control characters leaves the characters as they are |
| Json.Serialize | index.js:114 | `JSON.stringify`: compact text of a value; `Json.RoundTrip` proves the parser reads it back |
| Json.Parse | index.js:98 | `JSON.parse`: one value with optional surrounding white space, `None` where it throws; `Json.RoundTrip` proves it inverts `Json.Serialize` |
| Json.IntRoundTrip | index.js:98 | an integer's text parses back to the integer, whatever non-digit follows it |
| Json.StringRoundTrip | index.js:98 | a stringified string parses back to the same string, escapes included |
| Json.ValueRoundTrip | index.js:98 | any stringified value parses back to itself and leaves the following text untouched |
| Json.RoundTrip | index.js:113-116 | `JSON.parse(JSON.stringify(p))` equals `p` for every modelled value |
| Checkpoint.Encode | index.js:113-116 | the stored payload always starts with `format=json;` |
| Checkpoint.Decode | index.js:94-101 | the result is raw exactly when the node holds data without the header, and then it is that data unchanged; `Checkpoint.DecodeEncode` and `Checkpoint.CorruptIsNoPosition` cover data with the header |
| Checkpoint.DecodeEncode | index.js:97-98 | decoding an encoded position gives the position back |
| Checkpoint.LegacyPassthrough | index.js:99-101 | data without the header is returned unchanged |
| Checkpoint.CorruptIsNoPosition | index.js:103-108 | a header followed by text that does not parse gives `null`, not an error |
| Naming.TopicName | index.js:50-55 | `topic_name`: without a non-empty override the topic is never longer than the exporter's name; the lemmas below give its value |
| Naming.PositionNode | index.js:57-60 | `/<exporter>/<topic>/block-number`; `Naming.PositionNodeInjective` proves distinct names give distinct nodes |
| Naming.ProducerSettings | index.js:34-45 | every base setting is present with its value; `transactional.id` (= topic) and `enable.idempotence` (= true) are present exactly in transactional mode; no other key |
| Naming.TransactionalOnlyAdds | index.js:42-45 | transactional settings minus those two keys are the plain settings |
| Naming.OverrideWins | index.js:50-55 | a non-empty `KAFKA_TOPIC` is the topic, whatever the exporter's name |
| Naming.TopicOfPlainName | index.js:53 | without an override, a name without hyphens is its own topic |
| Naming.TopicOfSuffixedName | index.js:53 | without an override, `<base>-exporter` publishes to `<base>` |
| Naming.AcmeTopic | index.js:53 | `acme-exporter` publishes to `acme` |
| Naming.StripExporterSuffix | index.js:53 | in `<a>-<b>-exporter` (hyphen-free `a`, `b`; `b` not starting with "exporter") the first "-exporter" is the suffix, so `replace` drops exactly it |
| Naming.ReplaceFirstHyphen | index.js:53 | in `<a>-<b>` with hyphen-free `a`, `replace("-", "_")` turns exactly the hyphen after `a` into an underscore |
| Naming.TopicOfTwoPartName | index.js:53 | without an override, `<a>-<b>-exporter` publishes to `<a>_<b>`: only the first hyphen becomes an underscore |
| Naming.PositionNodeInjective | index.js:59 | two exporters or topics whose names have no `/` never share a checkpoint node |
| PositionStore.Load | index.js:87-109 | what `getLastPosition` resolves to; a raw result is exactly the data of the existing checkpoint node |
| PositionStore.Save | index.js:111-130 | the store after `savePosition`: the set of nodes gains the checkpoint node when a position is given and is unchanged otherwise; every other node keeps its data |
| PositionStore.SaveOp | index.js:112-128 | nothing is issued for `undefined`; `setData` exactly when the node exists, `mkdirp` exactly when it does not |
| PositionStore.ColdStart | index.js:88 | a missing node gives `null` |
| PositionStore.NoBufferIsNoPosition | index.js:94 | node data that is not a buffer gives `null` |
| PositionStore.SaveThenLoad | index.js:111-130 | `getLastPosition` after `savePosition(p)` gives `p` |
| PositionStore.SaveUndefined | index.js:112 | `savePosition(undefined)` leaves the store unchanged |
| PositionStore.SaveTouchesOnlyItsNode | index.js:118-128 | after a save the node exists with a versioned payload; every other node keeps its existence and its data |
| PositionStore.SaveIdempotent | index.js:118-128 | saving the same position twice leaves the store as saving it once; the second save is an update |
| PositionStore.LastSaveWins | index.js:119-122 | of two saves, the later one is what is read back |
| Publisher.KeyOf | index.js:159 | `event[keyField]`: a `TypeError` for `null`, the member's value for an object (`Json.Lookup`), `undefined` otherwise |
| Publisher.MessageOf | index.js:137-141 | the message `produce` receives for one event; `Publisher.MessageOfSendable` states which events yield one and what it carries |
| Publisher.Send | index.js:132-168 | the messages queued and the outcome of `sendData`/`sendDataWithKey`: no more messages than events, success only without a flush error; `Publisher.SendSucceedsIffFlushSucceeds` gives both directions |
| Publisher.Produce | index.js:140-142 | no more messages than events; a complete batch has exactly one message per event |
| Publisher.MessageOfSendable | index.js:137-141 | an event yields a message exactly when it is an object or a string (and not `null` when keyed); the message is on the topic with the stringified payload and `event[keyField]` as key |
| Publisher.ProduceStopsAtFailure | index.js:140-142 | once an event throws, the events after it are not produced |
| Publisher.ProducedInOrder | index.js:140-142 | message i is event i's message; the batch is complete exactly when every event yields one; otherwise the first missing one throws |
| Publisher.SingleEventIsBatch | index.js:133-135 | `sendData(x)` is `sendData([x])` for any non-array `x` other than `null` |
| Publisher.NullIsNotABatch | index.js:133-139 | `sendData(null)` throws before producing anything, while `sendData([null])` sends `"null"` |
| Publisher.SendSucceedsIffFlushSucceeds | index.js:144-149 | the call resolves exactly when every event is sendable and the flush reports no error, and then one message per event in order with its payload and key; a complete batch with a flush error rejects with that error |
| ExporterCore.CoordinationStore.constructor | index.js:6 | the store client starts with the given nodes |
| ExporterCore.CoordinationStore.SetData | index.js:119-122 | the existing node's data is replaced; the set of nodes is unchanged |
| ExporterCore.CoordinationStore.Mkdirp | index.js:124-127 | the missing node is created with the data; no other node changes |
| ExporterCore.Producer.constructor | index.js:47 | a new producer has the given settings and an empty queue |
| ExporterCore.Producer.Produce | index.js:141 | `produce` appends exactly one message to the queue |
| ExporterCore.Exporter.constructor | index.js:32-48 | a fresh producer with empty queue and the settings of `Naming.ProducerSettings` for the derived topic; client id is the exporter's name; transactional id is the topic |
| ExporterCore.Exporter.GetLastPosition | index.js:87-109 | the result is `PositionStore.Load` of the checkpoint node: `null` for a missing node, the raw data for a legacy payload |
| ExporterCore.Exporter.SavePosition | index.js:111-130 | the new store is `PositionStore.Save` of the old one, through `setData` or `mkdirp` as `SaveOp` says; the saved position reads back; every other node is unchanged |
| ExporterCore.Exporter.SendData | index.js:132-150 | the queue grows by exactly `Publisher.Send`'s messages (no key) and the outcome is `Send`'s |
| ExporterCore.Exporter.SendDataWithKey | index.js:152-168 | the queue grows by exactly `Publisher.Send`'s keyed messages and the outcome is `Send`'s |
| SendDates.NextKey | examples/send_dates_transaction.js:10-13 | key 1 when there is no position; `k + 1` after the position `{timestamp, key: k}`; no integer key for a legacy buffer |
| SendDates.ColdStartKey | examples/send_dates_transaction.js:10-11 | a cold start numbers the first event 1 |
| SendDates.KeyAfterSave | examples/send_dates_transaction.js:22-24 | after saving a position with key k, the next event gets key k + 1 |
| SendDates.SendEvent | examples/send_dates_transaction.js:16-20 | sending the event queues exactly one message carrying the event and its key; the flush decides the outcome |
| SendDates.PushData | examples/send_dates_transaction.js:5-29 | exactly one keyed message is queued; the position is saved only after a successful send, so a failed send leaves the store unchanged and a successful one makes the checkpoint read back `{timestamp, key}` |

## Left out

- `connect` and `disconnect` (index.js:62-85) are left out. They sequence
  network I/O and wire event listeners.
- The delivery-report handler that throws (index.js:71-75) and the
  `unhandledRejection` handler that exits the process (index.js:18-29) are
  left out. Both are process-level side effects.
- `initTransactions`, `beginTransaction`, `commitTransaction` and
  `abortTransaction` (index.js:170-181) are left out. Each is a one-line
  call into the producer client, and the exporter keeps no state for them.
- Environment parsing (index.js:5-16) is left out. The settings take their
  default values as constants, and `KAFKA_TOPIC` is a parameter.
- `KAFKA_FLUSH_TIMEOUT` is left out. The flush's result is a parameter.
- `metrics.js` is not part of this model. It registers Prometheus metrics
  and holds no exporter logic.
- The internals of the ZooKeeper and Kafka clients are not part of this
  model.
- The model does not capture:
  - the asynchrony between the store's `exists` and `getData` or `setData`
  - the delivery of queued messages
  - the parent nodes that `mkdirp` creates
- UTF-8 encoding and decoding are not modelled.
- `Json.Serialize` and `Json.Parse` cover null, booleans, integers, strings,
  arrays and objects, and nothing else. Floats, `NaN`, `undefined` and
  functions are not modelled. Numbers are unbounded integers, not IEEE
  doubles.
- `Json.Parse` rejects `\u` escapes of surrogate halves. `JSON.parse`
  accepts them.
- `Json.Parse`: keeps every member of an object, in text order. `JSON.parse`
  keeps only the last of repeated names and lists integer-like names (such
  as "2") before the others. Text with either shape decodes differently from
  `getLastPosition`. `savePosition` never writes such text, because
  `JSON.stringify` of a JavaScript object has neither.
- `Publisher.KeyOf`: reading a property of an array, string, number or
  boolean event is modelled as `undefined`, including `length` and indices.
  For an object, a `keyField` naming an inherited property (`constructor`,
  `toString`, ...) is also modelled as `undefined`, where JavaScript gives a
  function.
- `SendDates.PushData`: requires the stored position to be falsy, or an
  object whose `key` is an integer, `null`, `true` or `false` (these give
  `key + 1` as 1 more than the integer, 1, 2 and 1). The source would also
  go on when `+ 1` gives `NaN` (no `key`, a legacy buffer, a position that
  is not an object) or a string (`key` a string, array or object). The model
  does not represent those keys.
- The `send_dates.js` example and the logging and timers of both example
  drivers are left out. The clock is a parameter.
