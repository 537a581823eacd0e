/** Names an exporter derives from its own name: the topic it publishes to,
    the coordination-store node holding its checkpoint, and the settings its
    producer is created with. */
module Naming {
  import opened Wrappers
  import opened Text

  /** `topic_name`: the `KAFKA_TOPIC` override when it is set to a non-empty
      string (an empty string is falsy for `||`), otherwise the exporter name
      with its first "-exporter" removed and then its first "-" turned into
      "_". */
  function TopicName(exporterName: string, topicOverride: Option<string>): (topic: string)
    ensures topicOverride.None? || topicOverride == Some("") ==> |topic| <= |exporterName|
  {
    if topicOverride.Some? && topicOverride.value != "" then topicOverride.value
    else ReplaceFirst(ReplaceFirst(exporterName, "-exporter", ""), "-", "_")
  }

  /** `zookeeperPositionNode` */
  function PositionNode(exporterName: string, topic: string): string
  {
    "/" + exporterName + "/" + topic + "/block-number"
  }

  /** A value of the producer's configuration map. */
  datatype Setting = Text(s: string) | Number(n: int) | Flag(b: bool)

  /** Defaults of the settings the environment may override. */
  const KafkaUrl: string := "localhost:9092"
  const CompressionCodec: string := "lz4"
  const BufferingMaxMessages: int := 150000
  const MessageMaxBytes: int := 10485760

  /** The settings every producer gets. */
  function BaseSettings(exporterName: string): map<string, Setting>
  {
    map[
      "metadata.broker.list" := Text(KafkaUrl),
      "client.id" := Text(exporterName),
      "compression.codec" := Text(CompressionCodec),
      "queue.buffering.max.messages" := Number(BufferingMaxMessages),
      "message.max.bytes" := Number(MessageMaxBytes),
      "dr_cb" := Flag(true)
    ]
  }

  /** `producer_settings`: the base settings, plus a transactional id equal to
      the topic name and idempotence, in transactional mode only. */
  function ProducerSettings(exporterName: string, transactional: bool, topic: string): (settings: map<string, Setting>)
    ensures forall k | k in BaseSettings(exporterName) :: k in settings && settings[k] == BaseSettings(exporterName)[k]
    ensures ("transactional.id" in settings) == transactional
    ensures ("enable.idempotence" in settings) == transactional
    ensures transactional ==> settings["transactional.id"] == Text(topic)
    ensures transactional ==> settings["enable.idempotence"] == Flag(true)
    ensures settings.Keys == BaseSettings(exporterName).Keys
                             + (if transactional then {"transactional.id", "enable.idempotence"} else {})
  {
    var base := BaseSettings(exporterName);
    if transactional then
      base["transactional.id" := Text(topic)]["enable.idempotence" := Flag(true)]
    else base
  }

  /** Transactional mode adds exactly the two transactional settings. */
  lemma TransactionalOnlyAdds(exporterName: string, topic: string)
    ensures ProducerSettings(exporterName, true, topic) - {"transactional.id", "enable.idempotence"}
         == ProducerSettings(exporterName, false, topic)
  {
  }

  /** A non-empty override always wins. */
  lemma OverrideWins(exporterName: string, topic: string)
    requires topic != ""
    ensures TopicName(exporterName, Some(topic)) == topic
  {
  }

  /** Without an override, "<base>-exporter" publishes to "<base>" when the
      base has no hyphen. */
  lemma TopicOfSuffixedName(base: string, topicOverride: Option<string>)
    requires Lacks(base, '-')
    requires topicOverride.None? || topicOverride == Some("")
    ensures TopicName(base + "-exporter", topicOverride) == base
  {
    var name := base + "-exporter";
    assert name[|base|..|base| + 9] == "-exporter";
    forall k: nat | k < |base| ensures !OccursAt(name, "-exporter", k) {
      assert name[k] == base[k];
    }
    assert IsFirstOccurrence(name, "-exporter", |base|);
    assert name[..|base|] + "" + name[|base| + 9..] == base;
    ReplaceAbsent(base, "-", "_");
  }

  /** Without an override, a name without hyphens is its own topic. */
  lemma TopicOfPlainName(exporterName: string)
    requires Lacks(exporterName, '-')
    ensures TopicName(exporterName, None) == exporterName
  {
    ReplaceAbsent(exporterName, "-exporter", "");
    ReplaceAbsent(exporterName, "-", "_");
  }

  /** An exporter named "acme-exporter" publishes to "acme". */
  lemma AcmeTopic()
    ensures TopicName("acme-exporter", None) == "acme"
  {
    var base := "acme";
    assert base + "-exporter" == "acme-exporter";
    TopicOfSuffixedName(base, None);
  }

  /** Without an override, "<a>-<b>-exporter" publishes to "<a>_<b>": only the
      first hyphen becomes an underscore (when `a` and `b` have no hyphen and
      `b` does not itself start with "exporter"). */
  lemma TopicOfTwoPartName(a: string, b: string)
    requires Lacks(a, '-') && Lacks(b, '-')
    requires !StartsWith(b, "exporter")
    ensures TopicName(a + "-" + b + "-exporter", None) == a + "_" + b
  {
    StripExporterSuffix(a, b);
    ReplaceFirstHyphen(a, b);
  }

  /** The first "-exporter" in "<a>-<b>-exporter" is its suffix. */
  lemma StripExporterSuffix(a: string, b: string)
    requires Lacks(a, '-') && Lacks(b, '-')
    requires !StartsWith(b, "exporter")
    ensures ReplaceFirst(a + "-" + b + "-exporter", "-exporter", "") == a + "-" + b
  {
    var name := a + "-" + b + "-exporter";
    var at := |a| + 1 + |b|;
    assert name[at..at + 9] == "-exporter";
    forall k: nat | k < at ensures !OccursAt(name, "-exporter", k) {
      if k < |a| {
        assert name[k] == a[k];
        NoPatternAt(name, "-exporter", k);
      } else if k > |a| {
        assert name[k] == b[k - |a| - 1];
        NoPatternAt(name, "-exporter", k);
      } else {
        NotExporterAfterHyphen(a, b);
      }
    }
    assert IsFirstOccurrence(name, "-exporter", at);
    assert name[..at] + "" + name[at + 9..] == a + "-" + b;
  }

  /** A pattern cannot occur where its first character is missing. */
  lemma NoPatternAt(s: string, pat: string, k: nat)
    requires k < |s| && |pat| > 0 && s[k] != pat[0]
    ensures !OccursAt(s, pat, k)
  {
    if k + |pat| <= |s| {
      assert s[k..k + |pat|][0] == s[k];
    }
  }

  /** The hyphen after `a` does not start "-exporter" unless `b` starts with
      "exporter". */
  lemma NotExporterAfterHyphen(a: string, b: string)
    requires Lacks(b, '-') && !StartsWith(b, "exporter")
    ensures !OccursAt(a + "-" + b + "-exporter", "-exporter", |a|)
  {
    var name := a + "-" + b + "-exporter";
    var k := |a|;
    var after := b + "-exporter";
    assert name[k + 1..k + 9] == name[k..k + 9][1..];
    assert name[k + 1..k + 9] == after[..8];
    if |b| >= 8 {
      assert after[..8] == b[..8];
    } else {
      assert after[|b|] == '-';
    }
  }

  /** The first hyphen of "<a>-<b>" is the one after `a`. */
  lemma ReplaceFirstHyphen(a: string, b: string)
    requires Lacks(a, '-')
    ensures ReplaceFirst(a + "-" + b, "-", "_") == a + "_" + b
  {
    var stripped := a + "-" + b;
    assert stripped[|a|] == '-';
    forall k: nat | k < |a| ensures !OccursAt(stripped, "-", k) {
      assert stripped[k] == a[k];
    }
    assert IsFirstOccurrence(stripped, "-", |a|);
    assert stripped[..|a|] + "_" + stripped[|a| + 1..] == a + "_" + b;
  }

  /** Different exporters, or different topics, never share a checkpoint
      node, as long as neither name contains a "/". */
  lemma PositionNodeInjective(name1: string, topic1: string, name2: string, topic2: string)
    requires Lacks(name1, '/') && Lacks(name2, '/')
    requires PositionNode(name1, topic1) == PositionNode(name2, topic2)
    ensures name1 == name2 && topic1 == topic2
  {
    var p := PositionNode(name1, topic1);
    assert p == "/" + name2 + "/" + topic2 + "/block-number";
    assert p[1 + |name1|] == '/' && p[1 + |name2|] == '/';
    assert forall k | 0 <= k < |name1| :: p[1 + k] == name1[k];
    assert forall k | 0 <= k < |name2| :: p[1 + k] == name2[k];
    assert |name1| == |name2|;
    assert name1 == p[1..1 + |name1|] == name2;
    assert |topic1| == |topic2|;
    assert topic1 == p[2 + |name1|..2 + |name1| + |topic1|] == topic2;
  }
}
