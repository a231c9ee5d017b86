/** The seven gauges the writer derives from one message-flow statistics record, and the
    statsd line each becomes. Floating-point arithmetic and its six-decimal rendering are
    not modelled: a value is kept as the exact quantity the writer computes, and its text
    comes from a formatter supplied by the caller, except that a value that is exactly
    zero always renders as "0.000000". */
module FlowMetrics {
  import opened Encoding
  import opened MetricNamespace
  import opened Sequences

  /** The part of a message-flow statistics record the writer reads: times in milliseconds. */
  datatype FlowRecord = FlowRecord(
    identity: FlowIdentity,
    totalElapsedTime: int,
    maximumElapsedTime: int,
    minimumElapsedTime: int,
    totalCPUTime: int,
    maximumCPUTime: int,
    minimumCPUTime: int,
    totalInputMessages: int)

  /** The value of one gauge, as the quantity it stands for. */
  datatype Quantity =
    | Seconds(millis: int)                                // millis / 1000
    | MessageRate(messages: int, durationMillis: nat)     // messages / (durationMillis / 1000)
    | SecondsPerMessage(totalMillis: int, messages: int)  // (totalMillis / messages) / 1000
    | Zero                                                // an average over no messages

  /** Quantities that are exactly zero (a rate is never zero: its count is positive). */
  predicate IsZero(q: Quantity) {
    match q
    case Seconds(millis) => millis == 0
    case MessageRate(_, _) => false
    case SecondsPerMessage(totalMillis, _) => totalMillis == 0
    case Zero => true
  }

  datatype Metric = Metric(key: string, value: Quantity)

  /** The gauge names, in the order they are sent. */
  const METRIC_KEYS: seq<string> := [
    "minimumCPUTime", "maximumCPUTime", "minimumElapsedTime", "maximumElapsedTime",
    "averageMessageRate", "averageCPUTimePerMessage", "averageElapsedTimePerMessage"]

  /** The seven gauges of a record over an interval of `duration` milliseconds. */
  function FlowMetricValues(r: FlowRecord, duration: nat): (ms: seq<Metric>)
    ensures |ms| == |METRIC_KEYS| == 7
    ensures forall i :: 0 <= i < |ms| ==> ms[i].key == METRIC_KEYS[i]
    // the four extremes are the record's own, in seconds
    ensures ms[0].value == Seconds(r.minimumCPUTime) && ms[1].value == Seconds(r.maximumCPUTime) &&
            ms[2].value == Seconds(r.minimumElapsedTime) && ms[3].value == Seconds(r.maximumElapsedTime)
    // the three averages of an interval without input messages are exactly zero
    ensures r.totalInputMessages <= 0 ==> forall i :: 4 <= i < 7 ==> ms[i].value == Zero
    // nothing is ever divided by a message count that is not positive
    ensures forall i :: 0 <= i < |ms| ==>
      (ms[i].value.MessageRate? ==> ms[i].value.messages > 0) &&
      (ms[i].value.SecondsPerMessage? ==> ms[i].value.messages > 0)
    // with input messages, the averages are the quotients of the record's totals
    ensures r.totalInputMessages > 0 ==>
      ms[4].value == MessageRate(r.totalInputMessages, duration) &&
      ms[5].value == SecondsPerMessage(r.totalCPUTime, r.totalInputMessages) &&
      ms[6].value == SecondsPerMessage(r.totalElapsedTime, r.totalInputMessages)
  {
    var n := r.totalInputMessages;
    [ Metric(METRIC_KEYS[0], Seconds(r.minimumCPUTime)),
      Metric(METRIC_KEYS[1], Seconds(r.maximumCPUTime)),
      Metric(METRIC_KEYS[2], Seconds(r.minimumElapsedTime)),
      Metric(METRIC_KEYS[3], Seconds(r.maximumElapsedTime)),
      Metric(METRIC_KEYS[4], if n > 0 then MessageRate(n, duration) else Zero),
      Metric(METRIC_KEYS[5], if n > 0 then SecondsPerMessage(r.totalCPUTime, n) else Zero),
      Metric(METRIC_KEYS[6], if n > 0 then SecondsPerMessage(r.totalElapsedTime, n) else Zero) ]
  }

  /** The fixed six-decimal rendering of zero. */
  const ZERO_TEXT: seq<Byte> := Encode("0.000000")

  /** The text of a gauge value: zero renders as "0.000000", anything else as `fmt` says. */
  function ValueText(q: Quantity, fmt: Quantity -> seq<Byte>): (text: seq<Byte>)
    ensures IsZero(q) ==> text == ZERO_TEXT
  {
    if IsZero(q) then ZERO_TEXT else fmt(q)
  }

  const COLON: Byte := 0x3A

  /** `|g`, the statsd gauge type. */
  const GAUGE_SUFFIX: seq<Byte> := [0x7C, 0x67]

  /** One statsd gauge line: the encoded name (the base followed by the key), `:`, the value
      text and `|g`. */
  function MetricLine(base: string, key: string, text: seq<Byte>): seq<Byte> {
    Encode(base + key) + [COLON] + text + GAUGE_SUFFIX
  }

  /** `:` and `|g` are encoded as the separator byte and the gauge suffix. */
  lemma GaugeSyntaxEncoding()
    ensures Encode(":") == [COLON] && Encode("|g") == GAUGE_SUFFIX
  {
  }

  /** A gauge line starts with its encoded name, has `:` right after it and ends with `|g`,
      and it is free of newlines exactly when its name and its value text are. */
  lemma MetricLineShape(base: string, key: string, text: seq<Byte>)
    ensures var line := MetricLine(base, key, text);
      Encode(base + key) <= line &&
      |line| == |Encode(base + key)| + 1 + |text| + 2 &&
      line[|Encode(base + key)|] == ':' as int as Byte &&
      line[|line| - 2..] == ['|' as int as Byte, 'g' as int as Byte] &&
      (NEWLINE in line <==> '\n' in base + key || NEWLINE in text)
  {
    EncodeAscii(base + key, '\n');
  }

  /** The lines of a series of gauges, in order. */
  function FlowLines(base: string, ms: seq<Metric>, fmt: Quantity -> seq<Byte>): seq<seq<Byte>> {
    seq(|ms|, i requires 0 <= i < |ms| => MetricLine(base, ms[i].key, ValueText(ms[i].value, fmt)))
  }

  /** The lines of a record, in the order they are sent: the four extremes in seconds, then
      the three averages, each of them zero when the interval saw no input message. */
  lemma FlowLinesOfRecord(base: string, r: FlowRecord, duration: nat, fmt: Quantity -> seq<Byte>)
    ensures var n := r.totalInputMessages;
      FlowLines(base, FlowMetricValues(r, duration), fmt) ==
      [MetricLine(base, "minimumCPUTime", ValueText(Seconds(r.minimumCPUTime), fmt)),
       MetricLine(base, "maximumCPUTime", ValueText(Seconds(r.maximumCPUTime), fmt)),
       MetricLine(base, "minimumElapsedTime", ValueText(Seconds(r.minimumElapsedTime), fmt)),
       MetricLine(base, "maximumElapsedTime", ValueText(Seconds(r.maximumElapsedTime), fmt)),
       MetricLine(base, "averageMessageRate",
                  ValueText(if n > 0 then MessageRate(n, duration) else Zero, fmt)),
       MetricLine(base, "averageCPUTimePerMessage",
                  ValueText(if n > 0 then SecondsPerMessage(r.totalCPUTime, n) else Zero, fmt)),
       MetricLine(base, "averageElapsedTimePerMessage",
                  ValueText(if n > 0 then SecondsPerMessage(r.totalElapsedTime, n) else Zero, fmt))]
  {
  }

  /** The seven lines of a record appended one at a time after `prior` are its lines
      appended at once. */
  lemma SentFlowLines(prior: seq<seq<Byte>>, base: string, r: FlowRecord, duration: nat,
                      fmt: Quantity -> seq<Byte>)
    ensures var n := r.totalInputMessages;
      prior
        + [MetricLine(base, "minimumCPUTime", ValueText(Seconds(r.minimumCPUTime), fmt))]
        + [MetricLine(base, "maximumCPUTime", ValueText(Seconds(r.maximumCPUTime), fmt))]
        + [MetricLine(base, "minimumElapsedTime", ValueText(Seconds(r.minimumElapsedTime), fmt))]
        + [MetricLine(base, "maximumElapsedTime", ValueText(Seconds(r.maximumElapsedTime), fmt))]
        + [MetricLine(base, "averageMessageRate",
                      ValueText(if n > 0 then MessageRate(n, duration) else Zero, fmt))]
        + [MetricLine(base, "averageCPUTimePerMessage",
                      ValueText(if n > 0 then SecondsPerMessage(r.totalCPUTime, n) else Zero, fmt))]
        + [MetricLine(base, "averageElapsedTimePerMessage",
                      ValueText(if n > 0 then SecondsPerMessage(r.totalElapsedTime, n) else Zero, fmt))]
      == prior + FlowLines(base, FlowMetricValues(r, duration), fmt)
  {
    var n := r.totalInputMessages;
    FlowLinesOfRecord(base, r, duration, fmt);
    Appends7(prior,
      MetricLine(base, "minimumCPUTime", ValueText(Seconds(r.minimumCPUTime), fmt)),
      MetricLine(base, "maximumCPUTime", ValueText(Seconds(r.maximumCPUTime), fmt)),
      MetricLine(base, "minimumElapsedTime", ValueText(Seconds(r.minimumElapsedTime), fmt)),
      MetricLine(base, "maximumElapsedTime", ValueText(Seconds(r.maximumElapsedTime), fmt)),
      MetricLine(base, "averageMessageRate",
                 ValueText(if n > 0 then MessageRate(n, duration) else Zero, fmt)),
      MetricLine(base, "averageCPUTimePerMessage",
                 ValueText(if n > 0 then SecondsPerMessage(r.totalCPUTime, n) else Zero, fmt)),
      MetricLine(base, "averageElapsedTimePerMessage",
                 ValueText(if n > 0 then SecondsPerMessage(r.totalElapsedTime, n) else Zero, fmt)));
  }

  /** Every gauge line is non-empty, and free of newlines when the base, the keys and
      every value text the formatter produces are. */
  lemma FlowLinesClean(base: string, ms: seq<Metric>, fmt: Quantity -> seq<Byte>)
    requires '\n' !in base
    requires forall i :: 0 <= i < |ms| ==> '\n' !in ms[i].key
    requires forall q :: NEWLINE !in fmt(q)
    ensures forall i :: 0 <= i < |ms| ==>
      FlowLines(base, ms, fmt)[i] != [] && NEWLINE !in FlowLines(base, ms, fmt)[i]
  {
    EncodeAscii("0.000000", '\n');
    forall i | 0 <= i < |ms|
      ensures FlowLines(base, ms, fmt)[i] != [] && NEWLINE !in FlowLines(base, ms, fmt)[i]
    {
      MetricLineShape(base, ms[i].key, ValueText(ms[i].value, fmt));
      assert '\n' !in base + ms[i].key;
    }
  }

  /** No gauge name holds a newline. */
  lemma MetricKeysWithoutNewline()
    ensures forall i :: 0 <= i < |METRIC_KEYS| ==> '\n' !in METRIC_KEYS[i]
  {
  }
}
