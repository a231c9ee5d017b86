/** The unit test's record with a broker label outside ASCII: the first gauge line the
    writer sends for it, as bytes. */
module UnicodeExample {
  import opened Encoding
  import opened MetricNamespace
  import opened FlowMetrics
  import opened Sequences

  /** A broker label in simplified Chinese, in three parts of three characters, and the
      UTF-8 encoding of each part. */
  const LABEL_HEAD: string := "\U{4ED6}\U{4EEC}\U{4E3A}"
  const LABEL_MIDDLE: string := "\U{4EC0}\U{4E48}\U{4E0D}"
  const LABEL_TAIL: string := "\U{8BF4}\U{4E2D}\U{6587}"
  const LABEL_HEAD_UTF8: seq<Byte> := [0xE4, 0xBB, 0x96, 0xE4, 0xBB, 0xAC, 0xE4, 0xB8, 0xBA]
  const LABEL_MIDDLE_UTF8: seq<Byte> := [0xE4, 0xBB, 0x80, 0xE4, 0xB9, 0x88, 0xE4, 0xB8, 0x8D]
  const LABEL_TAIL_UTF8: seq<Byte> := [0xE8, 0xAF, 0xB4, 0xE4, 0xB8, 0xAD, 0xE6, 0x96, 0x87]
  const CHINESE_LABEL: string := LABEL_HEAD + LABEL_MIDDLE + LABEL_TAIL
  const CHINESE_LABEL_UTF8: seq<Byte> := LABEL_HEAD_UTF8 + LABEL_MIDDLE_UTF8 + LABEL_TAIL_UTF8

  /** Each three-character part encodes to its nine bytes. */
  lemma LabelHeadEncoding() ensures Encode(LABEL_HEAD) == LABEL_HEAD_UTF8 {}
  lemma LabelMiddleEncoding() ensures Encode(LABEL_MIDDLE) == LABEL_MIDDLE_UTF8 {}
  lemma LabelTailEncoding() ensures Encode(LABEL_TAIL) == LABEL_TAIL_UTF8 {}

  /** Each character of the label encodes to three bytes. */
  lemma ChineseLabelEncoding()
    ensures Encode(CHINESE_LABEL) == CHINESE_LABEL_UTF8
  {
    LabelHeadEncoding();
    LabelMiddleEncoding();
    LabelTailEncoding();
    EncodeAppend(LABEL_HEAD + LABEL_MIDDLE, LABEL_TAIL);
    EncodeAppend(LABEL_HEAD, LABEL_MIDDLE);
  }

  /** The metric name of the first gauge of a flow under that label, in execution group
      "b", application "f" and library "h", called "d". */
  lemma UnicodeLabelBase(host: string)
    ensures MetricBase(host, FlowIdentity(CHINESE_LABEL, "b", "f", "h", "d")) ==
      ShortHost(host) + "." + CHINESE_LABEL + "." + "b." + "f.h.d" + "."
  {
    assert '.' !in CHINESE_LABEL;
    SanitizeWithoutDot(CHINESE_LABEL);
    AppendAssoc(ShortHost(host) + ".", CHINESE_LABEL, ".");
  }

  /** The pieces of the first metric name after the label, regrouped as one text. */
  lemma FirstNameRegrouped(p: string)
    ensures p + "." + "b." + "f.h.d" + "." + "minimumCPUTime" == p + ".b.f.h.d.minimumCPUTime"
  {
    AppendAssoc(p + ".", "b.", "f.h.d");
    AppendAssoc(p, ".", "b." + "f.h.d");
    AppendAssoc(p, "." + ("b." + "f.h.d"), ".");
    AppendAssoc(p, "." + ("b." + "f.h.d") + ".", "minimumCPUTime");
  }

  lemma UnicodeLabelName(host: string)
    ensures MetricBase(host, FlowIdentity(CHINESE_LABEL, "b", "f", "h", "d")) + "minimumCPUTime" ==
      ShortHost(host) + "." + CHINESE_LABEL + ".b.f.h.d.minimumCPUTime"
  {
    UnicodeLabelBase(host);
    FirstNameRegrouped(ShortHost(host) + "." + CHINESE_LABEL);
  }

  /** A record of that flow with every counter zero: its first line is the short host
      name, `.`, the label, the other names and the first gauge's value rendered as
      "0.000000", and the label is sent as its UTF-8 bytes. */
  lemma UnicodeLabelFirstLine(host: string, duration: nat, fmt: Quantity -> seq<Byte>)
    ensures var r := FlowRecord(FlowIdentity(CHINESE_LABEL, "b", "f", "h", "d"), 0, 0, 0, 0, 0, 0, 0);
      FlowLines(MetricBase(host, r.identity), FlowMetricValues(r, duration), fmt)[0] ==
        Encode(ShortHost(host) + "." + CHINESE_LABEL + ".b.f.h.d.minimumCPUTime:0.000000|g")
    ensures Encode(CHINESE_LABEL) == CHINESE_LABEL_UTF8
  {
    var name := ShortHost(host) + "." + CHINESE_LABEL + ".b.f.h.d.minimumCPUTime";
    UnicodeLabelName(host);
    assert name + ":" + "0.000000" + "|g" ==
      ShortHost(host) + "." + CHINESE_LABEL + ".b.f.h.d.minimumCPUTime:0.000000|g";
    EncodeAppend4(name, ":", "0.000000", "|g");
    GaugeSyntaxEncoding();
    ChineseLabelEncoding();
  }
}
