/** The metric namespace of one message flow: the short host name, the non-empty
    organisational names with every `.` made `_`, and the flow name, each followed by `.`.
    Pure string manipulation on local copies of the record's fields. */
module MetricNamespace {
  import opened Splitting
  import opened Sequences

  /** The organisational identity of a message flow, as the statistics record carries it. */
  datatype FlowIdentity = FlowIdentity(
    brokerLabel: string,
    executionGroupName: string,
    applicationName: string,
    libraryName: string,
    messageFlowName: string)

  /** Index of the first `.` in `s`, or `|s|` when there is none (the "not found" position
      that makes the following substring take the whole text). */
  function FirstDot(s: string): (k: nat)
    ensures k <= |s|
    ensures forall i :: 0 <= i < k ==> s[i] != '.'
    ensures k < |s| ==> s[k] == '.'
  {
    if s == [] then 0
    else if s[0] == '.' then 0
    else 1 + FirstDot(s[1..])
  }

  /** The host name up to, not including, its first `.`: the unqualified host name. */
  function ShortHost(host: string): (r: string)
    ensures r <= host
    ensures '.' !in r
    ensures '.' !in host ==> r == host
    ensures |r| < |host| ==> host[|r|] == '.'
  {
    host[..FirstDot(host)]
  }

  /** A name with every `.` replaced by `_`, so that it stays one segment of the namespace. */
  function Sanitize(s: string): (r: string)
    ensures |r| == |s|
    ensures forall i :: 0 <= i < |s| ==> r[i] == (if s[i] == '.' then '_' else s[i])
    ensures '.' !in r
  {
    if s == [] then [] else [if s[0] == '.' then '_' else s[0]] + Sanitize(s[1..])
  }

  /** Sanitising twice is sanitising once. */
  lemma SanitizeIdempotent(s: string)
    ensures Sanitize(Sanitize(s)) == Sanitize(s)
  {
    var r := Sanitize(s);
    forall i | 0 <= i < |r| ensures Sanitize(r)[i] == r[i] {
      assert r[i] != '.' by { assert r[i] in r; }
    }
  }

  /** A name without `.` is left as it is. */
  lemma SanitizeWithoutDot(s: string)
    requires '.' !in s
    ensures Sanitize(s) == s
  {
  }

  /** `[s]` when `s` is non-empty, nothing otherwise: how an optional segment enters the
      namespace. */
  function Present(s: string): (r: seq<string>)
    ensures |r| <= 1
    ensures r == [] <==> s == []
    ensures forall i :: 0 <= i < |r| ==> r[i] == s
  {
    if s == [] then [] else [s]
  }

  /** The namespace's segments in order: short host, the non-empty sanitised broker label,
      execution group, application and library, then the sanitised flow name. */
  function Segments(host: string, id: FlowIdentity): (segs: seq<string>)
    ensures 2 <= |segs| <= 6
    ensures segs[0] == ShortHost(host)
    ensures segs[|segs| - 1] == Sanitize(id.messageFlowName)
    ensures forall i :: 0 <= i < |segs| ==> '.' !in segs[i]
    // the optional segments between host and flow are never empty
    ensures forall i :: 0 < i < |segs| - 1 ==> segs[i] != []
  {
    [ShortHost(host)]
      + Present(Sanitize(id.brokerLabel)) + Present(Sanitize(id.executionGroupName))
      + Present(Sanitize(id.applicationName)) + Present(Sanitize(id.libraryName))
      + [Sanitize(id.messageFlowName)]
  }

  /** `s.` for a non-empty `s`, nothing otherwise. */
  function Optional(s: string): string {
    if s == [] then [] else s + "."
  }

  /** The prefix of every metric name of a flow, built as the writer builds it: the server
      part, then the flow part, then a final `.`. */
  function MetricBase(host: string, id: FlowIdentity): (base: string)
    ensures |base| > 0 && base[|base| - 1] == '.'
    ensures ShortHost(host) + "." <= base
  {
    var serverPart := ShortHost(host) + "."
      + Optional(Sanitize(id.brokerLabel)) + Optional(Sanitize(id.executionGroupName));
    var flowPart := Optional(Sanitize(id.applicationName)) + Optional(Sanitize(id.libraryName))
      + Sanitize(id.messageFlowName);
    serverPart + flowPart + "."
  }

  /** An optional segment contributes exactly what it contributes as a list of segments. */
  lemma TerminatedPresent(s: string)
    ensures Terminated(Present(s), '.') == Optional(s)
  {
    if s != [] {
      assert Present(s)[1..] == [];
    }
  }

  /** Two optional segments after `segs` add their `s.` texts after those of `segs`. */
  lemma TerminatedOptionals(segs: seq<string>, a: string, b: string)
    ensures Terminated(segs + Present(a) + Present(b), '.') == Terminated(segs, '.') + Optional(a) + Optional(b)
  {
    TerminatedPresent(a);
    TerminatedPresent(b);
    TerminatedAppend(segs, Present(a), '.');
    TerminatedAppend(segs + Present(a), Present(b), '.');
  }

  /** The base is the segments, each terminated by `.`. */
  lemma MetricBaseTerminated(host: string, id: FlowIdentity)
    ensures MetricBase(host, id) == Terminated(Segments(host, id), '.')
  {
    var h, n, e := ShortHost(host), Sanitize(id.brokerLabel), Sanitize(id.executionGroupName);
    var a, l, f := Sanitize(id.applicationName), Sanitize(id.libraryName), Sanitize(id.messageFlowName);
    var server := [h] + Present(n) + Present(e);
    var segs := server + Present(a) + Present(l);
    assert Segments(host, id) == segs + [f];
    assert Terminated([h], '.') == h + "." by { assert [h][1..] == []; }
    assert Terminated([f], '.') == f + "." by { assert [f][1..] == []; }
    TerminatedOptionals([h], n, e);
    TerminatedOptionals(server, a, l);
    TerminatedAppend(segs, [f], '.');
    // regroup serverPart + (A + L + f) + "." as serverPart + A + L + (f + ".")
    var serverPart, optA, optL := h + "." + Optional(n) + Optional(e), Optional(a), Optional(l);
    AppendAssoc(serverPart, optA + optL + f, ".");
    AppendAssoc(optA + optL, f, ".");
    AppendAssoc(serverPart, optA + optL, f + ".");
    AppendAssoc(serverPart, optA, optL);
  }

  /** Splitting the base on `.` gives back the short host, the non-empty sanitised optional
      names, the flow name, and the empty piece after the final `.`. */
  lemma {:induction false} MetricBaseSplit(host: string, id: FlowIdentity)
    ensures Split(MetricBase(host, id), '.') == Segments(host, id) + [""]
  {
    MetricBaseTerminated(host, id);
    SplitTerminated(Segments(host, id), '.');
  }

  /** The base holds one `.` per segment: two for the host and the flow, plus one for each
      non-empty optional name. */
  lemma {:induction false} MetricBaseDots(host: string, id: FlowIdentity)
    ensures Count(MetricBase(host, id), '.') ==
      2 + |Present(id.brokerLabel)| + |Present(id.executionGroupName)|
        + |Present(id.applicationName)| + |Present(id.libraryName)|
  {
    MetricBaseSplit(host, id);
    SplitCount(MetricBase(host, id), '.');
  }
}
