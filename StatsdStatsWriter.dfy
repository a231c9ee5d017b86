/** The statistics writer: its two configuration properties (`hostname`, `port`), the
    attribute protocol through which the broker reads and sets them, and `write`, which
    turns one message-flow statistics record into seven statsd gauges sent through the
    line batcher and then flushed. */
module StatsdWriter {
  import opened Encoding
  import opened MetricNamespace
  import opened FlowMetrics
  import Udp

  /** Property names and values travel as UTF-16 code units, and every length in the
      attribute protocol counts code units. */
  type Text16 = seq<CodeUnit>

  const HOSTNAME_NAME: Text16 := Encode16("hostname")
  const PORT_NAME: Text16 := Encode16("port")

  /** The status codes the attribute callbacks report. */
  datatype ReturnCode = Success | BufferTooSmall | AttributeUnknown

  datatype Option<T> = None | Some(value: T)

  /** What lands in the caller's status slot: the code when the caller supplied a slot,
      nothing when the status pointer is null. */
  function Reported(rcSupplied: bool, code: ReturnCode): (rc: Option<ReturnCode>)
    ensures rc.Some? <==> rcSupplied
    ensures rc.Some? ==> rc.value == code
  {
    if rcSupplied then Some(code) else None
  }

  /** The property names, by index. */
  function AttributeNameAt(index: int): (name: Option<Text16>)
    ensures name.Some? <==> 0 <= index <= 1
    ensures index == 0 ==> name == Some(HOSTNAME_NAME)
    ensures index == 1 ==> name == Some(PORT_NAME)
  {
    if index == 0 then Some(HOSTNAME_NAME)
    else if index == 1 then Some(PORT_NAME)
    else None
  }

  /** The buffer-too-small / copy protocol: `value` is copied into the first `|value|`
      places of a caller buffer of `bufferLength` places when it fits, and otherwise nothing
      is written; either way the result is the length of `value`. */
  predicate CopyProtocol(value: Text16, bufferLength: nat, before: Text16, after: Text16,
                         rcSupplied: bool, rc: Option<ReturnCode>, size: nat)
    requires bufferLength <= |before|
  {
    size == |value| && |after| == |before| &&
    if bufferLength < |value| then
      rc == Reported(rcSupplied, BufferTooSmall) && after == before
    else
      rc == Reported(rcSupplied, Success) &&
      after[..|value|] == value && after[|value|..] == before[|value|..]
  }

  /** What `getAttributeName` does with its status pointer as written: the branch for an
      unknown index stores the code without checking the pointer, unlike every other
      branch of the attribute callbacks. */
  datatype StatusWrite = Stored(code: ReturnCode) | Skipped | NullDereference

  function NameStatusAsWritten(index: int, bufferLength: nat, rcSupplied: bool): (w: StatusWrite)
    ensures w == NullDereference <==> !rcSupplied && !(0 <= index <= 1)
  {
    match AttributeNameAt(index)
    case Some(name) =>
      if !rcSupplied then Skipped
      else Stored(if bufferLength < |name| then BufferTooSmall else Success)
    case None =>
      if rcSupplied then Stored(AttributeUnknown) else NullDereference
  }

  /** A null status pointer and an index past the two properties: the store goes through
      the null pointer. */
  lemma UnknownIndexStoresThroughNull()
    ensures NameStatusAsWritten(2, 0, false) == NullDereference
  {
  }

  class StatsdStatsWriter {
    var hostname: Text16
    var port: Text16
    /** The socket to the statsd daemon, present once configured (or injected for tests). */
    var socket: Udp.UdpSocket?

    ghost predicate Valid()
      reads this, socket
    {
      socket != null ==> socket.Valid()
    }

    /** A writer without configuration, using `socket` when one is injected. */
    constructor (socket: Udp.UdpSocket?)
      requires socket != null ==> socket.Valid()
      ensures Valid()
      ensures hostname == [] && port == [] && this.socket == socket
    {
      hostname := [];
      port := [];
      this.socket := socket;
    }

    /** The current value of a property, by name. */
    function AttributeValue(name: Text16): (value: Option<Text16>)
      reads this
      ensures value.Some? <==> name == HOSTNAME_NAME || name == PORT_NAME
      ensures name == HOSTNAME_NAME ==> value == Some(hostname)
      ensures name == PORT_NAME ==> value == Some(port)
    {
      if name == HOSTNAME_NAME then Some(hostname)
      else if name == PORT_NAME then Some(port)
      else None
    }

    /** Copy `value` into the caller's buffer when it fits (std::u16string::copy). */
    static method CopyOut(value: Text16, buffer: array<CodeUnit>, bufferLength: nat, rcSupplied: bool)
      returns (rc: Option<ReturnCode>, size: nat)
      requires bufferLength <= buffer.Length
      modifies buffer
      ensures CopyProtocol(value, bufferLength, old(buffer[..]), buffer[..], rcSupplied, rc, size)
    {
      if bufferLength < |value| {
        rc := Reported(rcSupplied, BufferTooSmall);
        size := |value|;
        return;
      }
      rc := Reported(rcSupplied, Success);
      var i := 0;
      while i < |value|
        invariant 0 <= i <= |value|
        invariant buffer[..i] == value[..i]
        invariant buffer[i..] == old(buffer[i..])
      {
        buffer[i] := value[i];
        i := i + 1;
      }
      size := i;
    }

    /** The name of the property at `index`, by the copy protocol; an unknown index yields
        0 and AttributeUnknown and leaves the buffer alone. */
    method GetAttributeName(index: int, buffer: array<CodeUnit>, bufferLength: nat, rcSupplied: bool)
      returns (rc: Option<ReturnCode>, size: nat)
      requires bufferLength <= buffer.Length
      modifies buffer
      ensures rc.Some? <==> rcSupplied
      ensures AttributeNameAt(index).None? ==>
                rc == Reported(rcSupplied, AttributeUnknown) && size == 0 && buffer[..] == old(buffer[..])
      ensures AttributeNameAt(index).Some? ==>
                CopyProtocol(AttributeNameAt(index).value, bufferLength, old(buffer[..]), buffer[..],
                             rcSupplied, rc, size)
    {
      match AttributeNameAt(index)
      case Some(name) =>
        rc, size := CopyOut(name, buffer, bufferLength, rcSupplied);
      case None =>
        rc := Reported(rcSupplied, AttributeUnknown);
        size := 0;
    }

    /** The value of the property called `name`, by the copy protocol; an unknown name
        yields 0 and AttributeUnknown and leaves the buffer alone. */
    method GetAttribute(name: Text16, buffer: array<CodeUnit>, bufferLength: nat, rcSupplied: bool)
      returns (rc: Option<ReturnCode>, size: nat)
      requires bufferLength <= buffer.Length
      modifies buffer
      ensures AttributeValue(name).None? ==>
                rc == Reported(rcSupplied, AttributeUnknown) && size == 0 && buffer[..] == old(buffer[..])
      ensures AttributeValue(name).Some? ==>
                CopyProtocol(AttributeValue(name).value, bufferLength, old(buffer[..]), buffer[..],
                             rcSupplied, rc, size)
    {
      if name == HOSTNAME_NAME {
        rc, size := CopyOut(hostname, buffer, bufferLength, rcSupplied);
      } else if name == PORT_NAME {
        rc, size := CopyOut(port, buffer, bufferLength, rcSupplied);
      } else {
        rc := Reported(rcSupplied, AttributeUnknown);
        size := 0;
      }
    }

    /** Set a property; then open a new socket when both properties are non-empty, and
        drop the socket otherwise, whichever name was given. */
    method SetAttribute(name: Text16, value: Text16, rcSupplied: bool) returns (rc: Option<ReturnCode>)
      modifies this
      ensures Valid()
      ensures name == HOSTNAME_NAME ==>
                hostname == value && port == old(port) && rc == Reported(rcSupplied, Success)
      ensures name == PORT_NAME ==>
                port == value && hostname == old(hostname) && rc == Reported(rcSupplied, Success)
      ensures name != HOSTNAME_NAME && name != PORT_NAME ==>
                hostname == old(hostname) && port == old(port) && rc == Reported(rcSupplied, AttributeUnknown)
      ensures socket != null <==> hostname != [] && port != []
      ensures socket != null ==>
                fresh(socket) && socket.hostname == hostname && socket.port == port &&
                socket.buffer == [] && socket.sent == [] && socket.datagrams == []
    {
      if name == HOSTNAME_NAME {
        hostname := value;
        rc := Reported(rcSupplied, Success);
      } else if name == PORT_NAME {
        port := value;
        rc := Reported(rcSupplied, Success);
      } else {
        rc := Reported(rcSupplied, AttributeUnknown);
      }
      if hostname != [] && port != [] {
        socket := new Udp.UdpSocket(hostname, port);
      } else {
        socket := null;
      }
    }

    /** Send the seven gauges of `record` and flush, when a socket is present; otherwise do
        nothing. `localHostName` is this machine's host name and `duration` the length of
        the record's interval in milliseconds. */
    method Write(record: FlowRecord, localHostName: string, duration: nat, fmt: Quantity -> seq<Byte>)
      requires Valid()
      modifies socket
      ensures Valid()
      ensures socket != null ==>
                socket.sent == old(socket.sent) +
                  FlowLines(MetricBase(localHostName, record.identity), FlowMetricValues(record, duration), fmt)
      ensures socket != null ==>
                socket.buffer == []
      // the earlier datagrams are kept, and the final flush hands over at least one more
      ensures socket != null ==> old(socket.datagrams) < socket.datagrams
      // once flushed, every line sent so far is in the datagrams handed to the network, in
      // order, provided no line holds a newline
      ensures socket != null && Udp.Clean(old(socket.sent)) &&
              '\n' !in MetricBase(localHostName, record.identity) &&
              (forall q :: NEWLINE !in fmt(q)) ==>
                Udp.Received(socket.datagrams) == socket.sent
    {
      if socket == null {
        return;
      }
      var metricbase := MetricBase(localHostName, record.identity);
      WriteMessageFlowMetrics(metricbase, record, duration, fmt);
      socket.Flush();
      if Udp.Clean(old(socket.sent)) && '\n' !in metricbase && (forall q :: NEWLINE !in fmt(q)) {
        var ms := FlowMetricValues(record, duration);
        MetricKeysWithoutNewline();
        FlowLinesClean(metricbase, ms, fmt);
        Udp.CleanLines(FlowLines(metricbase, ms, fmt));
        Udp.CleanAppend(old(socket.sent), FlowLines(metricbase, ms, fmt));
        Udp.ReceivedSnoc(socket.datagrams, []);
      }
    }

    /** Send the seven gauges of `record`, in their fixed order. */
    method WriteMessageFlowMetrics(metricbase: string, record: FlowRecord, duration: nat,
                                   fmt: Quantity -> seq<Byte>)
      requires socket != null && socket.Valid()
      modifies socket
      ensures socket.Valid()
      ensures socket.sent == old(socket.sent) + FlowLines(metricbase, FlowMetricValues(record, duration), fmt)
      ensures old(socket.datagrams) <= socket.datagrams
    {
      WriteMetric(metricbase, "minimumCPUTime", Seconds(record.minimumCPUTime), fmt);
      WriteMetric(metricbase, "maximumCPUTime", Seconds(record.maximumCPUTime), fmt);
      WriteMetric(metricbase, "minimumElapsedTime", Seconds(record.minimumElapsedTime), fmt);
      WriteMetric(metricbase, "maximumElapsedTime", Seconds(record.maximumElapsedTime), fmt);

      var averageMessageRate := Zero;
      if record.totalInputMessages > 0 {
        averageMessageRate := MessageRate(record.totalInputMessages, duration);
      }
      WriteMetric(metricbase, "averageMessageRate", averageMessageRate, fmt);

      var averageCPUTimePerMessage := Zero;
      if record.totalInputMessages > 0 {
        averageCPUTimePerMessage := SecondsPerMessage(record.totalCPUTime, record.totalInputMessages);
      }
      WriteMetric(metricbase, "averageCPUTimePerMessage", averageCPUTimePerMessage, fmt);

      var averageElapsedTimePerMessage := Zero;
      if record.totalInputMessages > 0 {
        averageElapsedTimePerMessage := SecondsPerMessage(record.totalElapsedTime, record.totalInputMessages);
      }
      WriteMetric(metricbase, "averageElapsedTimePerMessage", averageElapsedTimePerMessage, fmt);
      SentFlowLines(old(socket.sent), metricbase, record, duration, fmt);
    }

    /** Send one gauge line. */
    method WriteMetric(metricbase: string, metricname: string, value: Quantity, fmt: Quantity -> seq<Byte>)
      requires socket != null && socket.Valid()
      modifies socket
      ensures socket.Valid()
      ensures socket.sent == old(socket.sent) + [MetricLine(metricbase, metricname, ValueText(value, fmt))]
      ensures old(socket.datagrams) <= socket.datagrams
    {
      var metric := Encode(metricbase) + Encode(metricname);
      EncodeAppend(metricbase, metricname);
      metric := metric + [COLON];
      metric := metric + ValueText(value, fmt);
      metric := metric + GAUGE_SUFFIX;
      socket.Send(metric);
    }
  }

  /** The names getAttributeName lists are exactly the names getAttribute answers for. */
  lemma AttributeNamesAgree(w: StatsdStatsWriter)
    ensures forall i :: AttributeNameAt(i).Some? ==> w.AttributeValue(AttributeNameAt(i).value).Some?
    ensures forall n :: w.AttributeValue(n).Some? <==> exists i :: AttributeNameAt(i) == Some(n)
  {
    forall n | w.AttributeValue(n).Some? ensures exists i :: AttributeNameAt(i) == Some(n) {
      if n == HOSTNAME_NAME {
        assert AttributeNameAt(0) == Some(n);
      } else {
        assert AttributeNameAt(1) == Some(n);
      }
    }
  }
}
