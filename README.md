# statsd statistics writer for IBM Integration Bus — a Dafny model

The plugin receives one message-flow statistics record at a time from the Integration
Bus runtime. It turns each record into seven statsd gauge lines and sends them to a statsd
daemon over UDP, batching lines into datagrams of at most 508 bytes. Its two configuration
properties, `hostname` and `port`, are read and set through the runtime's attribute
callbacks.

This project models four parts of that plugin.

- **The UDP line batcher.** It is modelled in `UdpSocket.dfy` (module `Udp`) as a class
  with the pending byte buffer.
  - The network is replaced by two ghost traces: the datagrams handed to it, and the lines
    passed to `send`.
  - The class invariant states that batching loses and reorders nothing. Split every
    datagram handed to the network, then the pending buffer, on newlines, skipping empty
    datagrams. The result is exactly the lines sent, whenever those lines are non-empty
    and newline-free. UDP itself promises neither delivery nor order, and no receiver is
    modelled.
  - The invariant also states the size bound: when no line is longer than 508 bytes, the
    buffer and every datagram stay within 508 bytes.
- **The metric namespace.** It is modelled in `Namespace.dfy` (module `MetricNamespace`)
  as pure functions.
  - The short host name is the text before the first `.`.
  - Every organisational name has each `.` replaced by `_`.
  - Empty optional names are skipped, and the base ends in `.`.
- **The gauge line format and the seven gauges of a record.** They are modelled in
  `Metrics.dfy` (module `FlowMetrics`). This includes the zero-message guard on the three
  averages.
- **The writer.** It is modelled in `StatsdStatsWriter.dfy` (module `StatsdWriter`) as a
  class with `hostname`, `port` and an optional socket.
  - It covers the attribute callbacks and their buffer-too-small / copy protocol.
  - It covers `write`: nothing happens without a socket. Otherwise it sends the seven
    lines in their fixed order and flushes once. After that, every line sent is in the
    datagrams handed to the network, in order, provided the earlier lines were
    non-empty and newline-free, and neither the namespace nor any formatted value holds a
    newline.
  - Property names and values are UTF-16 code units (the broker's `CciChar`), so every
    length in the attribute protocol counts code units, as the source's `u16string`
    lengths do.

Supporting modules:

- `Encoding.dfy` is UTF-8 encoding, as in section 3 of RFC 3629. It turns the writer's
  text into the bytes of a line.
- `Splitting.dfy` is splitting on a separator, and its inverse for separator-terminated
  segments.
- `Sequences.dfy` holds two concatenation facts.
- `UnicodeExample.dfy` is the unit test's record with a Chinese broker label, checked
  byte for byte.

The broker label is part of the namespace, between the short host name and the execution
group. The code puts it there and the unit test expects it there. Some descriptions of
the namespace omit it; this model follows the code.

Two inputs enter as parameters, since the model cannot compute them:

- the host name of the machine (`localHostName`);
- the length of the record's interval (`duration`, in milliseconds).

A gauge's value is kept as the exact quantity the writer computes (`Quantity`). Its text
comes from a caller-supplied formatter `fmt`. The exception is a value that is exactly
zero, which always renders as `0.000000`.

## Model

| member | source | states |
|---|---|---|
| Udp.Appended | UdpSocket.cpp:45-48 | a line goes into an empty buffer as it is; into a non-empty one after a newline, so the buffer grows by one byte more than the line |
| Udp.AppendedLines | UdpSocket.cpp:45-48 | a non-empty, newline-free line added to the buffer is read back as exactly one more line, after the lines already there |
| Udp.ReceivedAfterAppend | UdpSocket.cpp:41-49 | adding such a line to the pending buffer adds exactly that line, last, to the lines the datagrams handed over and the pending buffer carry |
| Udp.CleanAppend | UdpSocket.cpp:41-49 | two runs of non-empty, newline-free lines in a row form one such run |
| Udp.UdpSocket.constructor | UdpSocket.cpp:27-35 | a new socket has an empty buffer, has sent no datagram and has been given no line; the invariant holds |
| Udp.UdpSocket.Send | UdpSocket.cpp:41-49 | flushes first exactly when buffer + 1 + line exceeds 508 bytes, counting the separator even for an empty buffer; otherwise sends no datagram. The buffer then holds the line alone after a flush, or the old buffer, a newline and the line. A line of 508 bytes or more always flushes and then waits alone in the buffer, at or above the cap. The line is recorded as sent, and the no-loss/order and size invariants are preserved |
| Udp.UdpSocket.Flush | UdpSocket.cpp:51-54 | hands exactly the current buffer to the network as one datagram, even when it is empty (so a second flush sends an empty datagram), and empties the buffer; the invariant is preserved |
| Encoding.EncodeChar | StatsdStatsWriter.cpp:385 | UTF-8 of one character is 1 to 4 bytes; it is one byte, equal to the code, exactly for ASCII; every byte of a longer sequence has its top bit set |
| Encoding.Encode | StatsdStatsWriter.cpp:385 | a text encodes to at least one byte per character, and to nothing exactly when it is empty |
| Encoding.EncodeAppend | StatsdStatsWriter.cpp:385 | encoding the base and the key separately and joining them equals encoding their concatenation |
| Encoding.EncodeAscii | StatsdStatsWriter.cpp:385 | an ASCII byte, such as the newline, occurs in the encoding of a text exactly when its character occurs in the text |
| Encoding.EncodeAsciiText | StatsdStatsWriter.cpp:385 | an ASCII text encodes to one byte per character, each equal to its code |
| Encoding.EncodeChar16 | StatsdStatsWriter.hpp:41-42 | UTF-16 of one character is one unit equal to its code exactly below 0x10000, and otherwise a high surrogate followed by a low surrogate |
| Encoding.Encode16 | StatsdStatsWriter.hpp:41-42 | a text takes between one and two code units per character |
| Encoding.SupplementaryTakesTwoUnits | StatsdStatsWriter.cpp:205-207 | a two-character value with one character outside the Basic Multilingual Plane has length 3 in code units, so the length the copy protocol reports and compares is not the character count |
| MetricNamespace.FirstDot | StatsdStatsWriter.cpp:267 | the position of the first `.`, or the length when there is none, with no `.` before it |
| MetricNamespace.ShortHost | StatsdStatsWriter.cpp:266-267 | the short host name is a prefix of the host name without `.`; it is the whole name when that has no `.`, and otherwise is followed in it by `.` |
| MetricNamespace.Sanitize | StatsdStatsWriter.cpp:268-271 | same length; each `.` becomes `_` and every other character stays; the result has no `.` |
| MetricNamespace.SanitizeIdempotent | StatsdStatsWriter.cpp:268-271 | sanitising twice is sanitising once |
| MetricNamespace.SanitizeWithoutDot | StatsdStatsWriter.cpp:268-271 | a name without `.` is left unchanged |
| MetricNamespace.Segments | StatsdStatsWriter.cpp:272-299 | 2 to 6 segments: the short host name first, the sanitised flow name last, the non-empty optional names in between, none of them holding `.` |
| MetricNamespace.MetricBase | StatsdStatsWriter.cpp:272-299 | the base starts with the short host name and `.`, and ends in `.` |
| MetricNamespace.MetricBaseTerminated | StatsdStatsWriter.cpp:272-299 | the base is exactly the segments, each followed by `.` |
| MetricNamespace.MetricBaseSplit | StatsdStatsWriter.cpp:272-299 | splitting the base on `.` gives the segments back, followed by one empty piece |
| MetricNamespace.MetricBaseDots | StatsdStatsWriter.cpp:272-299 | the base holds 2 + (number of non-empty optional names) dots |
| FlowMetrics.FlowMetricValues | StatsdStatsWriter.cpp:341-378 | seven gauges with the seven keys in their fixed order. The four extremes are the record's minimum and maximum CPU and elapsed times, in seconds. With no input messages the three averages are exactly zero; no count that is not positive is ever divided by; with input messages the averages are the quotients of the record's totals |
| FlowMetrics.ValueText | StatsdStatsWriter.cpp:387 | a value that is exactly zero renders as `0.000000` |
| FlowMetrics.MetricLineShape | StatsdStatsWriter.cpp:385-388 | a line is the encoded base and key, then `:`, then the value text, then `|g`; it holds a newline exactly when the name or the value text does |
| FlowMetrics.FlowLinesClean | StatsdStatsWriter.cpp:385-389 | every gauge line is non-empty, and has no newline when the base, the keys and the formatter's texts have none |
| StatsdWriter.AttributeNamesAgree | StatsdStatsWriter.cpp:174-222 | every name getAttributeName lists at some index is one getAttribute answers for, and every name getAttribute answers for is listed at some index |
| StatsdWriter.StatsdStatsWriter.constructor | StatsdStatsWriter.cpp:114-123 | a new writer has empty properties and uses the injected socket, if any |
| StatsdWriter.StatsdStatsWriter.CopyOut | StatsdStatsWriter.cpp:205-210 | lengths in UTF-16 code units: a value longer than the buffer length gives BUFFER_TOO_SMALL and leaves the buffer alone; otherwise it fills the buffer's prefix, leaves the rest, and gives SUCCESS; either way it returns the value's length |
| StatsdWriter.StatsdStatsWriter.GetAttributeName | StatsdStatsWriter.cpp:174-194 | the copy protocol on the property name at the index; an unknown index gives 0 and ATTRIBUTE_UNKNOWN with the buffer untouched; a status is stored only in a supplied slot |
| StatsdWriter.StatsdStatsWriter.GetAttribute | StatsdStatsWriter.cpp:203-222 | the copy protocol on the named property's value; an unknown name gives 0 and ATTRIBUTE_UNKNOWN with the buffer untouched |
| StatsdWriter.StatsdStatsWriter.SetAttribute | StatsdStatsWriter.cpp:229-244 | the named property is set and the other one kept; an unknown name changes neither and gives ATTRIBUTE_UNKNOWN; afterwards a socket exists exactly when both properties are non-empty, and it is a new, empty one for them |
| StatsdWriter.StatsdStatsWriter.Write | StatsdStatsWriter.cpp:251-319 | without a socket nothing changes. With one, the seven lines of the record under its namespace are sent in order, the earlier datagrams are kept and the final flush adds at least one, and the buffer is left empty. If the lines sent before were non-empty and newline-free, and neither the namespace nor the formatter's texts hold a newline, every line sent is then in the datagrams handed to the network, in order |
| StatsdWriter.StatsdStatsWriter.WriteMessageFlowMetrics | StatsdStatsWriter.cpp:341-378 | sends exactly the seven lines of the record, in order, after what was sent before |
| StatsdWriter.StatsdStatsWriter.WriteMetric | StatsdStatsWriter.cpp:383-390 | sends exactly one line: the encoded base and key, `:`, the value text and `|g` |
| StatsdWriter.NameStatusAsWritten | StatsdStatsWriter.cpp:174-193 | as written, the unknown-index branch stores through the status pointer exactly when it is null |
| StatsdWriter.UnknownIndexStoresThroughNull | StatsdStatsWriter.cpp:190-192 | index 2 with no status slot stores through a null pointer |
| UnicodeExample.ChineseLabelEncoding | test/StatsdStatsWriter_UnitTest.cpp:140-149 | the nine characters of the test's broker label encode to the test's 27 UTF-8 bytes |
| UnicodeExample.UnicodeLabelBase | test/StatsdStatsWriter_UnitTest.cpp:151-155 | the base of the test's flow is the short host name, the label, then `b`, `f`, `h` and `d`, each followed by `.` |
| UnicodeExample.UnicodeLabelName | test/StatsdStatsWriter_UnitTest.cpp:151-155 | the first gauge's name for the test's flow is `<short host>.<label>.b.f.h.d.minimumCPUTime` |
| UnicodeExample.UnicodeLabelFirstLine | test/StatsdStatsWriter_UnitTest.cpp:151-155 | the first line sent for the test's all-zero record is the bytes of `<short host>.<label>.b.f.h.d.minimumCPUTime:0.000000|g`, with the label as its UTF-8 bytes |

## Left out

- `calculateMillis` (StatsdStatsWriter.cpp:324-336) is left out. It depends on `mktime`,
  the time zone and a floating-point seconds field, so the interval length is a
  parameter. The unsigned subtraction at line 306 wraps when the end precedes the start;
  the model takes the wrapped value as given.
- The floating-point arithmetic of the gauges and their six-decimal `std::to_string`
  rendering are left out. A gauge keeps its exact quantity, and the formatter parameter
  gives its text, except for exactly zero.
  - The infinite rate of a zero-length interval is whatever the formatter renders.
- `host_name()` is not modelled; the host name is a parameter.
- Decoding the record's UTF-16 names into characters is not modelled. The namespace is
  built from sequences of Unicode scalar values, so surrogate pairs are already combined.
  Property names and values, whose lengths the attribute protocol reports, are kept as
  UTF-16 code units. The byte-to-byte conversion in
  `flush` (UdpSocket.cpp:52) is taken as the identity on the already-encoded buffer.
- The batcher takes the header's byte-string `send` (UdpSocket.hpp:27), so lengths are
  byte counts. The definition at UdpSocket.cpp:41 takes UTF-16 text instead.
- The address resolution, socket opening and `send_to` (UdpSocket.cpp:31-34, 52) become
  the ghost datagram trace. Resolution failures and send errors are not modelled.
- Plugin glue is left out: the C callback shims, the function table,
  `csiCreateStatsWriter`, its failure exception and logging (StatsdStatsWriter.cpp:23-109 and 125-157).
  The constructor models only the socket injection.
- Udp.UdpSocket.Send: the size bound is stated for lines of at most 508 bytes. An
  oversized line is stated only through the post-state of the call that sends it.
- StatsdWriter.StatsdStatsWriter.Write: the datagrams a write hands over are not listed
  one by one; in particular the number of automatic flushes inside the seven sends is not
  stated, only that the earlier datagrams are kept, at least one is added, and together
  with the others they carry every line in order.
- StatsdWriter.StatsdStatsWriter.GetAttributeName: models the evidently intended guarded
  status store; the code as written is modelled by StatsdWriter.NameStatusAsWritten (see
  Findings).

## Findings

| source | as written | input that shows it | evidently intended | confidence | as-written member | corrected member |
|---|---|---|---|---|---|---|
| StatsdStatsWriter.cpp:190-192 | the `default` branch of `getAttributeName` stores ATTRIBUTE_UNKNOWN through `rc` without checking it for null, unlike every other status store in the attribute callbacks | index 2 with a null status pointer | store the status only when `rc` is non-null, as at lines 178, 181, 185, 188 and 219 | not executed | StatsdWriter.NameStatusAsWritten, StatsdWriter.UnknownIndexStoresThroughNull | StatsdWriter.StatsdStatsWriter.GetAttributeName |
