/** The UDP line batcher: statsd lines are collected in a byte buffer, newline-separated,
    and the buffer is sent as one datagram whenever the next line would push it past the
    safe UDP payload size, and on an explicit flush. The socket itself is replaced by an
    append-only trace of the datagrams sent. */
module Udp {
  import opened Encoding
  import opened Splitting
  import opened Sequences

  /** The largest UDP payload considered safe to send unfragmented across the internet. */
  const UDP_MAX_PACKET_SIZE: nat := 508

  /** Sending `data` with `buffer` pending flushes first: the check counts the newline
      separator even when the buffer is empty and no separator will be written. */
  predicate Overflows(buffer: seq<Byte>, data: seq<Byte>) {
    |buffer| + 1 + |data| > UDP_MAX_PACKET_SIZE
  }

  /** The buffer after `data` is added to it: a newline goes in front only when the buffer
      already holds something. */
  function Appended(buffer: seq<Byte>, data: seq<Byte>): (r: seq<Byte>)
    ensures buffer == [] ==> r == data
    ensures buffer != [] ==> |r| == |buffer| + 1 + |data|
  {
    if buffer == [] then data else buffer + [NEWLINE] + data
  }

  /** Whatever was pending, a clean line added to it is read back as one more line. */
  lemma AppendedLines(buffer: seq<Byte>, data: seq<Byte>)
    requires data != [] && NEWLINE !in data
    ensures Lines(Appended(buffer, data)) == Lines(buffer) + [data]
  {
    SplitWithoutSeparator(data, NEWLINE);
    if buffer != [] {
      SplitAround(buffer, data, NEWLINE);
    }
  }

  /** The lines one datagram carries: none in an empty datagram, otherwise its
      newline-separated pieces. */
  function Lines(d: seq<Byte>): seq<seq<Byte>> {
    if d == [] then [] else Split(d, NEWLINE)
  }

  /** The lines a series of datagrams carries, in order. */
  function Received(ds: seq<seq<Byte>>): seq<seq<Byte>> {
    if ds == [] then [] else Received(ds[..|ds| - 1]) + Lines(ds[|ds| - 1])
  }

  /** Lines that survive batching unchanged: non-empty and free of the separator. */
  predicate Clean(lines: seq<seq<Byte>>) {
    lines == [] ||
    (Clean(lines[..|lines| - 1]) && lines[|lines| - 1] != [] && NEWLINE !in lines[|lines| - 1])
  }

  /** A series of non-empty, newline-free lines is clean. */
  lemma {:induction false} CleanLines(lines: seq<seq<Byte>>)
    requires forall i :: 0 <= i < |lines| ==> lines[i] != [] && NEWLINE !in lines[i]
    ensures Clean(lines)
    decreases |lines|
  {
    if lines != [] {
      CleanLines(lines[..|lines| - 1]);
    }
  }

  /** Clean lines followed by clean lines are clean. */
  lemma {:induction false} CleanAppend(a: seq<seq<Byte>>, b: seq<seq<Byte>>)
    requires Clean(a) && Clean(b)
    ensures Clean(a + b)
    decreases |b|
  {
    if b == [] {
      assert a + b == a;
    } else {
      var n := |b| - 1;
      assert (a + b)[..|a + b| - 1] == a + b[..n];
      assert (a + b)[|a + b| - 1] == b[n];
      CleanAppend(a, b[..n]);
    }
  }

  /** Lines each of which fits in one datagram. */
  predicate Fit(lines: seq<seq<Byte>>) {
    lines == [] || (Fit(lines[..|lines| - 1]) && |lines[|lines| - 1]| <= UDP_MAX_PACKET_SIZE)
  }

  /** One more datagram adds its lines after those of the earlier ones. */
  lemma ReceivedSnoc(ds: seq<seq<Byte>>, d: seq<Byte>)
    ensures Received(ds + [d]) == Received(ds) + Lines(d)
  {
    assert (ds + [d])[..|ds|] == ds;
  }

  /** Adding a clean line to the pending buffer adds exactly that line, last, to the lines
      the datagrams and the buffer carry. */
  lemma ReceivedAfterAppend(ds: seq<seq<Byte>>, pending: seq<Byte>, data: seq<Byte>)
    requires data != [] && NEWLINE !in data
    ensures Received(ds + [Appended(pending, data)]) == Received(ds + [pending]) + [data]
  {
    ReceivedSnoc(ds, pending);
    ReceivedSnoc(ds, Appended(pending, data));
    AppendedLines(pending, data);
    AppendAssoc(Received(ds), Lines(pending), [data]);
  }

  class UdpSocket {
    /** Destination, as configured; resolving it is not part of this model. */
    const hostname: seq<CodeUnit>
    const port: seq<CodeUnit>

    /** Bytes waiting to be sent (iBuffer). */
    var buffer: seq<Byte>

    /** Every datagram handed to the network so far, oldest first. */
    ghost var datagrams: seq<seq<Byte>>

    /** Every line passed to Send so far, oldest first. */
    ghost var sent: seq<seq<Byte>>

    /** For clean lines, the datagrams handed to the network followed by the pending buffer
        hold exactly the lines sent, in order; for lines that fit, nothing handed over or
        pending exceeds the cap. Both hold after every operation. */
    ghost predicate Valid()
      reads this
    {
      (Clean(sent) ==> Received(datagrams + [buffer]) == sent) &&
      (Fit(sent) ==> |buffer| <= UDP_MAX_PACKET_SIZE &&
                     forall i :: 0 <= i < |datagrams| ==> |datagrams[i]| <= UDP_MAX_PACKET_SIZE)
    }

    constructor (hostname: seq<CodeUnit>, port: seq<CodeUnit>)
      ensures Valid()
      ensures this.hostname == hostname && this.port == port
      ensures buffer == [] && datagrams == [] && sent == []
    {
      this.hostname := hostname;
      this.port := port;
      buffer := [];
      datagrams := [];
      sent := [];
      ReceivedSnoc([], []);
    }

    /** Queue one line, flushing first when it would not fit behind what is pending. */
    method Send(data: seq<Byte>)
      requires Valid()
      modifies this
      ensures Valid()
      ensures sent == old(sent) + [data]
      ensures Overflows(old(buffer), data) ==>
                datagrams == old(datagrams) + [old(buffer)] && buffer == data
      ensures !Overflows(old(buffer), data) ==>
                datagrams == old(datagrams) && buffer == Appended(old(buffer), data)
      // a line of 508 bytes or more always flushes what was pending and then waits alone
      // in the buffer, at or above the cap
      ensures |data| >= UDP_MAX_PACKET_SIZE ==>
                datagrams == old(datagrams) + [old(buffer)] && buffer == data
    {
      if |buffer| + 1 + |data| > UDP_MAX_PACKET_SIZE {
        Flush();
      }
      ghost var pending := buffer;
      if buffer != [] {
        buffer := buffer + [NEWLINE];
      }
      buffer := buffer + data;
      assert buffer == Appended(pending, data);
      ghost var before := sent;
      sent := sent + [data];
      assert sent[..|sent| - 1] == before;
      if Clean(sent) {
        ReceivedAfterAppend(datagrams, pending, data);
      }
    }

    /** Hand the whole buffer to the network as one datagram, even when it is empty, and
        empty the buffer. */
    method Flush()
      requires Valid()
      modifies this
      ensures Valid()
      ensures datagrams == old(datagrams) + [old(buffer)]
      ensures buffer == [] && sent == old(sent)
    {
      datagrams := datagrams + [buffer];
      buffer := [];
      ReceivedSnoc(old(datagrams), []);
      ReceivedSnoc(old(datagrams), old(buffer));
    }
  }
}
