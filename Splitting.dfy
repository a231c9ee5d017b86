/** Splitting a sequence on a separator element, and its inverse for separator-terminated
    segments. Used for the newline-separated lines of a datagram and for the dotted
    segments of a metric name. */
module Splitting {
  import opened Sequences

  /** The pieces of `s` between occurrences of `sep`; there is always one more piece than
      there are separators, so the empty sequence splits into one empty piece. */
  function Split<T(==)>(s: seq<T>, sep: T): (r: seq<seq<T>>)
    ensures |r| >= 1
    decreases |s|
  {
    if s == [] then [[]]
    else
      var rest := Split(s[1..], sep);
      if s[0] == sep then [[]] + rest
      else [[s[0]] + rest[0]] + rest[1..]
  }

  /** Number of occurrences of `x` in `s`. */
  function Count<T(==)>(s: seq<T>, x: T): nat {
    if s == [] then 0 else (if s[0] == x then 1 else 0) + Count(s[1..], x)
  }

  /** Each segment followed by `sep`, concatenated. */
  function Terminated<T>(segs: seq<seq<T>>, sep: T): seq<T> {
    if segs == [] then [] else segs[0] + [sep] + Terminated(segs[1..], sep)
  }

  /** A sequence without the separator is a single piece. */
  lemma {:induction false} SplitWithoutSeparator<T>(s: seq<T>, sep: T)
    requires sep !in s
    ensures Split(s, sep) == [s]
  {
    if s != [] {
      SplitWithoutSeparator(s[1..], sep);
      assert s == [s[0]] + s[1..];
    }
  }

  /** Splitting around one separator splits each side independently. */
  lemma {:induction false} SplitAround<T>(a: seq<T>, c: seq<T>, sep: T)
    ensures Split(a + [sep] + c, sep) == Split(a, sep) + Split(c, sep)
  {
    var s := a + [sep] + c;
    if a == [] {
      assert s == [sep] + c;
      assert s[1..] == c;
    } else {
      assert s[0] == a[0];
      assert s[1..] == a[1..] + [sep] + c;
      SplitAround(a[1..], c, sep);
      var left, right := Split(a[1..], sep), Split(c, sep);
      if a[0] == sep {
        AppendAssoc([[]], left, right);
      } else {
        assert (left + right)[0] == left[0];
        assert (left + right)[1..] == left[1..] + right;
        AppendAssoc([[a[0]] + left[0]], left[1..], right);
      }
    }
  }

  /** The number of pieces is one more than the number of separators. */
  lemma {:induction false} SplitCount<T>(s: seq<T>, sep: T)
    ensures |Split(s, sep)| == Count(s, sep) + 1
  {
    if s != [] {
      SplitCount(s[1..], sep);
    }
  }

  /** Splitting separator-terminated segments that do not contain the separator gives
      the segments back, followed by one empty piece after the final separator. */
  lemma {:induction false} SplitTerminated<T>(segs: seq<seq<T>>, sep: T)
    requires forall i :: 0 <= i < |segs| ==> sep !in segs[i]
    ensures Split(Terminated(segs, sep), sep) == segs + [[]]
  {
    if segs != [] {
      SplitTerminated(segs[1..], sep);
      SplitWithoutSeparator(segs[0], sep);
      SplitAround(segs[0], Terminated(segs[1..], sep), sep);
      assert segs == [segs[0]] + segs[1..];
    }
  }

  /** Terminating a concatenation of segment lists concatenates the terminated lists. */
  lemma {:induction false} TerminatedAppend<T>(a: seq<seq<T>>, b: seq<seq<T>>, sep: T)
    ensures Terminated(a + b, sep) == Terminated(a, sep) + Terminated(b, sep)
  {
    if a == [] {
      assert a + b == b;
    } else {
      assert (a + b)[0] == a[0];
      assert (a + b)[1..] == a[1..] + b;
      TerminatedAppend(a[1..], b, sep);
    }
  }
}
