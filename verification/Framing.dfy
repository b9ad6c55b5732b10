/** DNS messages on a TCP byte stream: each is preceded by its length as two bytes
    (section 4.2.2 of RFC 1035). */
module Framing {
  import opened Bytes

  function Frame(m: seq<byte>): seq<byte> {
    [Hi(|m|), Lo(|m|)] + m
  }

  function FrameAll(ms: seq<seq<byte>>): seq<byte> {
    if ms == [] then [] else Frame(ms[0]) + FrameAll(ms[1..])
  }

  lemma {:induction false} FrameAllConcat(ms: seq<seq<byte>>, ns: seq<seq<byte>>)
    ensures FrameAll(ms + ns) == FrameAll(ms) + FrameAll(ns)
  {
    if ms == [] {
      assert ms + ns == ns;
    } else {
      assert (ms + ns)[1..] == ms[1..] + ns;
      FrameAllConcat(ms[1..], ns);
    }
  }

  lemma FrameAllAppend(ms: seq<seq<byte>>, m: seq<byte>)
    ensures FrameAll(ms + [m]) == FrameAll(ms) + Frame(m)
  {
    FrameAllConcat(ms, [m]);
    assert FrameAll([m]) == Frame(m) + FrameAll([m][1..]);
  }

  /** What a reader of the whole stream makes of it: the complete non-empty frames, in order,
      and the rest. A frame of length zero stops the reader. */
  function Deframe(s: seq<byte>): (r: (seq<seq<byte>>, seq<byte>))
    decreases |s|
  {
    if |s| < 2 then ([], s)
    else
      var len := Word(s[0], s[1]);
      if len == 0 || |s| < 2 + len then ([], s)
      else
        var (ms, rest) := Deframe(s[2 + len..]);
        ([s[2..2 + len]] + ms, rest)
  }

  /** The start of a frame of which at least one byte is missing, or the two bytes of an empty frame. */
  predicate Unfinished(s: seq<byte>) {
    |s| < 2 || |s| < 2 + Word(s[0], s[1]) || (|s| == 2 && Word(s[0], s[1]) == 0)
  }

  /** Messages that a reader can tell apart: not empty, and short enough for two length bytes. */
  predicate Proper(ms: seq<seq<byte>>) {
    forall i :: 0 <= i < |ms| ==> 0 < |ms[i]| < 0x1_0000
  }

  lemma DeframeStep(m: seq<byte>, tail: seq<byte>)
    requires 0 < |m| < 0x1_0000
    ensures Deframe(Frame(m) + tail) == ([m] + Deframe(tail).0, Deframe(tail).1)
  {
    WordOfHalves(|m|);
    var s := Frame(m) + tail;
    assert s == [Hi(|m|), Lo(|m|)] + (m + tail);
    assert s[2..2 + |m|] == m && s[2 + |m|..] == tail;
  }

  lemma DeframeRest(rest: seq<byte>)
    requires Unfinished(rest)
    ensures Deframe(rest) == ([], rest)
  {
  }

  /** Splitting into messages and rest is exact: any such split is the reader's. */
  lemma {:induction false} DeframeExact(ms: seq<seq<byte>>, rest: seq<byte>)
    requires Proper(ms)
    requires Unfinished(rest)
    ensures Deframe(FrameAll(ms) + rest).0 == ms
    ensures Deframe(FrameAll(ms) + rest).1 == rest
  {
    hide Deframe;
    if ms == [] {
      DeframeRest(rest);
      assert FrameAll(ms) + rest == rest;
    } else {
      var tail := FrameAll(ms[1..]) + rest;
      DeframeExact(ms[1..], rest);
      DeframeStep(ms[0], tail);
      assert FrameAll(ms) + rest == Frame(ms[0]) + tail;
      assert [ms[0]] + ms[1..] == ms;
    }
  }

  /** Whatever prefix of a framed stream has been written, its reader has received a prefix of
      the messages. */
  lemma {:induction false} PrefixDeframes(ms: seq<seq<byte>>, w: seq<byte>)
    requires Proper(ms)
    requires w <= FrameAll(ms)
    ensures Deframe(w).0 <= ms
  {
    if |w| >= 2 {
      var m := ms[0];
      var tail := FrameAll(ms[1..]);
      WordOfHalves(|m|);
      assert FrameAll(ms) == [Hi(|m|), Lo(|m|)] + (m + tail);
      assert w[0] == Hi(|m|) && w[1] == Lo(|m|);
      assert w[2..] <= m + tail;
      if |w| >= 2 + |m| {
        var rest := w[2 + |m|..];
        assert w[2..2 + |m|] == m;
        assert rest == w[2..][|m|..] && (m + tail)[|m|..] == tail;
        PrefixDeframes(ms[1..], rest);
        assert ms == [m] + ms[1..];
      }
    }
  }
}
