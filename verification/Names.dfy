/** Domain names: as labels, as dotted text with escapes, and as they stand in a message
    (sections 3.1 and 4.1.4 of RFC 1035). */
module Names {
  import opened Wrappers
  import opened Bytes
  import opened Queries

  const DOT: byte := 46
  const BACKSLASH: byte := 92
  const MAX_LABEL := 63
  const MAX_NAME := 255
  const MAX_INDIRS := 50
  const QUESTION_SIZE := 4
  const TYPE_OPT := 41

  type Label = seq<byte>

  /** A C string. */
  type CString = s: seq<byte> | 0 !in s

  predicate Special(c: byte) { c == DOT || c == BACKSLASH }

  function EscapeByte(c: byte): seq<byte> {
    if Special(c) then [BACKSLASH, c] else [c]
  }

  function Escape(lbl: Label): seq<byte> {
    if lbl == [] then [] else EscapeByte(lbl[0]) + Escape(lbl[1..])
  }

  /** Every label escaped and followed by a dot. */
  function Dotted(labels: seq<Label>): (s: seq<byte>)
    ensures labels != [] ==> s != [] && s[|s| - 1] == DOT
  {
    if labels == [] then [] else Escape(labels[0]) + [DOT] + Dotted(labels[1..])
  }

  /** The name as text: without the last dot. */
  function Text(labels: seq<Label>): seq<byte> {
    if labels == [] then [] else Dotted(labels)[..|Dotted(labels)| - 1]
  }

  /** The first label of a text, unescaped, and what follows it. */
  function Scan(s: seq<byte>): (r: (Label, seq<byte>))
    ensures r.1 == [] || r.1[0] == DOT
    ensures |r.0| + |r.1| <= |s|
    ensures s != [] && s[0] != DOT ==> r.0 != []
    decreases |s|
  {
    if s == [] || s[0] == DOT then ([], s)
    else if s[0] == BACKSLASH && |s| > 1 then
      var (lbl, rest) := Scan(s[2..]);
      ([s[1]] + lbl, rest)
    else
      var (lbl, rest) := Scan(s[1..]);
      ([s[0]] + lbl, rest)
  }

  function Prepend(labels: seq<Label>, more: Option<seq<Label>>): Option<seq<Label>> {
    match more
    case None => None
    case Some(ls) => Some(labels + ls)
  }

  /** The labels of a text; none if a label is empty or too long. One dot at the end is allowed. */
  function LabelsFrom(s: seq<byte>): Option<seq<Label>>
    decreases |s|
  {
    if s == [] then Some([])
    else if s[0] == DOT then None
    else
      var (lbl, rest) := Scan(s);
      if |lbl| > MAX_LABEL then None
      else if rest == [] then Some([lbl])
      else Prepend([lbl], LabelsFrom(rest[1..]))
  }

  /** A single dot is the root. */
  function LabelsOf(name: seq<byte>): Option<seq<Label>> {
    if name == [DOT] then Some([]) else LabelsFrom(name)
  }

  predicate LabelOk(lbl: Label) { 0 < |lbl| <= MAX_LABEL }

  predicate LabelsOk(labels: seq<Label>) {
    forall i :: 0 <= i < |labels| ==> LabelOk(labels[i])
  }

  /** The labels in a message, each preceded by its length, without the end mark. */
  function WireLabels(labels: seq<Label>): seq<byte> {
    if labels == [] then [] else [|labels[0]| % 256] + labels[0] + WireLabels(labels[1..])
  }

  function Wire(labels: seq<Label>): seq<byte> {
    WireLabels(labels) + [0]
  }

  /** The position that a pointer of two bytes names. */
  function PointerTarget(hi: int, lo: int): nat
    requires 192 <= hi < 256 && 0 <= lo < 256
  {
    (hi - 192) * 256 + lo
  }

  /** The labels that stand at position `p` of a message, following pointers, of which
      `indirs` were followed already. */
  function LabelsAt(msg: seq<byte>, p: nat, indirs: nat): Option<seq<Label>>
    decreases MAX_INDIRS + 1 - indirs, |msg| - p
  {
    if p >= |msg| || indirs > MAX_INDIRS then None
    else if msg[p] == 0 then Some([])
    else if msg[p] >= 192 then
      if p + 1 >= |msg| then None
      else
        var target := PointerTarget(msg[p], msg[p + 1]);
        if target >= |msg| || indirs + 1 > |msg| || indirs + 1 > MAX_INDIRS then None
        else LabelsAt(msg, target, indirs + 1)
    else if msg[p] < 64 then
      if p + msg[p] + 1 >= |msg| then None
      else Prepend([msg[p + 1..p + 1 + msg[p]]], LabelsAt(msg, p + 1 + msg[p], indirs))
    else None
  }

  /** The number of bytes that a name takes up where it stands: up to its end mark or first pointer. */
  function EncodedLength(msg: seq<byte>, p: nat): nat
    decreases |msg| - p
  {
    if p >= |msg| then 0
    else if msg[p] == 0 then 1
    else if msg[p] >= 192 then 2
    else 1 + msg[p] + EncodedLength(msg, p + 1 + msg[p])
  }

  // ----- text and labels -----

  lemma {:induction false} ScanEscaped(lbl: Label, rest: seq<byte>)
    requires rest == [] || rest[0] == DOT
    ensures Scan(Escape(lbl) + rest) == (lbl, rest)
  {
    EscapeStep(lbl);
    ScanNothing(rest);
    hide Scan, Escape, EscapeByte;
    if lbl == [] {
      assert [] + rest == rest;
    } else {
      var c, more := EscapeByte(lbl[0]), Escape(lbl[1..]);
      ScanEscaped(lbl[1..], rest);
      ScanFirst(lbl[0], more + rest);
      assert c + more + rest == c + (more + rest);
      assert [lbl[0]] + lbl[1..] == lbl;
    }
  }

  lemma ScanNothing(rest: seq<byte>)
    ensures rest == [] || rest[0] == DOT ==> Scan(rest) == ([], rest)
  {
  }

  lemma ScanFirst(c: byte, tail: seq<byte>)
    ensures Scan(EscapeByte(c) + tail) == ([c] + Scan(tail).0, Scan(tail).1)
  {
    var s := EscapeByte(c) + tail;
    if Special(c) {
      assert s[2..] == tail;
    } else {
      assert s[1..] == tail;
    }
  }

  lemma TextCons(lbl: Label, more: seq<Label>)
    ensures Text([lbl] + more) == (if more == [] then Escape(lbl) else Escape(lbl) + [DOT] + Text(more))
  {
    assert ([lbl] + more)[1..] == more;
    var e, d := Escape(lbl) + [DOT], Dotted(more);
    if more == [] {
      assert (e + d)[..|e + d| - 1] == Escape(lbl);
    } else {
      assert (e + d)[..|e + d| - 1] == e + d[..|d| - 1];
    }
  }

  /** How the first label of a text is read when a text, or nothing, follows it. */
  lemma ReadLabel(lbl: Label, rest: seq<byte>)
    requires LabelOk(lbl) && (rest == [] || rest[0] == DOT)
    ensures LabelsFrom(Escape(lbl) + rest) == if rest == [] then Some([lbl]) else Prepend([lbl], LabelsFrom(rest[1..]))
  {
    hide Scan;
    ScanEscaped(lbl, rest);
    EscapeStarts(lbl);
  }

  /** Reading the text of a name gives back its labels. */
  lemma {:induction false} TextRoundTrip(labels: seq<Label>)
    requires LabelsOk(labels)
    ensures LabelsFrom(Text(labels)) == Some(labels)
  {
    hide LabelsFrom, Escape, Dotted;
    if labels == [] {
      NothingRead();
    } else {
      var l, more := labels[0], labels[1..];
      assert labels == [l] + more;
      TextCons(l, more);
      if more == [] {
        ReadLabel(l, []);
        assert Escape(l) + [] == Escape(l);
        assert labels == [l];
      } else {
        ReadLabel(l, [DOT] + Text(more));
        assert Escape(l) + [DOT] + Text(more) == Escape(l) + ([DOT] + Text(more));
        assert ([DOT] + Text(more))[1..] == Text(more);
        TextRoundTrip(more);
      }
    }
  }

  lemma NothingRead()
    ensures LabelsFrom([]) == Some([])
  {
  }

  /** No name reads as the single dot. */
  lemma TextIsNoDot(labels: seq<Label>)
    requires LabelsOk(labels)
    ensures LabelsOf(Text(labels)) == Some(labels)
  {
    hide LabelsFrom, Dotted;
    TextRoundTrip(labels);
    if labels != [] {
      assert labels == [labels[0]] + labels[1..];
      TextCons(labels[0], labels[1..]);
      EscapeStarts(labels[0]);
    }
  }

  lemma EscapeStarts(l: Label)
    requires l != []
    ensures Escape(l) != [] && Escape(l)[0] != DOT
  {
  }

  /** Labels read from a text are of proper length. */
  lemma {:induction false} LabelsFromOk(s: seq<byte>)
    ensures LabelsFrom(s).Some? ==> LabelsOk(LabelsFrom(s).value)
    decreases |s|
  {
    if s != [] && s[0] != DOT {
      var (lbl, rest) := Scan(s);
      if rest != [] {
        LabelsFromOk(rest[1..]);
      }
    }
  }

  // ----- labels and messages -----

  lemma {:induction false} WireLabelsConcat(a: seq<Label>, b: seq<Label>)
    ensures WireLabels(a + b) == WireLabels(a) + WireLabels(b)
  {
    if a == [] {
      assert a + b == b;
    } else {
      assert (a + b)[1..] == a[1..] + b;
      WireLabelsConcat(a[1..], b);
    }
  }

  lemma ReadWireLabel(msg: seq<byte>, p: nat, l: Label, indirs: nat)
    requires LabelOk(l) && indirs <= MAX_INDIRS && p + 1 + |l| < |msg|
    requires msg[p] == |l| && msg[p + 1..p + 1 + |l|] == l
    ensures LabelsAt(msg, p, indirs) == Prepend([l], LabelsAt(msg, p + 1 + |l|, indirs))
    ensures EncodedLength(msg, p) == 1 + |l| + EncodedLength(msg, p + 1 + |l|)
  {
  }

  lemma ReadEnd(msg: seq<byte>, p: nat, indirs: nat)
    requires p < |msg| && msg[p] == 0 && indirs <= MAX_INDIRS
    ensures LabelsAt(msg, p, indirs) == Some([]) && EncodedLength(msg, p) == 1
  {
  }

  /** A name written into a message is read back from it, whatever surrounds it. */
  lemma {:induction false} WireRoundTrip(before: seq<byte>, labels: seq<Label>, after: seq<byte>, indirs: nat)
    requires LabelsOk(labels) && indirs <= MAX_INDIRS
    ensures LabelsAt(before + Wire(labels) + after, |before|, indirs) == Some(labels)
    ensures EncodedLength(before + Wire(labels) + after, |before|) == |Wire(labels)|
    decreases labels
  {
    hide LabelsAt, EncodedLength;
    var msg, p := before + Wire(labels) + after, |before|;
    if labels == [] {
      assert Wire(labels) == [0];
      ReadEnd(msg, p, indirs);
    } else {
      var l, more := labels[0], labels[1..];
      var next := before + ([|l|] + l);
      assert Wire(labels) == ([|l|] + l) + Wire(more);
      assert msg == next + Wire(more) + after;
      WireRoundTrip(next, more, after, indirs);
      assert msg[p..p + 1 + |l|] == [|l|] + l;
      assert msg[p] == msg[p..p + 1 + |l|][0];
      assert msg[p + 1..p + 1 + |l|] == msg[p..p + 1 + |l|][1..];
      ReadWireLabel(msg, p, l, indirs);
      assert [l] + more == labels;
    }
  }

  // ----- writing a query -----

  /** The header of a query: the id, the recursion bit, one question, and one additional record for EDNS. */
  function Header(id: nat, rd: bool, edns: bool): (h: seq<byte>)
    ensures |h| == HEADER_SIZE
  {
    [Hi(id), Lo(id), if rd then 1 else 0, 0, 0, 1, 0, 0, 0, 0, 0, if edns then 1 else 0]
  }

  /** What follows the name: type, class, and the EDNS record. */
  function Trailer(dnsclass: nat, qtype: nat, maxUdpSize: nat): (t: seq<byte>)
    ensures |t| == QUESTION_SIZE + if maxUdpSize == 0 then 0 else EDNS_SIZE
  {
    [Hi(qtype), Lo(qtype), Hi(dnsclass), Lo(dnsclass)] +
    if maxUdpSize == 0 then []
    else [0, Hi(TYPE_OPT), Lo(TYPE_OPT), Hi(maxUdpSize), Lo(maxUdpSize), 0, 0, 0, 0, 0, 0]
  }

  /** The state of writing a name: labels `done` are written, the text from `s` is still to be read. */
  ghost predicate Writing(name: seq<byte>, done: seq<Label>, s: seq<byte>, written: seq<byte>) {
    && LabelsOf(name) == Prepend(done, LabelsFrom(s))
    && written == WireLabels(done)
  }

  lemma WritingStarts(name: seq<byte>)
    ensures name != [DOT] ==> Writing(name, [], name, [])
    ensures name == [DOT] ==> Writing(name, [], [], [])
  {
    var more := LabelsFrom(if name == [DOT] then [] else name);
    var none: seq<Label> := [];
    assert more.Some? ==> none + more.value == more.value;
  }

  lemma WritingStep(name: seq<byte>, done: seq<Label>, s: seq<byte>, written: seq<byte>)
    requires Writing(name, done, s, written) && s != [] && s[0] != DOT
    ensures |Scan(s).0| > MAX_LABEL ==> LabelsOf(name).None?
    ensures |Scan(s).0| <= MAX_LABEL && Scan(s).1 != [] ==>
      Writing(name, done + [Scan(s).0], Scan(s).1[1..], written + ([|Scan(s).0|] + Scan(s).0))
    ensures |Scan(s).0| <= MAX_LABEL && Scan(s).1 == [] ==>
      Writing(name, done + [Scan(s).0], [], written + ([|Scan(s).0|] + Scan(s).0))
  {
    hide Scan, LabelsOf, WireLabels;
    OneWireLabel(Scan(s).0);
    var lbl, rest := Scan(s).0, Scan(s).1;
    var single: seq<Label> := [lbl];
    WireLabelsConcat(done, single);
    if |lbl| <= MAX_LABEL {
      var more: Option<seq<Label>> := if rest == [] then Some([]) else LabelsFrom(rest[1..]);
      assert LabelsFrom(s) == Prepend([lbl], more) by {
        var none: seq<Label> := [];
        assert [lbl] + none == [lbl];
      }
      assert more.Some? ==> done + (single + more.value) == done + single + more.value;
    }
  }

  lemma OneWireLabel(lbl: Label)
    ensures WireLabels([lbl]) == [|lbl| % 256] + lbl
  {
    assert [lbl][1..] == [];
  }

  lemma WritingEnds(name: seq<byte>, done: seq<Label>, written: seq<byte>)
    requires Writing(name, done, [], written)
    ensures LabelsOf(name) == Some(done) && written == WireLabels(done)
  {
    assert done + [] == done;
  }

  /** One character of a label: an escaped one stands for the next byte, unless that is the end. */
  lemma ScanStep(name: seq<byte>, p: nat)
    requires p < |name| && name[p] != DOT
    ensures var p' := if name[p] == BACKSLASH && p + 1 < |name| then p + 1 else p;
      && Scan(name[p..]).0 == [name[p']] + Scan(name[p' + 1..]).0
      && Scan(name[p..]).1 == Scan(name[p' + 1..]).1
  {
    var s := name[p..];
    if name[p] == BACKSLASH && p + 1 < |name| {
      assert s[2..] == name[p + 2..];
    } else {
      assert s[1..] == name[p + 1..];
    }
  }

  lemma ScanEnd(s: seq<byte>)
    requires s == [] || s[0] == DOT
    ensures Scan(s).0 == [] && Scan(s).1 == s
  {
  }

  /** The length of the next label of a text, and where it ends. */
  method CountLabel(name: CString, start: nat) returns (len: nat, p: nat)
    requires start <= |name|
    ensures start <= p <= |name| && len <= p - start
    ensures len == |Scan(name[start..]).0| && name[p..] == Scan(name[start..]).1
  {
    hide Scan;
    p, len := start, 0;
    while p < |name| && name[p] != DOT
      invariant start <= p <= |name| && len <= p - start
      invariant len + |Scan(name[p..]).0| == |Scan(name[start..]).0|
      invariant Scan(name[p..]).1 == Scan(name[start..]).1
    {
      ScanStep(name, p);
      if name[p] == BACKSLASH && p + 1 < |name| {
        p := p + 1;
      }
      len, p := len + 1, p + 1;
    }
    ScanEnd(name[p..]);
  }

  /** Copies the next label of a text, unescaped, to position q of a buffer. */
  method CopyLabel(name: CString, start: nat, buf: array<byte>, q0: nat) returns (q: nat, p: nat)
    requires start <= |name| && q0 + |Scan(name[start..]).0| <= buf.Length
    modifies buf
    ensures start <= p <= |name| && name[p..] == Scan(name[start..]).1
    ensures q == q0 + |Scan(name[start..]).0|
    ensures buf[..q] == old(buf[..q0]) + Scan(name[start..]).0
  {
    hide Scan;
    ghost var all, before := Scan(name[start..]).0, buf[..q0];
    ghost var done: seq<byte> := [];
    p, q := start, q0;
    while p < |name| && name[p] != DOT
      invariant start <= p <= |name| && q == q0 + |done| && done + Scan(name[p..]).0 == all
      invariant Scan(name[p..]).1 == Scan(name[start..]).1
      invariant buf[..q] == before + done
    {
      ScanStep(name, p);
      if name[p] == BACKSLASH && p + 1 < |name| {
        p := p + 1;
      }
      Assoc(done, [name[p]], Scan(name[p + 1..]).0);
      Assoc(before, done, [name[p]]);
      PrefixStored(buf[..], q, name[p]);
      buf[q] := name[p];
      done := done + [name[p]];
      q, p := q + 1, p + 1;
    }
    ScanEnd(name[p..]);
  }

  lemma Assoc(a: seq<byte>, b: seq<byte>, c: seq<byte>)
    ensures a + (b + c) == a + b + c
  {
  }

  lemma PrefixStored(buf: seq<byte>, q: nat, c: byte)
    requires q < |buf|
    ensures buf[q := c][..q + 1] == buf[..q] + [c]
  {
  }

  /** Writes a sequence into a buffer at position q. */
  method Put(buf: array<byte>, q: nat, s: seq<byte>) returns (q': nat)
    requires q + |s| <= buf.Length
    modifies buf
    ensures q' == q + |s| && buf[..q'] == old(buf[..q]) + s
  {
    var i := 0;
    while i < |s|
      invariant 0 <= i <= |s| && buf[..q + i] == old(buf[..q]) + s[..i]
    {
      buf[q + i] := s[i];
      assert buf[..q + i + 1] == buf[..q + i] + [s[i]];
      i := i + 1;
    }
    q' := q + |s|;
  }

  /** Writes the length of the next label and the label itself at position q0. */
  method EncodeLabel(name: CString, start: nat, len: byte, buf: array<byte>, q0: nat) returns (q: nat, p: nat)
    requires start <= |name| && len == |Scan(name[start..]).0| && q0 + 1 + len <= buf.Length
    modifies buf
    ensures start <= p <= |name| && name[p..] == Scan(name[start..]).1
    ensures q == q0 + 1 + len
    ensures buf[..q] == old(buf[..q0]) + ([len] + Scan(name[start..]).0)
  {
    hide Scan;
    buf[q0] := len;
    assert buf[..q0 + 1] == old(buf[..q0]) + [len];
    q, p := CopyLabel(name, start, buf, q0 + 1);
  }

  /** Builds a query message for a name. It is refused when the text has an empty label or one of more than
      63 bytes, or when the name takes more than 255 bytes. */
  method CreateQuery(name: CString, dnsclass: nat, qtype: nat, id: nat, rd: bool, maxUdpSize: nat)
    returns (status: Status, msg: seq<byte>)
    ensures status == Success || status == BadName
    ensures status == Success <==> LabelsOf(name).Some? && |Wire(LabelsOf(name).value)| <= MAX_NAME
    ensures status == Success ==>
      msg == Header(id, rd, maxUdpSize != 0) + Wire(LabelsOf(name).value) + Trailer(dnsclass, qtype, maxUdpSize)
    ensures status == BadName ==> msg == []
  {
    hide Scan, LabelsOf, LabelsFrom, WireLabels, Writing, Header, Trailer;
    msg := [];
    var ednsSize := if maxUdpSize != 0 then EDNS_SIZE else 0;
    var buf := new byte[|name| + 2 + HEADER_SIZE + QUESTION_SIZE + ednsSize];
    var header := Header(id, rd, maxUdpSize != 0);
    var q := Put(buf, 0, header);
    WritingStarts(name);
    var start := if name == [DOT] then 1 else 0;
    ghost var done: seq<Label>, written: seq<byte> := [], [];
    assert name[start..] == if name == [DOT] then [] else name;
    while start < |name|
      invariant start <= |name| && q == HEADER_SIZE + |written| && |written| <= start + 1
      invariant start < |name| ==> |written| <= start
      invariant buf[..q] == header + written
      invariant Writing(name, done, name[start..], written)
    {
      if name[start] == DOT {
        EmptyLabel(name, done, name[start..], written);
        return BadName, [];
      }
      var len, end := CountLabel(name, start);
      WritingStep(name, done, name[start..], written);
      if len > MAX_LABEL {
        return BadName, [];
      }
      ghost var lbl := Scan(name[start..]).0;
      q, end := EncodeLabel(name, start, len, buf, q);
      Assoc(header, written, [len] + lbl);
      done, written := done + [lbl], written + ([len] + lbl);
      if end == |name| {
        start := end;
        break;
      }
      assert name[end..][1..] == name[end + 1..];
      start := end + 1;
    }
    WritingEnds(name, done, written);
    q := Put(buf, q, [0]);
    q := Put(buf, q, Trailer(dnsclass, qtype, maxUdpSize));
    if q > MAX_NAME + HEADER_SIZE + QUESTION_SIZE + ednsSize {
      return BadName, [];
    }
    Assoc(header, written, [0]);
    return Success, buf[..q];
  }

  lemma EmptyLabel(name: seq<byte>, done: seq<Label>, s: seq<byte>, written: seq<byte>)
    requires Writing(name, done, s, written) && s != [] && s[0] == DOT
    ensures LabelsOf(name).None?
  {
  }

  // ----- reading a name -----

  /** The state of reading the name at `start`: labels `done` are read, the rest is at p. */
  ghost predicate Reading(msg: seq<byte>, start: nat, done: seq<Label>, p: nat, indirs: nat) {
    LabelsAt(msg, start, 0) == Prepend(done, LabelsAt(msg, p, indirs))
  }

  lemma ReadingStarts(msg: seq<byte>, start: nat)
    ensures Reading(msg, start, [], start, 0)
    ensures start >= |msg| ==> LabelsAt(msg, start, 0).None?
  {
    var more := LabelsAt(msg, start, 0);
    assert more.Some? ==> [] + more.value == more.value;
  }

  lemma ReadingPointer(msg: seq<byte>, start: nat, done: seq<Label>, p: nat, indirs: nat)
    requires Reading(msg, start, done, p, indirs) && p < |msg| && msg[p] >= 192 && indirs <= MAX_INDIRS
    ensures p + 1 >= |msg| ==> LabelsAt(msg, start, 0).None?
    ensures p + 1 < |msg| ==>
      var target := PointerTarget(msg[p], msg[p + 1]);
      if target >= |msg| || indirs + 1 > |msg| || indirs + 1 > MAX_INDIRS then LabelsAt(msg, start, 0).None?
      else Reading(msg, start, done, target, indirs + 1)
  {
  }

  lemma ReadingLabel(msg: seq<byte>, start: nat, done: seq<Label>, p: nat, indirs: nat)
    requires Reading(msg, start, done, p, indirs) && p < |msg| && 0 < msg[p] < 64 && indirs <= MAX_INDIRS
    ensures p + msg[p] + 1 >= |msg| ==> LabelsAt(msg, start, 0).None?
    ensures p + msg[p] + 1 < |msg| ==>
      Reading(msg, start, done + [msg[p + 1..p + 1 + msg[p]]], p + 1 + msg[p], indirs)
  {
    if p + msg[p] + 1 < |msg| {
      var one: seq<Label> := [msg[p + 1..p + 1 + msg[p]]];
      var more := LabelsAt(msg, p + 1 + msg[p], indirs);
      hide LabelsAt;
      assert more.Some? ==> done + (one + more.value) == done + one + more.value;
    }
  }

  lemma ReadingOther(msg: seq<byte>, start: nat, done: seq<Label>, p: nat, indirs: nat)
    requires Reading(msg, start, done, p, indirs) && p < |msg| && indirs <= MAX_INDIRS
    ensures msg[p] == 0 ==> LabelsAt(msg, start, 0) == Some(done)
    ensures 64 <= msg[p] < 192 ==> LabelsAt(msg, start, 0).None?
  {
    assert done + [] == done;
  }

  lemma {:induction false} DottedConcat(a: seq<Label>, b: seq<Label>)
    ensures Dotted(a + b) == Dotted(a) + Dotted(b)
  {
    if a == [] {
      assert a + b == b;
    } else {
      assert (a + b)[1..] == a[1..] + b;
      DottedConcat(a[1..], b);
    }
  }

  lemma DottedAppend(a: seq<Label>, lbl: Label)
    ensures Dotted(a + [lbl]) == Dotted(a) + (Escape(lbl) + [DOT])
  {
    var one: seq<Label> := [lbl];
    DottedConcat(a, one);
    assert one[1..] == [];
    assert Dotted(one) == Escape(lbl) + [DOT];
  }

  lemma DottedEmptiness(labels: seq<Label>)
    ensures Dotted(labels) == [] <==> labels == []
    ensures |Text(labels)| == if labels == [] then 0 else |Dotted(labels)| - 1
  {
  }

  lemma EscapeStep(lbl: Label)
    ensures lbl == [] ==> Escape(lbl) == []
    ensures lbl != [] ==> Escape(lbl) == EscapeByte(lbl[0]) + Escape(lbl[1..])
  {
  }

  /** The length of the text of the name at `start`, or -1 if there is no proper name. */
  method NameLength(msg: seq<byte>, start: nat) returns (n: int)
    ensures LabelsAt(msg, start, 0).None? <==> n == -1
    ensures LabelsAt(msg, start, 0).Some? ==> n == |Text(LabelsAt(msg, start, 0).value)|
  {
    hide LabelsAt, Reading, Dotted, Escape, Text;
    ReadingStarts(msg, start);
    if start >= |msg| {
      return -1;
    }
    var p: nat, indir: nat := start, 0;
    n := 0;
    ghost var done: seq<Label> := [];
    DottedEmptiness(done);
    while msg[p] != 0
      invariant p < |msg| && 0 <= indir <= MAX_INDIRS && n == |Dotted(done)|
      invariant Reading(msg, start, done, p, indir)
      decreases MAX_INDIRS - indir, |msg| - p
    {
      if msg[p] >= 192 {
        ReadingPointer(msg, start, done, p, indir);
        if p + 1 >= |msg| {
          return -1;
        }
        var offset := PointerTarget(msg[p], msg[p + 1]);
        if offset >= |msg| {
          return -1;
        }
        p := offset;
        indir := indir + 1;
        if indir > |msg| || indir > MAX_INDIRS {
          return -1;
        }
      } else if msg[p] < 64 {
        var len: nat := msg[p];
        ReadingLabel(msg, start, done, p, indir);
        if p + len + 1 >= |msg| {
          return -1;
        }
        ghost var lbl := msg[p + 1..p + 1 + len];
        n := CountEscaped(msg, p + 1, len, n);
        n := n + 1;
        DottedAppend(done, lbl);
        done := done + [lbl];
        p := p + 1 + len;
      } else {
        ReadingOther(msg, start, done, p, indir);
        return -1;
      }
    }
    ReadingOther(msg, start, done, p, indir);
    DottedEmptiness(done);
    n := if n > 0 then n - 1 else n;
  }

  /** Adds the length of an escaped label to a running count. */
  method CountEscaped(msg: seq<byte>, start: nat, len: nat, n0: nat) returns (n: nat)
    requires start + len <= |msg|
    ensures n == n0 + |Escape(msg[start..start + len])|
  {
    hide Escape;
    n := n0;
    var k := 0;
    while k < len
      invariant 0 <= k <= len
      invariant n + |Escape(msg[start + k..start + len])| == n0 + |Escape(msg[start..start + len])|
    {
      EscapeStep(msg[start + k..start + len]);
      assert msg[start + k..start + len][1..] == msg[start + k + 1..start + len];
      n := n + if Special(msg[start + k]) then 2 else 1;
      k := k + 1;
    }
    assert msg[start + k..start + len] == [];
    EscapeStep([]);
  }

  /** Copies an escaped label to position q0 of a buffer. */
  method CopyEscaped(msg: seq<byte>, start: nat, len: nat, s: array<byte>, q0: nat) returns (q: nat)
    requires start + len <= |msg| && q0 + |Escape(msg[start..start + len])| <= s.Length
    modifies s
    ensures q == q0 + |Escape(msg[start..start + len])|
    ensures s[..q] == old(s[..q0]) + Escape(msg[start..start + len])
  {
    hide Escape, EscapeByte;
    ghost var all, before := Escape(msg[start..start + len]), s[..q0];
    ghost var done: seq<byte> := [];
    q := q0;
    var k := 0;
    while k < len
      invariant 0 <= k <= len && q == q0 + |done|
      invariant done + Escape(msg[start + k..start + len]) == all
      invariant s[..q] == before + done
    {
      EscapeAhead(msg, start + k, start + len);
      Assoc(done, EscapeByte(msg[start + k]), Escape(msg[start + k + 1..start + len]));
      Assoc(before, done, EscapeByte(msg[start + k]));
      q := PutEscaped(s, q, msg[start + k]);
      done := done + EscapeByte(msg[start + k]);
      k := k + 1;
    }
    assert msg[start + k..start + len] == [];
    EscapeStep([]);
  }

  lemma EscapeAhead(msg: seq<byte>, p: nat, end: nat)
    requires p < end <= |msg|
    ensures Escape(msg[p..end]) == EscapeByte(msg[p]) + Escape(msg[p + 1..end])
  {
    assert msg[p..end][1..] == msg[p + 1..end];
  }

  /** Writes one byte, after a backslash if it needs one. */
  method PutEscaped(s: array<byte>, q0: nat, c: byte) returns (q: nat)
    requires q0 + |EscapeByte(c)| <= s.Length
    modifies s
    ensures q == q0 + |EscapeByte(c)| && s[..q] == old(s[..q0]) + EscapeByte(c)
  {
    q := q0;
    if Special(c) {
      PrefixStored(s[..], q, BACKSLASH);
      s[q] := BACKSLASH;
      q := q + 1;
    }
    PrefixStored(s[..], q, c);
    s[q] := c;
    q := q + 1;
  }

  /** The state of the second pass: `done` of the labels `all` are written, the rest is at p; until the first
      pointer the bytes passed are part of the encoded name. */
  ghost predicate Expanding(msg: seq<byte>, start: nat, all: seq<Label>, done: seq<Label>, p: nat, indirs: nat, jumped: bool) {
    && p < |msg| && indirs <= MAX_INDIRS
    && LabelsAt(msg, p, indirs).Some? && done + LabelsAt(msg, p, indirs).value == all
    && (!jumped ==> start <= p && EncodedLength(msg, start) == p - start + EncodedLength(msg, p))
  }

  lemma ExpandingStarts(msg: seq<byte>, start: nat)
    requires LabelsAt(msg, start, 0).Some?
    ensures Expanding(msg, start, LabelsAt(msg, start, 0).value, [], start, 0, false)
  {
    assert [] + LabelsAt(msg, start, 0).value == LabelsAt(msg, start, 0).value;
  }

  lemma ExpandingPointer(msg: seq<byte>, start: nat, all: seq<Label>, done: seq<Label>, p: nat, indirs: nat, jumped: bool)
    requires Expanding(msg, start, all, done, p, indirs, jumped) && msg[p] >= 192
    ensures p + 1 < |msg| && indirs < MAX_INDIRS
    ensures Expanding(msg, start, all, done, PointerTarget(msg[p], msg[p + 1]), indirs + 1, true)
    ensures !jumped ==> EncodedLength(msg, start) == p + 2 - start
  {
  }

  lemma ExpandingLabel(msg: seq<byte>, start: nat, all: seq<Label>, done: seq<Label>, p: nat, indirs: nat, jumped: bool)
    requires Expanding(msg, start, all, done, p, indirs, jumped) && 0 < msg[p] < 192
    ensures msg[p] < 64 && p + 1 + msg[p] < |msg|
    ensures Expanding(msg, start, all, done + [msg[p + 1..p + 1 + msg[p]]], p + 1 + msg[p], indirs, jumped)
    ensures |Dotted(done)| + |Escape(msg[p + 1..p + 1 + msg[p]])| + 1 <= |Dotted(all)|
  {
    var one: seq<Label> := [msg[p + 1..p + 1 + msg[p]]];
    var more := LabelsAt(msg, p + 1 + msg[p], indirs).value;
    assert LabelsAt(msg, p, indirs).value == one + more;
    hide LabelsAt, EncodedLength, Dotted;
    assert done + (one + more) == done + one + more;
    DottedConcat(done + one, more);
    DottedAppend(done, one[0]);
  }

  lemma ExpandingEnds(msg: seq<byte>, start: nat, all: seq<Label>, done: seq<Label>, p: nat, indirs: nat, jumped: bool)
    requires Expanding(msg, start, all, done, p, indirs, jumped) && msg[p] == 0
    ensures done == all
    ensures !jumped ==> EncodedLength(msg, start) == p + 1 - start
  {
    assert done + [] == done;
  }

  /** The root has no labels: an end mark, or a pointer to one. */
  lemma RootEncodedLength(msg: seq<byte>, p: nat)
    requires LabelsAt(msg, p, 0) == Some([])
    ensures p < |msg| && EncodedLength(msg, p) == if msg[p] >= 192 then 2 else 1
  {
  }

  /** Labels read from a message are of proper length. */
  lemma {:induction false} LabelsAtOk(msg: seq<byte>, p: nat, indirs: nat)
    requires LabelsAt(msg, p, indirs).Some?
    ensures LabelsOk(LabelsAt(msg, p, indirs).value)
    decreases MAX_INDIRS + 1 - indirs, |msg| - p
  {
    if msg[p] >= 192 {
      LabelsAtOk(msg, PointerTarget(msg[p], msg[p + 1]), indirs + 1);
    } else if msg[p] != 0 {
      LabelsAtOk(msg, p + 1 + msg[p], indirs);
    }
  }

  /** An encoded name lies inside its message. */
  lemma {:induction false} EncodedInside(msg: seq<byte>, p: nat, indirs: nat)
    requires LabelsAt(msg, p, indirs).Some?
    ensures 0 < EncodedLength(msg, p) && p + EncodedLength(msg, p) <= |msg|
    decreases |msg| - p
  {
    if 0 < msg[p] < 64 {
      EncodedInside(msg, p + 1 + msg[p], indirs);
    }
  }

  /** The name at `start` as text with a NUL at its end, and the number of bytes it takes up there. The buffer
      has the size that the first pass measured, and the second pass fills it exactly. */
  method ExpandName(msg: seq<byte>, start: nat) returns (status: Status, text: seq<byte>, enclen: nat)
    ensures status == Success || status == BadName
    ensures status == Success <==> LabelsAt(msg, start, 0).Some?
    ensures status == Success ==> text == Text(LabelsAt(msg, start, 0).value) + [0]
    ensures status == Success ==> enclen == EncodedLength(msg, start) && 0 < enclen && start + enclen <= |msg|
  {
    hide LabelsAt, EncodedLength, Dotted, Escape, Text, Expanding;
    var nlen := NameLength(msg, start);
    if nlen < 0 {
      return BadName, [], 0;
    }
    ghost var all := LabelsAt(msg, start, 0).value;
    EncodedInside(msg, start, 0);
    DottedEmptiness(all);
    var s := new byte[nlen + 1];
    if nlen == 0 {
      LabelsAtOk(msg, start, 0);
      DottedNotShort(all);
      RootEncodedLength(msg, start);
      s[0] := 0;
      enclen := if msg[start] >= 192 then 2 else 1;
      return Success, s[..], enclen;
    }
    enclen := WriteName(msg, start, s);
    TextThenNul(all, s[..]);
    s[nlen] := 0;
    assert s[..] == s[..nlen] + [0];
    return Success, s[..], enclen;
  }

  lemma DottedNotShort(labels: seq<Label>)
    requires LabelsOk(labels)
    ensures |Text(labels)| == 0 ==> labels == []
  {
    if labels != [] {
      EscapeStarts(labels[0]);
    }
  }

  lemma TextThenNul(labels: seq<Label>, s: seq<byte>)
    requires labels != [] && s == Dotted(labels)
    ensures s != [] && s[..|s| - 1] == Text(labels)
  {
  }

  /** Writes an escaped label and a dot. */
  method WriteLabel(msg: seq<byte>, start: nat, len: nat, s: array<byte>, q0: nat) returns (q: nat)
    requires start + len <= |msg| && q0 + |Escape(msg[start..start + len])| + 1 <= s.Length
    modifies s
    ensures q == q0 + |Escape(msg[start..start + len])| + 1
    ensures s[..q] == old(s[..q0]) + (Escape(msg[start..start + len]) + [DOT])
  {
    hide Escape;
    q := CopyEscaped(msg, start, len, s, q0);
    s[q] := DOT;
    q := q + 1;
  }

  /** The second pass, which checks nothing: writes every label with a dot behind it. */
  method WriteName(msg: seq<byte>, start: nat, s: array<byte>) returns (enclen: nat)
    requires LabelsAt(msg, start, 0).Some? && s.Length == |Dotted(LabelsAt(msg, start, 0).value)|
    modifies s
    ensures s[..] == Dotted(LabelsAt(msg, start, 0).value)
    ensures enclen == EncodedLength(msg, start)
  {
    hide LabelsAt, EncodedLength, Dotted, Escape, Expanding;
    ghost var all := LabelsAt(msg, start, 0).value;
    var p: nat, q: nat, indir := start, 0, false;
    ghost var done: seq<Label>, indirs: nat := [], 0;
    enclen := 0;
    ExpandingStarts(msg, start);
    DottedEmptiness(done);
    InRange(msg, start, all, done, p, indirs, indir);
    while msg[p] != 0
      invariant p < |msg| && indirs <= MAX_INDIRS && Expanding(msg, start, all, done, p, indirs, indir)
      invariant q == |Dotted(done)| && q <= s.Length && s[..q] == Dotted(done)
      invariant indir ==> enclen == EncodedLength(msg, start)
      decreases MAX_INDIRS - indirs, |msg| - p
    {
      if msg[p] >= 192 {
        ExpandingPointer(msg, start, all, done, p, indirs, indir);
        if !indir {
          enclen := p + 2 - start;
          indir := true;
        }
        p := PointerTarget(msg[p], msg[p + 1]);
        indirs := indirs + 1;
        InRange(msg, start, all, done, p, indirs, indir);
      } else {
        var len: nat := msg[p];
        ExpandingLabel(msg, start, all, done, p, indirs, indir);
        ghost var lbl := msg[p + 1..p + 1 + len];
        DottedAppend(done, lbl);
        q := WriteLabel(msg, p + 1, len, s, q);
        done := done + [lbl];
        p := p + 1 + len;
      }
    }
    ExpandingEnds(msg, start, all, done, p, indirs, indir);
    if !indir {
      enclen := p + 1 - start;
    }
    assert s[..] == s[..q];
  }

  lemma InRange(msg: seq<byte>, start: nat, all: seq<Label>, done: seq<Label>, p: nat, indirs: nat, jumped: bool)
    requires Expanding(msg, start, all, done, p, indirs, jumped)
    ensures p < |msg| && indirs <= MAX_INDIRS && (!jumped ==> start <= p)
  {
  }

  // ----- both together -----

  /** Every proper name of at most 255 bytes survives the way from text into a query and back: the query is
      built, and at the place of its question stands a name with the same labels, which is as long
      as the name in the message. */
  lemma NameRoundTrip(labels: seq<Label>, id: nat, rd: bool, dnsclass: nat, qtype: nat, maxUdpSize: nat)
    requires LabelsOk(labels) && |Wire(labels)| <= MAX_NAME
    ensures LabelsOf(Text(labels)) == Some(labels)
    ensures var msg := Header(id, rd, maxUdpSize != 0) + Wire(labels) + Trailer(dnsclass, qtype, maxUdpSize);
      && LabelsAt(msg, HEADER_SIZE, 0) == Some(labels)
      && EncodedLength(msg, HEADER_SIZE) == |Wire(labels)|
  {
    TextIsNoDot(labels);
    WireRoundTrip(Header(id, rd, maxUdpSize != 0), labels, Trailer(dnsclass, qtype, maxUdpSize), 0);
  }

  /** The text of proper labels without NUL is a C string, so that it can be handed to the query builder. */
  lemma {:induction false} TextIsCString(labels: seq<Label>)
    requires forall i :: 0 <= i < |labels| ==> 0 !in labels[i]
    ensures 0 !in Dotted(labels) && 0 !in Text(labels)
  {
    if labels != [] {
      EscapeNoNul(labels[0]);
      TextIsCString(labels[1..]);
    }
  }

  lemma {:induction false} EscapeNoNul(lbl: Label)
    requires 0 !in lbl
    ensures 0 !in Escape(lbl)
  {
    if lbl != [] {
      EscapeNoNul(lbl[1..]);
    }
  }

  /** Building a query for a name and expanding the name again. Whatever text is accepted, the text that
      comes back is that of its labels; the text of proper labels comes back as it was. */
  method QueryAndExpand(name: CString, dnsclass: nat, qtype: nat, id: nat, rd: bool, maxUdpSize: nat)
    returns (built: Status, text: seq<byte>, enclen: nat)
    ensures built == Success <==> LabelsOf(name).Some? && |Wire(LabelsOf(name).value)| <= MAX_NAME
    ensures built == Success ==> text == Text(LabelsOf(name).value) + [0] && enclen == |Wire(LabelsOf(name).value)|
    ensures forall labels {:trigger Text(labels)} :: LabelsOk(labels) && name == Text(labels) && |Wire(labels)| <= MAX_NAME ==>
      built == Success && text == name + [0]
  {
    hide LabelsOf, LabelsAt, EncodedLength, Wire, Text;
    var msg;
    built, msg := CreateQuery(name, dnsclass, qtype, id, rd, maxUdpSize);
    text, enclen := [], 0;
    if built == Success {
      LabelsOfOk(name);
      NameRoundTrip(LabelsOf(name).value, id, rd, dnsclass, qtype, maxUdpSize);
      var status;
      status, text, enclen := ExpandName(msg, HEADER_SIZE);
    }
    forall labels {:trigger Text(labels)} | LabelsOk(labels) && name == Text(labels) && |Wire(labels)| <= MAX_NAME
      ensures built == Success && text == name + [0]
    {
      TextIsNoDot(labels);
    }
  }

  /** The same for a name given by its labels: proper labels without NUL go into a query and come back as their text
      exactly if the name is not too long. */
  method LabelsThere(labels: seq<Label>, dnsclass: nat, qtype: nat, id: nat, rd: bool, maxUdpSize: nat)
    returns (built: Status, text: seq<byte>, enclen: nat)
    requires LabelsOk(labels) && forall i :: 0 <= i < |labels| ==> 0 !in labels[i]
    ensures built == Success <==> |Wire(labels)| <= MAX_NAME
    ensures built == Success ==> text == Text(labels) + [0] && enclen == |Wire(labels)|
  {
    hide LabelsOf, Wire, Text;
    TextIsCString(labels);
    TextIsNoDot(labels);
    built, text, enclen := QueryAndExpand(Text(labels), dnsclass, qtype, id, rd, maxUdpSize);
  }

  lemma LabelsOfOk(name: seq<byte>)
    requires LabelsOf(name).Some?
    ensures LabelsOk(LabelsOf(name).value)
  {
    LabelsFromOk(name);
  }
}
