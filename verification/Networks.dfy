/** IPv4 network numbers as text: octets in decimal or hexadecimal, with a width that is given or inferred. */
module Networks {
  import opened Wrappers
  import opened Bytes
  import opened Inet

  /** A network of `bits` bits and the octets that hold them; or not a network; or no room for the octets. */
  datatype NetResult = Net(bits: nat, addr: seq<byte>) | NoNetwork | TooBig

  // ----- the parser as a function of the text -----

  predicate IsHex(c: char) { HexValue(c).Some? }

  function Nibble(c: char): (h: nat)
    requires IsHex(c)
    ensures h < 16
  {
    HexValue(c).value
  }

  /** Octets of two hexadecimal digits; `half` is the first one of a pair. */
  function Hexadecimal(s: string, octets: seq<byte>, half: Option<nat>, size: nat): NetResult
    requires half.Some? ==> half.value < 16
    decreases |s|
  {
    if s != [] && IsHex(s[0]) then
      if half.None? then Hexadecimal(s[1..], octets, Some(Nibble(s[0])), size)
      else if |octets| >= size then TooBig
      else Hexadecimal(s[1..], octets + [half.value * 16 + Nibble(s[0])], None, size)
    else if half.None? then Tail(s, octets, size)
    else if |octets| >= size then TooBig
    else Tail(s, octets + [half.value * 16], size)
  }

  /** Decimal octets; `val` is the part read of the current one. */
  function Decimal(s: string, octets: seq<byte>, val: Option<byte>, size: nat): NetResult
    decreases |s|
  {
    if s != [] && IsDigit(s[0]) then
      var val' := (if val.Some? then val.value as int else 0) * 10 + DigitValue(s[0]);
      if val' > 255 then NoNetwork else Decimal(s[1..], octets, Some(val'), size)
    else if val.None? then NoNetwork
    else if |octets| >= size then TooBig
    else if s == [] || s[0] == '/' then Tail(s, octets + [val.value], size)
    else if s[0] != '.' then NoNetwork
    else Decimal(s[1..], octets + [val.value], None, size)
  }

  /** What may follow the octets: nothing, or a width. */
  function Tail(s: string, octets: seq<byte>, size: nat): NetResult {
    if s == [] then (if octets == [] then NoNetwork else Extend(octets, Imputed(octets), size))
    else if s[0] != '/' || |s| < 2 || !IsDigit(s[1]) || octets == [] || Width(s[1..], 0).None? then NoNetwork
    else Extend(octets, Width(s[1..], 0).value, size)
  }

  function Width(s: string, val: nat): Option<nat>
    decreases |s|
  {
    if s == [] then Some(val)
    else if !IsDigit(s[0]) || val * 10 + DigitValue(s[0]) > 32 then None
    else Width(s[1..], val * 10 + DigitValue(s[0]))
  }

  /** The width by class of the first octet, but no less than the octets written; 4 for class D without more. */
  function Imputed(octets: seq<byte>): nat
    requires octets != []
  {
    var class_ := if octets[0] >= 240 then 32 else if octets[0] >= 224 then 8 else if octets[0] >= 192 then 24
      else if octets[0] >= 128 then 16 else 8;
    var bits := if class_ < 8 * |octets| then 8 * |octets| else class_;
    if bits == 8 && octets[0] == 224 then 4 else bits
  }

  function Extend(octets: seq<byte>, bits: nat, size: nat): NetResult
    decreases bits - 8 * |octets|
  {
    if bits <= 8 * |octets| then Net(bits, octets)
    else if |octets| >= size then TooBig
    else Extend(octets + [0], bits, size)
  }

  predicate StartsHex(s: string) {
    |s| >= 3 && s[0] == '0' && (s[1] == 'x' || s[1] == 'X') && IsHex(s[2])
  }

  function Pton4(s: string, size: nat): NetResult {
    if StartsHex(s) then Hexadecimal(s[2..], [], None, size) else Decimal(s, [], None, size)
  }

  // ----- what the parser reads -----

  function Zeros(n: nat): (z: seq<byte>) { seq(n, _ => 0) }

  /** How many octets a network takes: those written, or as many as its width needs. */
  function Span(octets: seq<byte>, bits: nat): nat {
    if bits <= 8 * |octets| then |octets| else (bits + 7) / 8
  }

  /** The octets are kept and zeros are added up to the width, which must fit. */
  lemma {:induction false} ExtendMeaning(octets: seq<byte>, bits: nat, size: nat)
    requires |octets| <= size
    ensures var n := Span(octets, bits);
      Extend(octets, bits, size) == if n > size then TooBig else Net(bits, octets + Zeros(n - |octets|))
    decreases bits - 8 * |octets|
  {
    if bits > 8 * |octets| {
      if |octets| < size {
        ExtendMeaning(octets + [0], bits, size);
        var n := Span(octets, bits);
        assert n == Span(octets + [0], bits);
        if n <= size {
          assert octets + [0] + Zeros(n - |octets| - 1) == octets + Zeros(n - |octets|);
        }
      }
    } else {
      assert octets + Zeros(0) == octets;
    }
  }

  /** Decimal octets with dots between them. */
  function Joined(octets: seq<byte>): string
    requires octets != []
  {
    if |octets| == 1 then Dec(octets[0]) else Dec(octets[0]) + "." + Joined(octets[1..])
  }

  /** A network in decimal, perhaps with its width. */
  function Written(octets: seq<byte>, width: Option<nat>): string
    requires octets != []
  {
    Joined(octets) + WidthText(width)
  }

  function WidthText(width: Option<nat>): string {
    if width.Some? then "/" + Dec(width.value) else ""
  }

  lemma {:induction false} OctetReads4(v: nat, rest: string, octets: seq<byte>, size: nat)
    requires v < 256
    ensures Decimal(Dec(v) + rest, octets, None, size) == Decimal(rest, octets, Some(v), size)
  {
    DigitReads(v % 10);
    if v < 10 {
      assert (Dec(v) + rest)[1..] == rest;
    } else {
      var more := [Digit(v % 10)] + rest;
      assert Dec(v) + rest == Dec(v / 10) + more;
      OctetReads4(v / 10, more, octets, size);
      assert more[1..] == rest;
    }
  }

  lemma {:induction false} WidthReads(w: nat, rest: string)
    requires w <= 32
    ensures Width(Dec(w) + rest, 0) == Width(rest, w)
    ensures Dec(w) != [] && IsDigit(Dec(w)[0])
  {
    DigitReads(w % 10);
    if w < 10 {
      assert (Dec(w) + rest)[1..] == rest;
    } else {
      var more := [Digit(w % 10)] + rest;
      assert Dec(w) + rest == Dec(w / 10) + more;
      WidthReads(w / 10, more);
      assert more[1..] == rest;
    }
  }

  lemma {:induction false} DecimalReads(done: seq<byte>, octets: seq<byte>, width: Option<nat>, size: nat)
    requires octets != [] && (width.Some? ==> width.value <= 32)
    ensures Decimal(Written(octets, width), done, None, size) ==
      if |done + octets| > size then TooBig else Tail(WidthText(width), done + octets, size)
    decreases |octets|
  {
    hide Dec, Tail, Width;
    var tail := WidthText(width);
    if |octets| == 1 {
      OctetReads4(octets[0], tail, done, size);
      assert done + [octets[0]] == done + octets;
    } else {
      var rest := Written(octets[1..], width);
      assert Written(octets, width) == Dec(octets[0]) + ("." + rest);
      OctetReads4(octets[0], "." + rest, done, size);
      assert ("." + rest)[1..] == rest;
      if |done| < size {
        DecimalReads(done + [octets[0]], octets[1..], width, size);
        assert done + [octets[0]] + octets[1..] == done + octets;
      }
    }
  }

  lemma TailReadsWidth(octets: seq<byte>, width: Option<nat>, size: nat)
    requires octets != [] && (width.Some? ==> width.value <= 32)
    ensures Tail(WidthText(width), octets, size) ==
      Extend(octets, if width.Some? then width.value else Imputed(octets), size)
  {
    if width.Some? {
      WidthReads(width.value, []);
      var text := WidthText(width);
      assert text[1..] == Dec(width.value) && Dec(width.value) + [] == Dec(width.value);
    }
  }

  lemma {:induction false} DecNotHex(v: nat, rest: string)
    requires rest == [] || rest[0] == '.' || rest[0] == '/'
    ensures Dec(v) != [] && !StartsHex(Dec(v) + rest)
    ensures forall i :: 0 <= i < |Dec(v)| ==> IsDigit(Dec(v)[i])
  {
    DigitReads(v % 10);
    if v >= 10 {
      DecNotHex(v / 10, rest);
    }
  }

  /** A network written in decimal is read back: its octets, the width given or the width by class, and zeros up to
      the width; and it is too big exactly when the octets and the width do not fit. */
  lemma NetworkRoundTrip(octets: seq<byte>, width: Option<nat>, size: nat)
    requires octets != [] && (width.Some? ==> width.value <= 32)
    ensures var bits := if width.Some? then width.value else Imputed(octets);
      var n := Span(octets, bits);
      Pton4(Written(octets, width), size) == if n > size then TooBig else Net(bits, octets + Zeros(n - |octets|))
  {
    hide Written, WidthText, Pton4, Imputed, Decimal, Hexadecimal, Extend, Tail;
    var bits := if width.Some? then width.value else Imputed(octets);
    WrittenInDecimal(octets, width, size);
    DecimalReads([], octets, width, size);
    assert [] + octets == octets;
    if |octets| <= size {
      TailReadsWidth(octets, width, size);
      ExtendMeaning(octets, bits, size);
    }
  }

  lemma WrittenInDecimal(octets: seq<byte>, width: Option<nat>, size: nat)
    requires octets != []
    ensures Pton4(Written(octets, width), size) == Decimal(Written(octets, width), [], None, size)
  {
    hide Dec, Decimal, Hexadecimal;
    var rest := if |octets| == 1 then WidthText(width) else "." + Written(octets[1..], width);
    DecNotHex(octets[0], rest);
    assert Written(octets, width) == Dec(octets[0]) + rest;
  }

  /** A printed IPv4 address is read back whole. */
  lemma TextRoundTrip4(a: seq<byte>)
    requires |a| == 4
    ensures Pton4(Print4(a), 4) == Net(32, a)
  {
    hide Dec, Pton4;
    NetworkRoundTrip(a, None, 4);
    var tail := a[1..];
    assert tail[1..] == a[2..] && a[2..][1..] == a[3..];
    assert Joined(a[3..]) == Dec(a[3]);
    assert Joined(a[2..]) == Dec(a[2]) + "." + Joined(a[3..]);
    assert Joined(a[1..]) == Dec(a[1]) + "." + Joined(a[2..]);
    assert Written(a, None) == Print4(a);
    assert a + Zeros(0) == a;
  }

  /** Two lower-case hexadecimal digits for each octet. */
  function HexText(octets: seq<byte>): string {
    if octets == [] then "" else [Digit(octets[0] / 16), Digit(octets[0] % 16)] + HexText(octets[1..])
  }

  lemma {:induction false} HexadecimalReads(done: seq<byte>, octets: seq<byte>, size: nat)
    ensures Hexadecimal(HexText(octets), done, None, size) ==
      if octets != [] && |done + octets| > size then TooBig else Tail([], done + octets, size)
    decreases |octets|
  {
    hide Tail;
    if octets == [] {
      assert done + octets == done;
    } else {
      DigitReads(octets[0] / 16);
      DigitReads(octets[0] % 16);
      var text := HexText(octets);
      assert text[1..][1..] == HexText(octets[1..]);
      if |done| < size {
        HexadecimalReads(done + [octets[0]], octets[1..], size);
        assert done + [octets[0]] + octets[1..] == done + octets;
      }
    }
  }

  /** A network in hexadecimal is read back, with its width by class. */
  lemma HexRoundTrip(octets: seq<byte>, size: nat)
    requires octets != []
    ensures var bits := Imputed(octets);
      var n := Span(octets, bits);
      Pton4("0x" + HexText(octets), size) == if n > size then TooBig else Net(bits, octets + Zeros(n - |octets|))
  {
    hide Extend, Hexadecimal, Decimal, Tail, Imputed, HexText;
    var text := "0x" + HexText(octets);
    HexTextStarts(octets);
    assert text[2] == HexText(octets)[0] && text[2..] == HexText(octets);
    HexadecimalReads([], octets, size);
    assert [] + octets == octets;
    if |octets| <= size {
      TailEmpty(octets, size);
      ExtendMeaning(octets, Imputed(octets), size);
    }
  }

  lemma HexTextStarts(octets: seq<byte>)
    requires octets != []
    ensures HexText(octets) != [] && IsHex(HexText(octets)[0])
  {
    DigitReads(octets[0] / 16);
  }

  lemma TailEmpty(octets: seq<byte>, size: nat)
    requires octets != []
    ensures Tail([], octets, size) == Extend(octets, Imputed(octets), size)
  {
  }

  // ----- the parser -----

  /** What the parser returns: the width, or why there is none. */
  datatype Reply = Bits(bits: nat) | NoEntry4 | MessageSize4

  /** The reply is right, and the octets are at the start of the buffer, which is otherwise as before. */
  predicate Answers(r: Reply, want: NetResult, before: seq<byte>, after: seq<byte>) {
    match want
    case Net(bits, addr) => r == Bits(bits) && |addr| <= |before| && after == Overlay(before, 0, addr)
    case NoNetwork => r == NoEntry4
    case TooBig => r == MessageSize4
  }

  /** A phase of the parser either fails or leaves the tail to read, at k, with the octets stored. */
  predicate PhaseOk(early: Option<Reply>, want: NetResult, src: string, k: nat, before: seq<byte>, after: seq<byte>,
    octets: seq<byte>)
  {
    if early.Some? then Answers(early.value, want, before, after) && !want.Net?
    else k <= |src| && |octets| <= |before| && after == Overlay(before, 0, octets) && want == Tail(src[k..], octets, |before|)
  }

  method ParseHex(src: string, k0: nat, dst: array<byte>)
    returns (early: Option<Reply>, k: nat, n: nat, ghost octets: seq<byte>)
    requires k0 < |src| && IsHex(src[k0])
    modifies dst
    ensures n == |octets|
    ensures PhaseOk(early, Hexadecimal(src[k0..], [], None, dst.Length), src, k, old(dst[..]), dst[..], octets)
  {
    hide Overlay, Tail;
    early, k, n, octets := None, k0, 0, [];
    ghost var before := dst[..];
    Suffixes(src, k);
    if dst.Length == 0 {
      ghost var more := src[k0..][1..];
      assert Hexadecimal(more, [], Some(Nibble(src[k0])), 0) == TooBig;
      early := Some(MessageSize4);
      return;
    }
    OverlayNone(before, 0);
    var half: Option<nat> := None;
    while k < |src| && IsHex(src[k])
      invariant k0 <= k <= |src| && n == |octets| <= dst.Length
      invariant half.Some? ==> half.value < 16
      invariant Hexadecimal(src[k..], octets, half, dst.Length) == Hexadecimal(src[k0..], [], None, dst.Length)
      invariant dst[..] == Overlay(before, 0, octets)
    {
      Suffixes(src, k);
      var h := Nibble(src[k]);
      if half.None? {
        half := Some(h);
      } else {
        if n == dst.Length {
          early := Some(MessageSize4);
          return;
        }
        OverlayOne(before, 0, octets, half.value * 16 + h);
        dst[n] := half.value * 16 + h;
        octets, n := octets + [half.value * 16 + h], n + 1;
        half := None;
      }
      k := k + 1;
    }
    Suffixes(src, k);
    if half.Some? {
      if n == dst.Length {
        early := Some(MessageSize4);
        return;
      }
      OverlayOne(before, 0, octets, half.value * 16);
      dst[n] := half.value * 16;
      octets, n := octets + [half.value * 16], n + 1;
    }
  }

  lemma Suffixes(s: string, k: nat)
    requires k <= |s|
    ensures s[k..] == [] <==> k == |s|
    ensures k < |s| ==> s[k..][0] == s[k] && s[k..][1..] == s[k + 1..]
  {
  }

  method ParseDecimal(src: string, dst: array<byte>)
    returns (early: Option<Reply>, k: nat, n: nat, ghost octets: seq<byte>)
    requires src != [] && IsDigit(src[0])
    modifies dst
    ensures n == |octets|
    ensures PhaseOk(early, Decimal(src, [], None, dst.Length), src, k, old(dst[..]), dst[..], octets)
  {
    hide Overlay, Tail;
    early, k, n, octets := None, 0, 0, [];
    ghost var before := dst[..];
    OverlayNone(before, 0);
    assert src[0..] == src;
    while true
      invariant 0 <= k < |src| && IsDigit(src[k]) && n == |octets| <= dst.Length
      invariant Decimal(src[k..], octets, None, dst.Length) == Decimal(src, [], None, dst.Length)
      invariant dst[..] == Overlay(before, 0, octets)
      decreases |src| - k
    {
      ghost var start := k;
      var tmp: Option<byte> := None;
      while tmp.None? || (k < |src| && IsDigit(src[k]))
        invariant start <= k <= |src| && (tmp.None? ==> k == start) && (tmp.Some? ==> k > start)
        invariant Decimal(src[k..], octets, tmp, dst.Length) == Decimal(src, [], None, dst.Length)
        invariant dst[..] == Overlay(before, 0, octets)
        decreases |src| - k
      {
        Suffixes(src, k);
        var val := (if tmp.Some? then tmp.value as int else 0) * 10 + DigitValue(src[k]);
        if val > 255 {
          early := Some(NoEntry4);
          return;
        }
        tmp, k := Some(val), k + 1;
      }
      Suffixes(src, k);
      if n == dst.Length {
        early := Some(MessageSize4);
        return;
      }
      OverlayOne(before, 0, octets, tmp.value);
      dst[n] := tmp.value;
      octets, n := octets + [tmp.value], n + 1;
      if k == |src| || src[k] == '/' {
        return;
      }
      if src[k] != '.' {
        early := Some(NoEntry4);
        return;
      }
      k := k + 1;
      if k == |src| || !IsDigit(src[k]) {
        early := Some(NoEntry4);
        return;
      }
    }
  }

  method ParseTail(src: string, k0: nat, dst: array<byte>, n0: nat, ghost before: seq<byte>, ghost octets: seq<byte>)
    returns (r: Reply)
    requires k0 <= |src| && n0 == |octets| <= dst.Length == |before|
    requires dst[..] == Overlay(before, 0, octets)
    modifies dst
    ensures Answers(r, Tail(src[k0..], octets, dst.Length), before, dst[..])
  {
    hide Overlay, Extend;
    var bits: Option<nat> := None;
    Suffixes(src, k0);
    if k0 < |src| {
      if src[k0] != '/' || k0 + 1 == |src| || !IsDigit(src[k0 + 1]) || n0 == 0 {
        return NoEntry4;
      }
      bits := ParseWidth(src, k0 + 1);
      if bits.None? {
        return NoEntry4;
      }
    }
    if n0 == 0 {
      return NoEntry4;
    }
    OverlayPrefix(before, octets);
    var b := if bits.Some? then bits.value else Imputed(dst[..n0]);
    assert Tail(src[k0..], octets, dst.Length) == Extend(octets, b, dst.Length);
    r := ExtendInPlace(dst, n0, b, before, octets);
  }

  lemma OverlayPrefix(before: seq<byte>, octets: seq<byte>)
    requires |octets| <= |before|
    ensures Overlay(before, 0, octets)[..|octets|] == octets
  {
  }

  /** Nothing may follow the digits of a width. */
  method ParseWidth(src: string, k0: nat) returns (bits: Option<nat>)
    requires k0 < |src| && IsDigit(src[k0])
    ensures bits == Width(src[k0..], 0)
  {
    var k, val: nat := k0, 0;
    while k < |src| && IsDigit(src[k])
      invariant k0 <= k <= |src|
      invariant Width(src[k..], val) == Width(src[k0..], 0)
    {
      Suffixes(src, k);
      val := val * 10 + DigitValue(src[k]);
      if val > 32 {
        return None;
      }
      k := k + 1;
    }
    Suffixes(src, k);
    return if k < |src| then None else Some(val);
  }

  /** Adds zeros up to the width. */
  method ExtendInPlace(dst: array<byte>, n0: nat, bits: nat, ghost before: seq<byte>, ghost octets0: seq<byte>) returns (r: Reply)
    requires n0 == |octets0| <= dst.Length == |before|
    requires dst[..] == Overlay(before, 0, octets0)
    modifies dst
    ensures Answers(r, Extend(octets0, bits, dst.Length), before, dst[..])
  {
    hide Overlay;
    var n := n0;
    ghost var octets := octets0;
    while bits > 8 * n
      invariant n == |octets| <= dst.Length
      invariant Extend(octets, bits, dst.Length) == Extend(octets0, bits, dst.Length)
      invariant dst[..] == Overlay(before, 0, octets)
    {
      if n == dst.Length {
        return MessageSize4;
      }
      OverlayOne(before, 0, octets, 0);
      dst[n] := 0;
      octets, n := octets + [0], n + 1;
    }
    return Bits(bits);
  }

  /** Parses an IPv4 network number into a buffer. */
  method ParseIpv4(src: string, dst: array<byte>) returns (r: Reply)
    modifies dst
    ensures Answers(r, Pton4(src, dst.Length), old(dst[..]), dst[..])
  {
    hide Overlay, Tail, Hexadecimal, Decimal;
    ghost var before := dst[..];
    var early: Option<Reply>, k: nat, n: nat;
    ghost var octets: seq<byte>;
    if |src| >= 3 && src[0] == '0' && (src[1] == 'x' || src[1] == 'X') && IsHex(src[2]) {
      early, k, n, octets := ParseHex(src, 2, dst);
    } else if src != [] && IsDigit(src[0]) {
      early, k, n, octets := ParseDecimal(src, dst);
    } else {
      NoDigit(src, dst.Length);
      return NoEntry4;
    }
    if early.Some? {
      return early.value;
    }
    r := ParseTail(src, k, dst, n, before, octets);
  }

  lemma NoDigit(src: string, size: nat)
    requires src == [] || !IsDigit(src[0])
    ensures Pton4(src, size) == NoNetwork
  {
  }
}
