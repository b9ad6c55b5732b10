/** IPv4 and IPv6 addresses as text: printing, and parsing of network numbers. */
module Inet {
  import opened Wrappers
  import opened Bytes

  // ----- digits -----

  function Digit(d: nat): char
    requires d < 16
  {
    if d < 10 then '0' + d as char else 'a' + (d - 10) as char
  }

  /** The value of a hexadecimal digit of either case. */
  function HexValue(c: char): (v: Option<nat>)
    ensures v.Some? ==> v.value < 16
  {
    if '0' <= c <= '9' then Some((c - '0') as nat)
    else if 'a' <= c <= 'f' then Some((c - 'a') as nat + 10)
    else if 'A' <= c <= 'F' then Some((c - 'A') as nat + 10)
    else None
  }

  predicate IsDigit(c: char) { '0' <= c <= '9' }

  function DigitValue(c: char): (v: nat)
    requires IsDigit(c)
    ensures v < 10
  {
    (c - '0') as nat
  }

  /** Without leading zeros. */
  function Hex(w: nat): string {
    if w < 16 then [Digit(w)] else Hex(w / 16) + [Digit(w % 16)]
  }

  function Dec(n: nat): string {
    if n < 10 then [Digit(n)] else Dec(n / 10) + [Digit(n % 10)]
  }

  lemma DigitReads(d: nat)
    requires d < 16
    ensures HexValue(Digit(d)) == Some(d)
    ensures d < 10 ==> IsDigit(Digit(d)) && DigitValue(Digit(d)) == d
  {
  }

  lemma HexLength(w: nat)
    requires w < 0x1_0000
    ensures 1 <= |Hex(w)| <= 4
  {
    if w >= 16 {
      assert |Hex(w)| == |Hex(w / 16)| + 1;
      if w >= 256 {
        assert |Hex(w / 16)| == |Hex(w / 16 / 16)| + 1;
        if w >= 4096 {
          assert |Hex(w / 16 / 16)| == |Hex(w / 16 / 16 / 16)| + 1;
        }
      }
    }
  }

  lemma DecLength(n: nat)
    requires n < 256
    ensures 1 <= |Dec(n)| <= 3
  {
    if n >= 10 {
      assert |Dec(n)| == |Dec(n / 10)| + 1;
      if n >= 100 {
        assert |Dec(n / 10)| == |Dec(n / 10 / 10)| + 1;
      }
    }
  }

  // ----- IPv4 inside IPv6 text -----

  /** A prefix length: decimal, at most 128, without leading zeros. */
  function BitsFrom(s: string, n: nat, val: nat): Option<nat>
    decreases |s|
  {
    if s == [] then (if n == 0 then None else Some(val))
    else if !IsDigit(s[0]) || (n != 0 && val == 0) then None
    else
      var val' := val * 10 + DigitValue(s[0]);
      if val' > 128 then None else BitsFrom(s[1..], n + 1, val')
  }

  function GetBits(s: string): Option<nat> { BitsFrom(s, 0, 0) }

  /** Dotted octets, with a prefix length if one follows. */
  datatype V4 = V4(octets: seq<byte>, bits: Option<nat>)

  function V4From(s: string, done: seq<byte>, n: nat, val: byte): (r: Option<V4>)
    requires |done| <= 4
    ensures r.Some? ==> 1 <= |r.value.octets| <= 4
    ensures r.Some? && r.value.bits.Some? ==> r.value.bits.value <= 128
    decreases |s|
  {
    if s == [] then
      if n == 0 || |done| > 3 then None else Some(V4(done + [val], None))
    else if IsDigit(s[0]) then
      var val' := val as int * 10 + DigitValue(s[0]);
      if (n != 0 && val == 0) || val' > 255 then None else V4From(s[1..], done, n + 1, val')
    else if s[0] == '.' then
      if |done| > 3 then None else V4From(s[1..], done + [val], 0, 0)
    else if s[0] == '/' then
      if |done| > 3 || GetBits(s[1..]).None? then None else
      (BitsInRange(s[1..], 0, 0); Some(V4(done + [val], GetBits(s[1..]))))
    else None
  }

  lemma {:induction false} BitsInRange(s: string, n: nat, val: nat)
    requires val <= 128
    ensures BitsFrom(s, n, val).Some? ==> BitsFrom(s, n, val).value <= 128
    decreases |s|
  {
    if s != [] && IsDigit(s[0]) && val * 10 + DigitValue(s[0]) <= 128 {
      BitsInRange(s[1..], n + 1, val * 10 + DigitValue(s[0]));
    }
  }

  function GetV4(s: string): (r: Option<V4>)
    ensures r.Some? ==> 1 <= |r.value.octets| <= 4 && (r.value.bits.Some? ==> r.value.bits.value <= 128)
  {
    V4From(s, [], 0, 0)
  }

  /** "%u.%u.%u.%u" */
  function Print4(a: seq<byte>): string
    requires |a| == 4
  {
    Dec(a[0]) + "." + Dec(a[1]) + "." + Dec(a[2]) + "." + Dec(a[3])
  }

  /** A printed octet is read whole: no part of it is zero but itself. */
  lemma {:induction false} OctetReads(v: nat, rest: string, done: seq<byte>)
    requires v < 256 && |done| <= 4
    ensures V4From(Dec(v) + rest, done, 0, 0) == V4From(rest, done, |Dec(v)|, v)
  {
    DigitReads(v % 10);
    if v < 10 {
      assert (Dec(v) + rest)[1..] == rest;
    } else {
      var more := [Digit(v % 10)] + rest;
      assert Dec(v) + rest == Dec(v / 10) + more;
      OctetReads(v / 10, more, done);
      assert more[1..] == rest;
    }
  }

  lemma Print4Reads(a: seq<byte>)
    requires |a| == 4
    ensures GetV4(Print4(a)) == Some(V4(a, None))
  {
    hide Dec;
    var r3 := Dec(a[3]);
    var r2 := Dec(a[2]) + ("." + r3);
    var r1 := Dec(a[1]) + ("." + r2);
    assert Print4(a) == Dec(a[0]) + ("." + r1);
    OctetThenDot(a[0], r1, a[..0]);
    assert a[..0] + [a[0]] == a[..1];
    OctetThenDot(a[1], r2, a[..1]);
    assert a[..1] + [a[1]] == a[..2];
    OctetThenDot(a[2], r3, a[..2]);
    assert a[..2] + [a[2]] == a[..3];
    assert r3 + [] == r3;
    OctetReads(a[3], [], a[..3]);
    DecLength(a[3]);
    assert a[..3] + [a[3]] == a;
  }

  lemma OctetThenDot(v: byte, rest: string, done: seq<byte>)
    requires |done| <= 3
    ensures V4From(Dec(v) + ("." + rest), done, 0, 0) == V4From(rest, done + [v], 0, 0)
  {
    hide Dec;
    OctetReads(v, "." + rest, done);
    assert ("." + rest)[1..] == rest;
  }

  // ----- IPv6 parsing, as a function of the text -----

  /** What the parser knows in the middle of a text: the bytes stored so far, where the "::" was, and the
      group being read, which starts with the text `token`. */
  datatype State = State(bytes: seq<byte>, colon: Option<nat>, saw: bool, val: nat, digits: nat, token: string)

  /** How the loop over the characters ends. */
  datatype LoopEnd = Ended(st: State, bits: Option<nat>, ipv4: bool) | Bad | TooMany

  /** Of a number of `bits` bits the bytes that hold them; or the ways in which parsing fails. With a "::", and a
      prefix length for fewer bytes than follow the "::", the parser writes in front of its buffer: Outside. */
  datatype ParseResult = Parsed(bits: nat, addr: seq<byte>) | NoEntry | TooManyGroups | MessageSize | Outside

  function Pushed(st: State): seq<byte> {
    st.bytes + [Hi(st.val), Lo(st.val)]
  }

  function Pad(octets: seq<byte>): (r: seq<byte>)
    ensures |octets| <= 4 ==> |r| == 4
  {
    octets + seq(if |octets| <= 4 then 4 - |octets| else 0, _ => 0)
  }

  function Run(s: string, st: State): LoopEnd
    decreases |s|
  {
    if s == [] then Ended(st, None, false)
    else
      var h := HexValue(s[0]);
      if h.Some? then
        if st.digits + 1 > 4 then Bad
        else Run(s[1..], st.(val := st.val * 16 + h.value, digits := st.digits + 1, saw := true))
      else if s[0] == ':' then
        if !st.saw then
          if st.colon.Some? then Bad
          else Run(s[1..], st.(colon := Some(|st.bytes|), token := s[1..]))
        else if s[1..] == [] then Bad
        else if |st.bytes| + 2 > 16 then TooMany
        else Run(s[1..], State(Pushed(st), st.colon, false, 0, 0, s[1..]))
      else if s[0] == '.' && |st.bytes| + 4 <= 16 && GetV4(st.token).Some? then
        var v4 := GetV4(st.token).value;
        Ended(st.(bytes := st.bytes + Pad(v4.octets), saw := false), v4.bits, true)
      else if s[0] == '/' && GetBits(s[1..]).Some? then Ended(st, GetBits(s[1..]), false)
      else Bad
  }

  /** The bytes with zeros put in for the "::", up to `end`. */
  function Spread(bytes: seq<byte>, colon: nat, end: nat): (r: seq<byte>)
    requires colon <= |bytes| <= end
    ensures |r| == end
  {
    bytes[..colon] + seq(end - |bytes|, _ => 0) + bytes[colon..]
  }

  /** The parser's buffer of 16 bytes, of which the first are filled. */
  function Buffer(bytes: seq<byte>): (r: seq<byte>)
    requires |bytes| <= 16
    ensures |r| == 16
  {
    bytes + seq(16 - |bytes|, _ => 0)
  }

  /** Moves n bytes from `colon` on to the end, the last one first, leaving zeros; i - 1 of them have been moved. */
  function Shift(tmp: seq<byte>, end: nat, colon: nat, n: nat, i: nat): (r: seq<byte>)
    requires |tmp| == 16 && n <= end <= 16 && colon + n <= 16 && 1 <= i
    ensures |r| == 16
    decreases n + 1 - i
  {
    if i > n then tmp else Shift(tmp[end - i := tmp[colon + n - i]][colon + n - i := 0], end, colon, n, i + 1)
  }

  /** The number of bytes that the groups are spread to. */
  function Extent(b: nat, ipv4: bool): nat {
    2 * (if ipv4 then 8 else if (b + 15) / 16 < 2 then 2 else (b + 15) / 16)
  }

  /** What is stored fits in the buffer. */
  ghost predicate Fits(st: State) {
    |st.bytes| <= 16 && (st.colon.Some? ==> st.colon.value <= |st.bytes|)
  }

  lemma {:induction false} RunFits(s: string, st: State)
    requires Fits(st) && Run(s, st).Ended?
    ensures Fits(Run(s, st).st) && (Run(s, st).bits.Some? ==> Run(s, st).bits.value <= 128)
    decreases |s|
  {
    hide GetV4, GetBits;
    if s != [] {
      var h := HexValue(s[0]);
      if h.Some? {
        RunFits(s[1..], st.(val := st.val * 16 + h.value, digits := st.digits + 1, saw := true));
      } else if s[0] == ':' && !st.saw {
        RunFits(s[1..], st.(colon := Some(|st.bytes|), token := s[1..]));
      } else if s[0] == ':' {
        RunFits(s[1..], State(Pushed(st), st.colon, false, 0, 0, s[1..]));
      } else if s[0] == '/' {
        GetBitsInRange(s[1..]);
      }
    }
  }

  lemma GetBitsInRange(s: string)
    ensures GetBits(s).Some? ==> GetBits(s).value <= 128
  {
    BitsInRange(s, 0, 0);
  }

  function Finish(st: State, bits: Option<nat>, ipv4: bool, size: nat): ParseResult
    requires Fits(st) && (bits.Some? ==> bits.value <= 128)
  {
    if st.saw && |st.bytes| + 2 > 16 then NoEntry
    else Placed(if st.saw then Pushed(st) else st.bytes, st.colon, if bits.Some? then bits.value else 128, ipv4, size)
  }

  function Placed(bytes: seq<byte>, colon: Option<nat>, b: nat, ipv4: bool, size: nat): ParseResult
    requires |bytes| <= 16 && b <= 128 && (colon.Some? ==> colon.value <= |bytes|)
  {
    var end := Extent(b, ipv4);
    if colon.Some? && |bytes| == end then NoEntry
    else if colon.Some? && |bytes| - colon.value > end then Outside
    else if colon.None? && |bytes| != end then NoEntry
    else
      var tmp := Buffer(bytes);
      var all := if colon.Some? then Shift(tmp, end, colon.value, |bytes| - colon.value, 1) else tmp;
      if (b + 7) / 8 > size then MessageSize else Parsed(b, all[..(b + 7) / 8])
  }

  function Start(s: string): State { State([], None, false, 0, 0, s) }

  function Pton6(s: string, size: nat): ParseResult {
    if s != [] && s[0] == ':' && (|s| < 2 || s[1] != ':') then NoEntry
    else
      var text := if s != [] && s[0] == ':' then s[1..] else s;
      match Run(text, Start(text))
      case Bad => NoEntry
      case TooMany => TooManyGroups
      case Ended(st, bits, ipv4) =>
        RunFits(text, Start(text));
        Finish(st, bits, ipv4, size)
  }

  // ----- IPv6 printing, as a function of the address -----

  function Group(src: seq<byte>, i: nat): (w: nat)
    requires |src| == 16 && i < 8
    ensures w < 0x1_0000
  {
    Word(src[2 * i], src[2 * i + 1])
  }

  /** The run of zero groups that is printed as "::"; base is -1 if there is none. */
  ghost predicate ZeroRun(src: seq<byte>, base: int, len: nat)
    requires |src| == 16
  {
    base == -1 ||
    (0 <= base && 2 <= len && base + len <= 8 && forall i :: base <= i < base + len ==> Group(src, i) == 0)
  }

  predicate InRun(base: int, len: nat, i: nat) { base != -1 && base <= i < base + len }

  /** Whether the last two groups are printed as an IPv4 address. */
  predicate Embedded(src: seq<byte>, base: int, len: nat)
    requires |src| == 16
  {
    base == 0 && (len == 6 || (len == 7 && Group(src, 7) != 1) || (len == 5 && Group(src, 5) == 0xffff))
  }

  /** What is printed from group i on. */
  function PrintFrom(src: seq<byte>, base: int, len: nat, i: nat): string
    requires |src| == 16 && i <= 8
    decreases 8 - i
  {
    if i == 8 then (if base != -1 && base + len == 8 then ":" else "")
    else if InRun(base, len, i) then (if i == base then ":" else "") + PrintFrom(src, base, len, i + 1)
    else
      (if i != 0 then ":" else "") +
      if i == 6 && Embedded(src, base, len) then Print4(src[12..])
      else Hex(Group(src, i)) + PrintFrom(src, base, len, i + 1)
  }

  // ----- parsing what was printed -----

  lemma {:induction false} HexReads(w: nat, rest: string, st: State)
    requires w < 0x1_0000 && !st.saw && st.val == st.digits == 0
    ensures Run(Hex(w) + rest, st) == Run(rest, st.(saw := true, val := w, digits := |Hex(w)|))
  {
    hide Run;
    HexLength(w);
    if w < 16 {
      DigitRuns(w, rest, st);
    } else {
      var more := [Digit(w % 16)] + rest;
      assert Hex(w) + rest == Hex(w / 16) + more;
      HexReads(w / 16, more, st);
      HexLength(w / 16);
      DigitRuns(w % 16, rest, st.(saw := true, val := w / 16, digits := |Hex(w / 16)|));
    }
  }

  lemma DigitRuns(d: nat, rest: string, st: State)
    requires d < 16 && st.digits < 4
    ensures Run([Digit(d)] + rest, st) == Run(rest, st.(saw := true, val := st.val * 16 + d, digits := st.digits + 1))
  {
    DigitReads(d);
    assert ([Digit(d)] + rest)[1..] == rest;
  }

  /** The digits of an octet read as if they were hexadecimal. */
  lemma {:induction false} OctetReadsAsHex(v: nat, rest: string, st: State) returns (val: nat)
    requires v < 256 && !st.saw && st.val == st.digits == 0
    ensures Run(Dec(v) + rest, st) == Run(rest, st.(saw := true, val := val, digits := |Dec(v)|))
  {
    hide Run;
    DecLength(v);
    if v < 10 {
      DigitRuns(v, rest, st);
      val := v;
    } else {
      var more := [Digit(v % 10)] + rest;
      assert Dec(v) + rest == Dec(v / 10) + more;
      val := OctetReadsAsHex(v / 10, more, st);
      DecLength(v / 10);
      DigitRuns(v % 10, rest, st.(saw := true, val := val, digits := |Dec(v / 10)|));
      val := val * 16 + v % 10;
    }
  }

  /** An embedded IPv4 address is read by a second parser, from the start of the token. */
  lemma EmbeddedReads(a: seq<byte>, st: State)
    requires |a| == 4 && !st.saw && st.val == st.digits == 0 && st.token == Print4(a) && |st.bytes| <= 12
    ensures var end := Run(Print4(a), st);
      end.Ended? && end.bits == None && end.ipv4 && !end.st.saw && end.st.bytes == st.bytes + a && end.st.colon == st.colon
  {
    var tail := "." + Dec(a[1]) + "." + Dec(a[2]) + "." + Dec(a[3]);
    assert Print4(a) == Dec(a[0]) + tail;
    var val := OctetReadsAsHex(a[0], tail, st);
    hide Dec;
    Print4Reads(a);
    assert tail[0] == '.';
    assert Pad(a) == a;
  }

  /** A colon after a group stores the group. */
  lemma ColonStores(rest: string, st: State)
    requires st.saw && rest != [] && |st.bytes| <= 14
    ensures Run(":" + rest, st) == Run(rest, State(Pushed(st), st.colon, false, 0, 0, rest))
  {
    assert (":" + rest)[1..] == rest;
  }

  /** A colon without a group marks the "::". */
  lemma ColonMarks(rest: string, st: State)
    requires !st.saw && st.colon.None?
    ensures Run(":" + rest, st) == Run(rest, st.(colon := Some(|st.bytes|), token := rest))
  {
    assert (":" + rest)[1..] == rest;
  }

  /** The bytes of the groups before i, without those of the run. */
  function Shown(src: seq<byte>, base: int, len: nat, i: nat): seq<byte>
    requires |src| == 16 && i <= 8 && (base == -1 || (0 <= base && base + len <= 8))
  {
    if base == -1 || i <= base then src[..2 * i]
    else if i <= base + len then src[..2 * base]
    else src[..2 * base] + src[2 * (base + len)..2 * i]
  }

  lemma ShownGrows(src: seq<byte>, base: int, len: nat, i: nat)
    requires |src| == 16 && i < 8 && (base == -1 || (0 <= base && base + len <= 8)) && !InRun(base, len, i)
    ensures Shown(src, base, len, i + 1) == Shown(src, base, len, i) + [Hi(Group(src, i)), Lo(Group(src, i))]
    ensures |Shown(src, base, len, i)| <= 2 * i
  {
    HalvesOfWord(src[2 * i], src[2 * i + 1]);
    assert src[..2 * (i + 1)] == src[..2 * i] + [src[2 * i], src[2 * i + 1]];
    if base != -1 && i >= base + len {
      var from := 2 * (base + len);
      assert src[from..2 * (i + 1)] == src[from..2 * i] + [src[2 * i], src[2 * i + 1]];
    }
  }

  /** The parser stands before group i (or the end), having read group i - 1 but not stored it. */
  ghost predicate Before(src: seq<byte>, base: int, len: nat, i: nat, st: State)
    requires |src| == 16
  {
    && 1 <= i <= 8 && (base == -1 || (0 <= base && base + len <= 8)) && !InRun(base, len, i - 1)
    && st.saw && st.val == Group(src, i - 1)
    && st.bytes == Shown(src, base, len, i - 1)
    && st.colon == (if base == -1 || i <= base then None else Some(2 * base))
  }

  /** The loop has ended with all groups read, and the place of the run noted. */
  ghost predicate AllRead(src: seq<byte>, base: int, len: nat, end: LoopEnd)
    requires |src| == 16
  {
    && (base == -1 || (0 <= base && base + len <= 8))
    && end.Ended? && end.bits == None
    && (if end.st.saw then Pushed(end.st) else end.st.bytes) == Shown(src, base, len, 8)
    && end.st.colon == (if base == -1 then None else Some(2 * base))
    && (end.st.saw ==> |end.st.bytes| <= 14)
  }

  lemma {:induction false} RunPrintsNothing(src: seq<byte>, base: nat, len: nat, i: nat)
    requires |src| == 16 && base + len <= 8 && base < i <= base + len
    ensures PrintFrom(src, base, len, i) == PrintFrom(src, base, len, base + len)
    decreases 8 - i
  {
    if i < base + len {
      RunPrintsNothing(src, base, len, i + 1);
    }
  }

  /** From a state before group i, the rest of the printed text is read to the end. */
  lemma {:induction false} TailReads(src: seq<byte>, base: int, len: nat, i: nat, st: State)
    requires |src| == 16 && ZeroRun(src, base, len) && Before(src, base, len, i, st)
    ensures AllRead(src, base, len, Run(PrintFrom(src, base, len, i), st))
    decreases 8 - i
  {
    hide Run, Hex, Print4, PrintFrom, Shown;
    ShownGrows(src, base, len, i - 1);
    if i == 8 {
      EndPrints(src, base, len);
      EndReads(st);
    } else if base != -1 && i == base {
      RunPrints(src, base, len);
      var rest := PrintFrom(src, base, len, base + len);
      ColonStores(rest, st);
      BeforeRun(src, base, len);
      AfterRun(src, base, len, State(Pushed(st), st.colon, false, 0, 0, rest));
    } else {
      GroupPrints(src, base, len, i);
      var rest := PrintFrom(src, base, len, i)[1..];
      NonEmptyGroup(src, base, len, i);
      ColonStores(rest, st);
      GroupReads(src, base, len, i, State(Pushed(st), st.colon, false, 0, 0, rest));
    }
  }

  lemma EndPrints(src: seq<byte>, base: int, len: nat)
    requires |src| == 16 && (base == -1 || (0 <= base && base + len <= 8)) && !InRun(base, len, 7)
    requires ZeroRun(src, base, len)
    ensures PrintFrom(src, base, len, 8) == ""
  {
  }

  lemma RunPrints(src: seq<byte>, base: nat, len: nat)
    requires |src| == 16 && base < 8 && ZeroRun(src, base, len)
    ensures PrintFrom(src, base, len, base) == ":" + PrintFrom(src, base, len, base + len)
    ensures PrintFrom(src, base, len, base + len) != [] && PrintFrom(src, base, len, base + len)[0] == ':'
  {
    RunPrintsNothing(src, base, len, base + 1);
  }

  lemma BeforeRun(src: seq<byte>, base: nat, len: nat)
    requires |src| == 16 && base + len <= 8
    ensures Shown(src, base, len, base) == src[..2 * base]
  {
  }

  lemma EndReads(st: State)
    ensures Run("", st) == Ended(st, None, false)
  {
  }

  lemma NonEmptyGroup(src: seq<byte>, base: int, len: nat, i: nat)
    requires |src| == 16 && 0 < i < 8 && !InRun(base, len, i)
    ensures |PrintFrom(src, base, len, i)| > 1
  {
    HexLength(Group(src, i));
    if i == 6 && Embedded(src, base, len) {
      DecLength(src[12]);
    }
  }

  lemma GroupPrints(src: seq<byte>, base: int, len: nat, i: nat)
    requires |src| == 16 && 0 < i < 8 && !InRun(base, len, i)
    ensures PrintFrom(src, base, len, i) == ":" + PrintFrom(src, base, len, i)[1..]
    ensures PrintFrom(src, base, len, i)[1..] ==
      if i == 6 && Embedded(src, base, len) then Print4(src[12..])
      else Hex(Group(src, i)) + PrintFrom(src, base, len, i + 1)
  {
    hide Hex, Print4;
  }

  lemma EmbeddedShown(src: seq<byte>, base: int, len: nat)
    requires |src| == 16 && ZeroRun(src, base, len) && !InRun(base, len, 6) && Embedded(src, base, len)
    ensures Shown(src, base, len, 8) == Shown(src, base, len, 6) + src[12..] && |Shown(src, base, len, 6)| <= 2
  {
  }

  /** Group i, whose colon was read, and everything after it. */
  lemma {:induction false} GroupReads(src: seq<byte>, base: int, len: nat, i: nat, st: State)
    requires |src| == 16 && 0 < i < 8 && ZeroRun(src, base, len) && !InRun(base, len, i)
    requires st.bytes == Shown(src, base, len, i) && !st.saw && st.val == st.digits == 0
    requires st.token == PrintFrom(src, base, len, i)[1..]
    requires st.colon == (if base == -1 || i < base then None else Some(2 * base))
    ensures AllRead(src, base, len, Run(PrintFrom(src, base, len, i)[1..], st))
    decreases 8 - i, 0
  {
    hide Run, Hex, Print4, PrintFrom, Embedded, Group;
    GroupPrints(src, base, len, i);
    if i == 6 && Embedded(src, base, len) {
      EmbeddedReads(src[12..], st);
      EmbeddedShown(src, base, len);
    } else {
      var w, more := Group(src, i), PrintFrom(src, base, len, i + 1);
      HexReads(w, more, st);
      TailReads(src, base, len, i + 1, st.(saw := true, val := w, digits := |Hex(w)|));
    }
  }

  /** The second colon of the "::", and everything after it. */
  lemma {:induction false} AfterRun(src: seq<byte>, base: int, len: nat, st: State)
    requires |src| == 16 && base != -1 && ZeroRun(src, base, len)
    requires st.bytes == src[..2 * base] && !st.saw && st.colon == None && st.val == st.digits == 0
    ensures AllRead(src, base, len, Run(PrintFrom(src, base, len, base + len), st))
    decreases 8 - base - len, 1
  {
    hide Run, Hex, Print4;
    RunPrints(src, base, len);
    var text := PrintFrom(src, base, len, base + len);
    var rest := text[1..];
    assert text == ":" + rest;
    ColonMarks(rest, st);
    var st' := st.(colon := Some(|st.bytes|), token := rest);
    if base + len == 8 {
      assert rest == "";
      assert Shown(src, base, len, 8) == src[..2 * base];
      EndReads(st');
    } else {
      GroupReads(src, base, len, base + len, st');
    }
  }

  lemma EndFits(s: string, st: State)
    requires Fits(st)
    ensures Run(s, st).Ended? ==> Fits(Run(s, st).st)
  {
    if Run(s, st).Ended? {
      RunFits(s, st);
    }
  }

  /** Printing an address and parsing the text gives the address back, whatever run of zero groups
      was printed as "::". */
  lemma TextRoundTrip6(src: seq<byte>, base: int, len: nat)
    requires |src| == 16 && ZeroRun(src, base, len)
    ensures Pton6(PrintFrom(src, base, len, 0), 16) == Parsed(128, src)
  {
    hide Run, PrintFrom, Finish, AllRead, Before, Group;
    var text := PrintFrom(src, base, len, 0);
    if base == 0 {
      RunPrints(src, base, len);
      var rest := PrintFrom(src, base, len, len);
      assert text[1..] == rest && text[1] == rest[0];
      AfterRun(src, base, len, Start(rest));
      EndFits(rest, Start(rest));
      FinishReads(src, base, len, Run(rest, Start(rest)));
    } else {
      FirstGroupReads(src, base, len);
      EndFits(text, Start(text));
      FinishReads(src, base, len, Run(text, Start(text)));
    }
  }

  lemma FirstGroupReads(src: seq<byte>, base: int, len: nat)
    requires |src| == 16 && base != 0 && ZeroRun(src, base, len)
    ensures var text := PrintFrom(src, base, len, 0);
      text != [] && text[0] != ':' && AllRead(src, base, len, Run(text, Start(text)))
  {
    hide Run, Hex, Print4, AllRead, ZeroRun;
    var w, more := Group(src, 0), PrintFrom(src, base, len, 1);
    var text := PrintFrom(src, base, len, 0);
    HexStartsWithDigit(w);
    FirstPrints(src, base, len);
    hide PrintFrom;
    assert text[0] == Hex(w)[0];
    HexReads(w, more, Start(text));
    FirstBefore(src, base, len, Start(text).(saw := true, val := w, digits := |Hex(w)|));
    TailReads(src, base, len, 1, Start(text).(saw := true, val := w, digits := |Hex(w)|));
  }

  lemma FirstPrints(src: seq<byte>, base: int, len: nat)
    requires |src| == 16 && base != 0 && ZeroRun(src, base, len)
    ensures PrintFrom(src, base, len, 0) == Hex(Group(src, 0)) + PrintFrom(src, base, len, 1)
  {
  }

  lemma FirstBefore(src: seq<byte>, base: int, len: nat, st: State)
    requires |src| == 16 && base != 0 && ZeroRun(src, base, len)
    requires st.saw && st.val == Group(src, 0) && st.bytes == [] && st.colon == None
    ensures Before(src, base, len, 1, st)
  {
  }

  lemma {:induction false} HexStartsWithDigit(w: nat)
    ensures Hex(w) != [] && Hex(w)[0] != ':'
  {
    if w >= 16 {
      HexStartsWithDigit(w / 16);
    } else {
      DigitReads(w);
    }
  }

  lemma FinishReads(src: seq<byte>, base: int, len: nat, end: LoopEnd)
    requires |src| == 16 && ZeroRun(src, base, len) && AllRead(src, base, len, end)
    requires end.Ended? ==> Fits(end.st)
    ensures end.Ended? && Fits(end.st) && end.bits.None?
    ensures Finish(end.st, end.bits, end.ipv4, 16) == Parsed(128, src)
  {
    hide Spread, Shown, Pushed, Shift;
    assert src[..16] == src;
    if base == -1 {
      ShownAll(src);
    } else {
      SpreadRestores(src, base, len);
      ShiftSpreads(Shown(src, base, len, 8), 2 * base, 16);
    }
  }

  /** The buffer after j of the bytes from `colon` on have been moved. */
  function Moved(bytes: seq<byte>, end: nat, j: nat): (r: seq<byte>)
    requires j <= |bytes| <= end <= 16
    ensures |r| == 16
  {
    bytes[..|bytes| - j] + seq(end - |bytes|, _ => 0) + bytes[|bytes| - j..] + seq(16 - end, _ => 0)
  }

  /** Moving the bytes within the buffer, one by one, puts the zeros in. */
  lemma ShiftSpreads(bytes: seq<byte>, colon: nat, end: nat)
    requires colon <= |bytes| < end <= 16
    ensures Shift(Buffer(bytes), end, colon, |bytes| - colon, 1)[..end] == Spread(bytes, colon, end)
  {
    assert Moved(bytes, end, 0) == Buffer(bytes);
    ShiftFrom(bytes, colon, end, 1);
  }

  lemma {:induction false} ShiftFrom(bytes: seq<byte>, colon: nat, end: nat, i: nat)
    requires colon <= |bytes| < end <= 16 && 1 <= i <= |bytes| - colon + 1
    ensures Shift(Moved(bytes, end, i - 1), end, colon, |bytes| - colon, i) == Moved(bytes, end, |bytes| - colon)
    decreases |bytes| - i
  {
    if i <= |bytes| - colon {
      MoveOne(bytes, end, i);
      hide Moved;
      ShiftFrom(bytes, colon, end, i + 1);
    }
  }

  lemma MoveOne(bytes: seq<byte>, end: nat, i: nat)
    requires 1 <= i <= |bytes| < end <= 16
    ensures var m := Moved(bytes, end, i - 1); m[end - i := m[|bytes| - i]][|bytes| - i := 0] == Moved(bytes, end, i)
  {
  }

  lemma ShownAll(src: seq<byte>)
    requires |src| == 16
    ensures Shown(src, -1, 0, 8) == src && forall len :: Shown(src, -1, len, 8) == src
  {
  }

  lemma SpreadRestores(src: seq<byte>, base: nat, len: nat)
    requires |src| == 16 && ZeroRun(src, base, len)
    ensures var bytes := Shown(src, base, len, 8);
      2 * base <= |bytes| < 16 && Spread(bytes, 2 * base, 16) == src
  {
    ZeroBytes(src, base, len);
    hide ZeroRun;
    var bytes := Shown(src, base, len, 8);
    var from := 2 * (base + len);
    assert bytes == src[..2 * base] + src[from..16];
    assert bytes[..2 * base] == src[..2 * base] && bytes[2 * base..] == src[from..16];
    assert src[2 * base..from] == seq(16 - |bytes|, _ => 0);
    assert src == src[..2 * base] + src[2 * base..from] + src[from..16];
  }

  lemma ZeroBytes(src: seq<byte>, base: nat, len: nat)
    requires |src| == 16 && ZeroRun(src, base, len)
    ensures forall k :: 2 * base <= k < 2 * (base + len) ==> src[k] == 0
  {
    forall k | 2 * base <= k < 2 * (base + len) ensures src[k] == 0 {
      assert Group(src, k / 2) == 0;
    }
  }

  // ----- the printer -----

  ghost predicate AllZero(words: seq<nat>, b: int, l: int) {
    0 <= b && 0 < l && b + l <= |words| && forall i :: b <= i < b + l ==> words[i] == 0
  }

  /** (b, l) is at least as good a run as any that ends by `limit`: longer, or as long and not further right. */
  ghost predicate Beats(base: int, len: int, words: seq<nat>, limit: int) {
    forall b, l :: AllZero(words, b, l) && b + l <= limit ==> base != -1 && (l < len || (l == len && base <= b))
  }

  /** The run to print as "::": the longest of at least two zero groups, and the leftmost of those
      (section 4.2 of RFC 5952); none if there is no such run. */
  ghost predicate BestRun(words: seq<nat>, base: int, len: nat) {
    if base == -1 then forall b, l :: AllZero(words, b, l) ==> l < 2
    else len >= 2 && AllZero(words, base, len) && Beats(base, len, words, |words|)
  }

  /** There is only one. */
  lemma BestRunUnique(words: seq<nat>, b1: int, l1: nat, b2: int, l2: nat)
    requires BestRun(words, b1, l1) && BestRun(words, b2, l2)
    ensures b1 == b2 && (b1 != -1 ==> l1 == l2)
  {
    if b1 != -1 && b2 != -1 {
      assert AllZero(words, b1, l1) && AllZero(words, b2, l2);
    }
  }

  /** A run in progress, or none: it started after a non-zero group and reaches to i. */
  ghost predicate Current(words: seq<nat>, base: int, len: nat, i: nat) {
    && i <= |words|
    && (if base == -1 then i == 0 || words[i - 1] != 0
        else 0 <= base < i && len == i - base && AllZero(words, base, len) && (base == 0 || words[base - 1] != 0))
  }

  ghost predicate BestSoFar(words: seq<nat>, base: int, len: nat, limit: int) {
    (base != -1 ==> AllZero(words, base, len) && base + len <= limit) && Beats(base, len, words, limit)
  }

  /** When a run in progress ends, the better of it and the best so far is the best. */
  lemma RunEnds(words: seq<nat>, best: int, bestLen: nat, cur: int, curLen: nat, i: nat)
    requires Current(words, cur, curLen, i) && cur != -1 && BestSoFar(words, best, bestLen, cur)
    ensures best == -1 || curLen > bestLen ==> BestSoFar(words, cur, curLen, i)
    ensures best != -1 && curLen <= bestLen ==> BestSoFar(words, best, bestLen, i)
  {
    forall b, l | AllZero(words, b, l) && b + l <= i
      ensures b + l <= cur || (b >= cur && l <= curLen)
    {
      assert cur == 0 || !(b <= cur - 1 < b + l);
    }
  }

  lemma NonZeroEnds(words: seq<nat>, base: int, len: nat, i: nat)
    requires i < |words| && words[i] != 0 && BestSoFar(words, base, len, i)
    ensures BestSoFar(words, base, len, i + 1)
  {
    forall b, l | AllZero(words, b, l) && b + l <= i + 1 ensures b + l <= i {
      assert !(b <= i < b + l);
    }
  }

  /** Finds the run to print as "::". */
  method FindRun(words: seq<nat>) returns (base: int, len: nat)
    ensures BestRun(words, base, len)
  {
    hide AllZero, Beats;
    base, len := -1, 0;
    var cur, curLen: nat := -1, 0;
    var i := 0;
    NothingYet(words);
    while i < |words|
      invariant 0 <= i <= |words| && Current(words, cur, curLen, i)
      invariant BestSoFar(words, base, len, if cur == -1 then i else cur)
    {
      if words[i] == 0 {
        Zero(words, cur, curLen, i);
        if cur == -1 {
          cur, curLen := i, 1;
        } else {
          curLen := curLen + 1;
        }
      } else {
        if cur != -1 {
          RunEnds(words, base, len, cur, curLen, i);
          if base == -1 || curLen > len {
            base, len := cur, curLen;
          }
          cur := -1;
        }
        NonZeroEnds(words, base, len, i);
      }
      i := i + 1;
    }
    if cur != -1 {
      RunEnds(words, base, len, cur, curLen, i);
      if base == -1 || curLen > len {
        base, len := cur, curLen;
      }
    }
    Chosen(words, base, len);
    if base != -1 && len < 2 {
      base := -1;
    }
  }

  lemma NothingYet(words: seq<nat>)
    ensures BestSoFar(words, -1, 0, 0)
  {
  }

  lemma Zero(words: seq<nat>, cur: int, curLen: nat, i: nat)
    requires i < |words| && words[i] == 0 && Current(words, cur, curLen, i)
    ensures cur == -1 ==> Current(words, i, 1, i + 1)
    ensures cur != -1 ==> Current(words, cur, curLen + 1, i + 1)
  {
  }

  lemma Chosen(words: seq<nat>, base: int, len: nat)
    requires BestSoFar(words, base, len, |words|)
    ensures base == -1 || len < 2 ==> BestRun(words, -1, len)
    ensures base != -1 && len >= 2 ==> BestRun(words, base, len)
  {
    if base == -1 || len < 2 {
      forall b, l | AllZero(words, b, l) ensures l < 2 {
      }
    }
  }

  function Groups(src: seq<byte>): (words: seq<nat>)
    requires |src| == 16
    ensures |words| == 8 && forall i :: 0 <= i < 8 ==> words[i] == Group(src, i)
  {
    seq(8, i requires 0 <= i < 8 => Group(src, i))
  }

  /** Group k when only the first i bytes are taken in. */
  function PartialGroup(src: seq<byte>, k: nat, i: nat): nat
    requires |src| == 16 && k < 8
  {
    (if 2 * k < i then src[2 * k] as int * 256 else 0) + (if 2 * k + 1 < i then src[2 * k + 1] as int else 0)
  }

  /** Copies the bytes into groups. */
  method MakeWords(src: seq<byte>) returns (result: seq<nat>)
    requires |src| == 16
    ensures result == Groups(src)
  {
    var words := new nat[8](_ => 0);
    var i := 0;
    while i < 16
      invariant 0 <= i <= 16
      invariant forall k :: 0 <= k < 8 ==> words[k] == PartialGroup(src, k, i)
    {
      words[i / 2] := words[i / 2] + src[i] as int * (if i % 2 == 0 then 256 else 1);
      i := i + 1;
    }
    return words[..];
  }

  /** An IPv4 address as text, if it fits with its NUL. */
  method Ntop4(src: seq<byte>, size: nat) returns (text: Option<string>)
    requires |src| == 4
    ensures text == if |Print4(src)| >= size then None else Some(Print4(src))
  {
    var tmp := Print4(src);
    if |tmp| >= size {
      return None;
    }
    return Some(tmp);
  }

  lemma {:induction false} PrintFits(src: seq<byte>, base: int, len: nat, i: nat)
    requires |src| == 16 && i <= 8
    ensures |PrintFrom(src, base, len, i)| <= if i == 0 then 45 else 46 - 5 * i
    decreases 8 - i
  {
    hide Hex, Embedded;
    if i < 8 {
      PrintFits(src, base, len, i + 1);
      HexLength(Group(src, i));
      Print4Fits(src[12..]);
    }
  }

  lemma Print4Fits(a: seq<byte>)
    requires |a| == 4
    ensures |Print4(a)| <= 15
  {
    hide Dec;
    DecLength(a[0]);
    DecLength(a[1]);
    DecLength(a[2]);
    DecLength(a[3]);
  }

  /** An IPv6 address as text, with the best run of zero groups as "::", if it fits with its NUL. */
  method Ntop6(src: seq<byte>, size: nat) returns (text: Option<string>, ghost base: int, ghost len: nat)
    requires |src| == 16
    ensures BestRun(Groups(src), base, len)
    ensures text == if |PrintFrom(src, base, len, 0)| + 1 > size then None else Some(PrintFrom(src, base, len, 0))
    ensures size >= 46 ==> text.Some?
    ensures text.Some? ==> Pton6(text.value, 16) == Parsed(128, src)
  {
    hide Pton6, BestRun;
    var words := MakeWords(src);
    var best, bestLen := FindRun(words);
    base, len := best, bestLen;
    var tmp := Format(src, words, best, bestLen);
    PrintFits(src, base, len, 0);
    BestIsZero(src, base, len);
    TextRoundTrip6(src, base, len);
    if |tmp| + 1 > size {
      return None, base, len;
    }
    return Some(tmp), base, len;
  }

  /** Writes the groups one by one, the run as "::", and perhaps an IPv4 address at the end. */
  method Format(src: seq<byte>, words: seq<nat>, base: int, len: nat) returns (tmp: string)
    requires |src| == 16 && words == Groups(src)
    ensures tmp == PrintFrom(src, base, len, 0)
  {
    hide PrintFrom, Hex, Print4, Group;
    tmp := "";
    var i := 0;
    ghost var all := PrintFrom(src, base, len, 0);
    while i < 8
      invariant 0 <= i <= 8
      invariant tmp + PrintFrom(src, base, len, i) == all
    {
      PrintStep(src, base, len, i);
      if base != -1 && base <= i < base + len {
        if i == base {
          tmp := tmp + ":";
        }
      } else {
        if i != 0 {
          tmp := tmp + ":";
        }
        if i == 6 && Embedded(src, base, len) {
          var tail := Ntop4(src[12..], 46);
          Print4Fits(src[12..]);
          return tmp + tail.value;
        }
        tmp := tmp + Hex(words[i]);
      }
      i := i + 1;
    }
    PrintEnd(src, base, len);
    if base != -1 && base + len == 8 {
      tmp := tmp + ":";
    }
  }

  lemma PrintStep(src: seq<byte>, base: int, len: nat, i: nat)
    requires |src| == 16 && i < 8
    ensures PrintFrom(src, base, len, i) ==
      if InRun(base, len, i) then (if i == base then ":" else "") + PrintFrom(src, base, len, i + 1)
      else if i == 6 && Embedded(src, base, len) then ":" + Print4(src[12..])
      else (if i != 0 then ":" else "") + (Hex(Group(src, i)) + PrintFrom(src, base, len, i + 1))
  {
    hide Hex, Print4;
  }

  lemma PrintEnd(src: seq<byte>, base: int, len: nat)
    requires |src| == 16
    ensures PrintFrom(src, base, len, 8) == if base != -1 && base + len == 8 then ":" else ""
  {
  }

  lemma BestIsZero(src: seq<byte>, base: int, len: nat)
    requires |src| == 16 && BestRun(Groups(src), base, len)
    ensures ZeroRun(src, base, len)
  {
    if base != -1 {
      assert AllZero(Groups(src), base, len);
      forall i | base <= i < base + len ensures Group(src, i) == 0 {
        assert Groups(src)[i] == 0;
      }
    }
  }

  // ----- the IPv6 parser -----

  method ParseBits(src: string) returns (bits: Option<nat>)
    ensures bits == GetBits(src)
  {
    var n, val: nat := 0, 0;
    var k := 0;
    while k < |src|
      invariant 0 <= k <= |src|
      invariant BitsFrom(src[k..], n, val) == GetBits(src)
    {
      assert src[k..][1..] == src[k + 1..];
      if !IsDigit(src[k]) {
        return None;
      }
      if n != 0 && val == 0 {
        return None;
      }
      val := val * 10 + DigitValue(src[k]);
      if val > 128 {
        return None;
      }
      n, k := n + 1, k + 1;
    }
    return if n == 0 then None else Some(val);
  }

  /** The bytes put over those of a buffer at a position. */
  function Overlay(old_: seq<byte>, at: nat, octets: seq<byte>): (r: seq<byte>)
    requires at + |octets| <= |old_|
    ensures |r| == |old_|
  {
    old_[..at] + octets + old_[at + |octets|..]
  }

  /** Parses dotted octets and stores them at position `at` of a buffer. */
  method ParseV4(src: string, dst: array<byte>, at: nat) returns (ok: bool, bits: Option<nat>)
    requires at + 4 <= dst.Length
    modifies dst
    ensures ok <==> GetV4(src).Some?
    ensures ok ==> bits == GetV4(src).value.bits
    ensures ok ==> dst[..] == Overlay(old(dst[..]), at, GetV4(src).value.octets)
  {
    hide Overlay, GetBits;
    var n, val: byte, d: nat := 0, 0, 0;
    ghost var octets: seq<byte> := [];
    ghost var before := dst[..];
    var k := 0;
    OverlayNone(before, at);
    while k < |src|
      invariant 0 <= k <= |src| && 0 <= n
      invariant d == |octets| <= 4
      invariant V4From(src[k..], octets, n, val) == GetV4(src)
      invariant dst[..] == Overlay(before, at, octets)
    {
      assert src[k..][1..] == src[k + 1..];
      var ch := src[k];
      if IsDigit(ch) {
        if n != 0 && val == 0 {
          return false, None;
        }
        if val as int * 10 + DigitValue(ch) > 255 {
          return false, None;
        }
        val := val as int * 10 + DigitValue(ch);
        n, k := n + 1, k + 1;
      } else if ch == '.' || ch == '/' {
        if d > 3 {
          return false, None;
        }
        OverlayOne(before, at, octets, val);
        dst[at + d] := val;
        octets := octets + [val];
        d := d + 1;
        if ch == '/' {
          bits := ParseBits(src[k + 1..]);
          return bits.Some?, bits;
        }
        n, val, k := 0, 0, k + 1;
      } else {
        return false, None;
      }
    }
    if n == 0 || d > 3 {
      return false, None;
    }
    OverlayOne(before, at, octets, val);
    dst[at + d] := val;
    return true, None;
  }

  lemma OverlayNone(before: seq<byte>, at: nat)
    requires at <= |before|
    ensures Overlay(before, at, []) == before
  {
    var none: seq<byte> := [];
    assert before[..at] + none + before[at..] == before;
  }

  lemma OverlayOne(before: seq<byte>, at: nat, octets: seq<byte>, val: byte)
    requires at + |octets| < |before|
    ensures Overlay(before, at, octets)[at + |octets| := val] == Overlay(before, at, octets + [val])
  {
  }

  /** The buffer is filled with `bytes`, up to tp. */
  predicate Filled(tmp: seq<byte>, tp: nat, bytes: seq<byte>) {
    tp == |bytes| <= 16 && tmp == Buffer(bytes)
  }

  lemma PushedFills(tmp: seq<byte>, tp: nat, st: State)
    requires Filled(tmp, tp, st.bytes) && tp <= 14
    ensures Filled(tmp[tp := Hi(st.val)][tp + 1 := Lo(st.val)], tp + 2, Pushed(st))
  {
  }

  lemma PadFills(tmp: seq<byte>, tp: nat, bytes: seq<byte>, octets: seq<byte>)
    requires Filled(tmp, tp, bytes) && tp <= 12 && |octets| <= 4
    ensures Filled(Overlay(tmp, tp, octets), tp + 4, bytes + Pad(octets))
  {
  }

  lemma RunsOn(text: string, k: nat, st: State)
    requires k < |text|
    ensures text[k..] != [] && text[k..][0] == text[k] && text[k..][1..] == text[k + 1..]
    ensures text[k + 1..] == [] <==> k + 1 == |text|
  {
  }

  /** Stores a group in two bytes. */
  method StorePair(tmp: array<byte>, tp: nat, val: nat)
    requires tp + 2 <= tmp.Length
    modifies tmp
    ensures tmp[..] == old(tmp[..])[tp := Hi(val)][tp + 1 := Lo(val)]
  {
    tmp[tp] := Hi(val);
    tmp[tp + 1] := Lo(val);
  }

  /** The loop over the characters; `early` is the result if the loop fails, and otherwise `end` says what
      the variables are. */
  method ReadGroups(text: string, tmp: array<byte>)
    returns (early: Option<ParseResult>, tp: nat, colon: Option<nat>, saw: bool, val: nat, bits: Option<nat>, ipv4: bool,
      ghost end: LoopEnd)
    requires tmp.Length == 16 && Filled(tmp[..], 0, [])
    modifies tmp
    ensures end == Run(text, Start(text))
    ensures early == match end { case Ended(_, _, _) => None case Bad => Some(NoEntry) case TooMany => Some(TooManyGroups) }
    ensures early.None? ==> end.bits == bits && end.ipv4 == ipv4 && end.st.colon == colon && end.st.saw == saw && end.st.val == val
    ensures early.None? ==> Filled(tmp[..], tp, end.st.bytes)
    ensures early.None? ==> (colon.Some? ==> colon.value <= tp) && (bits.Some? ==> bits.value <= 128)
  {
    hide Filled, GetV4, GetBits, Overlay, Pushed, Pad;
    end := Run(text, Start(text));
    early, tp, colon, saw, val, bits, ipv4 := None, 0, None, false, 0, None, false;
    var digits: nat, curtok, k := 0, 0, 0;
    ghost var bytes: seq<byte> := [];
    assert text[0..] == text;
    while k < |text|
      invariant 0 <= k <= |text| && 0 <= curtok <= |text|
      invariant tp == |bytes| <= 16 && Filled(tmp[..], tp, bytes)
      invariant colon.Some? ==> colon.value <= tp
      invariant early.None? && bits.None? && !ipv4
      invariant Run(text[k..], State(bytes, colon, saw, val, digits, text[curtok..])) == end
    {
      ghost var st := State(bytes, colon, saw, val, digits, text[curtok..]);
      RunsOn(text, k, st);
      var ch := text[k];
      k := k + 1;
      var h := HexValue(ch);
      if h.Some? {
        val := val * 16 + h.value;
        digits := digits + 1;
        if digits > 4 {
          early := Some(NoEntry);
          return;
        }
        saw := true;
      } else if ch == ':' {
        curtok := k;
        if !saw {
          if colon.Some? {
            early := Some(NoEntry);
            return;
          }
          colon := Some(tp);
        } else if k == |text| {
          early := Some(NoEntry);
          return;
        } else if tp + 2 > 16 {
          early := Some(TooManyGroups);
          return;
        } else {
          PushedFills(tmp[..], tp, st);
          StorePair(tmp, tp, val);
          bytes := Pushed(st);
          tp := tp + 2;
          saw, digits, val := false, 0, 0;
        }
      } else {
        early, tp, saw, bits, ipv4 := ReadTail(text, k, ch, tmp, tp, saw, curtok, st);
        return;
      }
    }
  }

  /** What may end the groups: dotted octets or a prefix length. */
  method ReadTail(text: string, k: nat, ch: char, tmp: array<byte>, tp0: nat, saw0: bool, curtok: nat, ghost st: State)
    returns (early: Option<ParseResult>, tp: nat, saw: bool, bits: Option<nat>, ipv4: bool)
    requires 1 <= k <= |text| && ch == text[k - 1] && HexValue(ch).None? && ch != ':' && curtok <= |text|
    requires tmp.Length == 16 && Filled(tmp[..], tp0, st.bytes)
    requires st.saw == saw0 && st.token == text[curtok..]
    modifies tmp
    ensures var end := Run(text[k - 1..], st);
      && early == (if end.Ended? then None else Some(NoEntry))
      && end != TooMany
      && (end.Ended? ==>
          && end.bits == bits && end.ipv4 == ipv4 && end.st.saw == saw && end.st.colon == st.colon && end.st.val == st.val
          && Filled(tmp[..], tp, end.st.bytes) && tp0 <= tp && (bits.Some? ==> bits.value <= 128))
  {
    hide GetV4, GetBits, Overlay, Pushed;
    RunsOn(text, k - 1, st);
    early, tp, saw, bits, ipv4 := None, tp0, saw0, None, false;
    if ch == '.' && tp + 4 <= 16 {
      ghost var before := tmp[..];
      var ok, b := ParseV4(text[curtok..], tmp, tp);
      if ok {
        PadFills(before, tp, st.bytes, GetV4(st.token).value.octets);
        tp, saw, bits, ipv4 := tp + 4, false, b, true;
        return;
      }
    }
    if ch == '/' {
      bits := ParseBits(text[k..]);
      GetBitsInRange(text[k..]);
      if bits.Some? {
        return;
      }
    }
    early := Some(NoEntry);
  }

  /** Moves n bytes to the end, by hand because the two places overlap. */
  method ShiftInPlace(tmp: array<byte>, end: nat, colon: nat, n: nat)
    requires tmp.Length == 16 && n <= end <= 16 && colon + n <= 16
    modifies tmp
    ensures tmp[..] == Shift(old(tmp[..]), end, colon, n, 1)
  {
    var i := 1;
    while i <= n
      invariant 1 <= i <= n + 1
      invariant Shift(tmp[..], end, colon, n, i) == Shift(old(tmp[..]), end, colon, n, 1)
    {
      ghost var before := tmp[..];
      tmp[end - i] := tmp[colon + n - i];
      tmp[colon + n - i] := 0;
      assert tmp[..] == before[end - i := before[colon + n - i]][colon + n - i := 0];
      i := i + 1;
    }
  }

  /** Parses an IPv6 network number. */
  method ParseV6(src: string, size: nat) returns (r: ParseResult)
    ensures r == Pton6(src, size)
  {
    hide Run, Pushed, Shift;
    var text := src;
    if src != [] && src[0] == ':' {
      if |src| < 2 || src[1] != ':' {
        return NoEntry;
      }
      text := src[1..];
    }
    var tmp := new byte[16](_ => 0);
    assert tmp[..] == Buffer([]);
    var early, tp, colon, saw, val, bits, ipv4, end_ := ReadGroups(text, tmp);
    if early.Some? {
      return early.value;
    }
    ghost var bytes := end_.st.bytes;
    if saw {
      if tp + 2 > 16 {
        return NoEntry;
      }
      PushedFills(tmp[..], tp, end_.st);
      StorePair(tmp, tp, val);
      tp := tp + 2;
      bytes := Pushed(end_.st);
    }
    var b := if bits.Some? then bits.value else 128;
    assert Pton6(src, size) == Placed(bytes, colon, b, ipv4, size);
    r := Place(tmp, tp, colon, b, ipv4, size, bytes);
  }

  /** Spreads the groups over the address and takes the bytes of the prefix. */
  method Place(tmp: array<byte>, tp: nat, colon: Option<nat>, b: nat, ipv4: bool, size: nat, ghost bytes: seq<byte>)
    returns (r: ParseResult)
    requires tmp.Length == 16 && Filled(tmp[..], tp, bytes) && b <= 128 && (colon.Some? ==> colon.value <= tp)
    modifies tmp
    ensures r == Placed(bytes, colon, b, ipv4, size)
  {
    hide Shift, Buffer;
    var endp := Extent(b, ipv4);
    if colon.Some? {
      if tp == endp {
        return NoEntry;
      }
      if tp - colon.value > endp {
        return Outside;
      }
      ShiftInPlace(tmp, endp, colon.value, tp - colon.value);
    } else if tp != endp {
      return NoEntry;
    }
    if (b + 7) / 8 > size {
      return MessageSize;
    }
    return Parsed(b, tmp[..(b + 7) / 8]);
  }
}
