/** When the IPv6 parser writes in front of its buffer: exactly for the texts in which more groups follow the "::" than
    the prefix length leaves room for. */
module Bounds {
  import opened Wrappers
  import opened Inet

  predicate Hexes(s: string) { forall i :: 0 <= i < |s| ==> HexValue(s[i]).Some? }

  predicate IsGroup(g: string) { 1 <= |g| <= 4 && Hexes(g) }

  predicate Groups(gs: seq<string>) { forall i :: 0 <= i < |gs| ==> IsGroup(gs[i]) }

  /** Groups with a colon after each. */
  function Each(gs: seq<string>): string {
    if gs == [] then "" else gs[0] + ":" + Each(gs[1..])
  }

  /** Groups, "::", more groups of which the last one may be without a colon, and a prefix length. */
  function Compressed(left: seq<string>, right: seq<string>, last: string, bits: string): string {
    (if left == [] then ":" else "") + Each(left) + ":" + (Each(right) + last + "/" + bits)
  }

  function CountRight(right: seq<string>, last: string): nat { |right| + if last == "" then 0 else 1 }

  /** The text is a compressed one of at most eight groups, with more than two groups after the "::" and a prefix
      length that does not reach into the last of them. */
  ghost predicate Overlong(s: string) {
    exists left, right, last, bits :: IsOverlong(s, left, right, last, bits)
  }

  predicate IsOverlong(s: string, left: seq<string>, right: seq<string>, last: string, bits: string) {
    && s == Compressed(left, right, last, bits)
    && Groups(left) && Groups(right) && (last == "" || IsGroup(last)) && GetBits(bits).Some?
    && |left| + CountRight(right, last) <= 8
    && CountRight(right, last) > 2 && GetBits(bits).value <= 16 * (CountRight(right, last) - 1)
  }

  // ----- reading such a text -----

  /** Between two groups. */
  predicate Between(st: State) { !st.saw && st.val == st.digits == 0 }

  lemma {:induction false} GroupRuns(g: string, rest: string, st: State) returns (val: nat)
    requires Hexes(g) && |g| + st.digits <= 4 && g != []
    ensures Run(g + rest, st) == Run(rest, st.(saw := true, val := val, digits := st.digits + |g|))
    decreases |g|
  {
    var h := HexValue(g[0]).value;
    var st' := st.(val := st.val * 16 + h, digits := st.digits + 1, saw := true);
    assert (g + rest)[0] == g[0] && (g + rest)[1..] == g[1..] + rest;
    assert Run(g + rest, st) == Run(g[1..] + rest, st');
    hide Run;
    if |g| == 1 {
      assert g[1..] + rest == rest;
      val := st'.val;
    } else {
      val := GroupRuns(g[1..], rest, st');
    }
  }

  lemma {:induction false} EachRuns(gs: seq<string>, rest: string, st: State) returns (st': State)
    requires Groups(gs) && Between(st) && |st.bytes| + 2 * |gs| <= 16 && rest != []
    ensures Run(Each(gs) + rest, st) == Run(rest, st')
    ensures Between(st') && |st'.bytes| == |st.bytes| + 2 * |gs| && st'.colon == st.colon
    decreases |gs|
  {
    hide Run;
    if gs == [] {
      assert Each(gs) + rest == rest;
      st' := st;
    } else {
      var more := Each(gs[1..]) + rest;
      assert Each(gs) + rest == gs[0] + (":" + more);
      var val := GroupRuns(gs[0], ":" + more, st);
      var read := st.(saw := true, val := val, digits := st.digits + |gs[0]|);
      ColonStores(more, read);
      st' := EachRuns(gs[1..], rest, State(Pushed(read), read.colon, false, 0, 0, more));
    }
  }

  lemma SlashEnds(bits: string, st: State)
    requires GetBits(bits).Some?
    ensures Run("/" + bits, st) == Ended(st, GetBits(bits), false)
  {
    hide GetBits;
    assert ("/" + bits)[1..] == bits;
  }

  lemma RightRuns(right: seq<string>, last: string, bits: string, st: State) returns (end: State)
    requires Groups(right) && (last == "" || IsGroup(last)) && GetBits(bits).Some?
    requires Between(st) && |st.bytes| + 2 * CountRight(right, last) <= 16
    ensures Run(Each(right) + last + "/" + bits, st) == Ended(end, GetBits(bits), false)
    ensures end.saw <==> last != ""
    ensures |end.bytes| == |st.bytes| + 2 * |right| && end.colon == st.colon
  {
    hide Run, GetBits;
    var tail := last + ("/" + bits);
    assert Each(right) + last + "/" + bits == Each(right) + tail;
    end := EachRuns(right, tail, st);
    if last != "" {
      var val := GroupRuns(last, "/" + bits, end);
      end := end.(saw := true, val := val, digits := end.digits + |last|);
    } else {
      assert tail == "/" + bits;
    }
    SlashEnds(bits, end);
  }

  lemma OverlongIsOutside(s: string, left: seq<string>, right: seq<string>, last: string, bits: string, size: nat)
    requires IsOverlong(s, left, right, last, bits)
    ensures Pton6(s, size) == Outside
  {
    hide Run, GetBits, Each, Groups, Finish, IsGroup;
    var tail := Each(right) + last + "/" + bits;
    var text := Each(left) + (":" + tail);
    var st := EachRuns(left, ":" + tail, Start(text));
    ColonMarks(tail, st);
    var end := RightRuns(right, last, bits, st.(colon := Some(|st.bytes|), token := tail));
    assert Run(text, Start(text)) == Ended(end, GetBits(bits), false);
    EndFits(text, Start(text));
    StartsRight(left, tail);
    assert s == (if left == [] then ":" else "") + text;
    assert left == [] ==> s[1..] == text;
    assert left != [] ==> s == text;
    GetBitsInRange(bits);
    OverlongEnd(end, |left|, right, last, GetBits(bits).value, size);
  }

  lemma OverlongEnd(end: State, n: nat, right: seq<string>, last: string, b: nat, size: nat)
    requires Fits(end) && end.colon == Some(2 * n) && |end.bytes| == 2 * n + 2 * |right| && (end.saw <==> last != "")
    requires n + CountRight(right, last) <= 8 && CountRight(right, last) > 2 && b <= 16 * (CountRight(right, last) - 1) && b <= 128
    ensures Finish(end, Some(b), false, size) == Outside
  {
  }

  lemma StartsRight(left: seq<string>, tail: string)
    requires Groups(left)
    ensures left == [] ==> Each(left) + (":" + tail) == ":" + tail
    ensures left != [] ==> Each(left) != [] && (Each(left) + (":" + tail))[0] != ':'
  {
    if left != [] {
      assert IsGroup(left[0]);
      assert Each(left)[0] == left[0][0];
      assert HexValue(left[0][0]).Some?;
    }
  }

  // ----- what a text was if it is read to its prefix length -----

  /** A group of which d digits have been read already. */
  predicate Part(g: string, d: nat) { Hexes(g) && 1 <= |g| + d <= 4 }

  /** Groups of which the first one may have begun already. */
  predicate Parts(gs: seq<string>, last: string, d: nat) {
    if gs == [] then Hexes(last) && |last| + d <= 4
    else Part(gs[0], d) && Groups(gs[1..]) && (last == "" || IsGroup(last))
  }

  predicate Reading(st: State) { st.digits <= 4 && (st.saw <==> st.digits > 0) && (!st.saw ==> st.val == 0) }

  function Prefixed(c: char, gs: seq<string>): seq<string>
    requires gs != []
  {
    [[c] + gs[0]] + gs[1..]
  }

  /** After the "::" only groups, each with a colon but perhaps the last, are read up to a prefix length. */
  lemma {:induction false} TailShape(s: string, st: State) returns (gs: seq<string>, last: string, bits: string)
    requires st.colon.Some? && Reading(st)
    requires Run(s, st).Ended? && !Run(s, st).ipv4 && Run(s, st).bits.Some?
    ensures s == Each(gs) + last + "/" + bits && Parts(gs, last, st.digits)
    ensures var end := Run(s, st);
      && GetBits(bits) == end.bits && end.st.colon == st.colon
      && |end.st.bytes| == |st.bytes| + 2 * |gs|
      && (end.st.saw <==> last != "" || (gs == [] && st.saw))
    decreases |s|
  {
    hide GetBits, GetV4, Each;
    var h := HexValue(s[0]);
    assert s == [s[0]] + s[1..];
    if h.Some? {
      gs, last, bits := TailShape(s[1..], st.(val := st.val * 16 + h.value, digits := st.digits + 1, saw := true));
      hide Run;
      DigitBefore(s[0], gs, last, bits, st.digits);
      if gs == [] {
        last := [s[0]] + last;
      } else {
        gs := Prefixed(s[0], gs);
      }
    } else if s[0] == ':' {
      gs, last, bits := TailShape(s[1..], State(Pushed(st), st.colon, false, 0, 0, s[1..]));
      hide Run;
      ColonBefore(gs, last, bits, st.digits);
      gs := [""] + gs;
    } else {
      gs, last, bits := [], "", s[1..];
      EachNone();
      assert s == "/" + bits;
    }
  }

  lemma EachNone()
    ensures Each([]) == ""
  {
  }

  lemma DigitBefore(c: char, gs: seq<string>, last: string, bits: string, d: nat)
    requires HexValue(c).Some? && d < 4 && Parts(gs, last, d + 1)
    ensures gs == [] ==> Parts([], [c] + last, d)
    ensures gs == [] ==> [c] + (Each(gs) + last + "/" + bits) == Each([]) + ([c] + last) + "/" + bits
    ensures gs != [] ==> Parts(Prefixed(c, gs), last, d)
    ensures gs != [] ==> [c] + (Each(gs) + last + "/" + bits) == Each(Prefixed(c, gs)) + last + "/" + bits
  {
    if gs != [] {
      var more := Each(gs[1..]);
      assert Prefixed(c, gs)[1..] == gs[1..];
      assert Each(gs) == gs[0] + ":" + more && Each(Prefixed(c, gs)) == [c] + gs[0] + ":" + more;
      hide Each;
      assert [c] + (gs[0] + ":" + more) == [c] + gs[0] + ":" + more;
      Front([c], Each(gs), last, "/" + bits);
    }
  }

  lemma Front(c: string, a: string, b: string, d: string)
    ensures c + (a + b + d) == (c + a) + b + d
  {
  }

  lemma ColonBefore(gs: seq<string>, last: string, bits: string, d: nat)
    requires Parts(gs, last, 0) && 1 <= d <= 4
    ensures Parts([""] + gs, last, d)
    ensures ":" + (Each(gs) + last + "/" + bits) == Each([""] + gs) + last + "/" + bits
  {
    var all := [""] + gs;
    assert all[1..] == gs;
    assert Each(all) == ":" + Each(gs);
    assert gs != [] ==> gs == [gs[0]] + gs[1..];
    hide Each;
    Front(":", Each(gs), last, "/" + bits);
  }

  /** Before the "::" only groups, each with a colon, are read. */
  lemma {:induction false} HeadShape(s: string, st: State) returns (gs: seq<string>, rest: string, st': State)
    requires st.colon.None? && Reading(st) && Fits(st)
    requires Run(s, st).Ended? && !Run(s, st).ipv4 && Run(s, st).st.colon.Some?
    ensures s == Each(gs) + ":" + rest && Run(s, st) == Run(rest, st')
    ensures gs == [] ==> !st.saw
    ensures gs != [] ==> Part(gs[0], st.digits) && Groups(gs[1..])
    ensures Reading(st') && !st'.saw && Fits(st') && st'.colon == Some(|st'.bytes|)
    ensures |st'.bytes| == |st.bytes| + 2 * |gs|
    decreases |s|
  {
    hide GetBits, GetV4, Each;
    var h := HexValue(s[0]);
    assert s == [s[0]] + s[1..];
    if h.Some? {
      gs, rest, st' := HeadShape(s[1..], st.(val := st.val * 16 + h.value, digits := st.digits + 1, saw := true));
      hide Run;
      DigitFirst(s[0], gs, rest, st.digits);
      gs := Prefixed(s[0], gs);
    } else if !st.saw {
      gs, rest, st' := [], s[1..], st.(colon := Some(|st.bytes|), token := s[1..]);
      EachNone();
      assert s == "" + ":" + rest;
    } else {
      gs, rest, st' := HeadShape(s[1..], State(Pushed(st), st.colon, false, 0, 0, s[1..]));
      hide Run;
      ColonFirst(gs, rest, st.digits);
      gs := [""] + gs;
    }
  }

  lemma DigitFirst(c: char, gs: seq<string>, rest: string, d: nat)
    requires HexValue(c).Some? && d < 4 && gs != [] && Part(gs[0], d + 1) && Groups(gs[1..])
    ensures Part(Prefixed(c, gs)[0], d) && Groups(Prefixed(c, gs)[1..])
    ensures [c] + (Each(gs) + ":" + rest) == Each(Prefixed(c, gs)) + ":" + rest
  {
    var more := Each(gs[1..]);
    assert Prefixed(c, gs)[1..] == gs[1..];
    assert Each(gs) == gs[0] + ":" + more && Each(Prefixed(c, gs)) == [c] + gs[0] + ":" + more;
    hide Each;
    assert [c] + (gs[0] + ":" + more) == [c] + gs[0] + ":" + more;
    Front([c], Each(gs), ":", rest);
  }

  lemma ColonFirst(gs: seq<string>, rest: string, d: nat)
    requires (gs != [] ==> Part(gs[0], 0) && Groups(gs[1..])) && 1 <= d <= 4
    ensures Part(([""] + gs)[0], d) && Groups(([""] + gs)[1..])
    ensures ":" + (Each(gs) + ":" + rest) == Each([""] + gs) + ":" + rest
  {
    var all := [""] + gs;
    assert all[1..] == gs;
    assert Each(all) == ":" + Each(gs);
    forall i | 0 <= i < |gs| ensures IsGroup(gs[i]) {
      if i > 0 {
        assert gs[i] == gs[1..][i - 1];
      }
    }
    hide Each;
    Front(":", Each(gs), ":", rest);
  }

  /** The parser writes in front of its buffer exactly for the overlong texts. */
  lemma OutsideExactly(s: string, size: nat)
    ensures Pton6(s, size) == Outside <==> Overlong(s)
  {
    hide IsOverlong;
    if left, right, last, bits :| IsOverlong(s, left, right, last, bits) {
      OverlongIsOutside(s, left, right, last, bits, size);
    }
    if Pton6(s, size) == Outside {
      OutsideIsOverlong(s, size);
    }
  }

  lemma OutsideIsOverlong(s: string, size: nat)
    requires Pton6(s, size) == Outside
    ensures Overlong(s)
  {
    hide Run, GetBits, Each, Finish;
    var text := if s != [] && s[0] == ':' then s[1..] else s;
    EndFits(text, Start(text));
    RunFits(text, Start(text));
    var end := Run(text, Start(text));
    OutsideCounts(end.st, end.bits, end.ipv4, size);
    var left, rest, st := HeadShape(text, Start(text));
    var right, last, bits := TailShape(rest, st);
    FirstColon(s, text, left, rest);
    WholeGroups(left, right, last);
    hide Parts, Part, Groups;
    assert IsOverlong(s, left, right, last, bits);
  }

  lemma WholeGroups(left: seq<string>, right: seq<string>, last: string)
    requires (left != [] ==> Part(left[0], 0) && Groups(left[1..])) && Parts(right, last, 0)
    ensures Groups(left) && Groups(right) && (last == "" || IsGroup(last))
  {
    assert left != [] ==> left == [left[0]] + left[1..];
    assert right != [] ==> right == [right[0]] + right[1..];
  }

  lemma OutsideCounts(st: State, bits: Option<nat>, ipv4: bool, size: nat)
    requires Fits(st) && (bits.Some? ==> bits.value <= 128) && Finish(st, bits, ipv4, size) == Outside
    ensures !ipv4 && bits.Some? && st.colon.Some?
    ensures var n := |st.bytes| + (if st.saw then 2 else 0);
      n <= 16 && n - st.colon.value > 4 && 2 * ((bits.value + 15) / 16) < n - st.colon.value
  {
  }

  lemma FirstColon(s: string, text: string, left: seq<string>, rest: string)
    requires text == Each(left) + ":" + rest
    requires s == text || (s != [] && s[0] == ':' && text == s[1..] && text != [] && text[0] == ':')
    requires s == text ==> s != [] && s[0] != ':'
    requires left != [] ==> Part(left[0], 0)
    ensures s == (if left == [] then ":" else "") + Each(left) + ":" + rest
  {
  }

  /** Such a text. */
  lemma OutsideExample()
    ensures Pton6("::1:2:3/0", 16) == Outside
  {
    OverlongIsOutside("::1:2:3/0", [], ["1", "2"], "3", "0", 16);
  }
}
