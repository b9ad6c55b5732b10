/** The search for a name through the search domains: which names are queried, and what the caller is told. */
module Searching {
  import opened Wrappers
  import opened Queries

  /** What a query for one name reports. */
  datatype Answer = Answer(status: Status, timeouts: nat, data: seq<int>)

  /** What the search does next: it queries a name, or it calls its caller back. */
  datatype Step = Ask(name: string) | Done(result: Answer)

  /** The search goes on after these. */
  predicate Soft(s: Status) { s == NoData || s == ServFail || s == NotFound }

  function Dots(name: string): nat {
    if name == "" then 0 else (if name[0] == '.' then 1 else 0) + Dots(name[1..])
  }

  /** A name within a domain. */
  function CatDomain(name: string, domain: string): string { name + "." + domain }

  function WithDomains(name: string, domains: seq<string>): (r: seq<string>)
    ensures |r| == |domains|
    ensures forall i :: 0 <= i < |r| ==> r[i] == CatDomain(name, domains[i])
  {
    seq(|domains|, i requires 0 <= i < |domains| => CatDomain(name, domains[i]))
  }

  /** All names to try, in order: the name as it is comes first if it has enough dots, and last otherwise. */
  function Candidates(name: string, domains: seq<string>, ndots: int): (r: seq<string>)
    ensures |r| == |domains| + 1
  {
    if Dots(name) >= ndots then [name] + WithDomains(name, domains) else WithDomains(name, domains) + [name]
  }

  /** The place of the name as it is among the candidates. */
  function AsIs(name: string, domains: seq<string>, ndots: int): nat {
    if Dots(name) >= ndots then 0 else |domains|
  }

  lemma AsIsIsTheName(name: string, domains: seq<string>, ndots: int)
    ensures AsIs(name, domains, ndots) == 0 || AsIs(name, domains, ndots) == |domains|
    ensures Candidates(name, domains, ndots)[AsIs(name, domains, ndots)] == name
  {
  }

  function TotalTimeouts(answers: seq<Answer>): nat {
    if answers == [] then 0 else TotalTimeouts(answers[..|answers| - 1]) + answers[|answers| - 1].timeouts
  }

  ghost predicate AllSoft(answers: seq<Answer>) {
    forall i :: 0 <= i < |answers| ==> Soft(answers[i].status)
  }

  predicate GotNoData(answers: seq<Answer>) {
    exists i :: 0 <= i < |answers| && answers[i].status == NoData
  }

  /** A search over n names has its answers: only the last one may stop it, or all names were tried. */
  ghost predicate Complete(answers: seq<Answer>, n: nat) {
    && 0 < |answers| <= n && AllSoft(answers[..|answers| - 1])
    && (Soft(answers[|answers| - 1].status) ==> |answers| == n)
  }

  /** What the caller is told: the answer that stopped the search, or what the name as it is gave; the latter is
      corrected to "no data" if any name had data of another type. */
  function Outcome(answers: seq<Answer>, asIs: nat): Answer
    requires answers != []
  {
    var last := answers[|answers| - 1];
    if !Soft(last.status) then Answer(last.status, TotalTimeouts(answers), last.data)
    else if asIs >= |answers| then Answer(last.status, TotalTimeouts(answers), [])
    else if answers[asIs].status == NotFound && GotNoData(answers) then Answer(NoData, TotalTimeouts(answers), [])
    else Answer(answers[asIs].status, TotalTimeouts(answers), [])
  }

  /** Whatever the answers would be, the search stops at exactly one of them. */
  lemma {:induction false} StopsOnce(answers: seq<Answer>, k: nat, l: nat)
    requires answers != [] && k <= |answers| && l <= |answers|
    requires Complete(answers[..k], |answers|) && Complete(answers[..l], |answers|)
    ensures k == l
  {
    if k < l {
      StopsNotBefore(answers, k, l);
    } else if l < k {
      StopsNotBefore(answers, l, k);
    }
  }

  lemma StopsNotBefore(answers: seq<Answer>, k: nat, l: nat)
    requires 0 < k < l <= |answers|
    requires Complete(answers[..l], |answers|)
    ensures !Complete(answers[..k], |answers|)
  {
    var before := answers[..l][..l - 1];
    assert before[k - 1] == answers[k - 1];
    assert answers[..k][k - 1] == answers[k - 1];
  }

  /** The one name to query if there is no search: the alias or the name itself if that is all there is to try. */
  function SingleDomain(name: string, alias: Option<string>, noAliases: bool, noSearch: bool, domains: seq<string>): (s: Option<string>)
    ensures s.None? <==> !EndsWithDot(name) && !IsAliased(name, alias, noAliases) && !noSearch && domains != []
    ensures !EndsWithDot(name) && IsAliased(name, alias, noAliases) ==> s == alias
    ensures s.Some? && (EndsWithDot(name) || !IsAliased(name, alias, noAliases)) ==> s.value == name
  {
    NoDots(name);
    if name != "" && name[|name| - 1] == '.' then Some(name)
    else if !noAliases && Dots(name) == 0 && alias.Some? then alias
    else if noSearch || domains == [] then Some(name)
    else None
  }

  predicate EndsWithDot(name: string) { name != "" && name[|name| - 1] == '.' }

  /** An alias is looked for only if the name has no dot. */
  predicate IsAliased(name: string, alias: Option<string>, noAliases: bool) {
    !noAliases && '.' !in name && alias.Some?
  }

  lemma {:induction false} NoDots(name: string)
    ensures Dots(name) == 0 <==> '.' !in name
  {
    if name != "" {
      NoDots(name[1..]);
      assert name == [name[0]] + name[1..];
    }
  }

  /** One search in progress. */
  class Search {
    const name: string
    const domains: seq<string>
    const ndots: int
    var statusAsIs: Option<Status>
    var nextDomain: nat
    var tryingAsIs: bool
    var timeouts: nat
    var everGotNoData: bool
    ghost var queried: seq<string>
    ghost var answers: seq<Answer>
    ghost var done: bool

    ghost function AllNames(): seq<string> { Candidates(name, domains, ndots) }

    ghost function Place(): nat { AsIs(name, domains, ndots) }

    /** One query is under way, for the candidate after those that were answered. */
    ghost predicate Valid()
      reads this
    {
      && domains != [] && |queried| <= |AllNames()|
      && queried == AllNames()[..|queried|]
      && (!done ==>
        && |queried| == |answers| + 1 && AllSoft(answers) && |queried| <= |domains| + 1
        && nextDomain == (if Place() == 0 then |answers| else if |answers| < |domains| then |answers| + 1 else |domains|)
        && tryingAsIs == (|answers| == Place())
        && statusAsIs == (if Place() < |answers| then Some(answers[Place()].status) else None)
        && timeouts == TotalTimeouts(answers)
        && everGotNoData == GotNoData(answers))
      && (done ==> |queried| == |answers| && Complete(answers, |domains| + 1))
    }

    /** Starts a search with its first query. */
    constructor (name: string, domains: seq<string>, ndots: int)
      requires domains != []
      ensures Valid() && !done && answers == []
      ensures this.name == name && this.domains == domains && this.ndots == ndots
      ensures |queried| == 1
    {
      this.name, this.domains, this.ndots := name, domains, ndots;
      statusAsIs, timeouts, everGotNoData := None, 0, false;
      answers, done := [], false;
      var dots := 0;
      var k := 0;
      while k < |name|
        invariant 0 <= k <= |name| && dots + Dots(name[k..]) == Dots(name)
      {
        assert name[k..][1..] == name[k + 1..];
        if name[k] == '.' {
          dots := dots + 1;
        }
        k := k + 1;
      }
      if dots >= ndots {
        nextDomain, tryingAsIs := 0, true;
        queried := [name];
      } else {
        nextDomain, tryingAsIs := 1, false;
        queried := [CatDomain(name, domains[0])];
      }
    }

    /** An answer to the query that is under way. */
    method Callback(answer: Answer) returns (step: Step)
      requires Valid() && !done
      modifies this
      ensures Valid() && answers == old(answers) + [answer]
      ensures step.Ask? <==> !done
      ensures step.Ask? ==> queried == old(queried) + [step.name]
      ensures step.Done? ==> queried == old(queried) && step.result == Outcome(answers, Place())
    {
      hide Candidates, AllSoft, GotNoData, TotalTimeouts, AsIs, Outcome, Complete;
      ghost var before := answers;
      GotNoDataMore(before, answer);
      AllSoftMore(before, answer);
      TotalMore(before, answer);
      timeouts := timeouts + answer.timeouts;
      answers := before + [answer];
      if !Soft(answer.status) {
        HardEnd(before, answer, Place(), |domains| + 1);
        done := true;
        return Done(Answer(answer.status, timeouts, answer.data));
      }
      if tryingAsIs {
        statusAsIs := Some(answer.status);
      }
      if answer.status == NoData {
        everGotNoData := true;
      }
      step := GoOn();
    }

    /** All answers are soft; the next step is still to be taken. */
    ghost predicate Answered()
      reads this
    {
      && domains != [] && !done && 0 < |answers| == |queried| <= |AllNames()|
      && queried == AllNames()[..|queried|] && AllSoft(answers)
      && nextDomain == (if Place() == 0 then |answers| - 1 else if |answers| <= |domains| then |answers| else |domains|)
      && statusAsIs == (if Place() < |answers| then Some(answers[Place()].status) else None)
      && timeouts == TotalTimeouts(answers) && everGotNoData == GotNoData(answers)
    }

    /** The next name is queried, or the search ends. */
    method GoOn() returns (step: Step)
      requires Answered()
      modifies this
      ensures Valid() && answers == old(answers)
      ensures step.Ask? <==> !done
      ensures step.Ask? ==> queried == old(queried) + [step.name]
      ensures step.Done? ==> queried == old(queried) && step.result == Outcome(answers, Place())
    {
      hide Candidates, WithDomains, CatDomain, AllSoft, GotNoData, TotalTimeouts, AsIs, Outcome, Complete;
      AsIsIsTheName(name, domains, ndots);
      PrefixMore(AllNames(), |queried|);
      NextCandidate(name, domains, ndots, |queried|);
      if nextDomain < |domains| {
        var s := CatDomain(name, domains[nextDomain]);
        tryingAsIs := false;
        nextDomain := nextDomain + 1;
        queried := queried + [s];
        return Ask(s);
      } else if statusAsIs.None? {
        tryingAsIs := true;
        queried := queried + [name];
        return Ask(name);
      }
      SoftEnd(answers, Place(), |domains| + 1);
      done := true;
      if statusAsIs == Some(NotFound) && everGotNoData {
        return Done(Answer(NoData, timeouts, []));
      }
      return Done(Answer(statusAsIs.value, timeouts, []));
    }
  }

  lemma HardEnd(before: seq<Answer>, a: Answer, asIs: nat, n: nat)
    requires AllSoft(before) && !Soft(a.status) && |before| < n
    ensures Complete(before + [a], n)
    ensures Outcome(before + [a], asIs) == Answer(a.status, TotalTimeouts(before + [a]), a.data)
  {
    hide AllSoft, GotNoData, TotalTimeouts;
    var all := before + [a];
    assert all[|all| - 1] == a && all[..|all| - 1] == before;
  }

  lemma SoftEnd(answers: seq<Answer>, asIs: nat, n: nat)
    requires AllSoft(answers) && |answers| == n && asIs < n
    ensures Complete(answers, n)
    ensures Outcome(answers, asIs) == Answer(
      if answers[asIs].status == NotFound && GotNoData(answers) then NoData else answers[asIs].status,
      TotalTimeouts(answers), [])
  {
    hide GotNoData, TotalTimeouts;
  }

  lemma NextCandidate(name: string, domains: seq<string>, ndots: int, i: nat)
    ensures i <= |domains| ==> (Candidates(name, domains, ndots)[i] ==
      if AsIs(name, domains, ndots) == i then name
      else CatDomain(name, domains[if AsIs(name, domains, ndots) == 0 then i - 1 else i]))
  {
    hide CatDomain, Dots;
  }

  lemma PrefixMore<T>(s: seq<T>, k: nat)
    ensures k < |s| ==> s[..k + 1] == s[..k] + [s[k]]
  {
  }

  lemma TotalMore(answers: seq<Answer>, a: Answer)
    ensures TotalTimeouts(answers + [a]) == TotalTimeouts(answers) + a.timeouts
  {
    assert (answers + [a])[..|answers|] == answers;
  }

  lemma AllSoftMore(answers: seq<Answer>, a: Answer)
    ensures AllSoft(answers + [a]) <==> AllSoft(answers) && Soft(a.status)
  {
    var all := answers + [a];
    assert all[|answers|] == a;
    forall i | 0 <= i < |answers| ensures all[i] == answers[i] {
    }
    if AllSoft(all) {
      forall i | 0 <= i < |answers| ensures Soft(answers[i].status) {
        assert Soft(all[i].status);
      }
    }
  }

  lemma GotNoDataMore(answers: seq<Answer>, a: Answer)
    ensures GotNoData(answers + [a]) <==> GotNoData(answers) || a.status == NoData
  {
    if GotNoData(answers) {
      var i :| 0 <= i < |answers| && answers[i].status == NoData;
      assert (answers + [a])[i].status == NoData;
    }
    if a.status == NoData {
      assert (answers + [a])[|answers|].status == NoData;
    }
  }

  /** A whole search, when the queries would be answered like this. The names asked are the candidates up to the first
      answer that is not soft, or all of them, each of them once. The search is done then, with all timeouts: by
      the answer that is not soft, or else with the status of the name as it is, but with "no data" if that was "not
      found" and any name had data of another type. */
  method RunSearch(name: string, domains: seq<string>, ndots: int, answers: seq<Answer>)
    returns (asked: nat, result: Answer, ghost names: seq<string>)
    requires domains != [] && |answers| == |domains| + 1
    ensures 0 < asked <= |answers| && names == Candidates(name, domains, ndots)[..asked]
    ensures forall i :: 0 <= i < asked - 1 ==> answers[i].status in {NoData, ServFail, NotFound}
    ensures result.timeouts == TotalTimeouts(answers[..asked])
    ensures answers[asked - 1].status !in {NoData, ServFail, NotFound} ==>
      result.status == answers[asked - 1].status && result.data == answers[asked - 1].data
    ensures answers[asked - 1].status in {NoData, ServFail, NotFound} ==> asked == |answers| && result.data == []
    ensures answers[asked - 1].status in {NoData, ServFail, NotFound} ==>
      var asIs := answers[AsIs(name, domains, ndots)].status;
      result.status == if asIs == NotFound && (exists i :: 0 <= i < |answers| && answers[i].status == NoData) then NoData else asIs
  {
    hide Candidates, Complete, Outcome, AsIs;
    var search := new Search(name, domains, ndots);
    asked := 0;
    AsIsIsTheName(name, domains, ndots);
    while true
      invariant fresh(search) && search.Valid() && !search.done
      invariant search.name == name && search.domains == domains && search.ndots == ndots
      invariant asked < |answers| && search.answers == answers[..asked]
      decreases |answers| - asked
    {
      var step := search.Callback(answers[asked]);
      PrefixMore(answers, asked);
      asked := asked + 1;
      if step.Done? {
        Told(answers, asked, AsIs(name, domains, ndots));
        return asked, step.result, search.queried;
      }
    }
  }

  /** What a search that stopped tells, in terms of the answers. */
  lemma Told(answers: seq<Answer>, asked: nat, asIs: nat)
    requires asked <= |answers| && asIs < |answers| && Complete(answers[..asked], |answers|)
    ensures forall i :: 0 <= i < asked - 1 ==> Soft(answers[i].status)
    ensures Soft(answers[asked - 1].status) ==> asked == |answers| && Outcome(answers[..asked], asIs) == Answer(
      if answers[asIs].status == NotFound && GotNoData(answers) then NoData else answers[asIs].status,
      TotalTimeouts(answers[..asked]), [])
    ensures !Soft(answers[asked - 1].status) ==>
      Outcome(answers[..asked], asIs) == Answer(answers[asked - 1].status, TotalTimeouts(answers[..asked]), answers[asked - 1].data)
  {
    hide TotalTimeouts;
    var tried := answers[..asked];
    forall i | 0 <= i < asked - 1 ensures Soft(answers[i].status) {
      assert tried[..asked - 1][i] == answers[i];
    }
    assert tried[asked - 1] == answers[asked - 1];
    if asked == |answers| {
      assert tried == answers;
    }
  }
}
