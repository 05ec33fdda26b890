/** The tie-break of the ranking query: Redis returns the list by score, and every run of equal scores
    is sorted by the time of the last kill. */
module Ranking {
  datatype Entry = Entry(member: int, score: int)

  /** The hash "ranking:lastkilltime" of Redis; a member without an entry counts as 0. */
  function Time(times: map<int, int>, member: int): int {
    if member in times then times[member] else 0
  }

  /** The order of the answer. */
  predicate Before(a: Entry, b: Entry, times: map<int, int>) {
    a.score > b.score || (a.score == b.score && Time(times, a.member) <= Time(times, b.member))
  }

  predicate Ranked(s: seq<Entry>, times: map<int, int>) {
    forall i, j :: 0 <= i < j < |s| ==> Before(s[i], s[j], times)
  }

  predicate Descending(s: seq<Entry>) {
    forall i, j :: 0 <= i < j < |s| ==> s[i].score >= s[j].score
  }

  predicate SameScore(s: seq<Entry>, score: int) {
    forall e :: e in s ==> e.score == score
  }

  // ---- std::sort of one run ----------------------------------------------------------------------------

  function Inserted(e: Entry, s: seq<Entry>, times: map<int, int>): seq<Entry> {
    if s == [] || Time(times, e.member) < Time(times, s[0].member) then [e] + s else [s[0]] + Inserted(e, s[1..], times)
  }

  function Sorted(s: seq<Entry>, times: map<int, int>): seq<Entry> {
    if s == [] then [] else Inserted(s[0], Sorted(s[1..], times), times)
  }

  /** Two ranked parts, the first before the second. */
  lemma RankedAppend(a: seq<Entry>, b: seq<Entry>, times: map<int, int>)
    requires Ranked(a, times) && Ranked(b, times)
    requires forall x, y :: x in a && y in b ==> Before(x, y, times)
    ensures Ranked(a + b, times)
  {
    hide Before;
  }

  lemma {:induction false} InsertedKeeps(e: Entry, s: seq<Entry>, times: map<int, int>)
    requires SameScore(s, e.score) && Ranked(s, times)
    ensures Ranked(Inserted(e, s, times), times) && multiset(Inserted(e, s, times)) == multiset{e} + multiset(s)
  {
    hide Before, Ranked;
    if s == [] {
      RankedOne(e, times);
      assert [e] + s == [e];
    } else {
      var h, t := s[0], s[1..];
      HeadAndTail(s, times);
      RankedOne(e, times);
      RankedOne(h, times);
      if Time(times, e.member) < Time(times, h.member) {
        EarlierThanAll(e, s, times);
        RankedAppend([e], s, times);
      } else {
        InsertedKeeps(e, t, times);
        var r := Inserted(e, t, times);
        assert s == [h] + t;
        LaterThanHead(e, h, t, r, times);
        RankedAppend([h], r, times);
      }
    }
  }

  lemma HeadAndTail(s: seq<Entry>, times: map<int, int>)
    requires s != [] && Ranked(s, times)
    ensures Ranked(s[1..], times) && forall y :: y in s[1..] ==> Before(s[0], y, times)
  {
    hide Before;
  }

  lemma EarlierThanAll(e: Entry, s: seq<Entry>, times: map<int, int>)
    requires s != [] && SameScore(s, e.score) && Time(times, e.member) < Time(times, s[0].member)
    requires forall y :: y in s[1..] ==> Before(s[0], y, times)
    ensures forall y :: y in s ==> Before(e, y, times)
  {
    assert s == [s[0]] + s[1..];
  }

  lemma LaterThanHead(e: Entry, h: Entry, t: seq<Entry>, r: seq<Entry>, times: map<int, int>)
    requires h.score == e.score && Time(times, h.member) <= Time(times, e.member)
    requires (forall y :: y in t ==> Before(h, y, times)) && multiset(r) == multiset{e} + multiset(t)
    ensures forall y :: y in r ==> Before(h, y, times)
  {
    forall y | y in r
      ensures y == e || y in t
    {
      assert y in multiset(r);
    }
    assert Before(h, e, times);
  }

  lemma RankedOne(h: Entry, times: map<int, int>)
    ensures Ranked([h], times)
  {
  }

  lemma {:induction false} SortedIsRanked(s: seq<Entry>, score: int, times: map<int, int>)
    requires SameScore(s, score)
    ensures Ranked(Sorted(s, times), times) && multiset(Sorted(s, times)) == multiset(s)
              && SameScore(Sorted(s, times), score)
  {
    if s != [] {
      SortedIsRanked(s[1..], score, times);
      assert s == [s[0]] + s[1..];
      var t := Sorted(s[1..], times);
      InsertedKeeps(s[0], t, times);
      assert multiset(s) == multiset{s[0]} + multiset(s[1..]);
      forall x | x in Sorted(s, times)
        ensures x.score == score
      {
        assert x in multiset(Sorted(s, times));
      }
    }
  }

  // ---- the loop ------------------------------------------------------------------------------------------

  /** The end of the run of equal scores that starts at i. */
  method RunEnd(list: seq<Entry>, i: nat) returns (j: nat)
    requires i < |list|
    ensures i < j <= |list| && SameScore(list[i..j], list[i].score)
    ensures j < |list| ==> list[j].score != list[i].score
  {
    j := i + 1;
    while j < |list| && list[j].score == list[i].score
      invariant i < j <= |list|
      invariant forall k :: i <= k < j ==> list[k].score == list[i].score
    {
      j := j + 1;
    }
  }

  function WithRunSorted(list: seq<Entry>, i: nat, j: nat, times: map<int, int>): seq<Entry>
    requires i <= j <= |list|
  {
    list[..i] + Sorted(list[i..j], times) + list[j..]
  }

  /** Sorting the run [i, j) keeps what the loop keeps; a run of one needs no sorting. */
  lemma SortRun(list: seq<Entry>, i: nat, j: nat, times: map<int, int>)
    requires i < j <= |list| && Descending(list) && Ranked(list[..i], times)
    requires SameScore(list[i..j], list[i].score) && (0 < i ==> list[i - 1].score > list[i].score)
    ensures var now := WithRunSorted(list, i, j, times);
      && |now| == |list| && multiset(now) == multiset(list) && now[j..] == list[j..]
      && (forall k :: 0 <= k < |list| ==> now[k].score == list[k].score)
      && Ranked(now[..j], times)
      && Descending(now)
      && (j < |list| && list[j].score != list[i].score ==> now[j - 1].score > now[j].score)
    ensures j - i == 1 ==> WithRunSorted(list, i, j, times) == list
  {
    var part, score := list[i..j], list[i].score;
    var run := Sorted(part, times);
    SortedIsRanked(part, score, times);
    if j - i == 1 { SortedOne(part[0], times); assert part == [part[0]]; }
    hide Sorted, Ranked, Before, Descending;
    assert |run| == |multiset(run)| == j - i;
    SameScores(list, i, j, run, score);
    forall x, y | x in list[..i] && y in run
      ensures Before(x, y, times)
    {
      EarlierIsHigher(list, i, x, y, times);
    }
    RankedAppend(list[..i], run, times);
    assert (list[..i] + run + list[j..])[..j] == list[..i] + run;
    StillDescending(list, WithRunSorted(list, i, j, times), i, j);
  }

  lemma StillDescending(list: seq<Entry>, now: seq<Entry>, i: nat, j: nat)
    requires Descending(list) && |now| == |list| && i < j <= |list| && SameScore(list[i..j], list[i].score)
    requires forall k :: 0 <= k < |list| ==> now[k].score == list[k].score
    ensures Descending(now) && (j < |list| && list[j].score != list[i].score ==> now[j - 1].score > now[j].score)
  {
    assert list[i..j][j - 1 - i] == list[j - 1];
  }

  lemma NothingRanked(times: map<int, int>)
    ensures Ranked([], times)
  {
  }

  lemma SortedOne(e: Entry, times: map<int, int>)
    ensures Sorted([e], times) == [e]
  {
    assert Sorted([], times) == [];
  }

  lemma SameScores(list: seq<Entry>, i: nat, j: nat, run: seq<Entry>, score: int)
    requires i <= j <= |list| && |run| == j - i && multiset(run) == multiset(list[i..j])
    requires SameScore(run, score) && SameScore(list[i..j], score)
    ensures var now := list[..i] + run + list[j..];
      && |now| == |list| && multiset(now) == multiset(list) && now[j..] == list[j..]
      && forall k :: 0 <= k < |list| ==> now[k].score == list[k].score
  {
    var now := list[..i] + run + list[j..];
    assert list == list[..i] + list[i..j] + list[j..];
    forall k | 0 <= k < |list|
      ensures now[k].score == list[k].score
    {
      if i <= k < j {
        assert list[i..j][k - i] == list[k] && now[k] == run[k - i];
      }
    }
  }

  lemma EarlierIsHigher(list: seq<Entry>, i: nat, x: Entry, y: Entry, times: map<int, int>)
    requires 0 < i < |list| && Descending(list) && list[i - 1].score > list[i].score
    requires x in list[..i] && y.score == list[i].score
    ensures Before(x, y, times)
  {
    var k :| 0 <= k < i && list[k] == x;
    assert k < i - 1 ==> list[k].score >= list[i - 1].score;
  }

  /** For every list in descending order the loop ends with the same entries, by score and, within a
      score, by the time of the last kill. */
  method BreakTies(topList: seq<Entry>, lastKillTime: map<int, int>) returns (list: seq<Entry>)
    requires Descending(topList)
    ensures multiset(list) == multiset(topList) && Ranked(list, lastKillTime)
    ensures |list| == |topList| && forall k :: 0 <= k < |list| ==> list[k].score == topList[k].score
  {
    hide Ranked, WithRunSorted, Descending;
    NothingRanked(lastKillTime);
    list := topList;
    var i := 0;
    while i < |list|
      invariant 0 <= i <= |list| == |topList| && list[i..] == topList[i..]
      invariant multiset(list) == multiset(topList)
      invariant Ranked(list[..i], lastKillTime) && Descending(list)
      invariant forall k :: 0 <= k < |list| ==> list[k].score == topList[k].score
      invariant 0 < i < |list| ==> list[i - 1].score > list[i].score
    {
      var j := RunEnd(list, i);
      SortRun(list, i, j, lastKillTime);
      if j - i > 1 {
        list := WithRunSorted(list, i, j, lastKillTime);
      }
      i := j;
    }
    assert list[..i] == list;
  }
}
