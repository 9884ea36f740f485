/** The two hand-written sorts of the contract, as functions, and what their results mean. */
module Ordering {
  import opened Model

  function Count<T>(s: seq<T>, p: T -> bool): nat {
    if s == [] then 0 else Count(s[..|s| - 1], p) + if p(s[|s| - 1]) then 1 else 0
  }

  lemma CountSnoc<T>(s: seq<T>, x: T, p: T -> bool)
    ensures Count(s + [x], p) == Count(s, p) + if p(x) then 1 else 0
  {
    assert (s + [x])[..|s|] == s;
  }

  lemma {:induction false} CountAtLeast<T>(s: seq<T>, p: T -> bool, n: nat)
    requires n <= |s| && forall i :: 0 <= i < n ==> p(s[i])
    ensures Count(s, p) >= n
  {
    if n != 0 {
      if n == |s| { CountAtLeast(s[..|s| - 1], p, n - 1); } else { CountAtLeast(s[..|s| - 1], p, n); }
    }
  }

  lemma {:induction false} CountTail<T>(s: seq<T>, p: T -> bool, n: nat)
    requires n <= |s| && forall i :: n <= i < |s| ==> p(s[i])
    ensures Count(s, p) >= |s| - n
  {
    if n < |s| { CountTail(s[..|s| - 1], p, n); }
  }

  // ---------- ascending levels and their median ----------

  predicate Sorted(s: seq<nat>) {
    forall i, j :: 0 <= i < j < |s| ==> s[i] <= s[j]
  }

  function InsertLevel(s: seq<nat>, x: nat): seq<nat> {
    if s == [] || s[|s| - 1] <= x then s + [x]
    else InsertLevel(s[..|s| - 1], x) + [s[|s| - 1]]
  }

  function SortLevels(s: seq<nat>): seq<nat> {
    if s == [] then [] else InsertLevel(SortLevels(s[..|s| - 1]), s[|s| - 1])
  }

  lemma {:induction false} InsertLevelBelow(s: seq<nat>, x: nat, top: nat)
    requires x <= top && forall i :: 0 <= i < |s| ==> s[i] <= top
    ensures forall i :: 0 <= i < |InsertLevel(s, x)| ==> InsertLevel(s, x)[i] <= top
  {
    if s != [] && s[|s| - 1] > x { InsertLevelBelow(s[..|s| - 1], x, top); }
  }

  lemma {:induction false} InsertLevelSorts(s: seq<nat>, x: nat)
    requires Sorted(s)
    ensures Sorted(InsertLevel(s, x))
  {
    if s != [] && s[|s| - 1] > x {
      InsertLevelSorts(s[..|s| - 1], x);
      InsertLevelBelow(s[..|s| - 1], x, s[|s| - 1]);
    }
  }

  lemma {:induction false} InsertLevelRearranges(s: seq<nat>, x: nat)
    ensures multiset(InsertLevel(s, x)) == multiset(s) + multiset{x}
  {
    if s != [] && s[|s| - 1] > x {
      InsertLevelRearranges(s[..|s| - 1], x);
      assert s == s[..|s| - 1] + [s[|s| - 1]];
    }
  }

  lemma {:induction false} SortLevelsIs(s: seq<nat>)
    ensures Sorted(SortLevels(s)) && multiset(SortLevels(s)) == multiset(s)
    ensures |SortLevels(s)| == |s|
  {
    if s != [] {
      SortLevelsIs(s[..|s| - 1]);
      InsertLevelSorts(SortLevels(s[..|s| - 1]), s[|s| - 1]);
      InsertLevelRearranges(SortLevels(s[..|s| - 1]), s[|s| - 1]);
      assert s == s[..|s| - 1] + [s[|s| - 1]];
    }
    assert |multiset(SortLevels(s))| == |multiset(s)|;
  }

  lemma LastIsGreatest(s: seq<nat>, t: seq<nat>)
    requires Sorted(s) && s != [] && t != [] && multiset(s) == multiset(t)
    ensures t[|t| - 1] <= s[|s| - 1]
  {
    assert t[|t| - 1] in multiset(s);
  }

  lemma DropLast(s: seq<nat>)
    requires s != []
    ensures multiset(s[..|s| - 1]) == multiset(s) - multiset{s[|s| - 1]}
  {
    assert s == s[..|s| - 1] + [s[|s| - 1]];
  }

  /** There is only one way to sort: any sorted rearrangement is the same sequence. */
  lemma {:induction false} SortedIsUnique(s: seq<nat>, t: seq<nat>)
    requires Sorted(s) && Sorted(t) && multiset(s) == multiset(t)
    ensures s == t
  {
    assert |s| == |multiset(s)| == |multiset(t)| == |t|;
    if s != [] {
      LastIsGreatest(s, t);
      LastIsGreatest(t, s);
      DropLast(s);
      DropLast(t);
      SortedIsUnique(s[..|s| - 1], t[..|t| - 1]);
      assert s == s[..|s| - 1] + [s[|s| - 1]];
    }
  }

  lemma {:induction false} CountRearranged<T>(s: seq<T>, t: seq<T>, p: T -> bool)
    requires multiset(s) == multiset(t)
    ensures Count(s, p) == Count(t, p)
  {
    assert |multiset(s)| == |multiset(t)|;
    if s != [] {
      var x := s[|s| - 1];
      assert s == s[..|s| - 1] + [x];
      assert x in multiset(t);
      var i :| 0 <= i < |t| && t[i] == x;
      var rest := t[..i] + t[i + 1..];
      assert t == t[..i] + [x] + t[i + 1..];
      assert multiset(rest) == multiset(t) - multiset{x} == multiset(s[..|s| - 1]);
      CountRearranged(s[..|s| - 1], rest, p);
      CountWithout(t, i, p);
    }
  }

  lemma {:induction false} CountWithout<T>(t: seq<T>, i: nat, p: T -> bool)
    requires i < |t|
    ensures Count(t, p) == Count(t[..i] + t[i + 1..], p) + if p(t[i]) then 1 else 0
  {
    var last := |t| - 1;
    if i == last {
      assert t[..i] + t[i + 1..] == t[..last];
    } else {
      CountWithout(t[..last], i, p);
      assert t[..last][..i] + t[..last][i + 1..] == (t[..i] + t[i + 1..])[..last - 1];
    }
  }

  /** The middle one, the upper of the two when there are two. */
  function Median(levels: seq<nat>): nat
    requires levels != []
  {
    SortLevelsIs(levels);
    SortLevels(levels)[|levels| / 2]
  }

  function AtMost(m: nat): nat -> bool { (l: nat) => l <= m }

  function AtLeast(m: nat): nat -> bool { (l: nat) => l >= m }

  lemma MiddleOfSorted(s: seq<nat>, m: nat)
    requires Sorted(s) && s != [] && m == s[|s| / 2]
    ensures Count(s, AtMost(m)) >= |s| / 2 + 1
    ensures Count(s, AtLeast(m)) >= |s| - |s| / 2
  {
    CountAtLeast(s, AtMost(m), |s| / 2 + 1);
    CountTail(s, AtLeast(m), |s| / 2);
  }

  /** More than half the reports are at or below the median, at least half at or above it. */
  lemma {:induction false} MedianIsMiddle(levels: seq<nat>)
    requires levels != []
    ensures Median(levels) in levels
    ensures Count(levels, AtMost(Median(levels))) >= |levels| / 2 + 1
    ensures Count(levels, AtLeast(Median(levels))) >= |levels| - |levels| / 2
  {
    SortLevelsIs(levels);
    var s, m := SortLevels(levels), Median(levels);
    assert m in multiset(s);
    MiddleOfSorted(s, m);
    CountRearranged(s, levels, AtMost(m));
    CountRearranged(s, levels, AtLeast(m));
  }

  // ---------- descending scores, stable ----------

  datatype Entry = Entry(score: nat, who: Address)

  predicate Descending(s: seq<Entry>) {
    forall i, j :: 0 <= i < j < |s| ==> s[i].score >= s[j].score
  }

  /** An entry sinks in front of strictly smaller scores only. */
  function InsertEntry(s: seq<Entry>, x: Entry): seq<Entry> {
    if s == [] || s[|s| - 1].score >= x.score then s + [x]
    else InsertEntry(s[..|s| - 1], x) + [s[|s| - 1]]
  }

  function SortEntries(s: seq<Entry>): seq<Entry> {
    if s == [] then [] else InsertEntry(SortEntries(s[..|s| - 1]), s[|s| - 1])
  }

  lemma {:induction false} InsertEntryAbove(s: seq<Entry>, x: Entry, floor: nat)
    requires x.score >= floor && forall i :: 0 <= i < |s| ==> s[i].score >= floor
    ensures forall i :: 0 <= i < |InsertEntry(s, x)| ==> InsertEntry(s, x)[i].score >= floor
  {
    if s != [] && s[|s| - 1].score < x.score { InsertEntryAbove(s[..|s| - 1], x, floor); }
  }

  lemma {:induction false} InsertEntrySorts(s: seq<Entry>, x: Entry)
    requires Descending(s)
    ensures Descending(InsertEntry(s, x))
  {
    if s != [] && s[|s| - 1].score < x.score {
      InsertEntrySorts(s[..|s| - 1], x);
      InsertEntryAbove(s[..|s| - 1], x, s[|s| - 1].score);
    }
  }

  lemma {:induction false} InsertEntryRearranges(s: seq<Entry>, x: Entry)
    ensures multiset(InsertEntry(s, x)) == multiset(s) + multiset{x}
  {
    if s != [] && s[|s| - 1].score < x.score {
      InsertEntryRearranges(s[..|s| - 1], x);
      assert s == s[..|s| - 1] + [s[|s| - 1]];
    }
  }

  lemma {:induction false} SortEntriesIs(s: seq<Entry>)
    ensures Descending(SortEntries(s)) && multiset(SortEntries(s)) == multiset(s)
    ensures |SortEntries(s)| == |s|
  {
    if s != [] {
      SortEntriesIs(s[..|s| - 1]);
      InsertEntrySorts(SortEntries(s[..|s| - 1]), s[|s| - 1]);
      InsertEntryRearranges(SortEntries(s[..|s| - 1]), s[|s| - 1]);
      assert s == s[..|s| - 1] + [s[|s| - 1]];
    }
    assert |multiset(SortEntries(s))| == |multiset(s)|;
  }

  /** The entries with one score, in order. */
  function Tied(s: seq<Entry>, score: nat): seq<Entry> {
    if s == [] then []
    else Tied(s[..|s| - 1], score) + if s[|s| - 1].score == score then [s[|s| - 1]] else []
  }

  lemma TiedSnoc(s: seq<Entry>, x: Entry, score: nat)
    ensures Tied(s + [x], score) == Tied(s, score) + if x.score == score then [x] else []
  {
    assert (s + [x])[..|s|] == s;
  }

  lemma {:induction false} InsertIsStable(s: seq<Entry>, x: Entry, score: nat)
    requires Descending(s)
    ensures Tied(InsertEntry(s, x), score) == Tied(s + [x], score)
  {
    if s != [] && s[|s| - 1].score < x.score {
      var init, last := s[..|s| - 1], s[|s| - 1];
      InsertIsStable(init, x, score);
      TiedSnoc(InsertEntry(init, x), last, score);
      TiedSnoc(init, x, score);
      TiedSnoc(s, x, score);
    }
  }

  /** Equal scores keep the order they came in. */
  lemma {:induction false} SortIsStable(s: seq<Entry>, score: nat)
    ensures Tied(SortEntries(s), score) == Tied(s, score)
  {
    if s != [] {
      var init, last := s[..|s| - 1], s[|s| - 1];
      SortIsStable(init, score);
      SortEntriesIs(init);
      InsertIsStable(SortEntries(init), last, score);
      TiedSnoc(SortEntries(init), last, score);
    }
  }

  function Above(score: nat): Entry -> bool { (e: Entry) => e.score > score }

  /** In descending order at most the entries in front are better, all of them exactly when none ties. */
  lemma {:induction false} BetterAreInFront(s: seq<Entry>, i: nat)
    requires Descending(s) && i < |s|
    ensures Count(s, Above(s[i].score)) <= i
    ensures Count(s, Above(s[i].score)) == i <==> forall j :: 0 <= j < i ==> s[j].score != s[i].score
  {
    var v := s[i].score;
    NoneAbove(s, i, v);
    CountPrefix(s[..i], v);
    assert forall j :: 0 <= j < i ==> s[..i][j] == s[j] && s[j].score >= v;
  }

  lemma {:induction false} NoneAbove(s: seq<Entry>, i: nat, v: nat)
    requires i <= |s| && forall j :: i <= j < |s| ==> s[j].score <= v
    ensures Count(s, Above(v)) == Count(s[..i], Above(v))
  {
    if i == |s| {
      assert s[..i] == s;
    } else {
      NoneAbove(s[..|s| - 1], i, v);
      assert s[..|s| - 1][..i] == s[..i];
    }
  }

  lemma {:induction false} CountPrefix(s: seq<Entry>, v: nat)
    ensures Count(s, Above(v)) <= |s|
    ensures Count(s, Above(v)) == |s| <==> forall j :: 0 <= j < |s| ==> s[j].score > v
  {
    if s != [] {
      CountPrefix(s[..|s| - 1], v);
      assert forall j :: 0 <= j < |s| - 1 ==> s[..|s| - 1][j] == s[j];
    }
  }
}
