/** The contract's two in-place sorts. */
module Sorting {
  import opened Ordering

  /** Everything before `i` is in place: sorted, and nothing behind it is smaller. */
  ghost predicate Placed(s: seq<nat>, i: nat)
    requires i <= |s|
  {
    forall j, k :: 0 <= j < i && j < k < |s| ==> s[j] <= s[k]
  }

  lemma SwapRearranges<T>(s: seq<T>, i: nat, j: nat)
    requires i < j < |s|
    ensures multiset(s[i := s[j]][j := s[i]]) == multiset(s)
  {}

  lemma SwapPlaces(s: seq<nat>, i: nat, m: nat)
    requires i <= m < |s| && Placed(s, i) && forall k :: i <= k < |s| ==> s[m] <= s[k]
    ensures Placed(s[i := s[m]][m := s[i]], i + 1)
  {}

  /** The inner loop: the index of a smallest level from `i` on. */
  method Smallest(levels: array<nat>, i: nat) returns (minIdx: nat)
    requires i < levels.Length
    ensures i <= minIdx < levels.Length && forall k :: i <= k < levels.Length ==> levels[minIdx] <= levels[k]
  {
    minIdx := i;
    for j := i + 1 to levels.Length
      invariant i <= minIdx < levels.Length
      invariant forall k :: i <= k < j ==> levels[minIdx] <= levels[k]
    {
      if levels[j] < levels[minIdx] { minIdx := j; }
    }
  }

  /** Selection sort, as the report path sorts the reported levels. */
  method SelectionSort(levels: array<nat>)
    modifies levels
    ensures levels[..] == SortLevels(old(levels[..]))
  {
    for i := 0 to levels.Length
      invariant Placed(levels[..], i)
      invariant multiset(levels[..]) == multiset(old(levels[..]))
    {
      var minIdx := Smallest(levels, i);
      ghost var before := levels[..];
      SwapPlaces(before, i, minIdx);
      if minIdx != i {
        SwapRearranges(before, i, minIdx);
        levels[i], levels[minIdx] := levels[minIdx], levels[i];
      }
      assert levels[..] == before[i := before[minIdx]][minIdx := before[i]];
    }
    SortLevelsIs(old(levels[..]));
    SortedIsUnique(levels[..], SortLevels(old(levels[..])));
  }

  /** Insertion of the entry that has sunk to position `j` of a sorted prefix. */
  lemma {:induction false} InsertSplits(s: seq<Entry>, x: Entry, j: nat)
    requires j <= |s| && forall k :: j <= k < |s| ==> s[k].score < x.score
    ensures InsertEntry(s, x) == InsertEntry(s[..j], x) + s[j..]
  {
    if j == |s| {
      assert s[..j] == s && s[j..] == [];
    } else {
      InsertSplits(s[..|s| - 1], x, j);
      assert s[..|s| - 1][..j] == s[..j] && s[j..] == s[..|s| - 1][j..] + [s[|s| - 1]];
    }
  }

  /** `x` stands at position `j` of an otherwise sorted prefix, `rest` behind it. */
  function Sunk(sorted: seq<Entry>, x: Entry, rest: seq<Entry>, j: nat): seq<Entry>
    requires j <= |sorted|
  {
    sorted[..j] + [x] + (sorted[j..] + rest)
  }

  lemma SunkAt(sorted: seq<Entry>, x: Entry, rest: seq<Entry>, j: nat)
    requires j <= |sorted|
    ensures Sunk(sorted, x, rest, j)[j] == x && (j > 0 ==> Sunk(sorted, x, rest, j)[j - 1] == sorted[j - 1])
  {}

  lemma SinkFurther(sorted: seq<Entry>, x: Entry, rest: seq<Entry>, j: nat)
    requires 0 < j <= |sorted|
    ensures Sunk(sorted, x, rest, j)[j := sorted[j - 1]][j - 1 := x] == Sunk(sorted, x, rest, j - 1)
  {
    assert sorted[..j] == sorted[..j - 1] + [sorted[j - 1]] && sorted[j - 1..] == [sorted[j - 1]] + sorted[j..];
  }

  lemma SunkFromEnd(s: seq<Entry>, i: nat)
    requires i < |s|
    ensures s == Sunk(s[..i], s[i], s[i + 1..], i)
  {}

  lemma SunkIsInserted(sorted: seq<Entry>, x: Entry, rest: seq<Entry>, j: nat)
    requires j <= |sorted| && forall k :: j <= k < |sorted| ==> sorted[k].score < x.score
    requires j > 0 ==> sorted[j - 1].score >= x.score
    ensures Sunk(sorted, x, rest, j) == InsertEntry(sorted, x) + rest
  {
    InsertSplits(sorted, x, j);
    assert InsertEntry(sorted[..j], x) == sorted[..j] + [x];
  }

  method SwapWithPrevious(entries: array<Entry>, j: nat)
    requires 0 < j < entries.Length
    modifies entries
    ensures entries[..] == old(entries[..])[j := old(entries[j - 1])][j - 1 := old(entries[j])]
  {
    entries[j], entries[j - 1] := entries[j - 1], entries[j];
  }

  /** The inner loop: swap the entry at `i` towards the front past strictly smaller scores. */
  method Sink(entries: array<Entry>, i: nat)
    requires i < entries.Length
    modifies entries
    ensures entries[..] == InsertEntry(old(entries[..i]), old(entries[i])) + old(entries[i + 1..])
  {
    ghost var sorted, x, rest := entries[..i], entries[i], entries[i + 1..];
    var j := i;
    SunkFromEnd(entries[..], i);
    while j > 0 && entries[j].score > entries[j - 1].score
      invariant 0 <= j <= i && entries[..] == Sunk(sorted, x, rest, j)
      invariant forall k :: j <= k < i ==> sorted[k].score < x.score
    {
      SunkAt(sorted, x, rest, j);
      assert entries[..][j] == entries[j] && entries[..][j - 1] == entries[j - 1];
      SinkFurther(sorted, x, rest, j);
      SwapWithPrevious(entries, j);
      j := j - 1;
    }
    SunkAt(sorted, x, rest, j);
    assert j > 0 ==> entries[..][j] == entries[j] && entries[..][j - 1] == entries[j - 1];
    SunkIsInserted(sorted, x, rest, j);
  }

  lemma SortKeepsLength(s: seq<Entry>)
    ensures |SortEntries(s)| == |s|
  {
    SortEntriesIs(s);
  }

  /** Where the next entry and the rest stand when the first `i` are sorted. */
  lemma TakeNext(s: seq<Entry>, given: seq<Entry>, i: nat)
    requires i < |given| && s == SortEntries(given[..i]) + given[i..]
    ensures |s| == |given| && s[..i] == SortEntries(given[..i]) && s[i] == given[i] && s[i + 1..] == given[i + 1..]
  {
    SortKeepsLength(given[..i]);
  }

  lemma SortNext(given: seq<Entry>, i: nat)
    requires i < |given|
    ensures SortEntries(given[..i + 1]) == InsertEntry(SortEntries(given[..i]), given[i])
  {
    assert given[..i + 1][..i] == given[..i];
  }

  /** Insertion sort, descending by score, as the leaderboards sort their entries. */
  method InsertionSort(entries: array<Entry>)
    modifies entries
    ensures entries[..] == SortEntries(old(entries[..]))
  {
    ghost var given := entries[..];
    for i := 0 to entries.Length
      invariant entries[..] == SortEntries(given[..i]) + given[i..]
    {
      TakeNext(entries[..], given, i);
      SortNext(given, i);
      assert entries[..][i] == entries[i];
      Sink(entries, i);
    }
    assert given[..entries.Length] == given;
  }
}
