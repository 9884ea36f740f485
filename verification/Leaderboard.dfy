/** Leaderboard positions against `get_participant_rank`. */
module Leaderboard {
  import opened Model
  import opened Ordering
  import opened Participants

  datatype Standing = Standing(who: Address, score: nat, rank: nat)

  const LEADERBOARD_LIMIT: nat := 100

  /** `sort_and_rank`: the first `limit` of the sorted entries, numbered from one. */
  function SortAndRank(entries: seq<Entry>, limit: nat): seq<Standing> {
    SortEntriesIs(entries);
    var sorted := SortEntries(entries);
    seq(if |entries| < limit then |entries| else limit,
        i requires 0 <= i < |entries| => Standing(sorted[i].who, sorted[i].score, i + 1))
  }

  function TokenScore(reg: Registry, a: Address): nat {
    if a in reg.participants then reg.participants[a].tokens else 0
  }

  function Earners(reg: Registry, index: seq<Address>): seq<Entry> {
    if index == [] then []
    else
      var a := index[|index| - 1];
      Earners(reg, index[..|index| - 1]) + if Registered(reg, a) then [Entry(TokenScore(reg, a), a)] else []
  }

  function TopEarners(reg: Registry, limit: nat): seq<Standing> {
    SortAndRank(Earners(reg, reg.index), if limit < LEADERBOARD_LIMIT then limit else LEADERBOARD_LIMIT)
  }

  function Better(reg: Registry, index: seq<Address>, a: Address): nat {
    if index == [] then 0
    else
      var b := index[|index| - 1];
      Better(reg, index[..|index| - 1], a) + if b != a && TokenScore(reg, b) > TokenScore(reg, a) then 1 else 0
  }

  /** `get_participant_rank` for the metric "tokens". */
  function ParticipantRank(reg: Registry, a: Address): nat { 1 + Better(reg, reg.index, a) }

  // ---------- sort_and_rank ----------

  /** The result is a stable, descending arrangement of the entries, cut off at the limit and numbered 1, 2, 3, … */
  lemma SortAndRankIs(entries: seq<Entry>, limit: nat)
    ensures var sorted, r := SortEntries(entries), SortAndRank(entries, limit);
      && Descending(sorted) && multiset(sorted) == multiset(entries)
      && (forall score :: Tied(sorted, score) == Tied(entries, score))
      && |r| <= |sorted| && (|r| == limit || |r| == |entries|)
      && forall i :: 0 <= i < |r| ==> r[i] == Standing(sorted[i].who, sorted[i].score, i + 1)
  {
    SortEntriesIs(entries);
    forall score ensures Tied(SortEntries(entries), score) == Tied(entries, score) { SortIsStable(entries, score); }
  }

  // ---------- positions and ranks ----------

  lemma {:induction false} EarnersCount(reg: Registry, index: seq<Address>, a: Address)
    requires forall b :: b in index ==> Registered(reg, b)
    ensures Count(Earners(reg, index), Above(TokenScore(reg, a))) == Better(reg, index, a)
  {
    if index != [] {
      var b := index[|index| - 1];
      EarnersCount(reg, index[..|index| - 1], a);
      assert b in index;
      CountSnoc(Earners(reg, index[..|index| - 1]), Entry(TokenScore(reg, b), b), Above(TokenScore(reg, a)));
    }
  }

  lemma {:induction false} EarnersScore(reg: Registry, index: seq<Address>, e: Entry)
    requires e in Earners(reg, index)
    ensures e.score == TokenScore(reg, e.who) && e.who in index
  {
    if index != [] && e in Earners(reg, index[..|index| - 1]) { EarnersScore(reg, index[..|index| - 1], e); }
  }

  /** The rank counts the better entries of the sorted board. */
  lemma RankCountsBetter(reg: Registry, a: Address)
    requires IndexInv(reg)
    ensures ParticipantRank(reg, a) == 1 + Count(SortEntries(Earners(reg, reg.index)), Above(TokenScore(reg, a)))
  {
    var entries := Earners(reg, reg.index);
    SortEntriesIs(entries);
    EarnersCount(reg, reg.index, a);
    CountRearranged(SortEntries(entries), entries, Above(TokenScore(reg, a)));
  }

  lemma BoardEntry(reg: Registry, i: nat)
    requires i < |SortEntries(Earners(reg, reg.index))|
    ensures var e := SortEntries(Earners(reg, reg.index))[i]; e.score == TokenScore(reg, e.who) && e.who in reg.index
  {
    var entries := Earners(reg, reg.index);
    SortEntriesIs(entries);
    assert SortEntries(entries)[i] in multiset(entries);
    EarnersScore(reg, reg.index, SortEntries(entries)[i]);
  }

  /** A position among the sorted entries against the rank of its participant. */
  lemma EntryAgainstRank(reg: Registry, sorted: seq<Entry>, i: nat)
    requires IndexInv(reg) && sorted == SortEntries(Earners(reg, reg.index)) && i < |sorted|
    ensures sorted[i].score == TokenScore(reg, sorted[i].who) && sorted[i].who in reg.index
    ensures ParticipantRank(reg, sorted[i].who) <= i + 1
    ensures ParticipantRank(reg, sorted[i].who) == i + 1
            <==> forall j :: 0 <= j < i ==> sorted[j].score != sorted[i].score
  {
    SortEntriesIs(Earners(reg, reg.index));
    BoardEntry(reg, i);
    RankCountsBetter(reg, sorted[i].who);
    BetterAreInFront(sorted, i);
  }

  /** The board is the front of the sorted entries. */
  lemma BoardIs(reg: Registry, limit: nat)
    ensures var sorted, board := SortEntries(Earners(reg, reg.index)), TopEarners(reg, limit);
      && |board| <= |sorted|
      && forall j :: 0 <= j < |board| ==> board[j] == Standing(sorted[j].who, sorted[j].score, j + 1)
  {
    SortEntriesIs(Earners(reg, reg.index));
  }

  /** Every position on the board is at least the participant's rank, and equal to it exactly when nobody
      further up has the same score. */
  lemma PositionAgainstRank(reg: Registry, limit: nat, i: nat)
    requires IndexInv(reg) && i < |TopEarners(reg, limit)|
    ensures var board := TopEarners(reg, limit);
      && board[i].score == TokenScore(reg, board[i].who) && board[i].who in reg.index
      && ParticipantRank(reg, board[i].who) <= board[i].rank == i + 1
      && (ParticipantRank(reg, board[i].who) == board[i].rank
          <==> forall j :: 0 <= j < i ==> board[j].score != board[i].score)
  {
    BoardIs(reg, limit);
    EntryAgainstRank(reg, SortEntries(Earners(reg, reg.index)), i);
  }

  // ---------- who is on the board, and how rank counts ----------

  /** One entry for each address of the index, in its order, with its tokens. */
  lemma {:induction false} EarnersAre(reg: Registry, index: seq<Address>)
    requires forall a :: a in index ==> Registered(reg, a)
    ensures |Earners(reg, index)| == |index|
    ensures forall i :: 0 <= i < |index| ==>
      index[i] in reg.participants && Earners(reg, index)[i] == Entry(reg.participants[index[i]].tokens, index[i])
  {
    if index != [] {
      assert index == index[..|index| - 1] + [index[|index| - 1]];
      EarnersAre(reg, index[..|index| - 1]);
    }
  }

  /** The board shows the limit asked for, at most a hundred, and no more than there are registered addresses. */
  lemma BoardSize(reg: Registry, limit: nat)
    requires IndexInv(reg)
    ensures |TopEarners(reg, limit)| <= limit && |TopEarners(reg, limit)| <= 100
    ensures |TopEarners(reg, limit)| <= |reg.index|
    ensures || |TopEarners(reg, limit)| == limit || |TopEarners(reg, limit)| == 100
            || |TopEarners(reg, limit)| == |reg.index|
  {
    EarnersAre(reg, reg.index);
  }

  /** Nobody's tokens are none. */
  function TokensAt(reg: Registry, a: Address): nat { if a !in reg.participants then 0 else reg.participants[a].tokens }

  ghost function Ahead(reg: Registry, index: seq<Address>, a: Address): set<nat> {
    set i | 0 <= i < |index| && index[i] != a && TokensAt(reg, index[i]) > TokensAt(reg, a)
  }

  lemma {:induction false} BetterIs(reg: Registry, index: seq<Address>, a: Address)
    ensures Better(reg, index, a) == |Ahead(reg, index, a)|
  {
    if index != [] {
      var last: nat := |index| - 1;
      BetterIs(reg, index[..last], a);
      assert last !in Ahead(reg, index[..last], a);
      assert Ahead(reg, index, a)
             == Ahead(reg, index[..last], a)
                + if index[last] != a && TokensAt(reg, index[last]) > TokensAt(reg, a) then {last} else {};
    }
  }

  /** The rank is one more than the number of others on the index with more tokens. */
  lemma RankIs(reg: Registry, a: Address)
    ensures ParticipantRank(reg, a) == 1 + |Ahead(reg, reg.index, a)|
  {
    BetterIs(reg, reg.index, a);
  }
}
