/**
 Isolating unclaimable tickets (backend/src/workers/harvestWorker.ts, bisectClaimable): the
 rehearsal of a batch fails as a whole, so a failing batch is split until the culprits stand alone.
 */
module Bisect {
  /** A ticket, by its position in the tickets table. */
  type TicketPos = int

  /** Who is claimable, who is not, and how many rehearsals it took to find out. */
  datatype Verdict = Verdict(good: seq<TicketPos>, bad: seq<TicketPos>, calls: nat)

  function Both(left: Verdict, right: Verdict): Verdict {
    Verdict(left.good + right.good, left.bad + right.bad, 1 + left.calls + right.calls)
  }

  /** The larger half comes first. */
  function Half(n: nat): nat {
    (n + 1) / 2
  }

  function BisectClaimable(tickets: seq<TicketPos>, rehearse: seq<TicketPos> -> bool): Verdict
    decreases |tickets|
  {
    if |tickets| == 0 then Verdict([], [], 0)
    else if rehearse(tickets) then Verdict(tickets, [], 1)
    else if |tickets| == 1 then Verdict([], tickets, 1)
    else
      var mid := Half(|tickets|);
      Both(BisectClaimable(tickets[..mid], rehearse), BisectClaimable(tickets[mid..], rehearse))
  }

  lemma BisectUnfolds(tickets: seq<TicketPos>, rehearse: seq<TicketPos> -> bool)
    requires |tickets| > 1 && !rehearse(tickets)
    ensures var mid := Half(|tickets|);
      BisectClaimable(tickets, rehearse) == Both(BisectClaimable(tickets[..mid], rehearse), BisectClaimable(tickets[mid..], rehearse))
  {
  }

  // ---------------------------------------------------------------------------------
  // Any rehearsal
  // ---------------------------------------------------------------------------------

  /** No ticket lost, none duplicated. */
  ghost predicate Partitions(v: Verdict, tickets: seq<TicketPos>) {
    multiset(v.good) + multiset(v.bad) == multiset(tickets)
  }

  lemma BothPartition(left: Verdict, right: Verdict, tickets: seq<TicketPos>, mid: nat)
    requires mid <= |tickets| && Partitions(left, tickets[..mid]) && Partitions(right, tickets[mid..])
    ensures Partitions(Both(left, right), tickets)
  {
    assert tickets == tickets[..mid] + tickets[mid..];
  }

  lemma OneSided(tickets: seq<TicketPos>, calls: nat)
    ensures Partitions(Verdict(tickets, [], calls), tickets) && Partitions(Verdict([], tickets, calls), tickets)
  {
  }

  /** Whatever the rehearsals say, every ticket is on exactly one side. */
  lemma {:induction false} BisectPartitions(tickets: seq<TicketPos>, rehearse: seq<TicketPos> -> bool)
    ensures Partitions(BisectClaimable(tickets, rehearse), tickets)
    decreases |tickets|
  {
    if |tickets| > 1 && !rehearse(tickets) {
      var mid := Half(|tickets|);
      BisectPartitions(tickets[..mid], rehearse);
      BisectPartitions(tickets[mid..], rehearse);
      BisectUnfolds(tickets, rehearse);
      BothPartition(BisectClaimable(tickets[..mid], rehearse), BisectClaimable(tickets[mid..], rehearse), tickets, mid);
    } else {
      OneSided(tickets, BisectClaimable(tickets, rehearse).calls);
    }
  }

  ghost predicate FailAlone(tickets: seq<TicketPos>, rehearse: seq<TicketPos> -> bool) {
    forall i :: 0 <= i < |tickets| ==> !rehearse([tickets[i]])
  }

  /** Nobody is blamed who did not fail alone. */
  lemma {:induction false} BadFailAlone(tickets: seq<TicketPos>, rehearse: seq<TicketPos> -> bool)
    ensures FailAlone(BisectClaimable(tickets, rehearse).bad, rehearse)
    decreases |tickets|
  {
    if |tickets| == 1 {
      assert tickets == [tickets[0]];
    } else if |tickets| > 1 && !rehearse(tickets) {
      BadFailAlone(tickets[..Half(|tickets|)], rehearse);
      BadFailAlone(tickets[Half(|tickets|)..], rehearse);
    }
  }

  // ---------------------------------------------------------------------------------
  // An all-or-nothing rehearsal
  // ---------------------------------------------------------------------------------

  /** The tickets on which the test comes out as wanted, in order. */
  function Select(tickets: seq<TicketPos>, test: TicketPos -> bool, wanted: bool): seq<TicketPos> {
    if |tickets| == 0 then []
    else
      var front, last := tickets[..|tickets| - 1], tickets[|tickets| - 1];
      if test(last) == wanted then Select(front, test, wanted) + [last] else Select(front, test, wanted)
  }

  ghost predicate All(tickets: seq<TicketPos>, test: TicketPos -> bool) {
    forall i :: 0 <= i < |tickets| ==> test(tickets[i])
  }

  /** The rehearsal of a batch passes exactly when every ticket in it is claimable. */
  ghost predicate AllOrNothing(rehearse: seq<TicketPos> -> bool, claimable: TicketPos -> bool) {
    forall batch :: rehearse(batch) <==> All(batch, claimable)
  }

  lemma {:induction false} SelectAll(tickets: seq<TicketPos>, test: TicketPos -> bool)
    requires All(tickets, test)
    ensures Select(tickets, test, true) == tickets
    ensures Select(tickets, test, false) == []
  {
    if |tickets| > 0 {
      var front, last := tickets[..|tickets| - 1], tickets[|tickets| - 1];
      assert test(last);
      SelectAll(front, test);
      assert front + [last] == tickets;
    }
  }

  lemma {:induction false} SelectSplits(a: seq<TicketPos>, b: seq<TicketPos>, test: TicketPos -> bool, wanted: bool)
    ensures Select(a + b, test, wanted) == Select(a, test, wanted) + Select(b, test, wanted)
  {
    if |b| == 0 {
      assert a + b == a;
    } else {
      assert (a + b)[..|a + b| - 1] == a + b[..|b| - 1];
      SelectSplits(a, b[..|b| - 1], test, wanted);
    }
  }

  ghost predicate Isolates(v: Verdict, tickets: seq<TicketPos>, claimable: TicketPos -> bool) {
    v.good == Select(tickets, claimable, true) && v.bad == Select(tickets, claimable, false)
  }

  lemma BothIsolate(left: Verdict, right: Verdict, tickets: seq<TicketPos>, mid: nat, claimable: TicketPos -> bool)
    requires mid <= |tickets| && Isolates(left, tickets[..mid], claimable) && Isolates(right, tickets[mid..], claimable)
    ensures Isolates(Both(left, right), tickets, claimable)
  {
    assert tickets == tickets[..mid] + tickets[mid..];
    SelectSplits(tickets[..mid], tickets[mid..], claimable, true);
    SelectSplits(tickets[..mid], tickets[mid..], claimable, false);
  }

  lemma OneIsolated(tickets: seq<TicketPos>, claimable: TicketPos -> bool, calls: nat)
    ensures All(tickets, claimable) ==> Isolates(Verdict(tickets, [], calls), tickets, claimable)
    ensures |tickets| == 1 && !claimable(tickets[0]) ==> Isolates(Verdict([], tickets, calls), tickets, claimable)
  {
    if All(tickets, claimable) {
      SelectAll(tickets, claimable);
    }
    if |tickets| == 1 {
      assert Select(tickets[..0], claimable, false) == [] && [] + [tickets[0]] == tickets;
    }
  }

  /** The claimable tickets come back as good, the others as bad, both in their original order. */
  lemma {:induction false} BisectIsolates(tickets: seq<TicketPos>, rehearse: seq<TicketPos> -> bool, claimable: TicketPos -> bool)
    requires AllOrNothing(rehearse, claimable)
    ensures Isolates(BisectClaimable(tickets, rehearse), tickets, claimable)
    decreases |tickets|
  {
    assert rehearse(tickets) <==> All(tickets, claimable);
    if |tickets| > 1 && !rehearse(tickets) {
      var mid := Half(|tickets|);
      BisectIsolates(tickets[..mid], rehearse, claimable);
      BisectIsolates(tickets[mid..], rehearse, claimable);
      BisectUnfolds(tickets, rehearse);
      BothIsolate(BisectClaimable(tickets[..mid], rehearse), BisectClaimable(tickets[mid..], rehearse), tickets, mid, claimable);
    } else {
      OneIsolated(tickets, claimable, BisectClaimable(tickets, rehearse).calls);
    }
  }

  // ---------------------------------------------------------------------------------
  // How many rehearsals
  // ---------------------------------------------------------------------------------

  function Pow2(k: nat): nat {
    if k == 0 then 1 else 2 * Pow2(k - 1)
  }

  /** The base-2 logarithm, rounded up. */
  function CeilLog2(n: nat): nat {
    if n <= 1 then 0 else 1 + CeilLog2(Half(n))
  }

  lemma {:induction false} CeilLog2IsLeast(n: nat)
    requires n >= 1
    ensures n <= Pow2(CeilLog2(n))
    ensures n > 1 ==> Pow2(CeilLog2(n) - 1) < n
  {
    if n > 1 {
      CeilLog2IsLeast(Half(n));
    }
  }

  lemma {:induction false} CeilLog2Grows(a: nat, b: nat)
    requires a <= b
    ensures CeilLog2(a) <= CeilLog2(b)
  {
    if a > 1 {
      CeilLog2Grows(Half(a), Half(b));
    }
  }

  /** `bad` times `levels`, level by level. */
  function Levels(bad: nat, levels: nat): nat {
    if levels == 0 then 0 else bad + Levels(bad, levels - 1)
  }

  lemma {:induction false} LevelsMultiply(bad: nat, levels: nat)
    ensures Levels(bad, levels) == bad * levels
  {
    if levels > 0 {
      LevelsMultiply(bad, levels - 1);
    }
  }

  lemma {:induction false} LevelsAdd(a: nat, b: nat, levels: nat)
    ensures Levels(a + b, levels) == Levels(a, levels) + Levels(b, levels)
  {
    if levels > 0 {
      LevelsAdd(a, b, levels - 1);
    }
  }

  lemma {:induction false} LevelsGrow(bad: nat, few: nat, many: nat)
    requires few <= many
    ensures Levels(bad, few) <= Levels(bad, many)
  {
    if few < many {
      LevelsGrow(bad, few, many - 1);
    }
  }

  /** Splitting off one level pays for the call that found the need to split. */
  lemma LevelsSplit(n: nat, bl: nat, br: nat)
    requires n > 1 && bl + br >= 1
    ensures 1 + Levels(bl, CeilLog2(Half(n))) + Levels(br, CeilLog2(n - Half(n))) <= Levels(bl + br, CeilLog2(n))
  {
    CeilLog2Grows(n - Half(n), Half(n));
    LevelsGrow(br, CeilLog2(n - Half(n)), CeilLog2(Half(n)));
    LevelsAdd(bl, br, CeilLog2(Half(n)));
  }

  lemma {:induction false} BisectCost(tickets: seq<TicketPos>, rehearse: seq<TicketPos> -> bool, claimable: TicketPos -> bool)
    requires AllOrNothing(rehearse, claimable)
    ensures Affordable(|tickets|, BisectClaimable(tickets, rehearse))
    decreases |tickets|
  {
    if |tickets| > 1 && !rehearse(tickets) {
      var mid := Half(|tickets|);
      BisectCost(tickets[..mid], rehearse, claimable);
      BisectCost(tickets[mid..], rehearse, claimable);
      BisectFindsCulprit(tickets, rehearse, claimable);
      BisectUnfolds(tickets, rehearse);
      CostSplits(|tickets|, BisectClaimable(tickets[..mid], rehearse), BisectClaimable(tickets[mid..], rehearse));
    }
  }

  ghost predicate Affordable(n: nat, v: Verdict) {
    v.calls <= 1 + 2 * Levels(|v.bad|, CeilLog2(n))
  }

  lemma CostSplits(n: nat, left: Verdict, right: Verdict)
    requires n > 1 && |left.bad| + |right.bad| >= 1
    requires Affordable(Half(n), left) && Affordable(n - Half(n), right)
    ensures Affordable(n, Both(left, right))
  {
    LevelsSplit(n, |left.bad|, |right.bad|);
  }

  /** At most 1 + 2 * |bad| * log2(n) rehearsals; one when every ticket is claimable, none without tickets. */
  lemma BisectIsFrugal(tickets: seq<TicketPos>, rehearse: seq<TicketPos> -> bool, claimable: TicketPos -> bool)
    requires AllOrNothing(rehearse, claimable)
    ensures var v := BisectClaimable(tickets, rehearse);
      && v.calls <= 1 + 2 * (|v.bad| * CeilLog2(|tickets|))
      && (v.calls == 0 <==> |tickets| == 0)
      && (|v.bad| == 0 && |tickets| > 0 ==> v.calls == 1)
  {
    BisectCost(tickets, rehearse, claimable);
    LevelsMultiply(|BisectClaimable(tickets, rehearse).bad|, CeilLog2(|tickets|));
    if |tickets| > 0 && !rehearse(tickets) {
      BisectFindsCulprit(tickets, rehearse, claimable);
    }
  }

  /** A failed rehearsal always yields a culprit. */
  lemma BisectFindsCulprit(tickets: seq<TicketPos>, rehearse: seq<TicketPos> -> bool, claimable: TicketPos -> bool)
    requires AllOrNothing(rehearse, claimable) && !rehearse(tickets)
    ensures |BisectClaimable(tickets, rehearse).bad| > 0
  {
  }
}
