/**
 Grading an epoch's tickets (backend/src/workers/settlementWorker.ts): the tier of a ticket, the
 paged pass with its grouped updates, and the grade each ticket gets on its own.
 */
module Settlement {
  import opened Wrappers
  import opened Sums
  import opened PayoutDb

  type Epoch = int
  type Position = int

  const TICKET_BATCH: nat := 500
  const MAX_BATCHES_PER_EPOCH: nat := 2_000

  /** A ticket row; `successEpoch` is its order's epoch once the order is SUCCESS. */
  datatype Row = Row(
    normals: seq<int>,
    bonus: int,
    winStatus: WinStatus,
    winAmount: nat,
    isFree: bool,
    successEpoch: Option<Epoch>)

  datatype Drawing = Drawing(winningNormals: set<int>, winningBonus: int, tiers: map<int, nat>)

  // ---------------------------------------------------------------------------------
  // Tiers
  // ---------------------------------------------------------------------------------

  function IsMatch(winning: set<int>): int -> int {
    (ball: int) => if ball in winning then 1 else 0
  }

  /** 2 * matches + 1 for the bonus ball */
  function TierId(t: Row, d: Drawing): int {
    2 * SumBy(IsMatch(d.winningNormals), t.normals) + if t.bonus == d.winningBonus then 1 else 0
  }

  method CalcTierId(normals: seq<int>, bonus: int, winningNormals: set<int>, winningBonus: int) returns (tier: int)
    ensures tier == 2 * |set i | 0 <= i < |normals| && normals[i] in winningNormals| + if bonus == winningBonus then 1 else 0
    ensures (forall i, j :: 0 <= i < j < |normals| ==> normals[i] != normals[j]) ==>
      tier == 2 * |(set n | n in normals) * winningNormals| + if bonus == winningBonus then 1 else 0
    ensures tier == TierId(Row(normals, bonus, DrawPending, 0, false, None), Drawing(winningNormals, winningBonus, map[]))
  {
    MatchesCounted(winningNormals, normals);
    var matches := 0;
    for i := 0 to |normals|
      invariant matches == SumBy(IsMatch(winningNormals), normals[..i])
    {
      assert normals[..i + 1][..i] == normals[..i];
      if normals[i] in winningNormals {
        matches := matches + 1;
      }
    }
    assert normals[..|normals|] == normals;
    tier := 2 * matches + (if bonus == winningBonus then 1 else 0);
  }

  /** The matches are the positions of winning balls. */
  lemma {:induction false} PositionsCounted(winning: set<int>, normals: seq<int>)
    ensures SumBy(IsMatch(winning), normals) == |set i | 0 <= i < |normals| && normals[i] in winning|
  {
    if |normals| > 0 {
      var front, last := normals[..|normals| - 1], normals[|normals| - 1];
      PositionsCounted(winning, front);
      var before := set i | 0 <= i < |front| && front[i] in winning;
      var now := set i | 0 <= i < |normals| && normals[i] in winning;
      if last in winning {
        assert now == before + {|front|};
      } else {
        assert now == before;
      }
    }
  }

  /** Without repeats they are the balls that are winning ones. */
  lemma {:induction false} BallsCounted(winning: set<int>, normals: seq<int>)
    requires forall i, j :: 0 <= i < j < |normals| ==> normals[i] != normals[j]
    ensures SumBy(IsMatch(winning), normals) == |(set n | n in normals) * winning|
  {
    if |normals| > 0 {
      var front, last := normals[..|normals| - 1], normals[|normals| - 1];
      BallsCounted(winning, front);
      assert normals == front + [last];
      OneMoreBall(winning, front, last);
    }
  }

  lemma OneMoreBall(winning: set<int>, front: seq<int>, last: int)
    requires last !in front
    ensures |(set n | n in front + [last]) * winning| == |(set n | n in front) * winning| + if last in winning then 1 else 0
  {
    var before := set n | n in front;
    assert (set n | n in front + [last]) == before + {last};
    if last in winning {
      assert (before + {last}) * winning == before * winning + {last};
    } else {
      assert (before + {last}) * winning == before * winning;
    }
  }

  lemma MatchesCounted(winning: set<int>, normals: seq<int>)
    ensures SumBy(IsMatch(winning), normals) == |set i | 0 <= i < |normals| && normals[i] in winning|
    ensures (forall i, j :: 0 <= i < j < |normals| ==> normals[i] != normals[j]) ==>
      SumBy(IsMatch(winning), normals) == |(set n | n in normals) * winning|
  {
    PositionsCounted(winning, normals);
    if forall i, j :: 0 <= i < j < |normals| ==> normals[i] != normals[j] {
      BallsCounted(winning, normals);
    }
  }

  lemma {:induction false} MatchesAtMost(winning: set<int>, normals: seq<int>)
    ensures 0 <= SumBy(IsMatch(winning), normals) <= |normals|
  {
    if |normals| > 0 {
      MatchesAtMost(winning, normals[..|normals| - 1]);
    }
  }

  /** A ticket of five normal balls has a tier from 0 to 11; the tier tells the matches and the bonus apart. */
  lemma TierRange(t: Row, d: Drawing)
    ensures |t.normals| == 5 ==> 0 <= TierId(t, d) <= 11
    ensures TierId(t, d) / 2 == |set i | 0 <= i < |t.normals| && t.normals[i] in d.winningNormals|
    ensures TierId(t, d) % 2 == 1 <==> t.bonus == d.winningBonus
  {
    MatchesCounted(d.winningNormals, t.normals);
    MatchesAtMost(d.winningNormals, t.normals);
  }

  // ---------------------------------------------------------------------------------
  // One ticket's grade
  // ---------------------------------------------------------------------------------

  const FREE_TICKET_TIERS: set<int> := {1, 4}

  function PrizeOf(t: Row, d: Drawing): nat {
    if TierId(t, d) in d.tiers then d.tiers[TierId(t, d)] else 0
  }

  function StatusOf(t: Row, d: Drawing): WinStatus {
    if PrizeOf(t, d) == 0 then Lost
    else if TierId(t, d) in FREE_TICKET_TIERS then WonFreeTicket
    else WonUnclaimed
  }

  /** The pure grade of one ticket; a losing ticket keeps its other fields. */
  function Graded(t: Row, d: Drawing): Row {
    if PrizeOf(t, d) == 0 then t.(winStatus := Lost)
    else t.(winStatus := StatusOf(t, d), winAmount := PrizeOf(t, d), isFree := StatusOf(t, d) == WonFreeTicket)
  }

  /** What the grade writes: nothing but LOST, or the prize with its status and the free-ticket mark. */
  lemma GradeMeans(t: Row, d: Drawing)
    ensures var tier := 2 * |set i | 0 <= i < |t.normals| && t.normals[i] in d.winningNormals| + if t.bonus == d.winningBonus then 1 else 0;
      Graded(t, d) ==
      if tier !in d.tiers || d.tiers[tier] == 0 then t.(winStatus := Lost)
      else t.(winStatus := if tier == 1 || tier == 4 then WonFreeTicket else WonUnclaimed, winAmount := d.tiers[tier], isFree := tier == 1 || tier == 4)
  {
    MatchesCounted(d.winningNormals, t.normals);
  }

  predicate Gradable(t: Row, e: Epoch) {
    t.winStatus == DrawPending && t.successEpoch == Some(e)
  }

  /** A page of the query: at most 500 gradable tickets, and all of them if fewer. */
  ghost predicate PageQuery(tickets: seq<Row>, e: Epoch, page: seq<Position>) {
    && |page| <= TICKET_BATCH
    && (forall i :: 0 <= i < |page| ==> 0 <= page[i] < |tickets| && Gradable(tickets[page[i]], e))
    && (forall i, j :: 0 <= i < j < |page| ==> page[i] != page[j])
    && (|page| < TICKET_BATCH ==> forall p :: 0 <= p < |tickets| && Gradable(tickets[p], e) ==> p in page)
  }

  /** The page's tickets that are still pending are graded, each on its own. */
  function GradeEach(tickets: seq<Row>, page: seq<Position>, d: Drawing): (r: seq<Row>)
    ensures |r| == |tickets|
  {
    seq(|tickets|, p requires 0 <= p < |tickets| =>
      if p in page && tickets[p].winStatus == DrawPending then Graded(tickets[p], d) else tickets[p])
  }

  // ---------------------------------------------------------------------------------
  // Grouped updates
  // ---------------------------------------------------------------------------------

  /** Winners share an update when their status and prize agree. */
  type Group = (WinStatus, nat)

  /** updateMany guarded by DRAW_PENDING */
  function MarkLost(tickets: seq<Row>, ids: seq<Position>): (r: seq<Row>)
    ensures |r| == |tickets|
  {
    seq(|tickets|, p requires 0 <= p < |tickets| =>
      if p in ids && tickets[p].winStatus == DrawPending then tickets[p].(winStatus := Lost) else tickets[p])
  }

  function MarkWon(tickets: seq<Row>, ids: seq<Position>, group: Group): (r: seq<Row>)
    ensures |r| == |tickets|
  {
    seq(|tickets|, p requires 0 <= p < |tickets| =>
      if p in ids && tickets[p].winStatus == DrawPending
      then tickets[p].(winStatus := group.0, winAmount := group.1, isFree := group.0 == WonFreeTicket) else tickets[p])
  }

  function GroupOf(t: Row, d: Drawing): Group {
    (StatusOf(t, d), PrizeOf(t, d))
  }

  ghost predicate InPage(tickets: seq<Row>, page: seq<Position>) {
    forall i :: 0 <= i < |page| ==> 0 <= page[i] < |tickets|
  }

  /** The page is split into losers and groups of winners by what each ticket is worth. */
  ghost predicate Grouped(tickets: seq<Row>, page: seq<Position>, d: Drawing, losers: seq<Position>, groups: map<Group, seq<Position>>)
    requires InPage(tickets, page)
  {
    && (forall p :: p in losers <==> p in page && PrizeOf(tickets[p], d) == 0)
    && (forall p :: p in page && PrizeOf(tickets[p], d) > 0 ==> GroupOf(tickets[p], d) in groups && p in groups[GroupOf(tickets[p], d)])
    && (forall g :: g in groups ==> forall p :: p in groups[g] ==> p in page && PrizeOf(tickets[p], d) > 0 && GroupOf(tickets[p], d) == g)
  }

  method GroupPage(tickets: seq<Row>, page: seq<Position>, d: Drawing)
    returns (losers: seq<Position>, groups: map<Group, seq<Position>>)
    requires InPage(tickets, page)
    ensures Grouped(tickets, page, d, losers, groups)
  {
    losers, groups := [], map[];
    for i := 0 to |page|
      invariant Grouped(tickets, page[..i], d, losers, groups)
    {
      var p := page[i];
      var tier := CalcTierId(tickets[p].normals, tickets[p].bonus, d.winningNormals, d.winningBonus);
      var prize := if tier in d.tiers then d.tiers[tier] else 0;
      assert page[..i + 1] == page[..i] + [p];
      if prize == 0 {
        losers := losers + [p];
        continue;
      }
      var status := if tier in FREE_TICKET_TIERS then WonFreeTicket else WonUnclaimed;
      var ids := if (status, prize) in groups then groups[(status, prize)] else [];
      ghost var before := groups;
      groups := groups[(status, prize) := ids + [p]];
      GroupGrows(tickets, page[..i], p, d, losers, before, groups);
    }
    assert page[..|page|] == page;
  }

  lemma GroupGrows(
      tickets: seq<Row>,
      page: seq<Position>,
      p: Position,
      d: Drawing,
      losers: seq<Position>,
      before: map<Group, seq<Position>>,
      after: map<Group, seq<Position>>)
    requires InPage(tickets, page) && 0 <= p < |tickets| && Grouped(tickets, page, d, losers, before)
    requires PrizeOf(tickets[p], d) > 0
    requires var g := GroupOf(tickets[p], d);
      after == before[g := (if g in before then before[g] else []) + [p]]
    ensures Grouped(tickets, page + [p], d, losers, after)
  {
  }

  /** What the groups in `done` have been written already. */
  ghost predicate Written(was: seq<Row>, now: seq<Row>, page: seq<Position>, d: Drawing, left: set<Group>) {
    && |now| == |was|
    && forall p :: 0 <= p < |was| ==>
         now[p] == if p in page && was[p].winStatus == DrawPending && (PrizeOf(was[p], d) == 0 || GroupOf(was[p], d) !in left)
                   then Graded(was[p], d) else was[p]
  }

  lemma LosersWritten(was: seq<Row>, page: seq<Position>, d: Drawing, losers: seq<Position>, groups: map<Group, seq<Position>>)
    requires InPage(was, page) && Grouped(was, page, d, losers, groups)
    ensures Written(was, MarkLost(was, losers), page, d, groups.Keys)
  {
  }

  lemma GroupWritten(
      was: seq<Row>,
      now: seq<Row>,
      page: seq<Position>,
      d: Drawing,
      losers: seq<Position>,
      groups: map<Group, seq<Position>>,
      left: set<Group>,
      g: Group)
    requires InPage(was, page) && Grouped(was, page, d, losers, groups)
    requires Written(was, now, page, d, left) && g in left && left <= groups.Keys
    ensures Written(was, MarkWon(now, groups[g], g), page, d, left - {g})
  {
  }

  /** Grouped updates come to the same as grading every ticket of the page on its own. */
  lemma AllWritten(was: seq<Row>, now: seq<Row>, page: seq<Position>, d: Drawing)
    requires Written(was, now, page, d, {})
    ensures now == GradeEach(was, page, d)
  {
  }

  // ---------------------------------------------------------------------------------
  // Settling an epoch
  // ---------------------------------------------------------------------------------

  ghost predicate NonePending(tickets: seq<Row>, e: Epoch) {
    forall p :: 0 <= p < |tickets| ==> !Gradable(tickets[p], e)
  }

  /** Every ticket is as before, or, if it was gradable, graded on its own. */
  ghost predicate PartlyGraded(was: seq<Row>, now: seq<Row>, e: Epoch, d: Drawing) {
    && |now| == |was|
    && forall p :: 0 <= p < |was| ==> now[p] == was[p] || (Gradable(was[p], e) && now[p] == Graded(was[p], d))
  }

  lemma GradeOnce(was: seq<Row>, now: seq<Row>, page: seq<Position>, e: Epoch, d: Drawing)
    requires PartlyGraded(was, now, e, d) && PageQuery(now, e, page)
    ensures PartlyGraded(was, GradeEach(now, page, d), e, d)
    ensures |page| < TICKET_BATCH ==> NonePending(GradeEach(now, page, d), e)
  {
  }

  /** The gradable tickets, as positions. */
  ghost function PendingSet(tickets: seq<Row>, e: Epoch): set<Position> {
    set p | 0 <= p < |tickets| && Gradable(tickets[p], e)
  }

  /** A page takes exactly its tickets off the pending set. */
  lemma PageShrinks(tickets: seq<Row>, page: seq<Position>, e: Epoch, d: Drawing)
    requires PageQuery(tickets, e, page)
    ensures PendingSet(GradeEach(tickets, page, d), e) == PendingSet(tickets, e) - (set p | p in page)
    ensures (set p | p in page) <= PendingSet(tickets, e)
  {
  }

  class SettlementTables {
    var tickets: seq<Row>
    var settled: set<Epoch>

    constructor (tickets: seq<Row>, settled: set<Epoch>)
      ensures this.tickets == tickets && this.settled == settled
    {
      this.tickets, this.settled := tickets, settled;
    }

    /** One page: group, then write the losers and each group of winners. */
    method GradePage(page: seq<Position>, d: Drawing)
      requires InPage(tickets, page)
      modifies this`tickets
      ensures tickets == GradeEach(old(tickets), page, d)
      ensures |tickets| == |old(tickets)| && forall p :: 0 <= p < |tickets| ==>
        tickets[p] == if p in page && old(tickets)[p].winStatus == DrawPending then Graded(old(tickets)[p], d) else old(tickets)[p]
    {
      ghost var was := tickets;
      var losers, groups := GroupPage(tickets, page, d);
      tickets := MarkLost(tickets, losers);
      LosersWritten(was, page, d, losers, groups);
      var left := groups.Keys;
      while left != {}
        invariant left <= groups.Keys && Written(was, tickets, page, d, left)
      {
        var g :| g in left;
        GroupWritten(was, tickets, page, d, losers, groups, left, g);
        tickets := MarkWon(tickets, groups[g], g);
        left := left - {g};
      }
      AllWritten(was, tickets, page, d);
    }

    /**
     settleEpoch.  `tiers` is the parsed prize table (None when parsing throws) and `query` the
     database's answer to the page query, whatever page it chooses.
     */
    method SettleEpoch(e: Epoch, winningNormals: set<int>, winningBonus: int, tiers: Option<map<int, nat>>, query: seq<Row> -> seq<Position>)
      returns (done: bool)
      requires forall rows :: PageQuery(rows, e, query(rows))
      modifies this
      ensures tiers.None? ==> !done && tickets == old(tickets)
      ensures settled == if done then old(settled) + {e} else old(settled)
      ensures done ==> forall p :: 0 <= p < |tickets| && tickets[p].successEpoch == Some(e) ==> tickets[p].winStatus != DrawPending
      ensures tiers.Some? ==> |tickets| == |old(tickets)| && forall p :: 0 <= p < |tickets| ==>
        || tickets[p] == old(tickets)[p]
        || (&& old(tickets)[p].winStatus == DrawPending && old(tickets)[p].successEpoch == Some(e)
            && tickets[p] == Graded(old(tickets)[p], Drawing(winningNormals, winningBonus, tiers.value)))
      ensures tiers.Some? && !done ==> |PendingSet(old(tickets), e)| >= TICKET_BATCH * MAX_BATCHES_PER_EPOCH
    {
      if tiers.None? {
        return false;
      }
      var d := Drawing(winningNormals, winningBonus, tiers.value);
      ghost var was := tickets;
      var batch := 0;
      while batch < MAX_BATCHES_PER_EPOCH
        invariant batch < MAX_BATCHES_PER_EPOCH && settled == old(settled)
        invariant PartlyGraded(was, tickets, e, d)
        invariant |PendingSet(was, e)| == |PendingSet(tickets, e)| + batch * TICKET_BATCH
        decreases MAX_BATCHES_PER_EPOCH - batch
      {
        var page := query(tickets);
        assert PageQuery(tickets, e, page);
        if |page| == 0 {
          break;
        }
        GradeOnce(was, tickets, page, e, d);
        PageShrinks(tickets, page, e, d);
        ghost var before := tickets;
        GradePage(page, d);
        if |page| < TICKET_BATCH {
          break;
        }
        FullPage(before, tickets, page, e);
        if batch == MAX_BATCHES_PER_EPOCH - 1 {
          return false;
        }
        batch := batch + 1;
      }
      settled := settled + {e};
      done := true;
    }
  }

  lemma FullPage(before: seq<Row>, after: seq<Row>, page: seq<Position>, e: Epoch)
    requires |page| == TICKET_BATCH && forall i, j :: 0 <= i < j < |page| ==> page[i] != page[j]
    requires (set p | p in page) <= PendingSet(before, e)
    requires PendingSet(after, e) == PendingSet(before, e) - (set p | p in page)
    ensures |PendingSet(before, e)| == |PendingSet(after, e)| + TICKET_BATCH
  {
    DistinctCount(page);
  }

  lemma {:induction false} DistinctCount(page: seq<Position>)
    requires forall i, j :: 0 <= i < j < |page| ==> page[i] != page[j]
    ensures |set p | p in page| == |page|
  {
    if |page| > 0 {
      var front, last := page[..|page| - 1], page[|page| - 1];
      DistinctCount(front);
      assert (set p | p in page) == (set p | p in front) + {last};
    }
  }
}
