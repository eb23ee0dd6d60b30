/** What every step of the harvest keeps, and what the harvest watermark therefore means. */
module HarvestSafety {
  import opened Wrappers
  import opened Sums
  import opened PayoutDb
  import opened Bisect
  import opened Harvest

  // ---------------------------------------------------------------------------------
  // Sums over a batch
  // ---------------------------------------------------------------------------------

  lemma SameOnBatch(s: State, s': State, b: BatchId)
    requires |s'.tickets| == |s.tickets|
    requires forall p :: 0 <= p < |s.tickets| ==> OnBatch(b)(s'.tickets[p]) == OnBatch(b)(s.tickets[p])
    ensures SumBy(OnBatch(b), s'.tickets) == SumBy(OnBatch(b), s.tickets)
  {
    SumAgrees(OnBatch(b), s'.tickets, OnBatch(b), s.tickets);
  }

  /** The amount of the listed positions, row by row. */
  function Listed(good: seq<TicketPos>, tickets: seq<Row>): TicketPos -> int {
    (p: TicketPos) => if p in good then AmountOf(tickets)(p) else 0
  }

  function Positions(n: nat): (ps: seq<TicketPos>)
    ensures |ps| == n && forall p :: 0 <= p < n ==> ps[p] == p
  {
    seq(n, p => p)
  }

  /** Summing over a list of distinct rows is summing over the table, counting only those listed. */
  lemma {:induction false} SumOfListed(tickets: seq<Row>, good: seq<TicketPos>)
    requires forall i :: 0 <= i < |good| ==> 0 <= good[i] < |tickets|
    requires forall i, j :: 0 <= i < j < |good| ==> good[i] != good[j]
    ensures SumBy(Listed(good, tickets), Positions(|tickets|)) == SumBy(AmountOf(tickets), good)
  {
    var all := Positions(|tickets|);
    if |good| == 0 {
      SumZero(Listed(good, tickets), all);
    } else {
      var front, last := good[..|good| - 1], good[|good| - 1];
      var only: TicketPos -> int := (p: TicketPos) => if p == last then AmountOf(tickets)(p) else 0;
      SumOfListed(tickets, front);
      assert good == front + [last];
      assert last !in front;
      SumSplit(Listed(good, tickets), all, Listed(front, tickets), all, only, all);
      SumSingle(only, all, last);
    }
  }

  lemma AmountIsBound(s: State, good: seq<TicketPos>, e: Epoch, b: BatchId)
    requires GoodOk(s, e, good) && HoldsNothing(s, b)
    ensures SumBy(OnBatch(b), Bind(s, good, b).tickets) == SumBy(AmountOf(s.tickets), good)
  {
    var all := Positions(|s.tickets|);
    var bound := Bind(s, good, b).tickets;
    forall p | 0 <= p < |all| ensures OnBatch(b)(bound[p]) == Listed(good, s.tickets)(all[p]) {
      if p in good {
        var i :| 0 <= i < |good| && good[i] == p;
        assert Owed(s.tickets[good[i]], e);
        assert bound[p] == s.tickets[p].(batch := Some(b));
        assert AmountOf(s.tickets)(p) == s.tickets[p].winAmount;
      }
    }
    ByPosition(OnBatch(b), bound, Listed(good, s.tickets), all);
    SumOfListed(s.tickets, good);
  }

  /** Sums over two tables agree when their rows do. */
  lemma {:induction false} ByPosition(f: Row -> int, s: seq<Row>, g: TicketPos -> int, t: seq<TicketPos>)
    requires |s| == |t| && forall i :: 0 <= i < |s| ==> f(s[i]) == g(t[i])
    ensures SumBy(f, s) == SumBy(g, t)
  {
    if |s| > 0 {
      ByPosition(f, s[..|s| - 1], g, t[..|t| - 1]);
    }
  }

  // ---------------------------------------------------------------------------------
  // The runner's steps
  // ---------------------------------------------------------------------------------

  lemma FinalizeOk(s: State, b: BatchId)
    requires RowsOk(s) && BatchesOk(s) && EpochsOk(s) && b in s.batches && s.batches[b].status == Submitted
    ensures RowsOk(Finalize(s, b)) && BatchesOk(Finalize(s, b)) && EpochsOk(Finalize(s, b))
  {
    var s' := Finalize(s, b);
    forall p | 0 <= p < |s.tickets| ensures RowOk(s', s'.tickets[p]) {
      assert RowOk(s, s.tickets[p]);
    }
    forall c | c in s'.batches ensures s'.batches[c].amountGross == SumBy(OnBatch(c), s'.tickets) || HoldsNothing(s', c) {
      SameOnBatch(s, s', c);
    }
    forall e, x, y | InFlight(s', e, x) && InFlight(s', e, y) ensures x == y {
      assert InFlight(s, e, x) && InFlight(s, e, y);
    }
  }

  lemma ReleaseOk(s: State, b: BatchId)
    requires RowsOk(s) && BatchesOk(s) && EpochsOk(s) && b in s.batches && s.batches[b].status == Submitted
    ensures RowsOk(Release(s, b)) && BatchesOk(Release(s, b)) && EpochsOk(Release(s, b))
  {
    var s' := Release(s, b);
    forall p | 0 <= p < |s.tickets| ensures RowOk(s', s'.tickets[p]) {
      assert RowOk(s, s.tickets[p]);
    }
    forall c | c in s'.batches ensures s'.batches[c].amountGross == SumBy(OnBatch(c), s'.tickets) || HoldsNothing(s', c) {
      if c != b {
        SameOnBatch(s, s', c);
      }
    }
    forall e, x, y | InFlight(s', e, x) && InFlight(s', e, y) ensures x == y {
      assert InFlight(s, e, x) && InFlight(s, e, y);
    }
  }

  /** Recording a hash, and moving on, changes nothing that matters. */
  lemma HashOk(s: State, s': State, b: BatchId)
    requires RowsOk(s) && BatchesOk(s) && EpochsOk(s) && b in s.batches
    requires s'.tickets == s.tickets && s'.nextBatch == s.nextBatch && s'.settled == s.settled && s'.harvested == s.harvested
    requires s'.batches == s.batches || s'.batches == s.batches[b := s.batches[b].(hasHash := true)]
    ensures RowsOk(s') && BatchesOk(s') && EpochsOk(s')
  {
    forall p | 0 <= p < |s.tickets| ensures RowOk(s', s'.tickets[p]) {
      assert RowOk(s, s.tickets[p]);
    }
    forall e, x, y | InFlight(s', e, x) && InFlight(s', e, y) ensures x == y {
      assert InFlight(s, e, x) && InFlight(s, e, y);
    }
    forall c | c in s'.batches ensures s'.batches[c].amountGross == SumBy(OnBatch(c), s'.tickets) || HoldsNothing(s', c) {
      assert s.batches[c].amountGross == SumBy(OnBatch(c), s.tickets) || HoldsNothing(s, c);
    }
  }

  lemma ResolveOk(s: State, s': State, b: BatchId, fate: Fate)
    requires Inv(s) && StepBy(s, s', Resolve(b, fate))
    ensures Inv(s')
  {
    match fate
    case Busy => SameRows(s, s');
    case Resubmitted => HashOk(s, s', b);
    case Succeeded =>
      FinalizeOk(s, b);
      SameRows(Finalize(s, b), s');
    case Dropped =>
      ReleaseOk(s, b);
      SameRows(Release(s, b), s');
  }

  /** Moving on changes no row. */
  lemma SameRows(s: State, s': State)
    requires RowsOk(s) && BatchesOk(s) && EpochsOk(s)
    requires s' == s.(pc := s'.pc, quarantine := s'.quarantine)
    ensures RowsOk(s') && BatchesOk(s') && EpochsOk(s')
  {
    forall p | 0 <= p < |s.tickets| ensures RowOk(s', s'.tickets[p]) {
      assert RowOk(s, s.tickets[p]);
    }
    forall e, x, y | InFlight(s', e, x) && InFlight(s', e, y) ensures x == y {
      assert InFlight(s, e, x) && InFlight(s, e, y);
    }
    forall c | c in s'.batches ensures s'.batches[c].amountGross == SumBy(OnBatch(c), s'.tickets) || HoldsNothing(s', c) {
      assert s.batches[c].amountGross == SumBy(OnBatch(c), s.tickets) || HoldsNothing(s, c);
    }
  }

  /** What bisection calls good was on the list, once each. */
  lemma GoodIsListed(s: State, e: Epoch, page: seq<TicketPos>, rehearse: seq<TicketPos> -> bool)
    requires HarvestQuery(s.tickets, e, page)
    requires var good := BisectClaimable(Chunk(NotQuarantined(page, s.quarantine)), rehearse).good; |good| > 0
    ensures GoodOk(s, e, BisectClaimable(Chunk(NotQuarantined(page, s.quarantine)), rehearse).good)
  {
    var listed := NotQuarantined(page, s.quarantine);
    var v := BisectClaimable(Chunk(listed), rehearse);
    SelectIsSublist(page, (t: TicketPos) => t in s.quarantine, false);
    BisectPartitions(Chunk(listed), rehearse);
    DistinctParts(Chunk(listed), v);
    forall i | 0 <= i < |v.good| ensures v.good[i] in page {
      assert v.good[i] in multiset(Chunk(listed));
    }
  }

  ghost predicate Distinct(s: seq<TicketPos>) {
    forall i, j :: 0 <= i < j < |s| ==> s[i] != s[j]
  }

  /** Selected tickets stand in the order they are listed in. */
  lemma {:induction false} SelectInOrder(tickets: seq<TicketPos>, test: TicketPos -> bool, wanted: bool)
    requires Distinct(tickets)
    ensures var r := Select(tickets, test, wanted);
      && (forall x :: x in r <==> x in tickets && test(x) == wanted)
      && (forall i, j, a, b :: 0 <= i < j < |r| && 0 <= a < |tickets| && 0 <= b < |tickets| && r[i] == tickets[a] && r[j] == tickets[b] ==> a < b)
  {
    if |tickets| > 0 {
      var front, last := tickets[..|tickets| - 1], tickets[|tickets| - 1];
      assert tickets == front + [last];
      SelectInOrder(front, test, wanted);
      var r := Select(tickets, test, wanted);
      var before := Select(front, test, wanted);
      forall i, j, a, b | 0 <= i < j < |r| && 0 <= a < |tickets| && 0 <= b < |tickets| && r[i] == tickets[a] && r[j] == tickets[b]
        ensures a < b
      {
        assert r[i] == before[i] && before[i] in front;
        if j < |before| {
          assert before[j] in front && a < |front| && b < |front|;
        }
      }
    }
  }

  /** The chunk is the first fifty listed tickets that are not quarantined. */
  ghost predicate FirstFifty(page: seq<TicketPos>, quarantine: set<TicketPos>, chunk: seq<TicketPos>) {
    && |chunk| <= 50
    && (forall t :: t in chunk ==> t in page && t !in quarantine)
    && (|chunk| < 50 ==> forall t :: t in page && t !in quarantine ==> t in chunk)
    && (forall a, b :: 0 <= a < b < |page| && page[b] in chunk && page[a] !in quarantine ==> page[a] in chunk)
  }

  lemma ChunkIsFirst(page: seq<TicketPos>, quarantine: set<TicketPos>)
    requires Distinct(page)
    ensures FirstFifty(page, quarantine, Chunk(NotQuarantined(page, quarantine)))
  {
    var inside := (t: TicketPos) => t in quarantine;
    var r := Select(page, inside, false);
    var chunk := Chunk(r);
    SelectInOrder(page, inside, false);
    assert chunk == r[..|chunk|];
    forall a, b | 0 <= a < b < |page| && page[b] in chunk && page[a] !in quarantine ensures page[a] in chunk {
      var j :| 0 <= j < |chunk| && chunk[j] == page[b];
      assert page[a] in r;
      var i :| 0 <= i < |r| && r[i] == page[a];
      assert r[j] == page[b];
      assert i < |chunk|;
      assert chunk[i] == page[a];
    }
  }

  lemma {:induction false} SelectIsSublist(tickets: seq<TicketPos>, test: TicketPos -> bool, wanted: bool)
    requires Distinct(tickets)
    ensures Distinct(Select(tickets, test, wanted))
    ensures forall x :: x in Select(tickets, test, wanted) ==> x in tickets
  {
    if |tickets| > 0 {
      var front, last := tickets[..|tickets| - 1], tickets[|tickets| - 1];
      SelectIsSublist(front, test, wanted);
      assert last !in front;
    }
  }

  lemma {:induction false} DistinctOnce(s: seq<TicketPos>, x: TicketPos)
    ensures Distinct(s) ==> multiset(s)[x] <= 1
    ensures multiset(s)[x] <= 1 || exists i, j :: 0 <= i < j < |s| && s[i] == s[j] == x
  {
    if |s| > 0 {
      var front := s[..|s| - 1];
      assert s == front + [s[|s| - 1]];
      DistinctOnce(front, x);
    }
  }

  lemma DistinctParts(tickets: seq<TicketPos>, v: Verdict)
    requires Distinct(tickets) && Partitions(v, tickets)
    ensures Distinct(v.good)
  {
    forall i, j | 0 <= i < j < |v.good| ensures v.good[i] != v.good[j] {
      DistinctOnce(tickets, v.good[i]);
      TwiceCounts(v.good, i, j);
    }
  }

  lemma TwiceCounts(s: seq<TicketPos>, i: nat, j: nat)
    requires i < j < |s|
    ensures s[i] == s[j] ==> multiset(s)[s[i]] >= 2
  {
    assert s == s[..j] + [s[j]] + s[j + 1..];
    assert s[i] == s[..j][i];
  }

  lemma QueryOk(s: State, s': State, page: seq<TicketPos>, rehearse: seq<TicketPos> -> bool)
    requires Inv(s) && StepBy(s, s', Query(page, rehearse))
    ensures Inv(s')
  {
    SameRows(s, s');
    assert forall e, b :: InFlight(s', e, b) ==> InFlight(s, e, b);
    if s'.pc.Chosen? {
      GoodIsListed(s, s.pc.epoch, page, rehearse);
    }
  }

  lemma AuditOk(s: State, s': State)
    requires Inv(s) && StepBy(s, s', Audit)
    ensures Inv(s')
  {
    SameRows(s, s');
    assert forall e, b :: InFlight(s', e, b) ==> InFlight(s, e, b);
  }

  lemma WatermarkOk(s: State, s': State)
    requires Inv(s) && StepBy(s, s', Step.Watermark)
    ensures Inv(s')
  {
    forall p | 0 <= p < |s.tickets| ensures RowOk(s', s'.tickets[p]) {
      assert RowOk(s, s.tickets[p]);
    }
    forall e, x, y | InFlight(s', e, x) && InFlight(s', e, y) ensures x == y {
      assert InFlight(s, e, x) && InFlight(s, e, y);
    }
    forall c | c in s'.batches ensures s'.batches[c].amountGross == SumBy(OnBatch(c), s'.tickets) || HoldsNothing(s', c) {
      assert s.batches[c].amountGross == SumBy(OnBatch(c), s.tickets) || HoldsNothing(s, c);
    }
    forall p | 0 <= p < |s.tickets| && s.tickets[p].successEpoch == Some(s.pc.epoch) ensures IsDone(s.tickets[p].winStatus) {
      NothingOwed(s, p);
    }
  }

  /** No batch in flight and nothing owed: the ticket is lost, or its winnings are in. */
  lemma NothingOwed(s: State, p: nat)
    requires RowsOk(s) && EpochsOk(s) && s.pc.Clear? && PcOk(s)
    requires p < |s.tickets| && s.tickets[p].successEpoch == Some(s.pc.epoch)
    ensures IsDone(s.tickets[p].winStatus)
  {
    var t := s.tickets[p];
    assert RowOk(s, t);
    assert !Owed(t, s.pc.epoch);
    if t.batch.Some? {
      assert !InFlight(s, s.pc.epoch, t.batch.value);
    }
  }

  lemma CreateOk(s: State, s': State)
    requires Inv(s) && StepBy(s, s', CreateBatch)
    ensures Inv(s')
  {
    var b := s.nextBatch;
    forall p | 0 <= p < |s.tickets| ensures RowOk(s', s'.tickets[p]) && s.tickets[p].batch != Some(b) {
      assert RowOk(s, s.tickets[p]);
    }
    forall e, x, y | InFlight(s', e, x) && InFlight(s', e, y) ensures x == y {
      assert x != b ==> InFlight(s, e, x);
      assert y != b ==> InFlight(s, e, y);
    }
    forall c | c in s'.batches ensures s'.batches[c].amountGross == SumBy(OnBatch(c), s'.tickets) || HoldsNothing(s', c) {
      if c != b {
        assert s.batches[c].amountGross == SumBy(OnBatch(c), s.tickets) || HoldsNothing(s, c);
      }
    }
    assert InFlight(s', s.pc.epoch, b);
  }

  lemma BindOk(s: State, s': State)
    requires Inv(s) && StepBy(s, s', Step.BindTickets)
    ensures Inv(s')
  {
    var b, good := s.pc.batch, s.pc.good;
    BindsOne(s, good, s.pc.epoch, b);
    AmountIsBound(s, good, s.pc.epoch, b);
    forall p | 0 <= p < |s.tickets| ensures RowOk(s', s'.tickets[p]) {
      assert RowOk(s, s.tickets[p]);
    }
    forall e, x, y | InFlight(s', e, x) && InFlight(s', e, y) ensures x == y {
      assert InFlight(s, e, x) && InFlight(s, e, y);
    }
    forall c | c in s'.batches && c != b ensures s'.batches[c].amountGross == SumBy(OnBatch(c), s'.tickets) || HoldsNothing(s', c) {
      BindSparesOthers(s, s', good, s.pc.epoch, b, c);
    }
  }

  lemma BindSparesOthers(s: State, s': State, good: seq<TicketPos>, e: Epoch, b: BatchId, c: BatchId)
    requires BatchesOk(s) && GoodOk(s, e, good) && c in s.batches && c != b
    requires s'.tickets == Bind(s, good, b).tickets && s'.batches == s.batches
    ensures s'.batches[c].amountGross == SumBy(OnBatch(c), s'.tickets) || HoldsNothing(s', c)
  {
    assert s.batches[c].amountGross == SumBy(OnBatch(c), s.tickets) || HoldsNothing(s, c);
    SameOnBatch(s, s', c);
  }

  lemma BindsOne(s: State, good: seq<TicketPos>, e: Epoch, b: BatchId)
    requires GoodOk(s, e, good)
    ensures Bind(s, good, b).tickets != s.tickets
  {
    assert good[0] in good;
    assert Bind(s, good, b).tickets[good[0]].batch == Some(b);
  }

  // ---------------------------------------------------------------------------------
  // Everybody else's steps
  // ---------------------------------------------------------------------------------

  /** One ticket changes in a way that concerns no batch and no epoch's settlement. */
  ghost predicate TicketMoves(s: State, s': State, i: nat) {
    && i < |s.tickets| == |s'.tickets| && s' == s.(tickets := s'.tickets, quarantine := s'.quarantine)
    && s'.tickets == s.tickets[i := s'.tickets[i]]
    && s'.tickets[i].batch == s.tickets[i].batch
    && RowOk(s', s'.tickets[i])
    && (s.tickets[i].batch.Some? ==> s'.tickets[i].winAmount == s.tickets[i].winAmount)
    && (forall e :: Owed(s'.tickets[i], e) && !Owed(s.tickets[i], e) ==> e !in s.settled)
    && (forall e :: Owed(s.tickets[i], e) ==> Owed(s'.tickets[i], e) && s'.tickets[i].winAmount == s.tickets[i].winAmount)
    && (s'.tickets[i].successEpoch.Some? ==>
          && (s'.tickets[i].successEpoch.value in s.settled ==> s'.tickets[i].winStatus != DrawPending)
          && (s'.tickets[i].successEpoch.value in s.harvested ==> IsDone(s'.tickets[i].winStatus)))
  }

  lemma TicketMovesOk(s: State, s': State, i: nat)
    requires Inv(s) && TicketMoves(s, s', i)
    ensures Inv(s')
  {
    forall p | 0 <= p < |s.tickets| ensures RowOk(s', s'.tickets[p]) {
      assert RowOk(s, s.tickets[p]);
    }
    forall e, x, y | InFlight(s', e, x) && InFlight(s', e, y) ensures x == y {
      assert InFlight(s, e, x) && InFlight(s, e, y);
    }
    forall c | c in s'.batches ensures s'.batches[c].amountGross == SumBy(OnBatch(c), s'.tickets) || HoldsNothing(s', c) {
      assert s.batches[c].amountGross == SumBy(OnBatch(c), s.tickets) || HoldsNothing(s, c);
      SameOnBatch(s, s', c);
    }
    MovesPc(s, s', i);
  }

  lemma MovesPc(s: State, s': State, i: nat)
    requires PcOk(s) && TicketMoves(s, s', i)
    ensures PcOk(s')
  {
    assert forall e, b :: InFlight(s', e, b) <==> InFlight(s, e, b);
    if s.pc.Created? || s.pc.Chosen? {
      var good := s.pc.good;
      forall k | 0 <= k < |good| ensures Owed(s'.tickets[good[k]], s.pc.epoch) && AmountOf(s'.tickets)(good[k]) == AmountOf(s.tickets)(good[k]) {
        assert Owed(s.tickets[good[k]], s.pc.epoch);
      }
      SumAgrees(AmountOf(s'.tickets), good, AmountOf(s.tickets), good);
    }
  }

  lemma GradeMoves(s: State, s': State, i: nat, status: WinStatus, amount: nat)
    requires Inv(s) && StepBy(s, s', Step.Grade(i, status, amount))
    ensures Inv(s')
  {
    assert RowOk(s, s.tickets[i]);
    TicketMovesOk(s, s', i);
  }

  lemma SucceedMoves(s: State, s': State, i: nat, e: Epoch)
    requires Inv(s) && StepBy(s, s', OrderSucceeds(i, e))
    ensures Inv(s')
  {
    assert RowOk(s, s.tickets[i]);
    TicketMovesOk(s, s', i);
  }

  lemma PayOutMoves(s: State, s': State, i: nat)
    requires Inv(s) && StepBy(s, s', PayOut(i))
    ensures Inv(s')
  {
    assert RowOk(s, s.tickets[i]);
    TicketMovesOk(s, s', i);
  }

  lemma OperateMoves(s: State, s': State, quarantine: set<TicketPos>, i: nat)
    requires Inv(s) && StepBy(s, s', Operate(quarantine, i))
    ensures Inv(s')
  {
    if i < |s.tickets| {
      assert RowOk(s, s.tickets[i]);
      TicketMovesOk(s, s', i);
    } else {
      SameRows(s, s');
      SamePc(s, s');
    }
  }

  lemma SamePc(s: State, s': State)
    requires PcOk(s) && s' == s.(quarantine := s'.quarantine)
    ensures PcOk(s')
  {
    assert forall e, b :: InFlight(s', e, b) <==> InFlight(s, e, b);
  }

  lemma SettleOk(s: State, s': State, e: Epoch)
    requires Inv(s) && StepBy(s, s', Step.Settle(e))
    ensures Inv(s')
  {
    forall p | 0 <= p < |s.tickets| ensures RowOk(s', s'.tickets[p]) {
      assert RowOk(s, s.tickets[p]);
    }
    forall e, x, y | InFlight(s', e, x) && InFlight(s', e, y) ensures x == y {
      assert InFlight(s, e, x) && InFlight(s, e, y);
    }
    forall c | c in s'.batches ensures s'.batches[c].amountGross == SumBy(OnBatch(c), s'.tickets) || HoldsNothing(s', c) {
      assert s.batches[c].amountGross == SumBy(OnBatch(c), s.tickets) || HoldsNothing(s, c);
    }
    assert forall e, b :: InFlight(s', e, b) <==> InFlight(s, e, b);
  }

  lemma QuietOk(s: State, s': State, step: Step)
    requires Inv(s) && StepBy(s, s', step)
    requires step.Begin? || step.ResolveNone? || step.Broadcast? || step.Stop?
    ensures Inv(s')
  {
    if step.Broadcast? {
      HashOk(s, s', s.pc.batch);
    } else {
      SameRows(s, s');
      assert forall e, b :: InFlight(s', e, b) <==> InFlight(s, e, b);
    }
  }

  lemma StepKeeps(s: State, s': State, step: Step)
    requires Inv(s) && StepBy(s, s', step)
    ensures Inv(s')
  {
    match step
    case Resolve(b, fate) => ResolveOk(s, s', b, fate);
    case Query(page, rehearse) => QueryOk(s, s', page, rehearse);
    case Audit => AuditOk(s, s');
    case Watermark => WatermarkOk(s, s');
    case CreateBatch => CreateOk(s, s');
    case BindTickets => BindOk(s, s');
    case Grade(i, status, amount) => GradeMoves(s, s', i, status, amount);
    case OrderSucceeds(i, e) => SucceedMoves(s, s', i, e);
    case Settle(e) => SettleOk(s, s', e);
    case PayOut(i) => PayOutMoves(s, s', i);
    case Operate(quarantine, i) => OperateMoves(s, s', quarantine, i);
    case _ => QuietOk(s, s', step);
  }

  // ---------------------------------------------------------------------------------
  // Runs
  // ---------------------------------------------------------------------------------

  lemma {:induction false} RunKeeps(states: seq<State>, k: nat)
    requires Run(states) && k < |states|
    ensures Inv(states[k])
  {
    if k > 0 {
      RunKeeps(states, k - 1);
      assert StepsAt(states, k - 1);
      var step :| StepBy(states[k - 1], states[k], step);
      StepKeeps(states[k - 1], states[k], step);
    }
  }

  /**
   The harvest watermark never passes a ticket that is still owed, whatever crashed, was
   quarantined, or was graded and paid meanwhile.
   */
  lemma WatermarkIsSafe(states: seq<State>, k: nat, p: nat)
    requires Run(states) && k < |states| && p < |states[k].tickets|
    requires states[k].tickets[p].successEpoch.Some? && states[k].tickets[p].successEpoch.value in states[k].harvested
    ensures IsDone(states[k].tickets[p].winStatus)
  {
    RunKeeps(states, k);
  }

  /** A winning ticket on a batch and not yet claimed waits for a batch of its own epoch, the only one in flight there. */
  lemma BoundWaitsForOwnBatch(states: seq<State>, k: nat, p: nat)
    requires Run(states) && k < |states| && p < |states[k].tickets|
    requires IsHarvestable(states[k].tickets[p].winStatus) && states[k].tickets[p].batch.Some?
    ensures var s := states[k];
      var b := s.tickets[p].batch.value;
      && s.tickets[p].successEpoch.Some? && InFlight(s, s.tickets[p].successEpoch.value, b)
      && (forall c :: InFlight(s, s.tickets[p].successEpoch.value, c) ==> c == b)
  {
    RunKeeps(states, k);
    var s := states[k];
    assert RowOk(s, s.tickets[p]);
    assert InFlight(s, s.tickets[p].successEpoch.value, s.tickets[p].batch.value);
  }

  /** Winnings count as claimed only through a confirmed batch of the ticket's epoch that booked exactly its tickets. */
  lemma ClaimedThroughBatch(states: seq<State>, k: nat, p: nat)
    requires Run(states) && k < |states| && p < |states[k].tickets|
    requires states[k].tickets[p].winStatus == ClaimedOnBase || states[k].tickets[p].winStatus == PaidOutOnSolana
    ensures var s := states[k];
      && s.tickets[p].batch.Some? && s.tickets[p].batch.value in s.batches
      && (var b := s.tickets[p].batch.value;
          && s.batches[b].status == BatchStatus.Confirmed && s.tickets[p].successEpoch == Some(s.batches[b].epoch)
          && s.batches[b].amountGross == SumBy((t: Row) => if t.batch == Some(b) then t.winAmount else 0, s.tickets))
  {
    RunKeeps(states, k);
    assert RowOk(states[k], states[k].tickets[p]);
    var b := states[k].tickets[p].batch.value;
    assert !HoldsNothing(states[k], b);
    SumAgrees((t: Row) => if t.batch == Some(b) then t.winAmount else 0, states[k].tickets, OnBatch(b), states[k].tickets);
  }

  // ---------------------------------------------------------------------------------
  // A batch that never got its tickets
  // ---------------------------------------------------------------------------------

  lemma Onward(states: seq<State>, s: State, step: Step) returns (more: seq<State>)
    requires Run(states) && StepBy(states[|states| - 1], s, step)
    ensures Run(more) && more[|more| - 1] == s
  {
    more := states + [s];
    assert Next(states[|states| - 1], s);
    forall k | 0 <= k < |more| - 1 ensures StepsAt(more, k) {
      if k < |states| - 1 {
        assert StepsAt(states, k);
      }
    }
  }

  const ROUND: Epoch := 1
  const PRIZE: nat := 5

  function Single(status: WinStatus, settled: set<Epoch>, pc: Pc): State {
    State([Row(Some(ROUND), status, PRIZE, true, None)], map[], 0, settled, {}, {}, pc)
  }

  function WithBatch(pc: Pc): State {
    Single(WonUnclaimed, {ROUND}, pc).(batches := map[0 := Batch(ROUND, Submitted, false, PRIZE)], nextBatch := 1)
  }

  /** One winning ticket of a settled epoch. */
  lemma OneWinner() returns (states: seq<State>)
    ensures Run(states) && states[|states| - 1] == Single(WonUnclaimed, {ROUND}, Idle)
  {
    var s := State([Row(None, DrawPending, PRIZE, true, None)], map[], 0, {}, {}, {}, Idle);
    states := Onward([s], Single(DrawPending, {}, Idle), OrderSucceeds(0, ROUND));
    states := Onward(states, Single(WonUnclaimed, {}, Idle), Grade(0, WonUnclaimed, PRIZE));
    states := Onward(states, Single(WonUnclaimed, {ROUND}, Idle), Settle(ROUND));
  }

  lemma OneChosen() returns (states: seq<State>)
    ensures Run(states) && states[|states| - 1] == Single(WonUnclaimed, {ROUND}, Chosen(ROUND, [0]))
  {
    states := OneWinner();
    states := Onward(states, Single(WonUnclaimed, {ROUND}, Checking(ROUND)), Begin(ROUND));
    states := Onward(states, Single(WonUnclaimed, {ROUND}, Building(ROUND)), ResolveNone);
    ChoosesIt();
    states := Onward(states, Single(WonUnclaimed, {ROUND}, Chosen(ROUND, [0])), Query([0], Passes()));
  }

  function Passes(): seq<TicketPos> -> bool {
    (chunk: seq<TicketPos>) => true
  }

  lemma ChoosesIt()
    ensures StepBy(Single(WonUnclaimed, {ROUND}, Building(ROUND)), Single(WonUnclaimed, {ROUND}, Chosen(ROUND, [0])), Query([0], Passes()))
  {
    var s := Single(WonUnclaimed, {ROUND}, Building(ROUND));
    var v := BisectClaimable(Chunk([0]), Passes());
    assert NotQuarantined([0], {}) == [0];
    assert v.good == [0] && v.bad == [];
    assert s.quarantine + (set t | t in v.bad) == s.quarantine;
  }

  /** A runner that crashes before it binds leaves a batch that may be confirmed, with an amount no ticket accounts for. */
  lemma UnboundBatchIsBooked() returns (states: seq<State>)
    ensures Run(states)
    ensures var s := states[|states| - 1];
      s.batches == map[0 := Batch(ROUND, BatchStatus.Confirmed, true, PRIZE)] && HoldsNothing(s, 0)
  {
    states := OneChosen();
    var s := Single(WonUnclaimed, {ROUND}, Chosen(ROUND, [0]));
    SumSingle(AmountOf(s.tickets), [0], 0);
    states := Onward(states, WithBatch(Created(ROUND, [0], 0)), CreateBatch);
    states := Onward(states, WithBatch(Idle), Stop);
    states := Onward(states, WithBatch(Checking(ROUND)), Begin(ROUND));
    states := Onward(states, Finalize(WithBatch(Idle), 0), Resolve(0, Succeeded));
  }
}
