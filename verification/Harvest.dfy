/**
 Pulling winnings out of Megapot (backend/src/workers/harvestWorker.ts), as a protocol over the
 database: the one harvest runner, its crashes, and the settlement, payout and operations work
 that goes on around it.  Receipts and rehearsals may come out any way at all.
 */
module Harvest {
  import opened Wrappers
  import opened Sums
  import opened PayoutDb
  import opened Bisect

  type BatchId = int
  type Epoch = int

  const CHUNK_SIZE: nat := 50

  /** `successEpoch` is the epoch of the ticket's order once that is SUCCESS. */
  datatype Row = Row(successEpoch: Option<Epoch>, winStatus: WinStatus, winAmount: nat, hasNft: bool, batch: Option<BatchId>)

  datatype BatchStatus = Submitted | Confirmed | Failed

  datatype Batch = Batch(epoch: Epoch, status: BatchStatus, hasHash: bool, amountGross: int)

  /** Where the runner stands with an epoch. */
  datatype Pc =
    | Idle
    | Checking(epoch: Epoch)
    | Building(epoch: Epoch)
    | Auditing(epoch: Epoch)
    | Clear(epoch: Epoch)
    | Chosen(epoch: Epoch, good: seq<TicketPos>)
    | Created(epoch: Epoch, good: seq<TicketPos>, batch: BatchId)
    | BoundBatch(epoch: Epoch, batch: BatchId)

  datatype State = State(
    tickets: seq<Row>,
    batches: map<BatchId, Batch>,
    nextBatch: nat,
    settled: set<Epoch>,
    harvested: set<Epoch>,
    quarantine: set<TicketPos>,
    pc: Pc)

  predicate IsHarvestable(w: WinStatus) {
    w == WonUnclaimed || w == WonFreeTicket
  }

  /** A winning ticket of the epoch, not on any batch. */
  predicate Owed(t: Row, e: Epoch) {
    IsHarvestable(t.winStatus) && t.batch == None && t.successEpoch == Some(e)
  }

  /** The query's answer before quarantined tickets are dropped: at most twice a chunk, and everything if fewer. */
  ghost predicate HarvestQuery(tickets: seq<Row>, e: Epoch, page: seq<TicketPos>) {
    && |page| <= 2 * CHUNK_SIZE
    && (forall i :: 0 <= i < |page| ==> 0 <= page[i] < |tickets| && Owed(tickets[page[i]], e) && tickets[page[i]].hasNft)
    && (forall i, j :: 0 <= i < j < |page| ==> page[i] != page[j])
    && (|page| < 2 * CHUNK_SIZE ==> forall p :: 0 <= p < |tickets| && Owed(tickets[p], e) && tickets[p].hasNft ==> p in page)
  }

  function NotQuarantined(page: seq<TicketPos>, quarantine: set<TicketPos>): seq<TicketPos> {
    Select(page, (t: TicketPos) => t in quarantine, false)
  }

  function Chunk(harvestable: seq<TicketPos>): seq<TicketPos> {
    if |harvestable| <= CHUNK_SIZE then harvestable else harvestable[..CHUNK_SIZE]
  }

  function AmountOf(tickets: seq<Row>): TicketPos -> int {
    (p: TicketPos) => if 0 <= p < |tickets| then tickets[p].winAmount else 0
  }

  function OnBatch(b: BatchId): Row -> int {
    (t: Row) => if t.batch == Some(b) then t.winAmount else 0
  }

  /** finalizeBatchSuccess */
  function Finalize(s: State, b: BatchId): State
    requires b in s.batches
  {
    s.(tickets := seq(|s.tickets|, p requires 0 <= p < |s.tickets| =>
         if s.tickets[p].batch == Some(b) && IsHarvestable(s.tickets[p].winStatus) then s.tickets[p].(winStatus := ClaimedOnBase) else s.tickets[p]),
       batches := s.batches[b := s.batches[b].(status := BatchStatus.Confirmed, hasHash := true)])
  }

  /** releaseBatch */
  function Release(s: State, b: BatchId): State
    requires b in s.batches
  {
    s.(tickets := seq(|s.tickets|, p requires 0 <= p < |s.tickets| =>
         if s.tickets[p].batch == Some(b) then s.tickets[p].(batch := None) else s.tickets[p]),
       batches := s.batches[b := s.batches[b].(status := BatchStatus.Failed)])
  }

  function Bind(s: State, good: seq<TicketPos>, b: BatchId): State {
    s.(tickets := seq(|s.tickets|, p requires 0 <= p < |s.tickets| =>
         if p in good && s.tickets[p].batch == None then s.tickets[p].(batch := Some(b)) else s.tickets[p]))
  }

  /** What the runner makes of the epoch's batch in flight. */
  datatype Fate = Busy | Resubmitted | Succeeded | Dropped

  datatype Step =
    | Begin(epoch: Epoch)
    | ResolveNone
    | Resolve(inFlight: BatchId, fate: Fate)
    | Query(page: seq<TicketPos>, rehearse: seq<TicketPos> -> bool)
    | Audit
    | Watermark
    | CreateBatch
    | BindTickets
    | Broadcast
    | Stop
    | Grade(ticket: nat, status: WinStatus, amount: nat)
    | OrderSucceeds(fulfilled: nat, of: Epoch)
    | Settle(settledEpoch: Epoch)
    | PayOut(paid: nat)
    | Operate(quarantine: set<TicketPos>, fixed: nat)

  predicate InFlight(s: State, e: Epoch, b: BatchId) {
    b in s.batches && s.batches[b].epoch == e && s.batches[b].status == Submitted
  }

  ghost predicate StepBy(s: State, s': State, step: Step) {
    match step
    case Begin(e) =>
      && s.pc.Idle? && e in s.settled && e !in s.harvested
      && s' == s.(pc := Checking(e))
    case ResolveNone =>
      && s.pc.Checking? && (forall b :: !InFlight(s, s.pc.epoch, b))
      && s' == s.(pc := Building(s.pc.epoch))
    case Resolve(b, fate) =>
      && s.pc.Checking? && InFlight(s, s.pc.epoch, b)
      && (fate.Dropped? ==> s.batches[b].hasHash) && (fate.Resubmitted? ==> !s.batches[b].hasHash)
      && s' == (match fate
                case Busy => s
                case Resubmitted => s.(batches := s.batches[b := s.batches[b].(hasHash := true)])
                case Succeeded => Finalize(s, b)
                case Dropped => Release(s, b)).(pc := Idle)
    case Query(page, rehearse) =>
      && s.pc.Building? && HarvestQuery(s.tickets, s.pc.epoch, page)
      && (var harvestable := NotQuarantined(page, s.quarantine);
          if |harvestable| == 0 then s' == s.(pc := Auditing(s.pc.epoch))
          else
            var v := BisectClaimable(Chunk(harvestable), rehearse);
            s' == s.(quarantine := s.quarantine + (set t | t in v.bad),
                     pc := if |v.good| == 0 then Idle else Chosen(s.pc.epoch, v.good)))
    case Audit =>
      && s.pc.Auditing?
      && s' == s.(pc := if exists p :: 0 <= p < |s.tickets| && Owed(s.tickets[p], s.pc.epoch) then Idle else Clear(s.pc.epoch))
    case Watermark =>
      && s.pc.Clear?
      && s' == s.(harvested := s.harvested + {s.pc.epoch}, pc := Idle)
    case CreateBatch =>
      && s.pc.Chosen?
      && s' == s.(batches := s.batches[s.nextBatch := Batch(s.pc.epoch, Submitted, false, SumBy(AmountOf(s.tickets), s.pc.good))],
                  nextBatch := s.nextBatch + 1, pc := Created(s.pc.epoch, s.pc.good, s.nextBatch))
    case BindTickets =>
      && s.pc.Created?
      && (var s1 := Bind(s, s.pc.good, s.pc.batch);
          if s1.tickets == s.tickets then s' == s.(batches := s.batches - {s.pc.batch}, pc := Idle)
          else s' == s1.(pc := BoundBatch(s.pc.epoch, s.pc.batch)))
    case Broadcast =>
      && s.pc.BoundBatch? && s.pc.batch in s.batches
      && s' == s.(batches := s.batches[s.pc.batch := s.batches[s.pc.batch].(hasHash := true)], pc := Idle)
    case Stop =>
      s' == s.(pc := Idle)
    case Grade(i, status, amount) =>
      && i < |s.tickets| && s.tickets[i].winStatus == DrawPending && s.tickets[i].successEpoch.Some?
      && (status == Lost || IsHarvestable(status))
      && s' == s.(tickets := s.tickets[i := s.tickets[i].(winStatus := status, winAmount := amount)])
    case OrderSucceeds(i, e) =>
      && i < |s.tickets| && s.tickets[i].successEpoch == None && e !in s.settled
      && s' == s.(tickets := s.tickets[i := s.tickets[i].(successEpoch := Some(e))])
    case Settle(e) =>
      && (forall p :: 0 <= p < |s.tickets| && s.tickets[p].successEpoch == Some(e) ==> s.tickets[p].winStatus != DrawPending)
      && s' == s.(settled := s.settled + {e})
    case PayOut(i) =>
      && i < |s.tickets| && s.tickets[i].winStatus == ClaimedOnBase
      && s' == s.(tickets := s.tickets[i := s.tickets[i].(winStatus := PaidOutOnSolana)])
    case Operate(quarantine, i) =>
      && s' == s.(quarantine := quarantine, tickets := if i < |s.tickets| then s.tickets[i := s.tickets[i].(hasNft := true)] else s.tickets)
  }

  ghost predicate Next(s: State, s': State) {
    exists step :: StepBy(s, s', step)
  }

  ghost predicate Init(s: State) {
    && (forall p :: 0 <= p < |s.tickets| ==>
          s.tickets[p].successEpoch == None && s.tickets[p].winStatus == DrawPending && s.tickets[p].batch == None)
    && s.batches == map[] && s.nextBatch == 0 && s.settled == {} && s.harvested == {} && s.pc == Idle
  }

  ghost predicate StepsAt(states: seq<State>, k: int)
    requires 0 <= k < |states| - 1
  {
    Next(states[k], states[k + 1])
  }

  ghost predicate Run(states: seq<State>) {
    && |states| > 0 && Init(states[0])
    && forall k :: 0 <= k < |states| - 1 ==> StepsAt(states, k)
  }

  // ---------------------------------------------------------------------------------
  // The invariant
  // ---------------------------------------------------------------------------------

  /** A ticket on a batch is of the batch's epoch, and waits, or is claimed, with it. */
  ghost predicate RowOk(s: State, t: Row) {
    && (t.successEpoch == None ==> t.winStatus == DrawPending)
    && match t.batch
       case None => t.winStatus != ClaimedOnBase && t.winStatus != PaidOutOnSolana
       case Some(b) =>
         && b in s.batches && t.successEpoch == Some(s.batches[b].epoch)
         && (s.batches[b].status == Submitted || s.batches[b].status == BatchStatus.Confirmed)
         && (if s.batches[b].status == Submitted then IsHarvestable(t.winStatus)
             else t.winStatus == ClaimedOnBase || t.winStatus == PaidOutOnSolana)
  }

  ghost predicate RowsOk(s: State) {
    forall p :: 0 <= p < |s.tickets| ==> RowOk(s, s.tickets[p])
  }

  ghost predicate HoldsNothing(s: State, b: BatchId) {
    forall p :: 0 <= p < |s.tickets| ==> s.tickets[p].batch != Some(b)
  }

  ghost predicate BatchesOk(s: State) {
    && (forall b :: b in s.batches ==> 0 <= b < s.nextBatch && s.batches[b].epoch in s.settled)
    && (forall e, a, b :: InFlight(s, e, a) && InFlight(s, e, b) ==> a == b)
    && (forall b :: b in s.batches ==> s.batches[b].amountGross == SumBy(OnBatch(b), s.tickets) || HoldsNothing(s, b))
  }

  ghost predicate IsDone(w: WinStatus) {
    w == Lost || w == ClaimedOnBase || w == PaidOutOnSolana
  }

  ghost predicate EpochsOk(s: State) {
    && s.harvested <= s.settled
    && (forall p :: 0 <= p < |s.tickets| && s.tickets[p].successEpoch.Some? ==>
          && (s.tickets[p].successEpoch.value in s.settled ==> s.tickets[p].winStatus != DrawPending)
          && (s.tickets[p].successEpoch.value in s.harvested ==> IsDone(s.tickets[p].winStatus)))
  }

  ghost predicate GoodOk(s: State, e: Epoch, good: seq<TicketPos>) {
    && |good| > 0
    && (forall i :: 0 <= i < |good| ==> 0 <= good[i] < |s.tickets| && Owed(s.tickets[good[i]], e))
    && (forall i, j :: 0 <= i < j < |good| ==> good[i] != good[j])
  }

  ghost predicate PcOk(s: State) {
    match s.pc
    case Idle => true
    case Checking(e) => e in s.settled && e !in s.harvested
    case Building(e) => e in s.settled && e !in s.harvested && (forall b :: !InFlight(s, e, b))
    case Auditing(e) => e in s.settled && (forall b :: !InFlight(s, e, b))
    case Clear(e) =>
      && e in s.settled && (forall b :: !InFlight(s, e, b))
      && (forall p :: 0 <= p < |s.tickets| ==> !Owed(s.tickets[p], e))
    case Chosen(e, good) => e in s.settled && (forall b :: !InFlight(s, e, b)) && GoodOk(s, e, good)
    case Created(e, good, b) =>
      && e in s.settled && InFlight(s, e, b) && HoldsNothing(s, b) && GoodOk(s, e, good)
      && s.batches[b].amountGross == SumBy(AmountOf(s.tickets), good)
    case BoundBatch(e, b) => InFlight(s, e, b)
  }

  ghost predicate Inv(s: State) {
    RowsOk(s) && BatchesOk(s) && EpochsOk(s) && PcOk(s)
  }
}
