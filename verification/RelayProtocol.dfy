/**
 Relaying one order to Base, as a protocol: the job, its crashes and the chain take labelled
 steps.  Transactions may land long after the job stopped waiting for them, a rejected
 broadcast may have reached the mempool, and the chain may revert any transaction.
 */
module RelayProtocol {
  import opened Wrappers
  import opened ChunkOrderId
  import opened RelayRows

  datatype TxOutcome = InMempool | LandedFrom(first: NftId) | RevertedOnChain

  /** A buyTickets transaction of this order. */
  datatype Tx = Tx(orderId: string, tickets: seq<int>, outcome: TxOutcome)

  datatype OrderStatus = Relayable | Processing | Success | FailedPermanent

  /** Where the job stands. */
  datatype Pc =
    | Idle
    | Locked
    | Resolving(stuck: seq<Stuck>)
    | Looping(pending: seq<int>, next: nat)
    | Created(pending: seq<int>, next: nat, batch: BatchId)
    | Bound(pending: seq<int>, next: nat, batch: BatchId)
    | Sent(pending: seq<int>, next: nat, batch: BatchId, tx: TxHash)
    | Waiting(pending: seq<int>, next: nat, batch: BatchId, tx: TxHash)

  /**
   `ids` are the order's ticket ids in the one order the database lists them.  `minted` says,
   for every NFT Megapot ever minted, which of this order's tickets it was bought for
   (-1 for somebody else's).
   */
  datatype State = State(
    ids: seq<string>,
    rows: Rows,
    order: OrderStatus,
    megapotIds: seq<NftId>,
    pc: Pc,
    txs: seq<Tx>,
    fulfilled: map<string, TxHash>,
    minted: seq<int>)

  predicate WellIdentified(ids: seq<string>) {
    && ValidIds(ids)
    && forall i, j :: 0 <= i < j < |ids| ==> ids[i] != ids[j]
  }

  function IdsOf(ids: seq<string>, chunk: seq<int>): (r: seq<string>)
    requires forall i :: 0 <= i < |chunk| ==> 0 <= chunk[i] < |ids|
    ensures |r| == |chunk|
    ensures forall i :: 0 <= i < |chunk| ==> r[i] == ids[chunk[i]]
  {
    seq(|chunk|, i requires 0 <= i < |chunk| => ids[chunk[i]])
  }

  /** The NFTs a landed transaction minted, one per ticket. */
  function MintedBy(tx: Tx): (ids: seq<NftId>)
    requires tx.outcome.LandedFrom?
    ensures |ids| == |tx.tickets|
  {
    seq(|tx.tickets|, i => tx.outcome.first + i)
  }

  /** What the job learns about a transaction: nothing yet, or its receipt, or on a revert perhaps an earlier fulfillment. */
  ghost predicate CanLearn(s: State, tx: TxHash, chunk: seq<int>, fate: Fate)
    requires 0 <= tx < |s.txs| && Positions(s.rows.tickets, chunk) && |s.ids| == |s.rows.tickets|
  {
    match fate
    case NoReceipt => true
    case Landed(ids) => s.txs[tx].outcome.LandedFrom? && ids == MintedBy(s.txs[tx])
    case Reverted(None) => s.txs[tx].outcome == RevertedOnChain
    case Reverted(Some((earlier, ids))) =>
      && s.txs[tx].outcome == RevertedOnChain
      && DeriveChunkOrderId(IdsOf(s.ids, chunk)) in s.fulfilled
      && earlier == s.fulfilled[DeriveChunkOrderId(IdsOf(s.ids, chunk))]
      && 0 <= earlier < |s.txs| && s.txs[earlier].outcome.LandedFrom?
      && ids == MintedBy(s.txs[earlier])
  }

  predicate BoundTo(tickets: seq<TicketRow>, b: BatchId, p: int) {
    0 <= p < |tickets| && tickets[p].batch == Some(b)
  }

  /** The positions that satisfy a test, in the database's order. */
  function Listing(n: nat, test: int -> bool): (r: seq<int>) {
    if n == 0 then [] else Listing(n - 1, test) + if test(n - 1) then [n - 1] else []
  }

  function StuckOf(rows: Rows, order: seq<BatchId>): (r: seq<Stuck>)
    ensures |r| == |order|
  {
    seq(|order|, i requires 0 <= i < |order| =>
      Stuck(order[i], Listing(|rows.tickets|, (p: int) => BoundTo(rows.tickets, order[i], p))))
  }

  predicate IsSubmitted(rows: Rows, b: BatchId) {
    b in rows.batches && rows.batches[b].status == Submitted
  }

  /** `findMany({ orderHash, status: SUBMITTED })`, in any order. */
  ghost predicate StuckQuery(rows: Rows, order: seq<BatchId>) {
    && (forall b :: b in order <==> IsSubmitted(rows, b))
    && (forall i, j :: 0 <= i < j < |order| ==> order[i] != order[j])
  }

  predicate IsPending(tickets: seq<TicketRow>, p: int) {
    0 <= p < |tickets| && tickets[p].nft == None && tickets[p].batch == None
  }

  function PendingOf(tickets: seq<TicketRow>): seq<int> {
    Listing(|tickets|, (p: int) => IsPending(tickets, p))
  }

  /** The pending query, when the database is free to list rows in any order. */
  ghost predicate PendingListed(tickets: seq<TicketRow>, pending: seq<int>) {
    && (forall p :: p in pending <==> IsPending(tickets, p))
    && Unique(pending)
  }

  function NftsOf(tickets: seq<TicketRow>): seq<NftId> {
    if |tickets| == 0 then []
    else NftsOf(tickets[..|tickets| - 1])
         + if tickets[|tickets| - 1].nft.Some? then [tickets[|tickets| - 1].nft.value] else []
  }

  datatype Step =
    | Lock
    | ReadStuck(stuckOrder: seq<BatchId>)
    | Resolve(fate: Fate)
    | ReadPending(listing: seq<int>)
    | CreateBatch
    | BindTickets
    | Broadcasting(reached: bool, accepted: bool, status: OrderStatus)
    | RecordHash
    | Await(learned: Fate, status: OrderStatus)
    | Finish
    | Abandon(status: OrderStatus)
    | Requeue
    | Mine(tx: TxHash, succeeds: bool)
    | MintElsewhere(count: nat)

  /** The status a job may leave behind when it stops early; a crash leaves PROCESSING. */
  predicate LeftBehind(status: OrderStatus) {
    status != Success
  }

  /** `fixedOrder`: the database always lists an order's tickets in the same order. */
  ghost predicate StepBy(fixedOrder: bool, s: State, s': State, step: Step) {
    match step
    case Lock =>
      && s.pc.Idle? && s.order == Relayable
      && s' == s.(order := Processing, pc := Locked)
    case ReadStuck(order) =>
      && s.pc.Locked? && StuckQuery(s.rows, order)
      && s' == s.(pc := Resolving(StuckOf(s.rows, order)))
    case Resolve(fate) =>
      && s.pc.Resolving? && |s.pc.stuck| > 0
      && (var head := s.pc.stuck[0];
          && head.batch in s.rows.batches && Positions(s.rows.tickets, head.tickets) && |s.ids| == |s.rows.tickets|
          && (var hash := s.rows.batches[head.batch].txHash;
              hash.Some? ==> 0 <= hash.value < |s.txs| && CanLearn(s, hash.value, head.tickets, fate))
          && s' == s.(rows := ResolveOne(s.rows, head, fate), pc := Resolving(s.pc.stuck[1..])))
    case ReadPending(listing) =>
      && s.pc == Resolving([]) && PendingListed(s.rows.tickets, listing)
      && (fixedOrder ==> listing == PendingOf(s.rows.tickets))
      && s' == s.(pc := Looping(listing, 0))
    case CreateBatch =>
      && s.pc.Looping? && s.pc.next < |s.pc.pending|
      && s' == s.(rows := NewBatch(s.rows), pc := Created(s.pc.pending, s.pc.next, s.rows.nextBatch))
    case BindTickets =>
      && s.pc.Created? && s.pc.next < |s.pc.pending|
      && s' == s.(rows := BindChunk(s.rows, s.pc.batch, NextChunk(s.pc.pending, s.pc.next)), pc := Bound(s.pc.pending, s.pc.next, s.pc.batch))
    case Broadcasting(reached, accepted, status) =>
      && s.pc.Bound? && s.pc.next < |s.pc.pending| && (accepted ==> reached) && LeftBehind(status)
      && (var chunk := NextChunk(s.pc.pending, s.pc.next);
          && Positions(s.rows.tickets, chunk) && |s.ids| == |s.rows.tickets|
          && (var tx := Tx(DeriveChunkOrderId(IdsOf(s.ids, chunk)), chunk, InMempool);
              var txs := if reached then s.txs + [tx] else s.txs;
              s' == if accepted then s.(txs := txs, pc := Sent(s.pc.pending, s.pc.next, s.pc.batch, |s.txs|))
                    else s.(txs := txs, pc := Idle, order := status)))
    case RecordHash =>
      && s.pc.Sent? && s.pc.batch in s.rows.batches
      && s' == s.(rows := SaveHash(s.rows, s.pc.batch, s.pc.tx), pc := Waiting(s.pc.pending, s.pc.next, s.pc.batch, s.pc.tx))
    case Await(fate, status) =>
      && s.pc.Waiting? && s.pc.next < |s.pc.pending| && s.pc.batch in s.rows.batches && LeftBehind(status)
      && (var chunk := NextChunk(s.pc.pending, s.pc.next);
          && Positions(s.rows.tickets, chunk) && |s.ids| == |s.rows.tickets| && 0 <= s.pc.tx < |s.txs|
          && CanLearn(s, s.pc.tx, chunk, fate)
          && (var (rows, done) := Settle(s.rows, s.pc.batch, chunk, s.pc.tx, fate);
              s' == if done then s.(rows := rows, pc := Looping(s.pc.pending, s.pc.next + CHUNK))
                    else s.(rows := rows, pc := Idle, order := status)))
    case Finish =>
      && s.pc.Looping? && s.pc.next >= |s.pc.pending|
      && s' == s.(order := Success, megapotIds := NftsOf(s.rows.tickets), pc := Idle)
    case Abandon(status) =>
      && !s.pc.Idle? && LeftBehind(status)
      && s' == s.(pc := Idle, order := status)
    case Requeue =>
      && s.pc.Idle? && s.order != Success
      && s' == s.(order := Relayable)
    case Mine(tx, succeeds) =>
      && 0 <= tx < |s.txs| && s.txs[tx].outcome == InMempool
      && s' == if succeeds && s.txs[tx].orderId !in s.fulfilled then
                 s.(txs := s.txs[tx := s.txs[tx].(outcome := LandedFrom(|s.minted|))],
                    fulfilled := s.fulfilled[s.txs[tx].orderId := tx],
                    minted := s.minted + s.txs[tx].tickets)
               else s.(txs := s.txs[tx := s.txs[tx].(outcome := RevertedOnChain)])
    case MintElsewhere(count) =>
      && s' == s.(minted := s.minted + seq(count, _ => -1))
  }

  ghost predicate Next(fixedOrder: bool, s: State, s': State) {
    exists step :: StepBy(fixedOrder, s, s', step)
  }

  /** A fresh order: no batches, nothing bought. */
  ghost predicate Init(s: State) {
    && WellIdentified(s.ids) && |s.rows.tickets| == |s.ids|
    && (forall p :: 0 <= p < |s.rows.tickets| ==> s.rows.tickets[p] == TicketRow(None, None, None))
    && s.rows.batches == map[] && s.rows.nextBatch == 0
    && s.order == Relayable && s.pc == Idle && s.txs == [] && s.fulfilled == map[]
    && (forall k :: 0 <= k < |s.minted| ==> s.minted[k] == -1)
  }

  ghost predicate StepsAt(fixedOrder: bool, states: seq<State>, k: int)
    requires 0 <= k < |states| - 1
  {
    Next(fixedOrder, states[k], states[k + 1])
  }

  ghost predicate Run(fixedOrder: bool, states: seq<State>) {
    && |states| > 0 && Init(states[0])
    && forall k :: 0 <= k < |states| - 1 ==> StepsAt(fixedOrder, states, k)
  }

  ghost predicate EndsIn(fixedOrder: bool, states: seq<State>, s: State) {
    Run(fixedOrder, states) && states[|states| - 1] == s
  }

  ghost predicate Reachable(fixedOrder: bool, s: State) {
    exists states :: EndsIn(fixedOrder, states, s)
  }

  /** No ticket of the order was ever bought twice. */
  ghost predicate BoughtAtMostOnce(s: State) {
    forall i, j :: 0 <= i < j < |s.minted| && s.minted[i] >= 0 ==> s.minted[i] != s.minted[j]
  }
}
