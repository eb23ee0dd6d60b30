/**
 The rows a relay job works on (backend/src/workers/baseRelayWorker.ts): an order's tickets, in
 the order the database lists them, and its chunk batches; and the job's two loops over them.
 */
module RelayRows {
  import opened Wrappers

  type BatchId = int
  type TxHash = int
  type NftId = int

  const CHUNK: nat := 15

  datatype TicketRow = TicketRow(nft: Option<NftId>, baseTx: Option<TxHash>, batch: Option<BatchId>)

  datatype BatchStatus = Submitted | Confirmed | Failed

  datatype Batch = Batch(status: BatchStatus, txHash: Option<TxHash>)

  /** Tickets are named by their position; batch ids are given out in turn. */
  datatype Rows = Rows(tickets: seq<TicketRow>, batches: map<BatchId, Batch>, nextBatch: nat)

  /** What became of a broadcast transaction, as far as the job can tell. */
  datatype Fate =
    | NoReceipt
    | Landed(ids: seq<NftId>)
    | Reverted(earlier: Option<(TxHash, seq<NftId>)>)

  predicate Positions(tickets: seq<TicketRow>, chunk: seq<int>) {
    forall i :: 0 <= i < |chunk| ==> 0 <= chunk[i] < |tickets|
  }

  ghost predicate Unique(chunk: seq<int>) {
    forall i, j :: 0 <= i < j < |chunk| ==> chunk[i] != chunk[j]
  }

  /** Where a position stands in a chunk, or the chunk's length. */
  function PlaceOf(chunk: seq<int>, position: int): (k: nat)
    ensures k <= |chunk|
    ensures k < |chunk| ==> chunk[k] == position
    ensures forall i :: 0 <= i < k ==> chunk[i] != position
  {
    if |chunk| == 0 || chunk[0] == position then 0 else 1 + PlaceOf(chunk[1..], position)
  }

  function SetBatch(rows: Rows, b: BatchId, batch: Batch): Rows {
    rows.(batches := rows.batches[b := batch])
  }

  /** finalizeChunkSuccess: ids go to tickets by place; tickets beyond the ids get none. */
  function Finalize(rows: Rows, b: BatchId, chunk: seq<int>, tx: TxHash, ids: seq<NftId>): Rows
    requires b in rows.batches
  {
    SetBatch(rows, b, rows.batches[b].(status := Confirmed)).(
      tickets := seq(|rows.tickets|, p requires 0 <= p < |rows.tickets| =>
        var k := PlaceOf(chunk, p);
        if k < |chunk| && k < |ids| then rows.tickets[p].(nft := Some(ids[k]), baseTx := Some(tx)) else rows.tickets[p]))
  }

  function WithBatch(tickets: seq<TicketRow>, chunk: seq<int>, batch: Option<BatchId>): (r: seq<TicketRow>)
    ensures |r| == |tickets|
  {
    seq(|tickets|, p requires 0 <= p < |tickets| => if p in chunk then tickets[p].(batch := batch) else tickets[p])
  }

  /** releaseChunk */
  function Release(rows: Rows, b: BatchId, chunk: seq<int>): Rows
    requires b in rows.batches
  {
    SetBatch(rows, b, rows.batches[b].(status := Failed)).(tickets := WithBatch(rows.tickets, chunk, None))
  }

  /** What the job writes once it has stopped waiting for a chunk's transaction, and whether the chunk is done. */
  function Settle(rows: Rows, b: BatchId, chunk: seq<int>, tx: TxHash, fate: Fate): (Rows, bool)
    requires b in rows.batches
  {
    match fate
    case NoReceipt => (Release(rows, b, chunk), false)
    case Landed(ids) => (Finalize(rows, b, chunk, tx, ids), true)
    case Reverted(Some((earlier, ids))) => (Finalize(rows, b, chunk, earlier, ids), true)
    case Reverted(None) => (Release(rows, b, chunk), false)
  }

  function NewBatch(rows: Rows): Rows {
    rows.(batches := rows.batches[rows.nextBatch := Batch(Submitted, None)], nextBatch := rows.nextBatch + 1)
  }

  function BindChunk(rows: Rows, b: BatchId, chunk: seq<int>): Rows {
    rows.(tickets := WithBatch(rows.tickets, chunk, Some(b)))
  }

  function SaveHash(rows: Rows, b: BatchId, tx: TxHash): Rows
    requires b in rows.batches
  {
    SetBatch(rows, b, rows.batches[b].(txHash := Some(tx)))
  }

  function NextChunk(pending: seq<int>, next: nat): (chunk: seq<int>)
    requires next < |pending|
    ensures 0 < |chunk| <= CHUNK
  {
    pending[next..Min(next + CHUNK, |pending|)]
  }

  // ---------------------------------------------------------------------------------
  // The loops, as the job runs them when nothing interrupts it
  // ---------------------------------------------------------------------------------

  /** The broadcast of one chunk: rejected, or accepted under a hash and met by some fate. */
  datatype Broadcast = Rejected | Accepted(tx: TxHash, fate: Fate)

  /** submitAndConfirmChunk; false stands for the exception. */
  function SubmitChunk(rows: Rows, chunk: seq<int>, broadcast: Broadcast): (Rows, bool) {
    var b := rows.nextBatch;
    var bound := BindChunk(NewBatch(rows), b, chunk);
    match broadcast
    case Rejected => (bound, false)
    case Accepted(tx, fate) => Settle(SaveHash(bound, b, tx), b, chunk, tx, fate)
  }

  /**
   How a chunk is left: done, with every id on the ticket at its place; freed for a retry; or, after
   a rejected broadcast, still bound to a batch that has no hash.
   */
  ghost predicate ChunkLeft(before: Rows, after: Rows, chunk: seq<int>, broadcast: Broadcast, done: bool) {
    var b := before.nextBatch;
    && after.nextBatch == b + 1 && after.batches.Keys == before.batches.Keys + {b}
    && (forall o :: o in before.batches && o != b ==> after.batches[o] == before.batches[o])
    && |after.tickets| == |before.tickets|
    && (forall p :: 0 <= p < |before.tickets| && p !in chunk ==> after.tickets[p] == before.tickets[p])
    && (match broadcast
        case Rejected =>
          && !done && after.batches[b] == Batch(Submitted, None)
          && forall i :: 0 <= i < |chunk| && 0 <= chunk[i] < |before.tickets| ==>
               after.tickets[chunk[i]] == before.tickets[chunk[i]].(batch := Some(b))
        case Accepted(tx, fate) =>
          && (done <==> fate.Landed? || (fate.Reverted? && fate.earlier.Some?))
          && after.batches[b] == Batch(if done then Confirmed else Failed, Some(tx))
          && (fate.Landed? ==> forall i :: 0 <= i < |chunk| && 0 <= chunk[i] < |before.tickets| ==>
                after.tickets[chunk[i]] == if i < |fate.ids| then TicketRow(Some(fate.ids[i]), Some(tx), Some(b))
                                           else before.tickets[chunk[i]].(batch := Some(b)))
          && (fate.Reverted? && fate.earlier.Some? ==> forall i :: 0 <= i < |chunk| && 0 <= chunk[i] < |before.tickets| ==>
                after.tickets[chunk[i]] == if i < |fate.earlier.value.1| then TicketRow(Some(fate.earlier.value.1[i]), Some(fate.earlier.value.0), Some(b))
                                           else before.tickets[chunk[i]].(batch := Some(b)))
          && (!done ==> forall i :: 0 <= i < |chunk| && 0 <= chunk[i] < |before.tickets| ==>
                after.tickets[chunk[i]] == before.tickets[chunk[i]].(batch := None)))
  }

  lemma SubmitLeaves(rows: Rows, chunk: seq<int>, broadcast: Broadcast)
    requires Unique(chunk)
    ensures var (after, done) := SubmitChunk(rows, chunk, broadcast); ChunkLeft(rows, after, chunk, broadcast, done)
  {
    if broadcast.Accepted? && broadcast.fate.Landed? {
      LandedLeaves(rows, chunk, broadcast.tx, broadcast.fate.ids);
    } else if broadcast.Accepted? && broadcast.fate.Reverted? && broadcast.fate.earlier.Some? {
      RecoveredLeaves(rows, chunk, broadcast.tx, broadcast.fate.earlier.value);
    }
  }

  lemma LandedLeaves(rows: Rows, chunk: seq<int>, tx: TxHash, ids: seq<int>)
    requires Unique(chunk)
    ensures var b := Accepted(tx, Landed(ids)); ChunkLeft(rows, SubmitChunk(rows, chunk, b).0, chunk, b, SubmitChunk(rows, chunk, b).1)
  {
    OwnPlace(chunk);
  }

  lemma RecoveredLeaves(rows: Rows, chunk: seq<int>, tx: TxHash, earlier: (TxHash, seq<int>))
    requires Unique(chunk)
    ensures var b := Accepted(tx, Reverted(Some(earlier)));
      ChunkLeft(rows, SubmitChunk(rows, chunk, b).0, chunk, b, SubmitChunk(rows, chunk, b).1)
  {
    OwnPlace(chunk);
  }

  lemma OwnPlace(chunk: seq<int>)
    requires Unique(chunk)
    ensures forall i :: 0 <= i < |chunk| ==> PlaceOf(chunk, chunk[i]) == i
  {
  }

  /** The chunk loop from `next` on, and how many tickets it got through. */
  function RelayFrom(rows: Rows, pending: seq<int>, next: nat, broadcasts: seq<Broadcast>, turn: nat): (Rows, nat)
    requires next <= |pending| && turn + |pending| - next <= |broadcasts|
    decreases |pending| - next, 1
  {
    if next == |pending| then (rows, next) else RelayTurn(rows, pending, next, broadcasts, turn)
  }

  function RelayTurn(rows: Rows, pending: seq<int>, next: nat, broadcasts: seq<Broadcast>, turn: nat): (Rows, nat)
    requires next < |pending| && turn + |pending| - next <= |broadcasts|
    decreases |pending| - next, 0
  {
    var chunk := NextChunk(pending, next);
    var (after, done) := SubmitChunk(rows, chunk, broadcasts[turn]);
    if done then RelayFrom(after, pending, next + |chunk|, broadcasts, turn + 1) else (after, next)
  }

  /** Once its next chunk is sent, the loop goes on behind it or ends before it. */
  lemma AfterTurn(rows: Rows, after: Rows, done: bool, pending: seq<int>, next: nat, broadcasts: seq<Broadcast>, turn: nat)
    requires next < |pending| && turn + |pending| - next <= |broadcasts|
    requires (after, done) == SubmitChunk(rows, NextChunk(pending, next), broadcasts[turn])
    ensures RelayFrom(rows, pending, next, broadcasts, turn)
            == if done then RelayFrom(after, pending, next + |NextChunk(pending, next)|, broadcasts, turn + 1) else (after, next)
  {
    assert RelayFrom(rows, pending, next, broadcasts, turn) == RelayTurn(rows, pending, next, broadcasts, turn);
  }

  lemma ChunkFits(tickets: seq<TicketRow>, pending: seq<int>, next: nat)
    requires Positions(tickets, pending) && Unique(pending) && next < |pending|
    ensures Positions(tickets, NextChunk(pending, next)) && Unique(NextChunk(pending, next))
    ensures next + |NextChunk(pending, next)| <= |pending|
  {
  }

  /** Receipts and recovered fulfillments list one id per ticket. */
  ghost predicate ListsEveryId(fate: Fate, chunk: seq<int>) {
    match fate
    case Landed(ids) => |ids| == |chunk|
    case Reverted(Some((_, ids))) => |ids| == |chunk|
    case _ => true
  }

  ghost predicate ListEveryId(pending: seq<int>, next: nat, broadcasts: seq<Broadcast>, turn: nat)
    requires next <= |pending| && turn + |pending| - next <= |broadcasts|
    decreases |pending| - next
  {
    next < |pending| ==>
      && (broadcasts[turn].Accepted? ==> ListsEveryId(broadcasts[turn].fate, NextChunk(pending, next)))
      && ListEveryId(pending, next + |NextChunk(pending, next)|, broadcasts, turn + 1)
  }

  lemma SubmitTouchesChunk(rows: Rows, chunk: seq<int>, broadcast: Broadcast)
    ensures var (after, done) := SubmitChunk(rows, chunk, broadcast);
      && |after.tickets| == |rows.tickets|
      && (forall p :: 0 <= p < |rows.tickets| && p !in chunk ==> after.tickets[p] == rows.tickets[p])
      && (broadcast.Accepted? && done && ListsEveryId(broadcast.fate, chunk) ==>
            forall p :: 0 <= p < |rows.tickets| && p in chunk ==> after.tickets[p].nft.Some? && after.tickets[p].batch == Some(rows.nextBatch))
      && (!done ==> forall p :: 0 <= p < |rows.tickets| && p in chunk ==> after.tickets[p].nft == rows.tickets[p].nft)
  {
  }

  ghost predicate Listed(pending: seq<int>, from: nat, to: nat, p: int)
    requires from <= to <= |pending|
  {
    exists k :: from <= k < to && pending[k] == p
  }

  /** From `next` to `reached` every listed ticket has an NFT; no other ticket has gained one. */
  ghost predicate Filled(before: seq<TicketRow>, after: seq<TicketRow>, pending: seq<int>, next: nat, reached: nat) {
    && next <= reached <= |pending| && |after| == |before|
    && (forall k :: next <= k < reached ==> 0 <= pending[k] < |after| && after[pending[k]].nft.Some?)
    && (forall p :: 0 <= p < |before| && !Listed(pending, next, reached, p) ==> after[p].nft == before[p].nft)
    && (forall p :: 0 <= p < |before| && !Listed(pending, next, |pending|, p) ==> after[p] == before[p])
  }

  lemma FilledOn(a: seq<TicketRow>, b: seq<TicketRow>, c: seq<TicketRow>, pending: seq<int>, next: nat, mid: nat, reached: nat)
    requires Unique(pending) && Positions(a, pending)
    requires Filled(a, b, pending, next, mid) && Filled(b, c, pending, mid, reached)
    ensures Filled(a, c, pending, next, reached)
  {
    forall k | next <= k < mid ensures c[pending[k]] == b[pending[k]] {
      assert !Listed(pending, mid, |pending|, pending[k]);
    }
    forall p | 0 <= p < |a| && !Listed(pending, next, reached, p) ensures c[p].nft == a[p].nft {
      assert !Listed(pending, next, mid, p) && !Listed(pending, mid, reached, p);
    }
    forall p | 0 <= p < |a| && !Listed(pending, next, |pending|, p) ensures c[p] == a[p] {
      assert !Listed(pending, next, |pending|, p) && !Listed(pending, mid, |pending|, p);
    }
  }

  lemma SubmitFills(rows: Rows, pending: seq<int>, next: nat, broadcast: Broadcast)
    requires Positions(rows.tickets, pending) && Unique(pending) && next < |pending|
    requires broadcast.Accepted? ==> ListsEveryId(broadcast.fate, NextChunk(pending, next))
    ensures var chunk := NextChunk(pending, next);
      var (after, done) := SubmitChunk(rows, chunk, broadcast);
      Filled(rows.tickets, after.tickets, pending, next, if done then next + |chunk| else next)
  {
    var chunk := NextChunk(pending, next);
    SubmitTouchesChunk(rows, chunk, broadcast);
    ChunkOfPending(pending, next);
    var after := SubmitChunk(rows, chunk, broadcast).0;
    if SubmitChunk(rows, chunk, broadcast).1 {
      DoneFills(rows.tickets, after.tickets, pending, next);
    } else {
      assert pending[next..next] == [];
    }
  }

  lemma ChunkOfPending(pending: seq<int>, next: nat)
    requires next < |pending|
    ensures var chunk := NextChunk(pending, next);
      && next + |chunk| <= |pending| && pending[next..next + |chunk|] == chunk
      && (forall k :: next <= k < next + |chunk| ==> pending[k] in chunk)
      && (forall p :: p in chunk ==> p in pending[next..])
  {
    var chunk := NextChunk(pending, next);
    forall k | next <= k < next + |chunk| ensures pending[k] in chunk {
      assert chunk[k - next] == pending[k];
    }
  }

  lemma DoneFills(before: seq<TicketRow>, after: seq<TicketRow>, pending: seq<int>, next: nat)
    requires Positions(before, pending) && next < |pending| && |after| == |before|
    requires var chunk := NextChunk(pending, next);
      && (forall p :: 0 <= p < |before| && p !in chunk ==> after[p] == before[p])
      && (forall p :: 0 <= p < |before| && p in chunk ==> after[p].nft.Some?)
    ensures Filled(before, after, pending, next, next + |NextChunk(pending, next)|)
  {
    ChunkOfPending(pending, next);
  }

  /** The loop gives NFTs to the listed tickets in order, up to the chunk it stops at, and touches nothing else. */
  lemma {:induction false} LoopFillsInOrder(rows: Rows, pending: seq<int>, next: nat, broadcasts: seq<Broadcast>, turn: nat)
    returns (end: (Rows, nat))
    requires next <= |pending| && turn + |pending| - next <= |broadcasts|
    requires Positions(rows.tickets, pending) && Unique(pending) && ListEveryId(pending, next, broadcasts, turn)
    ensures end == RelayFrom(rows, pending, next, broadcasts, turn)
    ensures Filled(rows.tickets, end.0.tickets, pending, next, end.1)
    decreases |pending| - next
  {
    if next == |pending| {
      end := (rows, next);
      FilledNone(rows.tickets, pending, next);
    } else {
      var after, done, mid := OneTurn(rows, pending, next, broadcasts, turn);
      if done {
        end := LoopFillsInOrder(after, pending, mid, broadcasts, turn + 1);
        FilledThrough(rows, after, end, pending, next, mid);
      } else {
        end := (after, next);
      }
    }
  }

  /** One turn of the loop: how it goes on, and what it has filled. */
  lemma OneTurn(rows: Rows, pending: seq<int>, next: nat, broadcasts: seq<Broadcast>, turn: nat) returns (after: Rows, done: bool, mid: nat)
    requires next < |pending| && turn + |pending| - next <= |broadcasts|
    requires Positions(rows.tickets, pending) && Unique(pending) && ListEveryId(pending, next, broadcasts, turn)
    ensures
      && next < mid <= |pending| && ListEveryId(pending, mid, broadcasts, turn + 1)
      && RelayFrom(rows, pending, next, broadcasts, turn) == (if done then RelayFrom(after, pending, mid, broadcasts, turn + 1) else (after, next))
      && Filled(rows.tickets, after.tickets, pending, next, if done then mid else next)
      && Positions(after.tickets, pending)
  {
    var sent := SubmitChunk(rows, NextChunk(pending, next), broadcasts[turn]);
    after, done, mid := sent.0, sent.1, next + |NextChunk(pending, next)|;
    assert mid <= |pending| && ListEveryId(pending, mid, broadcasts, turn + 1) by {
      ListedOn(pending, next, broadcasts, turn);
    }
    assert RelayFrom(rows, pending, next, broadcasts, turn) == (if done then RelayFrom(after, pending, mid, broadcasts, turn + 1) else (after, next)) by {
      AfterTurn(rows, after, done, pending, next, broadcasts, turn);
    }
    assert Filled(rows.tickets, after.tickets, pending, next, if done then mid else next) by {
      SubmitFills(rows, pending, next, broadcasts[turn]);
    }
  }

  lemma ListedOn(pending: seq<int>, next: nat, broadcasts: seq<Broadcast>, turn: nat)
    requires next < |pending| && turn + |pending| - next <= |broadcasts| && ListEveryId(pending, next, broadcasts, turn)
    ensures var mid := next + |NextChunk(pending, next)|; mid <= |pending| && ListEveryId(pending, mid, broadcasts, turn + 1)
  {
  }

  lemma FilledThrough(rows: Rows, after: Rows, end: (Rows, nat), pending: seq<int>, next: nat, mid: nat)
    requires Unique(pending) && Positions(rows.tickets, pending)
    requires Filled(rows.tickets, after.tickets, pending, next, mid) && Filled(after.tickets, end.0.tickets, pending, mid, end.1)
    ensures Filled(rows.tickets, end.0.tickets, pending, next, end.1)
  {
    FilledOn(rows.tickets, after.tickets, end.0.tickets, pending, next, mid, end.1);
  }

  lemma FilledNone(tickets: seq<TicketRow>, pending: seq<int>, next: nat)
    requires next <= |pending|
    ensures Filled(tickets, tickets, pending, next, next)
  {
  }

  /** A chunk is done when its transaction landed, or another one had bought it before. */
  lemma DoneIsBought(rows: Rows, chunk: seq<int>, broadcast: Broadcast)
    ensures SubmitChunk(rows, chunk, broadcast).1 <==>
      broadcast.Accepted? && (broadcast.fate.Landed? || (broadcast.fate.Reverted? && broadcast.fate.earlier.Some?))
  {
  }

  /**
   From `next` on `bought` chunks were bought, all full but for the listing's end.  The next one, if any
   ticket is left, was rejected, found no receipt, or was reverted with nothing bought before.
   */
  ghost predicate StopsAt(count: nat, next: nat, broadcasts: seq<Broadcast>, turn: nat, bought: nat, reached: nat) {
    && turn + bought <= |broadcasts| && reached == Min(count, next + 15 * bought)
    && (reached < count ==>
          && turn + bought < |broadcasts|
          && var last := broadcasts[turn + bought]; last.Rejected? || last.fate.NoReceipt? || last.fate == Reverted(None))
    && forall i :: turn <= i < turn + bought ==>
         && broadcasts[i].Accepted?
         && (broadcasts[i].fate.Landed? || (broadcasts[i].fate.Reverted? && broadcasts[i].fate.earlier.Some?))
  }

  lemma StopsLater(count: nat, next: nat, broadcasts: seq<Broadcast>, turn: nat, later: nat, reached: nat)
    requires next < count && turn < |broadcasts| && StopsAt(count, Min(count, next + 15), broadcasts, turn + 1, later, reached)
    requires broadcasts[turn].Accepted?
    requires broadcasts[turn].fate.Landed? || (broadcasts[turn].fate.Reverted? && broadcasts[turn].fate.earlier.Some?)
    ensures StopsAt(count, next, broadcasts, turn, 1 + later, reached)
  {
  }

  lemma TurnIsBought(rows: Rows, pending: seq<int>, next: nat, broadcasts: seq<Broadcast>, turn: nat) returns (after: Rows, done: bool)
    requires next < |pending| && turn + |pending| - next <= |broadcasts|
    ensures RelayFrom(rows, pending, next, broadcasts, turn)
            == if done then RelayFrom(after, pending, next + |NextChunk(pending, next)|, broadcasts, turn + 1) else (after, next)
    ensures done <==>
      && broadcasts[turn].Accepted?
      && (broadcasts[turn].fate.Landed? || (broadcasts[turn].fate.Reverted? && broadcasts[turn].fate.earlier.Some?))
  {
    var sent := SubmitChunk(rows, NextChunk(pending, next), broadcasts[turn]);
    after, done := sent.0, sent.1;
    AfterTurn(rows, after, done, pending, next, broadcasts, turn);
    DoneIsBought(rows, NextChunk(pending, next), broadcasts[turn]);
  }

  /** The loop stops at the first chunk that was not bought, and nowhere else. */
  lemma {:induction false} LoopStopsAtFailure(rows: Rows, pending: seq<int>, next: nat, broadcasts: seq<Broadcast>, turn: nat)
    returns (bought: nat, reached: nat)
    requires next <= |pending| && turn + |pending| - next <= |broadcasts|
    ensures reached == RelayFrom(rows, pending, next, broadcasts, turn).1
    ensures StopsAt(|pending|, next, broadcasts, turn, bought, reached)
    decreases |pending| - next
  {
    bought, reached := 0, next;
    if next < |pending| {
      var after, done := TurnIsBought(rows, pending, next, broadcasts, turn);
      if done {
        bought, reached := LoopStopsAtFailure(after, pending, next + |NextChunk(pending, next)|, broadcasts, turn + 1);
        StopsLater(|pending|, next, broadcasts, turn, bought, reached);
        bought := 1 + bought;
      }
    }
  }

  /** A batch left SUBMITTED, with the tickets bound to it. */
  datatype Stuck = Stuck(batch: BatchId, tickets: seq<int>)

  /** One round of resolveInFlightBatches; a batch without a hash was never waited for. */
  function ResolveOne(rows: Rows, stuck: Stuck, fate: Fate): Rows
    requires stuck.batch in rows.batches
  {
    var hash := rows.batches[stuck.batch].txHash;
    if hash.None? then Release(rows, stuck.batch, stuck.tickets)
    else Settle(rows, stuck.batch, stuck.tickets, hash.value, fate).0
  }

  ghost predicate Known(rows: Rows, stuck: seq<Stuck>) {
    forall i :: 0 <= i < |stuck| ==> stuck[i].batch in rows.batches
  }

  lemma ResolveOneKnows(rows: Rows, stuck: Stuck, fate: Fate)
    requires stuck.batch in rows.batches
    ensures ResolveOne(rows, stuck, fate).batches.Keys == rows.batches.Keys
  {
  }

  /** The rounds from `i` on. */
  function ResolveFrom(rows: Rows, stuck: seq<Stuck>, fates: seq<Fate>, i: nat): Rows
    requires i <= |stuck| == |fates| && Known(rows, stuck)
    decreases |stuck| - i
  {
    if i == |stuck| then rows
    else
      ResolveOneKnows(rows, stuck[i], fates[i]);
      ResolveFrom(ResolveOne(rows, stuck[i], fates[i]), stuck, fates, i + 1)
  }

  /** No two stuck batches are the same, or share a ticket. */
  ghost predicate Apart(stuck: seq<Stuck>) {
    forall i, j :: 0 <= i < j < |stuck| ==>
      stuck[i].batch != stuck[j].batch && forall p :: p in stuck[i].tickets ==> p !in stuck[j].tickets
  }

  /**
   What becomes of a stuck batch: with a hash that landed, every id on the ticket at its place; with
   one that was reverted because another transaction had bought the chunk, that one's ids; and
   otherwise the tickets are free and the batch has failed.
   */
  ghost predicate StuckLeft(before: Rows, after: Rows, stuck: Stuck, fate: Fate)
    requires stuck.batch in before.batches
  {
    var b, chunk, hash := stuck.batch, stuck.tickets, before.batches[stuck.batch].txHash;
    && b in after.batches && |after.tickets| == |before.tickets|
    && (hash.Some? && fate.Landed? ==>
          && after.batches[b] == before.batches[b].(status := Confirmed)
          && forall i :: 0 <= i < |chunk| && 0 <= chunk[i] < |before.tickets| ==>
               after.tickets[chunk[i]] == if i < |fate.ids| then before.tickets[chunk[i]].(nft := Some(fate.ids[i]), baseTx := hash)
                                          else before.tickets[chunk[i]])
    && (hash.Some? && fate.Reverted? && fate.earlier.Some? ==>
          && after.batches[b] == before.batches[b].(status := Confirmed)
          && forall i :: 0 <= i < |chunk| && 0 <= chunk[i] < |before.tickets| ==>
               after.tickets[chunk[i]] == if i < |fate.earlier.value.1|
                 then before.tickets[chunk[i]].(nft := Some(fate.earlier.value.1[i]), baseTx := Some(fate.earlier.value.0))
                 else before.tickets[chunk[i]])
    && (hash.None? || fate.NoReceipt? || fate == Reverted(None) ==>
          && after.batches[b] == before.batches[b].(status := Failed)
          && forall i :: 0 <= i < |chunk| && 0 <= chunk[i] < |before.tickets| ==>
               after.tickets[chunk[i]] == before.tickets[chunk[i]].(batch := None))
  }

  lemma ResolveOneLeaves(rows: Rows, stuck: Stuck, fate: Fate)
    requires stuck.batch in rows.batches && Unique(stuck.tickets)
    ensures StuckLeft(rows, ResolveOne(rows, stuck, fate), stuck, fate)
  {
    OwnPlace(stuck.tickets);
  }

  /** The rounds from `i` on leave every other ticket and batch alone. */
  ghost predicate OthersStay(before: Rows, after: Rows, stuck: seq<Stuck>, i: nat) {
    && after.nextBatch == before.nextBatch && after.batches.Keys == before.batches.Keys && |after.tickets| == |before.tickets|
    && (forall p :: 0 <= p < |before.tickets| && (forall j :: i <= j < |stuck| ==> p !in stuck[j].tickets) ==>
          after.tickets[p] == before.tickets[p])
    && (forall b :: b in before.batches && (forall j :: i <= j < |stuck| ==> b != stuck[j].batch) ==>
          after.batches[b] == before.batches[b])
  }

  lemma ResolveOneStays(rows: Rows, stuck: Stuck, fate: Fate)
    requires stuck.batch in rows.batches
    ensures var after := ResolveOne(rows, stuck, fate);
      && after.nextBatch == rows.nextBatch && after.batches.Keys == rows.batches.Keys && |after.tickets| == |rows.tickets|
      && (forall p :: 0 <= p < |rows.tickets| && p !in stuck.tickets ==> after.tickets[p] == rows.tickets[p])
      && (forall b :: b in rows.batches && b != stuck.batch ==> after.batches[b] == rows.batches[b])
  {
  }

  lemma {:induction false} ResolveFromStays(rows: Rows, stuck: seq<Stuck>, fates: seq<Fate>, i: nat)
    requires i <= |stuck| == |fates| && Known(rows, stuck)
    ensures OthersStay(rows, ResolveFrom(rows, stuck, fates, i), stuck, i)
    decreases |stuck| - i
  {
    if i < |stuck| {
      ResolveOneKnows(rows, stuck[i], fates[i]);
      ResolveOneStays(rows, stuck[i], fates[i]);
      ResolveFromStays(ResolveOne(rows, stuck[i], fates[i]), stuck, fates, i + 1);
    }
  }

  /** A round settles its own batch for good, and no other round touches it. */
  lemma {:induction false} ResolveFromLeaves(rows: Rows, stuck: seq<Stuck>, fates: seq<Fate>, i: nat, k: nat)
    requires i <= k < |stuck| == |fates| && Known(rows, stuck) && Apart(stuck) && Unique(stuck[k].tickets)
    ensures StuckLeft(rows, ResolveFrom(rows, stuck, fates, i), stuck[k], fates[k])
    decreases |stuck| - i
  {
    ResolveOneKnows(rows, stuck[i], fates[i]);
    var one := ResolveOne(rows, stuck[i], fates[i]);
    ResolveOneStays(rows, stuck[i], fates[i]);
    if i == k {
      ResolveOneLeaves(rows, stuck[i], fates[i]);
      ResolveFromStays(one, stuck, fates, i + 1);
      StaysLeft(rows, one, ResolveFrom(one, stuck, fates, i + 1), stuck, fates[k], k);
    } else {
      ResolveFromLeaves(one, stuck, fates, i + 1, k);
      LeftLater(rows, one, ResolveFrom(one, stuck, fates, i + 1), stuck, fates[k], i, k);
    }
  }

  lemma StaysLeft(rows: Rows, one: Rows, after: Rows, stuck: seq<Stuck>, fate: Fate, k: nat)
    requires k < |stuck| && stuck[k].batch in rows.batches && Apart(stuck)
    requires StuckLeft(rows, one, stuck[k], fate) && OthersStay(one, after, stuck, k + 1)
    ensures StuckLeft(rows, after, stuck[k], fate)
  {
    forall i | 0 <= i < |stuck[k].tickets| && 0 <= stuck[k].tickets[i] < |rows.tickets|
      ensures after.tickets[stuck[k].tickets[i]] == one.tickets[stuck[k].tickets[i]]
    {
      assert stuck[k].tickets[i] in stuck[k].tickets;
    }
  }

  lemma LeftLater(rows: Rows, one: Rows, after: Rows, stuck: seq<Stuck>, fate: Fate, i: nat, k: nat)
    requires i < k < |stuck| && stuck[k].batch in rows.batches && Apart(stuck) && |one.tickets| == |rows.tickets|
    requires forall p :: 0 <= p < |rows.tickets| && p !in stuck[i].tickets ==> one.tickets[p] == rows.tickets[p]
    requires forall b :: b in rows.batches && b != stuck[i].batch ==> b in one.batches && one.batches[b] == rows.batches[b]
    requires stuck[k].batch in one.batches && StuckLeft(one, after, stuck[k], fate)
    ensures StuckLeft(rows, after, stuck[k], fate)
  {
    forall x | 0 <= x < |stuck[k].tickets| && 0 <= stuck[k].tickets[x] < |rows.tickets|
      ensures one.tickets[stuck[k].tickets[x]] == rows.tickets[stuck[k].tickets[x]]
    {
      assert stuck[k].tickets[x] in stuck[k].tickets;
    }
  }

  class RelayTables {
    var tickets: seq<TicketRow>
    var batches: map<BatchId, Batch>
    var nextBatch: nat

    function Contents(): Rows
      reads this
    {
      Rows(tickets, batches, nextBatch)
    }

    constructor (rows: Rows)
      ensures Contents() == rows
    {
      tickets, batches, nextBatch := rows.tickets, rows.batches, rows.nextBatch;
    }

    method FinalizeChunkSuccess(b: BatchId, chunk: seq<int>, tx: TxHash, ids: seq<NftId>)
      requires b in batches && Positions(tickets, chunk) && Unique(chunk)
      modifies this
      ensures Contents() == Finalize(old(Contents()), b, chunk, tx, ids)
      ensures batches == old(batches)[b := old(batches)[b].(status := Confirmed)] && |tickets| == |old(tickets)|
      ensures forall i :: 0 <= i < |chunk| ==>
        tickets[chunk[i]] == if i < |ids| then old(tickets)[chunk[i]].(nft := Some(ids[i]), baseTx := Some(tx)) else old(tickets)[chunk[i]]
      ensures forall p :: 0 <= p < |tickets| && p !in chunk ==> tickets[p] == old(tickets)[p]
    {
      OwnPlace(chunk);
      batches := batches[b := batches[b].(status := Confirmed)];
      ghost var was := tickets;
      for i := 0 to |chunk|
        invariant |tickets| == |was| && nextBatch == old(nextBatch)
        invariant batches == old(batches)[b := old(batches)[b].(status := Confirmed)]
        invariant forall p :: 0 <= p < |was| ==>
          var k := PlaceOf(chunk, p);
          tickets[p] == if k < i && k < |ids| then was[p].(nft := Some(ids[k]), baseTx := Some(tx)) else was[p]
      {
        if i < |ids| {
          tickets := tickets[chunk[i] := tickets[chunk[i]].(nft := Some(ids[i]), baseTx := Some(tx))];
        }
      }
      assert tickets == Finalize(old(Contents()), b, chunk, tx, ids).tickets;
    }

    method ReleaseChunk(b: BatchId, chunk: seq<int>)
      requires b in batches && Positions(tickets, chunk)
      modifies this
      ensures Contents() == Release(old(Contents()), b, chunk)
      ensures batches == old(batches)[b := old(batches)[b].(status := Failed)] && |tickets| == |old(tickets)|
      ensures forall p :: 0 <= p < |tickets| ==>
        tickets[p] == if p in chunk then old(tickets)[p].(batch := None) else old(tickets)[p]
    {
      ghost var was := tickets;
      for i := 0 to |chunk|
        invariant |tickets| == |was| && nextBatch == old(nextBatch) && batches == old(batches)
        invariant forall p :: 0 <= p < |was| ==>
          tickets[p] == if p in chunk[..i] then was[p].(batch := None) else was[p]
      {
        tickets := tickets[chunk[i] := tickets[chunk[i]].(batch := None)];
      }
      assert chunk[..|chunk|] == chunk;
      batches := batches[b := batches[b].(status := Failed)];
    }

    method SettleChunk(b: BatchId, chunk: seq<int>, tx: TxHash, fate: Fate) returns (done: bool)
      requires b in batches && Positions(tickets, chunk) && Unique(chunk)
      modifies this
      ensures (Contents(), done) == Settle(old(Contents()), b, chunk, tx, fate)
    {
      match fate
      case NoReceipt =>
        ReleaseChunk(b, chunk);
        done := false;
      case Landed(ids) =>
        FinalizeChunkSuccess(b, chunk, tx, ids);
        done := true;
      case Reverted(earlier) =>
        match earlier
        case Some(found) =>
          FinalizeChunkSuccess(b, chunk, found.0, found.1);
          done := true;
        case None =>
          ReleaseChunk(b, chunk);
          done := false;
    }

    method SubmitAndConfirmChunk(chunk: seq<int>, broadcast: Broadcast) returns (done: bool)
      requires Positions(tickets, chunk) && Unique(chunk)
      modifies this
      ensures (Contents(), done) == SubmitChunk(old(Contents()), chunk, broadcast)
      ensures |tickets| == |old(tickets)|
    {
      var b := nextBatch;
      batches, nextBatch := batches[b := Batch(Submitted, None)], nextBatch + 1;
      tickets := WithBatch(tickets, chunk, Some(b));
      if broadcast.Rejected? {
        return false;
      }
      batches := batches[b := batches[b].(txHash := Some(broadcast.tx))];
      done := SettleChunk(b, chunk, broadcast.tx, broadcast.fate);
    }

    /** The chunk loop: it ends at the first chunk that is not done. */
    method SendChunks(pending: seq<int>, broadcasts: seq<Broadcast>) returns (reached: nat)
      requires Positions(tickets, pending) && Unique(pending) && |broadcasts| >= |pending|
      modifies this
      ensures (Contents(), reached) == RelayFrom(old(Contents()), pending, 0, broadcasts, 0)
    {
      reached := 0;
      var turn := 0;
      while reached < |pending|
        invariant turn <= reached <= |pending| && |tickets| == |old(tickets)|
        invariant RelayFrom(old(Contents()), pending, 0, broadcasts, 0) == RelayFrom(Contents(), pending, reached, broadcasts, turn)
      {
        var chunk := NextChunk(pending, reached);
        ChunkFits(tickets, pending, reached);
        ghost var was := Contents();
        var done := SubmitAndConfirmChunk(chunk, broadcasts[turn]);
        AfterTurn(was, Contents(), done, pending, reached, broadcasts, turn);
        if !done {
          return;
        }
        reached, turn := reached + |chunk|, turn + 1;
      }
    }

    /** The job's share of the loop, with the number of chunks that were bought. */
    method RelayPending(pending: seq<int>, broadcasts: seq<Broadcast>) returns (reached: nat, ghost bought: nat)
      requires Positions(tickets, pending) && Unique(pending) && |broadcasts| >= |pending|
      modifies this
      ensures (Contents(), reached) == RelayFrom(old(Contents()), pending, 0, broadcasts, 0)
      ensures StopsAt(|pending|, 0, broadcasts, 0, bought, reached)
    {
      ghost var stop;
      bought, stop := LoopStopsAtFailure(Contents(), pending, 0, broadcasts, 0);
      reached := SendChunks(pending, broadcasts);
    }

    method ResolveStuck(stuck: Stuck, fate: Fate)
      requires stuck.batch in batches && Positions(tickets, stuck.tickets) && Unique(stuck.tickets)
      modifies this
      ensures Contents() == ResolveOne(old(Contents()), stuck, fate)
      ensures StuckLeft(old(Contents()), Contents(), stuck, fate)
      ensures |tickets| == |old(tickets)| && batches.Keys == old(batches.Keys)
    {
      ResolveOneKnows(Contents(), stuck, fate);
      ResolveOneLeaves(Contents(), stuck, fate);
      var hash := batches[stuck.batch].txHash;
      if hash.None? {
        ReleaseChunk(stuck.batch, stuck.tickets);
      } else {
        var done := SettleChunk(stuck.batch, stuck.tickets, hash.value, fate);
      }
    }

    method ResolveInFlightBatches(stuck: seq<Stuck>, fates: seq<Fate>)
      requires |stuck| == |fates| && Known(Contents(), stuck)
      requires forall i :: 0 <= i < |stuck| ==> Positions(tickets, stuck[i].tickets) && Unique(stuck[i].tickets)
      modifies this
      ensures Contents() == ResolveFrom(old(Contents()), stuck, fates, 0)
      ensures Apart(stuck) ==> forall i :: 0 <= i < |stuck| ==> StuckLeft(old(Contents()), Contents(), stuck[i], fates[i])
      ensures OthersStay(old(Contents()), Contents(), stuck, 0)
    {
      ResolveFromStays(Contents(), stuck, fates, 0);
      if Apart(stuck) {
        forall i | 0 <= i < |stuck| ensures StuckLeft(Contents(), ResolveFrom(Contents(), stuck, fates, 0), stuck[i], fates[i]) {
          ResolveFromLeaves(Contents(), stuck, fates, 0, i);
        }
      }
      var i := 0;
      while i < |stuck|
        invariant i <= |stuck| && |tickets| == |old(tickets)| && Known(Contents(), stuck)
        invariant ResolveFrom(old(Contents()), stuck, fates, 0) == ResolveFrom(Contents(), stuck, fates, i)
      {
        ResolveStuck(stuck[i], fates[i]);
        i := i + 1;
      }
    }
  }
}
