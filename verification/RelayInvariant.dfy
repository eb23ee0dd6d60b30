/**
 Why no ticket is bought twice: at every moment the tickets without an NFT are a suffix that
 starts at a chunk boundary, so every transaction ever sent is one of the order's fixed chunks,
 under that chunk's one id, and the vault refuses an id it has seen.
 */
module RelayInvariant {
  import opened Wrappers
  import opened ChunkOrderId
  import opened RelayRows
  import opened RelayProtocol

  function Range(lo: int, hi: int): (r: seq<int>)
    requires lo <= hi
    ensures |r| == hi - lo
    ensures forall i :: 0 <= i < |r| ==> r[i] == lo + i
  {
    seq(hi - lo, i => lo + i)
  }

  function Hi(n: nat, lo: int): int {
    if lo + CHUNK <= n then lo + CHUNK else n
  }

  predicate IsStart(n: nat, lo: int) {
    0 <= lo < n && lo % CHUNK == 0
  }

  function StartOf(p: int): int {
    p - p % CHUNK
  }

  function KeyOf(ids: seq<string>, lo: int): string
    requires IsStart(|ids|, lo)
  {
    DeriveChunkOrderId(ids[lo..Hi(|ids|, lo)])
  }

  lemma ChunksApart(n: nat, a: int, b: int, j: nat)
    requires IsStart(n, a) && IsStart(n, b) && a != b && b + j < Hi(n, b)
    ensures a != b + j
  {
  }

  /** Different chunks have different vault order ids. */
  lemma KeysDiffer(ids: seq<string>, a: int, b: int)
    requires WellIdentified(ids) && IsStart(|ids|, a) && IsStart(|ids|, b) && a != b
    ensures KeyOf(ids, a) != KeyOf(ids, b)
  {
    var x, y := ids[a..Hi(|ids|, a)], ids[b..Hi(|ids|, b)];
    SameIdIffSameTickets(x, y);
    assert x[0] in multiset(x);
    forall j | 0 <= j < |y| ensures y[j] != ids[a] {
      ChunksApart(|ids|, a, b, j);
    }
    assert x[0] !in multiset(y);
  }

  lemma RangeIds(ids: seq<string>, lo: int, hi: int)
    requires 0 <= lo <= hi <= |ids|
    ensures IdsOf(ids, Range(lo, hi)) == ids[lo..hi]
  {
  }

  // ---------------------------------------------------------------------------------
  // The invariant
  // ---------------------------------------------------------------------------------

  /** Transaction `x` buys the chunk that starts at `lo`. */
  ghost predicate Buys(s: State, x: int, lo: int) {
    && 0 <= x < |s.txs| && IsStart(|s.ids|, lo)
    && s.txs[x].tickets == Range(lo, Hi(|s.ids|, lo)) && s.txs[x].orderId == KeyOf(s.ids, lo)
  }

  ghost predicate TxOk(s: State, x: int, m: nat)
    requires 0 <= x < |s.txs|
  {
    && |s.txs[x].tickets| > 0
    && s.txs[x].tickets[0] <= m && Buys(s, x, s.txs[x].tickets[0])
    && (s.txs[x].outcome.LandedFrom? ==>
          && s.txs[x].orderId in s.fulfilled && s.fulfilled[s.txs[x].orderId] == x
          && MintsChunk(s, s.txs[x].outcome.first, s.txs[x].tickets))
  }

  ghost predicate MintsChunk(s: State, first: int, chunk: seq<int>) {
    && 0 <= first <= first + |chunk| <= |s.minted|
    && forall i :: 0 <= i < |chunk| ==> s.minted[first + i] == chunk[i]
  }

  ghost predicate TxsOk(s: State, m: nat) {
    && (forall x :: 0 <= x < |s.txs| ==> TxOk(s, x, m))
    && (forall key :: key in s.fulfilled ==>
          && 0 <= s.fulfilled[key] < |s.txs|
          && s.txs[s.fulfilled[key]].orderId == key && s.txs[s.fulfilled[key]].outcome.LandedFrom?)
  }

  /** NFT `k`, if bought for this order, came from the one landed transaction of its ticket's chunk. */
  ghost predicate MintOk(s: State, k: int)
    requires 0 <= k < |s.minted|
  {
    var p := s.minted[k];
    p >= 0 ==>
      && p < |s.ids| && IsStart(|s.ids|, StartOf(p)) && KeyOf(s.ids, StartOf(p)) in s.fulfilled
      && (var x := s.fulfilled[KeyOf(s.ids, StartOf(p))];
          0 <= x < |s.txs| && s.txs[x].outcome.LandedFrom? && k == s.txs[x].outcome.first + (p - StartOf(p)))
  }

  ghost predicate MintsOk(s: State) {
    forall k :: 0 <= k < |s.minted| ==> MintOk(s, k)
  }

  /** Tickets below `m` are done; above, only the chunk at `m` may be bound, to the open batch. */
  ghost predicate TicketOk(s: State, m: nat, open: Option<BatchId>, p: int)
    requires 0 <= p < |s.rows.tickets|
  {
    var t := s.rows.tickets[p];
    if p < m then
      && t.nft.Some? && 0 <= t.nft.value < |s.minted| && s.minted[t.nft.value] == p
      && t.batch.Some? && t.batch.value in s.rows.batches && s.rows.batches[t.batch.value].status == Confirmed
    else
      && t.nft == None && t.batch == (if p < Hi(|s.ids|, m) then open else None)
  }

  ghost predicate RowsOk(s: State, m: nat, open: Option<BatchId>) {
    && |s.rows.tickets| == |s.ids| && m <= |s.ids| && (m % CHUNK == 0 || m == |s.ids|)
    && (forall p :: 0 <= p < |s.rows.tickets| ==> TicketOk(s, m, open, p))
    && (open.Some? ==> m < |s.ids| && IsSubmitted(s.rows, open.value))
    && (forall b :: b in s.rows.batches ==> BatchOk(s, m, open, b))
  }

  ghost predicate BatchOk(s: State, m: nat, open: Option<BatchId>, b: BatchId)
    requires b in s.rows.batches
  {
    && 0 <= b < s.rows.nextBatch
    && (s.rows.batches[b].status == Submitted && s.rows.batches[b].txHash.Some? ==>
          open == Some(b) && Buys(s, s.rows.batches[b].txHash.value, m))
  }

  /** What is left of the job's list is the unfinished suffix. */
  ghost predicate Remaining(s: State, m: nat, pending: seq<int>, next: nat)
    requires m <= |s.ids|
  {
    if next < |pending| then pending[next..] == Range(m, |s.ids|) else m == |s.ids|
  }

  ghost predicate NoneSubmitted(rows: Rows, but: Option<BatchId>) {
    forall b :: IsSubmitted(rows, b) ==> Some(b) == but
  }

  ghost predicate StuckOk(s: State, m: nat, open: Option<BatchId>, stuck: seq<Stuck>)
    requires m <= |s.ids|
  {
    && (forall i :: 0 <= i < |stuck| ==>
          && stuck[i].batch in s.rows.batches && IsSubmitted(s.rows, stuck[i].batch)
          && stuck[i].tickets == (if open == Some(stuck[i].batch) then Range(m, Hi(|s.ids|, m)) else []))
    && (forall i, j :: 0 <= i < j < |stuck| ==> stuck[i].batch != stuck[j].batch)
    && (forall b :: IsSubmitted(s.rows, b) ==> exists i :: 0 <= i < |stuck| && stuck[i].batch == b)
  }

  ghost predicate PcOk(s: State, m: nat, open: Option<BatchId>) {
    match s.pc
    case Idle => true
    case Locked => true
    case Resolving(stuck) => m <= |s.ids| && StuckOk(s, m, open, stuck)
    case Looping(pending, next) => m <= |s.ids| && open == None && NoneSubmitted(s.rows, None) && Remaining(s, m, pending, next)
    case Created(pending, next, b) =>
      && m < |s.ids| && open == None && NoneSubmitted(s.rows, Some(b)) && next < |pending| && Remaining(s, m, pending, next)
      && IsSubmitted(s.rows, b) && s.rows.batches[b].txHash == None
    case Bound(pending, next, b) =>
      && m < |s.ids| && open == Some(b) && NoneSubmitted(s.rows, open) && next < |pending| && Remaining(s, m, pending, next)
      && IsSubmitted(s.rows, b) && s.rows.batches[b].txHash == None
    case Sent(pending, next, b, x) =>
      && m < |s.ids| && open == Some(b) && NoneSubmitted(s.rows, open) && next < |pending| && Remaining(s, m, pending, next)
      && IsSubmitted(s.rows, b) && Buys(s, x, m)
    case Waiting(pending, next, b, x) =>
      && m < |s.ids| && open == Some(b) && NoneSubmitted(s.rows, open) && next < |pending| && Remaining(s, m, pending, next)
      && IsSubmitted(s.rows, b) && Buys(s, x, m) && s.rows.batches[b].txHash == Some(x)
  }

  ghost predicate OrderOk(s: State, m: nat, open: Option<BatchId>) {
    && (!s.pc.Idle? ==> s.order == Processing)
    && (s.order == Success ==> m == |s.ids| && open == None && s.megapotIds == NftsOf(s.rows.tickets))
  }

  ghost predicate Inv(s: State, m: nat, open: Option<BatchId>) {
    && WellIdentified(s.ids) && RowsOk(s, m, open) && TxsOk(s, m) && MintsOk(s) && PcOk(s, m, open) && OrderOk(s, m, open)
  }
}
