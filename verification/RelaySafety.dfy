/** Every step of a relay keeps its tickets chunk-aligned; what follows over whole runs. */
module RelaySafety {
  import opened Wrappers
  import opened RelayRows
  import opened RelayProtocol
  import opened RelayInvariant

  // ---------------------------------------------------------------------------------
  // Settling a chunk
  // ---------------------------------------------------------------------------------

  lemma PlaceInRange(lo: int, hi: int, p: int)
    requires lo <= hi
    ensures PlaceOf(Range(lo, hi), p) == if lo <= p < hi then p - lo else hi - lo
  {
    if lo <= p < hi {
      assert Range(lo, hi)[p - lo] == p;
    }
  }

  lemma FinalizeKeeps(s: State, m: nat, b: BatchId, tx: TxHash, first: int)
    requires RowsOk(s, m, Some(b))
    requires var chunk := Range(m, Hi(|s.ids|, m)); MintsChunk(s, first, chunk)
    ensures var chunk := Range(m, Hi(|s.ids|, m));
      RowsOk(s.(rows := Finalize(s.rows, b, chunk, tx, seq(|chunk|, i => first + i))), Hi(|s.ids|, m), None)
  {
    var hi := Hi(|s.ids|, m);
    var chunk := Range(m, hi);
    var s' := s.(rows := Finalize(s.rows, b, chunk, tx, seq(|chunk|, i => first + i)));
    forall p | 0 <= p < |s.rows.tickets| ensures TicketOk(s', hi, None, p) {
      assert TicketOk(s, m, Some(b), p);
      PlaceInRange(m, hi, p);
    }
    forall c | c in s'.rows.batches ensures BatchOk(s', hi, None, c) {
      assert BatchOk(s, m, Some(b), c);
    }
  }

  lemma ReleaseKeeps(s: State, m: nat, open: Option<BatchId>, b: BatchId)
    requires RowsOk(s, m, open) && b in s.rows.batches && s.rows.batches[b].status == Submitted
    ensures var chunk := if open == Some(b) then Range(m, Hi(|s.ids|, m)) else [];
      RowsOk(s.(rows := Release(s.rows, b, chunk)), m, if open == Some(b) then None else open)
  {
    var chunk := if open == Some(b) then Range(m, Hi(|s.ids|, m)) else [];
    var after := if open == Some(b) then None else open;
    var s' := s.(rows := Release(s.rows, b, chunk));
    forall p | 0 <= p < |s.rows.tickets| ensures TicketOk(s', m, after, p) {
      assert TicketOk(s, m, open, p);
      if open == Some(b) && m <= p < Hi(|s.ids|, m) {
        assert chunk[p - m] == p;
      }
    }
    forall c | c in s'.rows.batches ensures BatchOk(s', m, after, c) {
      assert BatchOk(s, m, open, c);
    }
  }

  /** An earlier fulfillment found for a chunk is one of exactly that chunk. */
  lemma EarlierIsSameChunk(s: State, m: nat, earlier: TxHash)
    requires WellIdentified(s.ids) && TxsOk(s, m) && IsStart(|s.ids|, m)
    requires KeyOf(s.ids, m) in s.fulfilled && s.fulfilled[KeyOf(s.ids, m)] == earlier
    ensures Buys(s, earlier, m) && s.txs[earlier].outcome.LandedFrom?
    ensures MintsChunk(s, s.txs[earlier].outcome.first, Range(m, Hi(|s.ids|, m)))
  {
    assert TxOk(s, earlier, m);
    var lo := s.txs[earlier].tickets[0];
    if lo != m {
      KeysDiffer(s.ids, lo, m);
    }
  }

  lemma LandedMints(s: State, m: nat, x: TxHash)
    requires TxsOk(s, m) && Buys(s, x, m) && s.txs[x].outcome.LandedFrom?
    ensures MintsChunk(s, s.txs[x].outcome.first, Range(m, Hi(|s.ids|, m)))
  {
    assert TxOk(s, x, m);
  }

  /** However the wait for a chunk's transaction ends, the chunk is either done or free again. */
  lemma SettleKeeps(s: State, m: nat, b: BatchId, x: TxHash, chunk: seq<int>, fate: Fate)
    requires WellIdentified(s.ids) && RowsOk(s, m, Some(b)) && TxsOk(s, m) && Buys(s, x, m)
    requires chunk == Range(m, Hi(|s.ids|, m)) && Positions(s.rows.tickets, chunk) && CanLearn(s, x, chunk, fate)
    ensures var (rows, done) := Settle(s.rows, b, chunk, x, fate);
      RowsOk(s.(rows := rows), if done then Hi(|s.ids|, m) else m, None)
  {
    match fate
    case NoReceipt => ReleaseKeeps(s, m, Some(b), b);
    case Reverted(None) => ReleaseKeeps(s, m, Some(b), b);
    case Landed(ids) =>
      LandedMints(s, m, x);
      FinalizeKeeps(s, m, b, x, s.txs[x].outcome.first);
    case Reverted(Some((earlier, ids))) =>
      RangeIds(s.ids, m, Hi(|s.ids|, m));
      EarlierIsSameChunk(s, m, earlier);
      FinalizeKeeps(s, m, b, earlier, s.txs[earlier].outcome.first);
  }

  /** Only the settled batch changes its status. */
  lemma SettleSubmitted(rows: Rows, b: BatchId, chunk: seq<int>, x: TxHash, fate: Fate)
    requires b in rows.batches
    ensures var after := Settle(rows, b, chunk, x, fate).0;
      && after.nextBatch == rows.nextBatch && after.batches.Keys == rows.batches.Keys
      && (forall c :: IsSubmitted(after, c) <==> IsSubmitted(rows, c) && c != b)
  {
  }

  // ---------------------------------------------------------------------------------
  // Steps
  // ---------------------------------------------------------------------------------

  lemma {:induction false} ListingIs(n: nat, test: int -> bool, lo: int, hi: int)
    requires 0 <= lo <= hi <= n
    requires forall p :: 0 <= p < n ==> (test(p) <==> lo <= p < hi)
    ensures Listing(n, test) == Range(lo, hi)
  {
    if n > 0 {
      if hi == n && lo < hi {
        ListingIs(n - 1, test, lo, hi - 1);
        assert Range(lo, hi) == Range(lo, hi - 1) + [n - 1];
      } else if hi == n {
        ListingIs(n - 1, test, 0, 0);
      } else {
        ListingIs(n - 1, test, lo, hi);
      }
    }
  }

  lemma BoundListing(s: State, m: nat, open: Option<BatchId>, b: BatchId)
    requires RowsOk(s, m, open) && IsSubmitted(s.rows, b)
    ensures Listing(|s.rows.tickets|, (p: int) => BoundTo(s.rows.tickets, b, p))
            == if open == Some(b) then Range(m, Hi(|s.ids|, m)) else []
  {
    var n := |s.rows.tickets|;
    forall p | 0 <= p < n
      ensures BoundTo(s.rows.tickets, b, p) <==> open == Some(b) && m <= p < Hi(n, m)
    {
      assert TicketOk(s, m, open, p);
    }
    if open == Some(b) {
      ListingIs(n, (p: int) => BoundTo(s.rows.tickets, b, p), m, Hi(n, m));
    } else {
      ListingIs(n, (p: int) => BoundTo(s.rows.tickets, b, p), 0, 0);
    }
  }

  lemma ReadStuckKeeps(fixedOrder: bool, s: State, s': State, m: nat, open: Option<BatchId>, order: seq<BatchId>)
    requires Inv(s, m, open) && StepBy(fixedOrder, s, s', ReadStuck(order))
    ensures Inv(s', m, open)
  {
    SameRows(s, s', m, open);
    var stuck := s'.pc.stuck;
    forall i | 0 <= i < |stuck|
      ensures IsSubmitted(s.rows, stuck[i].batch)
      ensures stuck[i].tickets == if open == Some(stuck[i].batch) then Range(m, Hi(|s.ids|, m)) else []
    {
      assert order[i] in order;
      BoundListing(s, m, open, order[i]);
    }
    forall b | IsSubmitted(s.rows, b) ensures exists i :: 0 <= i < |stuck| && stuck[i].batch == b {
      var i :| 0 <= i < |order| && order[i] == b;
      assert stuck[i].batch == b;
    }
  }

  /** Rows, transactions and mints are all the row facts depend on. */
  lemma SameRows(s: State, s': State, m: nat, open: Option<BatchId>)
    requires RowsOk(s, m, open) && TxsOk(s, m) && MintsOk(s)
    requires s'.ids == s.ids && s'.rows == s.rows && s'.txs == s.txs && s'.fulfilled == s.fulfilled && s'.minted == s.minted
    ensures RowsOk(s', m, open) && TxsOk(s', m) && MintsOk(s')
  {
    forall p | 0 <= p < |s.rows.tickets| ensures TicketOk(s', m, open, p) {
      assert TicketOk(s, m, open, p);
    }
    forall b | b in s.rows.batches ensures BatchOk(s', m, open, b) {
      assert BatchOk(s, m, open, b);
    }
    SameChain(s, s', m, m);
  }

  lemma SameChain(s: State, s': State, m: nat, m': nat)
    requires TxsOk(s, m) && MintsOk(s) && m <= m'
    requires s'.ids == s.ids && s'.txs == s.txs && s'.fulfilled == s.fulfilled && s'.minted == s.minted
    ensures TxsOk(s', m') && MintsOk(s')
  {
    forall x | 0 <= x < |s.txs| ensures TxOk(s', x, m') {
      assert TxOk(s, x, m);
    }
    forall k | 0 <= k < |s.minted| ensures MintOk(s', k) {
      assert MintOk(s, k);
    }
  }

  lemma ResolveKeeps(fixedOrder: bool, s: State, s': State, m: nat, open: Option<BatchId>, fate: Fate)
    returns (m': nat, open': Option<BatchId>)
    requires Inv(s, m, open) && StepBy(fixedOrder, s, s', Resolve(fate))
    ensures m <= m' && Inv(s', m', open')
  {
    var head := s.pc.stuck[0];
    var hash := s.rows.batches[head.batch].txHash;
    assert BatchOk(s, m, open, head.batch);
    m', open' := m, if open == Some(head.batch) then None else open;
    if hash.None? {
      ReleaseKeeps(s, m, open, head.batch);
    } else {
      SettleKeeps(s, m, head.batch, hash.value, head.tickets, fate);
      SettleSubmitted(s.rows, head.batch, head.tickets, hash.value, fate);
      if Settle(s.rows, head.batch, head.tickets, hash.value, fate).1 {
        m' := Hi(|s.ids|, m);
      }
    }
    var s1 := s.(rows := s'.rows);
    SameChain(s, s1, m, m');
    SameRows(s1, s', m', open');
    RestStuck(s, s', m, m', open, open');
  }

  lemma RestStuck(s: State, s': State, m: nat, m': nat, open: Option<BatchId>, open': Option<BatchId>)
    requires m <= |s.ids| && m' <= |s.ids| && s'.ids == s.ids && s.pc.Resolving? && |s.pc.stuck| > 0 && StuckOk(s, m, open, s.pc.stuck)
    requires s'.pc == Resolving(s.pc.stuck[1..])
    requires s'.rows.batches.Keys == s.rows.batches.Keys
    requires forall c :: IsSubmitted(s'.rows, c) <==> IsSubmitted(s.rows, c) && c != s.pc.stuck[0].batch
    requires open' == if open == Some(s.pc.stuck[0].batch) then None else open
    requires open'.Some? ==> m' == m
    ensures StuckOk(s', m', open', s'.pc.stuck)
  {
  }

  lemma PendingIsSuffix(s: State, m: nat)
    requires RowsOk(s, m, None)
    ensures PendingOf(s.rows.tickets) == Range(m, |s.ids|)
  {
    forall p | 0 <= p < |s.rows.tickets| ensures IsPending(s.rows.tickets, p) <==> m <= p < |s.ids| {
      assert TicketOk(s, m, None, p);
    }
    ListingIs(|s.rows.tickets|, (p: int) => IsPending(s.rows.tickets, p), m, |s.ids|);
  }

  lemma ReadPendingKeeps(s: State, s': State, m: nat, open: Option<BatchId>, listing: seq<int>)
    requires Inv(s, m, open) && StepBy(true, s, s', ReadPending(listing))
    ensures open == None && listing == Range(m, |s.ids|) && Inv(s', m, open)
  {
    PendingIsSuffix(s, m);
    SameRows(s, s', m, open);
  }

  lemma CreateKeeps(fixedOrder: bool, s: State, s': State, m: nat, open: Option<BatchId>)
    requires Inv(s, m, open) && StepBy(fixedOrder, s, s', CreateBatch)
    ensures Inv(s', m, open)
  {
    SameChain(s, s', m, m);
    forall p | 0 <= p < |s.rows.tickets| ensures TicketOk(s', m, open, p) {
      assert TicketOk(s, m, open, p);
      assert s.rows.nextBatch in s.rows.batches ==> BatchOk(s, m, open, s.rows.nextBatch);
    }
    forall b | b in s'.rows.batches ensures BatchOk(s', m, open, b) {
      if b in s.rows.batches {
        assert BatchOk(s, m, open, b);
      }
    }
  }

  /** The chunk about to be sent is the one that starts where the unfinished suffix does. */
  lemma NextIsChunk(s: State, m: nat, pending: seq<int>, next: nat)
    requires m < |s.ids| && next < |pending| && Remaining(s, m, pending, next)
    ensures NextChunk(pending, next) == Range(m, Hi(|s.ids|, m))
  {
  }

  lemma BindKeeps(fixedOrder: bool, s: State, s': State, m: nat, open: Option<BatchId>)
    returns (open': Option<BatchId>)
    requires Inv(s, m, open) && StepBy(fixedOrder, s, s', BindTickets)
    ensures Inv(s', m, open')
  {
    open' := Some(s.pc.batch);
    var chunk := Range(m, Hi(|s.ids|, m));
    NextIsChunk(s, m, s.pc.pending, s.pc.next);
    SameChain(s, s', m, m);
    forall p | 0 <= p < |s.rows.tickets| ensures TicketOk(s', m, open', p) {
      assert TicketOk(s, m, open, p);
      if m <= p < Hi(|s.ids|, m) {
        assert chunk[p - m] == p;
      }
    }
    forall b | b in s'.rows.batches ensures BatchOk(s', m, open', b) {
      assert BatchOk(s, m, open, b);
    }
  }

  lemma TxsGrow(s: State, s': State, m: nat, open: Option<BatchId>, tx: Tx)
    requires RowsOk(s, m, open) && TxsOk(s, m) && MintsOk(s) && IsStart(|s.ids|, m)
    requires tx == Tx(KeyOf(s.ids, m), Range(m, Hi(|s.ids|, m)), InMempool)
    requires s'.txs == s.txs + [tx] && s'.ids == s.ids && s'.rows == s.rows && s'.fulfilled == s.fulfilled && s'.minted == s.minted
    ensures RowsOk(s', m, open) && TxsOk(s', m) && MintsOk(s') && Buys(s', |s.txs|, m)
  {
    forall x | 0 <= x < |s'.txs| ensures TxOk(s', x, m) {
      if x < |s.txs| {
        assert TxOk(s, x, m);
      }
    }
    forall k | 0 <= k < |s.minted| ensures MintOk(s', k) {
      assert MintOk(s, k);
    }
    forall p | 0 <= p < |s.rows.tickets| ensures TicketOk(s', m, open, p) {
      assert TicketOk(s, m, open, p);
    }
    forall b | b in s.rows.batches ensures BatchOk(s', m, open, b) {
      assert BatchOk(s, m, open, b);
    }
  }

  lemma BroadcastKeeps(fixedOrder: bool, s: State, s': State, m: nat, open: Option<BatchId>, reached: bool, accepted: bool, status: OrderStatus)
    requires Inv(s, m, open) && StepBy(fixedOrder, s, s', Broadcasting(reached, accepted, status))
    ensures Inv(s', m, open)
  {
    NextIsChunk(s, m, s.pc.pending, s.pc.next);
    RangeIds(s.ids, m, Hi(|s.ids|, m));
    if reached {
      TxsGrow(s, s', m, open, s'.txs[|s.txs|]);
    } else {
      SameRows(s, s', m, open);
    }
  }

  lemma RecordHashKeeps(fixedOrder: bool, s: State, s': State, m: nat, open: Option<BatchId>)
    requires Inv(s, m, open) && StepBy(fixedOrder, s, s', RecordHash)
    ensures Inv(s', m, open)
  {
    SameChain(s, s', m, m);
    forall p | 0 <= p < |s.rows.tickets| ensures TicketOk(s', m, open, p) {
      assert TicketOk(s, m, open, p);
    }
    forall b | b in s'.rows.batches ensures BatchOk(s', m, open, b) {
      assert BatchOk(s, m, open, b);
    }
  }

  lemma AwaitKeeps(fixedOrder: bool, s: State, s': State, m: nat, open: Option<BatchId>, fate: Fate, status: OrderStatus)
    returns (m': nat)
    requires Inv(s, m, open) && StepBy(fixedOrder, s, s', Await(fate, status))
    ensures m <= m' && Inv(s', m', None)
  {
    var chunk := NextChunk(s.pc.pending, s.pc.next);
    var done := Settle(s.rows, s.pc.batch, chunk, s.pc.tx, fate).1;
    m' := if done then Hi(|s.ids|, m) else m;
    NextIsChunk(s, m, s.pc.pending, s.pc.next);
    SettleKeeps(s, m, s.pc.batch, s.pc.tx, chunk, fate);
    SettleSubmitted(s.rows, s.pc.batch, chunk, s.pc.tx, fate);
    var s1 := s.(rows := s'.rows);
    SameChain(s, s1, m, m');
    SameRows(s1, s', m', None);
    if done {
      RemainingShrinks(s, s', m, s.pc.pending, s.pc.next);
    }
  }

  lemma RemainingShrinks(s: State, s': State, m: nat, pending: seq<int>, next: nat)
    requires m < |s.ids| && next < |pending| && Remaining(s, m, pending, next) && s'.ids == s.ids
    ensures Remaining(s', Hi(|s.ids|, m), pending, next + CHUNK)
  {
  }

  // ---------------------------------------------------------------------------------
  // The chain
  // ---------------------------------------------------------------------------------

  lemma LandKeeps(s: State, s': State, m: nat, x: TxHash)
    requires WellIdentified(s.ids) && TxsOk(s, m) && MintsOk(s)
    requires 0 <= x < |s.txs| && s.txs[x].outcome == InMempool && s.txs[x].orderId !in s.fulfilled
    requires s' == s.(txs := s.txs[x := s.txs[x].(outcome := LandedFrom(|s.minted|))],
                      fulfilled := s.fulfilled[s.txs[x].orderId := x], minted := s.minted + s.txs[x].tickets)
    ensures TxsOk(s', m) && MintsOk(s')
  {
    assert TxOk(s, x, m);
    forall y | 0 <= y < |s'.txs| ensures TxOk(s', y, m) {
      assert TxOk(s, y, m);
    }
    var lo := s.txs[x].tickets[0];
    forall k | 0 <= k < |s'.minted| ensures MintOk(s', k) {
      if k < |s.minted| {
        assert MintOk(s, k);
      } else {
        LandedMintOk(s, s', lo, x, k);
      }
    }
  }

  lemma LandedMintOk(s: State, s': State, lo: int, x: TxHash, k: int)
    requires Buys(s, x, lo) && |s.minted| <= k < |s.minted| + |s.txs[x].tickets|
    requires s'.ids == s.ids && s'.minted == s.minted + s.txs[x].tickets && s'.txs == s.txs[x := s.txs[x].(outcome := LandedFrom(|s.minted|))]
    requires s'.fulfilled == s.fulfilled[s.txs[x].orderId := x]
    ensures MintOk(s', k)
  {
  }

  lemma MoreMinted(s: State, s': State, m: nat, open: Option<BatchId>)
    requires RowsOk(s, m, open) && s'.ids == s.ids && s'.rows == s.rows && s.minted <= s'.minted
    requires |s'.txs| == |s.txs|
    requires forall x :: 0 <= x < |s.txs| ==> s'.txs[x].tickets == s.txs[x].tickets && s'.txs[x].orderId == s.txs[x].orderId
    ensures RowsOk(s', m, open)
  {
    forall p | 0 <= p < |s.rows.tickets| ensures TicketOk(s', m, open, p) {
      assert TicketOk(s, m, open, p);
    }
    forall b | b in s.rows.batches ensures BatchOk(s', m, open, b) {
      assert BatchOk(s, m, open, b);
    }
  }

  lemma MineKeeps(fixedOrder: bool, s: State, s': State, m: nat, open: Option<BatchId>, x: TxHash, succeeds: bool)
    requires Inv(s, m, open) && StepBy(fixedOrder, s, s', Mine(x, succeeds))
    ensures Inv(s', m, open)
  {
    MoreMinted(s, s', m, open);
    if succeeds && s.txs[x].orderId !in s.fulfilled {
      LandKeeps(s, s', m, x);
    } else {
      RevertKeeps(s, s', m, x);
    }
  }

  lemma RevertKeeps(s: State, s': State, m: nat, x: TxHash)
    requires TxsOk(s, m) && MintsOk(s) && 0 <= x < |s.txs| && s.txs[x].outcome == InMempool
    requires s' == s.(txs := s.txs[x := s.txs[x].(outcome := RevertedOnChain)])
    ensures TxsOk(s', m) && MintsOk(s')
  {
    forall y | 0 <= y < |s'.txs| ensures TxOk(s', y, m) {
      assert TxOk(s, y, m);
    }
    forall k | 0 <= k < |s.minted| ensures MintOk(s', k) {
      assert MintOk(s, k);
    }
  }

  lemma MintElsewhereKeeps(fixedOrder: bool, s: State, s': State, m: nat, open: Option<BatchId>, count: nat)
    requires Inv(s, m, open) && StepBy(fixedOrder, s, s', MintElsewhere(count))
    ensures Inv(s', m, open)
  {
    MoreMinted(s, s', m, open);
    forall x | 0 <= x < |s.txs| ensures TxOk(s', x, m) {
      assert TxOk(s, x, m);
    }
    forall k | 0 <= k < |s'.minted| ensures MintOk(s', k) {
      if k < |s.minted| {
        assert MintOk(s, k);
      }
    }
  }

  lemma StepKeeps(s: State, s': State, step: Step, m: nat, open: Option<BatchId>) returns (m': nat, open': Option<BatchId>)
    requires Inv(s, m, open) && StepBy(true, s, s', step)
    ensures m <= m' && Inv(s', m', open')
  {
    m', open' := m, open;
    match step
    case ReadStuck(order) => ReadStuckKeeps(true, s, s', m, open, order);
    case Resolve(fate) => m', open' := ResolveKeeps(true, s, s', m, open, fate);
    case ReadPending(listing) => ReadPendingKeeps(s, s', m, open, listing);
    case CreateBatch => CreateKeeps(true, s, s', m, open);
    case BindTickets => open' := BindKeeps(true, s, s', m, open);
    case Broadcasting(reached, accepted, status) => BroadcastKeeps(true, s, s', m, open, reached, accepted, status);
    case RecordHash => RecordHashKeeps(true, s, s', m, open);
    case Await(fate, status) => m' := AwaitKeeps(true, s, s', m, open, fate, status); open' := None;
    case Mine(x, succeeds) => MineKeeps(true, s, s', m, open, x, succeeds);
    case MintElsewhere(count) => MintElsewhereKeeps(true, s, s', m, open, count);
    case _ => SameRows(s, s', m, open);
  }

  // ---------------------------------------------------------------------------------
  // Runs
  // ---------------------------------------------------------------------------------

  lemma InitKeeps(s: State)
    requires Init(s)
    ensures Inv(s, 0, None)
  {
  }

  lemma {:induction false} RunKeeps(states: seq<State>, k: nat) returns (m: nat, open: Option<BatchId>)
    requires Run(true, states) && k < |states|
    ensures Inv(states[k], m, open)
  {
    if k == 0 {
      InitKeeps(states[0]);
      m, open := 0, None;
    } else {
      var m0, open0 := RunKeeps(states, k - 1);
      assert StepsAt(true, states, k - 1);
      var step :| StepBy(true, states[k - 1], states[k], step);
      m, open := StepKeeps(states[k - 1], states[k], step, m0, open0);
    }
  }

  lemma ReachableKeeps(s: State) returns (m: nat, open: Option<BatchId>)
    requires Reachable(true, s)
    ensures Inv(s, m, open)
  {
    var states :| EndsIn(true, states, s);
    m, open := RunKeeps(states, |states| - 1);
  }

  /** Whatever crashes, times out or lands late: each ticket is bought at most once. */
  lemma NeverBoughtTwice(s: State)
    requires Reachable(true, s)
    ensures BoughtAtMostOnce(s)
  {
    var m, open := ReachableKeeps(s);
    forall i, j | 0 <= i < j < |s.minted| && s.minted[i] >= 0 ensures s.minted[i] != s.minted[j] {
      assert MintOk(s, i) && MintOk(s, j);
    }
  }

  /** After in-flight resolution the tickets left to buy are a suffix that starts at a chunk boundary. */
  lemma PendingIsChunkAligned(s: State, s': State, listing: seq<int>)
    requires Reachable(true, s) && StepBy(true, s, s', ReadPending(listing))
    ensures |listing| <= |s.ids| && listing == Range(|s.ids| - |listing|, |s.ids|)
    ensures listing == [] || listing[0] % CHUNK == 0
    ensures forall p :: 0 <= p < |s.rows.tickets| ==> (s.rows.tickets[p].nft.Some? <==> p !in listing)
  {
    var m, open := ReachableKeeps(s);
    ReadPendingKeeps(s, s', m, open, listing);
    forall p | 0 <= p < |s.rows.tickets| ensures s.rows.tickets[p].nft.Some? <==> p !in listing {
      assert TicketOk(s, m, open, p);
      if p >= m {
        assert listing[p - m] == p;
      }
    }
  }

  /** A retry re-derives the old ids: two transactions that share a ticket buy the same chunk under the same id. */
  lemma SharedTicketSameId(s: State, x: TxHash, y: TxHash, p: int)
    requires Reachable(true, s) && 0 <= x < |s.txs| && 0 <= y < |s.txs|
    requires p in s.txs[x].tickets && p in s.txs[y].tickets
    ensures s.txs[x].tickets == s.txs[y].tickets && s.txs[x].orderId == s.txs[y].orderId
  {
    var m, open := ReachableKeeps(s);
    BuysItsChunk(s, x, m, p);
    BuysItsChunk(s, y, m, p);
  }

  /** Where a transaction's chunk starts is told by any of its tickets. */
  lemma BuysItsChunk(s: State, x: TxHash, m: nat, p: int)
    requires 0 <= x < |s.txs| && TxOk(s, x, m) && p in s.txs[x].tickets
    ensures p >= 0 && Buys(s, x, p - p % CHUNK)
  {
  }

  /** An NFT recorded for a ticket is one that was bought for that very ticket. */
  lemma RecordedNftIsTheTickets(s: State, p: nat)
    requires Reachable(true, s) && p < |s.rows.tickets| && s.rows.tickets[p].nft.Some?
    ensures var nft := s.rows.tickets[p].nft.value;
      0 <= nft < |s.minted| && s.minted[nft] == p
  {
    var m, open := ReachableKeeps(s);
    assert TicketOk(s, m, open, p);
  }

  lemma {:induction false} NftsOfAll(tickets: seq<TicketRow>)
    requires forall p :: 0 <= p < |tickets| ==> tickets[p].nft.Some?
    ensures |NftsOf(tickets)| == |tickets|
    ensures forall p :: 0 <= p < |tickets| ==> NftsOf(tickets)[p] == tickets[p].nft.value
  {
    if |tickets| > 0 {
      NftsOfAll(tickets[..|tickets| - 1]);
    }
  }

  /** A successful order has every ticket, each with its own NFT and none on an unresolved batch. */
  lemma SuccessIsComplete(s: State)
    requires Reachable(true, s) && s.order == Success
    ensures |s.megapotIds| == |s.rows.tickets| == |s.ids|
    ensures forall p :: 0 <= p < |s.rows.tickets| ==>
      && s.rows.tickets[p].nft == Some(s.megapotIds[p])
      && 0 <= s.megapotIds[p] < |s.minted| && s.minted[s.megapotIds[p]] == p
      && s.rows.tickets[p].batch.Some? && s.rows.tickets[p].batch.value in s.rows.batches
      && s.rows.batches[s.rows.tickets[p].batch.value].status == Confirmed
    ensures forall p, q :: 0 <= p < q < |s.megapotIds| ==> s.megapotIds[p] != s.megapotIds[q]
  {
    var m, open := ReachableKeeps(s);
    forall p | 0 <= p < |s.rows.tickets| ensures TicketOk(s, |s.ids|, None, p) && s.rows.tickets[p].nft.Some? {
      assert TicketOk(s, m, open, p);
    }
    NftsOfAll(s.rows.tickets);
  }
}
