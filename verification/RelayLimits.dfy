/**
 The fixed listing order is needed: if the database may list an order's pending tickets in
 another order on a retry, sixteen tickets and one broadcast that was reported as failed but
 reached the mempool are enough to buy a ticket twice.
 */
module RelayLimits {
  import opened Wrappers
  import opened ChunkOrderId
  import opened RelayRows
  import opened RelayProtocol
  import opened RelayInvariant
  import opened RelaySafety

  const N: nat := 16

  function Letters(): (ids: seq<string>)
    ensures |ids| == N
  {
    seq(N, i requires 0 <= i < N => [('a' as int + i) as char])
  }

  function Unbound(): seq<TicketRow> {
    seq(N, _ => TicketRow(None, None, None))
  }

  function FirstBound(): seq<TicketRow> {
    seq(N, p => TicketRow(None, None, if p < CHUNK then Some(0) else None))
  }

  function Stage(rows: Rows, pc: Pc, txs: seq<Tx>): State {
    State(Letters(), rows, if pc.Idle? then Relayable else Processing, [], pc, txs, map[], [])
  }

  lemma Start(s: State)
    requires Init(s)
    ensures Reachable(false, s)
  {
    assert EndsIn(false, [s], s);
  }

  lemma Then(s: State, s': State, step: Step)
    requires Reachable(false, s) && StepBy(false, s, s', step)
    ensures Reachable(false, s')
  {
    var states :| EndsIn(false, states, s);
    var more := states + [s'];
    assert Next(false, s, s');
    forall k | 0 <= k < |more| - 1 ensures StepsAt(false, more, k) {
      if k < |states| - 1 {
        assert StepsAt(false, states, k);
      }
    }
    assert EndsIn(false, more, s');
  }

  function FirstTx(): Tx {
    Tx(DeriveChunkOrderId(IdsOf(Letters(), Range(0, CHUNK))), Range(0, CHUNK), InMempool)
  }

  /** The tickets rotated by one. */
  function Rotated(): seq<int> {
    Range(1, N) + [0]
  }

  function SecondTx(): Tx {
    Tx(DeriveChunkOrderId(IdsOf(Letters(), Range(1, N))), Range(1, N), InMempool)
  }

  function None0(): Rows {
    Rows(Unbound(), map[], 0)
  }

  function Bound0(): Rows {
    Rows(FirstBound(), map[0 := Batch(Submitted, None)], 1)
  }

  function Free0(): Rows {
    Rows(Unbound(), map[0 := Batch(Failed, None)], 1)
  }

  lemma AllPending(rows: Rows)
    requires rows.tickets == Unbound()
    ensures PendingListed(rows.tickets, Range(0, N)) && PendingListed(rows.tickets, Rotated())
  {
    forall p ensures p in Range(0, N) <==> IsPending(Unbound(), p) {
      if 0 <= p < N {
        assert Range(0, N)[p] == p;
      }
    }
    forall p ensures p in Rotated() <==> IsPending(Unbound(), p) {
      if 0 < p < N {
        assert Rotated()[p - 1] == p;
      }
      if p == 0 {
        assert Rotated()[N - 1] == p;
      }
    }
  }

  lemma FirstListing()
    ensures Reachable(false, Stage(None0(), Looping(Range(0, N), 0), []))
  {
    var s0, s1 := Stage(None0(), Idle, []), Stage(None0(), Locked, []);
    var s2, s3 := Stage(None0(), Resolving([]), []), Stage(None0(), Looping(Range(0, N), 0), []);
    Start(s0);
    Then(s0, s1, Lock);
    Then(s1, s2, ReadStuck([]));
    AllPending(None0());
    Then(s2, s3, ReadPending(Range(0, N)));
  }

  /** The first attempt sends tickets 0 to 14, and is told the broadcast failed. */
  lemma FirstAttempt()
    ensures Reachable(false, Stage(Bound0(), Idle, [FirstTx()]))
  {
    FirstListing();
    FirstChunk();
    var all := Range(0, N);
    var one := Rows(Unbound(), map[0 := Batch(Submitted, None)], 1);
    var s0, s1 := Stage(None0(), Looping(all, 0), []), Stage(one, Created(all, 0, 0), []);
    var s2, s3 := Stage(Bound0(), Bound(all, 0, 0), []), Stage(Bound0(), Idle, [FirstTx()]);
    Then(s0, s1, CreateBatch);
    Then(s1, s2, BindTickets);
    Then(s2, s3, Broadcasting(true, false, Relayable));
  }

  lemma FirstChunk()
    ensures NextChunk(Range(0, N), 0) == Range(0, CHUNK)
    ensures WithBatch(Unbound(), Range(0, CHUNK), Some(0)) == FirstBound()
    ensures WithBatch(FirstBound(), Range(0, CHUNK), None) == Unbound()
  {
    forall p | 0 <= p < CHUNK ensures p in Range(0, CHUNK) {
      assert Range(0, CHUNK)[p] == p;
    }
  }

  /** The retry finds the first batch without a hash, and frees its tickets. */
  lemma Freed()
    ensures Reachable(false, Stage(Free0(), Resolving([]), [FirstTx()]))
  {
    FirstAttempt();
    var txs := [FirstTx()];
    var stuck := [Stuck(0, Range(0, CHUNK))];
    var s0, s1 := Stage(Bound0(), Idle, txs), Stage(Bound0(), Locked, txs);
    var s2, s3 := Stage(Bound0(), Resolving(stuck), txs), Stage(Free0(), Resolving([]), txs);
    Then(s0, s1, Lock);
    FirstStuck();
    Then(s1, s2, ReadStuck([0]));
    FreedStep(s2, s3);
    Then(s2, s3, Resolve(NoReceipt));
  }

  lemma FirstStuck()
    ensures StuckOf(Bound0(), [0]) == [Stuck(0, Range(0, CHUNK))]
  {
    ListingIs(N, (p: int) => BoundTo(FirstBound(), 0, p), 0, CHUNK);
  }

  lemma FreedStep(s: State, s': State)
    requires s == Stage(Bound0(), Resolving([Stuck(0, Range(0, CHUNK))]), [FirstTx()])
    requires s' == Stage(Free0(), Resolving([]), [FirstTx()])
    ensures StepBy(false, s, s', Resolve(NoReceipt))
  {
    FirstChunk();
    assert s'.rows == ResolveOne(s.rows, s.pc.stuck[0], NoReceipt);
  }

  /** The retry lists the tickets in another order. */
  lemma SecondAttempt()
    ensures Reachable(false, Stage(Free0(), Looping(Rotated(), 0), [FirstTx()]))
  {
    Freed();
    AllPending(Free0());
    Then(Stage(Free0(), Resolving([]), [FirstTx()]), Stage(Free0(), Looping(Rotated(), 0), [FirstTx()]), ReadPending(Rotated()));
  }

  /** It sends tickets 1 to 15. */
  lemma BothSent() returns (s: State)
    ensures Reachable(false, s) && s.txs == [FirstTx(), SecondTx()] && s.fulfilled == map[] && s.minted == []
  {
    SecondAttempt();
    var s0 := Stage(Free0(), Looping(Rotated(), 0), [FirstTx()]);
    assert NextChunk(Rotated(), 0) == Range(1, N);
    var s1 := s0.(rows := NewBatch(s0.rows), pc := Created(Rotated(), 0, 1));
    Then(s0, s1, CreateBatch);
    var s2 := s1.(rows := BindChunk(s1.rows, 1, Range(1, N)), pc := Bound(Rotated(), 0, 1));
    Then(s1, s2, BindTickets);
    s := s2.(txs := [FirstTx(), SecondTx()], pc := Sent(Rotated(), 0, 1, 1));
    assert s.txs == s2.txs + [SecondTx()];
    Then(s2, s, Broadcasting(true, true, Relayable));
  }

  lemma IdsDiffer()
    ensures FirstTx().orderId != SecondTx().orderId
  {
    var a, b := IdsOf(Letters(), Range(0, CHUNK)), IdsOf(Letters(), Range(1, N));
    SameIdIffSameTickets(a, b);
    assert a[0] in multiset(a);
    assert a[0] !in b;
  }

  /** Ticket 1 is bought twice. */
  lemma OtherListingOrderBuysTwice()
    ensures exists s :: Reachable(false, s) && !BoughtAtMostOnce(s)
  {
    var s0 := BothSent();
    IdsDiffer();
    var s1 := s0.(
      txs := s0.txs[0 := FirstTx().(outcome := LandedFrom(0))],
      fulfilled := map[FirstTx().orderId := 0],
      minted := Range(0, CHUNK));
    assert s1.minted == s0.minted + Range(0, CHUNK);
    Then(s0, s1, Mine(0, true));
    var s2 := s1.(
      txs := s1.txs[1 := SecondTx().(outcome := LandedFrom(CHUNK))],
      fulfilled := s1.fulfilled[SecondTx().orderId := 1],
      minted := s1.minted + Range(1, N));
    Then(s1, s2, Mine(1, true));
    assert s2.minted[1] == 1 && s2.minted[CHUNK] == 1;
  }
}
