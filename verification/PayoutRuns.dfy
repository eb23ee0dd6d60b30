/** Building blocks for runs of the voucher protocol in which payments go astray. */
module PayoutRuns {
  import opened Wrappers
  import opened LandedClaims
  import opened Sums
  import opened PayoutDb
  import opened PayoutConfirmer
  import opened PayoutProtocol
  import opened PayoutInvariants
  import opened PayoutEveryRun
  import opened PayoutExchange
  import opened PayoutSafety

  /** Some reachable state has nothing pending for a wallet and amount, yet a payment left over. */
  ghost predicate Strands(t: Timing) {
    exists s, wallet, amount :: Stranded(t, s, wallet, amount)
  }

  ghost predicate Stranded(t: Timing, s: State, wallet: Wallet, amount: nat) {
    Reachable(t, s) && NoneLive(s, wallet, amount) && !OneToOne(s, wallet, amount)
  }

  lemma Start(t: Timing, s: State)
    requires Init(s)
    ensures Reachable(t, s)
  {
    assert EndsIn(t, [s], s);
  }

  lemma Then(t: Timing, s: State, s': State, step: Step)
    requires Reachable(t, s) && StepBy(t, s, s', step) && Covered(s')
    ensures Reachable(t, s')
  {
    var states :| EndsIn(t, states, s);
    var more := states + [s'];
    assert Next(t, s, s');
    forall k | 0 <= k < |more| - 1 ensures StepsAt(t, more, k) {
      if k < |states| - 1 {
        assert StepsAt(t, states, k);
      }
    }
    assert CoveredRun(more);
    assert EndsIn(t, more, s');
  }

  const WALLET: Wallet := 7
  const PRIZE: nat := 5

  /** A payment no claim carries, with nothing left pending. */
  lemma LeftOver(t: Timing, s: State, i: nat)
    requires Reachable(t, s) && PaymentOf(s, i, WALLET, PRIZE)
    requires forall id :: id in s.db.claims ==> s.db.claims[id].status != Pending && s.db.claims[id].txSignature != Some(i)
    ensures Strands(t)
  {
    assert NoneLive(s, WALLET, PRIZE);
    assert !OneToOne(s, WALLET, PRIZE);
    assert Stranded(t, s, WALLET, PRIZE);
  }

  // ---------------------------------------------------------------------------------
  // Requests
  // ---------------------------------------------------------------------------------

  function Prize(epoch: int, status: WinStatus, claim: Option<ClaimId>): Ticket {
    Ticket(WALLET, epoch, status, PRIZE, claim)
  }

  function Fresh(at: int): Claim {
    Claim(WALLET, 0, Pending, None, None, at)
  }

  function Voucher(lastValidBlockHeight: nat, at: int): Claim {
    Claim(WALLET, PRIZE, Pending, None, Some(lastValidBlockHeight), at)
  }

  /** `n` tickets of as many epochs; the first `harvested` have won, the first `bound` have their claims. */
  function Tickets(n: nat, harvested: nat, bound: nat): (ts: seq<Ticket>)
    ensures |ts| == n
  {
    seq(n, i requires 0 <= i < n =>
      if i < bound then Prize(i, ClaimedOnBase, Some(i))
      else if i < harvested then Prize(i, ClaimedOnBase, None)
      else Ticket(WALLET, i, DrawPending, 0, None))
  }

  lemma {:induction false} AllHarvested(t: Timing, n: nat, k: nat)
    requires k <= n
    ensures Reachable(t, State(Db(Tickets(n, k, 0), map[]), {}, map[], [], map[], 0, 0, 0, Idle))
  {
    var s' := State(Db(Tickets(n, k, 0), map[]), {}, map[], [], map[], 0, 0, 0, Idle);
    if k == 0 {
      Start(t, s');
    } else {
      AllHarvested(t, n, k - 1);
      var s := State(Db(Tickets(n, k - 1, 0), map[]), {}, map[], [], map[], 0, 0, 0, Idle);
      var won := s.(db := s.db.(tickets := s.db.tickets[k - 1 := Prize(k - 1, WonUnclaimed, None)]));
      Then(t, s, won, Grade(k - 1, WonUnclaimed, PRIZE));
      assert s'.db.tickets == won.db.tickets[k - 1 := Prize(k - 1, ClaimedOnBase, None)];
      Then(t, won, s', Harvest(k - 1));
    }
  }

  /** A request creates its row and binds one ticket. */
  lemma BoundOne(t: Timing, s: State, n: nat, id: nat) returns (s': State)
    requires Reachable(t, s) && s.tick.Idle? && id < n && s.db.tickets == Tickets(n, n, id) && id !in s.ids
    ensures Reachable(t, s')
    ensures s' == s.(db := Db(Tickets(n, n, id + 1), s.db.claims[id := Fresh(s.now)]), ids := s.ids + {id}, routes := s.routes[id := Bound])
  {
    var s1 := s.(db := CreateClaim(s.db, id, WALLET, s.now), ids := s.ids + {id}, routes := s.routes[id := Created]);
    Then(t, s, s1, RouteCreate(id, WALLET));
    assert BindAll(s.db.tickets, id, WALLET, {id}) == Tickets(n, n, id + 1);
    s' := s1.(db := Db(Tickets(n, n, id + 1), s1.db.claims), routes := s1.routes[id := Bound]);
    Then(t, s1, s', RouteBind(id, {id}));
    assert s'.routes == s.routes[id := Bound];
  }

  /** Then it sums it up. */
  lemma Requested(t: Timing, s: State, n: nat, id: nat) returns (s': State)
    requires Reachable(t, s) && s.tick.Idle? && id < n && s.db.tickets == Tickets(n, n, id) && id !in s.ids
    ensures Reachable(t, s')
    ensures s' == s.(db := Db(Tickets(n, n, id + 1), s.db.claims[id := Fresh(s.now)]), ids := s.ids + {id}, routes := s.routes[id := Summed(PRIZE)])
  {
    var s2 := BoundOne(t, s, n, id);
    SumSingle(BoundAmount(id), s2.db.tickets, id);
    s' := s2.(routes := s2.routes[id := Summed(PRIZE)]);
    Then(t, s2, s', RouteSum(id));
    assert s'.routes == s.routes[id := Summed(PRIZE)];
  }

  /** The first `k` of `|at|` requests have come, at the given times, and know their amounts. */
  function Lobby(at: seq<nat>, k: nat): (s: State)
    requires k <= |at|
    ensures s.tick.Idle? && s.height == 0 && s.now == (if k == 0 then 0 else at[k - 1])
    ensures s.db.tickets == Tickets(|at|, |at|, k) && forall c :: c in s.ids ==> c < k
  {
    if k == 0 then State(Db(Tickets(|at|, |at|, 0), map[]), {}, map[], [], map[], 0, 0, 0, Idle)
    else
      var s := Lobby(at, k - 1);
      s.(db := Db(Tickets(|at|, |at|, k), s.db.claims[k - 1 := Fresh(at[k - 1])]), ids := s.ids + {k - 1},
         routes := s.routes[k - 1 := Summed(PRIZE)], now := at[k - 1])
  }

  lemma {:induction false} AllRequested(t: Timing, at: seq<nat>, k: nat)
    requires k <= |at| && forall i, j :: 0 <= i < j < |at| ==> at[i] <= at[j]
    ensures Reachable(t, Lobby(at, k))
  {
    if k == 0 {
      AllHarvested(t, |at|, |at|);
    } else {
      AllRequested(t, at, k - 1);
      var s := Later(t, Lobby(at, k - 1), 0, at[k - 1]);
      s := Requested(t, s, |at|, k - 1);
    }
  }

  // ---------------------------------------------------------------------------------
  // Vouchers and payments
  // ---------------------------------------------------------------------------------

  /** No sweep that was cut short is being acted on. */
  predicate Calm(s: State) {
    s.tick.Resolving? ==> s.tick.complete
  }

  lemma Later(t: Timing, s: State, height: nat, now: int) returns (s': State)
    requires Reachable(t, s) && Calm(s) && s.height <= height && s.now <= now
    ensures Reachable(t, s') && s' == s.(height := height, now := now)
  {
    s' := s.(height := height, now := now);
    Then(t, s, s', Advance(height, now));
  }

  lemma HandedOut(t: Timing, s: State, id: ClaimId, lastValidBlockHeight: nat) returns (s': State)
    requires Reachable(t, s) && Calm(s) && id in s.routes && s.routes[id] == Summed(PRIZE)
    requires id in s.db.claims && s.db.claims[id] == Fresh(s.db.claims[id].createdAt)
    requires s.now <= s.db.claims[id].createdAt + t.issue && InOrder(t, s, id, PRIZE, lastValidBlockHeight)
    ensures Reachable(t, s')
    ensures s' == s.(db := Db(s.db.tickets, s.db.claims[id := Voucher(lastValidBlockHeight, s.db.claims[id].createdAt)]),
                     routes := s.routes - {id})
  {
    s' := s.(db := Db(s.db.tickets, s.db.claims[id := Voucher(lastValidBlockHeight, s.db.claims[id].createdAt)]),
             routes := s.routes - {id});
    Then(t, s, s', RouteHandOut(id, lastValidBlockHeight));
  }

  const BLOCK_TIME: int := 200

  function Payment(i: nat, v: ClaimId, height: nat): Tx {
    Tx(SigInfo(i, i, Some(BLOCK_TIME), false), BLOCK_TIME, height, Some(v), WALLET, PRIZE)
  }

  /** Nothing but payments of the prize, each in a slot of its own. */
  ghost predicate Payments(chain: seq<Tx>) {
    && |chain| < PAGE * MAX_PAGES
    && (forall i :: 0 <= i < |chain| ==> chain[i].voucher.Some? && chain[i] == Payment(i, chain[i].voucher.value, chain[i].height))
    && (forall i, j :: 0 <= i < j < |chain| ==> chain[i].height <= chain[j].height)
  }

  lemma Paid(t: Timing, s: State, v: ClaimId) returns (s': State)
    requires Reachable(t, s) && Calm(s) && Payments(s.chain) && s.now <= BLOCK_TIME * 1000
    requires Issued(s, v) && s.db.claims[v].wallet == WALLET && s.db.claims[v].amountUsdc == PRIZE
    requires v !in s.landing && s.height <= s.db.claims[v].lastValidBlockHeight.value
    ensures Reachable(t, s')
    ensures s' == s.(chain := s.chain + [Payment(|s.chain|, v, s.height)], landing := s.landing[v := |s.chain|])
  {
    s' := s.(chain := s.chain + [Payment(|s.chain|, v, s.height)], landing := s.landing[v := |s.chain|]);
    Then(t, s, s', Land(v, Payment(|s.chain|, v, s.height).info, BLOCK_TIME));
  }

  // ---------------------------------------------------------------------------------
  // Ticks
  // ---------------------------------------------------------------------------------

  /** A complete sweep back to the oldest claim, created at time 0. */
  ghost predicate Lists(landed: seq<Landed>, chain: seq<Tx>, tip: nat) {
    Listed(chain, tip, landed, true, SweepBound(0))
  }

  lemma PaymentsInSequence(chain: seq<Tx>, height: nat)
    requires Payments(chain) && forall i :: 0 <= i < |chain| ==> chain[i].height <= height
    ensures ChainOk(chain, height)
  {
  }

  /** A claim hits the first payment that is not used. */
  lemma HitsFirst(landed: seq<Landed>, chain: seq<Tx>, tip: nat, c: Claim, used: set<Signature>, k: nat)
    requires Payments(chain) && Lists(landed, chain, tip) && k <= tip
    requires c.wallet == WALLET && c.amountUsdc == PRIZE && c.createdAt <= BLOCK_TIME * 1000
    requires (forall i :: 0 <= i < k ==> i in used) && (k < tip ==> k !in used)
    ensures Hit(landed, c, used) == if k < tip then Some(EntryOf(chain[k])) else None
  {
    var hit := Hit(landed, c, used);
    HitIsOldest(landed, c, used);
    if k < tip {
      assert EntryOf(chain[k]) in landed;
      assert Candidate(EntryOf(chain[k]), c, used);
      assert hit.value.slot <= k;
      assert hit.value == EntryOf(chain[hit.value.signature]);
    }
  }

  /** A row that is not a voucher yet hits nothing. */
  lemma HitsNothing(landed: seq<Landed>, chain: seq<Tx>, tip: nat, at: int, used: set<Signature>)
    requires Payments(chain) && Lists(landed, chain, tip)
    ensures Hit(landed, Fresh(at), used) == None
  {
    HitIsOldest(landed, Fresh(at), used);
  }

  lemma RowsRead(t: Timing, s: State, order: seq<ClaimId>) returns (s': State)
    requires Reachable(t, s) && s.tick.Idle? && PendingQuery(s.db, order) && |order| > 0
    ensures Reachable(t, s') && s' == s.(tick := Read(RowsOf(s.db, order), s.now))
  {
    s' := s.(tick := Read(RowsOf(s.db, order), s.now));
    Then(t, s, s', TickRead(order));
  }

  lemma ChainSwept(t: Timing, s: State, tip: nat, startHeight: nat) returns (s': State)
    requires Reachable(t, s) && Payments(s.chain) && s.tick.Read? && |s.tick.rows| > 0 && s.tick.rows[0].claim.createdAt == 0
    requires tip <= |s.chain| && (t.steadyView ==> s.seen <= tip) && startHeight <= s.height
    requires forall i :: tip <= i < |s.chain| ==> startHeight <= s.chain[i].height
    ensures Reachable(t, s') && s'.tick.Swept? && Lists(s'.tick.landed, s.chain, tip)
    ensures s' == s.(tick := Swept(s.tick.rows, s.tick.readAt, s'.tick.landed, true, tip, startHeight), seen := tip)
  {
    PaymentsInSequence(s.chain, if |s.chain| == 0 then 0 else s.chain[|s.chain| - 1].height);
    SweepLists(s.chain, if |s.chain| == 0 then 0 else s.chain[|s.chain| - 1].height, tip, SweepBound(0));
    var landed := SweepResult(s.chain, tip, SweepBound(0)).0;
    s' := s.(tick := Swept(s.tick.rows, s.tick.readAt, landed, true, tip, startHeight), seen := tip);
    Then(t, s, s', TickSweep(tip, startHeight));
  }

  lemma HeightRead(t: Timing, s: State, height: nat) returns (s': State)
    requires Reachable(t, s) && s.tick.Swept? && s.tick.complete && height <= s.height && height <= s.tick.startHeight + t.lag
    ensures Reachable(t, s')
    ensures s' == s.(tick := Resolving(s.tick.rows, s.tick.readAt, s.tick.landed, true, s.tick.tip, s.tick.startHeight,
                                       height, UsedSignatures(s.db), 0, map[]))
  {
    s' := s.(tick := Resolving(s.tick.rows, s.tick.readAt, s.tick.landed, true, s.tick.tip, s.tick.startHeight,
                               height, UsedSignatures(s.db), 0, map[]));
    Then(t, s, s', TickHeight(height));
  }

  /** The three reads of a tick with nothing in between. */
  lemma Ticked(t: Timing, s: State, order: seq<ClaimId>, tip: nat, height: nat) returns (s': State)
    requires Reachable(t, s) && Payments(s.chain) && s.tick.Idle? && PendingQuery(s.db, order) && |order| > 0
    requires s.db.claims[order[0]].createdAt == 0
    requires tip <= |s.chain| && (t.steadyView ==> s.seen <= tip) && height <= s.height
    requires forall i :: tip <= i < |s.chain| ==> height <= s.chain[i].height
    ensures Reachable(t, s') && s'.tick.Resolving? && Lists(s'.tick.landed, s.chain, tip)
    ensures s' == s.(tick := Resolving(RowsOf(s.db, order), s.now, s'.tick.landed, true, tip, height, height,
                                       UsedSignatures(s.db), 0, map[]), seen := tip)
  {
    s' := RowsRead(t, s, order);
    s' := ChainSwept(t, s', tip, height);
    s' := HeightRead(t, s', height);
  }

  lemma Judged(t: Timing, s: State, verdict: Verdict, lost: bool) returns (s': State)
    requires Reachable(t, s) && Calm(s) && Judging(s) && s.now <= s.tick.readAt + t.tickSpan && VerdictOf(s) == verdict
    ensures Reachable(t, s')
    ensures s' == s.(db := if lost then s.db else Carry(s.db, Row(s).id, verdict), tick := AfterVerdict(s.tick, verdict, lost))
  {
    s' := s.(db := if lost then s.db else Carry(s.db, Row(s).id, verdict), tick := AfterVerdict(s.tick, verdict, lost));
    Then(t, s, s', TickResolve(lost));
  }

  /** The tick acts on a complete sweep of these payments. */
  ghost predicate ActsOn(t: Timing, s: State, chain: seq<Tx>) {
    && Judging(s) && Row(s).id in s.db.claims && s.tick.complete && Payments(chain) && Lists(s.tick.landed, chain, s.tick.tip)
    && s.now <= s.tick.readAt + t.tickSpan
  }

  /** The row takes payment `k`, the first that is not used, whether or not this gets written. */
  lemma Settled(t: Timing, s: State, chain: seq<Tx>, k: nat, lost: bool) returns (s': State)
    requires Reachable(t, s) && ActsOn(t, s, chain) && k < s.tick.tip
    requires Stamped(Row(s).claim) && Row(s).claim == Voucher(Row(s).claim.lastValidBlockHeight.value, Row(s).claim.createdAt)
    requires Row(s).claim.createdAt <= BLOCK_TIME * 1000
    requires (forall i :: 0 <= i < k ==> i in s.tick.used) && k !in s.tick.used
    ensures Reachable(t, s')
    ensures s'.db.claims == if lost then s.db.claims
                            else s.db.claims[Row(s).id := s.db.claims[Row(s).id].(status := Confirmed, txSignature := Some(k))]
    ensures s' == s.(
      db := s'.db,
      tick := s.tick.(next := s.tick.next + 1, used := s.tick.used + {k},
                      reserved := if lost then s.tick.reserved[Row(s).id := k] else s.tick.reserved))
  {
    HitsFirst(s.tick.landed, chain, s.tick.tip, Row(s).claim, s.tick.used, k);
    s' := Judged(t, s, Confirm(k), lost);
  }

  /** All payments are used, and the voucher is long past its last block. */
  lemma RowExpired(t: Timing, s: State, chain: seq<Tx>) returns (s': State)
    requires Reachable(t, s) && ActsOn(t, s, chain)
    requires Stamped(Row(s).claim) && Row(s).claim == Voucher(Row(s).claim.lastValidBlockHeight.value, Row(s).claim.createdAt)
    requires Row(s).claim.createdAt <= BLOCK_TIME * 1000
    requires forall i :: 0 <= i < s.tick.tip ==> i in s.tick.used
    requires s.tick.height > Row(s).claim.lastValidBlockHeight.value + EXPIRY_BUFFER_BLOCKS
    ensures Reachable(t, s')
    ensures s'.db.claims == s.db.claims[Row(s).id := s.db.claims[Row(s).id].(status := Expired)]
    ensures s' == s.(db := s'.db, tick := s.tick.(next := s.tick.next + 1))
  {
    HitsFirst(s.tick.landed, chain, s.tick.tip, Row(s).claim, s.tick.used, s.tick.tip);
    s' := Judged(t, s, Expire, false);
  }

  /** The row was not a voucher when it was read. */
  lemma UnsignedJudged(t: Timing, s: State, chain: seq<Tx>) returns (s': State)
    requires Reachable(t, s) && ActsOn(t, s, chain) && Row(s).claim == Fresh(Row(s).claim.createdAt)
    ensures Reachable(t, s')
    ensures s'.db.claims == if s.now - Row(s).claim.createdAt <= UNSIGNED_GRACE_MS then s.db.claims
                            else s.db.claims[Row(s).id := s.db.claims[Row(s).id].(status := Expired)]
    ensures s' == s.(db := s'.db, tick := s.tick.(next := s.tick.next + 1))
  {
    HitsNothing(s.tick.landed, chain, s.tick.tip, Row(s).claim.createdAt, s.tick.used);
    s' := Judged(t, s, VerdictOf(s), false);
  }

  lemma Ended(t: Timing, s: State) returns (s': State)
    requires Reachable(t, s)
    ensures Reachable(t, s') && s' == s.(tick := Idle)
  {
    s' := s.(tick := Idle);
    Then(t, s, s', TickEnd);
  }
}
