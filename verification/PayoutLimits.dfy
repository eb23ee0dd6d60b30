/**
 The timing promises are exactly what the constants need: under any weaker promise some run
 leaves a landed payment that no claim will ever account for.
 */
module PayoutLimits {
  import opened Wrappers
  import opened LandedClaims
  import opened PayoutDb
  import opened PayoutConfirmer
  import opened PayoutProtocol
  import opened PayoutSafety
  import opened PayoutRuns

  const LATE: nat := EXPIRY_BUFFER_BLOCKS + 1

  /** The constants are right for a deployment if and only if its promises fit them. */
  lemma TimingIsExact(t: Timing)
    ensures Fits(t) <==> !Strands(t)
  {
    if Fits(t) {
      forall s, wallet, amount ensures !Stranded(t, s, wallet, amount) {
        if Reachable(t, s) && NoneLive(s, wallet, amount) {
          NoPaymentStranded(t, s, wallet, amount);
        }
      }
    } else if t.issue + t.tickSpan > UNSIGNED_GRACE_MS {
      SlowIssuanceStrands(t);
    } else if !t.steadyView {
      StaleViewStrands(t);
    } else if t.issue == 0 {
      LateHeightStrands(t);
    } else {
      DisorderStrands(t);
    }
  }

  // ---------------------------------------------------------------------------------
  // A voucher handed out after the tick read its row
  // ---------------------------------------------------------------------------------

  /** The tick reads the row just before the voucher is handed out. */
  lemma SlowHandedOut(t: Timing, r: nat) returns (s: State)
    requires r <= t.issue
    ensures Reachable(t, s) && s.now == r && s.height == 0 && s.seen == 0 && s.chain == [] && s.landing == map[]
    ensures s.db.claims == map[0 := Voucher(0, 0)] && s.ids == {0} && s.tick == Read([PendingRow(0, Fresh(0))], r)
  {
    AllRequested(t, [0], 1);
    s := Later(t, Lobby([0], 1), 0, r);
    s := RowsRead(t, s, [0]);
    s := HandedOut(t, s, 0, 0);
  }

  /** It sweeps the chain, and reads the height. */
  lemma SlowSwept(t: Timing, r: nat) returns (s: State)
    requires r <= t.issue
    ensures Reachable(t, s) && s.now == r && s.height == 0 && s.chain == [] && s.landing == map[]
    ensures s.db.claims == map[0 := Voucher(0, 0)] && s.ids == {0}
    ensures s.tick.Resolving? && Lists(s.tick.landed, [], 0)
    ensures s.tick == Resolving([PendingRow(0, Fresh(0))], r, s.tick.landed, true, 0, 0, 0, UsedSignatures(s.db), 0, map[])
  {
    s := SlowHandedOut(t, r);
    s := ChainSwept(t, s, 0, 0);
    s := HeightRead(t, s, 0);
  }

  /** A claim that expired although its payment had landed; there never was another. */
  ghost predicate ExpiredPaid(s: State) {
    s.ids == {0} && s.chain == [Payment(0, 0, 0)] && s.db.claims == map[0 := Voucher(0, 0).(status := Expired)]
  }

  /** By the time the row is judged its grace has passed, and the voucher has been paid. */
  lemma SlowlyExpired(t: Timing) returns (s: State)
    requires !InGrace(t)
    ensures Reachable(t, s) && ExpiredPaid(s)
  {
    s := SlowSwept(t, Min(t.issue, UNSIGNED_GRACE_MS + 1));
    s := Paid(t, s, 0);
    s := Later(t, s, 0, UNSIGNED_GRACE_MS + 1);
    s := UnsignedJudged(t, s, []);
  }

  lemma SlowIssuanceStrands(t: Timing)
    requires t.issue + t.tickSpan > UNSIGNED_GRACE_MS
    ensures Strands(t)
  {
    var s := SlowlyExpired(t);
    LeftOver(t, s, 0);
  }

  // ---------------------------------------------------------------------------------
  // A height read too long after the sweep
  // ---------------------------------------------------------------------------------

  lemma PairHandedOut(t: Timing, m: nat) returns (s: State)
    requires m <= t.inversion
    ensures Reachable(t, s) && s.tick.Idle? && s.now == 0 && s.height == 0 && s.seen == 0 && s.chain == [] && s.landing == map[]
    ensures s.db.claims == map[0 := Voucher(m, 0), 1 := Voucher(0, 0)]
  {
    AllRequested(t, [0, 0], 2);
    s := HandedOut(t, Lobby([0, 0], 2), 1, 0);
    s := HandedOut(t, s, 0, m);
  }

  /** The second voucher's payment settles the first claim. */
  lemma PairSettled(t: Timing, m: nat) returns (s: State)
    requires m <= t.inversion
    ensures Reachable(t, s) && s.tick.Idle? && s.now == 0 && s.height == 0 && s.seen == 1
    ensures s.chain == [Payment(0, 1, 0)] && s.landing == map[1 := 0]
    ensures s.db.claims == map[0 := Voucher(m, 0).(status := Confirmed, txSignature := Some(0)), 1 := Voucher(0, 0)]
  {
    s := PairHandedOut(t, m);
    s := Paid(t, s, 1);
    s := Ticked(t, s, [0, 1], 1, 0);
    s := Settled(t, s, s.chain, 0, false);
    s := Ended(t, s);
  }

  /** The second claim expires before the first voucher lands. */
  lemma LateHeightStrands(t: Timing)
    requires t.inversion + t.lag > EXPIRY_BUFFER_BLOCKS
    ensures Strands(t)
  {
    var m := Min(t.inversion, LATE);
    var s := PairSettled(t, m);
    assert s.db.claims[0].txSignature == Some(0);
    ExpiresLate(t, s, 1, 0, m);
  }

  /** Only claim `id` is pending, every payment is attributed, and voucher `v` may land up to block `m`. */
  ghost predicate LastWaiting(t: Timing, s: State, id: ClaimId, v: ClaimId, m: nat) {
    && Reachable(t, s) && s.tick.Idle? && s.height == 0 && s.now <= BLOCK_TIME * 1000 && s.seen <= |s.chain|
    && id in s.db.claims && s.db.claims[id] == Voucher(0, 0)
    && (forall c :: c in s.db.claims && c != id ==> s.db.claims[c].status != Pending)
    && Payments(s.chain + [Payment(|s.chain|, v, m)]) && (forall i :: 0 <= i < |s.chain| ==> i in UsedSignatures(s.db))
    && !Used(s.db.claims, |s.chain|)
    && v != id && v !in s.landing && v in s.db.claims && s.db.claims[v].wallet == WALLET && s.db.claims[v].amountUsdc == PRIZE
    && Stamped(s.db.claims[v]) && m <= s.db.claims[v].lastValidBlockHeight.value
  }

  /** The chain is swept before the voucher lands, and the height is read after. */
  lemma LateHeightRead(t: Timing, s: State, id: ClaimId, v: ClaimId, m: nat) returns (s': State)
    requires LastWaiting(t, s, id, v, m) && m <= LATE <= m + t.lag
    ensures Reachable(t, s') && s'.db == s.db && s'.chain == s.chain + [Payment(|s.chain|, v, m)] && s'.now == s.now
    ensures s'.tick.Resolving? && Lists(s'.tick.landed, s.chain, |s.chain|)
    ensures s'.tick == Resolving([PendingRow(id, Voucher(0, 0))], s.now, s'.tick.landed, true, |s.chain|, m,
                                 LATE, UsedSignatures(s.db), 0, map[])
  {
    assert Payments(s.chain) by {
      assert forall i :: 0 <= i < |s.chain| ==> s.chain[i] == (s.chain + [Payment(|s.chain|, v, m)])[i];
    }
    s' := Later(t, s, m, s.now);
    s' := RowsRead(t, s', [id]);
    s' := ChainSwept(t, s', |s.chain|, m);
    s' := Paid(t, s', v);
    s' := Later(t, s', LATE, s.now);
    s' := HeightRead(t, s', LATE);
  }

  /** The claim expires although the payment it should have waited for has landed. */
  lemma ExpiresLate(t: Timing, s: State, id: ClaimId, v: ClaimId, m: nat)
    requires LastWaiting(t, s, id, v, m) && m <= LATE <= m + t.lag
    ensures Strands(t)
  {
    var s1 := LateHeightRead(t, s, id, v, m);
    assert Payments(s.chain) by {
      assert forall i :: 0 <= i < |s.chain| ==> s.chain[i] == s1.chain[i];
    }
    var s2 := RowExpired(t, s1, s.chain);
    assert Used(s.db.claims, |s.chain|) || forall c :: c in s.db.claims ==> s.db.claims[c].txSignature != Some(|s.chain|);
    LeftOver(t, s2, |s.chain|);
  }

  // ---------------------------------------------------------------------------------
  // Vouchers handed out in another order than they were created in
  // ---------------------------------------------------------------------------------

  /** Requests 0 and 1 come first, 2 and 3 a moment later. */
  lemma FourRequested(t: Timing) returns (s: State)
    ensures Reachable(t, s) && s.tick.Idle? && s.now == 1 && s.height == 0 && s.seen == 0 && s.chain == [] && s.landing == map[]
    ensures s.db.claims == map[0 := Fresh(0), 1 := Fresh(0), 2 := Fresh(1), 3 := Fresh(1)]
    ensures s.routes == map[0 := Summed(PRIZE), 1 := Summed(PRIZE), 2 := Summed(PRIZE), 3 := Summed(PRIZE)]
  {
    AllRequested(t, [0, 0, 1, 1], 4);
    s := Lobby([0, 0, 1, 1], 4);
  }

  /** Request 0 is still being served when the others are done. */
  lemma ThreeHandedOut(t: Timing, m: nat) returns (s: State)
    requires t.issue > 0
    ensures Reachable(t, s) && s.tick.Idle? && s.now == 1 && s.height == 0 && s.seen == 0 && s.chain == [] && s.landing == map[]
    ensures s.db.claims == map[0 := Fresh(0), 1 := Voucher(0, 0), 2 := Voucher(m, 1), 3 := Voucher(m, 1)]
    ensures 0 in s.routes && s.routes[0] == Summed(PRIZE)
  {
    s := FourRequested(t);
    s := HandedOut(t, s, 1, 0);
    s := HandedOut(t, s, 2, m);
    s := HandedOut(t, s, 3, m);
  }

  function ThreePayments(): seq<Tx> {
    [Payment(0, 2, 0), Payment(1, 1, 0), Payment(2, 0, 0)]
  }

  function FourRows(m: nat): seq<PendingRow> {
    [PendingRow(0, Fresh(0)), PendingRow(1, Voucher(0, 0)), PendingRow(2, Voucher(m, 1)), PendingRow(3, Voucher(m, 1))]
  }

  function FourVouchers(t: Timing, m: nat): map<ClaimId, Claim> {
    map[0 := Voucher(Min(m, t.inversion), 0), 1 := Voucher(0, 0), 2 := Voucher(m, 1), 3 := Voucher(m, 1)]
  }

  /** Vouchers 2 and 1 are paid. */
  lemma TwoPaid(t: Timing, m: nat) returns (s: State)
    requires t.issue > 0
    ensures Reachable(t, s) && s.tick.Idle? && s.now == 1 && s.height == 0 && s.seen == 0
    ensures s.chain == [Payment(0, 2, 0), Payment(1, 1, 0)] && s.landing == map[2 := 0, 1 := 1]
    ensures s.db.claims == map[0 := Fresh(0), 1 := Voucher(0, 0), 2 := Voucher(m, 1), 3 := Voucher(m, 1)]
    ensures 0 in s.routes && s.routes[0] == Summed(PRIZE)
  {
    s := ThreeHandedOut(t, m);
    s := Paid(t, s, 2);
    s := Paid(t, s, 1);
  }

  lemma FourRowsInOrder(db: Db, m: nat)
    requires db.claims == map[0 := Fresh(0), 1 := Voucher(0, 0), 2 := Voucher(m, 1), 3 := Voucher(m, 1)]
    ensures PendingQuery(db, [0, 1, 2, 3]) && RowsOf(db, [0, 1, 2, 3]) == FourRows(m)
  {
  }

  /** A tick reads its rows. */
  lemma FourRowsRead(t: Timing, m: nat) returns (s: State)
    requires t.issue > 0
    ensures Reachable(t, s) && s.now == 1 && s.height == 0 && s.seen == 0
    ensures s.chain == [Payment(0, 2, 0), Payment(1, 1, 0)] && s.landing == map[2 := 0, 1 := 1]
    ensures s.db.claims == map[0 := Fresh(0), 1 := Voucher(0, 0), 2 := Voucher(m, 1), 3 := Voucher(m, 1)]
    ensures 0 in s.routes && s.routes[0] == Summed(PRIZE) && s.tick == Read(FourRows(m), 1)
  {
    s := TwoPaid(t, m);
    FourRowsInOrder(s.db, m);
    s := RowsRead(t, s, [0, 1, 2, 3]);
  }

  /** Then voucher 0 is handed out and paid as well. */
  lemma ZeroOvertaken(t: Timing, m: nat) returns (s: State)
    requires t.issue > 0 && m <= t.inversion + t.disorder
    ensures Reachable(t, s) && s.now == 1 && s.height == 0 && s.seen == 0 && s.chain == ThreePayments() && s.landing == map[2 := 0, 1 := 1, 0 := 2]
    ensures s.db.claims == FourVouchers(t, m) && s.tick == Read(FourRows(m), 1)
  {
    s := FourRowsRead(t, m);
    s := HandedOut(t, s, 0, Min(m, t.inversion));
    s := Paid(t, s, 0);
  }

  lemma FourTicked(t: Timing, m: nat) returns (s: State)
    requires t.issue > 0 && m <= t.inversion + t.disorder
    ensures Reachable(t, s) && s.now == 1 && s.height == 0 && s.seen == 3
    ensures s.chain == ThreePayments() && s.landing == map[2 := 0, 1 := 1, 0 := 2] && s.db.claims == FourVouchers(t, m)
    ensures s.tick.Resolving? && Lists(s.tick.landed, ThreePayments(), 3)
    ensures s.tick == Resolving(FourRows(m), 1, s.tick.landed, true, 3, 0, 0, {}, 0, map[])
  {
    s := ZeroOvertaken(t, m);
    s := ChainSwept(t, s, 3, 0);
    s := HeightRead(t, s, 0);
    assert UsedSignatures(s.db) == {};
  }

  /** The tick passes over row 0, and row 1's confirmation is lost. */
  lemma OneLost(t: Timing, m: nat) returns (s: State)
    requires t.issue > 0 && m <= t.inversion + t.disorder
    ensures Reachable(t, s) && s.now == 1 && s.height == 0 && s.seen == 3
    ensures s.chain == ThreePayments() && s.landing == map[2 := 0, 1 := 1, 0 := 2] && s.db.claims == FourVouchers(t, m)
    ensures s.tick.Resolving? && Lists(s.tick.landed, ThreePayments(), 3)
    ensures s.tick == Resolving(FourRows(m), 1, s.tick.landed, true, 3, 0, 0, {0}, 2, map[1 := 0])
  {
    s := FourTicked(t, m);
    s := UnsignedJudged(t, s, s.chain);
    s := Settled(t, s, s.chain, 0, true);
  }

  /** Rows 2 and 3, which may land long after row 1 expires, are settled with the payments of vouchers 1 and 0. */
  lemma OthersSettled(t: Timing, m: nat) returns (s: State)
    requires t.issue > 0 && m <= t.inversion + t.disorder
    ensures Reachable(t, s) && s.tick.Idle? && s.now == 1 && s.height == 0 && s.seen == 3
    ensures s.chain == ThreePayments() && s.landing == map[2 := 0, 1 := 1, 0 := 2]
    ensures s.db.claims == FourVouchers(t, m)[2 := SettledBy(m, 1)][3 := SettledBy(m, 2)]
  {
    s := OneLost(t, m);
    s := Settled(t, s, s.chain, 1, false);
    s := Settled(t, s, s.chain, 2, false);
    s := Ended(t, s);
  }

  function SettledBy(m: nat, sig: Signature): Claim {
    Voucher(m, 1).(status := Confirmed, txSignature := Some(sig))
  }

  /** The next tick starts. */
  lemma TwoTicked(t: Timing, m: nat) returns (s: State)
    requires t.issue > 0 && m <= t.inversion + t.disorder
    ensures Reachable(t, s) && s.now == 1 && s.height == 0 && s.seen == 3
    ensures s.chain == ThreePayments() && s.landing == map[2 := 0, 1 := 1, 0 := 2]
    ensures s.db.claims == FourVouchers(t, m)[2 := SettledBy(m, 1)][3 := SettledBy(m, 2)]
    ensures s.tick.Resolving? && Lists(s.tick.landed, ThreePayments(), 3)
    ensures s.tick == Resolving([PendingRow(0, FourVouchers(t, m)[0]), PendingRow(1, Voucher(0, 0))], 1, s.tick.landed, true, 3, 0, 0, UsedSignatures(s.db), 0, map[])
  {
    s := OthersSettled(t, m);
    s := Ticked(t, s, [0, 1], 3, 0);
  }

  /** Row 0, older than row 1, takes the payment row 1 lost. */
  lemma ZeroSettled(t: Timing, m: nat) returns (s: State)
    requires t.issue > 0 && m <= t.inversion + t.disorder
    ensures Reachable(t, s) && s.tick.Idle? && s.now == 1 && s.height == 0 && s.seen == 3
    ensures s.chain == ThreePayments() && s.landing == map[2 := 0, 1 := 1, 0 := 2]
    ensures s.db.claims == FourVouchers(t, m)[2 := SettledBy(m, 1)][3 := SettledBy(m, 2)][0 := FourVouchers(t, m)[0].(status := Confirmed, txSignature := Some(0))]
  {
    s := TwoTicked(t, m);
    s := Settled(t, s, s.chain, 0, false);
    s := Ended(t, s);
  }

  /** Voucher 3 has only claim 1 left to stand in for it. */
  lemma DisorderStrands(t: Timing)
    requires t.issue > 0 && t.inversion + t.disorder + t.lag > EXPIRY_BUFFER_BLOCKS
    ensures Strands(t)
  {
    var m := Min(t.inversion + t.disorder, LATE);
    var s := ZeroSettled(t, m);
    assert s.db.claims[0].txSignature == Some(0) && s.db.claims[2].txSignature == Some(1) && s.db.claims[3].txSignature == Some(2);
    assert UsedSignatures(s.db) == {0, 1, 2};
    ExpiresLate(t, s, 1, 3, m);
  }

  // ---------------------------------------------------------------------------------
  // A sweep that sees less than the one before
  // ---------------------------------------------------------------------------------

  /** Voucher 1 is handed out after voucher 0, and may land much later. */
  lemma BothHandedOut(t: Timing) returns (s: State)
    ensures Reachable(t, s) && s.tick.Idle? && s.now == 1 && s.height == LATE && s.seen == 0 && s.chain == [] && s.landing == map[]
    ensures s.db.claims == map[0 := Voucher(0, 0), 1 := Voucher(LATE, 1)]
  {
    AllRequested(t, [0, 1], 1);
    s := HandedOut(t, Lobby([0, 1], 1), 0, 0);
    s := Later(t, s, 0, 1);
    s := Requested(t, s, 2, 1);
    s := HandedOut(t, s, 1, LATE);
    s := Later(t, s, LATE, 1);
  }

  /** Claim 0's confirmation with voucher 1's payment is lost, and claim 1, left without one, expires. */
  lemma OneLeft(t: Timing) returns (s: State)
    ensures Reachable(t, s) && s.tick.Idle? && s.now == 1 && s.height == 2 * LATE && s.chain == [Payment(0, 1, LATE)]
    ensures s.db.claims == map[0 := Voucher(0, 0), 1 := Voucher(LATE, 1).(status := Expired)]
  {
    s := BothHandedOut(t);
    s := Paid(t, s, 1);
    s := Later(t, s, 2 * LATE, 1);
    s := Ticked(t, s, [0, 1], 1, 2 * LATE);
    s := Settled(t, s, s.chain, 0, true);
    s := RowExpired(t, s, s.chain);
    s := Ended(t, s);
  }

  /** A node that lags behind does not show the payment, and claim 0 expires as well. */
  lemma StaleViewStrands(t: Timing)
    requires !t.steadyView
    ensures Strands(t)
  {
    var s := OneLeft(t);
    s := Ticked(t, s, [0], 0, LATE);
    s := RowExpired(t, s, s.chain);
    LeftOver(t, s, 0);
  }
}
