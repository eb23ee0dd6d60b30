/** Whole-run safety of overlapping claim vouchers: no payment is stranded, and nobody is overpaid. */
module PayoutSafety {
  import opened Wrappers
  import opened LandedClaims
  import opened Sums
  import opened PayoutDb
  import opened PayoutConfirmer
  import opened PayoutProtocol
  import opened PayoutInvariants
  import opened PayoutEveryRun
  import opened PayoutMatching
  import opened PayoutExchange
  import opened PayoutResolve

  // ---------------------------------------------------------------------------------
  // Every step keeps the invariant
  // ---------------------------------------------------------------------------------

  lemma QuietVouchers(t: Timing, s: State, s': State, step: Step)
    requires StepBy(t, s, s', step)
    requires QuietStep(step)
    ensures SameVouchers(s, s')
  {
  }

  lemma QuietKeeps(t: Timing, s: State, s': State, step: Step, phi: Partners)
    requires Inv(t, s, phi) && Sound(t, s') && StepBy(t, s, s', step)
    requires QuietStep(step)
    ensures Inv(t, s', phi)
  {
    QuietVouchers(t, s, s', step);
    VouchersFrame(t, s, s', phi);
  }

  predicate TickStep(step: Step) {
    step.TickRead? || step.TickSweep? || step.TickHeight? || step.TickResolve? || step.TickEnd?
  }

  lemma TickStepKeeps(t: Timing, s: State, s': State, step: Step, phi: Partners) returns (psi: Partners)
    requires Fits(t) && Inv(t, s, phi) && Sound(t, s') && ExpiryOrdered(t, s) && Covered(s) && StepBy(t, s, s', step) && TickStep(step)
    ensures Inv(t, s', psi)
  {
    psi := phi;
    match step
    case TickRead(order) => TickReadKeeps(t, s, s', phi, order);
    case TickSweep(tip, startHeight) => TickSweepKeeps(t, s, s', phi, tip, startHeight);
    case TickHeight(height) => TickHeightKeeps(t, s, s', phi, height);
    case TickResolve(writeFails) => psi := ResolveKeeps(t, s, s', phi, writeFails);
    case TickEnd => TickEndKeeps(t, s, s', phi);
  }

  predicate ChainStep(step: Step) {
    step.Land? || step.OtherTx? || step.Advance?
  }

  lemma ChainStepKeeps(t: Timing, s: State, s': State, step: Step, phi: Partners) returns (psi: Partners)
    requires Inv(t, s, phi) && Sound(t, s') && StepBy(t, s, s', step) && ChainStep(step)
    ensures Inv(t, s', psi)
  {
    psi := phi;
    match step
    case Land(v, info, realTime) => LandKeeps(t, s, s', phi, v, info, realTime);
    case OtherTx(info, realTime) => OtherTxKeeps(t, s, s', phi, info, realTime);
    case Advance(height, now) => psi := AdvanceKeeps(t, s, s', phi, height, now);
  }

  predicate VoucherStep(step: Step) {
    step.RouteCreate? || step.RouteDelete? || step.RouteHandOut?
  }

  lemma VoucherStepKeeps(t: Timing, s: State, s': State, step: Step, phi: Partners) returns (psi: Partners)
    requires Inv(t, s, phi) && GraceOk(t, s) && Sound(t, s') && StepBy(t, s, s', step) && VoucherStep(step)
    ensures Inv(t, s', psi)
  {
    psi := phi;
    match step
    case RouteCreate(id, wallet) => CreateKeeps(t, s, s', phi, id, wallet);
    case RouteDelete(id) => DeleteKeeps(t, s, s', phi, id);
    case RouteHandOut(id, lvbh) => psi := HandOutKeeps(t, s, s', phi, id, lvbh);
  }

  /** Whatever the step, every outstanding voucher still has a partner. */
  lemma StepKeeps(t: Timing, s: State, s': State, step: Step, phi: Partners) returns (psi: Partners)
    requires Fits(t) && Inv(t, s, phi) && Timely(t, s) && Covered(s) && StepBy(t, s, s', step)
    ensures Inv(t, s', psi) && Timely(t, s')
  {
    SoundStep(t, s, s', step);
    ExpiryStaysOrdered(t, s, s', step);
    GraceStays(t, s, s', step);
    if TickStep(step) {
      psi := TickStepKeeps(t, s, s', step, phi);
    } else if ChainStep(step) {
      psi := ChainStepKeeps(t, s, s', step, phi);
    } else if VoucherStep(step) {
      psi := VoucherStepKeeps(t, s, s', step, phi);
    } else {
      psi := phi;
      QuietKeeps(t, s, s', step, phi);
    }
  }

  /** What has been handed out and released so far was so in time. */
  ghost predicate Timely(t: Timing, s: State) {
    ExpiryOrdered(t, s) && GraceOk(t, s)
  }

  lemma GraceStays(t: Timing, s: State, s': State, step: Step)
    requires InGrace(t) && Sound(t, s) && GraceOk(t, s) && StepBy(t, s, s', step)
    ensures GraceOk(t, s')
  {
    if step.TickResolve? {
      if VerdictOf(s) == ExpireUnsigned {
        UnsignedNeverHandedOut(t, s);
      }
      if Hit(s.tick.landed, Row(s).claim, s.tick.used).Some? {
        HitIsReal(t, s, Hit(s.tick.landed, Row(s).claim, s.tick.used).value);
      }
      assert RowOk(t, s, s.tick.next);
    }
  }

  lemma ExpiryStaysOrdered(t: Timing, s: State, s': State, step: Step)
    requires RoutesOk(s) && s.db.claims.Keys <= s.ids && ExpiryOrdered(t, s) && StepBy(t, s, s', step)
    ensures ExpiryOrdered(t, s')
  {
    TermsFixed(t, s, s', step);
    forall a, b | Issued(s', a) && Issued(s', b) ensures ExpiresInOrder(t, s'.db.claims[a], s'.db.claims[b]) {
      if Issued(s, a) && Issued(s, b) {
        assert ExpiresInOrder(t, s.db.claims[a], s.db.claims[b]);
      }
    }
  }

  // ---------------------------------------------------------------------------------
  // Runs
  // ---------------------------------------------------------------------------------

  /** Sweeps that were cut short only ever decide where no two vouchers can be confused. */
  ghost predicate CoveredRun(states: seq<State>) {
    forall k :: 0 <= k < |states| ==> Covered(states[k])
  }

  lemma {:induction false} RunKeeps(t: Timing, states: seq<State>, k: nat) returns (phi: Partners)
    requires Fits(t) && Run(t, states) && CoveredRun(states) && k < |states|
    ensures Inv(t, states[k], phi) && Timely(t, states[k])
  {
    if k == 0 {
      RunIsSound(t, states, 0);
      phi := map[];
    } else {
      var before := RunKeeps(t, states, k - 1);
      phi := NextKeeps(t, states, k, before);
    }
  }

  lemma NextKeeps(t: Timing, states: seq<State>, k: nat, phi: Partners) returns (psi: Partners)
    requires Fits(t) && Run(t, states) && 0 < k < |states| && Covered(states[k - 1])
    requires Inv(t, states[k - 1], phi) && Timely(t, states[k - 1])
    ensures Inv(t, states[k], psi) && Timely(t, states[k])
  {
    assert StepsAt(t, states, k - 1);
    var step :| StepBy(t, states[k - 1], states[k], step);
    psi := StepKeeps(t, states[k - 1], states[k], step, phi);
  }

  /** The state ends some run. */
  ghost predicate Reachable(t: Timing, s: State) {
    exists states :: EndsIn(t, states, s)
  }

  ghost predicate EndsIn(t: Timing, states: seq<State>, s: State) {
    Run(t, states) && CoveredRun(states) && states[|states| - 1] == s
  }

  lemma ReachableKeeps(t: Timing, s: State) returns (phi: Partners)
    requires Fits(t) && Reachable(t, s)
    ensures Inv(t, s, phi) && Timely(t, s)
  {
    var states :| EndsIn(t, states, s);
    phi := RunKeeps(t, states, |states| - 1);
  }

  // ---------------------------------------------------------------------------------
  // No payment is stranded
  // ---------------------------------------------------------------------------------

  ghost predicate PaymentOf(s: State, i: int, wallet: Wallet, amount: nat) {
    0 <= i < |s.chain| && s.chain[i].voucher.Some? && s.chain[i].wallet == wallet && s.chain[i].amount == amount
  }

  ghost predicate ConfirmedBy(s: State, id: ClaimId, sig: Signature) {
    && id in s.db.claims && s.db.claims[id].status == Confirmed && s.db.claims[id].txSignature == Some(sig)
  }

  ghost predicate NoneLive(s: State, wallet: Wallet, amount: nat) {
    forall v :: Live(s, v) ==> !(s.db.claims[v].wallet == wallet && s.db.claims[v].amountUsdc == amount)
  }

  /** The landed payments of a wallet and amount are exactly the signatures of its confirmed claims. */
  ghost predicate OneToOne(s: State, wallet: Wallet, amount: nat) {
    && (forall i :: PaymentOf(s, i, wallet, amount) ==>
          exists id :: ConfirmedBy(s, id, i) && s.db.claims[id].wallet == wallet && s.db.claims[id].amountUsdc == amount)
    && (forall a, b, sig :: ConfirmedBy(s, a, sig) && ConfirmedBy(s, b, sig) ==> a == b)
    && (forall id :: id in s.db.claims && s.db.claims[id].status == Confirmed
                     && s.db.claims[id].wallet == wallet && s.db.claims[id].amountUsdc == amount ==>
          s.db.claims[id].txSignature.Some? && s.db.claims[id].txSignature.value >= 0
          && PaymentOf(s, s.db.claims[id].txSignature.value, wallet, amount))
  }

  /**
   Once no voucher of a wallet and amount is pending, every payment of that wallet and amount
   belongs to exactly one confirmed claim.  So no expiry freed tickets whose value had left.
   */
  lemma NoPaymentStranded(t: Timing, s: State, wallet: Wallet, amount: nat)
    requires Fits(t) && Reachable(t, s) && NoneLive(s, wallet, amount)
    ensures OneToOne(s, wallet, amount)
  {
    var phi := ReachableKeeps(t, s);
    forall i | PaymentOf(s, i, wallet, amount)
      ensures exists id :: ConfirmedBy(s, id, i) && s.db.claims[id].wallet == wallet && s.db.claims[id].amountUsdc == amount
    {
      UnusedHasPartner(s, phi, i);
      var id :| id in s.db.claims && s.db.claims[id].txSignature == Some(i);
      assert ClaimOk(s.db.tickets, s.now, id, s.db.claims[id]);
    }
    forall id | id in s.db.claims && s.db.claims[id].status == Confirmed
                && s.db.claims[id].wallet == wallet && s.db.claims[id].amountUsdc == amount
      ensures s.db.claims[id].txSignature.Some?
    {
      assert ClaimOk(s.db.tickets, s.now, id, s.db.claims[id]);
    }
  }

  /** A payment not attributed yet is matched with a live claim of its wallet and amount. */
  lemma UnusedHasPartner(s: State, phi: Partners, i: nat)
    requires Matching(s, phi) && LandingOk(s) && i < |s.chain| && s.chain[i].voucher.Some?
    ensures var v := s.chain[i].voucher.value;
      !Used(s.db.claims, i) ==>
        && v in phi && Live(s, phi[v])
        && s.db.claims[phi[v]].wallet == s.chain[i].wallet && s.db.claims[phi[v]].amountUsdc == s.chain[i].amount
  {
  }

  // ---------------------------------------------------------------------------------
  // Nobody is overpaid
  // ---------------------------------------------------------------------------------

  /** Winnings of a wallet that the protocol holds for it or has paid it. */
  function WonAmount(wallet: Wallet): Ticket -> int {
    (t: Ticket) => if (t.winStatus == ClaimedOnBase || t.winStatus == PaidOutOnSolana) && t.buyer == wallet then t.winAmount else 0
  }

  /** What the tickets bound to any of the claims are worth. */
  function HeldAmount(ids: set<ClaimId>): Ticket -> int {
    (t: Ticket) => if t.payoutClaimId.Some? && t.payoutClaimId.value in ids then t.winAmount else 0
  }

  lemma HeldGrows(tickets: seq<Ticket>, ids: set<ClaimId>, id: ClaimId)
    requires id !in ids
    ensures SumBy(HeldAmount(ids + {id}), tickets) == SumBy(HeldAmount(ids), tickets) + BoundSum(tickets, id)
  {
  }

  /** The claims matched with the wallet's unattributed payments among the first `n` transactions. */
  ghost function PartnersUpTo(s: State, phi: Partners, wallet: Wallet, n: nat): set<ClaimId>
    requires n <= |s.chain|
  {
    if n == 0 then {}
    else if UnusedAmount(s.db.claims, wallet)(s.chain[n - 1]) > 0 && s.chain[n - 1].voucher.Some? && s.chain[n - 1].voucher.value in phi then
      PartnersUpTo(s, phi, wallet, n - 1) + {phi[s.chain[n - 1].voucher.value]}
    else PartnersUpTo(s, phi, wallet, n - 1)
  }

  ghost predicate PartnerAmong(s: State, phi: Partners, wallet: Wallet, n: nat, c: ClaimId)
    requires n <= |s.chain|
  {
    exists i :: 0 <= i < n && s.chain[i].voucher.Some? && s.chain[i].wallet == wallet && !Used(s.db.claims, i)
                && s.chain[i].voucher.value in phi && phi[s.chain[i].voucher.value] == c
  }

  lemma {:induction false} PartnersUpToOnly(t: Timing, s: State, phi: Partners, wallet: Wallet, n: nat)
    requires ChainOk(s.chain, s.height) && n <= |s.chain|
    ensures forall c :: c in PartnersUpTo(s, phi, wallet, n) ==> PartnerAmong(s, phi, wallet, n, c)
  {
    if n > 0 {
      PartnersUpToOnly(t, s, phi, wallet, n - 1);
      assert TxOk(s.chain, n - 1, s.height);
      forall c | c in PartnersUpTo(s, phi, wallet, n) ensures PartnerAmong(s, phi, wallet, n, c) {
        if c in PartnersUpTo(s, phi, wallet, n - 1) {
          assert PartnerAmong(s, phi, wallet, n - 1, c);
        }
      }
    }
  }

  /** Unattributed payments are fully backed by the tickets of the claims they are matched with. */
  lemma {:induction false} UnusedIsHeld(t: Timing, s: State, phi: Partners, wallet: Wallet, n: nat)
    requires CoreOk(s) && Matching(s, phi) && n <= |s.chain|
    ensures SumBy(UnusedAmount(s.db.claims, wallet), s.chain[..n])
            == SumBy(HeldAmount(PartnersUpTo(s, phi, wallet, n)), s.db.tickets)
  {
    if n == 0 {
      SumZero(HeldAmount({}), s.db.tickets);
    } else {
      UnusedIsHeld(t, s, phi, wallet, n - 1);
      assert s.chain[..n][..n - 1] == s.chain[..n - 1];
      NextHeld(t, s, phi, wallet, n);
    }
  }

  lemma NextHeld(t: Timing, s: State, phi: Partners, wallet: Wallet, n: nat)
    requires CoreOk(s) && Matching(s, phi) && 0 < n <= |s.chain|
    ensures SumBy(HeldAmount(PartnersUpTo(s, phi, wallet, n)), s.db.tickets)
            == SumBy(HeldAmount(PartnersUpTo(s, phi, wallet, n - 1)), s.db.tickets)
               + UnusedAmount(s.db.claims, wallet)(s.chain[n - 1])
  {
    var tx := s.chain[n - 1];
    assert TxOk(s.chain, n - 1, s.height);
    if UnusedAmount(s.db.claims, wallet)(tx) > 0 {
      UnusedHasPartner(s, phi, n - 1);
      var c := phi[tx.voucher.value];
      assert ClaimOk(s.db.tickets, s.now, c, s.db.claims[c]);
      PartnersUpToOnly(t, s, phi, wallet, n - 1);
      PartnerIsNew(s, phi, wallet, n - 1);
      HeldGrows(s.db.tickets, PartnersUpTo(s, phi, wallet, n - 1), c);
    }
  }

  lemma PartnerIsNew(s: State, phi: Partners, wallet: Wallet, n: nat)
    requires Matching(s, phi) && LandingOk(s) && n < |s.chain|
    requires s.chain[n].voucher.Some? && s.chain[n].voucher.value in phi
    ensures !PartnerAmong(s, phi, wallet, n, phi[s.chain[n].voucher.value])
  {
    var v := s.chain[n].voucher.value;
    assert s.landing[v] == n;
    forall i | 0 <= i < n && s.chain[i].voucher.Some? && s.chain[i].voucher.value in phi
      ensures phi[s.chain[i].voucher.value] != phi[v]
    {
      var u := s.chain[i].voucher.value;
      assert s.landing[u] == i;
      assert u != v;
    }
  }

  /**
   What left the vault for a wallet never exceeds what its tickets won, in any reachable state;
   and it is exactly what its paid-out tickets won once none of its vouchers is pending.
   */
  lemma NeverOverpaid(t: Timing, s: State, wallet: Wallet)
    requires Fits(t) && Reachable(t, s)
    ensures var landed := (tx: Tx) => if tx.voucher.Some? && tx.wallet == wallet then tx.amount else 0;
      var won := (row: Ticket) =>
        if (row.winStatus == ClaimedOnBase || row.winStatus == PaidOutOnSolana) && row.buyer == wallet then row.winAmount else 0;
      var paid := (row: Ticket) => if row.winStatus == PaidOutOnSolana && row.buyer == wallet then row.winAmount else 0;
      && SumBy(landed, s.chain) <= SumBy(won, s.db.tickets)
      && ((forall v :: v in s.db.claims && s.db.claims[v].status == Pending && s.db.claims[v].lastValidBlockHeight.Some? ==>
             s.db.claims[v].wallet != wallet) ==>
            SumBy(landed, s.chain) == SumBy(paid, s.db.tickets))
  {
    SumAgrees((tx: Tx) => if tx.voucher.Some? && tx.wallet == wallet then tx.amount else 0, s.chain, LandedAmount(wallet), s.chain);
    SumAgrees(
      (row: Ticket) =>
        if (row.winStatus == ClaimedOnBase || row.winStatus == PaidOutOnSolana) && row.buyer == wallet then row.winAmount else 0,
      s.db.tickets, WonAmount(wallet), s.db.tickets);
    SumAgrees(
      (row: Ticket) => if row.winStatus == PaidOutOnSolana && row.buyer == wallet then row.winAmount else 0,
      s.db.tickets, PaidAmount(wallet), s.db.tickets);
    var phi := ReachableKeeps(t, s);
    assert MoneyOk(s, wallet);
    UnusedIsHeld(t, s, phi, wallet, |s.chain|);
    assert s.chain[..|s.chain|] == s.chain;
    var ids := PartnersUpTo(s, phi, wallet, |s.chain|);
    PartnersUpToOnly(t, s, phi, wallet, |s.chain|);
    PaidPlusHeld(s, phi, wallet, ids);
    if forall v :: Live(s, v) ==> s.db.claims[v].wallet != wallet {
      NothingUnused(s, phi, wallet);
    }
  }

  lemma NothingUnused(s: State, phi: Partners, wallet: Wallet)
    requires Matching(s, phi) && LandingOk(s) && ChainOk(s.chain, s.height)
    requires forall v :: Live(s, v) ==> s.db.claims[v].wallet != wallet
    ensures SumBy(UnusedAmount(s.db.claims, wallet), s.chain) == 0
  {
    forall i | 0 <= i < |s.chain| ensures UnusedAmount(s.db.claims, wallet)(s.chain[i]) == 0 {
      assert TxOk(s.chain, i, s.height);
      if s.chain[i].voucher.Some? {
        UnusedHasPartner(s, phi, i);
      }
    }
    SumZero(UnusedAmount(s.db.claims, wallet), s.chain);
  }

  lemma PaidPlusHeld(s: State, phi: Partners, wallet: Wallet, ids: set<ClaimId>)
    requires TicketsOk(s.db) && Matching(s, phi) && LandingOk(s)
    requires forall c :: c in ids ==> PartnerAmong(s, phi, wallet, |s.chain|, c)
    ensures SumBy(PaidAmount(wallet), s.db.tickets) + SumBy(HeldAmount(ids), s.db.tickets) <= SumBy(WonAmount(wallet), s.db.tickets)
  {
    var both: Ticket -> int := (x: Ticket) => PaidAmount(wallet)(x) + HeldAmount(ids)(x);
    SumSplit(both, s.db.tickets, PaidAmount(wallet), s.db.tickets, HeldAmount(ids), s.db.tickets);
    forall i | 0 <= i < |s.db.tickets| ensures both(s.db.tickets[i]) <= WonAmount(wallet)(s.db.tickets[i]) {
      var x := s.db.tickets[i];
      assert TicketOk(s.db.claims, x);
      if x.payoutClaimId.Some? && x.payoutClaimId.value in ids {
        var j :| 0 <= j < |s.chain| && s.chain[j].voucher.Some? && s.chain[j].wallet == wallet && !Used(s.db.claims, j)
                 && s.chain[j].voucher.value in phi && phi[s.chain[j].voucher.value] == x.payoutClaimId.value;
        UnusedHasPartner(s, phi, j);
      }
    }
    SumAtMost(both, WonAmount(wallet), s.db.tickets);
  }
}
