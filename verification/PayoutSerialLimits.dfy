/**
 With one live voucher per wallet, the grace and the buffer are all that matters: value is conserved
 and expiry is sound exactly when a request and a tick fit the one, and the height's lag the other.
 */
module PayoutSerialLimits {
  import opened LandedClaims
  import opened Sums
  import opened PayoutDb
  import opened PayoutConfirmer
  import opened PayoutProtocol
  import opened PayoutInvariants
  import opened PayoutEveryRun
  import opened PayoutLifecycle
  import opened PayoutSafety
  import opened PayoutSerial
  import opened PayoutRuns
  import opened PayoutLimits

  // ---------------------------------------------------------------------------------
  // A height read too late
  // ---------------------------------------------------------------------------------

  lemma OneSwept(t: Timing) returns (s: State)
    ensures Reachable(t, s) && s.now == 0 && s.height == 0 && s.ids == {0} && s.chain == [] && s.landing == map[]
    ensures s.db.claims == map[0 := Voucher(0, 0)] && s.tick.Swept? && Lists(s.tick.landed, [], 0)
    ensures s.tick == Swept([PendingRow(0, Voucher(0, 0))], 0, s.tick.landed, true, 0, 0)
  {
    AllRequested(t, [0], 1);
    s := HandedOut(t, Lobby([0], 1), 0, 0);
    s := RowsRead(t, s, [0]);
    s := ChainSwept(t, s, 0, 0);
  }

  /** The one voucher lands between the sweep and the height. */
  lemma LandsInBetween(t: Timing) returns (s: State)
    requires t.lag > EXPIRY_BUFFER_BLOCKS
    ensures Reachable(t, s) && s.now == 0 && s.ids == {0} && s.chain == [Payment(0, 0, 0)] && s.landing == map[0 := 0]
    ensures s.db.claims == map[0 := Voucher(0, 0)] && s.tick.Resolving? && Lists(s.tick.landed, [], 0)
    ensures s.tick == Resolving([PendingRow(0, Voucher(0, 0))], 0, s.tick.landed, true, 0, 0, LATE, UsedSignatures(s.db), 0, map[])
  {
    s := OneSwept(t);
    s := Paid(t, s, 0);
    s := Later(t, s, LATE, 0);
    s := HeightRead(t, s, LATE);
  }

  lemma ReachableIsRunTo(t: Timing, s: State)
    requires Reachable(t, s)
    ensures RunTo(t, s)
  {
    var states :| EndsIn(t, states, s);
    assert RunEndsIn(t, states, s);
  }

  /** In some run a voucher counts as dead although its payment has landed. */
  ghost predicate MissesALanding(t: Timing) {
    exists s :: RunTo(t, s) && Unmatched(s) && Row(s).id in s.landing
  }

  /** Expiry goes by the right evidence in every run if and only if the height is read in time. */
  lemma ExpiryIsSoundIff(t: Timing)
    ensures t.lag <= EXPIRY_BUFFER_BLOCKS <==> !MissesALanding(t)
  {
    if t.lag <= EXPIRY_BUFFER_BLOCKS {
      forall s | RunTo(t, s) && Unmatched(s) ensures Row(s).id !in s.landing {
        RunToIsSound(t, s);
        LandedIsListed(t, s);
      }
    } else {
      var s := LandsInBetween(t);
      ReachableIsRunTo(t, s);
      assert Unmatched(s);
    }
  }

  // ---------------------------------------------------------------------------------
  // One claim is serial
  // ---------------------------------------------------------------------------------

  lemma {:induction false} IdsGrow(t: Timing, states: seq<State>, j: nat, k: nat)
    requires Run(t, states) && j <= k < |states|
    ensures states[j].ids <= states[k].ids
  {
    if j < k {
      IdsGrow(t, states, j, k - 1);
      IdsGrowBy(t, states, k);
    }
  }

  lemma IdsGrowBy(t: Timing, states: seq<State>, k: nat)
    requires Run(t, states) && 0 < k < |states|
    ensures states[k - 1].ids <= states[k].ids
  {
    assert StepsAt(t, states, k - 1);
  }

  /** A run with no more than one claim ever has nobody to overlap with. */
  lemma OneClaimIsSerial(t: Timing, states: seq<State>)
    requires Run(t, states) && states[|states| - 1].ids == {0}
    ensures SerialRun(t, states)
  {
    forall k | 0 <= k < |states| - 1 ensures SerialAt(t, states, k) {
      assert StepsAt(t, states, k);
      var step :| StepBy(t, states[k], states[k + 1], step);
      RunIsSound(t, states, k);
      IdsGrow(t, states, k + 1, |states| - 1);
      NobodyBusy(t, states[k], states[k + 1], step);
    }
  }

  lemma NobodyBusy(t: Timing, s: State, s': State, step: Step)
    requires s.db.claims.Keys <= s.ids && s'.ids <= {0} && StepBy(t, s, s', step)
    ensures SerialStep(s, step)
  {
    if step.RouteCreate? {
      assert step.id in s'.ids;
    }
  }

  // ---------------------------------------------------------------------------------
  // Conservation
  // ---------------------------------------------------------------------------------

  /** In some serial run the books do not balance. */
  ghost predicate LosesValue(t: Timing) {
    exists states, wallet :: Unbalanced(t, states, wallet)
  }

  ghost predicate Unbalanced(t: Timing, states: seq<State>, wallet: Wallet) {
    SerialRun(t, states) && !Conserved(states[|states| - 1], wallet)
  }

  /** The payment left the vault, and neither a paid ticket nor a pending claim accounts for it. */
  lemma NotConserved(t: Timing, s: State)
    requires Sound(t, s) && ExpiredPaid(s)
    ensures !Conserved(s, WALLET)
  {
    forall i | 0 <= i < |s.db.tickets| ensures PaidAmount(WALLET)(s.db.tickets[i]) == 0 {
      assert TicketOk(s.db.claims, s.db.tickets[i]);
    }
    SumZero(PaidAmount(WALLET), s.db.tickets);
    SumZero(PendingLanded(s, WALLET), s.chain);
    SumSingle(LandedAmount(WALLET), s.chain, 0);
  }

  lemma ExpiredPaidLoses(t: Timing, s: State)
    requires Reachable(t, s) && ExpiredPaid(s)
    ensures LosesValue(t)
  {
    var states :| EndsIn(t, states, s);
    RunIsSound(t, states, |states| - 1);
    OneClaimIsSerial(t, states);
    NotConserved(t, s);
    assert Unbalanced(t, states, WALLET);
  }

  lemma LateHeightLoses(t: Timing)
    requires t.lag > EXPIRY_BUFFER_BLOCKS
    ensures LosesValue(t)
  {
    var s := LandsInBetween(t);
    s := RowExpired(t, s, []);
    ExpiredPaidLoses(t, s);
  }

  /** One live voucher per wallet conserves value in every run if and only if the grace and the height's lag are in time. */
  lemma ConservationIsExact(t: Timing)
    ensures InTime(t) <==> !LosesValue(t)
  {
    if InTime(t) {
      forall states, wallet ensures !Unbalanced(t, states, wallet) {
        if SerialRun(t, states) {
          ValueConserved(t, states, |states| - 1, wallet);
        }
      }
    } else if !InGrace(t) {
      var s := SlowlyExpired(t);
      ExpiredPaidLoses(t, s);
    } else {
      LateHeightLoses(t);
    }
  }
}
