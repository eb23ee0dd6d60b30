/**
 One live voucher per wallet.  When a wallet's requests do not overlap, and none is served while
 its voucher is live, every claim is settled by its own payment: sweeps that were cut short
 cannot mislead the confirmer, and an expired voucher never landed and never will.
 */
module PayoutSerial {
  import opened Wrappers
  import opened LandedClaims
  import opened Sums
  import opened PayoutDb
  import opened PayoutConfirmer
  import opened PayoutProtocol
  import opened PayoutInvariants
  import opened PayoutEveryRun
  import opened PayoutMatching
  import opened PayoutExchange
  import opened PayoutSafety

  /** The wallet's request is still running, or its voucher is live. */
  predicate Busy(s: State, id: ClaimId) {
    id in s.db.claims && (id in s.routes || Live(s, id))
  }

  /** A row is created only for a wallet that has neither a request under way nor a live voucher. */
  ghost predicate SerialStep(s: State, step: Step) {
    step.RouteCreate? ==> forall c :: Busy(s, c) ==> s.db.claims[c].wallet != step.wallet
  }

  ghost predicate SerialNext(t: Timing, s: State, s': State) {
    exists step :: StepBy(t, s, s', step) && SerialStep(s, step)
  }

  ghost predicate SerialAt(t: Timing, states: seq<State>, k: int)
    requires 0 <= k < |states| - 1
  {
    SerialNext(t, states[k], states[k + 1])
  }

  ghost predicate SerialRun(t: Timing, states: seq<State>) {
    && |states| > 0 && Init(states[0])
    && forall k :: 0 <= k < |states| - 1 ==> SerialAt(t, states, k)
  }

  ghost predicate OneBusy(s: State) {
    forall a, b :: Busy(s, a) && Busy(s, b) && s.db.claims[a].wallet == s.db.claims[b].wallet ==> a == b
  }

  /** Each voucher's fate is its own payment's. */
  ghost predicate OwnFate(s: State, v: ClaimId)
    requires Issued(s, v)
  {
    var c := s.db.claims[v];
    && (c.status == Confirmed ==> v in s.landing && c.txSignature == Some(s.landing[v]))
    && (c.status == Expired || c.status == Failed ==> v !in s.landing && s.height > c.lastValidBlockHeight.value)
    && (c.status != Confirmed ==> c.txSignature == None)
  }

  ghost predicate OwnFates(s: State) {
    forall v :: Issued(s, v) ==> OwnFate(s, v)
  }

  /** What a lost write reserved is the claim's own payment. */
  ghost predicate ReservedOwn(s: State) {
    s.tick.Resolving? ==> forall id :: id in s.tick.reserved ==> id in s.landing && s.landing[id] == s.tick.reserved[id]
  }

  ghost predicate Serial(t: Timing, s: State) {
    Sound(t, s) && GraceOk(t, s) && OneBusy(s) && OwnFates(s) && ReservedOwn(s)
  }

  /** All that one live voucher per wallet needs of a deployment: the grace holds, and the height is read in time. */
  predicate InTime(t: Timing) {
    InGrace(t) && t.lag <= EXPIRY_BUFFER_BLOCKS
  }

  // ---------------------------------------------------------------------------------
  // One busy claim per wallet
  // ---------------------------------------------------------------------------------

  lemma BusyStep(t: Timing, s: State, s': State, step: Step, id: ClaimId)
    requires RoutesOk(s) && s.db.claims.Keys <= s.ids && StepBy(t, s, s', step) && Busy(s', id)
    ensures if step.RouteCreate? && id == step.id then s'.db.claims[id].wallet == step.wallet
            else Busy(s, id) && s'.db.claims[id].wallet == s.db.claims[id].wallet
  {
  }

  lemma StaysOneBusy(t: Timing, s: State, s': State, step: Step)
    requires RoutesOk(s) && s.db.claims.Keys <= s.ids && OneBusy(s) && StepBy(t, s, s', step) && SerialStep(s, step)
    ensures OneBusy(s')
  {
    forall a, b | Busy(s', a) && Busy(s', b) && s'.db.claims[a].wallet == s'.db.claims[b].wallet ensures a == b {
      BusyStep(t, s, s', step, a);
      BusyStep(t, s, s', step, b);
    }
  }

  /** With one live voucher per wallet there is nothing to confuse. */
  lemma SerialIsCovered(t: Timing, s: State)
    requires Serial(t, s)
    ensures Covered(s)
  {
    forall v | Outstanding(s, v) ensures Busy(s, v) {
      assert OwnFate(s, v);
    }
  }

  // ---------------------------------------------------------------------------------
  // Every claim meets its own fate
  // ---------------------------------------------------------------------------------

  /** A claim that carries a voucher's payment is that voucher's own. */
  lemma SignedByItself(s: State, c: ClaimId, v: ClaimId)
    requires ClaimsOk(s.db, s.now) && LandingOk(s) && OwnFates(s)
    requires v in s.landing && c in s.db.claims && s.db.claims[c].txSignature == Some(s.landing[v])
    ensures c == v && s.db.claims[v].status == Confirmed
  {
    assert ClaimOk(s.db.tickets, s.now, c, s.db.claims[c]);
    assert OwnFate(s, c);
    assert s.chain[s.landing[c]].voucher == Some(c) && s.chain[s.landing[v]].voucher == Some(v);
  }

  /** Only the judged row's fate is decided by a verdict. */
  lemma FatesAfter(s: State, s': State)
    requires OwnFates(s) && Judging(s) && OnlyRowChanged(s, s')
    requires Issued(s', Row(s).id) ==> OwnFate(s', Row(s).id)
    ensures OwnFates(s')
  {
    forall v | Issued(s', v) ensures OwnFate(s', v) {
      if v != Row(s).id {
        assert OwnFate(s, v);
      }
    }
  }

  /** A row can only hit its own payment. */
  lemma OwnHit(t: Timing, s: State, h: Landed)
    requires Serial(t, s) && Judging(s) && Hit(s.tick.landed, Row(s).claim, s.tick.used) == Some(h)
    ensures Live(s, Row(s).id) && Row(s).id in s.landing && s.landing[Row(s).id] == h.signature
  {
    HitIsReal(t, s, h);
    var b := s.chain[h.signature].voucher.value;
    assert OwnFate(s, b);
    assert Busy(s, b) && Busy(s, Row(s).id);
  }

  lemma HitFate(t: Timing, s: State, s': State, writeFails: bool, h: Landed)
    requires Serial(t, s) && StepBy(t, s, s', TickResolve(writeFails)) && OnlyRowChanged(s, s')
    requires Hit(s.tick.landed, Row(s).claim, s.tick.used) == Some(h)
    ensures OwnFates(s') && ReservedOwn(s')
  {
    OwnHit(t, s, h);
    HitIsReal(t, s, h);
    FatesAfter(s, s');
  }

  /** A row that expires has no payment, and will have none. */
  lemma ExpiringNeverLanded(t: Timing, s: State)
    requires t.lag <= EXPIRY_BUFFER_BLOCKS && Serial(t, s) && Judging(s) && VerdictOf(s) == Expire
    ensures Issued(s, Row(s).id) && Row(s).id !in s.landing
    ensures s.height > s.db.claims[Row(s).id].lastValidBlockHeight.value
  {
    LandedIsListed(t, s);
    assert RowOk(t, s, s.tick.next);
    HitIsOldest(s.tick.landed, Row(s).claim, s.tick.used);
    if Row(s).id in s.landing {
      assert s.landing[Row(s).id] in s.tick.used;
      OwnIsNotSpoken(t, s);
    }
  }

  /** Nobody else can have the row's own payment. */
  lemma OwnIsNotSpoken(t: Timing, s: State)
    requires Serial(t, s) && Judging(s) && Live(s, Row(s).id) && Row(s).id in s.landing
    ensures s.landing[Row(s).id] !in s.tick.used
  {
    var id := Row(s).id;
    var sig := s.landing[id];
    if c :| c in s.db.claims && s.db.claims[c].txSignature == Some(sig) {
      SignedByItself(s, c, id);
    }
    NotReserved(t, s);
    forall r | r in s.tick.reserved ensures s.tick.reserved[r] != sig {
      assert s.chain[s.landing[r]].voucher == Some(r);
    }
  }

  lemma ExpiredFate(t: Timing, s: State, s': State)
    requires InTime(t) && Serial(t, s) && StepBy(t, s, s', TickResolve(false)) && OnlyRowChanged(s, s')
    requires VerdictOf(s) == Expire || VerdictOf(s) == ExpireUnsigned
    ensures OwnFates(s')
  {
    if VerdictOf(s) == Expire {
      ExpiringNeverLanded(t, s);
      assert OwnFate(s, Row(s).id);
    } else {
      UnsignedNeverHandedOut(t, s);
    }
    ExpireStep(s, s');
    FatesAfter(s, s');
  }

  lemma ResolveFate(t: Timing, s: State, s': State, writeFails: bool)
    requires InTime(t) && Serial(t, s) && StepBy(t, s, s', TickResolve(writeFails))
    ensures OwnFates(s') && ReservedOwn(s')
  {
    ResolveSound(t, s, s', writeFails);
    var hit := Hit(s.tick.landed, Row(s).claim, s.tick.used);
    if hit.Some? {
      HitFate(t, s, s', writeFails, hit.value);
    } else if writeFails || VerdictOf(s) == Wait {
      SameFates(s, s');
    } else {
      ExpiredFate(t, s, s');
    }
  }

  /** Steps that leave vouchers and landings alone leave fates alone. */
  lemma SameFates(s: State, s': State)
    requires OwnFates(s) && s.height <= s'.height && s'.landing == s.landing
    requires forall v :: Issued(s', v) ==> Issued(s, v) && s'.db.claims[v] == s.db.claims[v]
    ensures OwnFates(s')
  {
    forall v | Issued(s', v) ensures OwnFate(s', v) {
      assert OwnFate(s, v);
    }
  }

  lemma HandOutFate(t: Timing, s: State, s': State, id: ClaimId, lastValidBlockHeight: nat)
    requires ClaimsOk(s.db, s.now) && RoutesOk(s) && OwnFates(s) && GraceOk(t, s)
    requires StepBy(t, s, s', RouteHandOut(id, lastValidBlockHeight))
    ensures OwnFates(s')
  {
    assert ClaimOk(s.db.tickets, s.now, id, s.db.claims[id]);
    forall v | Issued(s', v) ensures OwnFate(s', v) {
      if v != id {
        assert OwnFate(s, v);
      }
    }
  }

  lemma LandFate(t: Timing, s: State, s': State, v: ClaimId, info: SigInfo, realTime: int)
    requires OwnFates(s) && StepBy(t, s, s', Land(v, info, realTime))
    ensures OwnFates(s')
  {
    forall u | Issued(s', u) ensures OwnFate(s', u) {
      assert OwnFate(s, u);
    }
  }

  lemma OtherFate(t: Timing, s: State, s': State, step: Step)
    requires OwnFates(s) && RoutesOk(s) && s.db.claims.Keys <= s.ids && StepBy(t, s, s', step)
    requires !step.TickResolve? && !step.RouteHandOut? && !step.Land?
    ensures OwnFates(s')
  {
    SameFates(s, s');
  }

  lemma FatesKept(t: Timing, s: State, s': State, step: Step)
    requires InTime(t) && Serial(t, s) && StepBy(t, s, s', step)
    ensures OwnFates(s') && ReservedOwn(s')
  {
    match step
    case TickResolve(writeFails) => ResolveFate(t, s, s', writeFails);
    case RouteHandOut(id, lvbh) => HandOutFate(t, s, s', id, lvbh);
    case Land(v, info, realTime) => LandFate(t, s, s', v, info, realTime);
    case _ => OtherFate(t, s, s', step);
  }

  lemma SerialStepKeeps(t: Timing, s: State, s': State, step: Step)
    requires InTime(t) && Serial(t, s) && StepBy(t, s, s', step) && SerialStep(s, step)
    ensures Serial(t, s')
  {
    SoundStep(t, s, s', step);
    GraceStays(t, s, s', step);
    StaysOneBusy(t, s, s', step);
    FatesKept(t, s, s', step);
  }

  // ---------------------------------------------------------------------------------
  // Serial runs
  // ---------------------------------------------------------------------------------

  lemma {:induction false} SerialRunKeeps(t: Timing, states: seq<State>, k: nat)
    requires InTime(t) && SerialRun(t, states) && k < |states|
    ensures Serial(t, states[k])
  {
    if k == 0 {
      InitOk(states[0]);
    } else {
      SerialRunKeeps(t, states, k - 1);
      assert SerialAt(t, states, k - 1);
      var step :| StepBy(t, states[k - 1], states[k], step) && SerialStep(states[k - 1], step);
      SerialStepKeeps(t, states[k - 1], states[k], step);
    }
  }

  lemma SerialRunIsRun(t: Timing, states: seq<State>)
    requires SerialRun(t, states)
    ensures Run(t, states)
  {
    forall k | 0 <= k < |states| - 1 ensures StepsAt(t, states, k) {
      assert SerialAt(t, states, k);
    }
  }

  /** Sweeps that were cut short never matter: serial runs are covered. */
  lemma SerialRunIsCovered(t: Timing, states: seq<State>)
    requires InTime(t) && SerialRun(t, states)
    ensures Run(t, states) && CoveredRun(states)
  {
    SerialRunIsRun(t, states);
    forall k | 0 <= k < |states| ensures Covered(states[k]) {
      SerialRunKeeps(t, states, k);
      SerialIsCovered(t, states[k]);
    }
  }

  /** A claim is confirmed with its own payment and no other. */
  lemma ConfirmedByOwnPayment(t: Timing, states: seq<State>, k: nat, v: ClaimId)
    requires InTime(t) && SerialRun(t, states) && k < |states|
    requires v in states[k].db.claims && states[k].db.claims[v].status == Confirmed
    ensures v in states[k].landing && states[k].db.claims[v].txSignature == Some(states[k].landing[v])
  {
    SerialRunKeeps(t, states, k);
    assert ClaimOk(states[k].db.tickets, states[k].now, v, states[k].db.claims[v]);
    assert OwnFate(states[k], v);
  }

  /** Expiry is sound: an expired voucher has not landed, and never will. */
  lemma ExpiredNeverLands(t: Timing, states: seq<State>, j: nat, k: nat, v: ClaimId)
    requires InTime(t) && SerialRun(t, states) && j <= k < |states|
    requires Issued(states[j], v) && (states[j].db.claims[v].status == Expired || states[j].db.claims[v].status == Failed)
    ensures v !in states[k].landing
  {
    SerialRunKeeps(t, states, j);
    assert OwnFate(states[j], v);
    SerialRunIsRun(t, states);
    GoneForGood(t, states, j, k, v);
  }

  /** What the wallet's live voucher, if its payment has landed, is worth. */
  function PendingLanded(s: State, wallet: Wallet): Tx -> int {
    (tx: Tx) => if tx.voucher.Some? && tx.wallet == wallet && Live(s, tx.voucher.value) then tx.amount else 0
  }

  predicate IsPendingPayment(s: State, wallet: Wallet, i: int) {
    0 <= i < |s.chain| && PendingLanded(s, wallet)(s.chain[i]) > 0
  }

  /** What left the vault for a wallet is what its paid-out tickets won plus the one landed payment still pending, if any. */
  ghost predicate Conserved(s: State, wallet: Wallet) {
    && SumBy(LandedAmount(wallet), s.chain) == SumBy(PaidAmount(wallet), s.db.tickets) + SumBy(PendingLanded(s, wallet), s.chain)
    && (forall i, j :: IsPendingPayment(s, wallet, i) && IsPendingPayment(s, wallet, j) ==> i == j)
  }

  /**
   Conservation: in every state of every serial run, however sweeps were cut short or fell behind
   and in whatever order vouchers expire.
   */
  lemma ValueConserved(t: Timing, states: seq<State>, k: nat, wallet: Wallet)
    requires InTime(t) && SerialRun(t, states) && k < |states|
    ensures Conserved(states[k], wallet)
  {
    var s := states[k];
    SerialRunKeeps(t, states, k);
    assert MoneyOk(s, wallet);
    forall i | 0 <= i < |s.chain| ensures UnusedAmount(s.db.claims, wallet)(s.chain[i]) == PendingLanded(s, wallet)(s.chain[i]) {
      if s.chain[i].voucher.Some? {
        UnusedIsPending(s, i);
      }
    }
    SumAgrees(UnusedAmount(s.db.claims, wallet), s.chain, PendingLanded(s, wallet), s.chain);
    forall i, j | IsPendingPayment(s, wallet, i) && IsPendingPayment(s, wallet, j) ensures i == j
    {
      OnePendingPayment(s, i, j);
    }
  }

  lemma OnePendingPayment(s: State, i: int, j: int)
    requires LandingOk(s) && OneBusy(s) && 0 <= i < |s.chain| && 0 <= j < |s.chain|
    requires s.chain[i].voucher.Some? && s.chain[j].voucher.Some? && s.chain[i].wallet == s.chain[j].wallet
    requires Live(s, s.chain[i].voucher.value) && Live(s, s.chain[j].voucher.value)
    ensures i == j
  {
    var u, v := s.chain[i].voucher.value, s.chain[j].voucher.value;
    assert s.landing[u] == i && s.landing[v] == j;
    assert Busy(s, u) && Busy(s, v);
  }

  /** A landed payment is unattributed exactly while its own claim is pending. */
  lemma UnusedIsPending(s: State, i: nat)
    requires CoreOk(s) && OwnFates(s) && i < |s.chain| && s.chain[i].voucher.Some?
    ensures s.chain[i].info.signature == i
    ensures Used(s.db.claims, i) <==> !Live(s, s.chain[i].voucher.value)
  {
    assert TxOk(s.chain, i, s.height);
    var v := s.chain[i].voucher.value;
    assert s.landing[v] == i;
    assert OwnFate(s, v);
    if Used(s.db.claims, i) && Live(s, v) {
      var c :| c in s.db.claims && s.db.claims[c].txSignature == Some(i);
      SignedByItself(s, c, v);
    }
  }
}
