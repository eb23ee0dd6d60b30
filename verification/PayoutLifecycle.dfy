/**
 What holds of every interleaving of settlement, harvest, voucher requests and the confirmer:
 a ticket's status only advances, what it won is fixed once graded, and a paid-out ticket stays
 with the claim that paid it.
 */
module PayoutLifecycle {
  import opened Wrappers
  import opened PayoutDb
  import opened Sums
  import opened PayoutConfirmer
  import opened PayoutProtocol
  import opened PayoutInvariants
  import opened PayoutEveryRun
  import opened PayoutSafety

  // ---------------------------------------------------------------------------------
  // Tickets only advance
  // ---------------------------------------------------------------------------------

  /** One move along DRAW_PENDING -> LOST / WON -> CLAIMED_ON_BASE -> PAID_OUT. */
  predicate Moves(a: WinStatus, b: WinStatus) {
    match a
    case DrawPending => b == Lost || b == WonUnclaimed || b == WonFreeTicket
    case WonUnclaimed => b == ClaimedOnBase
    case WonFreeTicket => b == ClaimedOnBase
    case ClaimedOnBase => b == PaidOutOnSolana
    case _ => false
  }

  function Rank(w: WinStatus): nat {
    match w
    case DrawPending => 0
    case Lost => 1
    case WonUnclaimed => 1
    case WonFreeTicket => 1
    case ClaimedOnBase => 2
    case PaidOutOnSolana => 3
  }

  predicate Stepped(a: Ticket, b: Ticket) {
    && b.buyer == a.buyer && b.fulfillEpoch == a.fulfillEpoch
    && (a.winStatus == b.winStatus || Moves(a.winStatus, b.winStatus))
    && (a.winStatus != DrawPending ==> b.winAmount == a.winAmount)
  }

  /** No step moves a ticket backwards, skips a stage or reprices a graded ticket. */
  lemma TicketSteps(t: Timing, s: State, s': State, step: Step)
    requires StepBy(t, s, s', step)
    ensures |s'.db.tickets| == |s.db.tickets|
    ensures forall i :: 0 <= i < |s.db.tickets| ==> Stepped(s.db.tickets[i], s'.db.tickets[i])
  {
  }

  /** Over any stretch of a run: never back, lost stays lost, and graded means priced for good. */
  predicate Advanced(a: Ticket, b: Ticket) {
    && b.buyer == a.buyer && b.fulfillEpoch == a.fulfillEpoch
    && Rank(a.winStatus) <= Rank(b.winStatus)
    && (Rank(a.winStatus) == Rank(b.winStatus) ==> a.winStatus == b.winStatus)
    && (a.winStatus == Lost ==> b.winStatus == Lost)
    && (a.winStatus != DrawPending ==> b.winAmount == a.winAmount)
  }

  lemma AdvanceThenStep(a: Ticket, b: Ticket, c: Ticket)
    requires Advanced(a, b) && Stepped(b, c)
    ensures Advanced(a, c)
  {
  }

  lemma {:induction false} TicketsAdvance(t: Timing, states: seq<State>, j: nat, k: nat, i: nat)
    requires Run(t, states) && j <= k < |states| && i < |states[j].db.tickets|
    ensures i < |states[k].db.tickets| && Advanced(states[j].db.tickets[i], states[k].db.tickets[i])
  {
    if j < k {
      TicketsAdvance(t, states, j, k - 1, i);
      NextAdvances(t, states, k, i);
      AdvanceThenStep(states[j].db.tickets[i], states[k - 1].db.tickets[i], states[k].db.tickets[i]);
    }
  }

  lemma NextAdvances(t: Timing, states: seq<State>, k: nat, i: nat)
    requires Run(t, states) && 0 < k < |states| && i < |states[k - 1].db.tickets|
    ensures i < |states[k].db.tickets| && Stepped(states[k - 1].db.tickets[i], states[k].db.tickets[i])
  {
    assert StepsAt(t, states, k - 1);
    var step :| StepBy(t, states[k - 1], states[k], step);
    TicketSteps(t, states[k - 1], states[k], step);
  }

  // ---------------------------------------------------------------------------------
  // Paid out once, for good
  // ---------------------------------------------------------------------------------

  /** The ticket is paid, by the one claim that carries a landed payment of exactly what that claim's tickets won. */
  ghost predicate PaidBy(s: State, i: nat, id: ClaimId) {
    && i < |s.db.tickets| && s.db.tickets[i].winStatus == PaidOutOnSolana && s.db.tickets[i].payoutClaimId == Some(id)
    && id in s.db.claims && s.db.claims[id].status == Confirmed && s.db.claims[id].txSignature.Some?
    && (forall c :: c in s.db.claims && s.db.claims[c].txSignature == s.db.claims[id].txSignature ==> c == id)
    && PaymentOf(s, s.db.claims[id].txSignature.value, s.db.tickets[i].buyer, s.db.claims[id].amountUsdc)
    && s.db.claims[id].amountUsdc == BoundSum(s.db.tickets, id)
  }

  lemma PaidTicketIsPaidBy(t: Timing, s: State, i: nat)
    requires RunTo(t, s)
    requires i < |s.db.tickets| && s.db.tickets[i].winStatus == PaidOutOnSolana
    ensures s.db.tickets[i].payoutClaimId.Some? && PaidBy(s, i, s.db.tickets[i].payoutClaimId.value)
  {
    RunToIsSound(t, s);
    assert TicketOk(s.db.claims, s.db.tickets[i]);
    var id := s.db.tickets[i].payoutClaimId.value;
    assert ClaimOk(s.db.tickets, s.now, id, s.db.claims[id]);
  }

  /** Handed out and not expired: the amount signed is exactly what the bound tickets won. */
  lemma VoucherWorth(t: Timing, s: State, id: ClaimId)
    requires RunTo(t, s)
    requires Issued(s, id) && (s.db.claims[id].status == Pending || s.db.claims[id].status == Confirmed)
    ensures s.db.claims[id].amountUsdc
            == SumBy((row: Ticket) => if row.payoutClaimId == Some(id) then row.winAmount else 0, s.db.tickets) > 0
  {
    SumAgrees((row: Ticket) => if row.payoutClaimId == Some(id) then row.winAmount else 0, s.db.tickets, BoundAmount(id), s.db.tickets);
    RunToIsSound(t, s);
    assert ClaimOk(s.db.tickets, s.now, id, s.db.claims[id]);
  }

  /** No step touches a paid ticket. */
  lemma PaidStays(t: Timing, s: State, s': State, step: Step, i: nat)
    requires CoreOk(s) && RowsOk(t, s) && StepBy(t, s, s', step)
    requires i < |s.db.tickets| && i < |s'.db.tickets| && s.db.tickets[i].winStatus == PaidOutOnSolana
    ensures s'.db.tickets[i] == s.db.tickets[i]
  {
    assert TicketOk(s.db.claims, s.db.tickets[i]);
    if step.TickResolve? {
      PaidStaysJudged(t, s, s', step.writeFails, i);
    } else if step.RouteRelease? || step.RouteDelete? {
      PaidStaysBound(s, step.id, i);
    }
  }

  /** A verdict releases only tickets of the row it judges, which is pending. */
  lemma PaidStaysJudged(t: Timing, s: State, s': State, writeFails: bool, i: nat)
    requires TicketsOk(s.db) && RowsOk(t, s) && StepBy(t, s, s', TickResolve(writeFails))
    requires i < |s.db.tickets| && i < |s'.db.tickets| && s.db.tickets[i].winStatus == PaidOutOnSolana
    ensures s'.db.tickets[i] == s.db.tickets[i]
  {
    assert TicketOk(s.db.claims, s.db.tickets[i]);
    assert RowOk(t, s, s.tick.next);
  }

  /** A request under way releases only its own tickets, which are not paid. */
  lemma PaidStaysBound(s: State, id: ClaimId, i: nat)
    requires TicketsOk(s.db) && ClaimsOk(s.db, s.now) && RoutesOk(s) && id in s.routes
    requires i < |s.db.tickets| && s.db.tickets[i].winStatus == PaidOutOnSolana
    ensures UnbindAll(s.db.tickets, id)[i] == s.db.tickets[i]
  {
    assert TicketOk(s.db.claims, s.db.tickets[i]);
    assert ClaimOk(s.db.tickets, s.now, id, s.db.claims[id]);
  }

  lemma {:induction false} PaidForGood(t: Timing, states: seq<State>, j: nat, k: nat, i: nat)
    requires Run(t, states) && j <= k < |states|
    requires i < |states[j].db.tickets| && states[j].db.tickets[i].winStatus == PaidOutOnSolana
    ensures i < |states[k].db.tickets| && states[k].db.tickets[i] == states[j].db.tickets[i]
  {
    if j < k {
      PaidForGood(t, states, j, k - 1, i);
      PaidNext(t, states, k, i);
    }
  }

  lemma PaidNext(t: Timing, states: seq<State>, k: nat, i: nat)
    requires Run(t, states) && 0 < k < |states|
    requires i < |states[k - 1].db.tickets| && states[k - 1].db.tickets[i].winStatus == PaidOutOnSolana
    ensures i < |states[k].db.tickets| && states[k].db.tickets[i] == states[k - 1].db.tickets[i]
  {
    RunIsSound(t, states, k - 1);
    assert StepsAt(t, states, k - 1);
    var step :| StepBy(t, states[k - 1], states[k], step);
    TicketSteps(t, states[k - 1], states[k], step);
    PaidStays(t, states[k - 1], states[k], step, i);
  }

  // ---------------------------------------------------------------------------------
  // Why an unmatched voucher past the buffer is dead
  // ---------------------------------------------------------------------------------

  /** The judged row is a voucher that no listed payment matches, past its last block by more than the buffer. */
  ghost predicate Unmatched(s: State) {
    && Judging(s) && Stamped(Row(s).claim) && s.tick.complete
    && (forall l :: l in s.tick.landed ==> !Matches(l, Row(s).claim))
    && s.tick.height > Row(s).claim.lastValidBlockHeight.value + EXPIRY_BUFFER_BLOCKS
  }

  /**
   In any run at all, as long as the height is read at most 150 blocks after the sweep: a voucher a
   complete sweep lists no match for, more than 150 blocks past its last, has not landed, and is on
   the chain in no later state of the run either.
   */
  lemma UnmatchedIsDead(t: Timing, states: seq<State>, j: nat, k: nat)
    requires t.lag <= EXPIRY_BUFFER_BLOCKS && Run(t, states) && j <= k < |states| && Unmatched(states[j])
    ensures Row(states[j]).id !in states[k].landing
    ensures forall i :: 0 <= i < |states[k].chain| ==> states[k].chain[i].voucher != Some(Row(states[j]).id)
  {
    RunIsSound(t, states, j);
    LandedIsListed(t, states[j]);
    assert RowOk(t, states[j], states[j].tick.next);
    GoneForGood(t, states, j, k, Row(states[j]).id);
    RunIsSound(t, states, k);
  }
}
