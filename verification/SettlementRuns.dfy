/**
 Settlement with any number of runners in any interleaving, crashes included, while other workers
 move graded tickets on: every ticket ends up with the grade it would get on its own.
 */
module SettlementRuns {
  import opened Wrappers
  import opened PayoutDb
  import opened PrizeTiers
  import opened Settlement

  type RunnerId = int

  /** What a runner is about to do with its epoch. */
  datatype Runner = Reading(epoch: Epoch) | Holding(epoch: Epoch, page: seq<Position>) | Finishing(epoch: Epoch)

  datatype State = State(tickets: seq<Row>, settled: set<Epoch>, runners: map<RunnerId, Runner>)

  datatype Step =
    | Start(runner: RunnerId, epoch: Epoch)
    | ReadPage(reader: RunnerId, page: seq<Position>)
    | WritePage(writer: RunnerId)
    | Watermark(finisher: RunnerId)
    | Crash(crashed: RunnerId)
    | OrderSucceeds(fulfilled: nat, of: Epoch)
    | MoveOn(moved: nat)

  /** Nobody has read the epoch's last page yet. */
  predicate StillOpen(s: State, e: Epoch) {
    && e !in s.settled
    && forall r :: r in s.runners && s.runners[r].epoch == e ==>
         !s.runners[r].Finishing? && (s.runners[r].Holding? ==> |s.runners[r].page| == TICKET_BATCH)
  }

  /**
   `drawings` are the stored epochs, which do not change.  With `strict`, no order becomes SUCCESS
   for an epoch once its last page has been read; otherwise, only not after its watermark.
   */
  ghost predicate StepBy(drawings: map<Epoch, Drawing>, strict: bool, s: State, s': State, step: Step) {
    match step
    case Start(r, e) =>
      && r !in s.runners && e in drawings && e !in s.settled
      && s' == s.(runners := s.runners[r := Reading(e)])
    case ReadPage(r, page) =>
      && r in s.runners && s.runners[r].Reading? && PageQuery(s.tickets, s.runners[r].epoch, page)
      && s' == s.(runners := s.runners[r := if |page| == 0 then Finishing(s.runners[r].epoch) else Holding(s.runners[r].epoch, page)])
    case WritePage(r) =>
      && r in s.runners && s.runners[r].Holding? && s.runners[r].epoch in drawings
      && (var e, page := s.runners[r].epoch, s.runners[r].page;
          s' == s.(tickets := GradeEach(s.tickets, page, drawings[e]),
                   runners := s.runners[r := if |page| < TICKET_BATCH then Finishing(e) else Reading(e)]))
    case Watermark(r) =>
      && r in s.runners && s.runners[r].Finishing?
      && s' == s.(settled := s.settled + {s.runners[r].epoch}, runners := s.runners - {r})
    case Crash(r) =>
      s' == s.(runners := s.runners - {r})
    case OrderSucceeds(i, e) =>
      && i < |s.tickets| && s.tickets[i].successEpoch == None
      && (if strict then StillOpen(s, e) else e !in s.settled)
      && s' == s.(tickets := s.tickets[i := s.tickets[i].(successEpoch := Some(e))])
    case MoveOn(i) =>
      && i < |s.tickets|
      && (s.tickets[i].winStatus == WonUnclaimed || s.tickets[i].winStatus == WonFreeTicket || s.tickets[i].winStatus == ClaimedOnBase)
      && s' == s.(tickets := s.tickets[i := s.tickets[i].(winStatus :=
           if s.tickets[i].winStatus == ClaimedOnBase then PaidOutOnSolana else ClaimedOnBase)])
  }

  ghost predicate Next(drawings: map<Epoch, Drawing>, strict: bool, s: State, s': State) {
    exists step :: StepBy(drawings, strict, s, s', step)
  }

  ghost predicate Init(s: State) {
    && (forall p :: 0 <= p < |s.tickets| ==> s.tickets[p].winStatus == DrawPending && s.tickets[p].successEpoch == None)
    && s.settled == {} && s.runners == map[]
  }

  ghost predicate StepsAt(drawings: map<Epoch, Drawing>, strict: bool, states: seq<State>, k: int)
    requires 0 <= k < |states| - 1
  {
    Next(drawings, strict, states[k], states[k + 1])
  }

  ghost predicate Run(drawings: map<Epoch, Drawing>, strict: bool, states: seq<State>) {
    && |states| > 0 && Init(states[0])
    && forall k :: 0 <= k < |states| - 1 ==> StepsAt(drawings, strict, states, k)
  }

  // ---------------------------------------------------------------------------------
  // The invariant
  // ---------------------------------------------------------------------------------

  /** The ticket carries exactly its own grade, whatever has happened to it since. */
  predicate CarriesGrade(t: Row, d: Drawing) {
    if PrizeOf(t, d) == 0 then t.winStatus == Lost
    else
      && t.winAmount == PrizeOf(t, d) && t.isFree == (StatusOf(t, d) == WonFreeTicket)
      && (t.winStatus == StatusOf(t, d) || t.winStatus == ClaimedOnBase || t.winStatus == PaidOutOnSolana)
  }

  predicate TicketOk(drawings: map<Epoch, Drawing>, t: Row) {
    t.winStatus != DrawPending ==>
      t.successEpoch.Some? && t.successEpoch.value in drawings && CarriesGrade(t, drawings[t.successEpoch.value])
  }

  /** A page holds tickets of its epoch only. */
  ghost predicate PageOk(tickets: seq<Row>, e: Epoch, page: seq<Position>) {
    forall p :: p in page ==> 0 <= p < |tickets| && tickets[p].successEpoch == Some(e)
  }

  ghost predicate CoversPending(tickets: seq<Row>, e: Epoch, page: seq<Position>) {
    forall p :: 0 <= p < |tickets| && Gradable(tickets[p], e) ==> p in page
  }

  ghost predicate RunnerOk(drawings: map<Epoch, Drawing>, strict: bool, s: State, r: Runner) {
    && r.epoch in drawings
    && (r.Holding? ==> PageOk(s.tickets, r.epoch, r.page))
    && (strict ==>
          && (r.Holding? && |r.page| < TICKET_BATCH ==> CoversPending(s.tickets, r.epoch, r.page))
          && (r.Finishing? ==> NonePending(s.tickets, r.epoch)))
  }

  ghost predicate Inv(drawings: map<Epoch, Drawing>, strict: bool, s: State) {
    && (forall p :: 0 <= p < |s.tickets| ==> TicketOk(drawings, s.tickets[p]))
    && (forall r :: r in s.runners ==> RunnerOk(drawings, strict, s, s.runners[r]))
    && (strict ==> forall e :: e in s.settled ==> NonePending(s.tickets, e))
  }

  lemma GradeCarries(t: Row, d: Drawing)
    ensures CarriesGrade(Graded(t, d), d) && Graded(t, d).winStatus != DrawPending && Graded(t, d).successEpoch == t.successEpoch
  {
  }

  /** Nothing a runner knows is spoiled as long as tickets keep their epochs and none becomes pending. */
  lemma RunnersKeep(drawings: map<Epoch, Drawing>, strict: bool, s: State, s': State, r: Runner)
    requires RunnerOk(drawings, strict, s, r) && |s'.tickets| == |s.tickets|
    requires forall p :: 0 <= p < |s.tickets| && s.tickets[p].successEpoch.Some? ==> s'.tickets[p].successEpoch == s.tickets[p].successEpoch
    requires forall p :: 0 <= p < |s.tickets| && Gradable(s'.tickets[p], r.epoch) ==> Gradable(s.tickets[p], r.epoch)
    ensures RunnerOk(drawings, strict, s', r)
  {
  }

  lemma ReadKeeps(drawings: map<Epoch, Drawing>, strict: bool, s: State, s': State, r: RunnerId, page: seq<Position>)
    requires Inv(drawings, strict, s) && StepBy(drawings, strict, s, s', ReadPage(r, page))
    ensures Inv(drawings, strict, s')
  {
  }

  lemma WriteKeeps(drawings: map<Epoch, Drawing>, strict: bool, s: State, s': State, r: RunnerId)
    requires Inv(drawings, strict, s) && StepBy(drawings, strict, s, s', WritePage(r))
    ensures Inv(drawings, strict, s')
  {
    var e, page := s.runners[r].epoch, s.runners[r].page;
    assert RunnerOk(drawings, strict, s, s.runners[r]);
    forall p | 0 <= p < |s.tickets|
      ensures TicketOk(drawings, s'.tickets[p]) && s'.tickets[p].successEpoch == s.tickets[p].successEpoch
      ensures s'.tickets[p].winStatus == DrawPending ==> s.tickets[p].winStatus == DrawPending && p !in page
    {
      GradeCarries(s.tickets[p], drawings[e]);
      assert TicketOk(drawings, s.tickets[p]);
    }
    forall q | q in s'.runners ensures RunnerOk(drawings, strict, s', s'.runners[q]) {
      if q != r {
        assert RunnerOk(drawings, strict, s, s.runners[q]);
        RunnersKeep(drawings, strict, s, s', s.runners[q]);
      }
    }
  }

  lemma SucceedKeeps(drawings: map<Epoch, Drawing>, strict: bool, s: State, s': State, i: nat, e: Epoch)
    requires Inv(drawings, strict, s) && StepBy(drawings, strict, s, s', OrderSucceeds(i, e))
    ensures Inv(drawings, strict, s')
  {
  }

  lemma MoveOnKeeps(drawings: map<Epoch, Drawing>, strict: bool, s: State, s': State, i: nat)
    requires Inv(drawings, strict, s) && StepBy(drawings, strict, s, s', MoveOn(i))
    ensures Inv(drawings, strict, s')
  {
  }

  lemma QuietKeeps(drawings: map<Epoch, Drawing>, strict: bool, s: State, s': State, step: Step)
    requires Inv(drawings, strict, s) && StepBy(drawings, strict, s, s', step)
    requires step.Start? || step.Watermark? || step.Crash?
    ensures Inv(drawings, strict, s')
  {
  }

  lemma StepKeeps(drawings: map<Epoch, Drawing>, strict: bool, s: State, s': State, step: Step)
    requires Inv(drawings, strict, s) && StepBy(drawings, strict, s, s', step)
    ensures Inv(drawings, strict, s')
  {
    match step
    case ReadPage(r, page) => ReadKeeps(drawings, strict, s, s', r, page);
    case WritePage(r) => WriteKeeps(drawings, strict, s, s', r);
    case OrderSucceeds(i, e) => SucceedKeeps(drawings, strict, s, s', i, e);
    case MoveOn(i) => MoveOnKeeps(drawings, strict, s, s', i);
    case _ => QuietKeeps(drawings, strict, s, s', step);
  }

  lemma {:induction false} RunKeeps(drawings: map<Epoch, Drawing>, strict: bool, states: seq<State>, k: nat)
    requires Run(drawings, strict, states) && k < |states|
    ensures Inv(drawings, strict, states[k])
  {
    if k > 0 {
      RunKeeps(drawings, strict, states, k - 1);
      assert StepsAt(drawings, strict, states, k - 1);
      var step :| StepBy(drawings, strict, states[k - 1], states[k], step);
      StepKeeps(drawings, strict, states[k - 1], states[k], step);
    }
  }

  /** In any interleaving, a ticket that has left DRAW_PENDING carries exactly the grade it gets on its own. */
  lemma EveryTicketGradedAlone(drawings: map<Epoch, Drawing>, strict: bool, states: seq<State>, k: nat, p: nat)
    requires Run(drawings, strict, states) && k < |states| && p < |states[k].tickets|
    requires states[k].tickets[p].winStatus != DrawPending
    ensures var t := states[k].tickets[p];
      t.successEpoch.Some? && t.successEpoch.value in drawings && CarriesGrade(t, drawings[t.successEpoch.value])
  {
    RunKeeps(drawings, strict, states, k);
    assert TicketOk(drawings, states[k].tickets[p]);
  }

  /** Once an epoch carries its watermark, every one of its SUCCESS tickets is graded. */
  lemma SettledMeansGraded(drawings: map<Epoch, Drawing>, states: seq<State>, k: nat, p: nat, e: Epoch)
    requires Run(drawings, true, states) && k < |states| && p < |states[k].tickets|
    requires e in states[k].settled && states[k].tickets[p].successEpoch == Some(e)
    ensures e in drawings && CarriesGrade(states[k].tickets[p], drawings[e])
  {
    RunKeeps(drawings, true, states, k);
    assert !Gradable(states[k].tickets[p], e);
    assert TicketOk(drawings, states[k].tickets[p]);
  }

  // ---------------------------------------------------------------------------------
  // An order that succeeds too late
  // ---------------------------------------------------------------------------------

  /** Holding back only after the watermark is not enough: an order that succeeds just before it is missed. */
  lemma LateSuccessIsMissed(e: Epoch, d: Drawing) returns (states: seq<State>)
    ensures Run(map[e := d], false, states)
    ensures var last := states[|states| - 1];
      e in last.settled && |last.tickets| == 1 && Gradable(last.tickets[0], e)
  {
    var drawings := map[e := d];
    var t := Row([1, 2, 3, 4, 5], 6, DrawPending, 0, false, None);
    var s0 := State([t], {}, map[]);
    var s1 := State([t], {}, map[0 := Reading(e)]);
    var s2 := State([t], {}, map[0 := Finishing(e)]);
    var s3 := State([t.(successEpoch := Some(e))], {}, map[0 := Finishing(e)]);
    var s4 := State([t.(successEpoch := Some(e))], {e}, map[]);
    states := [s0, s1, s2, s3, s4];
    assert s1.runners == s0.runners[0 := Reading(e)];
    assert StepBy(drawings, false, s0, s1, Start(0, e));
    assert StepBy(drawings, false, s1, s2, ReadPage(0, []));
    assert StepBy(drawings, false, s2, s3, OrderSucceeds(0, e));
    assert s4.runners == s3.runners - {0};
    assert StepBy(drawings, false, s3, s4, Watermark(0));
    forall k | 0 <= k < |states| - 1 ensures StepsAt(drawings, false, states, k) {
    }
  }

  // ---------------------------------------------------------------------------------
  // From Megapot's table to the ticket
  // ---------------------------------------------------------------------------------

  /** What a tier pays before the referral share; nothing for tier 0 or a tier not listed. */
  ghost predicate Pays(raws: seq<RawTier>, tier: int, raw: int) {
    if exists i :: 0 <= i < |raws| && raws[i].tierId == tier && tier != 0
    then exists i :: 0 <= i < |raws| && raws[i].tierId == tier && raws[i].amount == raw
    else raw == 0
  }

  /**
   The whole way: a table written out, stored, read back and used to grade.  A ticket is lost
   exactly when its tier pays nothing, and otherwise wins nine tenths of the prize, rounded up.
   */
  lemma PrizeReachesTicket(raws: seq<RawTier>, t: Row, winningNormals: set<int>, winningBonus: int, tier: int, raw: nat)
    requires DistinctIds(raws) && Usable(raws)
    requires tier == 2 * |set i | 0 <= i < |t.normals| && t.normals[i] in winningNormals| + if t.bonus == winningBonus then 1 else 0
    requires Pays(raws, tier, raw)
    ensures var d := Drawing(winningNormals, winningBonus, StoredTable(raws));
      && raw - raw / 10 == (9 * raw + 9) / 10
      && Graded(t, d) ==
         if raw == 0 then t.(winStatus := Lost)
         else t.(winStatus := if tier == 1 || tier == 4 then WonFreeTicket else WonUnclaimed,
                 winAmount := raw - raw / 10, isFree := tier == 1 || tier == 4)
  {
    var d := Drawing(winningNormals, winningBonus, StoredTable(raws));
    ReadBack(raws);
    NetIsNineTenths(raw);
    GradeMeans(t, d);
    MatchesCounted(winningNormals, t.normals);
    PrizeIsNet(raws, t, d, raw);
  }

  lemma PrizeIsNet(raws: seq<RawTier>, t: Row, d: Drawing, raw: nat)
    requires DistinctIds(raws) && Mirrors(raws, d.tiers) && Pays(raws, TierId(t, d), raw)
    requires 0 <= ApplyReferralShare(raw)
    ensures PrizeOf(t, d) == ApplyReferralShare(raw)
  {
  }
}
