/**
 One epoch's turn of a harvest tick (backend/src/workers/harvestWorker.ts, resolveInFlightBatch
 and harvestEpochStep) on live tables, and why it is a path of the harvest protocol.
 */
module HarvestWorker {
  import opened Wrappers
  import opened Sums
  import opened PayoutDb
  import opened Bisect
  import opened Harvest
  import opened HarvestSafety

  /** Some steps lead from one state to the other. */
  ghost predicate Leads(s: State, s': State) {
    exists path :: Path(path, s, s')
  }

  ghost predicate Path(path: seq<State>, s: State, s': State) {
    && |path| > 0 && path[0] == s && path[|path| - 1] == s'
    && forall k :: 0 <= k < |path| - 1 ==> StepsAt(path, k)
  }

  lemma NoStep(s: State)
    ensures Leads(s, s)
  {
    assert Path([s], s, s);
  }

  lemma OneMore(s: State, s1: State, s2: State, step: Step)
    requires Leads(s, s1) && StepBy(s1, s2, step)
    ensures Leads(s, s2)
  {
    var path :| Path(path, s, s1);
    var longer := path + [s2];
    assert Next(s1, s2);
    forall k | 0 <= k < |longer| - 1 ensures StepsAt(longer, k) {
      if k < |path| - 1 {
        assert StepsAt(path, k);
      }
    }
    assert Path(longer, s, s2);
  }

  /** `findFirst` of the epoch's SUBMITTED batches. */
  ghost predicate FirstInFlight(s: State, e: Epoch, found: Option<BatchId>) {
    if found.Some? then InFlight(s, e, found.value) else forall b :: !InFlight(s, e, b)
  }

  predicate CanMeet(batch: Batch, fate: Fate) {
    (fate.Dropped? ==> batch.hasHash) && (fate.Resubmitted? ==> !batch.hasHash)
  }

  function Resolved(s: State, b: BatchId, fate: Fate): State
    requires b in s.batches
  {
    match fate
    case Busy => s
    case Resubmitted => s.(batches := s.batches[b := s.batches[b].(hasHash := true)])
    case Succeeded => Finalize(s, b)
    case Dropped => Release(s, b)
  }

  /** The fate's writes: only a success makes prizes payable, a dropped batch gives its tickets back. */
  ghost predicate FateWritten(s: State, s': State, b: BatchId, fate: Fate)
    requires b in s.batches
  {
    && s'.nextBatch == s.nextBatch && s'.settled == s.settled && s'.harvested == s.harvested && s'.quarantine == s.quarantine
    && |s'.tickets| == |s.tickets|
    && (fate == Busy ==> s'.tickets == s.tickets && s'.batches == s.batches)
    && (fate == Resubmitted ==> s'.tickets == s.tickets && s'.batches == s.batches[b := s.batches[b].(hasHash := true)])
    && (fate == Succeeded ==>
          && s'.batches == s.batches[b := s.batches[b].(status := BatchStatus.Confirmed, hasHash := true)]
          && forall p :: 0 <= p < |s.tickets| ==>
               var t := s.tickets[p];
               s'.tickets[p] == if t.batch == Some(b) && (t.winStatus == WonUnclaimed || t.winStatus == WonFreeTicket)
                                then t.(winStatus := ClaimedOnBase) else t)
    && (fate == Dropped ==>
          && s'.batches == s.batches[b := s.batches[b].(status := BatchStatus.Failed)]
          && forall p :: 0 <= p < |s.tickets| ==>
               s'.tickets[p] == if s.tickets[p].batch == Some(b) then s.tickets[p].(batch := None) else s.tickets[p])
  }

  lemma ResolvedMeans(s: State, b: BatchId, fate: Fate)
    requires b in s.batches
    ensures FateWritten(s, Resolved(s, b, fate), b, fate)
  {
  }

  lemma ResolvingIsAPath(s: State, e: Epoch, b: BatchId, fate: Fate)
    requires s.pc.Idle? && e in s.settled && e !in s.harvested && InFlight(s, e, b) && CanMeet(s.batches[b], fate)
    ensures Leads(s, Resolved(s, b, fate))
  {
    NoStep(s);
    OneMore(s, s, s.(pc := Checking(e)), Begin(e));
    OneMore(s, s.(pc := Checking(e)), Resolved(s, b, fate), Resolve(b, fate));
  }

  lemma BuildingIsAPath(s: State, e: Epoch)
    requires s.pc.Idle? && e in s.settled && e !in s.harvested && FirstInFlight(s, e, None)
    ensures Leads(s, s.(pc := Building(e)))
  {
    NoStep(s);
    OneMore(s, s, s.(pc := Checking(e)), Begin(e));
    assert forall b :: InFlight(s.(pc := Checking(e)), e, b) <==> InFlight(s, e, b);
    OneMore(s, s.(pc := Checking(e)), s.(pc := Building(e)), ResolveNone);
  }

  ghost predicate SomeOwed(s: State, e: Epoch) {
    exists p :: 0 <= p < |s.tickets| && Owed(s.tickets[p], e)
  }

  lemma WatermarkIsAPath(s: State, e: Epoch, page: seq<TicketPos>)
    requires s.pc.Idle? && Leads(s, s.(pc := Building(e)))
    requires HarvestQuery(s.tickets, e, page) && NotQuarantined(page, s.quarantine) == []
    ensures Leads(s, if SomeOwed(s, e) then s else s.(harvested := s.harvested + {e}))
  {
    OneMore(s, s.(pc := Building(e)), s.(pc := Auditing(e)), Query(page, (b: seq<TicketPos>) => true));
    if SomeOwed(s, e) {
      OneMore(s, s.(pc := Auditing(e)), s, Audit);
    } else {
      OneMore(s, s.(pc := Auditing(e)), s.(pc := Clear(e)), Audit);
      OneMore(s, s.(pc := Clear(e)), s.(harvested := s.harvested + {e}), Step.Watermark);
    }
  }

  lemma SomeHarvestable(page: seq<TicketPos>, quarantine: set<TicketPos>)
    requires HarvestSafety.Distinct(page)
    ensures NotQuarantined(page, quarantine) == [] <==> forall i :: 0 <= i < |page| ==> page[i] in quarantine
  {
    SelectInOrder(page, (t: TicketPos) => t in quarantine, false);
    if NotQuarantined(page, quarantine) != [] {
      assert NotQuarantined(page, quarantine)[0] in NotQuarantined(page, quarantine);
    } else {
      forall i | 0 <= i < |page| ensures page[i] in quarantine {
        assert page[i] in page;
      }
    }
  }

  /** The batch the runner builds for the good tickets, before its broadcast. */
  function Built(s: State, e: Epoch, good: seq<TicketPos>): State {
    Bind(s.(batches := s.batches[s.nextBatch := Batch(e, Submitted, false, SumBy(AmountOf(s.tickets), good))], nextBatch := s.nextBatch + 1),
         good, s.nextBatch)
  }

  function Quarantined(s: State, v: Verdict): State {
    s.(quarantine := s.quarantine + (set t | t in v.bad))
  }

  lemma RehearsalIsAPath(s: State, e: Epoch, page: seq<TicketPos>, rehearse: seq<TicketPos> -> bool)
    requires s.pc.Idle? && Leads(s, s.(pc := Building(e)))
    requires HarvestQuery(s.tickets, e, page) && |NotQuarantined(page, s.quarantine)| > 0
    ensures var v := BisectClaimable(Chunk(NotQuarantined(page, s.quarantine)), rehearse);
      Leads(s, Quarantined(s, v).(pc := if |v.good| == 0 then Idle else Chosen(e, v.good)))
  {
    var v := BisectClaimable(Chunk(NotQuarantined(page, s.quarantine)), rehearse);
    OneMore(s, s.(pc := Building(e)), Quarantined(s, v).(pc := if |v.good| == 0 then Idle else Chosen(e, v.good)), Query(page, rehearse));
  }

  lemma BuiltIsAPath(s0: State, s: State, e: Epoch, good: seq<TicketPos>)
    requires s.pc.Idle? && Leads(s0, s.(pc := Chosen(e, good))) && GoodOk(s, e, good)
    ensures Leads(s0, Built(s, e, good).(pc := BoundBatch(e, s.nextBatch)))
    ensures Leads(s0, Built(s, e, good))
  {
    var b := s.nextBatch;
    var s1 := s.(batches := s.batches[b := Batch(e, Submitted, false, SumBy(AmountOf(s.tickets), good))], nextBatch := b + 1);
    OneMore(s0, s.(pc := Chosen(e, good)), s1.(pc := Created(e, good, b)), CreateBatch);
    BindsOne(s1, good, e, b);
    var s2 := Built(s, e, good).(pc := BoundBatch(e, b));
    OneMore(s0, s1.(pc := Created(e, good, b)), s2, Step.BindTickets);
    OneMore(s0, s2, Built(s, e, good), Stop);
  }

  /**
   What the turn does when nothing is in flight.  With every listed ticket in quarantine, no row changes.
   Otherwise the first fifty others are rehearsed; those that failed join the quarantine, and the
   rest, if any, are bound to one new batch that is worth exactly what they won.
   */
  ghost predicate BatchBuilt(s: State, s': State, e: Epoch, page: seq<TicketPos>, rehearse: seq<TicketPos> -> bool, sent: bool) {
    var chunk := Chunk(NotQuarantined(page, s.quarantine));
    var v := BisectClaimable(chunk, rehearse);
    && FirstFifty(page, s.quarantine, chunk)
    && ((forall i :: 0 <= i < |page| ==> page[i] in s.quarantine) ==>
          s'.tickets == s.tickets && s'.batches == s.batches && s'.quarantine == s.quarantine)
    && ((exists i :: 0 <= i < |page| && page[i] !in s.quarantine) ==>
          && s'.quarantine == s.quarantine + (set t | t in v.bad)
          && |s'.tickets| == |s.tickets|
          && (forall p :: 0 <= p < |s.tickets| ==>
                s'.tickets[p] == if p in v.good then s.tickets[p].(batch := Some(s.nextBatch)) else s.tickets[p])
          && s'.batches == if |v.good| == 0 then s.batches
               else s.batches[s.nextBatch :=
                 Batch(e, Submitted, sent, SumBy((p: TicketPos) => if 0 <= p < |s.tickets| then s.tickets[p].winAmount else 0, v.good))])
  }

  /** Building a batch binds the good tickets to it and to nothing else; it is worth what they won. */
  lemma BuiltMeans(s: State, e: Epoch, good: seq<TicketPos>)
    requires GoodOk(s, e, good)
    ensures |Built(s, e, good).tickets| == |s.tickets|
    ensures forall p :: 0 <= p < |s.tickets| ==>
      Built(s, e, good).tickets[p] == if p in good then s.tickets[p].(batch := Some(s.nextBatch)) else s.tickets[p]
    ensures SumBy(AmountOf(s.tickets), good) == SumBy((p: TicketPos) => if 0 <= p < |s.tickets| then s.tickets[p].winAmount else 0, good)
  {
    SumAgrees(AmountOf(s.tickets), good, (p: TicketPos) => if 0 <= p < |s.tickets| then s.tickets[p].winAmount else 0, good);
  }

  lemma BatchBuiltMeans(s: State, s': State, e: Epoch, page: seq<TicketPos>, rehearse: seq<TicketPos> -> bool, sent: bool)
    requires HarvestSafety.Distinct(page) && NotQuarantined(page, s.quarantine) != []
    requires var v := BisectClaimable(Chunk(NotQuarantined(page, s.quarantine)), rehearse);
      && s'.quarantine == Quarantined(s, v).quarantine
      && (|v.good| == 0 ==> s'.tickets == s.tickets && s'.batches == s.batches)
      && (|v.good| > 0 ==>
            && GoodOk(Quarantined(s, v), e, v.good) && s'.tickets == Built(Quarantined(s, v), e, v.good).tickets
            && s'.batches == s.batches[s.nextBatch := Batch(e, Submitted, sent, SumBy(AmountOf(s.tickets), v.good))])
    ensures BatchBuilt(s, s', e, page, rehearse, sent)
  {
    ChunkIsFirst(page, s.quarantine);
    SomeHarvestable(page, s.quarantine);
    var v := BisectClaimable(Chunk(NotQuarantined(page, s.quarantine)), rehearse);
    if |v.good| > 0 {
      BuiltMeans(Quarantined(s, v), e, v.good);
    }
  }

  class HarvestTables {
    var tickets: seq<Row>
    var batches: map<BatchId, Batch>
    var nextBatch: nat
    var settled: set<Epoch>
    var harvested: set<Epoch>
    var quarantine: set<TicketPos>

    function Contents(): State
      reads this
    {
      State(tickets, batches, nextBatch, settled, harvested, quarantine, Idle)
    }

    constructor (s: State)
      ensures Contents() == s.(pc := Idle)
    {
      tickets, batches, nextBatch := s.tickets, s.batches, s.nextBatch;
      settled, harvested, quarantine := s.settled, s.harvested, s.quarantine;
    }

    method FinalizeBatchSuccess(b: BatchId)
      requires b in batches
      modifies this
      ensures Contents() == Finalize(old(Contents()), b)
    {
      var s := Finalize(Contents(), b);
      tickets, batches := s.tickets, s.batches;
    }

    method ReleaseBatch(b: BatchId)
      requires b in batches
      modifies this
      ensures Contents() == Release(old(Contents()), b)
    {
      var s := Release(Contents(), b);
      tickets, batches := s.tickets, s.batches;
    }

    /** True when the epoch still has a batch in flight, or had one just now. */
    method ResolveInFlightBatch(e: Epoch, found: Option<BatchId>, fate: Fate) returns (busy: bool)
      requires FirstInFlight(Contents(), e, found) && e in settled && e !in harvested
      requires found.Some? ==> CanMeet(batches[found.value], fate)
      modifies this
      ensures busy == found.Some?
      ensures Contents() == if found.Some? then Resolved(old(Contents()), found.value, fate) else old(Contents())
      ensures if busy then FateWritten(old(Contents()), Contents(), found.value, fate) else Contents() == old(Contents())
      ensures forall p :: 0 <= p < |tickets| && tickets[p].winStatus == ClaimedOnBase && old(tickets)[p].winStatus != ClaimedOnBase ==>
        busy && fate == Succeeded && old(tickets)[p].batch == found
      ensures busy ==> Leads(old(Contents()), Contents())
    {
      if found.None? {
        return false;
      }
      var b := found.value;
      ResolvedMeans(Contents(), b, fate);
      ResolvingIsAPath(Contents(), e, b, fate);
      match fate {
        case Busy =>
        case Resubmitted => batches := batches[b := batches[b].(hasHash := true)];
        case Succeeded => FinalizeBatchSuccess(b);
        case Dropped => ReleaseBatch(b);
      }
      busy := true;
    }

    /** Binds the good tickets to a new batch, then broadcasts it. */
    method SubmitBatch(e: Epoch, good: seq<TicketPos>, sent: bool, ghost start: State)
      requires GoodOk(Contents(), e, good) && Leads(start, Contents().(pc := Chosen(e, good)))
      modifies this
      ensures tickets == Built(old(Contents()), e, good).tickets
      ensures batches == old(batches)[old(nextBatch) := Batch(e, Submitted, sent, SumBy(AmountOf(old(tickets)), good))]
      ensures settled == old(settled) && harvested == old(harvested) && quarantine == old(quarantine)
      ensures Leads(start, Contents())
    {
      BuiltIsAPath(start, Contents(), e, good);
      var b := nextBatch;
      batches, nextBatch := batches[b := Batch(e, Submitted, false, SumBy(AmountOf(tickets), good))], nextBatch + 1;
      tickets := Bind(Contents(), good, b).tickets;
      ghost var built := Contents();
      if sent {
        batches := batches[b := batches[b].(hasHash := true)];
        OneMore(start, built.(pc := BoundBatch(e, b)), Contents(), Step.Broadcast);
      }
    }

    /**
     The epoch's turn.  `page` answers the harvest query, `owed` whether the quarantine-blind
     query finds anything, and `sent` is false when the broadcast throws.
     */
    method HarvestEpochStep(
        e: Epoch,
        found: Option<BatchId>,
        fate: Fate,
        page: seq<TicketPos>,
        owed: bool,
        rehearse: seq<TicketPos> -> bool,
        sent: bool)
      requires FirstInFlight(Contents(), e, found) && e in settled && e !in harvested
      requires found.Some? ==> CanMeet(batches[found.value], fate)
      requires HarvestQuery(tickets, e, page) && owed == SomeOwed(Contents(), e)
      modifies this
      ensures Leads(old(Contents()), Contents())
      ensures found.Some? ==> FateWritten(old(Contents()), Contents(), found.value, fate)
      ensures settled == old(settled)
      ensures harvested == if found.None? && (forall i :: 0 <= i < |page| ==> page[i] in old(quarantine)) && !owed
                           then old(harvested) + {e} else old(harvested)
      ensures found.None? ==> BatchBuilt(old(Contents()), Contents(), e, page, rehearse, sent)
    {
      var busy := ResolveInFlightBatch(e, found, fate);
      if busy {
        return;
      }
      BuildingIsAPath(Contents(), e);
      BuildBatch(e, page, owed, rehearse, sent);
    }

    /** The rest of the turn, once nothing is in flight. */
    method BuildBatch(e: Epoch, page: seq<TicketPos>, owed: bool, rehearse: seq<TicketPos> -> bool, sent: bool)
      requires FirstInFlight(Contents(), e, None) && e in settled && e !in harvested
      requires HarvestQuery(tickets, e, page) && owed == SomeOwed(Contents(), e)
      requires Leads(Contents(), Contents().(pc := Building(e)))
      modifies this
      ensures Leads(old(Contents()), Contents())
      ensures settled == old(settled)
      ensures harvested == if (forall i :: 0 <= i < |page| ==> page[i] in old(quarantine)) && !owed
                           then old(harvested) + {e} else old(harvested)
      ensures BatchBuilt(old(Contents()), Contents(), e, page, rehearse, sent)
    {
      ghost var s := Contents();
      ChunkIsFirst(page, quarantine);
      SomeHarvestable(page, quarantine);
      var harvestable := NotQuarantined(page, quarantine);
      if |harvestable| == 0 {
        WatermarkIsAPath(s, e, page);
        if !owed {
          harvested := harvested + {e};
        }
        return;
      }
      RehearsalIsAPath(s, e, page, rehearse);
      var v := BisectClaimable(Chunk(harvestable), rehearse);
      quarantine := quarantine + (set t | t in v.bad);
      if |v.good| > 0 {
        GoodIsListed(s, e, page, rehearse);
        SubmitBatch(e, v.good, sent, s);
      }
      BatchBuiltMeans(s, Contents(), e, page, rehearse, sent);
    }
  }
}
