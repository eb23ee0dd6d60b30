/**
 Claim vouchers as a protocol: voucher requests, the payout confirmer, the settlement and
 harvest workers and the chain take labelled steps on shared state, in any interleaving.

 Every await in the source is a point where another step may come in between.  A crash is a
 request or a tick that takes no further step.
 */
module PayoutProtocol {
  import opened Wrappers
  import opened LandedClaims
  import opened PayoutDb
  import opened PayoutConfirmer

  /**
   What the deployment promises about time.  `issue` bounds a voucher request (ms), `tickSpan`
   a confirmer tick from its first read to its last decision (ms).  Of two vouchers of one wallet
   and amount, the one created later may expire up to `inversion` blocks before the other, and the
   one handed out later up to `disorder` blocks before the other.  `lag` is how many blocks pass
   between the tip a sweep sees and the height read after it; `steadyView`, that a sweep never
   sees less of the chain than the one before.
   */
  datatype Timing = Timing(issue: nat, tickSpan: nat, inversion: nat, disorder: nat, lag: nat, steadyView: bool)

  /**
   How many blocks a voucher may outlive the claim that stands in for it.  Requests that take no
   time are handed out in the order of creation.
   */
  function Slack(t: Timing): nat {
    t.inversion + if t.issue == 0 then 0 else t.disorder
  }

  /** A request and a tick fit together into the grace of a row that is not a voucher yet. */
  predicate InGrace(t: Timing) {
    t.issue + t.tickSpan <= UNSIGNED_GRACE_MS
  }

  /** The promises fit the constants compiled into the confirmer. */
  predicate Fits(t: Timing) {
    InGrace(t) && Slack(t) + t.lag <= EXPIRY_BUFFER_BLOCKS && t.steadyView
  }

  /** A transaction of the admin key; `voucher` names the claim whose payment it is. */
  datatype Tx = Tx(info: SigInfo, realTime: int, height: nat, voucher: Option<ClaimId>, wallet: Wallet, amount: nat)

  /** How far a voucher request has come, after creating its row. */
  datatype Route = Created | Bound | Summed(amount: int) | Released

  datatype Tick =
    | Idle
    | Read(rows: seq<PendingRow>, readAt: int)
    | Swept(rows: seq<PendingRow>, readAt: int, landed: seq<Landed>, complete: bool, tip: nat, startHeight: nat)
    | Resolving(
        rows: seq<PendingRow>,
        readAt: int,
        landed: seq<Landed>,
        complete: bool,
        tip: nat,
        startHeight: nat,
        height: int,
        used: set<Signature>,
        next: nat,
        reserved: map<ClaimId, Signature>)

  /**
   `ids` are the claim ids ever given out; an id is never given out twice.  `seen` is how far
   the last sweep saw the chain.
   */
  datatype State = State(
    db: Db,
    ids: set<ClaimId>,
    routes: map<ClaimId, Route>,
    chain: seq<Tx>,
    landing: map<ClaimId, nat>,
    seen: nat,
    height: nat,
    now: int,
    tick: Tick)

  // ---------------------------------------------------------------------------------
  // Reading the chain
  // ---------------------------------------------------------------------------------

  function Infos(chain: seq<Tx>): (h: History)
    ensures |h| == |chain|
    ensures forall i :: 0 <= i < |chain| ==> h[i] == chain[i].info
  {
    seq(|chain|, i requires 0 <= i < |chain| => chain[i].info)
  }

  /** The body of a transaction: one claim event if it pays a voucher. */
  function Body(chain: seq<Tx>): Signature -> seq<ClaimEvent> {
    (s: Signature) =>
      if 0 <= s < |chain| && chain[s].voucher.Some? then [ClaimEvent(chain[s].wallet, chain[s].amount)] else []
  }

  function EntryOf(tx: Tx): Landed {
    Landed(tx.wallet, tx.amount, tx.info.signature, tx.info.slot, tx.info.blockTime, tx.info.failed)
  }

  /** What findLandedClaims returns when its first page is served by a node that knows `tip` transactions. */
  function SweepResult(chain: seq<Tx>, tip: nat, notBefore: int): (seq<Landed>, bool)
    requires tip <= |chain|
  {
    var h := Infos(chain[..tip]);
    (Decode(Body(chain), Examined(h, notBefore)), |Window(h, notBefore)| < PAGE * MAX_PAGES)
  }

  // ---------------------------------------------------------------------------------
  // Vouchers
  // ---------------------------------------------------------------------------------

  predicate Issued(s: State, v: ClaimId) {
    v in s.db.claims && Stamped(s.db.claims[v])
  }

  predicate Live(s: State, v: ClaimId) {
    Issued(s, v) && s.db.claims[v].status == Pending
  }

  predicate SameKind(a: Claim, b: Claim) {
    a.wallet == b.wallet && a.amountUsdc == b.amountUsdc
  }

  predicate Used(claims: map<ClaimId, Claim>, signature: Signature) {
    exists id :: id in claims && claims[id].txSignature == Some(signature)
  }

  /** The voucher's payment has landed and is not attributed yet, or may still land. */
  ghost predicate Outstanding(s: State, v: ClaimId) {
    && Issued(s, v)
    && if v in s.landing then !Used(s.db.claims, s.landing[v])
       else s.height <= s.db.claims[v].lastValidBlockHeight.value
  }

  // ---------------------------------------------------------------------------------
  // Steps
  // ---------------------------------------------------------------------------------

  datatype Step =
    | Grade(ticket: nat, status: WinStatus, amount: nat)
    | Harvest(ticket: nat)
    | RouteCreate(id: ClaimId, wallet: Wallet)
    | RouteBind(id: ClaimId, revealed: set<int>)
    | RouteSum(id: ClaimId)
    | RouteRelease(id: ClaimId)
    | RouteDelete(id: ClaimId)
    | RouteHandOut(id: ClaimId, lastValidBlockHeight: nat)
    | RouteCrash(id: ClaimId)
    | Land(voucher: ClaimId, info: SigInfo, realTime: int)
    | OtherTx(otherInfo: SigInfo, otherRealTime: int)
    | Advance(toHeight: nat, toNow: int)
    | TickRead(order: seq<ClaimId>)
    | TickSweep(tip: nat, startHeight: nat)
    | TickHeight(height: int)
    | TickResolve(writeFails: bool)
    | TickEnd

  /** The request is still running and has not outstayed its time. */
  predicate RouteAt(t: Timing, s: State, id: ClaimId, stages: set<Route>) {
    && id in s.routes && s.routes[id] in stages
    && id in s.db.claims && s.now <= s.db.claims[id].createdAt + t.issue
  }

  /**
   Vouchers of one wallet and amount expire in about the order they are created in, and in about
   the order they are handed out in, whichever of two concurrent requests is served first.
   */
  ghost predicate InOrder(t: Timing, s: State, id: ClaimId, amount: nat, lastValidBlockHeight: nat)
    requires id in s.db.claims
  {
    var v := s.db.claims[id];
    forall c :: c in s.db.claims && Stamped(s.db.claims[c]) && s.db.claims[c].wallet == v.wallet && s.db.claims[c].amountUsdc == amount ==>
      && s.db.claims[c].lastValidBlockHeight.value <= lastValidBlockHeight + t.disorder
      && (s.db.claims[c].createdAt <= v.createdAt ==> s.db.claims[c].lastValidBlockHeight.value <= lastValidBlockHeight + t.inversion)
      && (v.createdAt <= s.db.claims[c].createdAt ==> lastValidBlockHeight <= s.db.claims[c].lastValidBlockHeight.value + t.inversion)
  }

  /** The next transaction: slots and block times do not run backwards, one slot has one time. */
  predicate Follows(chain: seq<Tx>, info: SigInfo, realTime: int) {
    && info.signature == |chain|
    && (info.blockTime == None || info.blockTime == Some(realTime))
    && (|chain| > 0 ==>
          var last := chain[|chain| - 1];
          && last.info.slot <= info.slot && last.realTime <= realTime
          && (last.info.slot == info.slot ==> last.realTime == realTime))
  }

  function VerdictOf(s: State): Verdict
    requires s.tick.Resolving? && s.tick.next < |s.tick.rows|
  {
    Judge(s.tick.rows[s.tick.next].claim, s.tick.landed, s.tick.complete, s.tick.used, s.tick.height, s.now)
  }

  /** The tick after judging one row; a row whose attribution could not be written keeps its transaction reserved. */
  function AfterVerdict(tick: Tick, verdict: Verdict, writeFails: bool): Tick
    requires tick.Resolving? && tick.next < |tick.rows|
  {
    tick.(
      next := tick.next + 1,
      used := Spoken(tick.used, verdict),
      reserved := if writeFails && verdict.Confirm? then tick.reserved[tick.rows[tick.next].id := verdict.signature] else tick.reserved)
  }

  ghost predicate StepBy(t: Timing, s: State, s': State, step: Step) {
    match step
    case Grade(i, status, amount) =>
      && i < |s.db.tickets| && s.db.tickets[i].winStatus == DrawPending
      && (if status == Lost then amount == s.db.tickets[i].winAmount else status in {WonUnclaimed, WonFreeTicket} && amount > 0)
      && s' == s.(db := s.db.(tickets := s.db.tickets[i := s.db.tickets[i].(winStatus := status, winAmount := amount)]))
    case Harvest(i) =>
      && i < |s.db.tickets| && s.db.tickets[i].winStatus in {WonUnclaimed, WonFreeTicket}
      && s' == s.(db := s.db.(tickets := s.db.tickets[i := s.db.tickets[i].(winStatus := ClaimedOnBase)]))
    case RouteCreate(id, wallet) =>
      && id !in s.ids
      && s' == s.(db := CreateClaim(s.db, id, wallet, s.now), ids := s.ids + {id}, routes := s.routes[id := Created])
    case RouteBind(id, revealed) =>
      && RouteAt(t, s, id, {Created})
      && s' == s.(db := BindTickets(s.db, id, s.db.claims[id].wallet, revealed), routes := s.routes[id := Bound])
    case RouteSum(id) =>
      && RouteAt(t, s, id, {Bound})
      && s' == s.(routes := s.routes[id := Summed(BoundSum(s.db.tickets, id))])
    case RouteRelease(id) =>
      && id in s.routes && s.routes[id].Summed? && RouteAt(t, s, id, {s.routes[id]})
      && s' == s.(db := UnbindTickets(s.db, id), routes := s.routes[id := Released])
    case RouteDelete(id) =>
      && RouteAt(t, s, id, {Summed(0), Released})
      && s' == s.(db := DeleteClaim(s.db, id), routes := s.routes - {id})
    case RouteHandOut(id, lastValidBlockHeight) =>
      && id in s.routes && s.routes[id].Summed? && RouteAt(t, s, id, {s.routes[id]})
      && s.routes[id].amount > 0
      && InOrder(t, s, id, s.routes[id].amount, lastValidBlockHeight)
      && s' == s.(db := StampVoucher(s.db, id, s.routes[id].amount, lastValidBlockHeight), routes := s.routes - {id})
    case RouteCrash(id) =>
      && s' == s.(routes := s.routes - {id})
    case Land(v, info, realTime) =>
      && Issued(s, v) && v !in s.landing && s.height <= s.db.claims[v].lastValidBlockHeight.value
      && Follows(s.chain, info, realTime) && !info.failed
      && realTime * 1000 >= s.now - CLOCK_SKEW_MS
      && s' == s.(
           chain := s.chain + [Tx(info, realTime, s.height, Some(v), s.db.claims[v].wallet, s.db.claims[v].amountUsdc)],
           landing := s.landing[v := |s.chain|])
    case OtherTx(info, realTime) =>
      && Follows(s.chain, info, realTime)
      && s' == s.(chain := s.chain + [Tx(info, realTime, s.height, None, 0, 0)])
    case Advance(height, now) =>
      && s.height <= height && s.now <= now
      && s' == s.(height := height, now := now)
    case TickRead(order) =>
      && s.tick.Idle? && PendingQuery(s.db, order) && |order| > 0
      && s' == s.(tick := Read(RowsOf(s.db, order), s.now))
    case TickSweep(tip, startHeight) =>
      && s.tick.Read? && |s.tick.rows| > 0
      && tip <= |s.chain| && (t.steadyView ==> s.seen <= tip) && startHeight <= s.height
      && (forall i :: tip <= i < |s.chain| ==> startHeight <= s.chain[i].height)
      && (var (landed, complete) := SweepResult(s.chain, tip, SweepBound(s.tick.rows[0].claim.createdAt));
          s' == s.(tick := Swept(s.tick.rows, s.tick.readAt, landed, complete, tip, startHeight), seen := tip))
    case TickHeight(height) =>
      && s.tick.Swept? && height <= s.height && height <= s.tick.startHeight + t.lag
      && s' == s.(tick := Resolving(s.tick.rows, s.tick.readAt, s.tick.landed, s.tick.complete, s.tick.tip,
                                    s.tick.startHeight, height, UsedSignatures(s.db), 0, map[]))
    case TickResolve(writeFails) =>
      && s.tick.Resolving? && s.tick.next < |s.tick.rows| && s.now <= s.tick.readAt + t.tickSpan
      && (var verdict := VerdictOf(s);
          && s' == s.(
               db := if writeFails then s.db else Carry(s.db, s.tick.rows[s.tick.next].id, verdict),
               tick := AfterVerdict(s.tick, verdict, writeFails)))
    case TickEnd =>
      && s' == s.(tick := Idle)
  }

  ghost predicate Next(t: Timing, s: State, s': State) {
    exists step :: StepBy(t, s, s', step)
  }

  /** Fresh tickets, no claims, an empty admin history. */
  ghost predicate Init(s: State) {
    && s.db.claims == map[] && s.ids == {} && s.routes == map[] && s.chain == [] && s.landing == map[] && s.seen == 0 && s.tick == Idle
    && forall i :: 0 <= i < |s.db.tickets| ==>
         s.db.tickets[i].winStatus == DrawPending && s.db.tickets[i].payoutClaimId == None
  }

  ghost predicate StepsAt(t: Timing, states: seq<State>, k: int)
    requires 0 <= k < |states| - 1
  {
    Next(t, states[k], states[k + 1])
  }

  ghost predicate Run(t: Timing, states: seq<State>) {
    && |states| > 0 && Init(states[0])
    && forall k :: 0 <= k < |states| - 1 ==> StepsAt(t, states, k)
  }
}
