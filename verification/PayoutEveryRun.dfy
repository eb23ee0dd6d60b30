/**
 What holds in every run of the voucher protocol, whatever the deployment promises about time:
 the rows, the chain and the money agree, a tick knows what it thinks it knows, and a voucher past
 its last block never lands.
 */
module PayoutEveryRun {
  import opened Wrappers
  import opened LandedClaims
  import opened PayoutDb
  import opened PayoutConfirmer
  import opened PayoutProtocol
  import opened PayoutInvariants

  // ---------------------------------------------------------------------------------
  // What a tick knows while it is under way
  // ---------------------------------------------------------------------------------

  function Rows(tick: Tick): seq<PendingRow> {
    if tick.Idle? then [] else tick.rows
  }

  function Done(tick: Tick): nat {
    if tick.Resolving? then tick.next else 0
  }

  function ReadAt(tick: Tick): int {
    if tick.Idle? then 0 else tick.readAt
  }

  /** How a row read by the tick relates to the claim as it is now. */
  ghost predicate RowOk(t: Timing, s: State, k: nat)
    requires k < |Rows(s.tick)|
  {
    var row := Rows(s.tick)[k];
    && row.claim.status == Pending && row.id in s.ids && row.claim.createdAt <= ReadAt(s.tick)
    && (Stamped(row.claim) ==>
          && row.id in s.db.claims && SameVoucher(row.claim, s.db.claims[row.id])
          && (k >= Done(s.tick) ==> s.db.claims[row.id].status == Pending))
    && (!Stamped(row.claim) ==>
          && row.claim.amountUsdc == 0
          && (row.id in s.db.claims ==>
                && s.db.claims[row.id].createdAt == row.claim.createdAt
                && (k >= Done(s.tick) ==> s.db.claims[row.id].status == Pending)
                && (Stamped(s.db.claims[row.id]) ==> ReadAt(s.tick) <= row.claim.createdAt + t.issue)))
  }

  ghost predicate RowsOk(t: Timing, s: State) {
    var rows := Rows(s.tick);
    && (forall k :: 0 <= k < |rows| ==> RowOk(t, s, k))
    && (forall i, j :: 0 <= i < j < |rows| ==> rows[i].id != rows[j].id && rows[i].claim.createdAt <= rows[j].claim.createdAt)
    && (!s.tick.Idle? ==> ReadAt(s.tick) <= s.now)
    && Done(s.tick) <= |rows|
    && (!s.tick.Idle? ==> |rows| > 0)
  }

  ghost predicate Listed(chain: seq<Tx>, tip: nat, landed: seq<Landed>, complete: bool, notBefore: int) {
    && tip <= |chain|
    && (forall l :: l in landed ==>
          0 <= l.signature < tip && chain[l.signature].voucher.Some? && l == EntryOf(chain[l.signature]))
    && (complete ==> forall i :: 0 <= i < tip && chain[i].voucher.Some? && notBefore <= chain[i].realTime ==>
          EntryOf(chain[i]) in landed)
  }

  /** The sweep lists what had landed; what it could not see landed at or above `startHeight`. */
  ghost predicate SweepOk(t: Timing, s: State) {
    s.tick.Swept? || s.tick.Resolving? ==>
      && |s.tick.rows| > 0 && s.seen == s.tick.tip
      && Listed(s.chain, s.tick.tip, s.tick.landed, s.tick.complete, SweepBound(s.tick.rows[0].claim.createdAt))
      && s.tick.startHeight <= s.height
      && (forall i :: s.tick.tip <= i < |s.chain| ==> s.tick.startHeight <= s.chain[i].height)
      && (s.tick.Resolving? ==> s.tick.height <= s.tick.startHeight + t.lag)
  }

  ghost predicate Reserved(tick: Tick, sig: Signature)
    requires tick.Resolving?
  {
    exists id :: id in tick.reserved && tick.reserved[id] == sig
  }

  /** A signature is spoken for exactly when a claim carries it, or the lost write of a row already judged reserved it. */
  ghost predicate UsedOk(s: State) {
    s.tick.Resolving? ==>
      && (forall sig :: sig in s.tick.used <==> Used(s.db.claims, sig) || Reserved(s.tick, sig))
      && (forall id :: id in s.tick.reserved ==> JudgedBefore(s.tick, id))
  }

  ghost predicate JudgedBefore(tick: Tick, id: ClaimId)
    requires tick.Resolving?
  {
    exists k :: 0 <= k < tick.next && k < |tick.rows| && tick.rows[k].id == id
  }

  /** A voucher's payment lands no earlier than its row, but for the clock skew. */
  ghost predicate LandsAfterCreation(s: State) {
    forall v :: v in s.landing && s.landing[v] < |s.chain| && Issued(s, v) ==>
      s.chain[s.landing[v]].realTime * 1000 >= s.db.claims[v].createdAt - CLOCK_SKEW_MS
  }

  ghost predicate Sound(t: Timing, s: State) {
    CoreOk(s) && RowsOk(t, s) && SweepOk(t, s) && UsedOk(s) && LandsAfterCreation(s)
  }

  ghost predicate Judging(s: State) {
    s.tick.Resolving? && s.tick.next < |s.tick.rows|
  }

  function Row(s: State): PendingRow
    requires s.tick.Resolving? && s.tick.next < |s.tick.rows|
  {
    s.tick.rows[s.tick.next]
  }

  // ---------------------------------------------------------------------------------
  // Vouchers keep their terms
  // ---------------------------------------------------------------------------------

  /** A voucher's terms are fixed for good once it is handed out. */
  lemma TermsFixedOf(t: Timing, s: State, s': State, step: Step, v: ClaimId)
    requires RoutesOk(s) && s.db.claims.Keys <= s.ids && StepBy(t, s, s', step)
    ensures Issued(s, v) ==> Issued(s', v) && SameVoucher(s.db.claims[v], s'.db.claims[v])
    ensures Issued(s', v) && !(step.RouteHandOut? && step.id == v) ==> Issued(s, v)
  {
  }

  lemma TermsFixed(t: Timing, s: State, s': State, step: Step)
    requires RoutesOk(s) && s.db.claims.Keys <= s.ids && StepBy(t, s, s', step)
    ensures forall v :: Issued(s, v) ==> Issued(s', v) && SameVoucher(s.db.claims[v], s'.db.claims[v])
    ensures !step.RouteHandOut? ==> forall v :: Issued(s', v) ==> Issued(s, v)
    ensures step.RouteHandOut? ==> forall v :: Issued(s', v) && v != step.id ==> Issued(s, v)
  {
    forall v
      ensures Issued(s, v) ==> Issued(s', v) && SameVoucher(s.db.claims[v], s'.db.claims[v])
      ensures Issued(s', v) && !(step.RouteHandOut? && step.id == v) ==> Issued(s, v)
    {
      TermsFixedOf(t, s, s', step, v);
    }
  }

  lemma LandingsGrow(t: Timing, s: State, s': State, step: Step)
    requires StepBy(t, s, s', step)
    ensures s.chain <= s'.chain
    ensures forall v :: v in s'.landing ==> (v in s.landing && s'.landing[v] == s.landing[v]) || (step.Land? && step.voucher == v)
  {
  }

  lemma LandsAfterCreationKept(t: Timing, s: State, s': State, step: Step)
    requires CoreOk(s) && LandsAfterCreation(s) && StepBy(t, s, s', step)
    ensures LandsAfterCreation(s')
  {
    TermsFixed(t, s, s', step);
    if step.Land? {
      assert ClaimOk(s.db.tickets, s.now, step.voucher, s.db.claims[step.voucher]);
    }
    LandingsGrow(t, s, s', step);
  }

  // ---------------------------------------------------------------------------------
  // Steps other than a verdict
  // ---------------------------------------------------------------------------------

  /** The step changes no claim. */
  predicate QuietStep(step: Step) {
    step.Grade? || step.Harvest? || step.RouteBind? || step.RouteSum? || step.RouteRelease? || step.RouteCrash?
  }

  lemma QuietOk(t: Timing, s: State, s': State, step: Step)
    requires CoreOk(s) && StepBy(t, s, s', step)
    requires QuietStep(step)
    ensures CoreOk(s')
  {
    match step
    case Grade(i, status, amount) => GradeOk(t, s, s', i, status, amount);
    case Harvest(i) => HarvestOk(t, s, s', i);
    case RouteBind(id, revealed) => BindOk(t, s, s', id, revealed);
    case RouteRelease(id) => RouteReleaseOk(t, s, s', id);
    case RouteSum(id) => RoutesOnly(s, s');
    case RouteCrash(id) => RoutesOnly(s, s');
  }

  lemma RoutesOnly(s: State, s': State)
    requires CoreOk(s) && s' == s.(routes := s'.routes) && RoutesOk(s')
    ensures CoreOk(s')
  {
    assert forall w :: MoneyOk(s, w) ==> MoneyOk(s', w);
  }

  lemma SameCore(s: State, s': State)
    requires CoreOk(s)
    requires s' == s.(tick := s'.tick, seen := s'.seen, routes := s'.routes)
    requires s'.routes == s.routes
    ensures CoreOk(s')
  {
    assert forall w :: MoneyOk(s, w) ==> MoneyOk(s', w);
  }

  lemma CoreStep(t: Timing, s: State, s': State, step: Step)
    requires CoreOk(s) && StepBy(t, s, s', step) && !step.TickResolve?
    ensures CoreOk(s')
  {
    match step
    case RouteCreate(id, wallet) => CreateOk(t, s, s', id, wallet);
    case RouteDelete(id) => DeleteOk(t, s, s', id);
    case RouteHandOut(id, lvbh) => HandOutOk(t, s, s', id, lvbh);
    case Land(v, info, realTime) => LandOk(t, s, s', v, info, realTime);
    case OtherTx(info, realTime) => OtherTxOk(t, s, s', info, realTime);
    case Advance(height, now) => AdvanceOk(t, s, s', height, now);
    case _ =>
      if QuietStep(step) {
        QuietOk(t, s, s', step);
      } else {
        SameCore(s, s');
      }
  }

  /** Requests create, delete and hand out; they change nothing else about a claim. */
  lemma ClaimsStay(t: Timing, s: State, s': State, step: Step)
    requires CoreOk(s) && StepBy(t, s, s', step) && !step.TickResolve?
    ensures forall c :: Issued(s, c) ==> Issued(s', c) && s'.db.claims[c] == s.db.claims[c]
    ensures forall c :: c in s'.db.claims && c in s.ids ==> c in s.db.claims && SameRow(t, s, s.db.claims[c], s'.db.claims[c])
    ensures s.ids <= s'.ids && s.now <= s'.now
  {
  }

  lemma SignaturesStay(t: Timing, s: State, s': State, step: Step)
    requires CoreOk(s) && StepBy(t, s, s', step) && !step.TickResolve?
    ensures forall sig :: Used(s'.db.claims, sig) <==> Used(s.db.claims, sig)
  {
    forall sig | Used(s.db.claims, sig) ensures Used(s'.db.claims, sig) {
      var c :| c in s.db.claims && s.db.claims[c].txSignature == Some(sig);
      assert ClaimOk(s.db.tickets, s.now, c, s.db.claims[c]);
      assert c in s'.db.claims && s'.db.claims[c].txSignature == Some(sig);
    }
  }

  /** The row is as it was, except that its voucher may just have been handed out in time. */
  predicate SameRow(t: Timing, s: State, a: Claim, b: Claim) {
    && b.createdAt == a.createdAt && b.status == a.status
    && (Stamped(b) && !Stamped(a) ==> s.now <= b.createdAt + t.issue)
  }

  lemma RowsStay(t: Timing, s: State, s': State)
    requires RowsOk(t, s)
    requires Rows(s'.tick) == Rows(s.tick) && Done(s'.tick) == Done(s.tick) && ReadAt(s'.tick) == ReadAt(s.tick)
    requires s.tick.Idle? <==> s'.tick.Idle?
    requires s.ids <= s'.ids && s.now <= s'.now
    requires forall c :: Issued(s, c) ==> Issued(s', c) && s'.db.claims[c] == s.db.claims[c]
    requires forall c :: c in s'.db.claims && c in s.ids ==> c in s.db.claims && SameRow(t, s, s.db.claims[c], s'.db.claims[c])
    ensures RowsOk(t, s')
  {
    forall k | 0 <= k < |Rows(s.tick)| ensures RowOk(t, s', k) {
      assert RowOk(t, s, k);
      assert Stamped(Rows(s.tick)[k].claim) ==> Issued(s, Rows(s.tick)[k].id);
    }
  }

  lemma RowsJustRead(t: Timing, s: State, s': State, order: seq<ClaimId>)
    requires CoreOk(s) && StepBy(t, s, s', TickRead(order))
    ensures RowsOk(t, s')
  {
    forall k | 0 <= k < |s'.tick.rows| ensures RowOk(t, s', k) {
      assert ClaimOk(s.db.tickets, s.now, order[k], s.db.claims[order[k]]);
    }
  }

  lemma RowsStep(t: Timing, s: State, s': State, step: Step)
    requires CoreOk(s) && RowsOk(t, s) && StepBy(t, s, s', step) && !step.TickResolve?
    ensures RowsOk(t, s')
  {
    if step.TickRead? {
      RowsJustRead(t, s, s', step.order);
    } else if !step.TickEnd? {
      ClaimsStay(t, s, s', step);
      RowsStay(t, s, s');
    }
  }

  lemma ListedGrows(chain: seq<Tx>, tx: Tx, tip: nat, landed: seq<Landed>, complete: bool, notBefore: int)
    requires Listed(chain, tip, landed, complete, notBefore)
    ensures Listed(chain + [tx], tip, landed, complete, notBefore)
  {
  }

  lemma SweepSound(chain: seq<Tx>, height: nat, tip: nat, notBefore: int, l: Landed)
    requires ChainOk(chain, height) && tip <= |chain|
    requires l in SweepResult(chain, tip, notBefore).0
    ensures 0 <= l.signature < tip && chain[l.signature].voucher.Some? && l == EntryOf(chain[l.signature])
  {
    var h := Infos(chain[..tip]);
    var w := Examined(h, notBefore);
    DecodeSound(Body(chain), w, l);
    var i :| 0 <= i < |w| && l in LandedOf(w[i], Body(chain)(w[i].signature));
    WindowAt(h, notBefore, i);
    var j := |h| - 1 - i;
    assert w[i] == chain[j].info;
    assert TxOk(chain, j, height);
  }

  lemma SweepComplete(chain: seq<Tx>, height: nat, tip: nat, notBefore: int, i: nat)
    requires ChainOk(chain, height) && tip <= |chain|
    requires SweepResult(chain, tip, notBefore).1
    requires i < tip && chain[i].voucher.Some? && notBefore <= chain[i].realTime
    ensures EntryOf(chain[i]) in SweepResult(chain, tip, notBefore).0
  {
    var h := Infos(chain[..tip]);
    assert TxOk(chain, i, height);
    LaterIsNoEarlier(chain, height, tip, notBefore, i);
    WindowCovers(h, notBefore, i);
    DecodeComplete(Body(chain), Window(h, notBefore), |h| - 1 - i);
    assert LandedOf(chain[i].info, Body(chain)(chain[i].info.signature))[0] == EntryOf(chain[i]);
  }

  lemma LaterIsNoEarlier(chain: seq<Tx>, height: nat, tip: nat, notBefore: int, i: nat)
    requires ChainOk(chain, height) && i < tip <= |chain| && notBefore <= chain[i].realTime
    ensures NothingEarlierAfter(Infos(chain[..tip]), i, notBefore)
  {
    var h := Infos(chain[..tip]);
    forall j | i <= j < |h| && h[j].blockTime.Some? ensures notBefore <= h[j].blockTime.value {
      assert TxOk(chain, j, height);
      assert j > i ==> InSequence(chain[i], chain[j]);
    }
  }

  /** The walk of the chain lists exactly what the confirmer relies on. */
  lemma SweepLists(chain: seq<Tx>, height: nat, tip: nat, notBefore: int)
    requires ChainOk(chain, height) && tip <= |chain|
    ensures var (landed, complete) := SweepResult(chain, tip, notBefore);
            Listed(chain, tip, landed, complete, notBefore)
  {
    var (landed, complete) := SweepResult(chain, tip, notBefore);
    forall l | l in landed
      ensures 0 <= l.signature < tip && chain[l.signature].voucher.Some? && l == EntryOf(chain[l.signature])
    {
      SweepSound(chain, height, tip, notBefore, l);
    }
    if complete {
      forall i | 0 <= i < tip && chain[i].voucher.Some? && notBefore <= chain[i].realTime
        ensures EntryOf(chain[i]) in landed
      {
        SweepComplete(chain, height, tip, notBefore, i);
      }
    }
  }

  lemma SweepStep(t: Timing, s: State, s': State, step: Step)
    requires CoreOk(s) && RowsOk(t, s) && SweepOk(t, s) && StepBy(t, s, s', step) && !step.TickResolve?
    ensures SweepOk(t, s')
  {
    if step.TickSweep? {
      SweepLists(s.chain, s.height, step.tip, SweepBound(s.tick.rows[0].claim.createdAt));
    } else if (step.Land? || step.OtherTx?) && (s.tick.Swept? || s.tick.Resolving?) {
      ListedGrows(s.chain, s'.chain[|s.chain|], s.tick.tip, s.tick.landed, s.tick.complete, SweepBound(s.tick.rows[0].claim.createdAt));
    }
  }

  // ---------------------------------------------------------------------------------
  // A verdict
  // ---------------------------------------------------------------------------------

  /** At most the judged row's claim changed, and not its terms. */
  ghost predicate OnlyRowChanged(s: State, s': State)
    requires s.tick.Resolving? && s.tick.next < |s.tick.rows|
  {
    var id := Row(s).id;
    && s'.ids == s.ids && s'.routes == s.routes && s'.chain == s.chain && s'.landing == s.landing
    && s'.seen == s.seen && s'.height == s.height && s'.now == s.now
    && s'.db.claims.Keys == s.db.claims.Keys
    && (forall c :: c in s.db.claims && c != id ==> s'.db.claims[c] == s.db.claims[c])
    && (id in s.db.claims ==>
          && SameVoucher(s.db.claims[id], s'.db.claims[id])
          && (s'.db.claims[id].status == Pending ==> s'.db.claims[id] == s.db.claims[id]))
  }

  lemma RowsAfter(t: Timing, s: State, s': State, verdict: Verdict, writeFails: bool)
    requires RowsOk(t, s) && SweepOk(t, s) && Judging(s) && OnlyRowChanged(s, s')
    requires s'.tick == AfterVerdict(s.tick, verdict, writeFails)
    ensures RowsOk(t, s') && SweepOk(t, s')
  {
    forall k | 0 <= k < |s.tick.rows| ensures RowOk(t, s', k) {
      assert RowOk(t, s, k);
    }
  }

  lemma ExpireStep(s: State, s': State)
    requires Judging(s) && (VerdictOf(s) == Expire || VerdictOf(s) == ExpireUnsigned)
    requires s' == s.(db := Carry(s.db, Row(s).id, VerdictOf(s)), tick := s'.tick)
    ensures s'.db == ReleaseClaim(s.db, Row(s).id, Expired)
    ensures OnlyRowChanged(s, s')
    ensures Hit(s.tick.landed, Row(s).claim, s.tick.used) == None
    ensures forall sig :: Used(s.db.claims, sig) <==> Used(s'.db.claims, sig)
  {
  }

  lemma ConfirmStep(s: State, s': State, sig: Signature)
    requires ClaimsOk(s.db, s.now) && Judging(s) && ConfirmFits(s, Row(s).id, sig)
    requires s' == s.(db := ConfirmClaim(s.db, Row(s).id, sig), tick := s'.tick)
    ensures OnlyRowChanged(s, s')
    ensures Row(s).id in s'.db.claims && s'.db.claims[Row(s).id].status == Confirmed
    ensures forall x :: Used(s'.db.claims, x) <==> Used(s.db.claims, x) || x == sig
  {
  }

  /** A hit is an unattributed payment that the row, a pending voucher, can be confirmed with. */
  lemma HitIsReal(t: Timing, s: State, h: Landed)
    requires Sound(t, s) && Judging(s) && Hit(s.tick.landed, Row(s).claim, s.tick.used) == Some(h)
    ensures 0 <= h.signature < s.tick.tip <= |s.chain| && s.chain[h.signature].voucher.Some? && h == EntryOf(s.chain[h.signature])
    ensures s.chain[h.signature].voucher.value in s.landing && s.landing[s.chain[h.signature].voucher.value] == h.signature
    ensures h in s.tick.landed && Candidate(h, Row(s).claim, s.tick.used) && VerdictOf(s) == Confirm(h.signature)
    ensures Stamped(Row(s).claim) && ConfirmFits(s, Row(s).id, h.signature)
  {
    HitIsOldest(s.tick.landed, Row(s).claim, s.tick.used);
    assert TxOk(s.chain, h.signature, s.height);
    var b := s.chain[h.signature].voucher.value;
    assert b in s.landing && s.landing[b] == h.signature;
    assert ClaimOk(s.db.tickets, s.now, b, s.db.claims[b]);
    assert RowOk(t, s, s.tick.next);
  }

  lemma ResolveSound(t: Timing, s: State, s': State, writeFails: bool)
    requires Sound(t, s) && StepBy(t, s, s', TickResolve(writeFails))
    ensures CoreOk(s') && UsedOk(s') && OnlyRowChanged(s, s')
  {
    var hit := Hit(s.tick.landed, Row(s).claim, s.tick.used);
    if hit.Some? {
      HitSound(t, s, s', writeFails, hit.value);
    } else if writeFails || VerdictOf(s) == Wait {
      SameCore(s, s');
      NothingSpoken(s, s');
    } else {
      assert RowOk(t, s, s.tick.next);
      ExpireStep(s, s');
      ReleaseOk(s, s', Row(s).id);
      NothingSpoken(s, s');
    }
  }

  lemma NothingSpoken(s: State, s': State)
    requires UsedOk(s) && Judging(s) && s'.tick == s.tick.(next := s.tick.next + 1)
    requires forall sig :: Used(s'.db.claims, sig) <==> Used(s.db.claims, sig)
    ensures UsedOk(s')
  {
    forall id | id in s.tick.reserved ensures JudgedBefore(s'.tick, id) {
      assert JudgedBefore(s.tick, id);
    }
    assert forall sig :: Reserved(s'.tick, sig) <==> Reserved(s.tick, sig);
  }

  lemma HitSound(t: Timing, s: State, s': State, writeFails: bool, h: Landed)
    requires Sound(t, s) && StepBy(t, s, s', TickResolve(writeFails))
    requires Hit(s.tick.landed, Row(s).claim, s.tick.used) == Some(h)
    ensures CoreOk(s') && UsedOk(s') && OnlyRowChanged(s, s')
  {
    HitIsReal(t, s, h);
    if writeFails {
      SameCore(s, s');
      LostIsReserved(t, s, s', h.signature);
    } else {
      ConfirmStep(s, s', h.signature);
      ConfirmOk(s, s', Row(s).id, h.signature);
      WrittenIsUsed(s, s', h.signature);
    }
  }

  lemma NotReserved(t: Timing, s: State)
    requires RowsOk(t, s) && UsedOk(s) && Judging(s)
    ensures Row(s).id !in s.tick.reserved
  {
    assert Row(s).id in s.tick.reserved ==> JudgedBefore(s.tick, Row(s).id);
  }

  lemma LostIsReserved(t: Timing, s: State, s': State, sig: Signature)
    requires RowsOk(t, s) && UsedOk(s) && Judging(s)
    requires s' == s.(tick := AfterVerdict(s.tick, Confirm(sig), true))
    ensures UsedOk(s')
  {
    NotReserved(t, s);
    forall x | Reserved(s.tick, x) || x == sig ensures Reserved(s'.tick, x) {
      if x == sig {
        assert s'.tick.reserved[Row(s).id] == sig;
      } else {
        var id :| id in s.tick.reserved && s.tick.reserved[id] == x;
        assert s'.tick.reserved[id] == x;
      }
    }
    forall id | id in s'.tick.reserved ensures JudgedBefore(s'.tick, id) {
      if id == Row(s).id {
        assert s'.tick.rows[s.tick.next].id == id;
      } else {
        assert JudgedBefore(s.tick, id);
      }
    }
  }

  lemma WrittenIsUsed(s: State, s': State, sig: Signature)
    requires UsedOk(s) && Judging(s) && s'.tick == AfterVerdict(s.tick, Confirm(sig), false)
    requires forall x :: Used(s'.db.claims, x) <==> Used(s.db.claims, x) || x == sig
    ensures UsedOk(s')
  {
    forall id | id in s.tick.reserved ensures JudgedBefore(s'.tick, id) {
      assert JudgedBefore(s.tick, id);
    }
    assert forall x :: Reserved(s'.tick, x) <==> Reserved(s.tick, x);
  }

  // ---------------------------------------------------------------------------------
  // Every run
  // ---------------------------------------------------------------------------------

  /** Every step, whatever it takes and however late, keeps rows, chain and money in agreement. */
  lemma SoundStep(t: Timing, s: State, s': State, step: Step)
    requires Sound(t, s) && StepBy(t, s, s', step)
    ensures Sound(t, s')
  {
    LandsAfterCreationKept(t, s, s', step);
    if step.TickResolve? {
      ResolveSound(t, s, s', step.writeFails);
      RowsAfter(t, s, s', VerdictOf(s), step.writeFails);
    } else {
      CoreStep(t, s, s', step);
      RowsStep(t, s, s', step);
      SweepStep(t, s, s', step);
      UsedStep(t, s, s', step);
    }
  }

  lemma UsedStep(t: Timing, s: State, s': State, step: Step)
    requires CoreOk(s) && UsedOk(s) && StepBy(t, s, s', step) && !step.TickResolve?
    ensures UsedOk(s')
  {
    SignaturesStay(t, s, s', step);
    if step.TickHeight? {
      UsedAreRead(s.db);
    } else if s.tick.Resolving? && s'.tick.Resolving? {
      assert s'.tick == s.tick;
    }
  }

  lemma UsedAreRead(db: Db)
    ensures forall sig :: Used(db.claims, sig) <==> sig in UsedSignatures(db)
  {
  }

  lemma {:induction false} RunIsSound(t: Timing, states: seq<State>, k: nat)
    requires Run(t, states) && k < |states|
    ensures Sound(t, states[k])
  {
    if k == 0 {
      InitOk(states[0]);
    } else {
      RunIsSound(t, states, k - 1);
      assert StepsAt(t, states, k - 1);
      var step :| StepBy(t, states[k - 1], states[k], step);
      SoundStep(t, states[k - 1], states[k], step);
    }
  }

  /** The state ends some run. */
  ghost predicate RunTo(t: Timing, s: State) {
    exists states :: RunEndsIn(t, states, s)
  }

  ghost predicate RunEndsIn(t: Timing, states: seq<State>, s: State) {
    Run(t, states) && states[|states| - 1] == s
  }

  lemma RunToIsSound(t: Timing, s: State)
    requires RunTo(t, s)
    ensures Sound(t, s)
  {
    var states :| RunEndsIn(t, states, s);
    RunIsSound(t, states, |states| - 1);
  }

  // ---------------------------------------------------------------------------------
  // Vouchers that can no longer land
  // ---------------------------------------------------------------------------------

  /** The voucher has not landed, and the chain is past its last block. */
  predicate Gone(s: State, v: ClaimId) {
    Issued(s, v) && v !in s.landing && s.height > s.db.claims[v].lastValidBlockHeight.value
  }

  lemma GoneStep(t: Timing, s: State, s': State, step: Step, v: ClaimId)
    requires RoutesOk(s) && s.db.claims.Keys <= s.ids && Gone(s, v) && StepBy(t, s, s', step)
    ensures Gone(s', v)
  {
    TermsFixed(t, s, s', step);
    GoneLanding(t, s, s', step, v);
  }

  lemma GoneLanding(t: Timing, s: State, s': State, step: Step, v: ClaimId)
    requires Gone(s, v) && StepBy(t, s, s', step)
    ensures v !in s'.landing && s.height <= s'.height
  {
  }

  lemma GoneNext(t: Timing, states: seq<State>, k: nat, v: ClaimId)
    requires Run(t, states) && 0 < k < |states| && Gone(states[k - 1], v)
    ensures Gone(states[k], v)
  {
    RunIsSound(t, states, k - 1);
    assert StepsAt(t, states, k - 1);
    var step :| StepBy(t, states[k - 1], states[k], step);
    GoneStep(t, states[k - 1], states[k], step, v);
  }

  /** Nothing lands past its last block. */
  lemma {:induction false} GoneForGood(t: Timing, states: seq<State>, j: nat, k: nat, v: ClaimId)
    requires Run(t, states) && j <= k < |states| && Gone(states[j], v)
    ensures Gone(states[k], v)
  {
    if j < k {
      GoneForGood(t, states, j, k - 1, v);
      GoneNext(t, states, k, v);
    }
  }

  // ---------------------------------------------------------------------------------
  // A voucher past the buffer
  // ---------------------------------------------------------------------------------

  /** If the payment of a row past the buffer has landed, a complete sweep saw it, and lists it as a match. */
  lemma LandedIsListed(t: Timing, s: State)
    requires Sound(t, s) && Judging(s) && t.lag <= EXPIRY_BUFFER_BLOCKS
    requires Stamped(Row(s).claim) && s.tick.complete
    requires s.tick.height > Row(s).claim.lastValidBlockHeight.value + EXPIRY_BUFFER_BLOCKS
    ensures s.height > Row(s).claim.lastValidBlockHeight.value && Issued(s, Row(s).id)
    ensures Row(s).id in s.landing ==>
      var tx := s.chain[s.landing[Row(s).id]];
      tx.info.signature == s.landing[Row(s).id] && EntryOf(tx) in s.tick.landed && Matches(EntryOf(tx), Row(s).claim)
  {
    var id := Row(s).id;
    assert RowOk(t, s, s.tick.next);
    if id in s.landing {
      var tx := s.chain[s.landing[id]];
      assert TxOk(s.chain, s.landing[id], s.height);
      SweepBoundCovers(s.tick.rows[0].claim.createdAt, Row(s).claim.createdAt, tx.realTime);
    }
  }
}
