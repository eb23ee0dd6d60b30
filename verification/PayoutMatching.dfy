/**
 Why no payment is ever stranded.  At every moment the outstanding vouchers can be matched,
 one to one, with pending claims of the same wallet and amount that may still be confirmed
 with them.  Attributing a payment to another voucher's claim merely exchanges partners.
 */
module PayoutMatching {
  import opened Wrappers
  import opened LandedClaims
  import opened PayoutDb
  import opened PayoutConfirmer
  import opened PayoutProtocol
  import opened PayoutInvariants
  import opened PayoutEveryRun

  type Partners = map<ClaimId, ClaimId>

  /** Claim `c` can absorb the payment of voucher `v`. */
  ghost predicate Absorbs(s: State, v: ClaimId, c: ClaimId) {
    && Issued(s, v) && Issued(s, c)
    && s.db.claims[c].status == Pending && SameKind(s.db.claims[v], s.db.claims[c])
    && (v in s.landing ==>
          s.landing[v] < |s.chain| && s.chain[s.landing[v]].realTime * 1000 >= s.db.claims[c].createdAt - CLOCK_SKEW_MS)
  }

  ghost predicate Matching(s: State, phi: Partners) {
    && (forall v :: v in phi <==> Outstanding(s, v))
    && (forall v :: v in phi ==> Absorbs(s, v, phi[v]))
    && (forall u, v :: u in phi && v in phi && u != v ==> phi[u] != phi[v])
  }

  // ---------------------------------------------------------------------------------
  // What a tick knows while it is under way
  // ---------------------------------------------------------------------------------

  ghost predicate HandedOutWhenRead(rows: seq<PendingRow>, v: ClaimId) {
    exists k :: 0 <= k < |rows| && rows[k].id == v && Stamped(rows[k].claim)
  }

  /** Handed out since the tick under way read its rows. */
  ghost predicate New(s: State, v: ClaimId) {
    && !s.tick.Idle? && Issued(s, v) && s.db.claims[v].status == Pending
    && !HandedOutWhenRead(Rows(s.tick), v)
  }

  /** Voucher `a` comes before `b`, by creation or as far as its last block can tell. */
  predicate Precedes(t: Timing, a: Claim, b: Claim) {
    && Stamped(a) && Stamped(b)
    && (a.createdAt <= b.createdAt
        || (t.issue > 0 && a.lastValidBlockHeight.value <= b.lastValidBlockHeight.value + t.disorder))
  }

  /** Vouchers handed out since the tick read its rows come after all others of their kind. */
  ghost predicate NewComeLast(t: Timing, s: State) {
    forall u, v :: Issued(s, u) && !New(s, u) && New(s, v) && SameKind(s.db.claims[u], s.db.claims[v]) ==>
      Precedes(t, s.db.claims[u], s.db.claims[v])
  }

  /** `v` comes before `z`, which was created no later than `c`. */
  ghost predicate Bridges(t: Timing, s: State, v: ClaimId, z: ClaimId, c: ClaimId) {
    && Issued(s, v) && Issued(s, z) && Issued(s, c)
    && SameKind(s.db.claims[v], s.db.claims[z]) && SameKind(s.db.claims[z], s.db.claims[c])
    && Precedes(t, s.db.claims[v], s.db.claims[z]) && s.db.claims[z].createdAt <= s.db.claims[c].createdAt
  }

  /** Voucher `v` will not outlive claim `c` by more than the slack. */
  ghost predicate Near(t: Timing, s: State, v: ClaimId, c: ClaimId) {
    exists z :: Bridges(t, s, v, z, c)
  }

  /** The last sweep did not see the voucher's payment. */
  predicate Unseen(s: State, v: ClaimId) {
    v in s.landing ==> s.landing[v] >= s.seen
  }

  /** The payment landed since the tick under way read its rows. */
  predicate LandedSinceRead(s: State, v: ClaimId)
    requires v in s.landing
  {
    s.landing[v] < |s.chain| && s.chain[s.landing[v]].realTime * 1000 >= ReadAt(s.tick) - CLOCK_SKEW_MS
  }

  /**
   While no sweep has seen its payment, a voucher's partner will wait for it, and a new voucher's
   partner is its own claim.  A new claim only stands in for payments that are as new.
   */
  ghost predicate PartnerFits(t: Timing, s: State, v: ClaimId, c: ClaimId) {
    && (Unseen(s, v) ==> Near(t, s, v, c) && (New(s, v) ==> c == v))
    && (New(s, c) && v in s.landing ==> LandedSinceRead(s, v))
  }

  ghost predicate PartnersFit(t: Timing, s: State, phi: Partners) {
    forall v :: v in phi ==> PartnerFits(t, s, v, phi[v])
  }

  /** A row whose confirmation was lost is matched with the very payment reserved for it. */
  ghost predicate ReservedOk(s: State, phi: Partners) {
    s.tick.Resolving? ==>
      forall id :: id in s.tick.reserved ==>
        var sig := s.tick.reserved[id];
        && 0 <= sig < |s.chain| && sig < s.tick.tip && s.chain[sig].voucher.Some?
        && s.chain[sig].voucher.value in phi && phi[s.chain[sig].voucher.value] == id
        && sig in s.tick.used
  }

  /** Rows left pending had no unattributed match. */
  ghost predicate DoneOk(s: State) {
    s.tick.Resolving? ==>
      forall k, l :: 0 <= k < s.tick.next && k < |s.tick.rows| && StillWaiting(s, s.tick.rows[k]) && l in s.tick.landed ==>
        !Candidate(l, s.tick.rows[k].claim, s.tick.used)
  }

  ghost predicate StillWaiting(s: State, row: PendingRow)
    requires s.tick.Resolving?
  {
    && Stamped(row.claim) && row.id !in s.tick.reserved
    && row.id in s.db.claims && s.db.claims[row.id].status == Pending
  }

  ghost predicate TickOk(t: Timing, s: State, phi: Partners) {
    && RowsOk(t, s) && NewComeLast(t, s) && SweepOk(t, s) && PartnersFit(t, s, phi)
    && UsedOk(s) && ReservedOk(s, phi) && DoneOk(s)
  }

  /** A row released before it became a voucher has outstayed any request. */
  ghost predicate GraceOk(t: Timing, s: State) {
    forall id :: id in s.db.claims && !Stamped(s.db.claims[id]) && s.db.claims[id].status != Pending ==>
      s.now > s.db.claims[id].createdAt + t.issue
  }

  ghost predicate Inv(t: Timing, s: State, phi: Partners) {
    Sound(t, s) && Matching(s, phi) && TickOk(t, s, phi)
  }

  /** Vouchers keep their terms. */
  ghost predicate TermsKept(s: State, s': State) {
    forall c :: Issued(s, c) ==> Issued(s', c) && SameVoucher(s.db.claims[c], s'.db.claims[c])
  }

  lemma PartnersFrame(t: Timing, s: State, s': State, phi: Partners, psi: Partners)
    requires PartnersFit(t, s, phi) && TermsKept(s, s')
    requires forall v :: v in psi ==> v in phi && psi[v] == phi[v]
    requires forall v :: v in psi && Unseen(s', v) ==> Unseen(s, v)
    requires forall v :: v in psi && New(s', v) ==> New(s, v)
    requires forall v :: v in psi && New(s', psi[v]) && v in s'.landing ==>
      New(s, psi[v]) && ((v in s.landing ==> LandedSinceRead(s, v)) ==> LandedSinceRead(s', v))
    ensures PartnersFit(t, s', psi)
  {
    forall v | v in psi ensures PartnerFits(t, s', v, psi[v]) {
      assert PartnerFits(t, s, v, phi[v]);
      if Unseen(s', v) {
        var z :| Bridges(t, s, v, z, phi[v]);
        assert Bridges(t, s', v, z, phi[v]);
      }
    }
  }

  lemma NewFrame(t: Timing, s: State, s': State)
    requires NewComeLast(t, s)
    requires forall v :: Issued(s', v) ==> Issued(s, v) && SameVoucher(s.db.claims[v], s'.db.claims[v])
    requires forall v :: Issued(s', v) ==> (New(s, v) <==> New(s', v))
    ensures NewComeLast(t, s')
  {
    forall u, v | Issued(s', u) && !New(s', u) && New(s', v) && SameKind(s'.db.claims[u], s'.db.claims[v])
      ensures Precedes(t, s'.db.claims[u], s'.db.claims[v])
    {
      assert Precedes(t, s.db.claims[u], s.db.claims[v]);
    }
  }

  // ---------------------------------------------------------------------------------
  // Steps that leave vouchers alone
  // ---------------------------------------------------------------------------------

  /** Only rows that are not vouchers yet may differ. */
  ghost predicate SameVouchers(s: State, s': State) {
    && s'.chain == s.chain && s'.landing == s.landing && s'.seen == s.seen && s'.height == s.height && s'.now == s.now && s'.tick == s.tick
    && s.ids <= s'.ids
    && (forall c :: Issued(s, c) <==> Issued(s', c))
    && (forall c :: Issued(s, c) ==> s'.db.claims[c] == s.db.claims[c])
    && (forall c :: c in s'.db.claims && c !in s.db.claims ==> c !in s.ids)
    && (forall c :: c in s'.db.claims && c in s.db.claims ==> s'.db.claims[c] == s.db.claims[c])
    && (forall sig :: Used(s.db.claims, sig) <==> Used(s'.db.claims, sig))
  }

  lemma VouchersFrame(t: Timing, s: State, s': State, phi: Partners)
    requires Matching(s, phi) && TickOk(t, s, phi) && SameVouchers(s, s') && RowsOk(t, s') && SweepOk(t, s') && UsedOk(s')
    ensures Matching(s', phi) && TickOk(t, s', phi)
  {
    forall v ensures v in phi <==> Outstanding(s', v) {
    }
    forall v | v in phi ensures Absorbs(s', v, phi[v]) {
      assert Absorbs(s, v, phi[v]);
    }
    VouchersFrameTick(t, s, s', phi);
  }

  lemma VouchersFrameTick(t: Timing, s: State, s': State, phi: Partners)
    requires TickOk(t, s, phi) && SameVouchers(s, s') && RowsOk(t, s') && SweepOk(t, s') && UsedOk(s')
    ensures TickOk(t, s', phi)
  {
    NewFrame(t, s, s');
    PartnersFrame(t, s, s', phi, phi);
    if s.tick.Resolving? {
      forall k, l | 0 <= k < s.tick.next && k < |s.tick.rows| && StillWaiting(s', s.tick.rows[k]) && l in s.tick.landed
        ensures !Candidate(l, s.tick.rows[k].claim, s.tick.used)
      {
        assert RowOk(t, s, k);
        assert StillWaiting(s, s.tick.rows[k]);
      }
    }
  }

  lemma CreateKeeps(t: Timing, s: State, s': State, phi: Partners, id: ClaimId, wallet: Wallet)
    requires Inv(t, s, phi) && Sound(t, s') && StepBy(t, s, s', RouteCreate(id, wallet))
    ensures Inv(t, s', phi)
  {
    CreateUses(s.db, id, wallet, s.now);
    VouchersFrame(t, s, s', phi);
  }

  lemma DeleteKeeps(t: Timing, s: State, s': State, phi: Partners, id: ClaimId)
    requires Inv(t, s, phi) && Sound(t, s') && StepBy(t, s, s', RouteDelete(id))
    ensures Inv(t, s', phi)
  {
    assert ClaimOk(s.db.tickets, s.now, id, s.db.claims[id]);
    forall sig ensures Used(s'.db.claims, sig) <==> Used(s.db.claims, sig) {
      if c :| c in s.db.claims && s.db.claims[c].txSignature == Some(sig) {
        assert c in s'.db.claims;
      }
    }
    VouchersFrame(t, s, s', phi);
  }

  // ---------------------------------------------------------------------------------
  // A voucher is handed out
  // ---------------------------------------------------------------------------------

  lemma HandOutKeeps(t: Timing, s: State, s': State, phi: Partners, id: ClaimId, lastValidBlockHeight: nat)
    returns (psi: Partners)
    requires Inv(t, s, phi) && GraceOk(t, s) && Sound(t, s') && StepBy(t, s, s', RouteHandOut(id, lastValidBlockHeight))
    ensures Inv(t, s', psi)
    ensures psi == if s.height <= lastValidBlockHeight then phi[id := id] else phi
  {
    assert ClaimOk(s.db.tickets, s.now, id, s.db.claims[id]);
    SameSignatures(s.db.claims, s'.db.claims);
    psi := if s.height <= lastValidBlockHeight then phi[id := id] else phi;
    HandOutMatching(s, s', phi, psi, id, lastValidBlockHeight);
    HandOutTick(t, s, s', phi, psi, id, lastValidBlockHeight);
  }

  lemma HandOutMatching(s: State, s': State, phi: Partners, psi: Partners, id: ClaimId, lastValidBlockHeight: nat)
    requires Matching(s, phi) && id in s.db.claims && !Stamped(s.db.claims[id]) && id !in s.landing
    requires s.db.claims[id].status == Pending
    requires exists amount :: s'.db == StampVoucher(s.db, id, amount, lastValidBlockHeight)
    requires s'.chain == s.chain && s'.landing == s.landing && s'.height == s.height
    requires forall sig :: Used(s.db.claims, sig) <==> Used(s'.db.claims, sig)
    requires psi == if s.height <= lastValidBlockHeight then phi[id := id] else phi
    ensures Matching(s', psi)
    ensures id !in phi && forall v :: v in phi ==> phi[v] != id
  {
    forall v | v in phi ensures phi[v] != id && v != id && Absorbs(s', v, phi[v]) {
      assert Absorbs(s, v, phi[v]);
    }
    forall v ensures v in psi <==> Outstanding(s', v) {
      if v != id {
        assert v in phi <==> Outstanding(s, v);
      }
    }
  }

  lemma HandOutTick(t: Timing, s: State, s': State, phi: Partners, psi: Partners, id: ClaimId, lastValidBlockHeight: nat)
    requires TickOk(t, s, phi) && StepBy(t, s, s', RouteHandOut(id, lastValidBlockHeight)) && ClaimsOk(s.db, s.now)
    requires RowsOk(t, s') && SweepOk(t, s') && UsedOk(s')
    requires !Stamped(s.db.claims[id]) && id !in s.landing && s.db.claims[id].status == Pending
    requires psi == if s.height <= lastValidBlockHeight then phi[id := id] else phi
    requires id !in phi && forall v :: v in phi ==> phi[v] != id
    requires forall sig :: Used(s.db.claims, sig) <==> Used(s'.db.claims, sig)
    ensures TickOk(t, s', psi)
  {
    var rows := Rows(s.tick);
    HandedOutIsNew(t, s, s', id, lastValidBlockHeight);
    HandOutPartners(t, s, s', phi, psi, id);
    if s.tick.Resolving? {
      forall k, l | 0 <= k < s.tick.next && k < |rows| && StillWaiting(s', rows[k]) && l in s.tick.landed
        ensures !Candidate(l, rows[k].claim, s.tick.used)
      {
        assert RowOk(t, s, k);
        assert StillWaiting(s, rows[k]);
      }
    }
  }

  /** A voucher handed out while a tick is under way is new to it, and comes after the others. */
  lemma HandedOutIsNew(t: Timing, s: State, s': State, id: ClaimId, lastValidBlockHeight: nat)
    requires RowsOk(t, s) && NewComeLast(t, s) && ClaimsOk(s.db, s.now)
    requires StepBy(t, s, s', RouteHandOut(id, lastValidBlockHeight))
    requires !Stamped(s.db.claims[id]) && s.db.claims[id].status == Pending
    ensures NewComeLast(t, s')
    ensures !s.tick.Idle? ==> New(s', id)
    ensures forall v :: v != id ==> (New(s', v) <==> New(s, v))
  {
    forall k | 0 <= k < |Rows(s.tick)| ensures !(Rows(s.tick)[k].id == id && Stamped(Rows(s.tick)[k].claim)) {
      assert RowOk(t, s, k);
    }
    forall u, v | Issued(s', u) && !New(s', u) && New(s', v) && SameKind(s'.db.claims[u], s'.db.claims[v])
      ensures Precedes(t, s'.db.claims[u], s'.db.claims[v])
    {
      if v == id {
        assert ClaimOk(s.db.tickets, s.now, u, s.db.claims[u]);
      } else {
        assert Precedes(t, s.db.claims[u], s.db.claims[v]);
      }
    }
  }

  lemma HandOutPartners(t: Timing, s: State, s': State, phi: Partners, psi: Partners, id: ClaimId)
    requires PartnersFit(t, s, phi) && TermsKept(s, s') && Issued(s', id) && id !in phi && id !in s.landing
    requires forall v :: v in phi ==> phi[v] != id
    requires s'.landing == s.landing && s'.chain == s.chain && s'.seen == s.seen && s'.tick == s.tick
    requires psi == phi[id := id] || psi == phi
    requires forall v :: v != id ==> (New(s', v) <==> New(s, v))
    ensures PartnersFit(t, s', psi)
  {
    PartnersFrame(t, s, s', phi, phi);
    assert Bridges(t, s', id, id, id);
  }

  // ---------------------------------------------------------------------------------
  // The chain and the clock move on
  // ---------------------------------------------------------------------------------

  lemma ChainGrowsTick(t: Timing, s: State, s': State, phi: Partners, tx: Tx)
    requires TickOk(t, s, phi) && PartnersFit(t, s', phi) && RowsOk(t, s') && SweepOk(t, s') && UsedOk(s')
    requires s'.chain == s.chain + [tx] && tx.height == s.height
    requires s' == s.(chain := s'.chain, landing := s'.landing)
    ensures TickOk(t, s', phi)
  {
    NewFrame(t, s, s');
    assert ReservedOk(s', phi) by {
      if s.tick.Resolving? {
        forall id | id in s.tick.reserved ensures s'.chain[s.tick.reserved[id]] == s.chain[s.tick.reserved[id]] {
        }
      }
    }
    DoneFrame(s, s');
  }

  lemma DoneFrame(s: State, s': State)
    requires DoneOk(s) && s'.db == s.db && s'.tick == s.tick
    ensures DoneOk(s')
  {
    if s.tick.Resolving? {
      forall k, l | 0 <= k < s.tick.next && k < |s.tick.rows| && StillWaiting(s', s.tick.rows[k]) && l in s.tick.landed
        ensures !Candidate(l, s.tick.rows[k].claim, s.tick.used)
      {
        assert StillWaiting(s, s.tick.rows[k]);
      }
    }
  }

  lemma LandKeeps(t: Timing, s: State, s': State, phi: Partners, v: ClaimId, info: SigInfo, realTime: int)
    requires Inv(t, s, phi) && Sound(t, s') && StepBy(t, s, s', Land(v, info, realTime))
    ensures Inv(t, s', phi)
  {
    FreshUnused(s);
    assert ClaimsOk(s.db, s.now);
    LandMatching(t, s, s', phi, v, info, realTime);
    ChainGrowsTick(t, s, s', phi, s'.chain[|s.chain|]);
  }

  lemma LandMatching(t: Timing, s: State, s': State, phi: Partners, v: ClaimId, info: SigInfo, realTime: int)
    requires Matching(s, phi) && PartnersFit(t, s, phi) && ClaimsOk(s.db, s.now) && RowsOk(t, s)
    requires StepBy(t, s, s', Land(v, info, realTime)) && !Used(s.db.claims, |s.chain|)
    ensures Matching(s', phi) && PartnersFit(t, s', phi)
  {
    PartnersFrame(t, s, s', phi, phi);
    assert Outstanding(s, v);
    assert v in phi;
    assert Absorbs(s, v, phi[v]);
    assert ClaimOk(s.db.tickets, s.now, phi[v], s.db.claims[phi[v]]);
    forall u ensures u in phi <==> Outstanding(s', u) {
      assert u in phi <==> Outstanding(s, u);
    }
    forall u | u in phi ensures Absorbs(s', u, phi[u]) {
      assert Absorbs(s, u, phi[u]);
    }
  }

  lemma OtherTxKeeps(t: Timing, s: State, s': State, phi: Partners, info: SigInfo, realTime: int)
    requires Inv(t, s, phi) && Sound(t, s') && StepBy(t, s, s', OtherTx(info, realTime))
    ensures Inv(t, s', phi)
  {
    OtherTxMatching(t, s, s', phi);
    ChainGrowsTick(t, s, s', phi, s'.chain[|s.chain|]);
  }

  lemma OtherTxMatching(t: Timing, s: State, s': State, phi: Partners)
    requires Matching(s, phi) && PartnersFit(t, s, phi)
    requires s.chain <= s'.chain && s' == s.(chain := s'.chain)
    ensures Matching(s', phi) && PartnersFit(t, s', phi)
  {
    PartnersFrame(t, s, s', phi, phi);
    forall u ensures u in phi <==> Outstanding(s', u) {
      assert u in phi <==> Outstanding(s, u);
    }
    forall u | u in phi ensures Absorbs(s', u, phi[u]) {
      assert Absorbs(s, u, phi[u]);
    }
  }

  lemma AdvanceKeeps(t: Timing, s: State, s': State, phi: Partners, height: nat, now: int) returns (psi: Partners)
    requires Inv(t, s, phi) && Sound(t, s') && StepBy(t, s, s', Advance(height, now))
    ensures Inv(t, s', psi)
    ensures forall v :: v in psi ==> v in phi && psi[v] == phi[v]
  {
    psi := map v | v in phi && Outstanding(s', v) :: phi[v];
    forall v ensures v in psi <==> Outstanding(s', v) {
      if Outstanding(s', v) {
        assert Outstanding(s, v);
      }
    }
    forall v | v in psi ensures Absorbs(s', v, psi[v]) {
      assert Absorbs(s, v, phi[v]);
    }
    AdvanceTick(t, s, s', phi, psi);
  }

  lemma AdvanceTick(t: Timing, s: State, s': State, phi: Partners, psi: Partners)
    requires TickOk(t, s, phi) && LandingOk(s) && Matching(s, phi) && RowsOk(t, s') && SweepOk(t, s') && UsedOk(s')
    requires s.height <= s'.height && s.now <= s'.now && s' == s.(height := s'.height, now := s'.now)
    requires psi == map v | v in phi && Outstanding(s', v) :: phi[v]
    ensures TickOk(t, s', psi)
  {
    NewFrame(t, s, s');
    PartnersFrame(t, s, s', phi, psi);
    AdvanceReserved(s, s', phi, psi);
    DoneFrame(s, s');
  }

  lemma AdvanceReserved(s: State, s': State, phi: Partners, psi: Partners)
    requires ReservedOk(s, phi) && LandingOk(s) && Matching(s, phi)
    requires s' == s.(height := s'.height, now := s'.now)
    requires psi == map v | v in phi && Outstanding(s', v) :: phi[v]
    ensures ReservedOk(s', psi)
  {
    if s.tick.Resolving? {
      forall id | id in s.tick.reserved
        ensures s.chain[s.tick.reserved[id]].voucher.value in psi
      {
        var v := s.chain[s.tick.reserved[id]].voucher.value;
        assert v in phi && Outstanding(s, v);
        assert v in s.landing;
        assert Outstanding(s', v);
      }
    }
  }

  // ---------------------------------------------------------------------------------
  // A tick reads its rows, sweeps the chain and reads the height
  // ---------------------------------------------------------------------------------

  lemma TickReadKeeps(t: Timing, s: State, s': State, phi: Partners, order: seq<ClaimId>)
    requires Inv(t, s, phi) && Sound(t, s') && StepBy(t, s, s', TickRead(order))
    ensures Inv(t, s', phi)
  {
    MatchingIgnoresTick(s, s', phi);
    TickReadTick(t, s, s', phi, order);
  }

  lemma TickReadTick(t: Timing, s: State, s': State, phi: Partners, order: seq<ClaimId>)
    requires RowsOk(t, s') && PartnersFit(t, s, phi)
    requires StepBy(t, s, s', TickRead(order))
    ensures TickOk(t, s', phi)
  {
    var rows := s'.tick.rows;
    forall v | Issued(s', v) && s'.db.claims[v].status == Pending ensures HandedOutWhenRead(rows, v) {
      var k :| 0 <= k < |order| && order[k] == v;
      assert rows[k].id == v;
    }
    PartnersFrame(t, s, s', phi, phi);
  }

  lemma MatchingIgnoresTick(s: State, s': State, phi: Partners)
    requires Matching(s, phi)
    requires s' == s.(tick := s'.tick, seen := s'.seen)
    ensures Matching(s', phi)
  {
    forall v ensures v in phi <==> Outstanding(s', v) {
    }
    forall v | v in phi ensures Absorbs(s', v, phi[v]) {
      assert Absorbs(s, v, phi[v]);
    }
  }

  lemma TickSweepKeeps(t: Timing, s: State, s': State, phi: Partners, tip: nat, startHeight: nat)
    requires t.steadyView && Inv(t, s, phi) && Sound(t, s') && StepBy(t, s, s', TickSweep(tip, startHeight))
    ensures Inv(t, s', phi)
  {
    MatchingIgnoresTick(s, s', phi);
    TickSweepTick(t, s, s', phi, tip, startHeight);
  }

  lemma TickSweepTick(t: Timing, s: State, s': State, phi: Partners, tip: nat, startHeight: nat)
    requires t.steadyView && TickOk(t, s, phi) && RowsOk(t, s') && SweepOk(t, s') && UsedOk(s')
    requires StepBy(t, s, s', TickSweep(tip, startHeight))
    ensures TickOk(t, s', phi)
  {
    NewFrame(t, s, s');
    PartnersFrame(t, s, s', phi, phi);
  }

  lemma TickHeightKeeps(t: Timing, s: State, s': State, phi: Partners, height: int)
    requires Inv(t, s, phi) && Sound(t, s') && StepBy(t, s, s', TickHeight(height))
    ensures Inv(t, s', phi)
  {
    MatchingIgnoresTick(s, s', phi);
    TickHeightTick(t, s, s', phi, height);
  }

  lemma TickHeightTick(t: Timing, s: State, s': State, phi: Partners, height: int)
    requires TickOk(t, s, phi) && RowsOk(t, s') && SweepOk(t, s') && UsedOk(s')
    requires StepBy(t, s, s', TickHeight(height))
    ensures TickOk(t, s', phi)
  {
    NewFrame(t, s, s');
    PartnersFrame(t, s, s', phi, phi);
  }

  lemma TickEndKeeps(t: Timing, s: State, s': State, phi: Partners)
    requires Inv(t, s, phi) && Sound(t, s') && StepBy(t, s, s', TickEnd)
    ensures Inv(t, s', phi)
  {
    MatchingIgnoresTick(s, s', phi);
    PartnersFrame(t, s, s', phi, phi);
  }
}
