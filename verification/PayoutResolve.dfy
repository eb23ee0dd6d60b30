/** Judging one row of a tick keeps the whole invariant. */
module PayoutResolve {
  import opened Wrappers
  import opened LandedClaims
  import opened PayoutDb
  import opened PayoutConfirmer
  import opened PayoutProtocol
  import opened PayoutInvariants
  import opened PayoutEveryRun
  import opened PayoutMatching
  import opened PayoutExchange

  /** Only a row that was a voucher when it was read loses one. */
  ghost predicate SignedWhenRead(s: State, s': State)
    requires s.tick.Resolving? && s.tick.next < |s.tick.rows|
  {
    Issued(s, Row(s).id) && s'.db != s.db ==> Stamped(Row(s).claim)
  }

  /** The judged row is not new, so a verdict makes nothing new or old. */
  lemma NewAfter(s: State, s': State)
    requires Judging(s) && SignedWhenRead(s, s') && OnlyRowChanged(s, s') && s'.tick.Resolving? && s'.tick.rows == s.tick.rows && s'.tick.readAt == s.tick.readAt
    ensures forall v :: Issued(s', v) ==> Issued(s, v) && (New(s, v) <==> New(s', v))
  {
    assert Stamped(Row(s).claim) ==> HandedOutWhenRead(s.tick.rows, Row(s).id);
  }

  lemma DoneAfter(s: State, s': State, verdict: Verdict, writeFails: bool)
    requires DoneOk(s) && Judging(s) && OnlyRowChanged(s, s')
    requires s'.tick == AfterVerdict(s.tick, verdict, writeFails)
    requires StillWaiting(s', Row(s)) ==> forall l :: l in s.tick.landed ==> !Candidate(l, Row(s).claim, s.tick.used)
    ensures DoneOk(s')
  {
  }

  // ---------------------------------------------------------------------------------
  // Verdicts without a hit
  // ---------------------------------------------------------------------------------

  /** Closing a claim nobody is matched with. */
  lemma ReleaseMatching(t: Timing, s: State, s': State, phi: Partners)
    requires Matching(s, phi) && PartnersFit(t, s, phi) && Judging(s) && OnlyRowChanged(s, s') && SignedWhenRead(s, s')
    requires s'.tick.Resolving? && s'.tick.rows == s.tick.rows && s'.tick.readAt == s.tick.readAt
    requires s.db != s'.db ==> forall v :: v in phi ==> phi[v] != Row(s).id
    requires forall sig :: Used(s.db.claims, sig) <==> Used(s'.db.claims, sig)
    ensures Matching(s', phi) && PartnersFit(t, s', phi)
  {
    NewAfter(s, s');
    PartnersFrame(t, s, s', phi, phi);
  }

  lemma NoHitTick(t: Timing, s: State, s': State, phi: Partners, verdict: Verdict, writeFails: bool)
    requires TickOk(t, s, phi) && Judging(s) && OnlyRowChanged(s, s') && PartnersFit(t, s', phi)
    requires RowsOk(t, s') && SweepOk(t, s') && UsedOk(s') && SignedWhenRead(s, s')
    requires s'.tick == AfterVerdict(s.tick, verdict, writeFails)
    requires Hit(s.tick.landed, Row(s).claim, s.tick.used) == None
    requires verdict == VerdictOf(s)
    requires forall sig :: Used(s.db.claims, sig) <==> Used(s'.db.claims, sig)
    ensures TickOk(t, s', phi)
  {
    NewAfter(s, s');
    NewFrame(t, s, s');
    HitIsOldest(s.tick.landed, Row(s).claim, s.tick.used);
    DoneAfter(s, s', verdict, writeFails);
    NoHitReserved(s, s', phi, verdict, writeFails);
  }

  lemma NoHitReserved(s: State, s': State, phi: Partners, verdict: Verdict, writeFails: bool)
    requires ReservedOk(s, phi) && Judging(s) && OnlyRowChanged(s, s')
    requires s'.tick == AfterVerdict(s.tick, verdict, writeFails) && !verdict.Confirm? && !verdict.Fail?
    ensures ReservedOk(s', phi)
  {
  }

  lemma WaitKeeps(t: Timing, s: State, s': State, phi: Partners, writeFails: bool)
    requires Inv(t, s, phi) && Sound(t, s') && StepBy(t, s, s', TickResolve(writeFails))
    requires Hit(s.tick.landed, Row(s).claim, s.tick.used) == None
    requires s'.db == s.db
    ensures Inv(t, s', phi)
  {
    MatchingIgnoresTick(s, s', phi);
    WaitTick(t, s, s', phi, writeFails);
  }

  lemma WaitTick(t: Timing, s: State, s': State, phi: Partners, writeFails: bool)
    requires TickOk(t, s, phi) && Judging(s) && Hit(s.tick.landed, Row(s).claim, s.tick.used) == None
    requires RowsOk(t, s') && SweepOk(t, s') && UsedOk(s')
    requires s' == s.(tick := AfterVerdict(s.tick, VerdictOf(s), writeFails))
    ensures TickOk(t, s', phi)
  {
    PartnersFrame(t, s, s', phi, phi);
    NoHitTick(t, s, s', phi, VerdictOf(s), writeFails);
  }

  lemma ExpireKeeps(t: Timing, s: State, s': State, phi: Partners)
    requires Fits(t) && Inv(t, s, phi) && Sound(t, s') && ExpiryOrdered(t, s) && StepBy(t, s, s', TickResolve(false))
    requires VerdictOf(s) == Expire || VerdictOf(s) == ExpireUnsigned
    ensures Inv(t, s', phi)
  {
    ReleasedRow(t, s, phi);
    ExpireStep(s, s');
    ReleaseMatching(t, s, s', phi);
    NoHitTick(t, s, s', phi, VerdictOf(s), false);
  }

  /** The row being released is pending, and nobody is matched with it. */
  lemma ReleasedRow(t: Timing, s: State, phi: Partners)
    requires Fits(t) && Matching(s, phi) && TickOk(t, s, phi) && LandingOk(s) && ChainOk(s.chain, s.height) && ExpiryOrdered(t, s)
    requires Judging(s) && s.now <= s.tick.readAt + t.tickSpan
    requires VerdictOf(s) == Expire || VerdictOf(s) == ExpireUnsigned
    ensures var id := Row(s).id;
      && (id in s.db.claims ==>
            && s.db.claims[id].status == Pending
            && (Stamped(s.db.claims[id]) ==> Stamped(Row(s).claim)))
      && forall v :: v in phi ==> phi[v] != id
  {
    assert RowOk(t, s, s.tick.next);
    if VerdictOf(s) == ExpireUnsigned {
      UnsignedNeverHandedOut(t, s);
      forall v | v in phi ensures phi[v] != Row(s).id {
        assert Absorbs(s, v, phi[v]);
      }
    } else {
      forall v | v in phi ensures phi[v] != Row(s).id {
        ExpiringHasNoPartner(t, s, phi, v);
      }
    }
  }

  // ---------------------------------------------------------------------------------
  // A hit
  // ---------------------------------------------------------------------------------

  /** The write is lost: the row stays pending and keeps the payment to itself. */
  lemma LostWriteKeeps(t: Timing, s: State, s': State, phi: Partners, h: Landed, b: ClaimId) returns (psi: Partners)
    requires Inv(t, s, phi) && Sound(t, s') && Covered(s) && StepBy(t, s, s', TickResolve(true))
    requires Hit(s.tick.landed, Row(s).claim, s.tick.used) == Some(h) && HitFits(s, phi, h, b)
    ensures Inv(t, s', psi)
    ensures psi == Exchange(phi, Row(s).id, b)
  {
    psi := Exchange(phi, Row(s).id, b);
    ExchangeKeeps(t, s, phi, h, b);
    HitIsReal(t, s, h);
    MatchingIgnoresTick(s, s', psi);
    LostWriteTick(t, s, s', phi, h, b);
  }

  lemma LostWriteTick(t: Timing, s: State, s': State, phi: Partners, h: Landed, b: ClaimId)
    requires TickOk(t, s, phi) && Judging(s) && HitFits(s, phi, h, b) && RowsOk(t, s') && SweepOk(t, s') && UsedOk(s')
    requires s'.tick == AfterVerdict(s.tick, Confirm(h.signature), true) && s' == s.(tick := s'.tick)
    requires ReservedOk(s, Exchange(phi, Row(s).id, b)) && PartnersFit(t, s, Exchange(phi, Row(s).id, b))
    ensures TickOk(t, s', Exchange(phi, Row(s).id, b))
  {
    NewAfter(s, s');
    NewFrame(t, s, s');
    PartnersFrame(t, s, s', Exchange(phi, Row(s).id, b), Exchange(phi, Row(s).id, b));
    DoneAfter(s, s', Confirm(h.signature), true);
    NotReserved(t, s);
    LostWriteReserved(s, s', phi, h, b);
  }

  lemma LostWriteReserved(s: State, s': State, phi: Partners, h: Landed, b: ClaimId)
    requires Judging(s) && HitFits(s, phi, h, b)
    requires s'.tick == AfterVerdict(s.tick, Confirm(h.signature), true) && s' == s.(tick := s'.tick)
    requires ReservedOk(s, Exchange(phi, Row(s).id, b))
    ensures ReservedOk(s', Exchange(phi, Row(s).id, b))
  {
  }

  ghost predicate Confirms(s: State, s': State, h: Landed)
    requires s.tick.Resolving? && s.tick.next < |s.tick.rows|
  {
    s' == s.(db := ConfirmClaim(s.db, Row(s).id, h.signature), tick := AfterVerdict(s.tick, Confirm(h.signature), false))
  }

  lemma HitConfirms(t: Timing, s: State, s': State, h: Landed)
    requires StepBy(t, s, s', TickResolve(false))
    requires Hit(s.tick.landed, Row(s).claim, s.tick.used) == Some(h) && !h.failed
    ensures Confirms(s, s', h)
  {
  }

  /** The write succeeds: the payment's voucher is settled and the row's claim is closed. */
  lemma ConfirmKeeps(t: Timing, s: State, s': State, phi: Partners, h: Landed, b: ClaimId) returns (psi: Partners)
    requires Inv(t, s, phi) && Sound(t, s') && Covered(s) && Judging(s)
    requires Hit(s.tick.landed, Row(s).claim, s.tick.used) == Some(h) && HitFits(s, phi, h, b)
    requires Confirms(s, s', h)
    ensures Inv(t, s', psi)
    ensures psi == Exchange(phi, Row(s).id, b) - {b}
  {
    var chi := Exchange(phi, Row(s).id, b);
    psi := chi - {b};
    ConfirmStep(s, s', h.signature);
    ExchangeKeeps(t, s, phi, h, b);
    ConfirmMatching(t, s, s', chi, h, b);
    ConfirmTick(t, s, s', chi, h, b);
  }

  lemma ConfirmMatching(t: Timing, s: State, s': State, chi: Partners, h: Landed, b: ClaimId)
    requires Matching(s, chi) && PartnersFit(t, s, chi) && LandingOk(s) && Judging(s)
    requires b in chi && chi[b] == Row(s).id && b in s.landing && s.landing[b] == h.signature
    requires OnlyRowChanged(s, s') && SignedWhenRead(s, s')
    requires s'.tick.Resolving? && s'.tick.rows == s.tick.rows && s'.tick.readAt == s.tick.readAt
    requires forall sig :: Used(s'.db.claims, sig) <==> Used(s.db.claims, sig) || sig == h.signature
    ensures Matching(s', chi - {b}) && PartnersFit(t, s', chi - {b})
  {
    var psi := chi - {b};
    NewAfter(s, s');
    PartnersFrame(t, s, s', chi, psi);
    forall v ensures v in psi <==> Outstanding(s', v) {
      assert v in chi <==> Outstanding(s, v);
      if v in s.landing && s.landing[v] == h.signature {
        assert s.chain[s.landing[v]].voucher == Some(v);
        assert s.chain[s.landing[b]].voucher == Some(b);
      }
    }
    forall v | v in psi ensures Absorbs(s', v, psi[v]) {
      assert Absorbs(s, v, chi[v]);
      assert chi[v] != chi[b];
    }
  }

  lemma ConfirmTick(t: Timing, s: State, s': State, chi: Partners, h: Landed, b: ClaimId)
    requires RowsOk(t, s) && NewComeLast(t, s) && UsedOk(s) && ReservedOk(s, chi) && DoneOk(s) && RowsOk(t, s') && SweepOk(t, s') && UsedOk(s')
    requires Judging(s) && OnlyRowChanged(s, s') && SignedWhenRead(s, s') && PartnersFit(t, s', chi - {b})
    requires s'.tick == AfterVerdict(s.tick, Confirm(h.signature), false)
    requires Row(s).id in s'.db.claims && s'.db.claims[Row(s).id].status == Confirmed
    requires b in chi && chi[b] == Row(s).id
    requires forall sig :: Used(s'.db.claims, sig) <==> Used(s.db.claims, sig) || sig == h.signature
    ensures TickOk(t, s', chi - {b})
  {
    NewAfter(s, s');
    NewFrame(t, s, s');
    DoneAfter(s, s', Confirm(h.signature), false);
    NotReserved(t, s);
    ConfirmReserved(s, s', chi, h, b);
  }

  lemma ConfirmReserved(s: State, s': State, chi: Partners, h: Landed, b: ClaimId)
    requires ReservedOk(s, chi) && Judging(s) && OnlyRowChanged(s, s') && Row(s).id !in s.tick.reserved
    requires s'.tick == AfterVerdict(s.tick, Confirm(h.signature), false)
    requires b in chi && chi[b] == Row(s).id
    ensures ReservedOk(s', chi - {b})
  {
  }

  // ---------------------------------------------------------------------------------
  // Any verdict
  // ---------------------------------------------------------------------------------

  lemma HitKeeps(t: Timing, s: State, s': State, phi: Partners, writeFails: bool, h: Landed) returns (psi: Partners)
    requires Inv(t, s, phi) && Sound(t, s') && Covered(s) && StepBy(t, s, s', TickResolve(writeFails))
    requires Hit(s.tick.landed, Row(s).claim, s.tick.used) == Some(h)
    ensures Inv(t, s', psi)
  {
    var b := HitIsFitting(t, s, phi, h);
    if writeFails {
      psi := LostWriteKeeps(t, s, s', phi, h, b);
    } else {
      HitConfirms(t, s, s', h);
      psi := ConfirmKeeps(t, s, s', phi, h, b);
    }
  }

  lemma ResolveKeeps(t: Timing, s: State, s': State, phi: Partners, writeFails: bool) returns (psi: Partners)
    requires Fits(t) && Inv(t, s, phi) && Sound(t, s') && ExpiryOrdered(t, s) && Covered(s)
    requires StepBy(t, s, s', TickResolve(writeFails))
    ensures Inv(t, s', psi)
  {
    var hit := Hit(s.tick.landed, Row(s).claim, s.tick.used);
    if hit.Some? {
      psi := HitKeeps(t, s, s', phi, writeFails, hit.value);
    } else {
      psi := phi;
      if writeFails || VerdictOf(s) == Wait {
        WaitKeeps(t, s, s', phi, writeFails);
      } else {
        ExpireKeeps(t, s, s', phi);
      }
    }
  }
}
