/**
 The exchange argument: judging one row, whatever the verdict and whether or not the write
 succeeds, leaves every outstanding voucher with a partner.
 */
module PayoutExchange {
  import opened Wrappers
  import opened LandedClaims
  import opened PayoutDb
  import opened PayoutConfirmer
  import opened PayoutProtocol
  import opened PayoutInvariants
  import opened PayoutEveryRun
  import opened PayoutMatching

  /** At most one voucher of this wallet and amount is outstanding. */
  ghost predicate LoneVoucher(s: State, kind: Claim) {
    forall u, v :: Outstanding(s, u) && Outstanding(s, v) && SameKind(s.db.claims[u], kind) && SameKind(s.db.claims[v], kind) ==> u == v
  }

  /** A tick may act on a sweep that was cut short only where no two vouchers can be confused. */
  ghost predicate Covered(s: State) {
    Judging(s) && !s.tick.complete ==> LoneVoucher(s, Row(s).claim)
  }

  // ---------------------------------------------------------------------------------
  // The payment a row hits
  // ---------------------------------------------------------------------------------

  /** The hit is the unattributed landed payment of some outstanding voucher, and the row is live. */
  ghost predicate HitFits(s: State, phi: Partners, h: Landed, b: ClaimId)
    requires s.tick.Resolving? && s.tick.next < |s.tick.rows|
  {
    && 0 <= h.signature < |s.chain| && h.signature < s.tick.tip && s.chain[h.signature].voucher == Some(b)
    && h == EntryOf(s.chain[h.signature]) && !h.failed
    && h in s.tick.landed && Candidate(h, Row(s).claim, s.tick.used)
    && b in s.landing && s.landing[b] == h.signature && b in phi
    && Stamped(Row(s).claim) && ConfirmFits(s, Row(s).id, h.signature)
  }

  lemma HitIsFitting(t: Timing, s: State, phi: Partners, h: Landed) returns (b: ClaimId)
    requires Inv(t, s, phi) && Judging(s)
    requires Hit(s.tick.landed, Row(s).claim, s.tick.used) == Some(h)
    ensures HitFits(s, phi, h, b)
  {
    HitIsReal(t, s, h);
    b := s.chain[h.signature].voucher.value;
    assert Outstanding(s, b);
  }

  /** A claim with a reserved payment is matched with exactly that payment's voucher. */
  lemma ReservedPartner(s: State, phi: Partners, b: ClaimId)
    requires Matching(s, phi) && ReservedOk(s, phi) && LandingOk(s) && s.tick.Resolving? && b in phi
    ensures phi[b] in s.tick.reserved ==>
      b in s.landing && s.landing[b] == s.tick.reserved[phi[b]] && s.tick.reserved[phi[b]] in s.tick.used
  {
    if phi[b] in s.tick.reserved {
      var owner := s.chain[s.tick.reserved[phi[b]]].voucher.value;
      assert owner == b;
    }
  }

  /** A row already judged would have taken the payment itself. */
  lemma PartnerNotJudged(t: Timing, s: State, phi: Partners, h: Landed, b: ClaimId, k: nat)
    requires Matching(s, phi) && TickOk(t, s, phi) && LandingOk(s) && ChainOk(s.chain, s.height)
    requires Judging(s) && HitFits(s, phi, h, b)
    requires k < |s.tick.rows| && s.tick.rows[k].id == phi[b] && Stamped(s.tick.rows[k].claim)
    ensures s.tick.next <= k
  {
    assert Absorbs(s, b, phi[b]);
    assert RowOk(t, s, k) && RowOk(t, s, s.tick.next);
    assert TxOk(s.chain, h.signature, s.height);
    ReservedPartner(s, phi, b);
    assert Candidate(h, s.tick.rows[k].claim, s.tick.used);
    assert StillWaiting(s, s.tick.rows[k]);
  }

  /** The claim that was to absorb the payment was created no earlier than the row that takes it, or handed out since. */
  lemma PartnerIsLater(t: Timing, s: State, phi: Partners, h: Landed, b: ClaimId)
    requires Matching(s, phi) && TickOk(t, s, phi) && LandingOk(s) && ChainOk(s.chain, s.height)
    requires Judging(s) && HitFits(s, phi, h, b)
    ensures phi[b] in s.db.claims
    ensures Row(s).claim.createdAt <= s.db.claims[phi[b]].createdAt || New(s, phi[b])
  {
    var c := phi[b];
    assert Absorbs(s, b, c);
    assert RowOk(t, s, s.tick.next);
    if HandedOutWhenRead(s.tick.rows, c) {
      var k :| 0 <= k < |s.tick.rows| && s.tick.rows[k].id == c && Stamped(s.tick.rows[k].claim);
      assert RowOk(t, s, k);
      PartnerNotJudged(t, s, phi, h, b, k);
    }
  }

  /** A payment that landed no later than the sweep's view, and not too early, is on the list. */
  lemma SeenIsListed(t: Timing, s: State, phi: Partners, v: ClaimId)
    requires Matching(s, phi) && TickOk(t, s, phi) && LandingOk(s) && ChainOk(s.chain, s.height)
    requires Judging(s) && s.tick.complete && v in phi && phi[v] == Row(s).id && Stamped(Row(s).claim)
    requires v in s.landing && s.landing[v] < s.tick.tip
    ensures EntryOf(s.chain[s.landing[v]]) in s.tick.landed
    ensures Candidate(EntryOf(s.chain[s.landing[v]]), Row(s).claim, s.tick.used)
  {
    var tx := s.chain[s.landing[v]];
    assert Absorbs(s, v, Row(s).id);
    assert RowOk(t, s, s.tick.next);
    assert TxOk(s.chain, s.landing[v], s.height);
    SweepBoundCovers(s.tick.rows[0].claim.createdAt, Row(s).claim.createdAt, tx.realTime);
    assert Outstanding(s, v);
    NotReserved(t, s);
    assert tx.info.signature !in s.tick.used;
  }

  /** Whoever was to be absorbed by the row can be absorbed by the displaced claim instead. */
  lemma Displaced(t: Timing, s: State, phi: Partners, h: Landed, b: ClaimId, v: ClaimId)
    requires Matching(s, phi) && TickOk(t, s, phi) && LandingOk(s) && ChainOk(s.chain, s.height)
    requires Judging(s) && HitFits(s, phi, h, b) && Covered(s)
    requires Hit(s.tick.landed, Row(s).claim, s.tick.used) == Some(h)
    requires v in phi && phi[v] == Row(s).id && v != b
    ensures Absorbs(s, v, phi[b]) && PartnerFits(t, s, v, phi[b])
  {
    assert Absorbs(s, v, Row(s).id) && Absorbs(s, b, phi[b]);
    assert Outstanding(s, v) && Outstanding(s, b);
    assert RowOk(t, s, s.tick.next);
    assert PartnerFits(t, s, b, phi[b]);
    if Unseen(s, v) {
      DisplacedIsNear(t, s, phi, h, b, v);
    }
    if v in s.landing {
      if s.landing[v] < s.tick.tip {
        SeenIsListed(t, s, phi, v);
        HitIsOldest(s.tick.landed, Row(s).claim, s.tick.used);
      }
      OlderSlotOlderTime(s.chain, s.height, h.signature, s.landing[v]);
    }
  }

  /** The displaced claim waits for the voucher as long as the row would have. */
  lemma DisplacedIsNear(t: Timing, s: State, phi: Partners, h: Landed, b: ClaimId, v: ClaimId)
    requires Matching(s, phi) && TickOk(t, s, phi) && LandingOk(s) && ChainOk(s.chain, s.height)
    requires Judging(s) && HitFits(s, phi, h, b)
    requires v in phi && phi[v] == Row(s).id && v != b && Unseen(s, v)
    ensures Near(t, s, v, phi[b]) && !New(s, v)
  {
    var a, c := Row(s).id, phi[b];
    assert RowOk(t, s, s.tick.next);
    assert HandedOutWhenRead(Rows(s.tick), a);
    assert PartnerFits(t, s, v, a) && Absorbs(s, v, a) && Absorbs(s, b, c);
    PartnerIsLater(t, s, phi, h, b);
    if New(s, c) {
      assert Bridges(t, s, v, c, c);
    } else {
      var z :| Bridges(t, s, v, z, a);
      assert Bridges(t, s, v, z, c);
    }
  }

  lemma OlderSlotOlderTime(chain: seq<Tx>, height: nat, i: nat, j: nat)
    requires ChainOk(chain, height) && i < |chain| && j < |chain|
    requires i < j || chain[i].info.slot <= chain[j].info.slot
    ensures chain[i].realTime <= chain[j].realTime
  {
  }

  // ---------------------------------------------------------------------------------
  // Exchanging partners
  // ---------------------------------------------------------------------------------

  /** `b` takes `a` as its partner; whoever had `a` gets `b`'s. */
  function Exchange(phi: Partners, a: ClaimId, b: ClaimId): Partners
    requires b in phi
  {
    map v | v in phi :: if v == b then a else if phi[v] == a then phi[b] else phi[v]
  }

  lemma ExchangeKeeps(t: Timing, s: State, phi: Partners, h: Landed, b: ClaimId)
    requires Matching(s, phi) && TickOk(t, s, phi) && LandingOk(s) && ChainOk(s.chain, s.height)
    requires Judging(s) && HitFits(s, phi, h, b) && Covered(s)
    requires Hit(s.tick.landed, Row(s).claim, s.tick.used) == Some(h)
    ensures Matching(s, Exchange(phi, Row(s).id, b))
    ensures PartnersFit(t, s, Exchange(phi, Row(s).id, b))
    ensures ReservedOk(s, Exchange(phi, Row(s).id, b))
  {
    forall v | v in phi
      ensures var c := Exchange(phi, Row(s).id, b)[v];
        Absorbs(s, v, c) && PartnerFits(t, s, v, c)
    {
      ExchangeAbsorbs(t, s, phi, h, b, v);
    }
    ExchangeIsMatching(s, phi, Row(s).id, b);
    ExchangeReserved(t, s, phi, h, b);
  }

  lemma ExchangeIsMatching(s: State, phi: Partners, a: ClaimId, b: ClaimId)
    requires Matching(s, phi) && b in phi
    requires forall v :: v in phi ==> Absorbs(s, v, Exchange(phi, a, b)[v])
    ensures Matching(s, Exchange(phi, a, b))
  {
  }

  lemma ExchangeAbsorbs(t: Timing, s: State, phi: Partners, h: Landed, b: ClaimId, v: ClaimId)
    requires Matching(s, phi) && TickOk(t, s, phi) && LandingOk(s) && ChainOk(s.chain, s.height)
    requires Judging(s) && HitFits(s, phi, h, b) && Covered(s)
    requires Hit(s.tick.landed, Row(s).claim, s.tick.used) == Some(h)
    requires v in phi
    ensures var c := Exchange(phi, Row(s).id, b)[v];
      Absorbs(s, v, c) && PartnerFits(t, s, v, c)
  {
    assert Absorbs(s, v, phi[v]) && PartnerFits(t, s, v, phi[v]);
    if v == b {
      RowAbsorbs(t, s, phi, h, b);
    } else if phi[v] == Row(s).id {
      Displaced(t, s, phi, h, b, v);
    }
  }

  /** The row that takes a payment can absorb it, and the payment was seen. */
  lemma RowAbsorbs(t: Timing, s: State, phi: Partners, h: Landed, b: ClaimId)
    requires Matching(s, phi) && TickOk(t, s, phi) && LandingOk(s) && ChainOk(s.chain, s.height)
    requires Judging(s) && HitFits(s, phi, h, b)
    ensures Absorbs(s, b, Row(s).id) && PartnerFits(t, s, b, Row(s).id)
  {
    assert Absorbs(s, b, phi[b]) && PartnerFits(t, s, b, phi[b]);
    assert RowOk(t, s, s.tick.next);
    PartnerIsLater(t, s, phi, h, b);
    assert HandedOutWhenRead(Rows(s.tick), Row(s).id);
  }

  lemma ExchangeReserved(t: Timing, s: State, phi: Partners, h: Landed, b: ClaimId)
    requires Matching(s, phi) && RowsOk(t, s) && UsedOk(s) && ReservedOk(s, phi) && LandingOk(s)
    requires Judging(s) && HitFits(s, phi, h, b)
    ensures ReservedOk(s, Exchange(phi, Row(s).id, b))
  {
    NotReserved(t, s);
  }

  // ---------------------------------------------------------------------------------
  // No partner is released
  // ---------------------------------------------------------------------------------

  /** A voucher that may expire absorbs nobody: no payment was, or will be, left for it. */
  lemma ExpiringHasNoPartner(t: Timing, s: State, phi: Partners, v: ClaimId)
    requires Fits(t) && Matching(s, phi) && TickOk(t, s, phi) && LandingOk(s) && ChainOk(s.chain, s.height)
    requires ExpiryOrdered(t, s)
    requires Judging(s) && VerdictOf(s) == Expire && v in phi
    ensures phi[v] != Row(s).id
  {
    var a := Row(s);
    HitIsOldest(s.tick.landed, a.claim, s.tick.used);
    if phi[v] == a.id {
      assert RowOk(t, s, s.tick.next);
      assert Absorbs(s, v, a.id) && Outstanding(s, v);
      if v in s.landing && s.landing[v] < s.tick.tip {
        SeenIsListed(t, s, phi, v);
      } else {
        assert PartnerFits(t, s, v, a.id);
        NearOutlives(t, s, v, a.id);
      }
    }
  }

  /** A voucher outlives a claim near it by no more than the slack. */
  lemma NearOutlives(t: Timing, s: State, v: ClaimId, c: ClaimId)
    requires ExpiryOrdered(t, s) && Near(t, s, v, c)
    ensures Issued(s, v) && Issued(s, c)
    ensures s.db.claims[v].lastValidBlockHeight.value <= s.db.claims[c].lastValidBlockHeight.value + Slack(t)
  {
    var z :| Bridges(t, s, v, z, c);
    assert ExpiresInOrder(t, s.db.claims[z], s.db.claims[c]);
    assert ExpiresInOrder(t, s.db.claims[v], s.db.claims[c]);
  }

  /** An earlier voucher of the same wallet and amount does not outlive a later one by more than `inversion` blocks. */
  predicate ExpiresInOrder(t: Timing, a: Claim, b: Claim) {
    SameKind(a, b) && Stamped(a) && Stamped(b) && a.createdAt <= b.createdAt ==>
      a.lastValidBlockHeight.value <= b.lastValidBlockHeight.value + t.inversion
  }

  ghost predicate ExpiryOrdered(t: Timing, s: State) {
    forall a, b :: Issued(s, a) && Issued(s, b) ==> ExpiresInOrder(t, s.db.claims[a], s.db.claims[b])
  }

  /** A row that had not become a voucher when read, and is past its grace period, never did. */
  lemma UnsignedNeverHandedOut(t: Timing, s: State)
    requires InGrace(t) && RowsOk(t, s) && Judging(s) && s.now <= s.tick.readAt + t.tickSpan
    requires VerdictOf(s) == ExpireUnsigned
    ensures Row(s).id in s.db.claims ==>
      && !Stamped(s.db.claims[Row(s).id]) && s.db.claims[Row(s).id].status == Pending
      && s.now > s.db.claims[Row(s).id].createdAt + t.issue
  {
    assert RowOk(t, s, s.tick.next);
  }
}
