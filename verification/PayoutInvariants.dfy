/** What every step of the voucher protocol keeps: the rows, the chain and the money. */
module PayoutInvariants {
  import opened Wrappers
  import opened LandedClaims
  import opened Sums
  import opened PayoutDb
  import opened PayoutProtocol

  // ---------------------------------------------------------------------------------
  // Rows
  // ---------------------------------------------------------------------------------

  /** A ticket's claim, if any, is its buyer's, and their states agree. */
  ghost predicate TicketOk(claims: map<ClaimId, Claim>, t: Ticket) {
    match t.payoutClaimId
    case None => t.winStatus != PaidOutOnSolana
    case Some(id) =>
      && id in claims && claims[id].wallet == t.buyer
      && t.winStatus == (if claims[id].status == Confirmed then PaidOutOnSolana else ClaimedOnBase)
  }

  ghost predicate TicketsOk(db: Db) {
    forall i :: 0 <= i < |db.tickets| ==> TicketOk(db.claims, db.tickets[i])
  }

  ghost predicate ClaimOk(tickets: seq<Ticket>, now: int, id: ClaimId, c: Claim) {
    && c.createdAt <= now
    && (c.status == Confirmed <==> c.txSignature.Some?)
    && (if Stamped(c) then
          && c.amountUsdc > 0
          && (c.status == Pending || c.status == Confirmed ==> c.amountUsdc == BoundSum(tickets, id))
        else
          c.amountUsdc == 0 && c.status != Confirmed)
  }

  ghost predicate ClaimsOk(db: Db, now: int) {
    forall id :: id in db.claims ==> ClaimOk(db.tickets, now, id, db.claims[id])
  }

  ghost predicate RoutesOk(s: State) {
    forall id :: id in s.routes ==>
      && id in s.db.claims && !Stamped(s.db.claims[id])
      && (s.routes[id].Summed? && s.db.claims[id].status == Pending ==> s.routes[id].amount == BoundSum(s.db.tickets, id))
  }

  // ---------------------------------------------------------------------------------
  // Chain
  // ---------------------------------------------------------------------------------

  ghost predicate ChainOk(chain: seq<Tx>, height: nat) {
    && (forall i :: 0 <= i < |chain| ==> TxOk(chain, i, height))
    && (forall i, j :: 0 <= i < j < |chain| ==> InSequence(chain[i], chain[j]))
  }

  predicate TxOk(chain: seq<Tx>, i: nat, height: nat)
    requires i < |chain|
  {
    var tx := chain[i];
    && tx.info.signature == i && tx.height <= height
    && (tx.info.blockTime == None || tx.info.blockTime == Some(tx.realTime))
    && (tx.voucher.Some? ==> !tx.info.failed)
  }

  predicate InSequence(a: Tx, b: Tx) {
    && a.info.slot <= b.info.slot && a.realTime <= b.realTime && a.height <= b.height
    && (a.info.slot == b.info.slot ==> a.realTime == b.realTime)
  }

  /** `landing` is where each voucher's one payment sits on the chain. */
  ghost predicate LandingOk(s: State) {
    && (forall v :: v in s.landing ==>
          && s.landing[v] < |s.chain| && s.chain[s.landing[v]].voucher == Some(v)
          && Issued(s, v)
          && s.chain[s.landing[v]].wallet == s.db.claims[v].wallet
          && s.chain[s.landing[v]].amount == s.db.claims[v].amountUsdc
          && s.chain[s.landing[v]].height <= s.db.claims[v].lastValidBlockHeight.value)
    && (forall i :: 0 <= i < |s.chain| && s.chain[i].voucher.Some? ==>
          s.chain[i].voucher.value in s.landing && s.landing[s.chain[i].voucher.value] == i)
  }

  /** A stamped signature is a landed payment of that wallet and amount, and belongs to one claim. */
  ghost predicate SignaturesOk(s: State) {
    && (forall id :: id in s.db.claims && s.db.claims[id].txSignature.Some? ==>
          var sig := s.db.claims[id].txSignature.value;
          && 0 <= sig < |s.chain| && s.chain[sig].voucher.Some?
          && s.chain[sig].wallet == s.db.claims[id].wallet && s.chain[sig].amount == s.db.claims[id].amountUsdc)
    && (forall a, b :: a in s.db.claims && b in s.db.claims && a != b && s.db.claims[a].txSignature.Some? ==>
          s.db.claims[a].txSignature != s.db.claims[b].txSignature)
  }

  // ---------------------------------------------------------------------------------
  // Money
  // ---------------------------------------------------------------------------------

  function LandedAmount(wallet: Wallet): Tx -> int {
    (tx: Tx) => if tx.voucher.Some? && tx.wallet == wallet then tx.amount else 0
  }

  /** A landed payment no claim has been confirmed with yet. */
  function UnusedAmount(claims: map<ClaimId, Claim>, wallet: Wallet): Tx -> int {
    (tx: Tx) => if tx.voucher.Some? && tx.wallet == wallet && !Used(claims, tx.info.signature) then tx.amount else 0
  }

  function PaidAmount(wallet: Wallet): Ticket -> int {
    (t: Ticket) => if t.winStatus == PaidOutOnSolana && t.buyer == wallet then t.winAmount else 0
  }

  /** What left the vault for a wallet is what its paid-out tickets won, plus payments not attributed yet. */
  ghost predicate MoneyOk(s: State, wallet: Wallet) {
    SumBy(LandedAmount(wallet), s.chain)
    == SumBy(PaidAmount(wallet), s.db.tickets) + SumBy(UnusedAmount(s.db.claims, wallet), s.chain)
  }

  ghost predicate CoreOk(s: State) {
    && TicketsOk(s.db) && ClaimsOk(s.db, s.now) && RoutesOk(s)
    && s.db.claims.Keys <= s.ids
    && ChainOk(s.chain, s.height) && LandingOk(s) && SignaturesOk(s)
    && forall w :: MoneyOk(s, w)
  }

  lemma InitOk(s: State)
    requires Init(s)
    ensures CoreOk(s)
  {
    forall w ensures MoneyOk(s, w) {
      SumZero(PaidAmount(w), s.db.tickets);
    }
  }

  // ---------------------------------------------------------------------------------
  // Tickets change
  // ---------------------------------------------------------------------------------

  /** The tables may change in any way that leaves what each claim's tickets are worth alone. */
  ghost predicate SameWorth(ts: seq<Ticket>, us: seq<Ticket>, id: ClaimId) {
    && |ts| == |us|
    && forall i :: 0 <= i < |ts| ==> BoundAmount(id)(ts[i]) == BoundAmount(id)(us[i])
  }

  lemma SameBoundSum(ts: seq<Ticket>, us: seq<Ticket>, id: ClaimId)
    requires SameWorth(ts, us, id)
    ensures BoundSum(ts, id) == BoundSum(us, id)
  {
    SumAgrees(BoundAmount(id), ts, BoundAmount(id), us);
  }

  /** Updating one unbound, unpaid ticket to another keeps everything. */
  lemma TicketStepOk(s: State, s': State, i: nat, ticket: Ticket)
    requires CoreOk(s) && i < |s.db.tickets|
    requires s.db.tickets[i].payoutClaimId == None && ticket.payoutClaimId == None
    requires ticket.winStatus != PaidOutOnSolana
    requires s' == s.(db := s.db.(tickets := s.db.tickets[i := ticket]))
    ensures CoreOk(s')
  {
    var ts, us := s.db.tickets, s'.db.tickets;
    assert TicketOk(s.db.claims, ts[i]);
    forall id ensures BoundSum(us, id) == BoundSum(ts, id) {
      SameBoundSum(us, ts, id);
    }
    assert ClaimsOk(s'.db, s'.now) by {
      forall id | id in s.db.claims ensures ClaimOk(us, s.now, id, s.db.claims[id]) {
        assert ClaimOk(ts, s.now, id, s.db.claims[id]);
      }
    }
    forall w ensures MoneyOk(s', w) {
      assert MoneyOk(s, w);
      SumAgrees(PaidAmount(w), us, PaidAmount(w), ts);
    }
  }

  /** A ticket that is not on its way to a user has no claim. */
  lemma Unclaimed(s: State, i: nat)
    requires TicketsOk(s.db) && i < |s.db.tickets|
    requires s.db.tickets[i].winStatus != ClaimedOnBase && s.db.tickets[i].winStatus != PaidOutOnSolana
    ensures s.db.tickets[i].payoutClaimId == None
  {
  }

  lemma GradeOk(t: Timing, s: State, s': State, i: nat, status: WinStatus, amount: nat)
    requires CoreOk(s) && StepBy(t, s, s', Grade(i, status, amount))
    ensures CoreOk(s')
  {
    Unclaimed(s, i);
    TicketStepOk(s, s', i, s'.db.tickets[i]);
  }

  lemma HarvestOk(t: Timing, s: State, s': State, i: nat)
    requires CoreOk(s) && StepBy(t, s, s', Harvest(i))
    ensures CoreOk(s')
  {
    Unclaimed(s, i);
    TicketStepOk(s, s', i, s'.db.tickets[i]);
  }

  // ---------------------------------------------------------------------------------
  // Voucher requests
  // ---------------------------------------------------------------------------------

  /** Money depends on the claims only through their signatures. */
  lemma SameMoney(s: State, s': State)
    requires s'.chain == s.chain && |s'.db.tickets| == |s.db.tickets|
    requires forall sig :: Used(s'.db.claims, sig) <==> Used(s.db.claims, sig)
    requires forall i :: 0 <= i < |s.db.tickets| ==>
      forall w :: PaidAmount(w)(s'.db.tickets[i]) == PaidAmount(w)(s.db.tickets[i])
    requires forall w :: MoneyOk(s, w)
    ensures forall w :: MoneyOk(s', w)
  {
    forall w ensures MoneyOk(s', w) {
      assert MoneyOk(s, w);
      SumAgrees(PaidAmount(w), s'.db.tickets, PaidAmount(w), s.db.tickets);
      SumAgrees(UnusedAmount(s'.db.claims, w), s.chain, UnusedAmount(s.db.claims, w), s.chain);
    }
  }

  /** What was recorded about landed vouchers stays put. */
  lemma LandedFrame(s: State, s': State)
    requires LandingOk(s) && SignaturesOk(s)
    requires s'.chain == s.chain && s'.landing == s.landing
    requires forall c :: c in s.db.claims && (Stamped(s.db.claims[c]) || s.db.claims[c].txSignature.Some?) ==>
      c in s'.db.claims && SameVoucher(s.db.claims[c], s'.db.claims[c])
    requires forall c :: c in s'.db.claims && s'.db.claims[c].txSignature.Some? ==>
      c in s.db.claims && s.db.claims[c].txSignature == s'.db.claims[c].txSignature
    ensures LandingOk(s') && SignaturesOk(s')
  {
  }

  /** A voucher's terms never change once it is handed out. */
  predicate SameVoucher(a: Claim, b: Claim) {
    a.wallet == b.wallet && a.amountUsdc == b.amountUsdc && a.lastValidBlockHeight == b.lastValidBlockHeight && a.createdAt == b.createdAt
  }

  lemma CreateOk(t: Timing, s: State, s': State, id: ClaimId, wallet: Wallet)
    requires CoreOk(s) && StepBy(t, s, s', RouteCreate(id, wallet))
    ensures CoreOk(s')
  {
    CreateRows(t, s, s', id, wallet);
    CreateUses(s.db, id, wallet, s.now);
    LandedFrame(s, s');
    SameMoney(s, s');
  }

  lemma CreateRows(t: Timing, s: State, s': State, id: ClaimId, wallet: Wallet)
    requires TicketsOk(s.db) && ClaimsOk(s.db, s.now) && RoutesOk(s) && s.db.claims.Keys <= s.ids
    requires StepBy(t, s, s', RouteCreate(id, wallet))
    ensures TicketsOk(s'.db) && ClaimsOk(s'.db, s'.now) && RoutesOk(s') && s'.db.claims.Keys <= s'.ids
  {
  }

  lemma CreateUses(db: Db, id: ClaimId, wallet: Wallet, now: int)
    requires id !in db.claims
    ensures forall sig :: Used(CreateClaim(db, id, wallet, now).claims, sig) <==> Used(db.claims, sig)
  {
    forall sig ensures Used(CreateClaim(db, id, wallet, now).claims, sig) <==> Used(db.claims, sig) {
      if c :| c in db.claims && db.claims[c].txSignature == Some(sig) {
        assert CreateClaim(db, id, wallet, now).claims[c].txSignature == Some(sig);
      }
    }
  }

  lemma BindOk(t: Timing, s: State, s': State, id: ClaimId, revealed: set<int>)
    requires CoreOk(s) && StepBy(t, s, s', RouteBind(id, revealed))
    ensures CoreOk(s')
  {
    var ts, us := s.db.tickets, s'.db.tickets;
    assert ClaimOk(ts, s.now, id, s.db.claims[id]);
    forall i | 0 <= i < |ts| ensures TicketOk(s'.db.claims, us[i]) {
      assert TicketOk(s.db.claims, ts[i]);
    }
    forall c | c != id ensures BoundSum(us, c) == BoundSum(ts, c) {
      SameBoundSum(us, ts, c);
    }
    ClaimsFrame(s, s', id);
    SameMoney(s, s');
  }

  /** Claims other than an unstamped `id` are untouched and worth the same. */
  lemma ClaimsFrame(s: State, s': State, id: ClaimId)
    requires ClaimsOk(s.db, s.now) && s'.now == s.now
    requires forall c :: c in s'.db.claims ==> c in s.db.claims && s'.db.claims[c] == s.db.claims[c]
    requires id in s'.db.claims ==> !Stamped(s'.db.claims[id])
    requires forall c :: c != id ==> BoundSum(s'.db.tickets, c) == BoundSum(s.db.tickets, c)
    ensures ClaimsOk(s'.db, s'.now)
  {
  }

  /** Releasing an unpaid claim's tickets leaves every other claim's tickets alone. */
  lemma UnbindFrame(ts: seq<Ticket>, id: ClaimId)
    ensures forall c :: c != id ==> BoundSum(UnbindAll(ts, id), c) == BoundSum(ts, c)
  {
    forall c | c != id ensures BoundSum(UnbindAll(ts, id), c) == BoundSum(ts, c) {
      SameBoundSum(UnbindAll(ts, id), ts, c);
    }
  }

  /** Releasing the tickets of a claim that was not confirmed keeps tickets consistent, even once it is gone. */
  lemma UnbindTicketsOk(db: Db, claims: map<ClaimId, Claim>, id: ClaimId)
    requires TicketsOk(db)
    requires id in db.claims ==> db.claims[id].status != Confirmed
    requires forall c :: c in db.claims && c != id ==>
      c in claims && claims[c].wallet == db.claims[c].wallet && claims[c].status == db.claims[c].status
    ensures TicketsOk(Db(UnbindAll(db.tickets, id), claims))
  {
  }

  lemma RouteReleaseOk(t: Timing, s: State, s': State, id: ClaimId)
    requires CoreOk(s) && StepBy(t, s, s', RouteRelease(id))
    ensures CoreOk(s')
  {
    assert ClaimOk(s.db.tickets, s.now, id, s.db.claims[id]);
    UnbindFrame(s.db.tickets, id);
    UnbindTicketsOk(s.db, s.db.claims, id);
    ClaimsFrame(s, s', id);
    UnbindMoney(s, s', id);
  }

  lemma DeleteOk(t: Timing, s: State, s': State, id: ClaimId)
    requires CoreOk(s) && StepBy(t, s, s', RouteDelete(id))
    ensures CoreOk(s')
  {
    assert ClaimOk(s.db.tickets, s.now, id, s.db.claims[id]);
    UnbindFrame(s.db.tickets, id);
    UnbindTicketsOk(s.db, s'.db.claims, id);
    ClaimsFrame(s, s', id);
    forall sig ensures Used(s'.db.claims, sig) <==> Used(s.db.claims, sig) {
      if c :| c in s.db.claims && s.db.claims[c].txSignature == Some(sig) {
        assert c in s'.db.claims;
      }
    }
    UnbindMoney(s, s', id);
  }

  /** Unpaid tickets change hands without touching the money. */
  lemma UnbindMoney(s: State, s': State, id: ClaimId)
    requires s'.chain == s.chain && s'.db.tickets == UnbindAll(s.db.tickets, id)
    requires forall sig :: Used(s'.db.claims, sig) <==> Used(s.db.claims, sig)
    requires forall w :: MoneyOk(s, w)
    ensures forall w :: MoneyOk(s', w)
  {
    SameMoney(s, s');
  }

  lemma HandOutOk(t: Timing, s: State, s': State, id: ClaimId, lastValidBlockHeight: nat)
    requires CoreOk(s) && StepBy(t, s, s', RouteHandOut(id, lastValidBlockHeight))
    ensures CoreOk(s')
  {
    HandOutRows(t, s, s', id, lastValidBlockHeight);
    SameSignatures(s.db.claims, s'.db.claims);
    LandedFrame(s, s');
    SameMoney(s, s');
  }

  lemma HandOutRows(t: Timing, s: State, s': State, id: ClaimId, lastValidBlockHeight: nat)
    requires TicketsOk(s.db) && ClaimsOk(s.db, s.now) && RoutesOk(s)
    requires StepBy(t, s, s', RouteHandOut(id, lastValidBlockHeight))
    ensures TicketsOk(s'.db) && ClaimsOk(s'.db, s'.now) && RoutesOk(s')
    ensures !Stamped(s.db.claims[id]) && s.db.claims[id].txSignature == None
  {
  }

  lemma SameSignatures(a: map<ClaimId, Claim>, b: map<ClaimId, Claim>)
    requires a.Keys == b.Keys
    requires forall c :: c in a ==> a[c].txSignature == b[c].txSignature
    ensures forall sig :: Used(a, sig) <==> Used(b, sig)
  {
  }

  // ---------------------------------------------------------------------------------
  // The chain grows
  // ---------------------------------------------------------------------------------

  lemma FollowsInSequence(chain: seq<Tx>, height: nat, tx: Tx)
    requires ChainOk(chain, height) && Follows(chain, tx.info, tx.realTime) && tx.height == height
    requires tx.voucher.Some? ==> !tx.info.failed
    ensures ChainOk(chain + [tx], height)
  {
    var c := chain + [tx];
    forall i | 0 <= i < |c| ensures TxOk(c, i, height) {
      if i < |chain| {
        assert TxOk(chain, i, height);
      }
    }
    forall i, j | 0 <= i < j < |c| ensures InSequence(c[i], c[j]) {
      if j < |chain| {
        assert InSequence(chain[i], chain[j]);
      } else if i < |chain| - 1 {
        assert InSequence(chain[i], chain[|chain| - 1]);
        assert TxOk(chain, i, height);
      } else {
        assert TxOk(chain, i, height);
      }
    }
  }

  lemma FreshUnused(s: State)
    requires SignaturesOk(s)
    ensures !Used(s.db.claims, |s.chain|)
  {
  }

  lemma AppendMoney(s: State, s': State, tx: Tx)
    requires s'.chain == s.chain + [tx] && s'.db == s.db
    requires !Used(s.db.claims, tx.info.signature)
    requires forall w :: MoneyOk(s, w)
    ensures forall w :: MoneyOk(s', w)
  {
    forall w ensures MoneyOk(s', w) {
      assert MoneyOk(s, w);
      SumAppend(LandedAmount(w), s.chain, tx);
      SumAppend(UnusedAmount(s.db.claims, w), s.chain, tx);
    }
  }

  lemma LandOk(t: Timing, s: State, s': State, v: ClaimId, info: SigInfo, realTime: int)
    requires CoreOk(s) && StepBy(t, s, s', Land(v, info, realTime))
    ensures CoreOk(s')
  {
    var tx := s'.chain[|s.chain|];
    FollowsInSequence(s.chain, s.height, tx);
    FreshUnused(s);
    AppendMoney(s, s', tx);
    LandingGrows(s, s', tx, v);
  }

  lemma LandingGrows(s: State, s': State, tx: Tx, v: ClaimId)
    requires LandingOk(s) && SignaturesOk(s) && v !in s.landing && Issued(s, v)
    requires tx.voucher == Some(v) && tx.wallet == s.db.claims[v].wallet && tx.amount == s.db.claims[v].amountUsdc
    requires tx.height <= s.db.claims[v].lastValidBlockHeight.value
    requires s'.db == s.db && s'.chain == s.chain + [tx] && s'.landing == s.landing[v := |s.chain|]
    ensures LandingOk(s') && SignaturesOk(s')
  {
  }

  lemma OtherTxOk(t: Timing, s: State, s': State, info: SigInfo, realTime: int)
    requires CoreOk(s) && StepBy(t, s, s', OtherTx(info, realTime))
    ensures CoreOk(s')
  {
    var tx := s'.chain[|s.chain|];
    FollowsInSequence(s.chain, s.height, tx);
    FreshUnused(s);
    AppendMoney(s, s', tx);
    LandingStays(s, s', tx);
  }

  lemma LandingStays(s: State, s': State, tx: Tx)
    requires LandingOk(s) && SignaturesOk(s) && tx.voucher == None
    requires s'.db == s.db && s'.chain == s.chain + [tx] && s'.landing == s.landing
    ensures LandingOk(s') && SignaturesOk(s')
  {
  }

  lemma AdvanceOk(t: Timing, s: State, s': State, height: nat, now: int)
    requires CoreOk(s) && StepBy(t, s, s', Advance(height, now))
    ensures CoreOk(s')
  {
    forall c | c in s.db.claims ensures ClaimOk(s.db.tickets, now, c, s.db.claims[c]) {
      assert ClaimOk(s.db.tickets, s.now, c, s.db.claims[c]);
    }
    forall i | 0 <= i < |s.chain| ensures TxOk(s.chain, i, height) {
      assert TxOk(s.chain, i, s.height);
    }
    assert forall w :: MoneyOk(s, w) ==> MoneyOk(s', w);
  }

  // ---------------------------------------------------------------------------------
  // The confirmer resolves a row
  // ---------------------------------------------------------------------------------

  /** Releasing a pending claim. */
  lemma ReleaseOk(s: State, s': State, id: ClaimId)
    requires CoreOk(s)
    requires id in s.db.claims ==>
      s.db.claims[id].status == Pending
    requires s'.db == ReleaseClaim(s.db, id, Expired)
    requires s'.ids == s.ids && s'.routes == s.routes && s'.chain == s.chain && s'.landing == s.landing && s'.height == s.height && s'.now == s.now
    ensures CoreOk(s')
  {
    if id in s.db.claims {
      ReleaseRows(s, s', id);
      SameSignatures(s.db.claims, s'.db.claims);
      LandedFrame(s, s');
      UnbindMoney(s, s', id);
    } else {
      assert forall w :: MoneyOk(s, w) ==> MoneyOk(s', w);
    }
  }

  lemma ReleaseRows(s: State, s': State, id: ClaimId)
    requires TicketsOk(s.db) && ClaimsOk(s.db, s.now) && RoutesOk(s)
    requires id in s.db.claims && s.db.claims[id].status == Pending
    requires s'.db == ReleaseClaim(s.db, id, Expired) && s'.routes == s.routes && s'.now == s.now
    ensures TicketsOk(s'.db) && ClaimsOk(s'.db, s'.now) && RoutesOk(s')
  {
    assert ClaimOk(s.db.tickets, s.now, id, s.db.claims[id]);
    UnbindFrame(s.db.tickets, id);
    UnbindTicketsOk(s.db, s'.db.claims, id);
    forall c | c in s'.db.claims ensures ClaimOk(s'.db.tickets, s'.now, c, s'.db.claims[c]) {
      assert ClaimOk(s.db.tickets, s.now, c, s.db.claims[c]);
    }
  }

  /** Confirming a pending voucher with an unattributed payment of its wallet and amount. */
  ghost predicate ConfirmFits(s: State, id: ClaimId, sig: Signature) {
    && id in s.db.claims && s.db.claims[id].status == Pending && Stamped(s.db.claims[id])
    && 0 <= sig < |s.chain| && s.chain[sig].voucher.Some?
    && s.chain[sig].wallet == s.db.claims[id].wallet && s.chain[sig].amount == s.db.claims[id].amountUsdc
    && !Used(s.db.claims, sig)
  }

  lemma ConfirmUses(s: State, id: ClaimId, sig: Signature)
    requires ConfirmFits(s, id, sig)
    requires s.db.claims[id].txSignature == None
    ensures forall x :: Used(ConfirmClaim(s.db, id, sig).claims, x) <==> Used(s.db.claims, x) || x == sig
  {
    var after := ConfirmClaim(s.db, id, sig).claims;
    forall x ensures Used(after, x) <==> Used(s.db.claims, x) || x == sig {
      if c :| c in s.db.claims && s.db.claims[c].txSignature == Some(x) {
        assert after[c].txSignature == Some(x);
      }
      if x == sig {
        assert after[id].txSignature == Some(x);
      }
    }
  }

  /** One payment moves from unattributed to paid out. */
  lemma ConfirmMoney(s: State, s': State, id: ClaimId, sig: Signature, w: Wallet)
    requires CoreOk(s) && ConfirmFits(s, id, sig)
    requires s'.db == ConfirmClaim(s.db, id, sig) && s'.chain == s.chain
    requires forall x :: Used(s'.db.claims, x) <==> Used(s.db.claims, x) || x == sig
    ensures MoneyOk(s', w)
  {
    assert MoneyOk(s, w);
    var claim := s.db.claims[id];
    assert ClaimOk(s.db.tickets, s.now, id, claim);
    var ts, us := s.db.tickets, s'.db.tickets;
    var own := claim.wallet == w;
    var bound: Ticket -> int := (x: Ticket) => if own then BoundAmount(id)(x) else 0;
    forall i | 0 <= i < |ts| ensures PaidAmount(w)(us[i]) == PaidAmount(w)(ts[i]) + bound(ts[i]) {
      assert TicketOk(s.db.claims, ts[i]);
    }
    SumSplit(PaidAmount(w), us, PaidAmount(w), ts, bound, ts);
    if own {
      SumAgrees(bound, ts, BoundAmount(id), ts);
    } else {
      SumZero(bound, ts);
    }
    var single: Tx -> int := (x: Tx) => if x.info.signature == sig && own then x.amount else 0;
    var before, after := UnusedAmount(s.db.claims, w), UnusedAmount(s'.db.claims, w);
    forall i | 0 <= i < |s.chain|
      ensures before(s.chain[i]) == after(s.chain[i]) + single(s.chain[i])
      ensures i != sig ==> single(s.chain[i]) == 0
    {
      assert TxOk(s.chain, i, s.height);
    }
    SumSplit(before, s.chain, after, s.chain, single, s.chain);
    assert TxOk(s.chain, sig, s.height);
    SumSingle(single, s.chain, sig);
  }

  lemma ConfirmOk(s: State, s': State, id: ClaimId, sig: Signature)
    requires CoreOk(s) && ConfirmFits(s, id, sig)
    requires s'.db == ConfirmClaim(s.db, id, sig)
    requires s'.ids == s.ids && s'.routes == s.routes && s'.chain == s.chain && s'.landing == s.landing && s'.height == s.height && s'.now == s.now
    ensures CoreOk(s')
  {
    assert ClaimOk(s.db.tickets, s.now, id, s.db.claims[id]);
    ConfirmUses(s, id, sig);
    forall w ensures MoneyOk(s', w) {
      ConfirmMoney(s, s', id, sig, w);
    }
    ConfirmRows(s, s', id, sig);
    forall c | c in s.db.claims ensures s.db.claims[c].txSignature != Some(sig) {
    }
  }

  lemma ConfirmRows(s: State, s': State, id: ClaimId, sig: Signature)
    requires TicketsOk(s.db) && ClaimsOk(s.db, s.now) && RoutesOk(s) && ConfirmFits(s, id, sig)
    requires s'.db == ConfirmClaim(s.db, id, sig) && s'.routes == s.routes && s'.now == s.now
    ensures TicketsOk(s'.db) && ClaimsOk(s'.db, s'.now) && RoutesOk(s')
  {
    var ts, us := s.db.tickets, s'.db.tickets;
    forall i | 0 <= i < |us| ensures TicketOk(s'.db.claims, us[i]) {
      assert TicketOk(s.db.claims, ts[i]);
    }
    forall c ensures BoundSum(us, c) == BoundSum(ts, c) {
      SameBoundSum(us, ts, c);
    }
    forall c | c in s'.db.claims ensures ClaimOk(us, s'.now, c, s'.db.claims[c]) {
      assert ClaimOk(ts, s.now, c, s.db.claims[c]);
    }
  }
}
