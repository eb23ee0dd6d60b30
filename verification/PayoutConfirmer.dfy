/**
 The payout confirmer's tick (backend/src/workers/payoutConfirmer.ts): attributes landed
 claim transactions to pending vouchers, oldest first, and expires vouchers that can no
 longer land.
 */
module PayoutConfirmer {
  import opened Wrappers
  import opened LandedClaims
  import opened PayoutDb

  const EXPIRY_BUFFER_BLOCKS: nat := 150
  const UNSIGNED_GRACE_MS: nat := 120_000
  const CLOCK_SKEW_MS: nat := 60_000

  /** A claim row as the tick read it. */
  datatype PendingRow = PendingRow(id: ClaimId, claim: Claim)

  // ---------------------------------------------------------------------------------
  // Attribution: which landed transaction belongs to a pending voucher
  // ---------------------------------------------------------------------------------

  predicate AfterIssuance(blockTime: Option<int>, createdAt: int) {
    blockTime.None? || blockTime.value * 1000 >= createdAt - CLOCK_SKEW_MS
  }

  /** The landed transaction could be this voucher's. */
  predicate Matches(l: Landed, c: Claim) {
    l.wallet == c.wallet && AfterIssuance(l.blockTime, c.createdAt) && l.amount == c.amountUsdc
  }

  predicate Candidate(l: Landed, c: Claim, used: set<Signature>) {
    l.signature !in used && Matches(l, c)
  }

  function OfWallet(landed: seq<Landed>, wallet: Wallet): seq<Landed> {
    if |landed| == 0 then []
    else OfWallet(landed[..|landed| - 1], wallet)
         + if landed[|landed| - 1].wallet == wallet then [landed[|landed| - 1]] else []
  }

  ghost predicate SlotsAscend(s: seq<Landed>) {
    forall i, j :: 0 <= i < j < |s| ==> s[i].slot <= s[j].slot
  }

  /** Stable: an element goes behind those of its own slot. */
  function InsertBySlot(s: seq<Landed>, l: Landed): seq<Landed> {
    if |s| == 0 || s[|s| - 1].slot <= l.slot then s + [l]
    else InsertBySlot(s[..|s| - 1], l) + [s[|s| - 1]]
  }

  function SortBySlot(s: seq<Landed>): seq<Landed> {
    if |s| == 0 then []
    else InsertBySlot(SortBySlot(s[..|s| - 1]), s[|s| - 1])
  }

  lemma {:induction false} InsertKeepsElements(s: seq<Landed>, l: Landed)
    ensures multiset(InsertBySlot(s, l)) == multiset(s) + multiset{l}
  {
    if |s| > 0 && s[|s| - 1].slot > l.slot {
      InsertKeepsElements(s[..|s| - 1], l);
      LastApart(s);
    }
  }

  lemma {:induction false} InsertKeepsOrder(s: seq<Landed>, l: Landed)
    requires SlotsAscend(s)
    ensures SlotsAscend(InsertBySlot(s, l))
  {
    if |s| > 0 && s[|s| - 1].slot > l.slot {
      var front, last := s[..|s| - 1], s[|s| - 1];
      var r := InsertBySlot(front, l);
      InsertKeepsOrder(front, l);
      InsertKeepsElements(front, l);
      forall i | 0 <= i < |r| ensures r[i].slot <= last.slot {
        assert r[i] in multiset(r);
        assert r[i] == l || r[i] in front;
      }
    }
  }

  lemma LastApart(s: seq<Landed>)
    requires |s| > 0
    ensures multiset(s) == multiset(s[..|s| - 1]) + multiset{s[|s| - 1]}
  {
    assert s == s[..|s| - 1] + [s[|s| - 1]];
  }

  lemma {:induction false} SortIsOrderedPermutation(s: seq<Landed>)
    ensures SlotsAscend(SortBySlot(s))
    ensures multiset(SortBySlot(s)) == multiset(s)
  {
    if |s| > 0 {
      var front, last := s[..|s| - 1], s[|s| - 1];
      SortIsOrderedPermutation(front);
      InsertKeepsOrder(SortBySlot(front), last);
      InsertKeepsElements(SortBySlot(front), last);
      LastApart(s);
      assert SortBySlot(s) == InsertBySlot(SortBySlot(front), last);
    }
  }

  function FirstCandidate(s: seq<Landed>, c: Claim, used: set<Signature>): Option<Landed> {
    if |s| == 0 then None
    else if Candidate(s[0], c, used) then Some(s[0])
    else FirstCandidate(s[1..], c, used)
  }

  /** The transaction a tick attributes to a voucher. */
  function Hit(landed: seq<Landed>, c: Claim, used: set<Signature>): Option<Landed> {
    FirstCandidate(SortBySlot(OfWallet(landed, c.wallet)), c, used)
  }

  lemma {:induction false} OfWalletKeeps(landed: seq<Landed>, wallet: Wallet, l: Landed)
    ensures l in OfWallet(landed, wallet) <==> l in landed && l.wallet == wallet
  {
    if |landed| > 0 {
      OfWalletKeeps(landed[..|landed| - 1], wallet, l);
      assert landed == landed[..|landed| - 1] + [landed[|landed| - 1]];
    }
  }

  lemma {:induction false} FirstCandidateIsFirst(s: seq<Landed>, c: Claim, used: set<Signature>)
    ensures var hit := FirstCandidate(s, c, used);
            && (hit.None? ==> forall l :: l in s ==> !Candidate(l, c, used))
            && (hit.Some? ==> hit.value in s && Candidate(hit.value, c, used))
            && (hit.Some? && SlotsAscend(s) ==> forall l :: l in s && Candidate(l, c, used) ==> hit.value.slot <= l.slot)
  {
    if |s| > 0 && !Candidate(s[0], c, used) {
      FirstCandidateIsFirst(s[1..], c, used);
      assert SlotsAscend(s) ==> SlotsAscend(s[1..]);
    }
  }

  /** A hit is an unused landed match in the oldest slot; without one, no unused match landed. */
  lemma HitIsOldest(landed: seq<Landed>, c: Claim, used: set<Signature>)
    ensures var hit := Hit(landed, c, used);
            && (hit.None? <==> forall l :: l in landed ==> !Candidate(l, c, used))
            && (hit.Some? ==> hit.value in landed && Candidate(hit.value, c, used))
            && (hit.Some? ==> forall l :: l in landed && Candidate(l, c, used) ==> hit.value.slot <= l.slot)
  {
    var own := OfWallet(landed, c.wallet);
    var sorted := SortBySlot(own);
    SortIsOrderedPermutation(own);
    FirstCandidateIsFirst(sorted, c, used);
    forall l: Landed ensures l in sorted <==> l in landed && l.wallet == c.wallet {
      OfWalletKeeps(landed, c.wallet, l);
      assert l in sorted <==> l in multiset(sorted);
    }
  }

  // ---------------------------------------------------------------------------------
  // Resolving one voucher
  // ---------------------------------------------------------------------------------

  datatype Verdict =
    | Confirm(signature: Signature)
    | Fail(failedSignature: Signature)
    | ExpireUnsigned
    | Expire
    | Wait

  /** What the loop body decides for one row. */
  function Judge(c: Claim, landed: seq<Landed>, complete: bool, used: set<Signature>, height: int, now: int): Verdict {
    var hit := Hit(landed, c, used);
    if hit.Some? then
      if hit.value.failed then Fail(hit.value.signature) else Confirm(hit.value.signature)
    else if c.lastValidBlockHeight.None? then
      if now - c.createdAt > UNSIGNED_GRACE_MS then ExpireUnsigned else Wait
    else if !complete then Wait
    else if height > c.lastValidBlockHeight.value + EXPIRY_BUFFER_BLOCKS then Expire
    else Wait
  }

  /**
   What decides a row, without the words above: `l` could be its payment if it is of the wallet and
   the amount, not of a signature spoken for, and not dated more than a minute before the row.
   */
  lemma JudgeMeans(c: Claim, landed: seq<Landed>, complete: bool, used: set<Signature>, height: int, now: int)
    ensures var verdict := Judge(c, landed, complete, used, height, now);
      var fits := (l: Landed) =>
        l.wallet == c.wallet && l.amount == c.amountUsdc && l.signature !in used
        && (l.blockTime.None? || l.blockTime.value * 1000 >= c.createdAt - 60_000);
      && (verdict.Confirm? || verdict.Fail? <==> exists l :: l in landed && fits(l))
      && (verdict.Confirm? ==> exists l :: l in landed && fits(l) && !l.failed && l.signature == verdict.signature
                                           && forall m :: m in landed && fits(m) ==> l.slot <= m.slot)
      && (verdict.Fail? ==> exists l :: l in landed && fits(l) && l.failed && l.signature == verdict.failedSignature
                                        && forall m :: m in landed && fits(m) ==> l.slot <= m.slot)
      && (verdict.ExpireUnsigned? <==>
            (forall l :: l in landed ==> !fits(l)) && c.lastValidBlockHeight.None? && now - c.createdAt > 120_000)
      && (verdict.Expire? <==>
            (forall l :: l in landed ==> !fits(l)) && complete && c.lastValidBlockHeight.Some? && height > c.lastValidBlockHeight.value + 150)
  {
    HitIsOldest(landed, c, used);
  }

  function Carry(db: Db, id: ClaimId, verdict: Verdict): Db {
    match verdict
    case Confirm(signature) => ConfirmClaim(db, id, signature)
    case Fail(_) => ReleaseClaim(db, id, Failed)
    case ExpireUnsigned => ReleaseClaim(db, id, Expired)
    case Expire => ReleaseClaim(db, id, Expired)
    case Wait => db
  }

  /** What a verdict writes: the row's own tickets are paid or given back, and nothing else is touched. */
  lemma CarryMeans(db: Db, id: ClaimId, verdict: Verdict)
    ensures var after := Carry(db, id, verdict);
      && |after.tickets| == |db.tickets|
      && (id !in db.claims || verdict.Wait? ==> after == db)
      && (id in db.claims ==> after.claims == db.claims[id := after.claims[id]])
      && (id in db.claims && verdict.Confirm? ==>
            && after.claims[id] == db.claims[id].(status := Confirmed, txSignature := Some(verdict.signature))
            && forall i :: 0 <= i < |db.tickets| ==>
                 var t := db.tickets[i];
                 after.tickets[i] == if t.payoutClaimId == Some(id) && t.winStatus == ClaimedOnBase then t.(winStatus := PaidOutOnSolana) else t)
      && (id in db.claims && !verdict.Confirm? && !verdict.Wait? ==>
            && after.claims[id] == db.claims[id].(status := if verdict.Fail? then Failed else Expired)
            && forall i :: 0 <= i < |db.tickets| ==>
                 var t := db.tickets[i];
                 after.tickets[i] == if t.payoutClaimId == Some(id) then t.(payoutClaimId := None) else t)
  {
  }

  /** A signature is spoken for as soon as it is attributed, whether or not the write succeeds. */
  function Spoken(used: set<Signature>, verdict: Verdict): set<Signature> {
    match verdict
    case Confirm(signature) => used + {signature}
    case Fail(signature) => used + {signature}
    case _ => used
  }

  /** The sweep a tick acts on, with everything it reads once. */
  datatype Sweep = Sweep(landed: seq<Landed>, complete: bool, height: int)

  /** The rows after resolving `pending` in order; writes for the claims in `failing` are lost. */
  function ResolveAll(
      db: Db,
      pending: seq<PendingRow>,
      sweep: Sweep,
      used: set<Signature>,
      clock: seq<int>,
      failing: set<ClaimId>): Db
    requires |clock| == |pending|
    decreases |pending|
  {
    if |pending| == 0 then db
    else
      var row := pending[0];
      var verdict := Judge(row.claim, sweep.landed, sweep.complete, used, sweep.height, clock[0]);
      var next := if row.id in failing then db else Carry(db, row.id, verdict);
      ResolveAll(next, pending[1..], sweep, Spoken(used, verdict), clock[1..], failing)
  }

  // ---------------------------------------------------------------------------------
  // The tick
  // ---------------------------------------------------------------------------------

  /** `findMany({ status: PENDING, orderBy: createdAt asc })`; ties come in any order. */
  ghost predicate PendingQuery(db: Db, order: seq<ClaimId>) {
    && (forall i :: 0 <= i < |order| ==> order[i] in db.claims && db.claims[order[i]].status == Pending)
    && (forall id :: id in db.claims && db.claims[id].status == Pending ==> id in order)
    && (forall i, j :: 0 <= i < j < |order| ==>
          order[i] != order[j] && db.claims[order[i]].createdAt <= db.claims[order[j]].createdAt)
  }

  function RowsOf(db: Db, order: seq<ClaimId>): (rows: seq<PendingRow>)
    requires forall i :: 0 <= i < |order| ==> order[i] in db.claims
    ensures |rows| == |order|
    ensures forall i :: 0 <= i < |order| ==> rows[i] == PendingRow(order[i], db.claims[order[i]])
  {
    seq(|order|, i requires 0 <= i < |order| => PendingRow(order[i], db.claims[order[i]]))
  }

  /** The oldest pending voucher's creation minus the clock skew, in whole seconds (Euclidean division floors). */
  function SweepBound(createdAt: int): (bound: int)
    ensures bound * 1000 <= createdAt - CLOCK_SKEW_MS < (bound + 1) * 1000
  {
    (createdAt - CLOCK_SKEW_MS) / 1000
  }

  /** Everything at or after the bound of the oldest voucher covers every later voucher's matches. */
  lemma SweepBoundCovers(oldest: int, createdAt: int, blockTime: int)
    requires oldest <= createdAt && blockTime * 1000 >= createdAt - CLOCK_SKEW_MS
    ensures SweepBound(oldest) <= blockTime
  {
  }

  /** Groups the landed claims by wallet and sorts each group by slot. */
  method GroupByWallet(landed: seq<Landed>) returns (byWallet: map<Wallet, seq<Landed>>)
    ensures forall w :: w in byWallet ==> byWallet[w] == SortBySlot(OfWallet(landed, w))
    ensures forall w :: w !in byWallet ==> OfWallet(landed, w) == []
  {
    byWallet := map[];
    for i := 0 to |landed|
      invariant forall w :: w in byWallet ==> byWallet[w] == OfWallet(landed[..i], w)
      invariant forall w :: w !in byWallet ==> OfWallet(landed[..i], w) == []
    {
      var c := landed[i];
      var list := if c.wallet in byWallet then byWallet[c.wallet] else [];
      byWallet := byWallet[c.wallet := list + [c]];
      assert landed[..i + 1][..i] == landed[..i];
    }
    assert landed[..|landed|] == landed;
    byWallet := map w | w in byWallet :: SortBySlot(byWallet[w]);
  }

  /** The body of the tick's loop, for one row. */
  method ResolveRow(
      tables: Tables,
      row: PendingRow,
      byWallet: map<Wallet, seq<Landed>>,
      complete: bool,
      alreadyUsed: set<Signature>,
      height: int,
      now: int,
      writeFails: bool,
      ghost landed: seq<Landed>)
    returns (used: set<Signature>)
    requires forall w :: w in byWallet ==> byWallet[w] == SortBySlot(OfWallet(landed, w))
    requires forall w :: w !in byWallet ==> OfWallet(landed, w) == []
    modifies tables
    ensures var verdict := Judge(row.claim, landed, complete, alreadyUsed, height, now);
            && used == Spoken(alreadyUsed, verdict)
            && tables.Rows() == if writeFails then old(tables.Rows()) else Carry(old(tables.Rows()), row.id, verdict)
  {
    used := alreadyUsed;
    var claim := row.claim;
    var list := if claim.wallet in byWallet then byWallet[claim.wallet] else [];
    var hit := FirstCandidate(list, claim, alreadyUsed);
    assert hit == Hit(landed, claim, alreadyUsed);
    if hit.Some? {
      used := used + {hit.value.signature};
      if !writeFails {
        if hit.value.failed {
          tables.Set(ReleaseClaim(tables.Rows(), row.id, Failed));
        } else {
          tables.Set(ConfirmClaim(tables.Rows(), row.id, hit.value.signature));
        }
      }
      return;
    }
    if claim.lastValidBlockHeight.None? {
      if now - claim.createdAt > UNSIGNED_GRACE_MS && !writeFails {
        tables.Set(ReleaseClaim(tables.Rows(), row.id, Expired));
      }
      return;
    }
    if !complete {
      return;
    }
    if height > claim.lastValidBlockHeight.value + EXPIRY_BUFFER_BLOCKS && !writeFails {
      tables.Set(ReleaseClaim(tables.Rows(), row.id, Expired));
    }
  }

  /**
   runPayoutConfirmerTick.  `order` is the pending query's answer, `swept` the chain sweep (None when
   it throws), `height` the block height read after it, `clock` the wall clock as each row is judged,
   and the writes for the claims in `failing` are rejected by the database.
   */
  method RunTick(
      tables: Tables,
      order: seq<ClaimId>,
      swept: Option<(seq<Landed>, bool)>,
      height: int,
      clock: seq<int>,
      failing: set<ClaimId>)
    returns (pendingCount: nat)
    requires PendingQuery(tables.Rows(), order)
    requires |clock| == |order|
    modifies tables
    ensures pendingCount == |order|
    ensures swept.None? ==> tables.Rows() == old(tables.Rows())
    ensures swept.Some? ==>
      tables.Rows() == ResolveAll(old(tables.Rows()), RowsOf(old(tables.Rows()), order),
                                  Sweep(swept.value.0, swept.value.1, height),
                                  UsedSignatures(old(tables.Rows())), clock, failing)
  {
    pendingCount := |order|;
    if |order| == 0 || swept.None? {
      return;
    }
    ghost var start := tables.Rows();
    var pending := RowsOf(tables.Rows(), order);
    var (landed, complete) := swept.value;
    ghost var sweep := Sweep(landed, complete, height);
    var byWallet := GroupByWallet(landed);
    var alreadyUsed := UsedSignatures(tables.Rows());
    var i := 0;
    while i < |pending|
      invariant i <= |pending|
      invariant ResolveAll(start, pending, sweep, UsedSignatures(start), clock, failing)
                == ResolveAll(tables.Rows(), pending[i..], sweep, alreadyUsed, clock[i..], failing)
    {
      alreadyUsed := ResolveRow(tables, pending[i], byWallet, complete, alreadyUsed, height, clock[i], pending[i].id in failing, landed);
      assert pending[i..][0] == pending[i] && pending[i..][1..] == pending[i + 1..];
      assert clock[i..][0] == clock[i] && clock[i..][1..] == clock[i + 1..];
      i := i + 1;
    }
  }
}
