/**
 POST /voucher (backend/src/routes/claims.ts): issues, or re-serves, a wallet's claim voucher.
 */
module ClaimsRoute {
  import opened Wrappers
  import opened LandedClaims
  import opened Sums
  import opened PayoutDb

  datatype Response =
    | ProtocolPaused
    | Reused(id: ClaimId)
    | NothingToClaim
    | AboveCeiling
    | CeilingUnknown
    | BuildFailed
    | Issued(claimId: ClaimId, amount: nat, lastValidBlockHeight: nat)

  predicate LiveVoucher(c: Claim, wallet: Wallet) {
    c.wallet == wallet && c.status == Pending && Stamped(c)
  }

  /** No wallet has two rows that are PENDING and carry a last valid block height. */
  ghost predicate OneLivePerWallet(claims: map<ClaimId, Claim>) {
    forall a, b ::
      (&& a in claims && b in claims && claims[a].wallet == claims[b].wallet
       && claims[a].status == Pending && claims[a].lastValidBlockHeight.Some?
       && claims[b].status == Pending && claims[b].lastValidBlockHeight.Some?) ==> a == b
  }

  /** A voucher for a wallet without a live one keeps it that way. */
  lemma StillOneLive(claims: map<ClaimId, Claim>, id: ClaimId, voucher: Claim)
    requires OneLivePerWallet(claims) && id !in claims
    requires forall c :: c in claims ==> !LiveVoucher(claims[c], voucher.wallet)
    ensures OneLivePerWallet(claims[id := voucher])
  {
  }

  function ClaimableAmount(wallet: Wallet, revealed: set<int>): Ticket -> int {
    (t: Ticket) => if Claimable(t, wallet, revealed) then t.winAmount else 0
  }

  /** What the wallet may claim now: its unbound CLAIMED_ON_BASE winnings of revealed epochs. */
  function ClaimableSum(tickets: seq<Ticket>, wallet: Wallet, revealed: set<int>): int {
    SumBy(ClaimableAmount(wallet, revealed), tickets)
  }

  /** No ticket refers to the id. */
  ghost predicate Unreferenced(tickets: seq<Ticket>, id: ClaimId) {
    forall i :: 0 <= i < |tickets| ==> tickets[i].payoutClaimId != Some(id)
  }

  lemma BoundIsClaimable(tickets: seq<Ticket>, id: ClaimId, wallet: Wallet, revealed: set<int>)
    requires Unreferenced(tickets, id)
    ensures BoundSum(BindAll(tickets, id, wallet, revealed), id) == ClaimableSum(tickets, wallet, revealed)
  {
    SumAgrees(BoundAmount(id), BindAll(tickets, id, wallet, revealed), ClaimableAmount(wallet, revealed), tickets);
  }

  /** Nothing is due exactly when no claimable ticket has won anything. */
  lemma NothingDue(tickets: seq<Ticket>, wallet: Wallet, revealed: set<int>)
    ensures ClaimableSum(tickets, wallet, revealed) <= 0 <==>
      forall i :: 0 <= i < |tickets| && tickets[i].winStatus == ClaimedOnBase && tickets[i].payoutClaimId == None
                  && tickets[i].buyer == wallet && tickets[i].fulfillEpoch in revealed ==>
        tickets[i].winAmount == 0
  {
    var f := ClaimableAmount(wallet, revealed);
    if ClaimableSum(tickets, wallet, revealed) <= 0 {
      forall i | 0 <= i < |tickets| ensures f(tickets[i]) == 0 {
        SumAtLeast(f, tickets, i);
      }
    } else if forall i :: 0 <= i < |tickets| ==> f(tickets[i]) == 0 {
      SumZero(f, tickets);
    }
  }

  /** What is due, and what a claim's tickets are worth, as sums over the rows themselves. */
  lemma DueMeans(tickets: seq<Ticket>, wallet: Wallet, revealed: set<int>, id: ClaimId)
    ensures ClaimableSum(tickets, wallet, revealed) == SumBy((t: Ticket) =>
              if t.winStatus == ClaimedOnBase && t.payoutClaimId == None && t.buyer == wallet && t.fulfillEpoch in revealed
              then t.winAmount else 0, tickets)
    ensures BoundSum(tickets, id) == SumBy((t: Ticket) => if t.payoutClaimId == Some(id) then t.winAmount else 0, tickets)
  {
    SumAgrees(
      (t: Ticket) =>
        if t.winStatus == ClaimedOnBase && t.payoutClaimId == None && t.buyer == wallet && t.fulfillEpoch in revealed
        then t.winAmount else 0,
      tickets, ClaimableAmount(wallet, revealed), tickets);
    SumAgrees((t: Ticket) => if t.payoutClaimId == Some(id) then t.winAmount else 0, tickets, BoundAmount(id), tickets);
  }

  /** Deleting a fresh row, once its tickets are released, restores the database. */
  lemma DeleteUndoesCreate(db: Db, id: ClaimId, wallet: Wallet, revealed: set<int>, now: int)
    requires id !in db.claims && Unreferenced(db.tickets, id)
    ensures var issuing := BindTickets(CreateClaim(db, id, wallet, now), id, wallet, revealed);
            && DeleteClaim(UnbindTickets(issuing, id), id) == db
            && DeleteClaim(issuing, id) == db
  {
  }

  /**
   The handler.  `freshId` is the id the database gives the new row, `ceiling` the on-chain
   max_claim_amount (None when it cannot be read) and `voucher` the last valid block height of
   the built transaction (None when building or signing fails).

   Every refusal leaves the tables exactly as they were.  A voucher is issued for exactly the
   wallet's claimable winnings, never above the ceiling, and never beside a live one: a row that is
   PENDING and carries a last valid block height, whether or not a signature is known.
   */
  method IssueVoucher(
      tables: Tables,
      wallet: Wallet,
      paused: bool,
      revealed: set<int>,
      freshId: ClaimId,
      now: int,
      ceiling: Option<nat>,
      voucher: Option<nat>)
    returns (response: Response)
    requires freshId !in tables.claims && Unreferenced(tables.tickets, freshId)
    modifies tables
    ensures response.ProtocolPaused? <==> paused
    ensures !paused ==>
      (response.Reused? <==>
         exists id :: id in old(tables.claims) && old(tables.claims)[id].wallet == wallet
                      && old(tables.claims)[id].status == Pending && old(tables.claims)[id].lastValidBlockHeight.Some?)
    ensures response.Reused? ==>
      && response.id in old(tables.claims) && old(tables.claims)[response.id].wallet == wallet
      && old(tables.claims)[response.id].status == Pending && old(tables.claims)[response.id].lastValidBlockHeight.Some?
    ensures !response.Issued? ==> tables.tickets == old(tables.tickets) && tables.claims == old(tables.claims)
    ensures !paused && !response.Reused? ==>
      (response.NothingToClaim? <==>
         forall i :: 0 <= i < |old(tables.tickets)| && old(tables.tickets)[i].winStatus == ClaimedOnBase
                     && old(tables.tickets)[i].payoutClaimId == None && old(tables.tickets)[i].buyer == wallet
                     && old(tables.tickets)[i].fulfillEpoch in revealed ==>
           old(tables.tickets)[i].winAmount == 0)
    ensures response.Issued? ==> |tables.tickets| == |old(tables.tickets)| && forall i :: 0 <= i < |tables.tickets| ==>
      var t := old(tables.tickets)[i];
      tables.tickets[i] == if t.winStatus == ClaimedOnBase && t.payoutClaimId == None && t.buyer == wallet && t.fulfillEpoch in revealed
                           then t.(payoutClaimId := Some(freshId)) else t
    ensures OneLivePerWallet(old(tables.claims)) ==> OneLivePerWallet(tables.claims)
    ensures !paused && !response.Reused? ==>
      var due := SumBy(
        (t: Ticket) =>
          if t.winStatus == ClaimedOnBase && t.payoutClaimId == None && t.buyer == wallet && t.fulfillEpoch in revealed
          then t.winAmount else 0,
        old(tables.tickets));
      && (response.AboveCeiling? <==> due > 0 && ceiling.Some? && due > ceiling.value)
      && (response.CeilingUnknown? <==> due > 0 && ceiling.None?)
      && (response.BuildFailed? <==> ceiling.Some? && 0 < due <= ceiling.value && voucher.None?)
      && (response.Issued? <==> ceiling.Some? && 0 < due <= ceiling.value && voucher.Some?)
      && (response.Issued? ==>
            && response == Issued(freshId, due, voucher.value)
            && tables.claims == old(tables.claims)[freshId := Claim(wallet, due, Pending, None, voucher, now)])
  {
    if paused {
      return ProtocolPaused;
    }
    if id :| id in tables.claims && LiveVoucher(tables.claims[id], wallet) {
      return Reused(id);
    }
    ghost var before := tables.Rows();
    NothingDue(before.tickets, wallet, revealed);
    DueMeans(before.tickets, wallet, revealed, freshId);
    response := IssueFresh(tables, wallet, revealed, freshId, now, ceiling, voucher);
    if OneLivePerWallet(before.claims) && response.Issued? {
      StillOneLive(before.claims, freshId, tables.claims[freshId]);
    }
  }

  /** The part that writes: the row is created and its tickets bound before anything else can refuse. */
  method IssueFresh(
      tables: Tables,
      wallet: Wallet,
      revealed: set<int>,
      freshId: ClaimId,
      now: int,
      ceiling: Option<nat>,
      voucher: Option<nat>)
    returns (response: Response)
    requires freshId !in tables.claims && Unreferenced(tables.tickets, freshId)
    modifies tables
    ensures var due := ClaimableSum(old(tables.tickets), wallet, revealed);
            && (response.NothingToClaim? <==> due <= 0)
            && (response.AboveCeiling? <==> due > 0 && ceiling.Some? && due > ceiling.value)
            && (response.CeilingUnknown? <==> due > 0 && ceiling.None?)
            && (response.BuildFailed? <==> ceiling.Some? && 0 < due <= ceiling.value && voucher.None?)
            && (response.Issued? <==> ceiling.Some? && 0 < due <= ceiling.value && voucher.Some?)
            && (response.Issued? ==>
                  && response == Issued(freshId, due, voucher.value)
                  && tables.claims == old(tables.claims)[freshId := Claim(wallet, due, Pending, None, voucher, now)]
                  && tables.tickets == BindAll(old(tables.tickets), freshId, wallet, revealed)
                  && BoundSum(tables.tickets, freshId) == due)
    ensures !response.Issued? ==> tables.tickets == old(tables.tickets) && tables.claims == old(tables.claims)
  {
    ghost var before := tables.Rows();
    tables.Set(CreateClaim(tables.Rows(), freshId, wallet, now));
    tables.Set(BindTickets(tables.Rows(), freshId, wallet, revealed));
    DeleteUndoesCreate(before, freshId, wallet, revealed, now);
    BoundIsClaimable(before.tickets, freshId, wallet, revealed);

    var amount := BoundSum(tables.tickets, freshId);
    if amount <= 0 {
      tables.Set(DeleteClaim(tables.Rows(), freshId));
      return NothingToClaim;
    }
    if ceiling.None? || amount > ceiling.value {
      tables.Set(UnbindTickets(tables.Rows(), freshId));
      tables.Set(DeleteClaim(tables.Rows(), freshId));
      return if ceiling.None? then CeilingUnknown else AboveCeiling;
    }
    if voucher.None? {
      tables.Set(UnbindTickets(tables.Rows(), freshId));
      tables.Set(DeleteClaim(tables.Rows(), freshId));
      return BuildFailed;
    }
    tables.Set(StampVoucher(tables.Rows(), freshId, amount, voucher.value));
    return Issued(freshId, amount, voucher.value);
  }
}
