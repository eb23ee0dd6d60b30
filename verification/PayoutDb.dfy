/**
 The rows behind claim vouchers (backend/prisma/schema.prisma: Ticket, PayoutClaim) and the
 atomic updates that the voucher route and the payout confirmer make to them.
 */
module PayoutDb {
  import opened Wrappers
  import opened LandedClaims
  import opened Sums

  type ClaimId = int

  datatype WinStatus =
    | DrawPending
    | Lost
    | WonUnclaimed
    | WonFreeTicket
    | ClaimedOnBase
    | PaidOutOnSolana

  datatype Ticket = Ticket(
    buyer: Wallet,
    fulfillEpoch: int,
    winStatus: WinStatus,
    winAmount: nat,
    payoutClaimId: Option<ClaimId>)

  datatype ClaimStatus = Pending | Confirmed | Expired | Failed

  datatype Claim = Claim(
    wallet: Wallet,
    amountUsdc: nat,
    status: ClaimStatus,
    txSignature: Option<Signature>,
    lastValidBlockHeight: Option<nat>,
    createdAt: int)

  /** A ticket's id is its position. */
  datatype Db = Db(tickets: seq<Ticket>, claims: map<ClaimId, Claim>)

  /** The voucher for this row was handed to the user. */
  predicate Stamped(c: Claim) {
    c.lastValidBlockHeight.Some?
  }

  predicate Claimable(t: Ticket, wallet: Wallet, revealed: set<int>) {
    t.winStatus == ClaimedOnBase && t.payoutClaimId == None && t.buyer == wallet && t.fulfillEpoch in revealed
  }

  // ---------------------------------------------------------------------------------
  // Updates
  // ---------------------------------------------------------------------------------

  function BindAll(tickets: seq<Ticket>, id: ClaimId, wallet: Wallet, revealed: set<int>): (r: seq<Ticket>)
    ensures |r| == |tickets|
  {
    seq(|tickets|, i requires 0 <= i < |tickets| =>
      if Claimable(tickets[i], wallet, revealed) then tickets[i].(payoutClaimId := Some(id)) else tickets[i])
  }

  function UnbindAll(tickets: seq<Ticket>, id: ClaimId): (r: seq<Ticket>)
    ensures |r| == |tickets|
  {
    seq(|tickets|, i requires 0 <= i < |tickets| =>
      if tickets[i].payoutClaimId == Some(id) then tickets[i].(payoutClaimId := None) else tickets[i])
  }

  function PayAll(tickets: seq<Ticket>, id: ClaimId): (r: seq<Ticket>)
    ensures |r| == |tickets|
  {
    seq(|tickets|, i requires 0 <= i < |tickets| =>
      if tickets[i].payoutClaimId == Some(id) && tickets[i].winStatus == ClaimedOnBase
      then tickets[i].(winStatus := PaidOutOnSolana) else tickets[i])
  }

  function BoundAmount(id: ClaimId): Ticket -> int {
    (t: Ticket) => if t.payoutClaimId == Some(id) then t.winAmount else 0
  }

  /** What the tickets bound to a claim are worth. */
  function BoundSum(tickets: seq<Ticket>, id: ClaimId): int {
    SumBy(BoundAmount(id), tickets)
  }

  /** prisma.payoutClaim.create */
  function CreateClaim(db: Db, id: ClaimId, wallet: Wallet, now: int): Db {
    db.(claims := db.claims[id := Claim(wallet, 0, Pending, None, None, now)])
  }

  function BindTickets(db: Db, id: ClaimId, wallet: Wallet, revealed: set<int>): Db {
    db.(tickets := BindAll(db.tickets, id, wallet, revealed))
  }

  function UnbindTickets(db: Db, id: ClaimId): Db {
    db.(tickets := UnbindAll(db.tickets, id))
  }

  /** Deleting a row clears any reference to it. */
  function DeleteClaim(db: Db, id: ClaimId): Db {
    Db(UnbindAll(db.tickets, id), db.claims - {id})
  }

  function StampVoucher(db: Db, id: ClaimId, amount: nat, lastValidBlockHeight: nat): Db
    requires id in db.claims
  {
    db.(claims := db.claims[id := db.claims[id].(amountUsdc := amount, lastValidBlockHeight := Some(lastValidBlockHeight))])
  }

  /** confirmClaim: one transaction; it fails as a whole when the row is gone. */
  function ConfirmClaim(db: Db, id: ClaimId, signature: Signature): Db {
    if id !in db.claims then db
    else Db(PayAll(db.tickets, id), db.claims[id := db.claims[id].(status := Confirmed, txSignature := Some(signature))])
  }

  /** releaseClaim: one transaction; it fails as a whole when the row is gone. */
  function ReleaseClaim(db: Db, id: ClaimId, status: ClaimStatus): Db {
    if id !in db.claims then db
    else Db(UnbindAll(db.tickets, id), db.claims[id := db.claims[id].(status := status)])
  }

  /** Signatures already attributed to some claim. */
  function UsedSignatures(db: Db): set<Signature> {
    set id | id in db.claims && db.claims[id].txSignature.Some? :: db.claims[id].txSignature.value
  }

  /** The same updates, made on live tables. */
  class Tables {
    var tickets: seq<Ticket>
    var claims: map<ClaimId, Claim>

    function Rows(): Db
      reads this
    {
      Db(tickets, claims)
    }

    constructor (tickets: seq<Ticket>, claims: map<ClaimId, Claim>)
      ensures Rows() == Db(tickets, claims)
    {
      this.tickets, this.claims := tickets, claims;
    }

    method Set(db: Db)
      modifies this
      ensures Rows() == db
    {
      tickets, claims := db.tickets, db.claims;
    }
  }
}
