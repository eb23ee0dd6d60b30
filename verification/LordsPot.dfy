/**
 The Solana program (solana_smart_contracts/programs/solana_smart_contracts/src/lib.rs): what each
 instruction checks, in order, and what it does to the state account and the token balances.
 */
module LordsPot {
  import opened Wrappers

  /** Public keys; a wallet and its associated token account go by the same key. */
  type Key = int

  const DEFAULT_KEY: Key := 0

  /** The vault authority is a program-derived address: nobody can sign with it. */
  const VAULT: Key := -1

  const U64_MAX: nat := 0xFFFF_FFFF_FFFF_FFFF
  const HARD_MAX_TICKETS_PER_PURCHASE: nat := 100

  type u8 = x: int | 0 <= x < 256
  type u64 = x: int | 0 <= x <= U64_MAX

  datatype Pot = Pot(
    normalMax: u8,
    bonusMax: u8,
    ticketPrice: u64,
    ongoingEpoch: u64,
    paused: bool,
    admin: Key,
    relayFeeBase: u64,
    relayFeePerTicket: u64,
    feeRecipient: Key,
    maxTicketsPerPurchase: u8,
    maxClaimAmount: u64,
    treasuryAuthority: Key)

  datatype LineTicket = LineTicket(normals: seq<u8>, bonus: u8)

  datatype Event =
    | Purchased(buyer: Key, amountPaid: nat, tickets: seq<LineTicket>, epoch: u64)
    | Claimed(user: Key, claimed: nat)
    | Withdrawn(treasury: Key, destination: Key, withdrawn: nat)
    | Deposited(from: Key, deposited: nat)

  /** The state account, the token accounts and everything that was recorded. */
  datatype World = World(pot: Option<Pot>, balances: map<Key, nat>, events: seq<Event>)

  datatype Error =
    | ProtocolPaused
    | ProtocolNotPaused
    | Unauthorized
    | NoTicketsProvided
    | InvalidTicketLength
    | NormalBallOutOfBounds
    | BonusBallOutOfBounds
    | BallsNotSortedOrDuplicated
    | MathOverflow
    | TooManyTickets
    | SameAsPreviousEpoch
    | InvalidNextEpoch
    | InvalidAmount
    | InsufficientVaultFunds
    | InvalidDestination
    | ExceedsMaxTicketsPerPurchase
    | ClaimExceedsMaxAmount
    | InvalidMaxTicketsPerPurchase
    | InvalidMaxClaimAmount
    | SameAsPreviousAdmin
    | InvalidTreasuryAuthority
    | MissingSignature
    | AccountMissing
    | AlreadyInUse
    | DuplicateAccount
    | InsufficientFunds

  datatype RelayConfig = RelayConfig(base: u64, perTicket: u64, recipient: Key, maxTickets: u8, maxClaim: u64)

  datatype Instruction =
    | Initialize(signer: Key, normalMax: u8, bonusMax: u8, price: u64, epoch: u64, relay: RelayConfig, treasury: Key)
    | MigrateState(admin: Key, relay: RelayConfig, treasury: Key)
    | SetAdmin(admin: Key, newAdmin: Key)
    | SetTreasuryAuthority(authority: Key, newTreasury: Key)
    | SetRelayConfig(admin: Key, relay: RelayConfig)
    | BuyTicket(buyer: Key, tickets: seq<LineTicket>)
    | PauseProtocol(admin: Key)
    | ResumeProtocol(admin: Key, nextEpoch: u64)
    | UpdateEpoch(admin: Key, normalMax: u8, bonusMax: u8)
    | ClaimWinnings(user: Key, admin: Key, amount: u64)
    | WithdrawVaultFunds(treasury: Key, destination: Key, sameMint: bool, amount: u64)
    | TransferTokens(from: Key, to: Key, amount: u64)

  // ---------------------------------------------------------------------------------
  // Checks
  // ---------------------------------------------------------------------------------

  function RelayConfigFault(relay: RelayConfig): Option<Error> {
    if !(1 <= relay.maxTickets <= HARD_MAX_TICKETS_PER_PURCHASE) then Some(InvalidMaxTicketsPerPurchase)
    else if relay.maxClaim == 0 then Some(InvalidMaxClaimAmount)
    else None
  }

  function TreasuryFault(treasury: Key): Option<Error> {
    if treasury == DEFAULT_KEY then Some(InvalidTreasuryAuthority) else None
  }

  function ConfigFault(relay: RelayConfig, treasury: Key): Option<Error> {
    if RelayConfigFault(relay).Some? then RelayConfigFault(relay) else TreasuryFault(treasury)
  }

  predicate InBounds(balls: seq<u8>, max: u8) {
    forall i :: 0 <= i < |balls| ==> 0 < balls[i] <= max
  }

  predicate StrictlySorted(balls: seq<u8>) {
    forall i :: 0 <= i < |balls| - 1 ==> balls[i] < balls[i + 1]
  }

  function TicketFault(t: LineTicket, normalMax: u8, bonusMax: u8): Option<Error> {
    if |t.normals| != 5 then Some(InvalidTicketLength)
    else if !(0 < t.bonus <= bonusMax) then Some(BonusBallOutOfBounds)
    else if !InBounds(t.normals, normalMax) then Some(NormalBallOutOfBounds)
    else if !StrictlySorted(t.normals) then Some(BallsNotSortedOrDuplicated)
    else None
  }

  /** The fault of the first faulty ticket from `i` on. */
  function TicketsFault(tickets: seq<LineTicket>, i: nat, normalMax: u8, bonusMax: u8): Option<Error>
    requires i <= |tickets|
    decreases |tickets| - i
  {
    if i == |tickets| then None
    else if TicketFault(tickets[i], normalMax, bonusMax).Some? then TicketFault(tickets[i], normalMax, bonusMax)
    else TicketsFault(tickets, i + 1, normalMax, bonusMax)
  }

  function TotalAmount(pot: Pot, count: nat): nat {
    count * pot.ticketPrice
  }

  function RelayFee(pot: Pot, count: nat): nat {
    pot.relayFeePerTicket * count + pot.relayFeeBase
  }

  function PurchaseFault(pot: Pot, tickets: seq<LineTicket>): Option<Error> {
    if |tickets| > HARD_MAX_TICKETS_PER_PURCHASE then Some(TooManyTickets)
    else if |tickets| == 0 then Some(NoTicketsProvided)
    else if |tickets| > pot.maxTicketsPerPurchase then Some(ExceedsMaxTicketsPerPurchase)
    else if TicketsFault(tickets, 0, pot.normalMax, pot.bonusMax).Some? then TicketsFault(tickets, 0, pot.normalMax, pot.bonusMax)
    else if TotalAmount(pot, |tickets|) > U64_MAX || RelayFee(pot, |tickets|) > U64_MAX then Some(MathOverflow)
    else None
  }

  /** Token accounts: the same account on both sides keeps its balance. */
  function Moved(balances: map<Key, nat>, from: Key, to: Key, amount: nat): map<Key, nat>
    requires from in balances && to in balances && amount <= balances[from]
  {
    var less := balances[from := balances[from] - amount];
    less[to := less[to] + amount]
  }

  // ---------------------------------------------------------------------------------
  // Instructions
  // ---------------------------------------------------------------------------------

  function Open(w: World, pot: Pot): World {
    w.(pot := Some(pot))
  }

  function WithRelay(pot: Pot, relay: RelayConfig): Pot {
    pot.(relayFeeBase := relay.base, relayFeePerTicket := relay.perTicket, feeRecipient := relay.recipient,
         maxTicketsPerPurchase := relay.maxTickets, maxClaimAmount := relay.maxClaim)
  }

  function DoInitialize(w: World, ix: Instruction): Result<World, Error>
    requires ix.Initialize?
  {
    if w.pot.Some? || VAULT in w.balances then Err(AlreadyInUse)
    else if ConfigFault(ix.relay, ix.treasury).Some? then Err(ConfigFault(ix.relay, ix.treasury).value)
    else Ok(w.(
      pot := Some(WithRelay(Pot(ix.normalMax, ix.bonusMax, ix.price, ix.epoch, false, ix.signer, 0, 0, DEFAULT_KEY, 1, 1, ix.treasury), ix.relay)),
      balances := w.balances[VAULT := 0]))
  }

  /** `strict`: the account framework refuses two mutable references to one token account. */
  function DoBuy(strict: bool, w: World, pot: Pot, buyer: Key, tickets: seq<LineTicket>): Result<World, Error> {
    if pot.paused then Err(ProtocolPaused)
    else if buyer !in w.balances || VAULT !in w.balances || pot.feeRecipient !in w.balances then Err(AccountMissing)
    else if strict && (pot.feeRecipient == VAULT || pot.feeRecipient == buyer || buyer == VAULT) then Err(DuplicateAccount)
    else if PurchaseFault(pot, tickets).Some? then Err(PurchaseFault(pot, tickets).value)
    else
      var total, fee := TotalAmount(pot, |tickets|), RelayFee(pot, |tickets|);
      if total > w.balances[buyer] then Err(InsufficientFunds)
      else
        var paid := Moved(w.balances, buyer, VAULT, total);
        if fee > paid[buyer] then Err(InsufficientFunds)
        else Ok(w.(balances := Moved(paid, buyer, pot.feeRecipient, fee),
                   events := w.events + [Purchased(buyer, total, tickets, pot.ongoingEpoch)]))
  }

  function DoClaim(w: World, pot: Pot, user: Key, admin: Key, amount: u64): Result<World, Error> {
    if admin != pot.admin then Err(Unauthorized)
    else if pot.paused then Err(ProtocolPaused)
    else if VAULT !in w.balances then Err(AccountMissing)
    else if amount == 0 then Err(InvalidAmount)
    else if amount > pot.maxClaimAmount then Err(ClaimExceedsMaxAmount)
    else if w.balances[VAULT] < amount then Err(InsufficientVaultFunds)
    else
      var ready := if user in w.balances then w.balances else w.balances[user := 0];
      Ok(w.(balances := Moved(ready, VAULT, user, amount), events := w.events + [Claimed(user, amount)]))
  }

  function DoWithdraw(strict: bool, w: World, pot: Pot, treasury: Key, destination: Key, sameMint: bool, amount: u64): Result<World, Error> {
    if treasury != pot.treasuryAuthority then Err(Unauthorized)
    else if VAULT !in w.balances || destination !in w.balances then Err(AccountMissing)
    else if !sameMint then Err(InvalidDestination)
    else if strict && destination == VAULT then Err(DuplicateAccount)
    else if amount == 0 then Err(InvalidAmount)
    else if w.balances[VAULT] < amount then Err(InsufficientVaultFunds)
    else Ok(w.(balances := Moved(w.balances, VAULT, destination, amount), events := w.events + [Withdrawn(treasury, destination, amount)]))
  }

  function DoSetTreasury(w: World, pot: Pot, authority: Key, newTreasury: Key): Result<World, Error> {
    if newTreasury == DEFAULT_KEY then Err(InvalidTreasuryAuthority)
    else if pot.treasuryAuthority == DEFAULT_KEY then
      if authority != pot.admin then Err(Unauthorized) else Ok(Open(w, pot.(treasuryAuthority := newTreasury)))
    else if authority != pot.treasuryAuthority then Err(Unauthorized)
    else if newTreasury == pot.treasuryAuthority then Err(SameAsPreviousAdmin)
    else Ok(Open(w, pot.(treasuryAuthority := newTreasury)))
  }

  /** Who has to sign. */
  function Signers(ix: Instruction): set<Key> {
    match ix
    case Initialize(signer, _, _, _, _, _, _) => {signer}
    case MigrateState(admin, _, _) => {admin}
    case SetAdmin(admin, newAdmin) => {admin, newAdmin}
    case SetTreasuryAuthority(authority, newTreasury) => {authority, newTreasury}
    case SetRelayConfig(admin, _) => {admin}
    case BuyTicket(buyer, _) => {buyer}
    case PauseProtocol(admin) => {admin}
    case ResumeProtocol(admin, _) => {admin}
    case UpdateEpoch(admin, _, _) => {admin}
    case ClaimWinnings(user, admin, _) => {user, admin}
    case WithdrawVaultFunds(treasury, _, _, _) => {treasury}
    case TransferTokens(from, _, _) => {from}
  }

  /** What an instruction signed by `signed` does; an error leaves everything as it was. */
  function Execute(strict: bool, w: World, ix: Instruction, signed: set<Key>): Result<World, Error> {
    if !(Signers(ix) <= signed) then Err(MissingSignature)
    else if ix.Initialize? then DoInitialize(w, ix)
    else if ix.TransferTokens? then
      if ix.from !in w.balances || ix.to !in w.balances then Err(AccountMissing)
      else if w.balances[ix.from] < ix.amount then Err(InsufficientFunds)
      else Ok(w.(balances := Moved(w.balances, ix.from, ix.to, ix.amount),
                 events := if ix.to == VAULT then w.events + [Deposited(ix.from, ix.amount)] else w.events))
    else if w.pot.None? then Err(AccountMissing)
    else
      var pot := w.pot.value;
      match ix
      case MigrateState(_, relay, treasury) =>
        // An account that initialize created already has its full size.
        if ConfigFault(relay, treasury).Some? then Err(ConfigFault(relay, treasury).value) else Ok(w)
      case SetAdmin(admin, newAdmin) =>
        if admin != pot.admin then Err(Unauthorized)
        else if newAdmin == pot.admin then Err(SameAsPreviousAdmin)
        else Ok(Open(w, pot.(admin := newAdmin)))
      case SetTreasuryAuthority(authority, newTreasury) => DoSetTreasury(w, pot, authority, newTreasury)
      case SetRelayConfig(admin, relay) =>
        if admin != pot.admin then Err(Unauthorized)
        else if RelayConfigFault(relay).Some? then Err(RelayConfigFault(relay).value)
        else Ok(Open(w, WithRelay(pot, relay)))
      case BuyTicket(buyer, tickets) => DoBuy(strict, w, pot, buyer, tickets)
      case PauseProtocol(admin) =>
        if admin != pot.admin then Err(Unauthorized)
        else if pot.paused then Err(ProtocolPaused)
        else Ok(Open(w, pot.(paused := true)))
      case ResumeProtocol(admin, nextEpoch) =>
        if admin != pot.admin then Err(Unauthorized)
        else if !pot.paused then Err(ProtocolNotPaused)
        else if nextEpoch <= pot.ongoingEpoch then Err(InvalidNextEpoch)
        else Ok(Open(w, pot.(paused := false, ongoingEpoch := nextEpoch)))
      case UpdateEpoch(admin, normalMax, bonusMax) =>
        if admin != pot.admin then Err(Unauthorized)
        else if !pot.paused then Err(ProtocolNotPaused)
        else if normalMax == pot.normalMax && bonusMax == pot.bonusMax then Err(SameAsPreviousEpoch)
        else Ok(Open(w, pot.(normalMax := normalMax, bonusMax := bonusMax)))
      case ClaimWinnings(user, admin, amount) => DoClaim(w, pot, user, admin, amount)
      case WithdrawVaultFunds(treasury, destination, sameMint, amount) => DoWithdraw(strict, w, pot, treasury, destination, sameMint, amount)
  }

  // ---------------------------------------------------------------------------------
  // What the checks mean
  // ---------------------------------------------------------------------------------

  /** Five different balls in ascending order, all within the limits. */
  ghost predicate ProperTicket(t: LineTicket, normalMax: u8, bonusMax: u8) {
    && |t.normals| == 5 && 1 <= t.bonus <= bonusMax
    && (forall i :: 0 <= i < 5 ==> 1 <= t.normals[i] <= normalMax)
    && (forall i, j :: 0 <= i < j < 5 ==> t.normals[i] < t.normals[j])
  }

  lemma {:induction false} SortedThroughout(balls: seq<u8>, i: nat, j: nat)
    requires StrictlySorted(balls) && i < j < |balls|
    ensures balls[i] < balls[j]
  {
    if i < j - 1 {
      SortedThroughout(balls, i, j - 1);
    }
  }

  lemma FaultlessIsProper(t: LineTicket, normalMax: u8, bonusMax: u8)
    ensures TicketFault(t, normalMax, bonusMax).None? <==> ProperTicket(t, normalMax, bonusMax)
  {
    if TicketFault(t, normalMax, bonusMax).None? {
      forall i, j | 0 <= i < j < 5 ensures t.normals[i] < t.normals[j] {
        SortedThroughout(t.normals, i, j);
      }
    }
  }

  lemma {:induction false} AllFaultless(tickets: seq<LineTicket>, i: nat, normalMax: u8, bonusMax: u8)
    requires i <= |tickets|
    ensures TicketsFault(tickets, i, normalMax, bonusMax).None? <==>
            forall k :: i <= k < |tickets| ==> ProperTicket(tickets[k], normalMax, bonusMax)
    decreases |tickets| - i
  {
    if i < |tickets| {
      FaultlessIsProper(tickets[i], normalMax, bonusMax);
      AllFaultless(tickets, i + 1, normalMax, bonusMax);
    }
  }

  /** The tickets are proper, not too many, and both sums fit 64 bits. */
  ghost predicate Sellable(pot: Pot, tickets: seq<LineTicket>) {
    && 1 <= |tickets| <= Min(HARD_MAX_TICKETS_PER_PURCHASE, pot.maxTicketsPerPurchase)
    && (forall k :: 0 <= k < |tickets| ==> ProperTicket(tickets[k], pot.normalMax, pot.bonusMax))
    && |tickets| * pot.ticketPrice <= U64_MAX && pot.relayFeePerTicket * |tickets| + pot.relayFeeBase <= U64_MAX
  }

  /** A purchase goes through its checks exactly when the tickets are proper, few enough and payable in 64 bits. */
  lemma AcceptedPurchase(pot: Pot, tickets: seq<LineTicket>)
    ensures PurchaseFault(pot, tickets).None? <==> Sellable(pot, tickets)
  {
    AllFaultless(tickets, 0, pot.normalMax, pot.bonusMax);
  }

  function BalanceOf(w: World, account: Key): nat {
    if account in w.balances then w.balances[account] else 0
  }

  /** The accounts exist, are different if they have to be, and the buyer's covers price and fee. */
  ghost predicate CanPay(strict: bool, w: World, pot: Pot, buyer: Key, count: nat) {
    && {buyer, VAULT, pot.feeRecipient} <= w.balances.Keys
    && (strict ==> pot.feeRecipient != VAULT && pot.feeRecipient != buyer && buyer != VAULT)
    && count * pot.ticketPrice <= BalanceOf(w, buyer)
    && pot.relayFeePerTicket * count + pot.relayFeeBase <= BalanceOf(w, buyer) - (if buyer == VAULT then 0 else count * pot.ticketPrice)
  }

  /** The buyer paid price and fee, the vault got the price, the recipient the fee, and no other money moved. */
  ghost predicate Charged(w: World, w': World, pot: Pot, buyer: Key, count: nat) {
    var price, fee := count * pot.ticketPrice, pot.relayFeePerTicket * count + pot.relayFeeBase;
    forall account :: BalanceOf(w', account) == BalanceOf(w, account)
                                                - (if account == buyer then price + fee else 0)
                                                + (if account == VAULT then price else 0)
                                                + (if account == pot.feeRecipient then fee else 0)
  }

  /** When a purchase goes through, whatever the order of the checks, and what it moves and records. */
  lemma PurchaseMeans(strict: bool, w: World, pot: Pot, buyer: Key, tickets: seq<LineTicket>)
    ensures var r := DoBuy(strict, w, pot, buyer, tickets);
      && (r.Ok? <==> !pot.paused && Sellable(pot, tickets) && CanPay(strict, w, pot, buyer, |tickets|))
      && (r.Ok? ==> Charged(w, r.value, pot, buyer, |tickets|))
      && (r.Ok? ==> r.value.events == w.events + [Purchased(buyer, |tickets| * pot.ticketPrice, tickets, pot.ongoingEpoch)])
  {
    AcceptedPurchase(pot, tickets);
  }
}
