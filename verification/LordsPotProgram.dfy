/**
 The program's instructions on the live state account and token accounts, checked step by step.
 Every instruction is the one the runs are made of; beside that it states when it goes through,
 whatever the order of its checks, and what its caller then finds.
 */
module LordsPotProgram {
  import opened Wrappers
  import opened LordsPot

  /** What an instruction reports, and the world it leaves. */
  function Outcome(strict: bool, w: World, ix: Instruction, signed: set<Key>): (Option<Error>, World) {
    match Execute(strict, w, ix, signed)
    case Ok(after) => (None, after)
    case Err(error) => (Some(error), w)
  }

  class Program {
    const strict: bool
    var initialized: bool
    var normalMax: u8
    var bonusMax: u8
    var ticketPrice: u64
    var ongoingEpoch: u64
    var paused: bool
    var admin: Key
    var relayFeeBase: u64
    var relayFeePerTicket: u64
    var feeRecipient: Key
    var maxTicketsPerPurchase: u8
    var maxClaimAmount: u64
    var treasuryAuthority: Key
    var balances: map<Key, nat>
    var events: seq<Event>

    function State(): Pot
      reads this
    {
      Pot(normalMax, bonusMax, ticketPrice, ongoingEpoch, paused, admin, relayFeeBase, relayFeePerTicket, feeRecipient,
          maxTicketsPerPurchase, maxClaimAmount, treasuryAuthority)
    }

    function Contents(): World
      reads this
    {
      World(if initialized then Some(State()) else None, balances, events)
    }

    /** What an account holds; one that does not exist holds nothing. */
    function Held(account: Key): nat
      reads this
    {
      if account in balances then balances[account] else 0
    }

    /** A state that the treasury can guard and that lets somebody buy and claim. */
    ghost predicate Sound()
      reads this
    {
      initialized ==>
        treasuryAuthority != DEFAULT_KEY && maxClaimAmount > 0 && VAULT in balances
        && 1 <= maxTicketsPerPurchase <= HARD_MAX_TICKETS_PER_PURCHASE
    }

    /** `amount` went from one account to the other, and no other money moved. */
    twostate predicate Moves(from: Key, to: Key, amount: nat)
      reads this
    {
      forall account :: Held(account) == old(Held(account)) - (if account == from then amount else 0) + (if account == to then amount else 0)
    }

    constructor (strict: bool, balances: map<Key, nat>)
      ensures this.strict == strict && Contents() == World(None, balances, [])
    {
      this.strict, this.balances, initialized, events := strict, balances, false, [];
    }

    method WriteRules(signer: Key, normals: u8, bonus: u8, price: u64, epoch: u64)
      modifies this`admin, this`normalMax, this`bonusMax, this`ticketPrice, this`paused, this`ongoingEpoch
      ensures State() == old(State()).(
        admin := signer, normalMax := normals, bonusMax := bonus, ticketPrice := price, paused := false, ongoingEpoch := epoch)
    {
      admin, normalMax, bonusMax, ticketPrice, paused, ongoingEpoch := signer, normals, bonus, price, false, epoch;
    }

    method WriteRelay(relay: RelayConfig)
      modifies this`relayFeeBase, this`relayFeePerTicket, this`feeRecipient, this`maxTicketsPerPurchase, this`maxClaimAmount
      ensures State() == WithRelay(old(State()), relay)
    {
      relayFeeBase, relayFeePerTicket, feeRecipient := relay.base, relay.perTicket, relay.recipient;
      maxTicketsPerPurchase, maxClaimAmount := relay.maxTickets, relay.maxClaim;
    }

    method Initialize(signer: Key, normals: u8, bonus: u8, price: u64, epoch: u64, relay: RelayConfig, treasury: Key, signed: set<Key>)
      returns (error: Option<Error>)
      modifies this
      ensures (error, Contents()) == Outcome(strict, old(Contents()), Instruction.Initialize(signer, normals, bonus, price, epoch, relay, treasury), signed)
      ensures error.None? <==>
        && signer in signed && !old(initialized) && VAULT !in old(balances)
        && 1 <= relay.maxTickets <= HARD_MAX_TICKETS_PER_PURCHASE && relay.maxClaim > 0 && treasury != DEFAULT_KEY
      ensures error.Some? ==> Contents() == old(Contents())
      ensures error.None? ==> initialized && Sound() && !paused && admin == signer && treasuryAuthority == treasury && ongoingEpoch == epoch
      ensures error.None? ==> normalMax == normals && bonusMax == bonus && ticketPrice == price
      ensures error.None? ==> RelayConfig(relayFeeBase, relayFeePerTicket, feeRecipient, maxTicketsPerPurchase, maxClaimAmount) == relay
      ensures error.None? ==> balances == old(balances)[VAULT := 0] && events == old(events)
      ensures forall account :: Held(account) == old(Held(account))
    {
      if signer !in signed {
        return Some(MissingSignature);
      }
      if initialized || VAULT in balances {
        return Some(AlreadyInUse);
      }
      error := ConfigFault(relay, treasury);
      if error.Some? {
        return;
      }
      WriteRules(signer, normals, bonus, price, epoch);
      WriteRelay(relay);
      treasuryAuthority := treasury;
      balances, initialized := balances[VAULT := 0], true;
    }

    method SetAdmin(current: Key, newAdmin: Key, signed: set<Key>) returns (error: Option<Error>)
      modifies this`admin
      ensures (error, Contents()) == Outcome(strict, old(Contents()), Instruction.SetAdmin(current, newAdmin), signed)
      ensures error.None? <==> {old(admin), newAdmin} <= signed && initialized && current == old(admin) != newAdmin
      ensures admin == if error.None? then newAdmin else old(admin)
      ensures old(Sound()) ==> Sound()
    {
      if !({current, newAdmin} <= signed) {
        return Some(MissingSignature);
      }
      if !initialized {
        return Some(AccountMissing);
      }
      if current != admin {
        return Some(Unauthorized);
      }
      if newAdmin == admin {
        return Some(SameAsPreviousAdmin);
      }
      admin := newAdmin;
      error := None;
    }

    method SetTreasuryAuthority(authority: Key, newTreasury: Key, signed: set<Key>) returns (error: Option<Error>)
      modifies this`treasuryAuthority
      ensures (error, Contents()) == Outcome(strict, old(Contents()), Instruction.SetTreasuryAuthority(authority, newTreasury), signed)
      ensures error.None? <==>
        && {authority, newTreasury} <= signed && initialized && newTreasury != DEFAULT_KEY && newTreasury != old(treasuryAuthority)
        && authority == if old(treasuryAuthority) == DEFAULT_KEY then admin else old(treasuryAuthority)
      ensures treasuryAuthority == if error.None? then newTreasury else old(treasuryAuthority)
      ensures initialized && old(Sound()) ==> Sound() && (error.None? ==> authority == old(treasuryAuthority))
    {
      if !({authority, newTreasury} <= signed) {
        return Some(MissingSignature);
      }
      if !initialized {
        return Some(AccountMissing);
      }
      error := TreasuryFault(newTreasury);
      if error.Some? {
        return;
      }
      if treasuryAuthority == DEFAULT_KEY {
        if authority != admin {
          return Some(Unauthorized);
        }
      } else {
        if authority != treasuryAuthority {
          return Some(Unauthorized);
        }
        if newTreasury == treasuryAuthority {
          return Some(SameAsPreviousAdmin);
        }
      }
      treasuryAuthority := newTreasury;
    }

    method SetRelayConfig(current: Key, relay: RelayConfig, signed: set<Key>) returns (error: Option<Error>)
      modifies this`relayFeeBase, this`relayFeePerTicket, this`feeRecipient, this`maxTicketsPerPurchase, this`maxClaimAmount
      ensures (error, Contents()) == Outcome(strict, old(Contents()), Instruction.SetRelayConfig(current, relay), signed)
      ensures error.None? <==>
        && current in signed && initialized && current == admin
        && 1 <= relay.maxTickets <= HARD_MAX_TICKETS_PER_PURCHASE && relay.maxClaim > 0
      ensures error.Some? ==> Contents() == old(Contents())
      ensures error.None? ==> RelayConfig(relayFeeBase, relayFeePerTicket, feeRecipient, maxTicketsPerPurchase, maxClaimAmount) == relay
      ensures old(Sound()) ==> Sound()
    {
      if current !in signed {
        return Some(MissingSignature);
      }
      if !initialized {
        return Some(AccountMissing);
      }
      if current != admin {
        return Some(Unauthorized);
      }
      error := RelayConfigFault(relay);
      if error.Some? {
        return;
      }
      WriteRelay(relay);
    }

    /** The loop over the tickets: the first fault found, if any. */
    method CheckTickets(tickets: seq<LineTicket>) returns (fault: Option<Error>)
      ensures fault == TicketsFault(tickets, 0, normalMax, bonusMax)
    {
      for i := 0 to |tickets|
        invariant TicketsFault(tickets, 0, normalMax, bonusMax) == TicketsFault(tickets, i, normalMax, bonusMax)
      {
        var ticket := tickets[i];
        if |ticket.normals| != 5 {
          return Some(InvalidTicketLength);
        }
        if !(0 < ticket.bonus <= bonusMax) {
          return Some(BonusBallOutOfBounds);
        }
        if !InBounds(ticket.normals, normalMax) {
          return Some(NormalBallOutOfBounds);
        }
        if !StrictlySorted(ticket.normals) {
          return Some(BallsNotSortedOrDuplicated);
        }
      }
      fault := None;
    }

    method CheckPurchase(tickets: seq<LineTicket>) returns (fault: Option<Error>)
      ensures fault == PurchaseFault(State(), tickets)
    {
      if |tickets| > HARD_MAX_TICKETS_PER_PURCHASE {
        return Some(TooManyTickets);
      }
      if |tickets| == 0 {
        return Some(NoTicketsProvided);
      }
      if |tickets| > maxTicketsPerPurchase {
        return Some(ExceedsMaxTicketsPerPurchase);
      }
      fault := CheckTickets(tickets);
      if fault.Some? {
        return;
      }
      if |tickets| * ticketPrice > U64_MAX {
        return Some(MathOverflow);
      }
      if relayFeePerTicket * |tickets| > U64_MAX || relayFeePerTicket * |tickets| + relayFeeBase > U64_MAX {
        return Some(MathOverflow);
      }
    }

    method Transfer(from: Key, to: Key, amount: nat)
      requires from in balances && to in balances && amount <= balances[from]
      modifies this`balances
      ensures balances == Moved(old(balances), from, to, amount)
    {
      balances := balances[from := balances[from] - amount];
      balances := balances[to := balances[to] + amount];
    }

    /** The two transfers of a purchase; one that fails takes both back. */
    method Charge(buyer: Key, total: nat, relayFee: nat) returns (paid: bool)
      requires buyer in balances && VAULT in balances && feeRecipient in balances
      modifies this`balances
      ensures paid <==> total <= old(balances)[buyer] && relayFee <= Moved(old(balances), buyer, VAULT, total)[buyer]
      ensures balances == if paid then Moved(Moved(old(balances), buyer, VAULT, total), buyer, feeRecipient, relayFee) else old(balances)
    {
      if total > balances[buyer] {
        return false;
      }
      var before := balances;
      Transfer(buyer, VAULT, total);
      if relayFee > 0 {
        if relayFee > balances[buyer] {
          balances := before;
          return false;
        }
        Transfer(buyer, feeRecipient, relayFee);
      } else {
        NoFee(balances, buyer, feeRecipient);
      }
      paid := true;
    }

    /** A transfer that fails takes the whole instruction back. */
    method BuyTicket(buyer: Key, tickets: seq<LineTicket>, signed: set<Key>) returns (error: Option<Error>)
      modifies this`balances, this`events
      ensures (error, Contents()) == Outcome(strict, old(Contents()), Instruction.BuyTicket(buyer, tickets), signed)
      ensures error.None? <==>
        && buyer in signed && initialized && !paused
        && Sellable(State(), tickets) && CanPay(strict, old(Contents()), State(), buyer, |tickets|)
      ensures error.Some? ==> Contents() == old(Contents())
      ensures error.None? ==> Charged(old(Contents()), Contents(), State(), buyer, |tickets|)
      ensures error.None? ==> events == old(events) + [Purchased(buyer, |tickets| * ticketPrice, tickets, ongoingEpoch)]
      ensures old(Sound()) ==> Sound()
    {
      PurchaseMeans(strict, Contents(), State(), buyer, tickets);
      if buyer !in signed {
        return Some(MissingSignature);
      }
      if !initialized {
        return Some(AccountMissing);
      }
      if paused {
        return Some(ProtocolPaused);
      }
      if buyer !in balances || VAULT !in balances || feeRecipient !in balances {
        return Some(AccountMissing);
      }
      if strict && (feeRecipient == VAULT || feeRecipient == buyer || buyer == VAULT) {
        return Some(DuplicateAccount);
      }
      error := CheckPurchase(tickets);
      if error.Some? {
        return;
      }
      var total := |tickets| * ticketPrice;
      var relayFee := relayFeePerTicket * |tickets| + relayFeeBase;
      var paid := Charge(buyer, total, relayFee);
      if !paid {
        return Some(InsufficientFunds);
      }
      events := events + [Purchased(buyer, total, tickets, ongoingEpoch)];
    }

    method PauseProtocol(current: Key, signed: set<Key>) returns (error: Option<Error>)
      modifies this`paused
      ensures (error, Contents()) == Outcome(strict, old(Contents()), Instruction.PauseProtocol(current), signed)
      ensures error.None? <==> admin in signed && initialized && current == admin && !old(paused)
      ensures paused == (old(paused) || error.None?)
      ensures old(Sound()) ==> Sound()
    {
      if current !in signed {
        return Some(MissingSignature);
      }
      if !initialized {
        return Some(AccountMissing);
      }
      if current != admin {
        return Some(Unauthorized);
      }
      if paused {
        return Some(ProtocolPaused);
      }
      paused := true;
      error := None;
    }

    method ResumeProtocol(current: Key, nextEpoch: u64, signed: set<Key>) returns (error: Option<Error>)
      modifies this`paused, this`ongoingEpoch
      ensures (error, Contents()) == Outcome(strict, old(Contents()), Instruction.ResumeProtocol(current, nextEpoch), signed)
      ensures error.None? <==> admin in signed && initialized && current == admin && old(paused) && nextEpoch > old(ongoingEpoch)
      ensures error.None? ==> !paused && ongoingEpoch == nextEpoch > old(ongoingEpoch)
      ensures error.Some? ==> paused == old(paused) && ongoingEpoch == old(ongoingEpoch)
      ensures old(Sound()) ==> Sound()
    {
      if current !in signed {
        return Some(MissingSignature);
      }
      if !initialized {
        return Some(AccountMissing);
      }
      if current != admin {
        return Some(Unauthorized);
      }
      if !paused {
        return Some(ProtocolNotPaused);
      }
      if nextEpoch <= ongoingEpoch {
        return Some(InvalidNextEpoch);
      }
      paused, ongoingEpoch := false, nextEpoch;
      error := None;
    }

    method UpdateEpoch(current: Key, normals: u8, bonus: u8, signed: set<Key>) returns (error: Option<Error>)
      modifies this`normalMax, this`bonusMax
      ensures (error, Contents()) == Outcome(strict, old(Contents()), Instruction.UpdateEpoch(current, normals, bonus), signed)
      ensures error.None? <==>
        admin in signed && initialized && current == admin && paused && (normals, bonus) != old((normalMax, bonusMax))
      ensures (normalMax, bonusMax) == if error.None? then (normals, bonus) else old((normalMax, bonusMax))
      ensures !paused ==> (normalMax, bonusMax) == old((normalMax, bonusMax))
      ensures old(Sound()) ==> Sound()
    {
      if current !in signed {
        return Some(MissingSignature);
      }
      if !initialized {
        return Some(AccountMissing);
      }
      if current != admin {
        return Some(Unauthorized);
      }
      if !paused {
        return Some(ProtocolNotPaused);
      }
      if normals == normalMax && bonus == bonusMax {
        return Some(SameAsPreviousEpoch);
      }
      normalMax, bonusMax := normals, bonus;
      error := None;
    }

    method ClaimWinnings(user: Key, current: Key, amount: u64, signed: set<Key>) returns (error: Option<Error>)
      modifies this`balances, this`events
      ensures (error, Contents()) == Outcome(strict, old(Contents()), Instruction.ClaimWinnings(user, current, amount), signed)
      ensures error.None? <==>
        && {user, admin} <= signed && initialized && current == admin && !paused
        && 0 < amount <= Min(maxClaimAmount, old(Held(VAULT))) && VAULT in old(balances)
      ensures error.Some? ==> Contents() == old(Contents())
      ensures error.None? ==> Moves(VAULT, user, amount) && events == old(events) + [Claimed(user, amount)]
      ensures old(Sound()) ==> Sound()
    {
      if !({user, current} <= signed) {
        return Some(MissingSignature);
      }
      if !initialized {
        return Some(AccountMissing);
      }
      if current != admin {
        return Some(Unauthorized);
      }
      if paused {
        return Some(ProtocolPaused);
      }
      if VAULT !in balances {
        return Some(AccountMissing);
      }
      if amount == 0 {
        return Some(InvalidAmount);
      }
      if amount > maxClaimAmount {
        return Some(ClaimExceedsMaxAmount);
      }
      if balances[VAULT] < amount {
        return Some(InsufficientVaultFunds);
      }
      if user !in balances {
        balances := balances[user := 0];
      }
      Transfer(VAULT, user, amount);
      events := events + [Claimed(user, amount)];
      error := None;
    }

    method WithdrawVaultFunds(treasury: Key, destination: Key, sameMint: bool, amount: u64, signed: set<Key>) returns (error: Option<Error>)
      modifies this`balances, this`events
      ensures (error, Contents()) == Outcome(strict, old(Contents()), Instruction.WithdrawVaultFunds(treasury, destination, sameMint, amount), signed)
      ensures error.None? <==>
        && treasuryAuthority in signed && initialized && treasury == treasuryAuthority
        && sameMint && {VAULT, destination} <= old(balances.Keys) && !(strict && destination == VAULT)
        && 0 < amount <= old(Held(VAULT))
      ensures error.Some? ==> Contents() == old(Contents())
      ensures error.None? ==> Moves(VAULT, destination, amount) && events == old(events) + [Withdrawn(treasury, destination, amount)]
      ensures old(Sound()) ==> Sound()
    {
      if treasury !in signed {
        return Some(MissingSignature);
      }
      if !initialized {
        return Some(AccountMissing);
      }
      if treasury != treasuryAuthority {
        return Some(Unauthorized);
      }
      if VAULT !in balances || destination !in balances {
        return Some(AccountMissing);
      }
      if !sameMint {
        return Some(InvalidDestination);
      }
      if strict && destination == VAULT {
        return Some(DuplicateAccount);
      }
      if amount == 0 {
        return Some(InvalidAmount);
      }
      if balances[VAULT] < amount {
        return Some(InsufficientVaultFunds);
      }
      Transfer(VAULT, destination, amount);
      events := events + [Withdrawn(treasury, destination, amount)];
      error := None;
    }
  }

  lemma NoFee(balances: map<Key, nat>, from: Key, to: Key)
    requires from in balances && to in balances
    ensures Moved(balances, from, to, 0) == balances
  {
  }
}
