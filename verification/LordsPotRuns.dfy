/** What holds in every run of the program from before it is initialized. */
module LordsPotRuns {
  import opened Wrappers
  import opened Sums
  import opened LordsPot

  datatype Call = Call(ix: Instruction, signed: set<Key>)

  function After(strict: bool, w: World, call: Call): World {
    var r := Execute(strict, w, call.ix, call.signed);
    if r.Ok? then r.value else w
  }

  /** Nobody holds the key of the vault's derived address. */
  predicate Possible(call: Call) {
    VAULT !in call.signed
  }

  ghost predicate Fresh(w: World) {
    w.pot == None && VAULT !in w.balances && w.events == []
  }

  ghost predicate Run(strict: bool, worlds: seq<World>, calls: seq<Call>) {
    && |worlds| == |calls| + 1 && Fresh(worlds[0])
    && forall k :: 0 <= k < |calls| ==> Follows(strict, worlds, calls, k)
  }

  ghost predicate Follows(strict: bool, worlds: seq<World>, calls: seq<Call>, k: int)
    requires 0 <= k < |calls| && |worlds| == |calls| + 1
  {
    Possible(calls[k]) && worlds[k + 1] == After(strict, worlds[k], calls[k])
  }

  lemma Step(strict: bool, worlds: seq<World>, calls: seq<Call>, k: nat)
    requires Run(strict, worlds, calls) && 0 < k <= |calls|
    ensures Possible(calls[k - 1]) && worlds[k] == After(strict, worlds[k - 1], calls[k - 1])
  {
    assert Follows(strict, worlds, calls, k - 1);
  }

  // ---------------------------------------------------------------------------------
  // Roles
  // ---------------------------------------------------------------------------------

  predicate TreasuryIsReal(w: World) {
    w.pot.Some? ==> w.pot.value.treasuryAuthority != DEFAULT_KEY && w.pot.value.maxClaimAmount > 0
  }

  lemma TreasuryStaysReal(strict: bool, w: World, call: Call)
    requires TreasuryIsReal(w)
    ensures TreasuryIsReal(After(strict, w, call))
  {
  }

  lemma {:induction false} TreasuryNeverDefault(strict: bool, worlds: seq<World>, calls: seq<Call>, k: nat)
    requires Run(strict, worlds, calls) && k < |worlds|
    ensures TreasuryIsReal(worlds[k])
  {
    if k > 0 {
      TreasuryNeverDefault(strict, worlds, calls, k - 1);
      Step(strict, worlds, calls, k);
      TreasuryStaysReal(strict, worlds[k - 1], calls[k - 1]);
    }
  }

  /** The treasury key changes hands only with its holder's signature, to a key that signs too. */
  lemma TreasuryMovesWithConsent(strict: bool, worlds: seq<World>, calls: seq<Call>, k: nat)
    requires Run(strict, worlds, calls) && 0 < k < |worlds| && worlds[k - 1].pot.Some?
    ensures worlds[k].pot.Some?
    ensures worlds[k].pot.value.treasuryAuthority != worlds[k - 1].pot.value.treasuryAuthority ==>
      && worlds[k - 1].pot.value.treasuryAuthority in calls[k - 1].signed
      && worlds[k].pot.value.treasuryAuthority in calls[k - 1].signed
  {
    TreasuryNeverDefault(strict, worlds, calls, k - 1);
    Step(strict, worlds, calls, k);
  }

  /** Everything the admin controls stays put without the admin's signature. */
  lemma AdminMovesWithConsent(strict: bool, worlds: seq<World>, calls: seq<Call>, k: nat)
    requires Run(strict, worlds, calls) && 0 < k < |worlds| && worlds[k - 1].pot.Some?
    requires worlds[k - 1].pot.value.admin !in calls[k - 1].signed
    ensures worlds[k].pot.Some?
    ensures worlds[k].pot.value.(treasuryAuthority := DEFAULT_KEY) == worlds[k - 1].pot.value.(treasuryAuthority := DEFAULT_KEY)
  {
    TreasuryNeverDefault(strict, worlds, calls, k - 1);
    Step(strict, worlds, calls, k);
  }

  /** The admin role changes hands only with the signatures of both keys. */
  lemma AdminRotationSigned(strict: bool, worlds: seq<World>, calls: seq<Call>, k: nat)
    requires Run(strict, worlds, calls) && 0 < k < |worlds| && worlds[k - 1].pot.Some?
    ensures worlds[k].pot.Some?
    ensures worlds[k].pot.value.admin != worlds[k - 1].pot.value.admin ==>
      {worlds[k - 1].pot.value.admin, worlds[k].pot.value.admin} <= calls[k - 1].signed
  {
    Step(strict, worlds, calls, k);
  }

  function VaultBalance(w: World): nat {
    BalanceOf(w, VAULT)
  }

  /** Nobody but the vault ever pays without having signed. */
  lemma NobodyPaysUnsigned(strict: bool, worlds: seq<World>, calls: seq<Call>, k: nat, account: Key)
    requires Run(strict, worlds, calls) && 0 < k < |worlds| && account != VAULT
    ensures BalanceOf(worlds[k], account) < BalanceOf(worlds[k - 1], account) ==> account in calls[k - 1].signed
  {
    Step(strict, worlds, calls, k);
  }

  /** `amount` went from one account to the other, and no other money moved. */
  ghost predicate Shifted(w: World, w': World, from: Key, to: Key, amount: nat) {
    forall account :: BalanceOf(w', account) == BalanceOf(w, account) - (if account == from then amount else 0) + (if account == to then amount else 0)
  }

  /** Where the money of a recorded event went, to the last account. */
  lemma MoneyFollowsEvents(strict: bool, worlds: seq<World>, calls: seq<Call>, k: nat)
    requires Run(strict, worlds, calls) && 0 < k < |worlds| && |worlds[k].events| > |worlds[k - 1].events|
    ensures var w, w', e := worlds[k - 1], worlds[k], worlds[k].events[|worlds[k - 1].events|];
      match e
      case Purchased(buyer, amount, tickets, epoch) =>
        && w.pot.Some? && !w.pot.value.paused && amount == |tickets| * w.pot.value.ticketPrice && epoch == w.pot.value.ongoingEpoch
        && Charged(w, w', w.pot.value, buyer, |tickets|)
      case Claimed(user, amount) => Shifted(w, w', VAULT, user, amount)
      case Withdrawn(_, destination, amount) => Shifted(w, w', VAULT, destination, amount)
      case Deposited(from, amount) => Shifted(w, w', from, VAULT, amount)
  {
    Step(strict, worlds, calls, k);
    var call := calls[k - 1];
    assert Signers(call.ix) <= call.signed;
    if call.ix.BuyTicket? {
      PurchaseMeans(strict, worlds[k - 1], worlds[k - 1].pot.value, call.ix.buyer, call.ix.tickets);
    }
  }

  /** Without the treasury's signature a step takes at most one claim out of the vault, and only a co-signed one. */
  lemma VaultGuarded(strict: bool, worlds: seq<World>, calls: seq<Call>, k: nat)
    requires Run(strict, worlds, calls) && 0 < k < |worlds| && worlds[k - 1].pot.Some?
    requires worlds[k - 1].pot.value.treasuryAuthority !in calls[k - 1].signed
    ensures var pot := worlds[k - 1].pot.value;
      && VaultBalance(worlds[k - 1]) - VaultBalance(worlds[k]) <= pot.maxClaimAmount
      && (VaultBalance(worlds[k]) < VaultBalance(worlds[k - 1]) ==>
            calls[k - 1].ix.ClaimWinnings? && !pot.paused && {calls[k - 1].ix.user, pot.admin} <= calls[k - 1].signed)
  {
    Step(strict, worlds, calls, k);
    assert Signers(calls[k - 1].ix) <= calls[k - 1].signed || worlds[k] == worlds[k - 1];
  }

  // ---------------------------------------------------------------------------------
  // The vault ledger
  // ---------------------------------------------------------------------------------

  /** What an event says the vault gained. */
  function Gain(e: Event): int {
    match e
    case Purchased(_, amount, _, _) => amount
    case Claimed(_, amount) => 0 - amount
    case Withdrawn(_, _, amount) => 0 - amount
    case Deposited(_, amount) => amount
  }

  function Delta(): Event -> int {
    (e: Event) => Gain(e)
  }

  /** Money that stays in, or enters, the vault beyond what the event says. */
  function Surplus(strict: bool, w: World, call: Call): nat {
    if Execute(strict, w, call.ix, call.signed).Err? || w.pot.None? then 0
    else
      match call.ix
      case BuyTicket(_, tickets) => if w.pot.value.feeRecipient == VAULT then RelayFee(w.pot.value, |tickets|) else 0
      case WithdrawVaultFunds(_, destination, _, amount) => if destination == VAULT then amount else 0
      case _ => 0
  }

  /** What a call adds to the record. */
  function Recorded(strict: bool, w: World, call: Call): int {
    if |After(strict, w, call).events| == |w.events| + 1 then Gain(After(strict, w, call).events[|w.events|]) else 0
  }

  lemma RecordGrows(strict: bool, w: World, call: Call)
    ensures SumBy(Delta(), After(strict, w, call).events) == SumBy(Delta(), w.events) + Recorded(strict, w, call)
  {
  }

  lemma VaultMoves(strict: bool, w: World, call: Call)
    requires Possible(call)
    ensures VaultBalance(After(strict, w, call)) - VaultBalance(w) == Recorded(strict, w, call) + Surplus(strict, w, call)
  {
    if call.ix.BuyTicket? {
      assert call.ix.buyer in call.signed ==> call.ix.buyer != VAULT;
    }
  }

  lemma LedgerStep(strict: bool, w: World, call: Call)
    requires Possible(call)
    ensures VaultBalance(After(strict, w, call)) - VaultBalance(w)
            == SumBy(Delta(), After(strict, w, call).events) - SumBy(Delta(), w.events) + Surplus(strict, w, call)
  {
    RecordGrows(strict, w, call);
    VaultMoves(strict, w, call);
  }

  function TotalSurplus(strict: bool, worlds: seq<World>, calls: seq<Call>, k: nat): nat
    requires k <= |calls| && |worlds| == |calls| + 1
  {
    if k == 0 then 0 else TotalSurplus(strict, worlds, calls, k - 1) + Surplus(strict, worlds[k - 1], calls[k - 1])
  }

  /** The vault holds deposits and purchases less claims and withdrawals, plus the surplus. */
  lemma {:induction false} LedgerBalances(strict: bool, worlds: seq<World>, calls: seq<Call>, k: nat)
    requires Run(strict, worlds, calls) && k < |worlds|
    ensures VaultBalance(worlds[k]) == SumBy(Delta(), worlds[k].events) + TotalSurplus(strict, worlds, calls, k)
  {
    if k > 0 {
      LedgerBalances(strict, worlds, calls, k - 1);
      Step(strict, worlds, calls, k);
      LedgerStep(strict, worlds[k - 1], calls[k - 1]);
    }
  }

  /** The relay fee goes to the vault itself, or the vault withdraws to itself. */
  predicate FeedsItself(strict: bool, w: World, call: Call) {
    && Execute(strict, w, call.ix, call.signed).Ok? && w.pot.Some?
    && ((call.ix.BuyTicket? && w.pot.value.feeRecipient == VAULT && RelayFee(w.pot.value, |call.ix.tickets|) > 0)
        || (call.ix.WithdrawVaultFunds? && call.ix.destination == VAULT))
  }

  lemma SurplusIffFeedsItself(strict: bool, w: World, call: Call)
    ensures Surplus(strict, w, call) > 0 <==> FeedsItself(strict, w, call)
    ensures strict ==> !FeedsItself(strict, w, call)
  {
  }

  lemma {:induction false} NoSurplusIff(strict: bool, worlds: seq<World>, calls: seq<Call>, k: nat)
    requires k <= |calls| && |worlds| == |calls| + 1
    ensures TotalSurplus(strict, worlds, calls, k) == 0 <==> forall j :: 0 <= j < k ==> !FeedsItself(strict, worlds[j], calls[j])
  {
    if k > 0 {
      NoSurplusIff(strict, worlds, calls, k - 1);
      SurplusIffFeedsItself(strict, worlds[k - 1], calls[k - 1]);
    }
  }

  /**
   The vault balance is exactly deposits plus purchases less claims and withdrawals if and only if
   the vault never fed itself; it is never less.  A framework that refuses duplicate accounts makes it exact.
   */
  lemma LedgerIsExactIff(strict: bool, worlds: seq<World>, calls: seq<Call>, k: nat)
    requires Run(strict, worlds, calls) && k < |worlds|
    ensures VaultBalance(worlds[k]) >= SumBy(Delta(), worlds[k].events)
    ensures VaultBalance(worlds[k]) == SumBy(Delta(), worlds[k].events) <==>
            forall j :: 0 <= j < k ==> !FeedsItself(strict, worlds[j], calls[j])
    ensures strict ==> VaultBalance(worlds[k]) == SumBy(Delta(), worlds[k].events)
  {
    LedgerBalances(strict, worlds, calls, k);
    NoSurplusIff(strict, worlds, calls, k);
    if strict {
      forall j | 0 <= j < k ensures !FeedsItself(strict, worlds[j], calls[j]) {
        SurplusIffFeedsItself(strict, worlds[j], calls[j]);
      }
    }
  }

  // ---------------------------------------------------------------------------------
  // One rulebook per epoch
  // ---------------------------------------------------------------------------------

  datatype Rulebook = Rulebook(normalMax: u8, bonusMax: u8, price: u64)

  function RulesOf(pot: Pot): Rulebook {
    Rulebook(pot.normalMax, pot.bonusMax, pot.ticketPrice)
  }

  ghost predicate ValidUnder(e: Event, rules: Rulebook)
    requires e.Purchased?
  {
    && e.amountPaid == |e.tickets| * rules.price
    && forall i :: 0 <= i < |e.tickets| ==> ProperTicket(e.tickets[i], rules.normalMax, rules.bonusMax)
  }

  ghost predicate PurchaseOk(w: World, rules: map<u64, Rulebook>, i: int)
    requires 0 <= i < |w.events|
  {
    w.events[i].Purchased? ==>
      && w.pot.Some? && w.events[i].epoch <= w.pot.value.ongoingEpoch
      && w.events[i].epoch in rules && ValidUnder(w.events[i], rules[w.events[i].epoch])
  }

  ghost predicate EpochsAscend(events: seq<Event>) {
    forall i, j :: 0 <= i < j < |events| && events[i].Purchased? && events[j].Purchased? ==> events[i].epoch <= events[j].epoch
  }

  ghost predicate RulesOk(w: World, rules: map<u64, Rulebook>) {
    && (forall i :: 0 <= i < |w.events| ==> PurchaseOk(w, rules, i))
    && EpochsAscend(w.events)
    && (w.pot.None? ==> rules == map[])
    && (w.pot.Some? ==>
          && (forall e :: e in rules ==> e <= w.pot.value.ongoingEpoch)
          && (!w.pot.value.paused ==> w.pot.value.ongoingEpoch in rules && rules[w.pot.value.ongoingEpoch] == RulesOf(w.pot.value)))
  }

  /** The rulebook in force from the moment an epoch opens. */
  ghost function RulesAfter(rules: map<u64, Rulebook>, w: World, w': World): map<u64, Rulebook> {
    if w'.pot.Some? && (w.pot.None? || w'.pot.value.ongoingEpoch != w.pot.value.ongoingEpoch)
    then rules[w'.pot.value.ongoingEpoch := RulesOf(w'.pot.value)] else rules
  }

  lemma RulesStep(strict: bool, w: World, call: Call, rules: map<u64, Rulebook>)
    requires RulesOk(w, rules)
    ensures RulesOk(After(strict, w, call), RulesAfter(rules, w, After(strict, w, call)))
  {
    var w' := After(strict, w, call);
    var rules' := RulesAfter(rules, w, w');
    ClockStep(strict, w, call);
    forall i | 0 <= i < |w'.events| ensures PurchaseOk(w', rules', i) {
      if i < |w.events| {
        assert PurchaseOk(w, rules, i);
        assert w'.events[i] == w.events[i];
      } else {
        NewPurchase(strict, w, call, rules);
      }
    }
    if |w'.events| > |w.events| {
      EpochsStep(w, w', rules);
    }
  }

  lemma EpochsStep(w: World, w': World, rules: map<u64, Rulebook>)
    requires RulesOk(w, rules) && |w'.events| == |w.events| + 1 && w'.events == w.events + [w'.events[|w.events|]]
    requires w'.events[|w.events|].Purchased? ==> w.pot.Some? && w'.events[|w.events|].epoch == w.pot.value.ongoingEpoch
    ensures EpochsAscend(w'.events)
  {
    forall i, j | 0 <= i < j < |w'.events| && w'.events[i].Purchased? && w'.events[j].Purchased?
      ensures w'.events[i].epoch <= w'.events[j].epoch
    {
      assert PurchaseOk(w, rules, i);
      assert w'.events[i] == w.events[i];
    }
  }

  lemma NewPurchase(strict: bool, w: World, call: Call, rules: map<u64, Rulebook>)
    requires RulesOk(w, rules) && |After(strict, w, call).events| > |w.events|
    ensures var w' := After(strict, w, call);
      |w'.events| == |w.events| + 1 && w'.events == w.events + [w'.events[|w.events|]]
      && (w'.events[|w.events|].Purchased? ==>
            && w'.pot == w.pot && w.pot.Some? && w'.events[|w.events|].epoch == w.pot.value.ongoingEpoch
            && w.pot.value.ongoingEpoch in rules && ValidUnder(w'.events[|w.events|], rules[w.pot.value.ongoingEpoch]))
  {
    if call.ix.BuyTicket? {
      AcceptedPurchase(w.pot.value, call.ix.tickets);
    }
  }

  /** The limits and the price are these, and all purchases so far were made under them. */
  ghost predicate Under(w: World, normals: u8, bonus: u8, price: u64) {
    && w.pot.Some? && w.pot.value.normalMax == normals && w.pot.value.bonusMax == bonus && w.pot.value.ticketPrice == price
    && forall i :: 0 <= i < |w.events| ==> BoughtUnder(w.events[i], normals, bonus, price)
  }

  ghost predicate BoughtUnder(e: Event, normals: u8, bonus: u8, price: u64) {
    e.Purchased? ==>
      && e.amountPaid == |e.tickets| * price
      && forall i :: 0 <= i < |e.tickets| ==>
           && |e.tickets[i].normals| == 5 && 1 <= e.tickets[i].bonus <= bonus
           && forall j :: 0 <= j < 5 ==> 1 <= e.tickets[i].normals[j] <= normals
  }

  lemma UnderStep(strict: bool, w: World, call: Call, normals: u8, bonus: u8, price: u64)
    requires Under(w, normals, bonus, price) && !call.ix.UpdateEpoch?
    ensures Under(After(strict, w, call), normals, bonus, price)
  {
    if call.ix.BuyTicket? {
      AcceptedPurchase(w.pot.value, call.ix.tickets);
    }
  }

  /** Until the limits are first updated, every purchase obeys the limits and the price given to initialize. */
  lemma {:induction false} FirstRulebook(strict: bool, worlds: seq<World>, calls: seq<Call>, j: nat, k: nat)
    requires Run(strict, worlds, calls) && j < k < |worlds|
    requires calls[j].ix.Initialize? && worlds[j].pot.None? && worlds[j + 1].pot.Some?
    requires forall i :: j < i < k ==> !calls[i].ix.UpdateEpoch?
    ensures Under(worlds[k], calls[j].ix.normalMax, calls[j].ix.bonusMax, calls[j].ix.price)
  {
    Step(strict, worlds, calls, k);
    if k == j + 1 {
      var rules := RunRules(strict, worlds, calls, j);
      forall i | 0 <= i < |worlds[j].events| ensures !worlds[j].events[i].Purchased? {
        assert PurchaseOk(worlds[j], rules, i);
      }
    } else {
      FirstRulebook(strict, worlds, calls, j, k - 1);
      UnderStep(strict, worlds[k - 1], calls[k - 1], calls[j].ix.normalMax, calls[j].ix.bonusMax, calls[j].ix.price);
    }
  }

  /** Time as the program sees it: an open epoch, then the same epoch paused, then a later one. */
  function Clock(w: World): int {
    if w.pot.None? then -1 else 2 * w.pot.value.ongoingEpoch + if w.pot.value.paused then 1 else 0
  }

  lemma ClockStep(strict: bool, w: World, call: Call)
    ensures var w' := After(strict, w, call);
      && (w.pot.Some? ==> w'.pot.Some?)
      && Clock(w) <= Clock(w')
      && (w.pot.Some? && Clock(w) == Clock(w') && !w.pot.value.paused ==> RulesOf(w'.pot.value) == RulesOf(w.pot.value))
      && (w.pot.Some? && w'.pot.value.ongoingEpoch != w.pot.value.ongoingEpoch ==> !w'.pot.value.paused)
      && (w.pot.None? && w'.pot.Some? ==> !w'.pot.value.paused && w'.events == w.events)
      && w.events <= w'.events
  {
  }

  lemma {:induction false} RunRules(strict: bool, worlds: seq<World>, calls: seq<Call>, k: nat) returns (rules: map<u64, Rulebook>)
    requires Run(strict, worlds, calls) && k < |worlds|
    ensures RulesOk(worlds[k], rules)
  {
    if k == 0 {
      rules := map[];
    } else {
      var before := RunRules(strict, worlds, calls, k - 1);
      Step(strict, worlds, calls, k);
      RulesStep(strict, worlds[k - 1], calls[k - 1], before);
      rules := RulesAfter(before, worlds[k - 1], worlds[k]);
    }
  }

  /** All purchases recorded under one epoch obey the same limits and the same price. */
  lemma OneRulebookPerEpoch(strict: bool, worlds: seq<World>, calls: seq<Call>, k: nat) returns (rules: map<u64, Rulebook>)
    requires Run(strict, worlds, calls) && k < |worlds|
    ensures forall i :: 0 <= i < |worlds[k].events| && worlds[k].events[i].Purchased? ==>
      worlds[k].events[i].epoch in rules && ValidUnder(worlds[k].events[i], rules[worlds[k].events[i].epoch])
    ensures EpochsAscend(worlds[k].events)
  {
    rules := RunRules(strict, worlds, calls, k);
    forall i | 0 <= i < |worlds[k].events| && worlds[k].events[i].Purchased?
      ensures worlds[k].events[i].epoch in rules && ValidUnder(worlds[k].events[i], rules[worlds[k].events[i].epoch])
    {
      assert PurchaseOk(worlds[k], rules, i);
    }
  }

  lemma {:induction false} ClockRuns(strict: bool, worlds: seq<World>, calls: seq<Call>, i: nat, k: nat)
    requires Run(strict, worlds, calls) && i <= k < |worlds|
    ensures Clock(worlds[i]) <= Clock(worlds[k])
  {
    if i < k {
      ClockRuns(strict, worlds, calls, i, k - 1);
      Step(strict, worlds, calls, k);
      ClockStep(strict, worlds[k - 1], calls[k - 1]);
    }
  }

  predicate OpenFor(w: World, epoch: u64) {
    w.pot.Some? && !w.pot.value.paused && w.pot.value.ongoingEpoch == epoch
  }

  /** An epoch is open in one stretch, under one rulebook throughout. */
  lemma {:induction false} OneOpenInterval(strict: bool, worlds: seq<World>, calls: seq<Call>, i: nat, j: nat, k: nat, epoch: u64)
    requires Run(strict, worlds, calls) && i <= j <= k < |worlds|
    requires OpenFor(worlds[i], epoch) && OpenFor(worlds[k], epoch)
    ensures OpenFor(worlds[j], epoch) && RulesOf(worlds[j].pot.value) == RulesOf(worlds[i].pot.value)
    decreases j
  {
    if i < j {
      ClockRuns(strict, worlds, calls, i, j - 1);
      ClockRuns(strict, worlds, calls, j - 1, j);
      ClockRuns(strict, worlds, calls, j, k);
      OneOpenInterval(strict, worlds, calls, i, j - 1, k, epoch);
      Step(strict, worlds, calls, j);
      ClockStep(strict, worlds[j - 1], calls[j - 1]);
    }
  }

  /** Epoch numbers only ever grow, and paused is the only way from one to the next. */
  lemma EpochsNeverDecrease(strict: bool, worlds: seq<World>, calls: seq<Call>, i: nat, k: nat)
    requires Run(strict, worlds, calls) && i <= k < |worlds| && worlds[i].pot.Some?
    ensures worlds[k].pot.Some? && worlds[i].pot.value.ongoingEpoch <= worlds[k].pot.value.ongoingEpoch
  {
    ClockRuns(strict, worlds, calls, i, k);
  }
}
