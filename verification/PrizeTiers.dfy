/**
 The prize table on its way from Megapot to a graded ticket: the referral share is taken off and
 the amounts are written out as text (backend/src/services/megapotService.ts), then read back and
 used to grade tickets (backend/src/workers/settlementWorker.ts).
 */
module PrizeTiers {
  import opened Wrappers
  import opened Sums

  const REFERRAL_WIN_SHARE_BPS: int := 1000

  /** BigInt division truncates towards zero. */
  function Truncated(a: int, b: int): int
    requires b > 0
  {
    if a >= 0 then a / b else -((-a) / b)
  }

  function ApplyReferralShare(gross: int): int {
    gross - Truncated(gross * REFERRAL_WIN_SHARE_BPS, 10_000)
  }

  // ---------------------------------------------------------------------------------
  // The share
  // ---------------------------------------------------------------------------------

  /** Nine tenths, rounded up; nothing is won exactly when nothing was paid. */
  lemma NetIsNineTenths(gross: nat)
    ensures ApplyReferralShare(gross) == gross - gross / 10 == (9 * gross + 9) / 10
    ensures ApplyReferralShare(gross) == 0 <==> gross == 0
    ensures 0 <= ApplyReferralShare(gross) <= gross
  {
    assert gross * 1000 / 10_000 == gross / 10;
  }

  /** It is not the same as taking nine tenths rounded down. */
  lemma NetIsNotFloor(gross: nat)
    ensures ApplyReferralShare(gross) == 9 * gross / 10 <==> gross % 10 == 0
  {
    NetIsNineTenths(gross);
  }

  function Net(): int -> int {
    (gross: int) => ApplyReferralShare(gross)
  }

  function Same(): int -> int {
    (x: int) => x
  }

  function Rest(): int -> int {
    (x: int) => x % 10
  }

  ghost predicate NonNegative(s: seq<int>) {
    forall i :: 0 <= i < |s| ==> s[i] >= 0
  }

  lemma {:induction false} SharesAddUp(raws: seq<int>)
    requires NonNegative(raws)
    ensures SumBy(Same(), raws) >= 0 && 0 <= SumBy(Rest(), raws) <= 9 * |raws|
    ensures SumBy(Net(), raws) == ApplyReferralShare(SumBy(Same(), raws)) + SumBy(Rest(), raws) / 10
  {
    if |raws| > 0 {
      var front, last := raws[..|raws| - 1], raws[|raws| - 1];
      SharesAddUp(front);
      NetIsNineTenths(last);
      NetIsNineTenths(SumBy(Same(), front));
      NetIsNineTenths(SumBy(Same(), raws));
      CarryOver(SumBy(Same(), front), last, SumBy(Rest(), front));
      RestIsRemainder(front);
    } else {
      NetIsNineTenths(0);
    }
  }

  lemma {:induction false} RestIsRemainder(raws: seq<int>)
    requires NonNegative(raws)
    ensures SumBy(Rest(), raws) % 10 == SumBy(Same(), raws) % 10
  {
    if |raws| > 0 {
      RestIsRemainder(raws[..|raws| - 1]);
      TensVanish(SumBy(Rest(), raws[..|raws| - 1]), SumBy(Same(), raws[..|raws| - 1]), raws[|raws| - 1]);
    }
  }

  lemma TensVanish(a: int, b: int, x: int)
    requires a % 10 == b % 10
    ensures (a + x % 10) % 10 == (b + x) % 10
  {
  }

  lemma CarryOver(sum: nat, last: nat, rest: nat)
    ensures sum % 10 == rest % 10 ==> (sum + last) / 10 == sum / 10 + last / 10 + (rest + last % 10) / 10 - rest / 10
  {
  }

  /**
   Paying n winners one by one costs no less than the net of the total, and at most 9n/10 units
   more: the whole tenths of what the single prizes leave over.
   */
  lemma RoundingIsBounded(raws: seq<int>)
    requires NonNegative(raws)
    ensures var excess := SumBy((x: int) => ApplyReferralShare(x), raws) - ApplyReferralShare(SumBy((x: int) => x, raws));
      && excess == SumBy((x: int) => x % 10, raws) / 10
      && 0 <= excess <= 9 * |raws| / 10
  {
    SumAgrees((x: int) => ApplyReferralShare(x), raws, Net(), raws);
    SumAgrees((x: int) => x, raws, Same(), raws);
    SumAgrees((x: int) => x % 10, raws, Rest(), raws);
    SharesAddUp(raws);
  }

  // ---------------------------------------------------------------------------------
  // Amounts as text
  // ---------------------------------------------------------------------------------

  predicate IsDigit(c: char) {
    '0' <= c <= '9'
  }

  /** The format /^\d+$/ */
  predicate IsDecimal(text: string) {
    |text| > 0 && forall i :: 0 <= i < |text| ==> IsDigit(text[i])
  }

  function DigitOf(d: nat): char
    requires d < 10
  {
    ('0' as int + d) as char
  }

  function Natural(n: nat): string {
    if n < 10 then [DigitOf(n)] else Natural(n / 10) + [DigitOf(n % 10)]
  }

  /** toString of a bigint */
  function ToText(n: int): string {
    if n < 0 then "-" + Natural(-n) else Natural(n)
  }

  /** BigInt of a decimal text */
  function FromText(text: string): nat
    requires forall i :: 0 <= i < |text| ==> IsDigit(text[i])
  {
    if |text| == 0 then 0
    else
      var last := text[|text| - 1];
      assert IsDigit(last);
      10 * FromText(text[..|text| - 1]) + (last as int - '0' as int)
  }

  lemma {:induction false} TextRoundTrip(n: nat)
    ensures IsDecimal(Natural(n)) && FromText(Natural(n)) == n
  {
    if n >= 10 {
      TextRoundTrip(n / 10);
      var front := Natural(n / 10);
      assert Natural(n)[..|Natural(n)| - 1] == front;
    } else {
      assert Natural(n)[..0] == "";
    }
  }

  /** What is written out can be read back exactly when it is not negative. */
  lemma TextIsDecimal(n: int)
    ensures IsDecimal(ToText(n)) <==> n >= 0
    ensures n >= 0 ==> FromText(ToText(n)) == n
  {
    if n >= 0 {
      TextRoundTrip(n);
    } else {
      assert ToText(n)[0] == '-';
    }
  }

  // ---------------------------------------------------------------------------------
  // Writing the table
  // ---------------------------------------------------------------------------------

  datatype RawTier = RawTier(tierId: int, amount: int, ticketCount: int)

  datatype FormattedTier = FormattedTier(tierId: int, amount: string, ticketCount: int)

  function Formatted(raw: RawTier): FormattedTier {
    FormattedTier(raw.tierId, ToText(ApplyReferralShare(raw.amount)), raw.ticketCount)
  }

  function FormatAll(raws: seq<RawTier>): seq<FormattedTier> {
    if |raws| == 0 then []
    else if raws[|raws| - 1].tierId == 0 then FormatAll(raws[..|raws| - 1])
    else FormatAll(raws[..|raws| - 1]) + [Formatted(raws[|raws| - 1])]
  }

  function PaidOut(): RawTier -> int {
    (raw: RawTier) => if raw.tierId == 0 then 0 else raw.amount * raw.ticketCount
  }

  function JackpotOf(raws: seq<RawTier>): int {
    if |raws| == 0 then 0
    else if raws[|raws| - 1].tierId == 11 then ApplyReferralShare(raws[|raws| - 1].amount)
    else JackpotOf(raws[..|raws| - 1])
  }

  /**
   `from` tells which raw tier each formatted one was made of: the non-zero tiers, in order, none left
   out.  The total is what the raw amounts come to for all their winners.
   */
  method ProcessPrizeTiers(raws: seq<RawTier>)
    returns (totalPaid: int, jackpot: int, formatted: seq<FormattedTier>, ghost from: seq<int>)
    ensures totalPaid == SumBy((raw: RawTier) => if raw.tierId == 0 then 0 else raw.amount * raw.ticketCount, raws)
    ensures (forall i :: 0 <= i < |raws| ==> raws[i].tierId != 11) ==> jackpot == 0
    ensures forall i :: 0 <= i < |raws| && raws[i].tierId == 11 && (forall j :: i < j < |raws| ==> raws[j].tierId != 11) ==>
      jackpot == ApplyReferralShare(raws[i].amount)
    ensures formatted == FormatAll(raws)
    ensures MadeOf(raws, formatted, from)
  {
    totalPaid, jackpot, formatted := 0, 0, [];
    for i := 0 to |raws|
      invariant totalPaid == SumBy(PaidOut(), raws[..i])
      invariant jackpot == JackpotOf(raws[..i])
      invariant formatted == FormatAll(raws[..i])
    {
      var tier := raws[i];
      assert raws[..i + 1][..i] == raws[..i];
      if tier.tierId == 0 {
        continue;
      }
      var reduced := ApplyReferralShare(tier.amount);
      totalPaid := totalPaid + tier.amount * tier.ticketCount;
      if tier.tierId == 11 {
        jackpot := reduced;
      }
      formatted := formatted + [FormattedTier(tier.tierId, ToText(reduced), tier.ticketCount)];
    }
    assert raws[..|raws|] == raws;
    from := MadeFrom(raws);
    SumAgrees(PaidOut(), raws, (raw: RawTier) => if raw.tierId == 0 then 0 else raw.amount * raw.ticketCount, raws);
    NoJackpot(raws);
    forall i | 0 <= i < |raws| && raws[i].tierId == 11 && (forall j :: i < j < |raws| ==> raws[j].tierId != 11)
      ensures jackpot == ApplyReferralShare(raws[i].amount)
    {
      LastJackpot(raws, i);
    }
  }

  lemma {:induction false} NoJackpot(raws: seq<RawTier>)
    ensures (forall i :: 0 <= i < |raws| ==> raws[i].tierId != 11) ==> JackpotOf(raws) == 0
  {
    if |raws| > 0 {
      NoJackpot(raws[..|raws| - 1]);
    }
  }

  lemma {:induction false} LastJackpot(raws: seq<RawTier>, i: nat)
    requires i < |raws| && raws[i].tierId == 11 && forall j :: i < j < |raws| ==> raws[j].tierId != 11
    ensures JackpotOf(raws) == ApplyReferralShare(raws[i].amount)
  {
    if i < |raws| - 1 {
      LastJackpot(raws[..|raws| - 1], i);
    }
  }

  lemma {:induction false} MadeFrom(raws: seq<RawTier>) returns (from: seq<int>)
    ensures MadeOf(raws, FormatAll(raws), from)
  {
    from := [];
    if |raws| > 0 {
      var front, last := raws[..|raws| - 1], raws[|raws| - 1];
      from := MadeFrom(front);
      assert raws == front + [last];
      if last.tierId == 0 {
        SkippedTier(front, last, FormatAll(front), from);
      } else {
        OneMoreTier(front, last, FormatAll(front), from);
        from := from + [|front|];
      }
    }
  }

  lemma SkippedTier(front: seq<RawTier>, last: RawTier, formatted: seq<FormattedTier>, from: seq<int>)
    requires MadeOf(front, formatted, from) && last.tierId == 0
    ensures MadeOf(front + [last], formatted, from)
  {
  }

  lemma OneMoreTier(front: seq<RawTier>, last: RawTier, formatted: seq<FormattedTier>, from: seq<int>)
    requires MadeOf(front, formatted, from) && last.tierId != 0
    ensures MadeOf(front + [last], formatted + [Formatted(last)], from + [|front|])
  {
    var raws, now := front + [last], from + [|front|];
    forall i | 0 <= i < |raws| && raws[i].tierId != 0 ensures i in now {
      if i < |front| {
        assert front[i] == raws[i] && i in from;
      } else {
        assert now[|from|] == i;
      }
    }
  }

  /** Each formatted tier is a raw one with its net amount in decimal text; tier 0 alone is left out. */
  ghost predicate MadeOf(raws: seq<RawTier>, formatted: seq<FormattedTier>, from: seq<int>) {
    && |from| == |formatted|
    && (forall a, b :: 0 <= a < b < |from| ==> from[a] < from[b])
    && (forall i :: 0 <= i < |raws| && raws[i].tierId != 0 ==> i in from)
    && (forall k :: 0 <= k < |from| ==>
          && 0 <= from[k] < |raws| && raws[from[k]].tierId != 0
          && formatted[k] == FormattedTier(raws[from[k]].tierId, ToText(ApplyReferralShare(raws[from[k]].amount)), raws[from[k]].ticketCount))
  }

  // ---------------------------------------------------------------------------------
  // Reading it back
  // ---------------------------------------------------------------------------------

  /** A value found in the stored JSON. */
  datatype Json =
    | Undefined
    | Null
    | Flag(flag: bool)
    | Integer(value: int)
    | Text(text: string)
    | List(items: seq<Json>)
    | Unusable

  datatype Entry = Entry(tierId: Json, amount: Json)

  /**
   Number(value), if that is an integer.  An array counts as its elements' texts with commas in
   between, in which null and undefined leave nothing.
   */
  function NumericId(id: Json): Option<int> {
    match id
    case Null => Some(0)
    case Flag(flag) => Some(if flag then 1 else 0)
    case Integer(n) => Some(n)
    case Text(text) => if text == "" then Some(0) else if IsDecimal(text) then Some(FromText(text)) else None
    case List(items) =>
      if |items| == 0 then Some(0)
      else if |items| > 1 || items[0].Flag? then None
      else if items[0].Undefined? then Some(0)
      else NumericId(items[0])
    case _ => None
  }

  predicate WellFormed(e: Entry) {
    NumericId(e.tierId).Some? && e.amount.Text? && IsDecimal(e.amount.text)
  }

  ghost predicate AllWellFormed(entries: seq<Entry>) {
    forall i :: 0 <= i < |entries| ==> WellFormed(entries[i])
  }

  ghost function ReadAll(entries: seq<Entry>): map<int, nat>
    requires AllWellFormed(entries)
  {
    if |entries| == 0 then map[]
    else
      var last := entries[|entries| - 1];
      assert WellFormed(last);
      ReadAll(entries[..|entries| - 1])[NumericId(last.tierId).value := FromText(last.amount.text)]
  }

  /** An entry whose tier id is null, false, the empty text or an empty array is accepted, and sets what tier 0 pays. */
  lemma NullIsTierZero(entries: seq<Entry>, id: Json, amount: string)
    requires AllWellFormed(entries) && IsDecimal(amount)
    requires id in {Null, Flag(false), Text(""), List([])}
    ensures var more := entries + [Entry(id, Text(amount))];
      AllWellFormed(more) && ReadAll(more) == ReadAll(entries)[0 := FromText(amount)]
  {
    var more := entries + [Entry(id, Text(amount))];
    assert WellFormed(more[|entries|]);
    assert more[..|entries|] == entries;
  }

  /** No later entry has the same tier. */
  ghost predicate LastOfItsTier(entries: seq<Entry>, i: nat)
    requires i < |entries|
  {
    forall j :: i < j < |entries| ==> NumericId(entries[j].tierId) != NumericId(entries[i].tierId)
  }

  /** A tier is priced exactly if an entry names it. */
  lemma {:induction false} PricedIfNamed(entries: seq<Entry>, id: int)
    requires AllWellFormed(entries)
    ensures id in ReadAll(entries) <==> exists i :: 0 <= i < |entries| && NumericId(entries[i].tierId) == Some(id)
  {
    if |entries| > 0 {
      var front, last := entries[..|entries| - 1], entries[|entries| - 1];
      PricedIfNamed(front, id);
      assert WellFormed(last);
      if i :| 0 <= i < |entries| && NumericId(entries[i].tierId) == Some(id) {
        assert i < |front| ==> front[i] == entries[i];
      }
      if i :| 0 <= i < |front| && NumericId(front[i].tierId) == Some(id) {
        assert entries[i] == front[i];
      }
    }
  }

  /** The last entry that names a tier prices it. */
  lemma {:induction false} LastEntryCounts(entries: seq<Entry>, i: nat)
    requires AllWellFormed(entries) && i < |entries| && LastOfItsTier(entries, i)
    ensures WellFormed(entries[i]) && NumericId(entries[i].tierId).value in ReadAll(entries)
    ensures ReadAll(entries)[NumericId(entries[i].tierId).value] == FromText(entries[i].amount.text)
  {
    assert WellFormed(entries[i]);
    if i < |entries| - 1 {
      var front, last := entries[..|entries| - 1], entries[|entries| - 1];
      assert front[i] == entries[i] && WellFormed(last);
      LastEntryCounts(front, i);
    }
  }

  /** A number names its tier as a number, as text and alone in an array; true names tier 1. */
  lemma IdsReadBack(n: nat)
    ensures NumericId(Integer(n)) == Some(n) && NumericId(Text(Natural(n))) == Some(n)
    ensures NumericId(List([Integer(n)])) == Some(n) && NumericId(List([Integer(n), Integer(n)])) == None
    ensures NumericId(Flag(true)) == Some(1) && NumericId(List([Flag(true)])) == None
    ensures NumericId(Undefined) == None && NumericId(Unusable) == None
  {
    TextRoundTrip(n);
  }

  /** None stands for the exception; `json` is None when it is not an array. */
  method ParsePrizeTiers(json: Option<seq<Entry>>) returns (tiers: Option<map<int, nat>>)
    ensures tiers.Some? <==> json.Some? && |json.value| > 0 && AllWellFormed(json.value)
    ensures tiers.Some? ==> tiers.value == ReadAll(json.value)
    ensures tiers.Some? ==> forall id :: id in tiers.value <==> exists i :: 0 <= i < |json.value| && NumericId(json.value[i].tierId) == Some(id)
    ensures tiers.Some? ==> forall i :: 0 <= i < |json.value| && LastOfItsTier(json.value, i) ==>
      && WellFormed(json.value[i]) && NumericId(json.value[i].tierId).value in tiers.value
      && tiers.value[NumericId(json.value[i].tierId).value] == FromText(json.value[i].amount.text)
  {
    if json.Some? && AllWellFormed(json.value) {
      forall id ensures id in ReadAll(json.value) <==> exists i :: 0 <= i < |json.value| && NumericId(json.value[i].tierId) == Some(id) {
        PricedIfNamed(json.value, id);
      }
      forall i | 0 <= i < |json.value| && LastOfItsTier(json.value, i)
        ensures WellFormed(json.value[i]) && NumericId(json.value[i].tierId).value in ReadAll(json.value)
        ensures ReadAll(json.value)[NumericId(json.value[i].tierId).value] == FromText(json.value[i].amount.text)
      {
        LastEntryCounts(json.value, i);
      }
    }
    if json.None? || |json.value| == 0 {
      return None;
    }
    var entries := json.value;
    var read: map<int, nat> := map[];
    for i := 0 to |entries|
      invariant AllWellFormed(entries[..i])
      invariant read == ReadAll(entries[..i])
    {
      var entry := entries[i];
      if !WellFormed(entry) {
        assert !WellFormed(entries[i]);
        return None;
      }
      assert entries[..i + 1][..i] == entries[..i];
      read := read[NumericId(entry.tierId).value := FromText(entry.amount.text)];
    }
    assert entries[..|entries|] == entries;
    return Some(read);
  }

  function Stored(t: FormattedTier): Entry {
    Entry(Integer(t.tierId), Text(t.amount))
  }

  function StoredAll(formatted: seq<FormattedTier>): (entries: seq<Entry>)
    ensures |entries| == |formatted|
  {
    seq(|formatted|, i requires 0 <= i < |formatted| => Stored(formatted[i]))
  }

  ghost predicate DistinctIds(raws: seq<RawTier>) {
    forall i, j :: 0 <= i < j < |raws| ==> raws[i].tierId != raws[j].tierId
  }

  /** The table can be read back: it has a paying tier, and no paying tier is negative. */
  ghost predicate Usable(raws: seq<RawTier>) {
    && (exists i :: 0 <= i < |raws| && raws[i].tierId != 0)
    && NoNegativePrize(raws)
  }

  ghost predicate NoNegativePrize(raws: seq<RawTier>) {
    forall i :: 0 <= i < |raws| && raws[i].tierId != 0 ==> raws[i].amount >= 0
  }

  lemma NetSign(gross: int)
    ensures ApplyReferralShare(gross) >= 0 <==> gross >= 0
  {
  }

  lemma {:induction false} FormattedFrom(raws: seq<RawTier>)
    ensures forall f :: f in FormatAll(raws) <==> exists i :: 0 <= i < |raws| && raws[i].tierId != 0 && f == Formatted(raws[i])
  {
    if |raws| > 0 {
      var front := raws[..|raws| - 1];
      FormattedFrom(front);
      forall f ensures f in FormatAll(raws) <==> exists i :: 0 <= i < |raws| && raws[i].tierId != 0 && f == Formatted(raws[i]) {
        if i :| 0 <= i < |raws| && raws[i].tierId != 0 && f == Formatted(raws[i]) {
          assert i < |raws| - 1 ==> front[i] == raws[i];
        }
        if f in FormatAll(front) {
          var i :| 0 <= i < |front| && front[i].tierId != 0 && f == Formatted(front[i]);
          assert raws[i] == front[i];
        }
      }
    }
  }

  lemma StoredIsWellFormed(raw: RawTier)
    ensures WellFormed(Stored(Formatted(raw))) <==> raw.amount >= 0
    ensures raw.amount >= 0 ==> FromText(Stored(Formatted(raw)).amount.text) == ApplyReferralShare(raw.amount)
  {
    TextIsDecimal(ApplyReferralShare(raw.amount));
    NetSign(raw.amount);
  }

  /** The stored table is accepted exactly when it is usable. */
  lemma {:induction false} StoredIsAcceptedIffUsable(raws: seq<RawTier>)
    ensures var entries := StoredAll(FormatAll(raws));
      |entries| > 0 && AllWellFormed(entries) <==> Usable(raws)
  {
    FormattedFrom(raws);
    var formatted := FormatAll(raws);
    var entries := StoredAll(formatted);
    if |entries| > 0 && AllWellFormed(entries) {
      assert formatted[0] in formatted;
      forall i | 0 <= i < |raws| && raws[i].tierId != 0 ensures raws[i].amount >= 0 {
        assert Formatted(raws[i]) in formatted;
        var k :| 0 <= k < |formatted| && formatted[k] == Formatted(raws[i]);
        assert WellFormed(entries[k]);
        StoredIsWellFormed(raws[i]);
      }
    }
    if Usable(raws) {
      var i :| 0 <= i < |raws| && raws[i].tierId != 0;
      assert Formatted(raws[i]) in formatted;
      UsableIsAccepted(raws);
    }
  }

  lemma {:induction false} UsableIsAccepted(raws: seq<RawTier>)
    requires NoNegativePrize(raws)
    ensures AllWellFormed(StoredAll(FormatAll(raws)))
  {
    FormattedFrom(raws);
    var formatted := FormatAll(raws);
    forall k | 0 <= k < |formatted| ensures IsDecimal(formatted[k].amount) {
      assert formatted[k] in formatted;
      var i :| 0 <= i < |raws| && raws[i].tierId != 0 && formatted[k] == Formatted(raws[i]);
      StoredIsWellFormed(raws[i]);
    }
  }

  /** The table read back holds every non-zero tier's net prize, and nothing else. */
  ghost predicate Mirrors(raws: seq<RawTier>, tiers: map<int, nat>) {
    && (forall i :: 0 <= i < |raws| && raws[i].tierId != 0 ==> Holds(tiers, raws[i]))
    && (forall id :: id in tiers ==> id != 0 && Priced(raws, id))
  }

  predicate Holds(tiers: map<int, nat>, raw: RawTier) {
    raw.tierId in tiers && tiers[raw.tierId] == ApplyReferralShare(raw.amount)
  }

  predicate Priced(raws: seq<RawTier>, id: int) {
    exists i :: 0 <= i < |raws| && raws[i].tierId == id
  }

  lemma MirrorsOn(raws: seq<RawTier>, last: RawTier, tiers: map<int, nat>)
    requires Mirrors(raws, tiers) && (last.tierId != 0 ==> last.amount >= 0)
    requires forall i :: 0 <= i < |raws| ==> raws[i].tierId != last.tierId
    ensures last.tierId == 0 ==> Mirrors(raws + [last], tiers)
    ensures last.tierId != 0 ==> Mirrors(raws + [last], tiers[last.tierId := ApplyReferralShare(last.amount)])
  {
    NetSign(last.amount);
    var all := raws + [last];
    assert all[|raws|] == last;
    forall id | Priced(raws, id) ensures Priced(all, id) {
      var i :| 0 <= i < |raws| && raws[i].tierId == id;
      assert all[i].tierId == id;
    }
    forall i | 0 <= i < |all| && all[i].tierId != 0 && i < |raws| ensures Holds(tiers, all[i]) {
      assert Holds(tiers, raws[i]);
    }
  }

  /** The prize table a settlement runner reads: written out, stored and parsed. */
  ghost function StoredTable(raws: seq<RawTier>): map<int, nat>
    requires Usable(raws)
  {
    StoredIsAcceptedIffUsable(raws);
    ReadAll(StoredAll(FormatAll(raws)))
  }

  lemma {:induction false} ReadBack(raws: seq<RawTier>)
    requires DistinctIds(raws) && NoNegativePrize(raws)
    ensures AllWellFormed(StoredAll(FormatAll(raws)))
    ensures Mirrors(raws, ReadAll(StoredAll(FormatAll(raws))))
  {
    UsableIsAccepted(raws);
    if |raws| > 0 {
      var front, last := raws[..|raws| - 1], raws[|raws| - 1];
      UsableIsAccepted(front);
      ReadBack(front);
      MirrorsOn(front, last, ReadAll(StoredAll(FormatAll(front))));
      assert front + [last] == raws;
      if last.tierId == 0 {
        assert FormatAll(raws) == FormatAll(front);
      } else {
        assert FormatAll(raws) == FormatAll(front) + [Formatted(last)];
        ReadLast(FormatAll(front), last);
      }
    }
  }

  lemma ReadLast(formatted: seq<FormattedTier>, last: RawTier)
    requires AllWellFormed(StoredAll(formatted)) && AllWellFormed(StoredAll(formatted + [Formatted(last)]))
    requires last.amount >= 0
    ensures ApplyReferralShare(last.amount) >= 0
    ensures ReadAll(StoredAll(formatted + [Formatted(last)])) == ReadAll(StoredAll(formatted))[last.tierId := ApplyReferralShare(last.amount)]
  {
    StoredIsWellFormed(last);
    NetSign(last.amount);
    var entries := StoredAll(formatted + [Formatted(last)]);
    assert entries[..|entries| - 1] == StoredAll(formatted);
  }
}
