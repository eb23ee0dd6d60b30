/**
 A purchase in the browser (frontend/src/solana/buyTickets.ts and constants.ts): staged tickets are
 packed into instructions and transactions, and the relay fee quoted beforehand is the fee the
 program charges for them.
 */
module Purchase {
  import opened Wrappers
  import opened Sums
  import opened LordsPot

  const NORMALS_PER_TICKET: nat := 5
  const MAX_TICKETS_PER_IX: nat := 65
  const RELAY_FEE_BASE_USDC: nat := 0
  const RELAY_FEE_PER_TICKET_USDC: nat := 0

  datatype StagedTicket = StagedTicket(normals: seq<int>, bonus: Option<u8>)

  type Instructions = seq<seq<LineTicket>>

  predicate Complete(t: StagedTicket) {
    |t.normals| == NORMALS_PER_TICKET && t.bonus.Some?
  }

  /** A byte buffer keeps the low byte of each number. */
  function Format(t: StagedTicket): LineTicket
    requires Complete(t)
  {
    LineTicket(seq(|t.normals|, i requires 0 <= i < |t.normals| => t.normals[i] % 256), t.bonus.value)
  }

  function FormatAll(tickets: seq<StagedTicket>): (lines: seq<LineTicket>)
    requires forall i :: 0 <= i < |tickets| ==> Complete(tickets[i])
    ensures |lines| == |tickets|
    ensures forall i :: 0 <= i < |tickets| ==> lines[i] == Format(tickets[i])
  {
    seq(|tickets|, i requires 0 <= i < |tickets| => Format(tickets[i]))
  }

  /** The instructions' tickets, one after another. */
  function Flatten(ixs: Instructions): seq<LineTicket> {
    if |ixs| == 0 then [] else Flatten(ixs[..|ixs| - 1]) + ixs[|ixs| - 1]
  }

  function FlattenTxs(txs: seq<Instructions>): Instructions {
    if |txs| == 0 then [] else FlattenTxs(txs[..|txs| - 1]) + txs[|txs| - 1]
  }

  function CeilDiv(n: nat, size: nat): nat
    requires size > 0
  {
    (n + size - 1) / size
  }

  ghost predicate ProperSizes(ixs: Instructions) {
    forall i :: 0 <= i < |ixs| ==> 1 <= |ixs[i]| <= MAX_TICKETS_PER_IX
  }

  ghost predicate OneInstructionEach(txs: seq<Instructions>) {
    forall i :: 0 <= i < |txs| ==> |txs[i]| == 1
  }

  lemma FlattenAppend(ixs: Instructions, ix: seq<LineTicket>)
    ensures Flatten(ixs + [ix]) == Flatten(ixs) + ix
  {
  }

  lemma FlattenTxsAppend(txs: seq<Instructions>, tx: Instructions)
    ensures FlattenTxs(txs + [tx]) == FlattenTxs(txs) + tx
  {
  }

  lemma {:induction false} FlattenSplits(a: Instructions, b: Instructions)
    ensures Flatten(a + b) == Flatten(a) + Flatten(b)
  {
    if |b| == 0 {
      assert a + b == a;
    } else {
      assert (a + b)[..|a + b| - 1] == a + b[..|b| - 1];
      FlattenSplits(a, b[..|b| - 1]);
    }
  }

  /** The inner loop: one transaction's instructions. */
  method PackInstructions(lines: seq<LineTicket>) returns (ixs: Instructions)
    ensures Flatten(ixs) == lines && ProperSizes(ixs)
    ensures |ixs| == CeilDiv(|lines|, MAX_TICKETS_PER_IX)
  {
    ixs := [];
    var j := 0;
    while j < |lines|
      invariant Flatten(ixs) == lines[..Min(j, |lines|)] && ProperSizes(ixs)
      invariant j == |ixs| * MAX_TICKETS_PER_IX && j < |lines| + MAX_TICKETS_PER_IX
      decreases |lines| - j
    {
      var ix := lines[j..Min(j + MAX_TICKETS_PER_IX, |lines|)];
      FlattenAppend(ixs, ix);
      assert lines[..j] + ix == lines[..Min(j + MAX_TICKETS_PER_IX, |lines|)];
      ixs := ixs + [ix];
      j := j + MAX_TICKETS_PER_IX;
    }
    assert lines[..|lines|] == lines;
  }

  /** The transactions hold the lines below `upTo`, an instruction each. */
  ghost predicate Packed(txs: seq<Instructions>, lines: seq<LineTicket>, upTo: nat) {
    && upTo <= |lines| && Flatten(FlattenTxs(txs)) == lines[..upTo]
    && ProperSizes(FlattenTxs(txs)) && OneInstructionEach(txs) && |FlattenTxs(txs)| == |txs|
  }

  lemma PackedOn(txs: seq<Instructions>, ixs: Instructions, lines: seq<LineTicket>, from: nat, to: nat)
    requires Packed(txs, lines, from) && from <= to <= |lines|
    requires Flatten(ixs) == lines[from..to] && ProperSizes(ixs) && |ixs| == 1
    ensures Packed(txs + [ixs], lines, to)
  {
    FlattenTxsAppend(txs, ixs);
    FlattenSplits(FlattenTxs(txs), ixs);
    Joined(lines, from, to);
    SizesAppend(FlattenTxs(txs), ixs);
  }

  lemma Joined(lines: seq<LineTicket>, from: nat, to: nat)
    requires from <= to <= |lines|
    ensures lines[..from] + lines[from..to] == lines[..to]
  {
  }

  lemma SizesAppend(a: Instructions, b: Instructions)
    requires ProperSizes(a) && ProperSizes(b)
    ensures ProperSizes(a + b)
  {
  }

  /** The purchase as transactions of instructions; None stands for the exception on an incomplete ticket. */
  method BuyTickets(tickets: seq<StagedTicket>) returns (bundle: Option<seq<Instructions>>)
    ensures bundle.Some? <==> forall i :: 0 <= i < |tickets| ==> |tickets[i].normals| == 5 && tickets[i].bonus.Some?
    ensures bundle.Some? ==> |tickets| <= 65 * |bundle.value| < |tickets| + 65
    ensures bundle.Some? ==> forall k :: 0 <= k < |bundle.value| ==>
      && |bundle.value[k]| == 1 && |bundle.value[k][0]| == Min(65, |tickets| - 65 * k)
      && forall j :: 0 <= j < |bundle.value[k][0]| ==> Carries(bundle.value[k][0][j], tickets[65 * k + j])
    ensures bundle.Some? ==>
      && Flatten(FlattenTxs(bundle.value)) == FormatAll(tickets)
      && ProperSizes(FlattenTxs(bundle.value)) && OneInstructionEach(bundle.value)
      && |FlattenTxs(bundle.value)| == CeilDiv(|tickets|, MAX_TICKETS_PER_IX)
  {
    if i :| 0 <= i < |tickets| && !Complete(tickets[i]) {
      return None;
    }
    var lines := FormatAll(tickets);
    var txs := PackTransactions(lines);
    forall k | 0 <= k < |txs|
      ensures |txs[k]| == 1 && |txs[k][0]| == Min(65, |tickets| - 65 * k)
      ensures forall j :: 0 <= j < |txs[k][0]| ==> Carries(txs[k][0][j], tickets[65 * k + j])
    {
      SliceCarries(tickets, txs[k][0], k);
    }
    bundle := Some(txs);
  }

  /** The line is the staged ticket: its bonus, and its five balls as far as they fit a byte. */
  ghost predicate Carries(line: LineTicket, t: StagedTicket) {
    && t.bonus == Some(line.bonus) && |line.normals| == |t.normals| == 5
    && forall i :: 0 <= i < 5 ==> (0 <= t.normals[i] < 256 ==> line.normals[i] == t.normals[i]) && line.normals[i] == t.normals[i] % 256
  }

  lemma SliceCarries(tickets: seq<StagedTicket>, ix: seq<LineTicket>, k: nat)
    requires (forall i :: 0 <= i < |tickets| ==> Complete(tickets[i])) && 65 * k < |tickets| && ix == Slice(FormatAll(tickets), k)
    ensures |ix| == Min(65, |tickets| - 65 * k) && forall j :: 0 <= j < |ix| ==> Carries(ix[j], tickets[65 * k + j])
  {
    forall j | 0 <= j < |ix| ensures Carries(ix[j], tickets[65 * k + j]) {
      assert ix[j] == Format(tickets[65 * k + j]);
      assert Complete(tickets[65 * k + j]);
    }
  }

  /** The lines of the `k`th transaction. */
  function Slice(lines: seq<LineTicket>, k: nat): seq<LineTicket>
    requires 65 * k < |lines|
  {
    lines[65 * k..Min(65 * k + 65, |lines|)]
  }

  lemma OnlyInstruction(ixs: Instructions, lines: seq<LineTicket>)
    requires |ixs| == 1 && Flatten(ixs) == lines
    ensures ixs == [lines]
  {
    FlattenOne(ixs[0]);
  }

  lemma FlattenOne(ix: seq<LineTicket>)
    ensures Flatten([ix]) == ix
  {
    FlattenAppend([], ix);
    assert [] + [ix] == [ix];
  }

  lemma OneSlice(front: seq<Instructions>, txs: seq<Instructions>, lines: seq<LineTicket>)
    requires 65 * |front| < |lines| && txs == front + [[Slice(lines, |front|)]]
    requires Packed(front, lines, 65 * |front|)
    ensures Packed(txs, lines, Min(65 * |txs|, |lines|))
  {
    FlattenOne(Slice(lines, |front|));
    PackedOn(front, [Slice(lines, |front|)], lines, 65 * |front|, Min(65 * |txs|, |lines|));
  }

  lemma NothingPacked(lines: seq<LineTicket>)
    ensures Packed([], lines, 0)
  {
  }

  /** Transactions that hold a slice each hold all the lines, one after another. */
  lemma {:induction false} SlicesPack(txs: seq<Instructions>, lines: seq<LineTicket>)
    requires forall k :: 0 <= k < |txs| ==> 65 * k < |lines| && txs[k] == [Slice(lines, k)]
    ensures Packed(txs, lines, Min(65 * |txs|, |lines|))
  {
    if |txs| == 0 {
      NothingPacked(lines);
    } else {
      var front := txs[..|txs| - 1];
      SlicesPack(front, lines);
      assert txs == front + [[Slice(lines, |front|)]];
      OneSlice(front, txs, lines);
    }
  }

  /** The outer loop: the transactions. */
  method PackTransactions(lines: seq<LineTicket>) returns (txs: seq<Instructions>)
    ensures Packed(txs, lines, |lines|) && |txs| == CeilDiv(|lines|, MAX_TICKETS_PER_IX)
    ensures Flatten(FlattenTxs(txs)) == lines
    ensures |lines| <= 65 * |txs| < |lines| + 65
    ensures forall k :: 0 <= k < |txs| ==> 65 * k < |lines| && txs[k] == [Slice(lines, k)]
  {
    txs := [];
    var i := 0;
    while i < |lines|
      invariant i == |txs| * MAX_TICKETS_PER_IX && i < |lines| + MAX_TICKETS_PER_IX
      invariant forall k :: 0 <= k < |txs| ==> 65 * k < |lines| && txs[k] == [Slice(lines, k)]
      decreases |lines| - i
    {
      var ixs := PackInstructions(lines[i..Min(i + MAX_TICKETS_PER_IX, |lines|)]);
      OnlyInstruction(ixs, Slice(lines, |txs|));
      txs := txs + [ixs];
      i := i + MAX_TICKETS_PER_IX;
    }
    SlicesPack(txs, lines);
    assert lines[..|lines|] == lines;
  }

  // ---------------------------------------------------------------------------------
  // The quote
  // ---------------------------------------------------------------------------------

  /** The closed form, for any pair of prices. */
  function Quote(base: nat, perTicket: nat, count: int): nat {
    if count <= 0 then 0 else base * CeilDiv(count, MAX_TICKETS_PER_IX) + perTicket * count
  }

  function CalculateRelayFee(count: int): nat {
    Quote(RELAY_FEE_BASE_USDC, RELAY_FEE_PER_TICKET_USDC, count)
  }

  /** What the program charges for an instruction, beside the tickets themselves. */
  function ChargeOf(pot: Pot): seq<LineTicket> -> int {
    (ix: seq<LineTicket>) => RelayFee(pot, |ix|)
  }

  function PriceOf(pot: Pot): seq<LineTicket> -> int {
    (ix: seq<LineTicket>) => TotalAmount(pot, |ix|)
  }

  lemma {:induction false} ChargesAddUp(pot: Pot, ixs: Instructions)
    ensures SumBy(ChargeOf(pot), ixs) == pot.relayFeeBase * |ixs| + pot.relayFeePerTicket * |Flatten(ixs)|
    ensures SumBy(PriceOf(pot), ixs) == pot.ticketPrice * |Flatten(ixs)|
  {
    if |ixs| > 0 {
      var front, last := ixs[..|ixs| - 1], ixs[|ixs| - 1];
      ChargesAddUp(pot, front);
      Distribute(pot.relayFeePerTicket, |Flatten(front)|, |last|);
      Distribute(pot.ticketPrice, |Flatten(front)|, |last|);
      Distribute(pot.relayFeeBase, |front|, 1);
    }
  }

  lemma Distribute(a: int, x: int, y: int)
    ensures a * (x + y) == a * x + a * y
  {
  }

  /** The sum of the fees charged is the closed-form quote at the program's prices, and the subtotals add up. */
  lemma QuoteEqualsCharge(pot: Pot, count: nat, ixs: Instructions)
    requires |Flatten(ixs)| == count && |ixs| == CeilDiv(count, MAX_TICKETS_PER_IX)
    ensures SumBy((ix: seq<LineTicket>) => pot.relayFeePerTicket * |ix| + pot.relayFeeBase, ixs)
            == Quote(pot.relayFeeBase, pot.relayFeePerTicket, count)
    ensures SumBy((ix: seq<LineTicket>) => |ix| * pot.ticketPrice, ixs) == count * pot.ticketPrice
  {
    SumAgrees((ix: seq<LineTicket>) => pot.relayFeePerTicket * |ix| + pot.relayFeeBase, ixs, ChargeOf(pot), ixs);
    SumAgrees((ix: seq<LineTicket>) => |ix| * pot.ticketPrice, ixs, PriceOf(pot), ixs);
    ChargesAddUp(pot, ixs);
    if count == 0 {
      assert |ixs| == 0;
    }
  }

  /** The quote shown is the fee charged, for a purchase of any size, exactly when the program's prices are the compiled-in ones. */
  lemma QuoteIsRightIff(pot: Pot)
    ensures (forall count: nat :: Quote(pot.relayFeeBase, pot.relayFeePerTicket, count) == CalculateRelayFee(count))
            <==> pot.relayFeeBase == RELAY_FEE_BASE_USDC && pot.relayFeePerTicket == RELAY_FEE_PER_TICKET_USDC
  {
    if forall count: nat :: Quote(pot.relayFeeBase, pot.relayFeePerTicket, count) == CalculateRelayFee(count) {
      assert Quote(pot.relayFeeBase, pot.relayFeePerTicket, 1) == CalculateRelayFee(1);
      assert CeilDiv(1, MAX_TICKETS_PER_IX) == 1;
    }
  }

  /** Every instruction passes the program's count checks when its ceiling admits 65 tickets. */
  lemma InstructionsFitProgram(pot: Pot, ixs: Instructions, i: nat)
    requires ProperSizes(ixs) && i < |ixs| && pot.maxTicketsPerPurchase >= MAX_TICKETS_PER_IX
    requires forall k :: 0 <= k < |ixs[i]| ==> ProperTicket(ixs[i][k], pot.normalMax, pot.bonusMax)
    requires |ixs[i]| * pot.ticketPrice <= U64_MAX && RelayFee(pot, |ixs[i]|) <= U64_MAX
    ensures PurchaseFault(pot, ixs[i]) == None
  {
    AcceptedPurchase(pot, ixs[i]);
  }
}
