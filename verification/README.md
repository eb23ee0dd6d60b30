# A verified model of the LordsPot relayer

LordsPot sells Megapot lottery tickets on Solana, buys them on Base, and pays winners back through
co-signed vouchers. This project models the protocols that move the money and proves whole-run
properties of them: labelled steps over the database rows and two abstract chains, taken in any
interleaving and interrupted anywhere, next to the methods that take those steps on live tables.

Paths and line numbers below refer to the repository's own files. Verify with
`dafny verify dfyconfig.toml`.

## How it is laid out

- **Claim vouchers** - `LandedClaims` (the backwards walk over the admin key's history),
  `PayoutConfirmer` (one tick), `ClaimsRoute` (one request), and the protocol they form:
  `PayoutProtocol`; what every run keeps, `PayoutInvariants`, `PayoutEveryRun` and `PayoutLifecycle`;
  the matching `PayoutMatching`, the exchange argument `PayoutExchange` and `PayoutResolve`, and the
  theorems `PayoutSafety` and `PayoutSerial`. `PayoutLimits`, `PayoutSerialLimits` and
  `PayoutCoverage`, built from the steps in `PayoutRuns`, show that the hypotheses are needed;
  `PayoutPaths` ties the methods to the protocol.
- **Relaying to Base** - `ChunkOrderId`, `RelayRows` (rows and loops), `RelayProtocol`,
  `RelayInvariant`, `RelaySafety`, and `RelayLimits` for the hypothesis it needs.
- **Settlement and harvest** - `PrizeTiers`, `Settlement`, `SettlementRuns`, `Bisect`, `Harvest`,
  `HarvestSafety`, `HarvestWorker`.
- **The Solana program** - `LordsPot`, `LordsPotProgram`, `LordsPotRuns`, `StateLayout`.
- **Around them** - `NonceLane`, `Purchase`; `Wrappers` and `Sums` are shared helpers.

## The argument about vouchers

The program has no replay guard and the server cannot know a voucher's signature, so payments are
attributed by wallet, amount and time. The central invariant is a matching: at every moment the
outstanding vouchers (landed and not attributed, or still able to land) are matched one to one with
pending claims of the same wallet and amount that may still be confirmed with them. Attributing a
payment to another voucher's claim exchanges partners; the chosen claim is the older one and the
chosen payment the oldest, so whoever is displaced still fits. A claim that expires has no partner.

Nothing makes concurrent requests of one wallet hand their vouchers out in the order their rows were
created, so an older claim may become a voucher only after the tick read its rows, and its payment go
to a younger one. A voucher handed out since the tick read its rows is still matched with its own claim as
long as no sweep has seen its payment. Any other voucher's partner was created no earlier than some
voucher that this one outlives by a bounded number of blocks, which bounds how long it can outlive
the partner.

A deployment's promises about time are `Timing`: how long a request takes, how long a tick takes, how
many blocks earlier the later of two vouchers of one wallet and amount may expire (`inversion` for
the one created later, `disorder` for the one handed out later), how many blocks pass between the tip
a sweep saw and the height read after it (`lag`), and that no sweep sees less than the one before
(`steadyView`). `Fits` says that the first two fit the two-minute grace, that `inversion`, `disorder`
and `lag` together fit the 150-block buffer (requests that take no time are handed out in creation
order, and `disorder` drops out), and that the view is steady. No payment is stranded under `Fits`,
and `PayoutLimits.TimingIsExact` shows that whenever `Fits` fails, in whichever part, some run
strands a payment.

Most of what a user relies on needs far less:

- Nothing at all: in every run a ticket's status only advances, a voucher is for exactly its bound
  tickets, a paid ticket has one claim and one landed payment, for good, and a voucher past its last
  block never lands (`PayoutLifecycle`, `PayoutEveryRun`).
- `lag` within the buffer, and nothing else: a voucher that a complete sweep lists no match for, past
  its last block by more than the buffer, is itself dead. A broken order, a stale view or a short
  sweep only confuses whose payment is whose. `PayoutSerialLimits.ExpiryIsSoundIff` shows that this
  much is needed.
- With one live voucher per wallet there is nothing to confuse: value is conserved in every run if
  and only if request and tick fit the grace and `lag` fits the buffer
  (`PayoutSerialLimits.ConservationIsExact`). Stale views, short sweeps and any order of expiry do
  no harm.

## What is assumed

- A voucher transaction lands at most once, and only at a height up to its last valid block height.
- A transaction that failed emits no claim event.
- Block times do not run backwards in slot order, one slot has one time, and a landing's time is no
  more than 60 seconds behind the database clock.
- Where vouchers of one wallet and amount overlap, a later sweep never sees less of the chain than
  an earlier one (`PayoutLimits.StaleViewStrands` shows why).
- For the voucher protocol, every listed signature's body is returned. What happens otherwise is
  stated exactly by `LandedClaims.MissedBodiesMatter`.
- Overlapping vouchers of one wallet and amount expire in the order their rows were created and in the order
  they were handed out, each up to a stated number of blocks; the two orders need not agree
  (`PayoutLimits.DisorderStrands` and `PayoutLimits.LateHeightStrands` show why the bounds matter).
- Only the confirmer records signatures, so reading the recorded ones and the height is one step.
- There is one payout confirmer, one harvest runner and one live relay job per order.
- An order's tickets are always listed in one fixed order (`RelayLimits` shows why), and the chunk
  size, 15 by default, does not change between two attempts of one order: another size cuts other
  chunks, whose ids the vault does not know.
- Ticket ids are non-empty, contain no comma and are unique; keccak is injective; the vault refuses
  an order id it has fulfilled; a receipt lists one id per ticket.
- A stored drawing does not change while it is graded. No order becomes SUCCESS for an epoch once
  the epoch's last page has been read; the weaker promise, not after the settlement watermark, is
  not enough (`SettlementRuns.LateSuccessIsMissed`).
- The relayer's wallet broadcasts only through its nonce lane. The chain's pending count is the first
  nonce without a transaction, so that what waits behind a gap counts as soon as the gap is filled; a
  node that is given a nonce again refuses it or replaces what it had.
- Nobody can sign with the vault's derived address, and token balances stay within 64 bits.

## Where code and comments part ways

- A tick judges rows as it read them, but reads the clock again for the unsigned-grace rule. The
  comment says nothing was ever handed out; that is true only while issuing a voucher and running a
  tick together fit into the grace (`PayoutLimits.SlowIssuanceStrands`).
- `resolveInFlightBatches` says of a batch without a hash that nothing was ever sent. A crash after
  the broadcast leaves the same row; the protocol allows it, and the vault's guard covers it.
- A sweep reports itself complete even when the RPC could not return a body.
- `tierId: null` in a stored prize table is accepted as tier 0, and so are `false`, the empty string
  and the empty array (`PrizeTiers.NullIsTierZero`).
- A reset of the nonce lane during a broadcast is undone when that broadcast succeeds
  (`NonceLane.ResetMidBroadcast`). A reset after a drop heals the lane only if nothing waits behind
  the gap: filling it makes the chain's count jump past the counter, without another drop
  (`NonceLane.PromotedBehindTheCounter`, `NonceLane.StaysSyncedIff`).
- A relay fee directed to the vault's own address, or a withdrawal to the vault itself, makes the
  balance exceed the ledger unless the account framework refuses duplicate accounts
  (`LordsPotRuns.LedgerIsExactIff`).
- A harvest batch whose tickets were never bound may be confirmed with its amount and no tickets
  (`HarvestSafety.UnboundBatchIsBooked`).

## Model

| member | source | states |
|---|---|---|
| LandedClaims.SolanaService.FindLandedClaims | backend/src/services/solanaService.ts:363-469 | for any page layout, cache contents and new signatures arriving during the walk: complete exactly when fewer entries than 25 pages of 200 are in range, and the list is the claim events of the examined window of the first page's history, minus bodies the RPC withheld |
| LandedClaims.ClaimDecodeCache.Remember | backend/src/services/solanaService.ts:414-422 | the cache keeps what it knew, drops only its oldest entry, and never exceeds 5000 |
| LandedClaims.SolanaService.DecodeCached | backend/src/services/solanaService.ts:388-424 | a cached answer equals an uncached one, and a missing body is never remembered |
| LandedClaims.WindowAt | backend/src/services/solanaService.ts:438-448 | the window is exactly the newest entries up to the first one known to be dated before the bound |
| LandedClaims.DecodeSound | backend/src/services/solanaService.ts:450-463 | every listed claim is an event of an examined transaction |
| LandedClaims.DecodeComplete | backend/src/services/solanaService.ts:450-463 | every event of an examined transaction is listed |
| LandedClaims.DecodeExactlyOnce | backend/src/services/solanaService.ts:450-463 | a transaction's events are listed exactly as often as it emitted them |
| LandedClaims.CompleteWalkMissesNothing | backend/src/services/solanaService.ts:363-378 | a complete walk contains, exactly once, every claim of a transaction not older than the bound |
| LandedClaims.MissedBodiesMatter | backend/src/services/solanaService.ts:392-424 | with bodies withheld, the list of a complete walk is right if and only if no withheld transaction carried a claim |
| PayoutConfirmer.SortIsOrderedPermutation | backend/src/workers/payoutConfirmer.ts:137-143 | a wallet's landed claims end up in slot order, none lost or added |
| PayoutConfirmer.HitIsOldest | backend/src/workers/payoutConfirmer.ts:161-179 | a voucher's hit is an unattributed match in the oldest slot; there is none exactly when nothing unattributed matches |
| PayoutConfirmer.SweepBoundCovers | backend/src/workers/payoutConfirmer.ts:97-101 | the oldest pending row's bound covers every match of every later row |
| PayoutConfirmer.GroupByWallet | backend/src/workers/payoutConfirmer.ts:137-143 | the map holds, for every wallet that landed anything, all its claims in slot order |
| PayoutConfirmer.ResolveRow | backend/src/workers/payoutConfirmer.ts:158-215 | one row's verdict and writes, lost writes included |
| PayoutConfirmer.JudgeMeans | backend/src/workers/payoutConfirmer.ts:158-215 | a row is confirmed or failed exactly when some landed claim of its wallet and amount is not spoken for and not dated over a minute before it, by the oldest such claim's outcome; without one it is released as unsigned exactly past two minutes, and as expired exactly when the sweep was complete and the height more than 150 past its last block |
| PayoutConfirmer.CarryMeans | backend/src/workers/payoutConfirmer.ts:53-79 | confirming pays out exactly the row's claimed tickets; failing or expiring gives exactly its tickets back; no other row changes |
| PayoutConfirmer.RunTick | backend/src/workers/payoutConfirmer.ts:82-219 | a tick leaves the rows as judging them in order does; a failed sweep changes nothing |
| ClaimsRoute.IssueVoucher | backend/src/routes/claims.ts:102-237 | each answer exactly when: a row that is PENDING and has a last valid block height is served again, with or without a signature; a refusal leaves the tables untouched; a voucher is issued exactly for the sum of the wallet's unbound CLAIMED_ON_BASE winnings of revealed epochs, when positive and within the ceiling, and binds exactly those tickets; a wallet with at most one live row before has at most one after |
| ClaimsRoute.BoundIsClaimable | backend/src/routes/claims.ts:145-159 | the tickets bound to a fresh row are worth exactly what the wallet could claim |
| ClaimsRoute.DeleteUndoesCreate | backend/src/routes/claims.ts:161-203 | releasing and deleting restores the database as it was |
| PayoutSafety.StepKeeps | backend/src/workers/payoutConfirmer.ts:82-219 | every step of every participant keeps each outstanding voucher matched with a claim of its own |
| PayoutSafety.NoPaymentStranded | backend/src/workers/payoutConfirmer.ts:158-211 | when no claim of a wallet and amount is live, its landed payments and confirmed claims correspond one to one through txSignature, with any number of concurrent vouchers, handed out in any order |
| PayoutSafety.NeverOverpaid | backend/src/workers/payoutConfirmer.ts:53-79 | what left the vault for a wallet never exceeds what its tickets won, and equals what its paid-out tickets won once none of its vouchers is live |
| PayoutEveryRun.TermsFixed | backend/src/routes/claims.ts:209-217 | a handed-out voucher's wallet, amount, last block and creation never change, in any step |
| PayoutExchange.ExchangeKeeps | backend/src/workers/payoutConfirmer.ts:161-192 | attributing a payment to the oldest fitting claim only exchanges partners |
| PayoutExchange.PartnerIsLater | backend/src/workers/payoutConfirmer.ts:88-91 | the claim that gives way was created no earlier than the one that takes the payment, or was handed out after the tick read its rows |
| PayoutExchange.ExpiringHasNoPartner | backend/src/workers/payoutConfirmer.ts:204-211 | a claim that expires is nobody's partner: no payment is, or will be, left for it |
| PayoutExchange.UnsignedNeverHandedOut | backend/src/workers/payoutConfirmer.ts:194-202 | a row released as never handed out was indeed never handed out, if issuing and ticking fit the grace |
| PayoutResolve.ResolveKeeps | backend/src/workers/payoutConfirmer.ts:158-215 | judging one row, whatever the verdict and whether or not its write succeeds, keeps the whole invariant |
| PayoutEveryRun.SweepLists | backend/src/services/solanaService.ts:363-469 | what a sweep of the protocol's chain returns is sound always and complete when it says so |
| PayoutInvariants.ConfirmMoney | backend/src/workers/payoutConfirmer.ts:53-65 | confirming moves exactly the payment's amount from unattributed to paid out |
| PayoutInvariants.CreateOk | backend/src/routes/claims.ts:141-143 | a new row disturbs no row, landing or balance |
| PayoutInvariants.HandOutOk | backend/src/routes/claims.ts:206-217 | handing out stamps exactly the sum of the bound tickets |
| PayoutLimits.TimingIsExact | backend/src/workers/payoutConfirmer.ts:44-51 | no run strands a payment if and only if the promises fit: request and tick the two minutes; disorder of creation and of hand-out, with the height's lag, the 150 blocks; and sweeps never see less than before |
| PayoutLimits.SlowIssuanceStrands | backend/src/workers/payoutConfirmer.ts:194-202 | past the grace, a voucher handed out after the tick read its row is paid and then released |
| PayoutLimits.LateHeightStrands | backend/src/workers/payoutConfirmer.ts:204-211 | past the buffer, a voucher lands after the sweep while its only partner expires |
| PayoutLimits.DisorderStrands | backend/src/routes/claims.ts:122-217 | past the buffer, concurrent requests handed out in another order than they were created in strand a payment, although every voucher obeys both stated bounds |
| PayoutLimits.StaleViewStrands | backend/src/workers/payoutConfirmer.ts:101-127 | whatever else is promised, a sweep that sees less than the one before lets a claim expire whose confirmation was lost |
| PayoutExchange.NearOutlives | backend/src/workers/payoutConfirmer.ts:44-51 | a voucher outlives the claim that stands in for it by at most the slack, whatever exchanges came before |
| PayoutCoverage.UncoveredSweepStrands | backend/src/workers/payoutConfirmer.ts:117-127 | whatever the timing, confirming from a sweep that was cut short can strand a payment when two vouchers share wallet and amount |
| PayoutSerial.SerialRunIsCovered | backend/src/routes/claims.ts:109-134 | with one live voucher per wallet, sweeps that were cut short cannot mislead |
| PayoutSerial.ConfirmedByOwnPayment | backend/src/workers/payoutConfirmer.ts:181-192 | with one live voucher per wallet, a confirmed claim carries its own payment's signature |
| PayoutSerial.ExpiredNeverLands | backend/src/workers/payoutConfirmer.ts:204-211 | with one live voucher per wallet, an expired voucher has not landed and never will, in any later state |
| PayoutSerial.ValueConserved | backend/src/routes/claims.ts:122-237 | with one live voucher per wallet, stale and incomplete sweeps and crashes included, when request and tick fit the grace and the height's lag the buffer: landed payments equal paid-out winnings plus the landed payment, of which there is at most one, of the claim still pending |
| PayoutLifecycle.TicketsAdvance | backend/src/workers/payoutConfirmer.ts:53-79 | over any stretch of any run a ticket's status only advances, lost stays lost, and a graded ticket is never repriced |
| PayoutLifecycle.VoucherWorth | backend/src/routes/claims.ts:155-217 | in every run a handed-out pending or confirmed claim is for exactly the sum of its bound tickets |
| PayoutLifecycle.PaidTicketIsPaidBy | backend/src/workers/payoutConfirmer.ts:53-65 | in every run a paid-out ticket belongs to a confirmed claim whose landed payment is worth exactly the claim's tickets and is carried by no other claim |
| PayoutLifecycle.PaidForGood | backend/src/workers/payoutConfirmer.ts:53-79 | in every run a paid-out ticket never changes again, so it is never paid twice |
| PayoutLifecycle.UnmatchedIsDead | backend/src/workers/payoutConfirmer.ts:204-211 | in every run with the height read at most 150 blocks after the sweep: a voucher that a complete sweep did not list, more than 150 blocks past its last, is on the chain neither now nor in any later state of the run |
| PayoutEveryRun.GoneForGood | backend/src/workers/payoutConfirmer.ts:36-38 | a voucher past its last block that has not landed stays so for the rest of any run |
| PayoutEveryRun.SoundStep | backend/src/workers/payoutConfirmer.ts:53-219 | every step, whatever it takes and however late, keeps rows, chain and money in agreement, and what a tick takes for spoken for is exactly what is |
| PayoutSerialLimits.ExpiryIsSoundIff | backend/src/workers/payoutConfirmer.ts:204-211 | no run takes a landed voucher for dead if and only if the height is read at most 150 blocks after the sweep |
| PayoutSerialLimits.ConservationIsExact | backend/src/routes/claims.ts:109-134 | with one live voucher per wallet every run conserves value if and only if request and tick fit the grace and the height's lag the buffer |
| PayoutPaths.TickIsAPath | backend/src/workers/payoutConfirmer.ts:156-219 | the tick's loop, undisturbed, is a path of the protocol with the same rows at its end |
| PayoutPaths.IssueIsAPath | backend/src/routes/claims.ts:143-217 | a request that succeeds, undisturbed, is a path of the protocol with the same rows at its end |
| PayoutPaths.RefusalIsAPath | backend/src/routes/claims.ts:161-203 | a request that is refused, undisturbed, is a path that leaves every row as it was |
| ChunkOrderId.SameIdIffSameTickets | backend/src/workers/baseRelayWorker.ts:44-59 | two chunks get the same vault order id if and only if they hold the same tickets, in whatever order |
| ChunkOrderId.CommaInIdCollides | backend/src/workers/baseRelayWorker.ts:56-59 | the comma is needed: an id that contains one collides with another chunk |
| RelayRows.RelayTables.FinalizeChunkSuccess | backend/src/workers/baseRelayWorker.ts:74-86 | ids go to tickets by place in the chunk, the batch is confirmed, nothing else changes |
| RelayRows.RelayTables.ReleaseChunk | backend/src/workers/baseRelayWorker.ts:89-94 | exactly the chunk's tickets are freed and the batch fails |
| RelayRows.SubmitLeaves | backend/src/workers/baseRelayWorker.ts:167-195 | a chunk ends done, each id on the ticket at its place and the batch confirmed; freed, the batch failed and no ticket bound; or, when the broadcast throws, bound to a batch without a hash; no other ticket or batch changes |
| RelayRows.RelayTables.RelayPending | backend/src/workers/baseRelayWorker.ts:297-306 | the loop takes the pending tickets 15 at a time, and stops before the last one only after a chunk whose broadcast was refused, or that got no receipt or an unrecovered revert |
| RelayRows.LoopStopsAtFailure | backend/src/workers/baseRelayWorker.ts:297-306 | wherever the loop starts: every chunk before its end was bought, by its own transaction or an earlier one, and it ends early only at the first chunk that was not |
| RelayRows.RelayTables.ResolveInFlightBatches | backend/src/workers/baseRelayWorker.ts:129-156 | for every stuck batch: with a hash that landed, its ids go to its tickets by place and it is confirmed; with a revert recovered from an earlier fulfillment, that one's ids and hash; otherwise its tickets are unbound and it fails; no other ticket or batch changes |
| RelayRows.LoopFillsInOrder | backend/src/workers/baseRelayWorker.ts:297-306 | exactly the listed tickets before the point where the loop stops have gained an NFT, and no other ticket is touched |
| RelaySafety.StepKeeps | backend/src/workers/baseRelayWorker.ts:129-330 | crashes, timeouts, late landings, lost broadcasts and retries keep the unfinished tickets a chunk-aligned suffix |
| RelaySafety.NeverBoughtTwice | base_smart_contracts/src/LordsPotBaseVault.sol:118-139 | in every run each ticket of the order is bought at most once |
| RelaySafety.PendingIsChunkAligned | backend/src/workers/baseRelayWorker.ts:287-300 | after in-flight resolution the tickets to buy are exactly those without an NFT, a suffix that starts at a multiple of 15 |
| RelaySafety.SharedTicketSameId | backend/src/workers/baseRelayWorker.ts:50-59 | a retry re-derives the old chunk: transactions that share a ticket are for the same tickets under the same id |
| RelaySafety.EarlierIsSameChunk | backend/src/workers/baseRelayWorker.ts:105-122 | a fulfillment recovered after a revert is one of exactly the reverted chunk |
| RelaySafety.SettleKeeps | backend/src/workers/baseRelayWorker.ts:145-156 | however the wait for a chunk ends, the chunk is either done or free again |
| RelaySafety.RecordedNftIsTheTickets | backend/src/workers/baseRelayWorker.ts:74-86 | the NFT recorded for a ticket was minted for that very ticket |
| RelaySafety.SuccessIsComplete | backend/src/workers/baseRelayWorker.ts:309-325 | a SUCCESS order lists one distinct NFT per ticket, each bought for its ticket, with no ticket on an unresolved batch |
| RelayLimits.OtherListingOrderBuysTwice | backend/src/workers/baseRelayWorker.ts:291-303 | without a fixed listing order a run exists in which a ticket is bought twice |
| Bisect.BisectPartitions | backend/src/workers/harvestWorker.ts:117-145 | for any rehearsal outcomes, every ticket is on exactly one side |
| Bisect.BadFailAlone | backend/src/workers/harvestWorker.ts:131-138 | a ticket is only blamed when it failed on its own |
| Bisect.BisectIsolates | backend/src/workers/harvestWorker.ts:117-145 | with an all-or-nothing rehearsal, good is the claimable tickets and bad the others, each in original order |
| Bisect.BisectIsFrugal | backend/src/workers/harvestWorker.ts:117-145 | at most 1 + 2 * bad * ceil(log2 n) rehearsals, one when all are claimable, none for no tickets |
| Bisect.CeilLog2IsLeast | backend/src/workers/harvestWorker.ts:140-143 | the logarithm of the bound is the least power of two that covers n |
| HarvestWorker.HarvestTables.ResolveInFlightBatch | backend/src/workers/harvestWorker.ts:192-289 | what each fate writes: a success claims exactly the winners bound to the batch and confirms it; a dropped transaction unbinds its tickets as they were and fails it; a resubmission sets only the hash; a pending one changes nothing; a ticket becomes CLAIMED_ON_BASE only under a success; and the whole is a path of the protocol |
| HarvestWorker.HarvestTables.HarvestEpochStep | backend/src/workers/harvestWorker.ts:291-411 | an epoch's turn is a path of the protocol: the first 50 tickets outside the quarantine are rehearsed, the failed ones join the quarantine, the others are bound to one new batch worth what they won; the watermark is set exactly when nothing is in flight, harvestable or owed |
| HarvestSafety.ChunkIsFirst | backend/src/workers/harvestWorker.ts:83-96 | the tickets rehearsed are the first 50 listed ones outside the quarantine, all of them when fewer |
| HarvestSafety.StepKeeps | backend/src/workers/harvestWorker.ts:148-411 | every step keeps bound winners on an in-flight batch of their epoch, of which there is at most one |
| HarvestSafety.WatermarkIsSafe | backend/src/workers/harvestWorker.ts:305-344 | once ticketsHarvestedAt is set, every SUCCESS ticket of the epoch is LOST, CLAIMED_ON_BASE or PAID_OUT, whatever was quarantined |
| HarvestSafety.BoundWaitsForOwnBatch | backend/src/workers/harvestWorker.ts:192-199 | a winner on a batch and not yet claimed waits for the one SUBMITTED batch of its own epoch |
| HarvestSafety.ClaimedThroughBatch | backend/src/workers/harvestWorker.ts:148-174 | a claimed ticket got there through a confirmed batch of its epoch whose amount is exactly its tickets' sum |
| HarvestSafety.UnboundBatchIsBooked | backend/src/workers/harvestWorker.ts:202-262 | a run in which a batch whose tickets were never bound is confirmed with an amount no ticket accounts for |
| HarvestSafety.GoodIsListed | backend/src/workers/harvestWorker.ts:83-96 | what is harvested was owed, has an NFT, and is taken once |
| PrizeTiers.NetIsNineTenths | backend/src/services/megapotService.ts:59-71 | the net is nine tenths rounded up, zero only for zero |
| PrizeTiers.NetIsNotFloor | backend/src/services/megapotService.ts:59-67 | it equals nine tenths rounded down exactly for multiples of ten |
| PrizeTiers.RoundingIsBounded | backend/src/services/megapotService.ts:68-71 | n winners together cost the net of the total plus at most 9n/10 units, exactly the whole tenths of what the single prizes leave over |
| PrizeTiers.TextRoundTrip | backend/src/services/megapotService.ts:379-383 | an amount written out in decimal reads back as itself |
| PrizeTiers.ProcessPrizeTiers | backend/src/services/megapotService.ts:348-387 | the total is raw amounts times winners over every tier but 0; the jackpot is the last tier 11's net, zero without one; the formatted tiers are the others in order, each with its net and winners |
| PrizeTiers.ParsePrizeTiers | backend/src/workers/settlementWorker.ts:99-128 | accepted exactly when non-empty and every entry is well formed; the tiers read are exactly the ids that occur, each with the amount of its last entry |
| PrizeTiers.IdsReadBack | backend/src/workers/settlementWorker.ts:106-113 | an id is read as its number from a number, from decimal text and from a one-number array; true reads as 1, and neither true in an array nor two numbers nor a missing id is one |
| PrizeTiers.NullIsTierZero | backend/src/workers/settlementWorker.ts:106-113 | an entry whose tier id is null, false, empty text or an empty array passes the validation and sets what tier 0 pays |
| PrizeTiers.StoredIsAcceptedIffUsable | backend/src/workers/settlementWorker.ts:99-116 | the stored table is accepted if and only if it has a non-zero tier and no such tier is negative |
| PrizeTiers.ReadBack | backend/src/workers/settlementWorker.ts:118-128 | the table read back holds every non-zero tier's net prize and nothing else |
| Settlement.CalcTierId | backend/src/workers/settlementWorker.ts:82-93 | twice the number of positions whose ball is winning, which for different balls is the number of winning balls on the ticket, plus one for the bonus |
| Settlement.TierRange | backend/src/workers/settlementWorker.ts:82-93 | five balls give a tier from 0 to 11; half of it counts the positions with a winning ball and its parity tells the bonus |
| Settlement.MatchesCounted | backend/src/workers/settlementWorker.ts:82-93 | the match count is the number of positions with a winning ball, and the size of the overlap when the balls differ |
| Settlement.GradeMeans | backend/src/workers/settlementWorker.ts:168-224 | a grade marks a ticket LOST exactly when its tier, counted on its balls, pays nothing, and otherwise as won with that prize, free for tiers 1 and 4 |
| Settlement.GroupPage | backend/src/workers/settlementWorker.ts:168-199 | losers and groups of winners together are the page, each ticket in the group of its own grade |
| Settlement.SettlementTables.GradePage | backend/src/workers/settlementWorker.ts:168-224 | grouped updates come to grading each pending ticket of the page on its own, and leave every other ticket as it was |
| Settlement.PageShrinks | backend/src/workers/settlementWorker.ts:151-166 | a page takes exactly its tickets off the pending set |
| Settlement.SettlementTables.SettleEpoch | backend/src/workers/settlementWorker.ts:131-254 | whatever pages the database serves: every gradable ticket ends untouched or with its own grade, the watermark is set exactly on success, and then nothing is pending; it gives up only past a million tickets |
| SettlementRuns.StepKeeps | backend/src/workers/settlementWorker.ts:131-254 | any number of interleaved runners, crashes and moving tickets keep every grade right |
| SettlementRuns.EveryTicketGradedAlone | backend/src/workers/settlementWorker.ts:168-224 | in any interleaving a ticket past DRAW_PENDING carries exactly the grade it gets on its own |
| SettlementRuns.SettledMeansGraded | backend/src/workers/settlementWorker.ts:242-247 | once an epoch has its watermark every SUCCESS ticket of it is graded |
| SettlementRuns.LateSuccessIsMissed | backend/src/workers/settlementWorker.ts:155-166 | an order that succeeds between the last page and the watermark is never graded |
| SettlementRuns.PrizeReachesTicket | backend/src/services/megapotService.ts:348-387 | from raw table to ticket, with the tier counted on the ticket's balls: LOST exactly when the tier pays nothing, otherwise raw minus a tenth rounded down, free ticket for tiers 1 and 4 |
| LordsPot.AcceptedPurchase | solana_smart_contracts/programs/solana_smart_contracts/src/lib.rs:233-281 | a purchase passes its checks if and only if there are 1 to the ceiling of proper tickets and both sums fit 64 bits |
| LordsPot.FaultlessIsProper | solana_smart_contracts/programs/solana_smart_contracts/src/lib.rs:251-266 | a ticket passes exactly when it has five different balls in ascending order, all within the limits |
| LordsPotProgram.Program.Initialize | solana_smart_contracts/programs/solana_smart_contracts/src/lib.rs:16-58 | goes through exactly when signed, not yet initialized and configured within bounds with a real treasury; stores exactly the limits, price, settings and roles given, in an open, sound state with an empty vault, moves no money; an error changes nothing |
| LordsPotProgram.Program.SetAdmin | solana_smart_contracts/programs/solana_smart_contracts/src/lib.rs:169-178 | goes through exactly when the holder and a different new key both signed; changes the admin and nothing else |
| LordsPotProgram.Program.SetTreasuryAuthority | solana_smart_contracts/programs/solana_smart_contracts/src/lib.rs:180-204 | goes through exactly when a new real key signed with the holder, or with the admin while there is none; in a sound state only the holder can |
| LordsPotProgram.Program.SetRelayConfig | solana_smart_contracts/programs/solana_smart_contracts/src/lib.rs:208-231 | goes through exactly for the admin with bounded settings; the five settings are the ones given, rules, roles and money stay |
| LordsPotProgram.Program.BuyTicket | solana_smart_contracts/programs/solana_smart_contracts/src/lib.rs:233-312 | goes through exactly when the buyer signed, the protocol is open, the tickets are sellable and price and fee are covered; every account changes by exactly its shares of price and fee, one event is recorded, and any failure takes everything back |
| LordsPotProgram.Program.PauseProtocol | solana_smart_contracts/programs/solana_smart_contracts/src/lib.rs:314-319 | goes through exactly for the admin of an open protocol; afterwards it is paused |
| LordsPotProgram.Program.ResumeProtocol | solana_smart_contracts/programs/solana_smart_contracts/src/lib.rs:321-329 | goes through exactly for the admin of a paused protocol and a later epoch; afterwards it is open under that epoch, otherwise nothing changed |
| LordsPotProgram.Program.UpdateEpoch | solana_smart_contracts/programs/solana_smart_contracts/src/lib.rs:331-344 | goes through exactly for the admin of a paused protocol and other limits; while open the limits cannot change |
| LordsPotProgram.Program.ClaimWinnings | solana_smart_contracts/programs/solana_smart_contracts/src/lib.rs:346-380 | goes through exactly when user and admin signed, the protocol is open and the amount is positive, within the cap and covered; moves exactly the amount from vault to user and records it |
| LordsPotProgram.Program.WithdrawVaultFunds | solana_smart_contracts/programs/solana_smart_contracts/src/lib.rs:392-425 | goes through exactly when the treasury signed and a positive covered amount goes to an existing account of the mint, paused or not; moves exactly that amount and records it |
| LordsPotRuns.TreasuryNeverDefault | solana_smart_contracts/programs/solana_smart_contracts/src/lib.rs:180-204 | in every run from initialize the treasury is a real key |
| LordsPotRuns.TreasuryMovesWithConsent | solana_smart_contracts/programs/solana_smart_contracts/src/lib.rs:180-204 | the treasury changes only in a step its holder and the new key signed |
| LordsPotRuns.AdminMovesWithConsent | solana_smart_contracts/programs/solana_smart_contracts/src/lib.rs:169-231 | without the admin's signature nothing but the treasury field can change |
| LordsPotRuns.AdminRotationSigned | solana_smart_contracts/programs/solana_smart_contracts/src/lib.rs:169-178 | the admin role changes only in a step both the old and the new admin signed |
| LordsPotRuns.NobodyPaysUnsigned | solana_smart_contracts/programs/solana_smart_contracts/src/lib.rs:233-425 | in every run no account but the vault loses money in a step its owner did not sign |
| LordsPotRuns.MoneyFollowsEvents | solana_smart_contracts/programs/solana_smart_contracts/src/lib.rs:281-425 | a recorded purchase, claim, withdrawal or deposit moved exactly its amounts, to the last account, whoever receives the fee |
| LordsPotRuns.VaultGuarded | solana_smart_contracts/programs/solana_smart_contracts/src/lib.rs:346-425 | without the treasury's signature a step lowers the vault by at most max_claim_amount, and only through a co-signed claim while open |
| LordsPotRuns.LedgerIsExactIff | solana_smart_contracts/programs/solana_smart_contracts/src/lib.rs:281-425 | the vault is never below deposits plus purchases minus claims and withdrawals, and equals it if and only if the vault never fed itself |
| LordsPotRuns.OneRulebookPerEpoch | solana_smart_contracts/programs/solana_smart_contracts/src/lib.rs:233-344 | all purchases recorded under one epoch obey the same limits and price, and recorded epochs never decrease |
| LordsPotRuns.FirstRulebook | solana_smart_contracts/programs/solana_smart_contracts/src/lib.rs:16-58 | until the first update, state and every recorded purchase obey the limits and price given to initialize |
| LordsPotRuns.OneOpenInterval | solana_smart_contracts/programs/solana_smart_contracts/src/lib.rs:613-654 | an epoch is open in one contiguous stretch, under one rulebook |
| LordsPotRuns.EpochsNeverDecrease | solana_smart_contracts/programs/solana_smart_contracts/src/lib.rs:321-329 | the epoch number never decreases in any run |
| StateLayout.DecodeUndoesEncode | solana_smart_contracts/programs/solana_smart_contracts/src/lib.rs:739-760 | every state fits 246 bytes and reads back as itself |
| StateLayout.EncodeUndoesDecode | solana_smart_contracts/programs/solana_smart_contracts/src/lib.rs:739-760 | every full-size account that reads back at all is the encoding of what it reads back to |
| StateLayout.StateAccount.MigrateState | solana_smart_contracts/programs/solana_smart_contracts/src/lib.rs:66-166 | goes through exactly for settings within bounds with a real treasury, on an account already migrated or a legacy one signed by its stored admin; which error is reported when, what is appended, and that nothing changes otherwise |
| StateLayout.MigrationPreservesMeaning | solana_smart_contracts/programs/solana_smart_contracts/src/lib.rs:76-160 | the first 60 bytes stay, and the account reads back as the legacy fields with the new ones beside them |
| StateLayout.FieldOffsets | solana_smart_contracts/programs/solana_smart_contracts/src/lib.rs:739-760 | where each new field is found after migration, and that the reserve is zero |
| StateLayout.LegacyOffsets | solana_smart_contracts/programs/solana_smart_contracts/src/lib.rs:739-747 | where each field of the old state is found, before migration and after |
| StateLayout.LittleEndian | solana_smart_contracts/programs/solana_smart_contracts/src/lib.rs:739-760 | an eight-byte number starts with its lowest byte |
| StateLayout.MigrateTwice | solana_smart_contracts/programs/solana_smart_contracts/src/lib.rs:84-87 | a second migration changes nothing, whoever asks for whatever valid settings |
| NonceLane.CounterIsChainCount | backend/src/services/baseService.ts:115-192 | while nothing is dropped, nonces are taken without gap or repetition in arrival order, every success has the nonce it was told, and a known counter is the chain's pending count unless a failed broadcast reached the nodes after a later turn had taken its nonce |
| NonceLane.TooLateDesyncs | backend/src/services/baseService.ts:184-188 | a failed broadcast that reaches the nodes that late leaves the counter exactly one behind the chain's count |
| NonceLane.SuccessesInOrder | backend/src/services/baseService.ts:119-129 | in every run later successes come from later submissions, and while nothing is dropped they have higher nonces |
| NonceLane.FirstTurnAfterReset | backend/src/services/baseService.ts:115-118 | in every run, whatever was dropped: the first submission after a reset or a failed broadcast uses the chain's count, unless the broadcast in hand at the reset succeeds meanwhile, when it uses that one's nonce plus one |
| NonceLane.ResyncedForGood | backend/src/services/baseService.ts:159-186 | from that submission to the next drop the lane opens no gap, every success has its nonce, higher than those before it, and no more broadcasts collide with a taken nonce than transactions were parked behind a gap or turned up late; if there were none, the counter is the chain's count throughout |
| NonceLane.StaysSyncedIff | backend/src/services/baseService.ts:115-186 | a lane in step with the chain stays so, until something is dropped or turns up late, if and only if nothing is parked behind a gap |
| NonceLane.PromotionDesyncs | backend/src/services/baseService.ts:171-186 | short of a drop or a late arrival, a step parts the counter from the chain's count exactly when a success fills the gap before a parked transaction |
| NonceLane.PromotedBehindTheCounter | backend/src/services/baseService.ts:115-118 | a run in which, with nothing dropped since a reset, the counter falls behind the chain's count |
| NonceLane.ResetResyncs | backend/src/services/baseService.ts:115-118 | a reset brings counter and chain together if and only if it comes between turns or they agreed |
| NonceLane.ResetMidBroadcast | backend/src/services/baseService.ts:115-118 | a reset during a stale broadcast holds if and only if that broadcast fails or had the last nonce before the chain's count |
| NonceLane.BaseService.SubmitBuyTickets | backend/src/services/baseService.ts:145-192 | a turn, with or without a reset while it is under way, is three steps of the lane; where counter and chain agree it uses the chain's count, they agree after it unless it fills the gap before a parked transaction, and a success is recorded with the nonce returned |
| Purchase.BuyTickets | frontend/src/solana/buyTickets.ts:28-106 | refused exactly for an incomplete ticket; otherwise transaction k carries one instruction with the tickets from 65k on, up to 65 of them, each line with its ticket's bonus and its normal balls as bytes, and the lines concatenate back to the purchase |
| Purchase.QuoteEqualsCharge | frontend/src/solana/constants.ts:52-57 | the closed form equals the sum of the fees the program charges per instruction, and the subtotals add up to count times price |
| Purchase.QuoteIsRightIff | frontend/src/solana/constants.ts:49-57 | the quote shown is the fee charged at every size if and only if the program's prices are the compiled-in ones |
| Purchase.InstructionsFitProgram | frontend/src/solana/buyTickets.ts:45-49 | every instruction passes the program's checks when its ceiling admits 65 tickets |

## Left out

- Databases, queues, Redis, HTTP, RPC and wallets: reads and guarded writes are atomic steps, everything they answer is a parameter.
- Logging, alerts, retry timing, priority fees, compute limits, rent top-ups and lamports.
- The legacy single-transaction relay path (an order hash fulfilled directly) and the separate Base confirmer, except that a revert may be recovered from an earlier fulfillment.
- Vault solvency checks, pause gates and round locks before a relay job starts: they only prevent a job from starting.
- The epoch transition loop, Megapot polling, healing of missing epochs, metrics, the webhook and the backup indexer.
- The temporary packed-ticket arguments of the harvest calls: folded into the rehearsal, which may come out any way.
- What a harvest moves on chain: harvest results are stated about the database, since the recovery of a lost batch takes any failure for a landing.
- The summary endpoint and the website around buyTickets.
- Tier ids in a stored prize table, alone or in an array, that are numeric strings other than plain decimal digits (signs, spaces, exponents, hexadecimal), and integers too large for a double.
- Token account details other than balances (delegates, freezing), and instruction data sizes.
- PayoutSafety.NoPaymentStranded: sweeps that were cut short may act only where at most one voucher of the wallet and amount is outstanding; PayoutCoverage.UncoveredSweepStrands shows the restriction is needed.
- RelaySafety.NeverBoughtTwice: is about tickets of one order; other orders have other ticket ids, hence other vault ids, and appear as mints elsewhere.
- HarvestSafety.ClaimedThroughBatch: says nothing of confirmed batches without tickets, whose amount belongs to no ticket.
- PayoutPaths.TickIsAPath: covers the loop after the height is read; the reads before it are single steps.
