/**
 Acting on a sweep that was cut short is safe only where vouchers cannot be confused: whatever the
 timing, two vouchers of one wallet and amount and five thousand other transactions between their
 payments are enough to strand a payment.
 */
module PayoutCoverage {
  import opened Wrappers
  import opened LandedClaims
  import opened Sums
  import opened PayoutDb
  import opened PayoutConfirmer
  import opened PayoutProtocol
  import opened PayoutInvariants
  import opened PayoutEveryRun
  import opened PayoutSafety
  import opened PayoutRuns

  lemma StartRun(t: Timing, s: State)
    requires Init(s)
    ensures RunTo(t, s)
  {
    assert RunEndsIn(t, [s], s);
  }

  lemma Go(t: Timing, s: State, s': State, step: Step)
    requires RunTo(t, s) && StepBy(t, s, s', step)
    ensures RunTo(t, s')
  {
    var states :| RunEndsIn(t, states, s);
    var more := states + [s'];
    assert Next(t, s, s');
    forall k | 0 <= k < |more| - 1 ensures StepsAt(t, more, k) {
      if k < |states| - 1 {
        assert StepsAt(t, states, k);
      }
    }
    assert RunEndsIn(t, more, s');
  }

  const LATER: int := 200_000
  const NOISE: nat := PAGE * MAX_PAGES

  function First(): Tx {
    Tx(SigInfo(0, 0, Some(0), false), 0, 0, Some(1), WALLET, PRIZE)
  }

  function Other(i: nat): Tx {
    Tx(SigInfo(i, 1, Some(100), false), 100, 0, None, 0, 0)
  }

  function Last(): Tx {
    Tx(SigInfo(NOISE + 1, 2, Some(200), false), 200, 0, Some(2), WALLET, PRIZE)
  }

  /** The first payment and `n` other transactions after it. */
  function Chain(n: nat): (c: seq<Tx>)
    ensures |c| == n + 1 && c[0] == First() && forall i :: 1 <= i <= n ==> c[i] == Other(i)
  {
    [First()] + seq(n, i requires 0 <= i < n => Other(i + 1))
  }

  function FullChain(): (c: seq<Tx>)
    ensures |c| == NOISE + 2 && c[0] == First() && c[NOISE + 1] == Last() && forall i :: 1 <= i <= NOISE ==> c[i] == Other(i)
  {
    Chain(NOISE) + [Last()]
  }

  function Created(at: int): Claim {
    Claim(WALLET, 0, Pending, None, None, at)
  }

  function Signed(at: int): Claim {
    Claim(WALLET, PRIZE, Pending, None, Some(0), at)
  }

  function At(tickets: seq<Ticket>, claims: map<ClaimId, Claim>, routes: map<ClaimId, Route>, chain: seq<Tx>, landing: map<ClaimId, nat>, now: int): State {
    State(Db(tickets, claims), claims.Keys, routes, chain, landing, 0, 0, now, Idle)
  }

  function TicketPair(a: Option<ClaimId>, b: Option<ClaimId>): seq<Ticket> {
    [Prize(1, ClaimedOnBase, a), Prize(2, ClaimedOnBase, b)]
  }

  lemma BothHarvested(t: Timing)
    ensures RunTo(t, At(TicketPair(None, None), map[], map[], [], map[], 0))
  {
    var drawn := [Ticket(WALLET, 1, DrawPending, 0, None), Ticket(WALLET, 2, DrawPending, 0, None)];
    var s0 := At(drawn, map[], map[], [], map[], 0);
    StartRun(t, s0);
    var s1 := At([Prize(1, WonUnclaimed, None), drawn[1]], map[], map[], [], map[], 0);
    Go(t, s0, s1, Grade(0, WonUnclaimed, PRIZE));
    var s2 := At([Prize(1, ClaimedOnBase, None), drawn[1]], map[], map[], [], map[], 0);
    Go(t, s1, s2, Harvest(0));
    var s3 := At([Prize(1, ClaimedOnBase, None), Prize(2, WonUnclaimed, None)], map[], map[], [], map[], 0);
    Go(t, s2, s3, Grade(1, WonUnclaimed, PRIZE));
    Go(t, s3, At(TicketPair(None, None), map[], map[], [], map[], 0), Harvest(1));
  }

  /** The first voucher is handed out and paid at once. */
  lemma FirstPaid(t: Timing)
    ensures RunTo(t, At(TicketPair(Some(1), None), map[1 := Signed(0)], map[], Chain(0), map[1 := 0], 0))
  {
    BothHarvested(t);
    var none := TicketPair(None, None);
    var s0 := At(none, map[], map[], [], map[], 0);
    var s1 := At(none, map[1 := Created(0)], map[1 := Route.Created], [], map[], 0);
    Go(t, s0, s1, RouteCreate(1, WALLET));
    assert BindAll(none, 1, WALLET, {1}) == TicketPair(Some(1), None);
    var s2 := At(TicketPair(Some(1), None), map[1 := Created(0)], map[1 := Bound], [], map[], 0);
    Go(t, s1, s2, RouteBind(1, {1}));
    SumSingle(BoundAmount(1), TicketPair(Some(1), None), 0);
    var s3 := At(TicketPair(Some(1), None), map[1 := Created(0)], map[1 := Summed(PRIZE)], [], map[], 0);
    Go(t, s2, s3, RouteSum(1));
    FirstLands(t, s3);
  }

  lemma FirstLands(t: Timing, s3: State)
    requires s3 == At(TicketPair(Some(1), None), map[1 := Created(0)], map[1 := Summed(PRIZE)], [], map[], 0) && RunTo(t, s3)
    ensures RunTo(t, At(TicketPair(Some(1), None), map[1 := Signed(0)], map[], Chain(0), map[1 := 0], 0))
  {
    var s4 := At(TicketPair(Some(1), None), map[1 := Signed(0)], map[], [], map[], 0);
    assert s4.routes == s3.routes - {1} && s4.db.claims == s3.db.claims[1 := Signed(0)];
    Go(t, s3, s4, RouteHandOut(1, 0));
    Go(t, s4, s4.(chain := Chain(0), landing := map[1 := 0]), Land(1, First().info, 0));
  }

  /** Any number of other transactions follow. */
  lemma {:induction false} NoiseFollows(t: Timing, s: State, n: nat)
    requires RunTo(t, s) && s.chain == Chain(0) && s.height == 0
    ensures RunTo(t, s.(chain := Chain(n)))
  {
    if n == 0 {
      assert s.(chain := Chain(0)) == s;
    } else {
      NoiseFollows(t, s, n - 1);
      assert Chain(n - 1) + [Other(n)] == Chain(n);
      Go(t, s.(chain := Chain(n - 1)), s.(chain := Chain(n)), OtherTx(Other(n).info, 100));
    }
  }

  function BothSigned(): map<ClaimId, Claim> {
    map[1 := Signed(0), 2 := Signed(LATER)]
  }

  /** Later the second voucher is handed out and paid. */
  lemma SecondRequested(t: Timing)
    ensures RunTo(t, At(TicketPair(Some(1), Some(2)), map[1 := Signed(0), 2 := Created(LATER)], map[2 := Summed(PRIZE)], Chain(NOISE), map[1 := 0], LATER))
  {
    FirstPaid(t);
    var one := TicketPair(Some(1), None);
    var s0 := At(one, map[1 := Signed(0)], map[], Chain(0), map[1 := 0], 0);
    NoiseFollows(t, s0, NOISE);
    var s1 := At(one, map[1 := Signed(0)], map[], Chain(NOISE), map[1 := 0], LATER);
    Go(t, s0.(chain := Chain(NOISE)), s1, Advance(0, LATER));
    var claims := map[1 := Signed(0), 2 := Created(LATER)];
    var s2 := At(one, claims, map[2 := Route.Created], Chain(NOISE), map[1 := 0], LATER);
    assert claims == s1.db.claims[2 := Created(LATER)] && claims.Keys == s1.ids + {2};
    Go(t, s1, s2, RouteCreate(2, WALLET));
    SecondBinds(t, s2);
  }

  lemma SecondBinds(t: Timing, s: State)
    requires s == At(TicketPair(Some(1), None), map[1 := Signed(0), 2 := Created(LATER)], map[2 := Route.Created], Chain(NOISE), map[1 := 0], LATER)
    requires RunTo(t, s)
    ensures RunTo(t, s.(db := Db(TicketPair(Some(1), Some(2)), s.db.claims), routes := map[2 := Summed(PRIZE)]))
  {
    var both := TicketPair(Some(1), Some(2));
    assert BindAll(TicketPair(Some(1), None), 2, WALLET, {2}) == both;
    var s1 := s.(db := Db(both, s.db.claims), routes := map[2 := Bound]);
    Go(t, s, s1, RouteBind(2, {2}));
    SumSingle(BoundAmount(2), both, 1);
    Go(t, s1, s.(db := Db(both, s.db.claims), routes := map[2 := Summed(PRIZE)]), RouteSum(2));
  }

  function Paid(tick: Tick): State {
    At(TicketPair(Some(1), Some(2)), BothSigned(), map[], FullChain(), map[1 := 0, 2 := NOISE + 1], LATER).(tick := tick)
  }

  lemma SecondPaid(t: Timing)
    ensures RunTo(t, Paid(Idle))
  {
    SecondRequested(t);
    var s0 := At(TicketPair(Some(1), Some(2)), map[1 := Signed(0), 2 := Created(LATER)], map[2 := Summed(PRIZE)], Chain(NOISE), map[1 := 0], LATER);
    var s1 := At(TicketPair(Some(1), Some(2)), BothSigned(), map[], Chain(NOISE), map[1 := 0], LATER);
    assert s1.routes == s0.routes - {2} && s1.db.claims == s0.db.claims[2 := Signed(LATER)] && s1.ids == s0.ids;
    Go(t, s0, s1, RouteHandOut(2, 0));
    Go(t, s1, Paid(Idle), Land(2, Last().info, 200));
  }

  // ---------------------------------------------------------------------------------
  // The sweep that was cut short
  // ---------------------------------------------------------------------------------

  lemma FullChainOk()
    ensures ChainOk(FullChain(), 0)
  {
  }

  /** The whole history is in range, which is more than a sweep can walk; it sees the second payment only. */
  lemma CutShort()
    ensures var (landed, complete) := SweepResult(FullChain(), NOISE + 2, SweepBound(0));
      && !complete && EntryOf(Last()) in landed && EntryOf(First()) !in landed
  {
    var chain := FullChain();
    assert chain[..NOISE + 2] == chain;
    var h := Infos(chain);
    WholeWindow(NOISE + 2);
    var w := Examined(h, SweepBound(0));
    WindowAt(h, SweepBound(0), 0);
    DecodeComplete(Body(chain), w, 0);
    assert LandedOf(w[0], Body(chain)(w[0].signature))[0] == EntryOf(Last());
    if EntryOf(First()) in Decode(Body(chain), w) {
      DecodeSound(Body(chain), w, EntryOf(First()));
      var i :| 0 <= i < |w| && EntryOf(First()) in LandedOf(w[i], Body(chain)(w[i].signature));
      WindowAt(h, SweepBound(0), i);
    }
  }

  /** Nothing on the chain is older than the first sweep's bound. */
  lemma {:induction false} WholeWindow(n: nat)
    requires n <= NOISE + 2
    ensures |Window(Infos(FullChain())[..n], SweepBound(0))| == n
    ensures n == NOISE + 2 ==> Infos(FullChain())[..n] == Infos(FullChain())
  {
    if n > 0 {
      WholeWindow(n - 1);
      assert Infos(FullChain())[..n][..n - 1] == Infos(FullChain())[..n - 1];
    }
  }

  function ShortSweep(): (landed: seq<Landed>) {
    SweepResult(FullChain(), NOISE + 2, SweepBound(0)).0
  }

  function LaterSweep(): (landed: seq<Landed>) {
    SweepResult(FullChain(), NOISE + 2, SweepBound(LATER)).0
  }

  /** Whatever is listed is one of the two payments. */
  lemma OnlyPayments(notBefore: int, l: Landed)
    requires l in SweepResult(FullChain(), NOISE + 2, notBefore).0
    ensures l == EntryOf(First()) || l == EntryOf(Last())
  {
    FullChainOk();
    SweepSound(FullChain(), 0, NOISE + 2, notBefore, l);
  }

  lemma ShortHits()
    ensures Hit(ShortSweep(), Signed(0), {}) == Some(EntryOf(Last()))
    ensures Hit(ShortSweep(), Signed(LATER), {NOISE + 1}) == None
  {
    CutShort();
    HitIsOldest(ShortSweep(), Signed(0), {});
    HitIsOldest(ShortSweep(), Signed(LATER), {NOISE + 1});
    assert Candidate(EntryOf(Last()), Signed(0), {});
    forall l | l in ShortSweep() ensures l == EntryOf(Last()) {
      OnlyPayments(SweepBound(0), l);
    }
  }

  /** The later sweep is complete, and lists nothing the second claim could use. */
  lemma LaterMisses()
    ensures SweepResult(FullChain(), NOISE + 2, SweepBound(LATER)).1
    ensures Hit(LaterSweep(), Signed(LATER), {NOISE + 1}) == None
  {
    var chain := FullChain();
    assert chain[..NOISE + 2] == chain;
    var h := Infos(chain);
    WindowAt(h, SweepBound(LATER), 0);
    WindowAt(h, SweepBound(LATER), 1);
    HitIsOldest(LaterSweep(), Signed(LATER), {NOISE + 1});
    forall l | l in LaterSweep() ensures !Candidate(l, Signed(LATER), {NOISE + 1}) {
      OnlyPayments(SweepBound(LATER), l);
    }
  }

  // ---------------------------------------------------------------------------------
  // Two ticks
  // ---------------------------------------------------------------------------------

  function BothRows(): seq<PendingRow> {
    [PendingRow(1, Signed(0)), PendingRow(2, Signed(LATER))]
  }

  function FirstTick(used: set<Signature>, next: nat): Tick {
    Resolving(BothRows(), LATER, ShortSweep(), false, NOISE + 2, 0, 0, used, next, map[])
  }

  lemma FirstRead(t: Timing)
    ensures RunTo(t, Paid(Read(BothRows(), LATER)))
  {
    SecondPaid(t);
    assert RowsOf(Paid(Idle).db, [1, 2]) == BothRows();
    Go(t, Paid(Idle), Paid(Read(BothRows(), LATER)), TickRead([1, 2]));
  }

  lemma FirstTickStarts(t: Timing)
    ensures RunTo(t, Paid(FirstTick({}, 0)).(seen := NOISE + 2))
  {
    FirstRead(t);
    CutShort();
    var s1 := Paid(Read(BothRows(), LATER));
    var s2 := Paid(Swept(BothRows(), LATER, ShortSweep(), false, NOISE + 2, 0)).(seen := NOISE + 2);
    Go(t, s1, s2, TickSweep(NOISE + 2, 0));
    assert UsedSignatures(s2.db) == {};
    Go(t, s2, Paid(FirstTick({}, 0)).(seen := NOISE + 2), TickHeight(0));
  }

  /** The first claim is settled with the second voucher's payment. */
  function Confused(height: nat, tick: Tick): State {
    State(Db([Prize(1, PaidOutOnSolana, Some(1)), Prize(2, ClaimedOnBase, Some(2))],
             map[1 := Signed(0).(status := Confirmed, txSignature := Some(NOISE + 1)), 2 := Signed(LATER)]),
          {1, 2}, map[], FullChain(), map[1 := 0, 2 := NOISE + 1], NOISE + 2, height, LATER, tick)
  }

  lemma FirstConfused(t: Timing)
    ensures RunTo(t, Confused(0, FirstTick({NOISE + 1}, 1)))
  {
    FirstTickStarts(t);
    ShortHits();
    var s := Paid(FirstTick({}, 0)).(seen := NOISE + 2);
    ConfusedStep(t, s);
    Go(t, s, Confused(0, FirstTick({NOISE + 1}, 1)), TickResolve(false));
  }

  lemma ConfusedStep(t: Timing, s: State)
    requires s == Paid(FirstTick({}, 0)).(seen := NOISE + 2)
    requires Hit(ShortSweep(), Signed(0), {}) == Some(EntryOf(Last()))
    ensures StepBy(t, s, Confused(0, FirstTick({NOISE + 1}, 1)), TickResolve(false))
  {
    var s' := Confused(0, FirstTick({NOISE + 1}, 1));
    assert VerdictOf(s) == Confirm(NOISE + 1);
    ConfusedCarried(s.db, s'.db);
    assert s'.ids == s.ids;
    assert Spoken({}, Confirm(NOISE + 1)) == {NOISE + 1};
    assert s'.tick == AfterVerdict(s.tick, Confirm(NOISE + 1), false);
  }

  lemma ConfusedCarried(db: Db, db': Db)
    requires db == Paid(Idle).db && db' == Confused(0, Idle).db
    ensures Carry(db, 1, Confirm(NOISE + 1)) == db'
  {
    assert db'.tickets == PayAll(db.tickets, 1);
    assert db'.claims == db.claims[1 := db'.claims[1]];
  }

  lemma FirstTickEnds(t: Timing)
    ensures RunTo(t, Confused(0, Idle))
  {
    FirstConfused(t);
    ShortHits();
    var s0 := Confused(0, FirstTick({NOISE + 1}, 1));
    var s1 := Confused(0, FirstTick({NOISE + 1}, 2));
    Go(t, s0, s1, TickResolve(false));
    Go(t, s1, Confused(0, Idle), TickEnd);
  }

  lemma SecondRead(t: Timing)
    ensures RunTo(t, Confused(EXPIRY_BUFFER_BLOCKS + 1, Read([PendingRow(2, Signed(LATER))], LATER)))
  {
    FirstTickEnds(t);
    var s2 := Confused(EXPIRY_BUFFER_BLOCKS + 1, Idle);
    Go(t, Confused(0, Idle), s2, Advance(EXPIRY_BUFFER_BLOCKS + 1, LATER));
    assert RowsOf(s2.db, [2]) == [PendingRow(2, Signed(LATER))];
    Go(t, s2, Confused(EXPIRY_BUFFER_BLOCKS + 1, Read([PendingRow(2, Signed(LATER))], LATER)), TickRead([2]));
  }

  /** However generous the timing: without coverage a payment can be stranded. */
  lemma UncoveredSweepStrands(t: Timing)
    ensures exists s :: RunTo(t, s) && NoneLive(s, WALLET, PRIZE) && !OneToOne(s, WALLET, PRIZE)
  {
    SecondRead(t);
    LaterMisses();
    var h := EXPIRY_BUFFER_BLOCKS + 1;
    var rows := [PendingRow(2, Signed(LATER))];
    var s0 := Confused(h, Read(rows, LATER));
    var s1 := Confused(h, Swept(rows, LATER, LaterSweep(), true, NOISE + 2, h));
    Go(t, s0, s1, TickSweep(NOISE + 2, h));
    assert s1.db.claims[1].txSignature == Some(NOISE + 1);
    assert UsedSignatures(s1.db) == {NOISE + 1};
    var s2 := Confused(h, Resolving(rows, LATER, LaterSweep(), true, NOISE + 2, h, h, {NOISE + 1}, 0, map[]));
    Go(t, s1, s2, TickHeight(h));
    SecondExpires(t, s2);
  }

  lemma SecondExpires(t: Timing, s: State)
    requires var h := EXPIRY_BUFFER_BLOCKS + 1;
      s == Confused(h, Resolving([PendingRow(2, Signed(LATER))], LATER, LaterSweep(), true, NOISE + 2, h, h, {NOISE + 1}, 0, map[]))
    requires RunTo(t, s) && Hit(LaterSweep(), Signed(LATER), {NOISE + 1}) == None
    ensures exists s :: RunTo(t, s) && NoneLive(s, WALLET, PRIZE) && !OneToOne(s, WALLET, PRIZE)
  {
    var s1 := s.(db := ReleaseClaim(s.db, 2, Expired), tick := AfterVerdict(s.tick, Expire, false));
    Go(t, s, s1, TickResolve(false));
    assert PaymentOf(s1, 0, WALLET, PRIZE);
    assert NoneLive(s1, WALLET, PRIZE);
    assert !OneToOne(s1, WALLET, PRIZE);
  }
}
