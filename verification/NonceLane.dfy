/**
 The nonce lane (backend/src/services/baseService.ts, withNonceLane, submitBuyTickets and
 resetNonceLane): broadcasts of one wallet take their turns in arrival order, and share one
 counter that is read from the chain whenever it is not known.
 */
module NonceLane {
  import opened Wrappers

  /** Submissions are numbered in the order they arrive. */
  type Submission = int

  /** The submission whose turn it is, before and after it has its nonce. */
  datatype Turn = Free | Holding(holder: Submission, nonce: nat)

  /**
   `first` is the wallet's first nonce of the story, and `held` whose transaction the nodes have
   for each nonce, mined, pending or parked behind a gap.  What is `adrift` was reported as failed
   and may reach the nodes yet.
   */
  datatype State = State(
    nextNonce: Option<nat>,
    queue: seq<Submission>,
    turn: Turn,
    arrived: nat,
    first: nat,
    held: map<nat, Submission>,
    adrift: set<(nat, Submission)>,
    succeeded: seq<(Submission, nat)>)

  /** The first number from `n` on that is not taken. */
  function Gap(taken: set<nat>, n: nat): (r: nat)
    ensures n <= r && r !in taken
    ensures forall i :: n <= i < r ==> i in taken
    decreases |taken|
  {
    if n !in taken then n
    else
      var gap := Gap(taken - {n}, n + 1);
      assert forall i :: n <= i < gap ==> i in taken by {
        forall i | n < i < gap ensures i in taken {
          assert i in taken - {n};
        }
      }
      gap
  }

  /** It is the only such number. */
  lemma GapIs(taken: set<nat>, n: nat, r: nat)
    requires n <= r && r !in taken && forall i :: n <= i < r ==> i in taken
    ensures Gap(taken, n) == r
  {
  }

  /** getTransactionCount(wallet, 'pending'): what is parked counts as soon as the gap before it is filled. */
  function PendingCount(s: State): nat {
    Gap(s.held.Keys, s.first)
  }

  /** The transactions waiting behind a gap. */
  function Parked(s: State): set<nat> {
    set n | n in s.held && n > PendingCount(s)
  }

  /** How a broadcast ends: with a hash, or an error that came before or after the mempool took it. */
  datatype Ending = Accepted | LostAfter | LostBefore

  datatype Step =
    | Arrive
    | TakeTurn
    | Finish(ending: Ending)
    | Reset
    | Drop(dropped: nat)
    | Surface(late: (nat, Submission))

  /** The lane after the broadcast in hand has ended; a nonce that is taken is refused, or changes hands. */
  function Finished(s: State, ending: Ending): State
    requires s.turn.Holding?
  {
    var nonce := s.turn.nonce;
    s.(turn := Free,
       held := if ending.LostBefore? then s.held else s.held[nonce := s.turn.holder],
       adrift := if ending.LostBefore? then s.adrift + {(nonce, s.turn.holder)} else s.adrift,
       nextNonce := if ending.Accepted? then Some(nonce + 1) else None,
       succeeded := if ending.Accepted? then s.succeeded + [(s.turn.holder, nonce)] else s.succeeded)
  }

  /** The lane once the next in line has its turn and its nonce. */
  function Taken(s: State): State
    requires |s.queue| > 0
  {
    var nonce := if s.nextNonce.Some? then s.nextNonce.value else PendingCount(s);
    s.(nextNonce := Some(nonce), turn := Holding(s.queue[0], nonce), queue := s.queue[1..])
  }

  ghost predicate StepBy(s: State, s': State, step: Step) {
    match step
    case Arrive =>
      s' == s.(queue := s.queue + [s.arrived], arrived := s.arrived + 1)
    case TakeTurn =>
      s.turn.Free? && |s.queue| > 0 && s' == Taken(s)
    case Finish(ending) =>
      s.turn.Holding? && s' == Finished(s, ending)
    case Reset =>
      s' == s.(nextNonce := None)
    case Drop(n) =>
      n in s.held && s' == s.(held := s.held - {n})
    case Surface(late) =>
      late in s.adrift && late.0 !in s.held && s' == s.(held := s.held[late.0 := late.1], adrift := s.adrift - {late})
  }

  ghost predicate Init(s: State) {
    s.nextNonce == None && s.queue == [] && s.turn == Free && s.arrived == 0 && s.held == map[] && s.adrift == {} && s.succeeded == []
  }

  ghost predicate StepsAt(states: seq<State>, steps: seq<Step>, k: int)
    requires 0 <= k < |steps| && |states| == |steps| + 1
  {
    StepBy(states[k], states[k + 1], steps[k])
  }

  /** The steps lead from state to state. */
  ghost predicate Path(states: seq<State>, steps: seq<Step>) {
    && |states| == |steps| + 1
    && forall k :: 0 <= k < |steps| ==> StepsAt(states, steps, k)
  }

  ghost predicate Run(states: seq<State>, steps: seq<Step>) {
    Path(states, steps) && Init(states[0])
  }

  /** Nothing is dropped between states `k` and `m`. */
  predicate NothingDropped(steps: seq<Step>, k: nat, m: nat) {
    k <= m <= |steps| && forall i :: k <= i < m ==> !steps[i].Drop?
  }

  /** Neither is anything dropped, nor does a failed broadcast turn up late. */
  predicate Undisturbed(steps: seq<Step>, k: nat, m: nat) {
    k <= m <= |steps| && forall i :: k <= i < m ==> !steps[i].Drop? && !steps[i].Surface?
  }

  // ---------------------------------------------------------------------------------
  // Turns are taken in arrival order
  // ---------------------------------------------------------------------------------

  ghost predicate Ascending(xs: seq<Submission>) {
    forall i, j :: 0 <= i < j < |xs| ==> xs[i] < xs[j]
  }

  ghost predicate AllBelow(xs: seq<Submission>, bound: int) {
    forall i :: 0 <= i < |xs| ==> xs[i] < bound
  }

  /** The first submission that has not had its turn to the end. */
  function Frontier(s: State): int {
    if s.turn.Holding? then s.turn.holder else if |s.queue| > 0 then s.queue[0] else s.arrived
  }

  ghost predicate InOrder(s: State) {
    && Ascending(s.queue) && AllBelow(s.queue, s.arrived)
    && (s.turn.Holding? ==> s.turn.holder < s.arrived && forall i :: 0 <= i < |s.queue| ==> s.turn.holder < s.queue[i])
    && (forall n :: n in s.held ==> s.held[n] < Frontier(s))
    && (forall late :: late in s.adrift ==> late.1 < Frontier(s))
    && (forall i :: 0 <= i < |s.succeeded| ==> s.succeeded[i].0 < Frontier(s))
    && (forall i, j :: 0 <= i < j < |s.succeeded| ==> s.succeeded[i].0 < s.succeeded[j].0)
  }

  lemma StepKeepsOrder(s: State, s': State, step: Step)
    requires InOrder(s) && StepBy(s, s', step)
    ensures InOrder(s')
  {
    assert Frontier(s) <= Frontier(s');
    if step.Finish? {
      assert s.turn.holder < Frontier(s');
    }
  }

  lemma {:induction false} RunKeepsOrder(states: seq<State>, steps: seq<Step>, k: nat)
    requires Run(states, steps) && k < |states|
    ensures InOrder(states[k])
  {
    if k > 0 {
      RunKeepsOrder(states, steps, k - 1);
      assert StepsAt(states, steps, k - 1);
      StepKeepsOrder(states[k - 1], states[k], steps[k - 1]);
    }
  }

  // ---------------------------------------------------------------------------------
  // The lane never gets ahead of the chain
  // ---------------------------------------------------------------------------------

  /** The nonce the lane goes by: the one in hand, the counter, or the chain's answer. */
  function Level(s: State): nat {
    if s.turn.Holding? then s.turn.nonce else if s.nextNonce.Some? then s.nextNonce.value else PendingCount(s)
  }

  /** The counter, and the nonce in hand, are the chain's own count. */
  predicate Synced(s: State) {
    Level(s) == PendingCount(s)
  }

  /** The lane leaves no gap: the nonce it goes by is the chain's next, or taken already. */
  predicate NoGap(s: State) {
    s.first <= Level(s) <= PendingCount(s)
  }

  /** Every success from the `base`th on has its nonce, each a higher one than the last. */
  ghost predicate SuccessesCount(s: State, base: nat) {
    && (forall i :: base <= i < |s.succeeded| ==> HasItsNonce(s, s.succeeded[i]))
    && (forall i, j :: base <= i < j < |s.succeeded| ==> s.succeeded[i].1 < s.succeeded[j].1)
  }

  predicate HasItsNonce(s: State, success: (Submission, nat)) {
    success.1 in s.held && s.held[success.1] == success.0 && success.1 < Level(s)
  }

  ghost predicate Tame(s: State, base: nat) {
    NoGap(s) && SuccessesCount(s, base)
  }

  /** Nonces the lane has yet to come to, and that are taken. */
  function Ahead(s: State): set<nat> {
    set n | n in s.held && n >= Level(s)
  }

  /** A broadcast under a nonce that is taken ends. */
  predicate Collides(s: State, step: Step) {
    step.Finish? && s.turn.Holding? && s.turn.nonce in s.held
  }

  lemma LevelRises(s: State, s': State, step: Step)
    requires NoGap(s) && StepBy(s, s', step) && !step.Drop?
    ensures NoGap(s') && Level(s) <= Level(s')
    ensures Collides(s, step) ==> Level(s) < Level(s')
  {
    assert forall n :: n in s.held ==> n in s'.held;
  }

  lemma StepKeepsTame(s: State, s': State, step: Step, base: nat)
    requires Tame(s, base) && StepBy(s, s', step) && !step.Drop?
    ensures Tame(s', base)
    ensures |Ahead(s')| + (if Collides(s, step) then 1 else 0) <= |Ahead(s)| + (if step.Surface? then 1 else 0)
  {
    LevelRises(s, s', step);
    AheadShrinks(s, s', step);
    forall i | base <= i < |s'.succeeded| ensures HasItsNonce(s', s'.succeeded[i]) {
      if i < |s.succeeded| {
        assert HasItsNonce(s, s.succeeded[i]);
      }
    }
    forall i, j | base <= i < j < |s'.succeeded| ensures s'.succeeded[i].1 < s'.succeeded[j].1 {
      assert HasItsNonce(s, s.succeeded[i]);
    }
  }

  lemma AheadShrinks(s: State, s': State, step: Step)
    requires NoGap(s) && StepBy(s, s', step) && !step.Drop?
    requires Level(s) <= Level(s') && (Collides(s, step) ==> Level(s) < Level(s'))
    ensures |Ahead(s')| + (if Collides(s, step) then 1 else 0) <= |Ahead(s)| + (if step.Surface? then 1 else 0)
  {
    if Collides(s, step) {
      assert s.turn.nonce in Ahead(s);
      Fewer(Ahead(s'), Ahead(s) - {s.turn.nonce});
    } else if step.Surface? {
      Fewer(Ahead(s'), Ahead(s) + {step.late.0});
    } else {
      Fewer(Ahead(s'), Ahead(s));
    }
  }

  lemma {:induction false} Fewer(a: set<nat>, b: set<nat>)
    requires a <= b
    ensures |a| <= |b|
  {
    if a != {} {
      var x :| x in a;
      Fewer(a - {x}, b - {x});
    }
  }

  /** How many broadcasts between states `k` and `m` went out under a nonce that was taken. */
  ghost function Collisions(states: seq<State>, steps: seq<Step>, k: nat, m: nat): nat
    requires k <= m <= |steps| && |states| == |steps| + 1
  {
    if k == m then 0 else Collisions(states, steps, k, m - 1) + if Collides(states[m - 1], steps[m - 1]) then 1 else 0
  }

  /** How many failed broadcasts turned up late. */
  function Surfacings(steps: seq<Step>, k: nat, m: nat): nat
    requires k <= m <= |steps|
  {
    if k == m then 0 else Surfacings(steps, k, m - 1) + if steps[m - 1].Surface? then 1 else 0
  }

  lemma {:induction false} NoSurfacings(steps: seq<Step>, k: nat, m: nat)
    requires Undisturbed(steps, k, m)
    ensures Surfacings(steps, k, m) == 0
  {
    if k < m {
      NoSurfacings(steps, k, m - 1);
    }
  }

  lemma {:induction false} TameStretch(states: seq<State>, steps: seq<Step>, k: nat, m: nat, base: nat)
    requires Path(states, steps) && NothingDropped(steps, k, m) && Tame(states[k], base)
    ensures Tame(states[m], base)
    ensures Collisions(states, steps, k, m) + |Ahead(states[m])| <= |Ahead(states[k])| + Surfacings(steps, k, m)
  {
    if k < m {
      TameStretch(states, steps, k, m - 1, base);
      assert StepsAt(states, steps, m - 1);
      StepKeepsTame(states[m - 1], states[m], steps[m - 1], base);
    }
  }

  /** Unless a nonce is taken ahead, the lane goes by the chain's count. */
  lemma NothingAheadIsSynced(s: State)
    requires NoGap(s) && |Ahead(s)| == 0
    ensures Synced(s)
  {
    assert Level(s) !in Ahead(s);
  }

  // ---------------------------------------------------------------------------------
  // While nothing is ever dropped
  // ---------------------------------------------------------------------------------

  /** Nonces are taken without a gap, in arrival order, and none beyond the one the lane goes by. */
  ghost predicate InLine(s: State) {
    && (forall n :: n in s.held ==> s.first <= n < PendingCount(s) && n <= Level(s))
    && (forall a, b :: a in s.held && b in s.held && a < b ==> s.held[a] < s.held[b])
  }

  /** A failed broadcast that turns up takes its place in the line. */
  ghost predicate AdriftOk(s: State) {
    forall late :: late in s.adrift ==>
      && s.first <= late.0 <= Level(s)
      && forall n :: n in s.held && n < late.0 ==> s.held[n] < late.1
  }

  ghost predicate Inv(s: State) {
    InOrder(s) && InLine(s) && AdriftOk(s) && Tame(s, 0)
  }

  lemma StepKeeps(s: State, s': State, step: Step)
    requires Inv(s) && StepBy(s, s', step) && !step.Drop?
    ensures Inv(s')
  {
    StepKeepsOrder(s, s', step);
    StepKeepsTame(s, s', step, 0);
    StepKeepsLine(s, s', step);
  }

  lemma StepKeepsLine(s: State, s': State, step: Step)
    requires InOrder(s) && InLine(s) && AdriftOk(s) && NoGap(s) && StepBy(s, s', step) && !step.Drop?
    ensures InLine(s') && AdriftOk(s')
  {
    LevelRises(s, s', step);
    assert forall n :: n in s'.held ==> n in s.held || n == PendingCount(s);
    LineStays(s, s', step);
    AdriftStays(s, s', step);
  }

  lemma LineStays(s: State, s': State, step: Step)
    requires InOrder(s) && InLine(s) && AdriftOk(s) && NoGap(s) && StepBy(s, s', step) && !step.Drop?
    requires Level(s) <= Level(s') && forall n :: n in s'.held ==> n in s.held || n == PendingCount(s)
    ensures InLine(s')
  {
    var p := PendingCount(s);
    assert p in s'.held ==> PendingCount(s') > p;
    assert forall n :: n in s.held ==> n in s'.held;
    assert PendingCount(s) <= PendingCount(s');
  }

  lemma AdriftStays(s: State, s': State, step: Step)
    requires InOrder(s) && InLine(s) && AdriftOk(s) && NoGap(s) && StepBy(s, s', step) && !step.Drop?
    requires Level(s) <= Level(s') && forall n :: n in s'.held ==> n in s.held || n == PendingCount(s)
    ensures AdriftOk(s')
  {
  }

  /** The failed broadcast turns up while a turn, or a counter, already goes by the nonce it had. */
  predicate TooLate(s: State, step: Step) {
    step.Surface? && (s.turn.Holding? || s.nextNonce.Some?)
  }

  ghost predicate NothingTooLate(states: seq<State>, steps: seq<Step>, k: nat)
    requires k <= |steps| && |states| == |steps| + 1
  {
    forall i :: 0 <= i < k ==> !TooLate(states[i], steps[i])
  }

  lemma StepKeepsSynced(s: State, s': State, step: Step)
    requires Inv(s) && Synced(s) && StepBy(s, s', step) && !step.Drop? && !TooLate(s, step)
    ensures Synced(s')
  {
    StepKeeps(s, s', step);
    assert Level(s) !in s.held;
    if step == Finish(Accepted) {
      assert s.turn.nonce + 1 !in s'.held;
    }
  }

  lemma {:induction false} RunKeeps(states: seq<State>, steps: seq<Step>, k: nat)
    requires Run(states, steps) && NothingDropped(steps, 0, k)
    ensures Inv(states[k]) && (NothingTooLate(states, steps, k) ==> Synced(states[k]))
  {
    if k > 0 {
      RunKeeps(states, steps, k - 1);
      assert StepsAt(states, steps, k - 1);
      StepKeeps(states[k - 1], states[k], steps[k - 1]);
      if NothingTooLate(states, steps, k) {
        assert NothingTooLate(states, steps, k - 1);
        StepKeepsSynced(states[k - 1], states[k], steps[k - 1]);
      }
    }
  }

  /**
   While nothing is dropped, and however broadcasts fail and whoever resets: nonces from the first on
   are taken without a gap or a repetition, in arrival order; every success has the nonce it was told;
   a known counter is never ahead of the chain's count, and equals it unless a failed broadcast turned
   up after a later turn had taken its nonce.
   */
  lemma CounterIsChainCount(states: seq<State>, steps: seq<Step>, k: nat)
    requires Run(states, steps) && NothingDropped(steps, 0, k)
    ensures var s := states[k];
      && InLine(s) && NoGap(s)
      && (forall i :: 0 <= i < |s.succeeded| ==> HasItsNonce(s, s.succeeded[i]))
      && (NothingTooLate(states, steps, k) && s.turn.Free? && s.nextNonce.Some? ==> s.nextNonce.value == PendingCount(s))
  {
    RunKeeps(states, steps, k);
  }

  /** Later successes come from later submissions, and while nothing is dropped they have higher nonces. */
  lemma SuccessesInOrder(states: seq<State>, steps: seq<Step>, k: nat, i: nat, j: nat)
    requires Run(states, steps) && k < |states| && i < j < |states[k].succeeded|
    ensures states[k].succeeded[i].0 < states[k].succeeded[j].0
    ensures NothingDropped(steps, 0, k) ==> states[k].succeeded[i].1 < states[k].succeeded[j].1
  {
    RunKeepsOrder(states, steps, k);
    if NothingDropped(steps, 0, k) {
      RunKeeps(states, steps, k);
    }
  }

  // ---------------------------------------------------------------------------------
  // After a drop
  // ---------------------------------------------------------------------------------

  /** The lane forgets its counter: somebody resets it, or a broadcast fails. */
  predicate Forgets(step: Step) {
    step.Reset? || (step.Finish? && !step.ending.Accepted?)
  }

  /** Step `j` forgets the counter, and no turn is taken, and nothing forgotten again, before step `k`. */
  predicate Quiet(steps: seq<Step>, j: int, k: int) {
    0 <= j < k <= |steps| && Forgets(steps[j]) && forall i :: j < i < k ==> !steps[i].TakeTurn? && !Forgets(steps[i])
  }

  /** The broadcast that was in hand at step `j`, if any, succeeds before step `k`. */
  predicate SucceedsBetween(steps: seq<Step>, j: int, k: int) {
    exists i :: 0 <= j < i < k <= |steps| && steps[i] == Finish(Accepted)
  }

  /** The counter stays unknown until the broadcast in hand at the time succeeds. */
  lemma {:induction false} QuietCounter(states: seq<State>, steps: seq<Step>, j: nat, k: nat)
    requires Path(states, steps) && Quiet(steps, j, k)
    ensures states[k].turn.Holding? ==> states[k].turn == states[j].turn && !SucceedsBetween(steps, j, k)
    ensures SucceedsBetween(steps, j, k) ==> states[j].turn.Holding? && states[k].nextNonce == Some(states[j].turn.nonce + 1)
    ensures !SucceedsBetween(steps, j, k) ==> states[k].nextNonce == None
    decreases k
  {
    assert StepsAt(states, steps, k - 1);
    if j < k - 1 {
      QuietCounter(states, steps, j, k - 1);
      assert SucceedsBetween(steps, j, k) <==> SucceedsBetween(steps, j, k - 1) || steps[k - 1] == Finish(Accepted);
    }
  }

  /**
   In every run, whatever was dropped before: the first submission after a reset or a failed
   broadcast goes by the chain's count, unless the broadcast in hand at the reset succeeds in the
   meantime; then it takes the nonce after that one.
   */
  lemma FirstTurnAfterReset(states: seq<State>, steps: seq<Step>, j: nat, k: nat)
    requires Path(states, steps) && Quiet(steps, j, k) && k < |steps| && steps[k].TakeTurn?
    ensures states[k + 1].turn.Holding?
    ensures !SucceedsBetween(steps, j, k) ==> states[k + 1].turn.nonce == PendingCount(states[k])
    ensures SucceedsBetween(steps, j, k) ==> states[j].turn.Holding? && states[k + 1].turn.nonce == states[j].turn.nonce + 1
  {
    QuietCounter(states, steps, j, k);
    assert StepsAt(states, steps, k);
  }

  /**
   From that submission on, until something is dropped again: the lane never gets ahead of the
   chain's count; every later success has its nonce, one higher than any before it; no more
   broadcasts go out under a taken nonce than there were transactions parked, or turned up late;
   and if there were none, the counter is the chain's count throughout.
   */
  lemma ResyncedForGood(states: seq<State>, steps: seq<Step>, j: nat, k: nat, m: nat)
    requires Path(states, steps) && Quiet(steps, j, k) && k < m < |states| && steps[k].TakeTurn?
    requires !SucceedsBetween(steps, j, k) && NothingDropped(steps, k + 1, m)
    ensures NoGap(states[m]) && SuccessesCount(states[m], |states[k].succeeded|)
    ensures Collisions(states, steps, k + 1, m) <= |Parked(states[k])| + Surfacings(steps, k + 1, m)
    ensures Parked(states[k]) == {} && Undisturbed(steps, k + 1, m) ==> Synced(states[m])
  {
    Resynced(states, steps, j, k);
    var base := |states[k].succeeded|;
    TameStretch(states, steps, k + 1, m, base);
    if Parked(states[k]) == {} && Undisturbed(steps, k + 1, m) {
      NothingComesBetween(states, steps, k + 1, m, base);
    }
  }

  /** With nothing ahead, and undisturbed, the lane goes by the chain's count. */
  lemma NothingComesBetween(states: seq<State>, steps: seq<Step>, k: nat, m: nat, base: nat)
    requires Path(states, steps) && Undisturbed(steps, k, m) && Tame(states[k], base) && Ahead(states[k]) == {}
    ensures Synced(states[m])
  {
    TameStretch(states, steps, k, m, base);
    NoSurfacings(steps, k, m);
    NothingAheadIsSynced(states[m]);
  }

  lemma Resynced(states: seq<State>, steps: seq<Step>, j: nat, k: nat)
    requires Path(states, steps) && Quiet(steps, j, k) && k < |steps| && steps[k].TakeTurn? && !SucceedsBetween(steps, j, k)
    ensures Tame(states[k + 1], |states[k].succeeded|) && Ahead(states[k + 1]) == Parked(states[k])
  {
    FirstTurnAfterReset(states, steps, j, k);
    assert StepsAt(states, steps, k);
    TurnIsTame(states[k], states[k + 1]);
  }

  /** A turn that goes by the chain's count has ahead of it what is parked. */
  lemma TurnIsTame(s: State, s': State)
    requires StepBy(s, s', TakeTurn) && s'.turn.nonce == PendingCount(s)
    ensures Tame(s', |s.succeeded|) && Ahead(s') == Parked(s)
  {
  }

  // ---------------------------------------------------------------------------------
  // What is parked makes the difference
  // ---------------------------------------------------------------------------------

  /** However broadcasts end and whoever resets, undisturbed the lane keeps going by the chain's count. */
  ghost predicate StaysSynced(s: State) {
    forall states, steps :: Calmly(states, steps, s) ==> Synced(states[|steps|])
  }

  ghost predicate Calmly(states: seq<State>, steps: seq<Step>, s: State) {
    Path(states, steps) && states[0] == s && Undisturbed(steps, 0, |steps|)
  }

  /** Undisturbed, a lane in step with the chain stays so if and only if nothing is parked behind a gap. */
  lemma StaysSyncedIff(s: State)
    requires Synced(s)
    ensures StaysSynced(s) <==> Parked(s) == {}
  {
    if Parked(s) == {} {
      assert Ahead(s) == {};
      forall states, steps | Calmly(states, steps, s) ensures Synced(states[|steps|]) {
        NothingComesBetween(states, steps, 0, |steps|, |s.succeeded|);
      }
    } else {
      var p :| p in Parked(s);
      var states, steps := CatchesUp(s, p);
      assert Calmly(states, steps, s);
    }
  }

  /** Successes alone bring the lane up to the first parked transaction, which counts at once. */
  lemma {:induction false} CatchesUp(s: State, p: nat) returns (states: seq<State>, steps: seq<Step>)
    requires Synced(s) && p in s.held && p > PendingCount(s)
    ensures Calmly(states, steps, s) && !Synced(states[|steps|])
    decreases p - PendingCount(s), s.turn.Free?, |s.queue| == 0
  {
    var (step, s') := Onward(s);
    PromotionDesyncs(s, s', step);
    if !Synced(s') {
      states, steps := [s, s'], [step];
    } else {
      var later, rest := CatchesUp(s', p);
      states, steps := [s] + later, [step] + rest;
      Prepended(s, later, step, rest);
    }
  }

  /** What happens if nothing goes wrong: the broadcast in hand succeeds, or the next one takes its turn. */
  function Onward(s: State): (r: (Step, State))
    ensures StepBy(s, r.1, r.0) && (r.0 == Finish(Accepted) || r.0.TakeTurn? || r.0.Arrive?)
  {
    if s.turn.Holding? then (Finish(Accepted), Finished(s, Accepted))
    else if |s.queue| > 0 then (TakeTurn, Taken(s))
    else (Arrive, s.(queue := s.queue + [s.arrived], arrived := s.arrived + 1))
  }

  lemma Prepended(s: State, states: seq<State>, step: Step, steps: seq<Step>)
    requires Path(states, steps) && StepBy(s, states[0], step)
    ensures Path([s] + states, [step] + steps)
  {
    forall k | 0 <= k < |steps| + 1 ensures StepsAt([s] + states, [step] + steps, k) {
      if k > 0 {
        assert StepsAt(states, steps, k - 1);
      }
    }
  }

  /** Undisturbed, counter and chain part company exactly when a success fills the gap before a parked transaction. */
  lemma PromotionDesyncs(s: State, s': State, step: Step)
    requires Synced(s) && StepBy(s, s', step) && !step.Drop? && !step.Surface?
    ensures Synced(s') <==> !(step == Finish(Accepted) && s.turn.nonce + 1 in s.held)
    ensures step == Finish(Accepted) ==> PendingCount(s') > PendingCount(s)
    ensures !step.Finish? ==> PendingCount(s') == PendingCount(s)
  {
    if step == Finish(Accepted) && s.turn.nonce + 1 !in s.held {
      GapIs(s'.held.Keys, s.first, s.turn.nonce + 1);
    }
  }

  /**
   Submissions 0 and 1 hold nonces 0 and 1 and the first is dropped; after a reset, 2 fills the gap.
   Nothing is dropped since the reset, yet the counter is 1 and the chain's count 2.
   */
  lemma PromotedBehindTheCounter() returns (states: seq<State>, steps: seq<Step>)
    ensures Run(states, steps) && |steps| > 7 && steps[7].Reset? && Undisturbed(steps, 7, |steps|)
    ensures var s := states[|steps|];
      s.turn.Free? && s.nextNonce == Some(1) && PendingCount(s) == 2 && s.held == map[0 := 2, 1 := 1]
  {
    var s0 := State(None, [], Free, 0, 0, map[], {}, []);
    var s2 := s0.(queue := [0, 1], arrived := 2);
    var s6 := State(Some(2), [], Free, 2, 0, map[0 := 0, 1 := 1], {}, [(0, 0), (1, 1)]);
    var s7 := s6.(held := map[1 := 1]);
    var s9 := s7.(nextNonce := None, queue := [2], arrived := 3);
    var s10 := s9.(nextNonce := Some(0), queue := [], turn := Holding(2, 0));
    var s11 := State(Some(1), [], Free, 3, 0, map[0 := 2, 1 := 1], {}, [(0, 0), (1, 1), (2, 0)]);
    steps := [Arrive, Arrive, TakeTurn, Finish(Accepted), TakeTurn, Finish(Accepted), Drop(0), Reset, Arrive, TakeTurn, Finish(Accepted)];
    states := [s0, s0.(queue := [0], arrived := 1), s2,
               s2.(nextNonce := Some(0), queue := [1], turn := Holding(0, 0)),
               State(Some(1), [1], Free, 2, 0, map[0 := 0], {}, [(0, 0)]),
               State(Some(1), [], Holding(1, 1), 2, 0, map[0 := 0], {}, [(0, 0)]),
               s6, s7, s7.(nextNonce := None), s9, s10, s11];
    assert s7.held == s6.held - {0};
    assert s11.held == s10.held[0 := 2];
    assert PendingCount(s9) == 0 && 0 in s11.held && 1 in s11.held && 2 !in s11.held;
    forall k | 0 <= k < |steps| ensures StepsAt(states, steps, k) {
    }
  }

  /** A failed broadcast that turns up while its nonce is in hand again leaves the counter behind, with nothing dropped. */
  lemma TooLateDesyncs(s: State, s': State, late: (nat, Submission))
    requires Inv(s) && Synced(s) && StepBy(s, s', Surface(late)) && TooLate(s, Surface(late))
    ensures late.0 == Level(s) == PendingCount(s) == Level(s') && PendingCount(s') == Level(s') + 1
  {
    GapIs(s'.held.Keys, s.first, PendingCount(s) + 1);
  }

  // ---------------------------------------------------------------------------------
  // Resets
  // ---------------------------------------------------------------------------------

  /** Counter and chain come together by a reset exactly between turns, or if they agreed. */
  lemma ResetResyncs(s: State, s': State)
    requires StepBy(s, s', Reset)
    ensures Synced(s') <==> s.turn.Free? || Synced(s)
  {
  }

  /**
   A reset while a stale nonce is being broadcast holds only if that broadcast fails: a success
   writes the stale counter back, which is right only if the nonce was the last before the chain's count.
   */
  lemma ResetMidBroadcast(s: State, s1: State, s2: State, ending: Ending)
    requires s.turn.Holding? && s.first <= s.turn.nonce != PendingCount(s)
    requires StepBy(s, s1, Reset) && StepBy(s1, s2, Finish(ending))
    ensures s2.nextNonce == (if ending.Accepted? then Some(s.turn.nonce + 1) else None)
    ensures Synced(s2) <==> !ending.Accepted? || s.turn.nonce + 1 == PendingCount(s)
  {
    assert forall n :: n in s.held ==> n in s2.held;
    assert PendingCount(s) !in s2.held;
  }

  // ---------------------------------------------------------------------------------
  // One turn, as the service runs it
  // ---------------------------------------------------------------------------------

  /** Three steps of the lane: a turn is taken, a reset may come, the broadcast ends. */
  ghost predicate OneTurn(s: State, s': State, nonce: nat, ending: Ending, reset: bool) {
    exists held, waiting ::
      && StepBy(s, held, TakeTurn) && held.turn == Holding(s.queue[0], nonce)
      && (if reset then StepBy(held, waiting, Reset) else waiting == held)
      && StepBy(waiting, s', Finish(ending))
  }

  function TurnDone(s: State, ending: Ending, reset: bool): State
    requires |s.queue| > 0
  {
    Finished(if reset then Taken(s).(nextNonce := None) else Taken(s), ending)
  }

  lemma TurnIsThreeSteps(s: State, ending: Ending, reset: bool)
    requires s.turn.Free? && |s.queue| > 0
    ensures OneTurn(s, TurnDone(s, ending, reset), Taken(s).turn.nonce, ending, reset)
    ensures Synced(s) ==> Taken(s).turn.nonce == PendingCount(s)
    ensures Synced(s) && !(ending.Accepted? && PendingCount(s) + 1 in s.held) ==> Synced(TurnDone(s, ending, reset))
  {
    var held, done := Taken(s), TurnDone(s, ending, reset);
    var waiting := if reset then held.(nextNonce := None) else held;
    assert StepBy(s, held, TakeTurn) && StepBy(waiting, done, Finish(ending));
    assert reset ==> StepBy(held, waiting, Reset);
    if Synced(s) {
      PromotionDesyncs(waiting, done, Finish(ending));
    }
  }

  class BaseService {
    var nextNonce: Option<nat>

    constructor ()
      ensures nextNonce == None
    {
      nextNonce := None;
    }

    method ResetNonceLane()
      modifies this
      ensures nextNonce == None
    {
      nextNonce := None;
    }

    /**
     A turn of the lane: `s` is the story so far, `pendingCount` the chain's answer, `ending` what
     becomes of the broadcast, and `reset` whether somebody resets the lane while it is under way.
     */
    method SubmitBuyTickets(ghost s: State, pendingCount: nat, ending: Ending, reset: bool) returns (nonce: nat, ghost s': State)
      requires s.turn.Free? && |s.queue| > 0 && s.nextNonce == nextNonce && PendingCount(s) == pendingCount
      modifies this
      ensures OneTurn(s, s', nonce, ending, reset) && nextNonce == s'.nextNonce
      ensures Synced(s) ==> nonce == pendingCount
      ensures Synced(s) && !(ending.Accepted? && nonce + 1 in s.held) ==> Synced(s')
      ensures ending.Accepted? ==> s'.succeeded == s.succeeded + [(s.queue[0], nonce)]
    {
      if nextNonce.None? {
        nextNonce := Some(pendingCount);
      }
      nonce := nextNonce.value;
      if reset {
        ResetNonceLane();
      }
      s' := TurnDone(s, ending, reset);
      TurnIsThreeSteps(s, ending, reset);
      if ending.Accepted? {
        nextNonce := Some(nonce + 1);
      } else {
        ResetNonceLane();
      }
    }
  }
}
