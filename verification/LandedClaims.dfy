/**
 The backwards walk over the admin key's signature history that discovers which claim
 vouchers have landed (backend/src/services/solanaService.ts, findLandedClaims), together
 with its bounded cache of decoded transactions.

 The chain is an oracle.  A history lists signatures oldest first and only ever grows at
 its end; the RPC serves it newest first, a page at a time.  A transaction body is either
 returned, in which case it is the true one, or not available yet.
 */
module LandedClaims {
  import opened Wrappers

  /** Signatures and wallets are only ever compared for equality. */
  type Signature = int
  type Wallet = int

  datatype ClaimEvent = ClaimEvent(wallet: Wallet, amount: nat)

  datatype SigInfo = SigInfo(signature: Signature, slot: nat, blockTime: Option<int>, failed: bool)

  datatype Landed = Landed(
    wallet: Wallet,
    amount: nat,
    signature: Signature,
    slot: nat,
    blockTime: Option<int>,
    failed: bool)

  type History = seq<SigInfo>

  const PAGE: nat := 200
  const MAX_PAGES: nat := 25
  const CLAIM_CACHE_MAX: nat := 5_000

  // ---------------------------------------------------------------------------------
  // Specification
  // ---------------------------------------------------------------------------------

  predicate OlderThan(s: SigInfo, notBefore: int) {
    s.blockTime.Some? && s.blockTime.value < notBefore
  }

  ghost predicate Distinct(h: History) {
    forall i, j :: 0 <= i < j < |h| ==> h[i].signature != h[j].signature
  }

  /** The newest entries of `h`, newest first, up to the first one known to be too old. */
  function Window(h: History, notBefore: int): (w: seq<SigInfo>)
    ensures |w| <= |h|
  {
    if |h| == 0 || OlderThan(h[|h| - 1], notBefore) then []
    else [h[|h| - 1]] + Window(h[..|h| - 1], notBefore)
  }

  function LandedOf(s: SigInfo, events: seq<ClaimEvent>): seq<Landed> {
    seq(|events|, i requires 0 <= i < |events| =>
      Landed(events[i].wallet, events[i].amount, s.signature, s.slot, s.blockTime, s.failed))
  }

  /** Every claim event of the listed transactions, in list order. */
  function Decode(body: Signature -> seq<ClaimEvent>, w: seq<SigInfo>): seq<Landed> {
    if |w| == 0 then []
    else Decode(body, w[..|w| - 1]) + LandedOf(w[|w| - 1], body(w[|w| - 1].signature))
  }

  /** What the walk reads when the signatures in `missed` came back without a body. */
  function Except(body: Signature -> seq<ClaimEvent>, missed: set<Signature>): Signature -> seq<ClaimEvent> {
    (s: Signature) => if s in missed then [] else body(s)
  }

  /** The part of the window that the page ceiling lets the walk examine. */
  function Examined(h: History, notBefore: int): (w: seq<SigInfo>) {
    var all := Window(h, notBefore);
    if |all| <= PAGE * MAX_PAGES then all else all[..PAGE * MAX_PAGES]
  }

  function PositionOf(h: History, signature: Signature): (k: nat)
    ensures k <= |h|
    ensures k < |h| ==> h[k].signature == signature
    ensures forall i :: 0 <= i < k ==> h[i].signature != signature
  {
    if |h| == 0 then 0
    else if h[0].signature == signature then 0
    else 1 + PositionOf(h[1..], signature)
  }

  /** getSignaturesForAddress: the newest `limit` signatures strictly older than `before`. */
  function PageOf(h: History, before: Option<Signature>, limit: nat): (page: seq<SigInfo>)
    ensures |page| <= limit
  {
    var end := if before.None? then |h| else PositionOf(h, before.value);
    var size := Min(end, limit);
    seq(size, j requires 0 <= j < size => h[end - 1 - j])
  }

  // ---------------------------------------------------------------------------------
  // Facts about the specification
  // ---------------------------------------------------------------------------------

  lemma PositionIn(h: History, older: History, k: nat)
    requires older <= h && Distinct(h) && k < |older|
    ensures PositionOf(h, older[k].signature) == k
  {
    var p := PositionOf(h, older[k].signature);
    assert h[k] == older[k];
    assert p <= k;
  }

  /** Position `j` of the window is the `j`-th newest entry; the window stops only at one too old. */
  lemma {:induction false} WindowAt(h: History, notBefore: int, j: nat)
    requires j < |h| && j <= |Window(h, notBefore)|
    ensures j < |Window(h, notBefore)| <==> h[|h| - 1 - j].blockTime.None? || h[|h| - 1 - j].blockTime.value >= notBefore
    ensures j < |Window(h, notBefore)| ==> Window(h, notBefore)[j] == h[|h| - 1 - j]
  {
    if j > 0 {
      WindowAt(h[..|h| - 1], notBefore, j - 1);
    }
  }

  lemma {:induction false} DecodeAgrees(f: Signature -> seq<ClaimEvent>, g: Signature -> seq<ClaimEvent>, w: seq<SigInfo>)
    requires forall i :: 0 <= i < |w| ==> f(w[i].signature) == g(w[i].signature)
    ensures Decode(f, w) == Decode(g, w)
  {
    if |w| > 0 {
      var front := w[..|w| - 1];
      assert forall i :: 0 <= i < |front| ==> front[i] == w[i];
      DecodeAgrees(f, g, front);
    }
  }

  /** The entry is one of the events, with its transaction's signature, slot, time and outcome. */
  ghost predicate EmittedBy(l: Landed, s: SigInfo, events: seq<ClaimEvent>) {
    && l.signature == s.signature && l.slot == s.slot && l.blockTime == s.blockTime && l.failed == s.failed
    && exists k :: 0 <= k < |events| && events[k].wallet == l.wallet && events[k].amount == l.amount
  }

  lemma EmittedIsListed(l: Landed, s: SigInfo, events: seq<ClaimEvent>)
    ensures EmittedBy(l, s, events) <==> l in LandedOf(s, events)
  {
    if EmittedBy(l, s, events) {
      var k :| 0 <= k < |events| && events[k].wallet == l.wallet && events[k].amount == l.amount;
      assert LandedOf(s, events)[k] == l;
    }
  }

  /** Each decoded entry comes from exactly one listed transaction and one of its events. */
  lemma {:induction false} DecodeSound(body: Signature -> seq<ClaimEvent>, w: seq<SigInfo>, l: Landed)
    requires l in Decode(body, w)
    ensures exists i :: 0 <= i < |w| && l in LandedOf(w[i], body(w[i].signature))
    ensures exists i :: 0 <= i < |w| && EmittedBy(l, w[i], body(w[i].signature))
  {
    var front := w[..|w| - 1];
    if l in Decode(body, front) {
      DecodeSound(body, front, l);
      var i :| 0 <= i < |front| && l in LandedOf(front[i], body(front[i].signature));
      assert front[i] == w[i];
      EmittedIsListed(l, w[i], body(w[i].signature));
    } else {
      EmittedIsListed(l, w[|w| - 1], body(w[|w| - 1].signature));
    }
  }

  lemma {:induction false} DecodeComplete(body: Signature -> seq<ClaimEvent>, w: seq<SigInfo>, i: nat)
    requires i < |w|
    ensures forall l :: l in LandedOf(w[i], body(w[i].signature)) ==> l in Decode(body, w)
    ensures forall l :: EmittedBy(l, w[i], body(w[i].signature)) ==> l in Decode(body, w)
  {
    forall l | EmittedBy(l, w[i], body(w[i].signature)) ensures l in LandedOf(w[i], body(w[i].signature)) {
      EmittedIsListed(l, w[i], body(w[i].signature));
    }
    if i < |w| - 1 {
      var front := w[..|w| - 1];
      assert front[i] == w[i];
      DecodeComplete(body, front, i);
    }
  }

  function CountOf(claims: seq<Landed>, signature: Signature): nat {
    if |claims| == 0 then 0
    else CountOf(claims[..|claims| - 1], signature) + (if claims[|claims| - 1].signature == signature then 1 else 0)
  }

  lemma {:induction false} CountConcat(a: seq<Landed>, b: seq<Landed>, signature: Signature)
    ensures CountOf(a + b, signature) == CountOf(a, signature) + CountOf(b, signature)
  {
    if |b| == 0 {
      assert a + b == a;
    } else {
      assert (a + b)[..|a + b| - 1] == a + b[..|b| - 1];
      CountConcat(a, b[..|b| - 1], signature);
    }
  }

  lemma {:induction false} CountUniform(claims: seq<Landed>, of: Signature, signature: Signature)
    requires forall i :: 0 <= i < |claims| ==> claims[i].signature == of
    ensures CountOf(claims, signature) == if of == signature then |claims| else 0
  {
    if |claims| > 0 {
      CountUniform(claims[..|claims| - 1], of, signature);
    }
  }

  /** No transaction is decoded twice: a listed signature contributes exactly its own events. */
  lemma {:induction false} DecodeExactlyOnce(body: Signature -> seq<ClaimEvent>, w: seq<SigInfo>, signature: Signature)
    requires Distinct(w)
    ensures (exists i :: 0 <= i < |w| && w[i].signature == signature)
            ==> CountOf(Decode(body, w), signature) == |body(signature)|
    ensures (forall i :: 0 <= i < |w| ==> w[i].signature != signature)
            ==> CountOf(Decode(body, w), signature) == 0
  {
    if |w| > 0 {
      var front, last := w[..|w| - 1], w[|w| - 1];
      assert forall i :: 0 <= i < |front| ==> front[i] == w[i];
      DecodeExactlyOnce(body, front, signature);
      var own := LandedOf(last, body(last.signature));
      CountUniform(own, last.signature, signature);
      CountConcat(Decode(body, front), own, signature);
      if last.signature == signature {
        assert forall i :: 0 <= i < |front| ==> front[i].signature != signature;
      } else if i :| 0 <= i < |w| && w[i].signature == signature {
        assert front[i] == w[i];
      }
    }
  }

  lemma WindowDistinct(h: History, notBefore: int)
    requires Distinct(h)
    ensures Distinct(Window(h, notBefore))
    ensures Distinct(Examined(h, notBefore))
  {
    var w := Window(h, notBefore);
    forall i, j | 0 <= i < j < |w| ensures w[i].signature != w[j].signature {
      WindowAt(h, notBefore, i);
      WindowAt(h, notBefore, j);
    }
  }

  /** No entry listed after position `k` is dated before `bound`. */
  ghost predicate NothingEarlierAfter(h: History, k: nat, bound: int) {
    forall i :: k <= i < |h| && h[i].blockTime.Some? ==> bound <= h[i].blockTime.value
  }

  lemma WindowCovers(h: History, notBefore: int, k: nat)
    requires k < |h| && NothingEarlierAfter(h, k, notBefore)
    ensures |h| - 1 - k < |Window(h, notBefore)|
    ensures Window(h, notBefore)[|h| - 1 - k] == h[k]
  {
    var size := |Window(h, notBefore)|;
    if size <= |h| - 1 - k {
      WindowAt(h, notBefore, size);
    }
    WindowAt(h, notBefore, |h| - 1 - k);
  }

  /**
   A complete walk misses nothing: when block times do not run backwards, a transaction that
   is not older than the bound lies in the examined part, and the claim events found for it
   are exactly its own.
   */
  lemma CompleteWalkMissesNothing(h: History, notBefore: int, body: Signature -> seq<ClaimEvent>, k: nat)
    requires Distinct(h)
    requires |Window(h, notBefore)| < PAGE * MAX_PAGES
    requires k < |h| && NothingEarlierAfter(h, k, notBefore)
    ensures h[k] in Examined(h, notBefore)
    ensures CountOf(Decode(body, Examined(h, notBefore)), h[k].signature) == |body(h[k].signature)|
  {
    WindowCovers(h, notBefore, k);
    WindowDistinct(h, notBefore);
    DecodeExactlyOnce(body, Window(h, notBefore), h[k].signature);
  }

  /**
   A body the RPC could not return is read as "no claim in it" while the walk still reports
   itself complete.  The list is right exactly when no claim-bearing transaction was missed.
   */
  lemma MissedBodiesMatter(w: seq<SigInfo>, body: Signature -> seq<ClaimEvent>, missed: set<Signature>)
    requires Distinct(w)
    ensures Decode(Except(body, missed), w) == Decode(body, w)
            <==> forall i :: 0 <= i < |w| && w[i].signature in missed ==> body(w[i].signature) == []
  {
    var seen := Except(body, missed);
    if forall i :: 0 <= i < |w| && w[i].signature in missed ==> body(w[i].signature) == [] {
      DecodeAgrees(seen, body, w);
    } else {
      var i :| 0 <= i < |w| && w[i].signature in missed && body(w[i].signature) != [];
      DecodeExactlyOnce(body, w, w[i].signature);
      DecodeExactlyOnce(seen, w, w[i].signature);
    }
  }

  /** A body that is returned is the true one. */
  ghost predicate Faithful(rpc: Signature -> Option<seq<ClaimEvent>>, body: Signature -> seq<ClaimEvent>) {
    forall s :: rpc(s).Some? ==> rpc(s).value == body(s)
  }

  ghost predicate Unavailable(missed: set<Signature>, rpc: Signature -> Option<seq<ClaimEvent>>) {
    forall s :: s in missed ==> rpc(s).None?
  }

  /** New transactions only ever appear at the tip. */
  ghost predicate Growing(histories: seq<History>)
    requires |histories| > 0
  {
    forall i :: 0 <= i < |histories| ==> histories[0] <= histories[i] && Distinct(histories[i])
  }

  // ---------------------------------------------------------------------------------
  // The service
  // ---------------------------------------------------------------------------------

  /** A JavaScript Map used as a first-in first-out cache: `order` is its insertion order. */
  class ClaimDecodeCache {
    var order: seq<Signature>
    var entries: map<Signature, seq<ClaimEvent>>

    ghost predicate Valid()
      reads this
    {
      && (forall i, j :: 0 <= i < j < |order| ==> order[i] != order[j])
      && (forall s :: s in entries <==> s in order)
      && |order| <= CLAIM_CACHE_MAX
    }

    /** Every remembered body is the transaction's true one. */
    ghost predicate Truthful(body: Signature -> seq<ClaimEvent>)
      reads this
    {
      forall s :: s in entries ==> entries[s] == body(s)
    }

    constructor ()
      ensures Valid() && order == [] && entries == map[]
    {
      order, entries := [], map[];
    }

    /** Remembers a body, first forgetting the oldest one when the cache is full. */
    method Remember(signature: Signature, events: seq<ClaimEvent>)
      requires Valid() && signature !in entries
      modifies this
      ensures Valid()
      ensures order == (if |old(order)| >= CLAIM_CACHE_MAX then old(order)[1..] else old(order)) + [signature]
      ensures entries.Keys == (set s | s in order)
      ensures forall s :: s in entries ==> entries[s] == if s == signature then events else if s in old(entries) then old(entries)[s] else []
      ensures forall s :: s in entries && s != signature ==> s in old(entries)
    {
      if |order| >= CLAIM_CACHE_MAX {
        var oldest := order[0];
        ghost var before := order;
        order := order[1..];
        entries := map s | s in entries && s != oldest :: entries[s];
        assert forall s :: s in order ==> s in before;
        forall s | s in before && s != oldest ensures s in order {
          var i :| 0 <= i < |before| && before[i] == s;
          assert order[i - 1] == s;
        }
      }
      order := order + [signature];
      entries := entries[signature := events];
    }
  }

  class SolanaService {
    const cache: ClaimDecodeCache

    ghost predicate Valid(body: Signature -> seq<ClaimEvent>)
      reads this, cache
    {
      cache.Valid() && cache.Truthful(body)
    }

    constructor ()
      ensures fresh(cache) && cache.Valid() && cache.entries == map[]
    {
      cache := new ClaimDecodeCache();
    }

    /**
     One transaction's claim events: from the cache if remembered, otherwise from the RPC.
     Only a body that was actually returned is remembered.
     */
    method DecodeCached(signature: Signature, rpc: Signature -> Option<seq<ClaimEvent>>, ghost body: Signature -> seq<ClaimEvent>)
      returns (events: seq<ClaimEvent>)
      requires Valid(body)
      requires Faithful(rpc, body)
      modifies cache
      ensures Valid(body)
      ensures events == body(signature)
              || (events == [] && rpc(signature).None? && signature !in old(cache.entries))
      ensures rpc(signature).Some? ==> events == body(signature)
    {
      if signature in cache.entries {
        return cache.entries[signature];
      }
      var parsed := rpc(signature);
      events := if parsed.Some? then parsed.value else [];
      if parsed.Some? {
        cache.Remember(signature, events);
      }
    }

    /** One RPC request; below the `at` newest entries it lists the next ones of the first history. */
    method RequestPage(now: History, before: Option<Signature>, ghost h: History, ghost at: nat) returns (sigs: seq<SigInfo>)
      requires h <= now && Distinct(now) && at <= |h|
      requires at == 0 ==> before.None? && h == now
      requires at > 0 ==> before == Some(h[|h| - at].signature)
      ensures |sigs| == Min(|h| - at, PAGE)
      ensures forall i :: 0 <= i < |sigs| ==> sigs[i] == h[|h| - 1 - (at + i)]
    {
      sigs := PageOf(now, before, PAGE);
      if at > 0 {
        PositionIn(now, h, |h| - at);
      }
    }

    /** The page's i-th entry is in the window exactly when it is not known to be too old. */
    static lemma PageEntry(sigs: seq<SigInfo>, notBefore: int, h: History, at: nat, i: nat)
      requires at + |sigs| <= |h| && i < |sigs| && at + i <= |Window(h, notBefore)|
      requires sigs[i] == h[|h| - 1 - (at + i)]
      ensures OlderThan(sigs[i], notBefore) <==> at + i == |Window(h, notBefore)|
      ensures at + i < |Window(h, notBefore)| ==> Window(h, notBefore)[at + i] == sigs[i]
    {
      WindowAt(h, notBefore, at + i);
    }

    /**
     Examines the transactions of one page.  It stops early, with `reached`, at the first one
     known to be older than the bound.
     */
    method ReadPage(
        sigs: seq<SigInfo>,
        notBefore: int,
        rpc: Signature -> Option<seq<ClaimEvent>>,
        collected: seq<Landed>,
        ghost body: Signature -> seq<ClaimEvent>,
        ghost h: History,
        ghost at: nat,
        ghost known: set<Signature>)
      returns (claims: seq<Landed>, reached: bool, ghost missed: set<Signature>)
      requires Valid(body) && Distinct(h)
      requires Faithful(rpc, body)
      requires at <= |Window(h, notBefore)| && at + |sigs| <= |h|
      requires forall i :: 0 <= i < |sigs| ==> sigs[i] == h[|h| - 1 - (at + i)]
      requires WalkSoFar(h, notBefore, rpc, body, at, collected, known)
      modifies cache
      ensures Valid(body)
      ensures reached <==> |Window(h, notBefore)| < at + |sigs|
      ensures WalkSoFar(h, notBefore, rpc, body, if reached then |Window(h, notBefore)| else at + |sigs|, claims, missed)
    {
      claims, reached, missed := collected, false, known;
      var i := 0;
      while i < |sigs|
        invariant i <= |sigs|
        invariant Valid(body)
        invariant at + i <= |Window(h, notBefore)|
        invariant WalkSoFar(h, notBefore, rpc, body, at + i, claims, missed)
      {
        PageEntry(sigs, notBefore, h, at, i);
        if OlderThan(sigs[i], notBefore) {
          reached := true;
          return;
        }
        claims, missed := ReadEntry(sigs[i], notBefore, rpc, claims, body, h, at + i, missed);
        i := i + 1;
      }
    }

    /** One listed transaction that is not too old. */
    method ReadEntry(
        s: SigInfo,
        notBefore: int,
        rpc: Signature -> Option<seq<ClaimEvent>>,
        collected: seq<Landed>,
        ghost body: Signature -> seq<ClaimEvent>,
        ghost h: History,
        ghost n: nat,
        ghost known: set<Signature>)
      returns (claims: seq<Landed>, ghost missed: set<Signature>)
      requires Valid(body) && Distinct(h) && Faithful(rpc, body)
      requires n < |Window(h, notBefore)| && Window(h, notBefore)[n] == s
      requires WalkSoFar(h, notBefore, rpc, body, n, collected, known)
      modifies cache
      ensures Valid(body)
      ensures WalkSoFar(h, notBefore, rpc, body, n + 1, claims, missed)
    {
      var events := DecodeCached(s.signature, rpc, body);
      missed := if events != body(s.signature) then known + {s.signature} else known;
      ExtendWalk(h, notBefore, rpc, body, known, missed, n, collected, events);
      claims := collected + LandedOf(s, events);
    }

    /**
     One turn of the paging loop: requests the page below the `at` newest entries and reads
     it.  `complete` says the walk is over; otherwise `next` is where the next page starts.
     */
    method WalkPage(
        now: History,
        before: Option<Signature>,
        notBefore: int,
        rpc: Signature -> Option<seq<ClaimEvent>>,
        collected: seq<Landed>,
        ghost body: Signature -> seq<ClaimEvent>,
        ghost h: History,
        ghost at: nat,
        ghost known: set<Signature>)
      returns (claims: seq<Landed>, complete: bool, next: Option<Signature>, ghost missed: set<Signature>)
      requires Valid(body) && Faithful(rpc, body)
      requires h <= now && Distinct(now) && at <= |Window(h, notBefore)|
      requires at == 0 ==> before.None? && h == now
      requires at > 0 ==> before == Some(h[|h| - at].signature)
      requires WalkSoFar(h, notBefore, rpc, body, at, collected, known)
      modifies cache
      ensures Valid(body)
      ensures complete <==> |Window(h, notBefore)| < at + PAGE
      ensures WalkSoFar(h, notBefore, rpc, body, Min(|Window(h, notBefore)|, at + PAGE), claims, missed)
      ensures !complete ==> next == Some(h[|h| - (at + PAGE)].signature)
    {
      claims, complete, next, missed := collected, false, None, known;
      var sigs := RequestPage(now, before, h, at);
      if |sigs| == 0 {
        complete := true;
        return;
      }
      var reached;
      claims, reached, missed := ReadPage(sigs, notBefore, rpc, claims, body, h, at, missed);
      if reached || |sigs| < PAGE {
        complete := true;
        return;
      }
      next := Some(sigs[|sigs| - 1].signature);
    }

    /**
     The walk.  `histories[i]` is the admin key's history when page `i` is requested; it may
     grow between pages.  `missed` names the examined transactions whose body was unavailable.

     Whatever the page boundaries, the cache content and the later arrivals, the result is
     the decoded window of the history as it stood at the first request, cut at the page
     ceiling, and `complete` tells exactly whether the ceiling cut anything off.
     */
    method FindLandedClaims(
        notBefore: int,
        histories: seq<History>,
        rpc: Signature -> Option<seq<ClaimEvent>>,
        ghost body: Signature -> seq<ClaimEvent>)
      returns (claims: seq<Landed>, complete: bool, ghost missed: set<Signature>)
      requires |histories| == MAX_PAGES && Growing(histories)
      requires Faithful(rpc, body)
      requires Valid(body)
      modifies cache
      ensures Valid(body)
      ensures complete <==> |Window(histories[0], notBefore)| < PAGE * MAX_PAGES
      ensures claims == Decode(Except(body, missed), Examined(histories[0], notBefore))
      ensures Unavailable(missed, rpc)
    {
      claims, complete, missed := [], false, {};
      var before: Option<Signature> := None;
      ghost var h := histories[0];
      ghost var at: nat := 0;
      WalkStarts(h, notBefore, rpc, body);
      var page := 0;
      while page < MAX_PAGES && !complete
        invariant page <= MAX_PAGES && at == 200 * page
        invariant Valid(body)
        invariant complete <==> |Window(h, notBefore)| < at
        invariant !complete ==> before == if page == 0 then None else Some(h[|h| - at].signature)
        invariant WalkSoFar(h, notBefore, rpc, body, Min(|Window(h, notBefore)|, at), claims, missed)
        decreases MAX_PAGES - page
      {
        claims, complete, before, missed := WalkPage(histories[page], before, notBefore, rpc, claims, body, h, at, missed);
        page, at := page + 1, at + PAGE;
      }
      WalkEnds(h, notBefore, rpc, body, Min(|Window(h, notBefore)|, at), claims, missed);
    }
  }

  /** What the walk knows after examining the `n` newest entries of `h`. */
  ghost predicate WalkSoFar(
      h: History,
      notBefore: int,
      rpc: Signature -> Option<seq<ClaimEvent>>,
      body: Signature -> seq<ClaimEvent>,
      n: nat,
      claims: seq<Landed>,
      missed: set<Signature>)
  {
    && n <= |Window(h, notBefore)|
    && claims == Decode(Except(body, missed), Window(h, notBefore)[..n])
    && Unavailable(missed, rpc)
    && (forall s :: s in missed ==> exists j :: 0 <= j < n && Window(h, notBefore)[j].signature == s)
  }

  lemma WalkStarts(h: History, notBefore: int, rpc: Signature -> Option<seq<ClaimEvent>>, body: Signature -> seq<ClaimEvent>)
    ensures WalkSoFar(h, notBefore, rpc, body, 0, [], {})
  {
    assert Window(h, notBefore)[..0] == [];
  }

  lemma WalkEnds(
      h: History,
      notBefore: int,
      rpc: Signature -> Option<seq<ClaimEvent>>,
      body: Signature -> seq<ClaimEvent>,
      n: nat,
      claims: seq<Landed>,
      missed: set<Signature>)
    requires n == Min(|Window(h, notBefore)|, PAGE * MAX_PAGES)
    requires WalkSoFar(h, notBefore, rpc, body, n, claims, missed)
    ensures claims == Decode(Except(body, missed), Examined(h, notBefore))
  {
    var w := Window(h, notBefore);
    assert w[..|w|] == w;
  }

  /** Reading one more entry of the window leaves what was read before unchanged. */
  lemma ExtendWalk(
      h: History,
      notBefore: int,
      rpc: Signature -> Option<seq<ClaimEvent>>,
      body: Signature -> seq<ClaimEvent>,
      known: set<Signature>,
      missed: set<Signature>,
      n: nat,
      claims: seq<Landed>,
      events: seq<ClaimEvent>)
    requires Distinct(h) && n < |Window(h, notBefore)|
    requires WalkSoFar(h, notBefore, rpc, body, n, claims, known)
    requires var s := Window(h, notBefore)[n].signature;
             if events == body(s) then missed == known
             else missed == known + {s} && events == [] && rpc(s).None?
    ensures WalkSoFar(h, notBefore, rpc, body, n + 1, claims + LandedOf(Window(h, notBefore)[n], events), missed)
  {
    var w := Window(h, notBefore);
    WindowDistinct(h, notBefore);
    assert w[n].signature !in known;
    assert w[..n + 1][..n] == w[..n];
    DecodeAgrees(Except(body, missed), Except(body, known), w[..n]);
    forall s | s in missed ensures exists j :: 0 <= j < n + 1 && w[j].signature == s {
      if s in known {
        var j :| 0 <= j < n && w[j].signature == s;
      } else {
        assert w[n].signature == s;
      }
    }
  }
}
