/**
 The confirmer's tick and the voucher route, run without interruption, are paths of the voucher
 protocol: what is proved of every interleaving holds of them.
 */
module PayoutPaths {
  import opened Wrappers
  import opened LandedClaims
  import opened PayoutDb
  import opened PayoutConfirmer
  import opened ClaimsRoute
  import opened PayoutProtocol
  import opened PayoutEveryRun

  // ---------------------------------------------------------------------------------
  // The tick's loop takes exactly these steps
  // ---------------------------------------------------------------------------------

  /** Some steps lead from one state to the other. */
  ghost predicate Leads(t: Timing, s: State, s': State) {
    exists path :: Path(t, path, s, s')
  }

  ghost predicate Path(t: Timing, path: seq<State>, s: State, s': State) {
    && |path| > 0 && path[0] == s && path[|path| - 1] == s'
    && forall k :: 0 <= k < |path| - 1 ==> StepsAt(t, path, k)
  }

  lemma LeadsOn(t: Timing, s: State, s1: State, s2: State)
    requires Next(t, s, s1) && Leads(t, s1, s2)
    ensures Leads(t, s, s2)
  {
    var path :| Path(t, path, s1, s2);
    var longer := [s] + path;
    forall k | 0 <= k < |longer| - 1 ensures StepsAt(t, longer, k) {
      if k > 0 {
        assert StepsAt(t, path, k - 1);
      }
    }
    assert Path(t, longer, s, s2);
  }

  ghost predicate Ticking(clock: seq<int>, from: int, until: int) {
    && (forall k :: 0 <= k < |clock| ==> from <= clock[k] <= until)
    && (forall j, k :: 0 <= j < k < |clock| ==> clock[j] <= clock[k])
  }

  /**
   An undisturbed rest of a tick is a path of the protocol, and it leaves the rows exactly as
   the tick's loop does.
   */
  lemma {:induction false} TickIsAPath(t: Timing, s: State, clock: seq<int>, failing: set<ClaimId>) returns (s': State)
    requires s.tick.Resolving? && s.tick.next <= |s.tick.rows| && |clock| == |s.tick.rows| - s.tick.next
    requires Ticking(clock, s.now, s.tick.readAt + t.tickSpan)
    ensures Leads(t, s, s')
    ensures s'.db == ResolveAll(s.db, s.tick.rows[s.tick.next..], Sweep(s.tick.landed, s.tick.complete, s.tick.height), s.tick.used, clock, failing)
    ensures s'.chain == s.chain && s'.landing == s.landing && s'.height == s.height
    decreases |clock|
  {
    if |clock| == 0 {
      s' := s;
      assert Path(t, [s], s, s);
    } else {
      var s1 := s.(now := clock[0]);
      var fails := Row(s).id in failing;
      var verdict := VerdictOf(s1);
      var s2 := s1.(db := if fails then s1.db else Carry(s1.db, Row(s).id, verdict), tick := AfterVerdict(s1.tick, verdict, fails));
      assert StepBy(t, s, s1, Advance(s.height, clock[0]));
      assert StepBy(t, s1, s2, TickResolve(fails));
      assert forall k :: 0 <= k < |clock| - 1 ==> clock[1..][k] == clock[k + 1];
      s' := TickIsAPath(t, s2, clock[1..], failing);
      LeadsOn(t, s1, s2, s');
      LeadsOn(t, s, s1, s');
      assert s.tick.rows[s.tick.next..][1..] == s.tick.rows[s.tick.next + 1..];
    }
  }

  // ---------------------------------------------------------------------------------
  // The voucher route takes exactly these steps
  // ---------------------------------------------------------------------------------

  lemma LeadsThen(t: Timing, s: State, s1: State, s2: State, step: Step)
    requires Leads(t, s, s1) && StepBy(t, s1, s2, step)
    ensures Leads(t, s, s2)
  {
    var path :| Path(t, path, s, s1);
    var longer := path + [s2];
    assert Next(t, s1, s2);
    forall k | 0 <= k < |longer| - 1 ensures StepsAt(t, longer, k) {
      if k < |path| - 1 {
        assert StepsAt(t, path, k);
      }
    }
    assert Path(t, longer, s, s2);
  }

  /** A request up to where it knows its amount. */
  function Summing(s: State, id: ClaimId, wallet: Wallet, revealed: set<int>): State {
    s.(db := BindTickets(CreateClaim(s.db, id, wallet, s.now), id, wallet, revealed),
       ids := s.ids + {id},
       routes := s.routes[id := Summed(ClaimableSum(s.db.tickets, wallet, revealed))])
  }

  lemma SummingIsAPath(t: Timing, s: State, id: ClaimId, wallet: Wallet, revealed: set<int>)
    requires id !in s.ids && Unreferenced(s.db.tickets, id)
    ensures Leads(t, s, Summing(s, id, wallet, revealed))
  {
    var s1 := s.(db := CreateClaim(s.db, id, wallet, s.now), ids := s.ids + {id}, routes := s.routes[id := Route.Created]);
    var s2 := s1.(db := BindTickets(s1.db, id, wallet, revealed), routes := s.routes[id := Bound]);
    assert Path(t, [s], s, s);
    LeadsThen(t, s, s, s1, RouteCreate(id, wallet));
    assert s1.routes[id := Bound] == s.routes[id := Bound];
    LeadsThen(t, s, s1, s2, RouteBind(id, revealed));
    BoundIsClaimable(s.db.tickets, id, wallet, revealed);
    assert s2.routes[id := Summed(ClaimableSum(s.db.tickets, wallet, revealed))] == Summing(s, id, wallet, revealed).routes;
    LeadsThen(t, s, s2, Summing(s, id, wallet, revealed), RouteSum(id));
  }

  /** An undisturbed request that succeeds leaves the rows exactly as IssueVoucher does. */
  lemma IssueIsAPath(t: Timing, s: State, id: ClaimId, wallet: Wallet, revealed: set<int>, lastValidBlockHeight: nat) returns (s': State)
    requires id !in s.ids && id !in s.routes && Unreferenced(s.db.tickets, id)
    requires ClaimableSum(s.db.tickets, wallet, revealed) > 0
    requires InOrder(t, Summing(s, id, wallet, revealed), id, ClaimableSum(s.db.tickets, wallet, revealed), lastValidBlockHeight)
    ensures Leads(t, s, s') && s'.routes == s.routes
    ensures s'.db == Db(BindAll(s.db.tickets, id, wallet, revealed),
                        s.db.claims[id := Claim(wallet, ClaimableSum(s.db.tickets, wallet, revealed), Pending, None, Some(lastValidBlockHeight), s.now)])
  {
    SummingIsAPath(t, s, id, wallet, revealed);
    var s1 := Summing(s, id, wallet, revealed);
    var due := ClaimableSum(s.db.tickets, wallet, revealed);
    s' := s1.(db := StampVoucher(s1.db, id, due, lastValidBlockHeight), routes := s1.routes - {id});
    LeadsThen(t, s, s1, s', RouteHandOut(id, lastValidBlockHeight));
    assert s'.routes == s.routes;
  }

  /** An undisturbed request that is refused leaves no trace but its spent id. */
  lemma RefusalIsAPath(t: Timing, s: State, id: ClaimId, wallet: Wallet, revealed: set<int>) returns (s': State)
    requires id !in s.ids && id !in s.routes && id !in s.db.claims && Unreferenced(s.db.tickets, id)
    ensures Leads(t, s, s') && s' == s.(ids := s.ids + {id})
  {
    SummingIsAPath(t, s, id, wallet, revealed);
    DeleteUndoesCreate(s.db, id, wallet, revealed, s.now);
    var s1 := Summing(s, id, wallet, revealed);
    var s2 := s1.(db := UnbindTickets(s1.db, id), routes := s1.routes[id := Route.Released]);
    LeadsThen(t, s, s1, s2, RouteRelease(id));
    s' := s.(ids := s.ids + {id});
    assert s2.routes - {id} == s.routes;
    LeadsThen(t, s, s2, s', RouteDelete(id));
  }
}
