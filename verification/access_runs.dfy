/** The invariants hold in every state of every run. */
module AccessRuns {
  import opened Common
  import opened AccessModel
  import opened AccessProgram
  import opened AccessVolumes
  import opened AccessSnapshots
  import opened AccessVolumeSteps
  import opened AccessSnapshotSteps
  import opened AccessApplianceSteps

  ghost predicate LocalInv(s: State) { forall r <- s.reqs :: LocalOk(s.reqs[r]) }

  /** What holds of requests, objects, caches and mutexes, whatever the appliance answers. */
  ghost predicate Inv(s: State) {
    && LocalInv(s)
    && VMutexInv(s) && VolInv(s) && RefInv(s) && DeadInv(s) && StrayInv(s)
    && SMutexInv(s) && SnapInv(s)
    && GuardsInv(s)
  }

  /** What holds besides if no deletion is decided on a list that was not understood. */
  ghost predicate AppInv(s: State) { ListsInv(s) && Integrity(s) }

  lemma LocalInvTidy(s: State)
    requires LocalInv(s)
    ensures TidyInv(s)
  {
    forall r | r in s.reqs ensures Tidy(s.reqs[r]) {
      LocalOkTidy(s.reqs[r]);
    }
  }

  lemma LocalInvStep(s: State, r: Req, m: Move)
    requires LocalInv(s) && LocalOk(m.next)
    ensures LocalInv(Perform(s, r, m))
  {
  }

  lemma ContractKeepsInv(s: State, r: Req, m: Move)
    requires Inv(s) && r in s.reqs && Guarded(s, m.eff)
    requires LocalOk(m.next) && Contract(s, s.reqs[r], m) && AppContract(s, s.reqs[r], m)
    ensures Inv(Perform(s, r, m))
  {
    LocalInvTidy(s);
    LocalOkTidy(m.next);
    LocalInvStep(s, r, m);
    StrayNext(s, r, m);
    StepVol(s, r, m);
    StepSnap(s, r, m);
    StepGuards(s, r, m);
  }

  /** What a request does next keeps its variables consistent and honours its contract. */
  lemma MoveOk(s: State, r: Req, ans: Answer)
    requires Inv(s) && r in s.reqs
    ensures LocalOk(s.reqs[r]) && Tidy(s.reqs[r])
    ensures var m := Act(s, r, s.reqs[r], ans);
            LocalOk(m.next) && Contract(s, s.reqs[r], m) && AppContract(s, s.reqs[r], m)
  {
    StrayIsDead(s, r);
    LocalOkTidy(s.reqs[r]);
    ActLocal(s, r, s.reqs[r], ans);
    ActContract(s, r, s.reqs[r], ans);
    ActApp(s, r, s.reqs[r], ans);
  }

  lemma AdvanceKeepsInv(s: State, r: Req, ans: Answer)
    requires Inv(s) && Ready(s, r)
    ensures Inv(Advance(s, r, ans))
  {
    ActGuarded(s, r, ans);
    MoveOk(s, r, ans);
    ContractKeepsInv(s, r, Act(s, r, s.reqs[r], ans));
  }

  // A request that holds nothing yet.
  predicate Newcomer(l: Local) {
    l.tgt.Empty? && l.src.Empty? && l.snap.Empty? && l.vm.Free? && l.sm.Free? && l.stray.None? && !Checking(l.pc)
  }

  ghost predicate Arrival(s: State, s': State, r: Req, l: Local) {
    r !in s.reqs && Newcomer(l) && s' == s.(reqs := s.reqs[r := l])
  }

  lemma ArrivalVols(s: State, s': State, r: Req, l: Local)
    requires Arrival(s, s', r, l) && VMutexInv(s) && VolInv(s) && DeadInv(s) && StrayInv(s)
    ensures VMutexInv(s') && VolInv(s') && DeadInv(s') && StrayInv(s')
  {
    assert forall p :: LeftBehind(s', p) == LeftBehind(s, p);
    forall q, j: Which | q in s'.reqs ensures SlotInv(s', q, SlotOf(s'.reqs[q], j), VolNameOf(s'.reqs[q].op, j)) {
      if q != r { assert SlotInv(s, q, SlotOf(s.reqs[q], j), VolNameOf(s.reqs[q].op, j)); }
    }
    forall q | q in s'.reqs ensures GoneAstray(s', s'.reqs[q]) {
      if q != r { assert GoneAstray(s, s.reqs[q]); }
    }
  }

  lemma ArrivalRefs(s: State, s': State, r: Req, l: Local)
    requires Arrival(s, s', r, l) && RefInv(s)
    ensures RefInv(s')
  {
    forall o | 0 <= o < |s.vols| && CachedVol(s', o) ensures s'.vols[o].refcount == |Holders(s'.reqs, o)| {
      assert CachedVol(s, o) && Holders(s'.reqs, o) == Holders(s.reqs, o);
    }
  }

  lemma ArrivalSnaps(s: State, s': State, r: Req, l: Local)
    requires Arrival(s, s', r, l) && SMutexInv(s) && SnapInv(s)
    ensures SMutexInv(s') && SnapInv(s')
  {
    forall q | q in s'.reqs ensures SnapSlotInv(s', q, s'.reqs[q]) {
      if q != r { assert SnapSlotInv(s, q, s.reqs[q]); }
    }
    forall p | 0 <= p < |s.snaps| && InUse(s, p) ensures InUse(s', p) {
    }
    forall p | 0 <= p < |s.snaps| ensures NamesSource(s', p) {
      assert NamesSource(s, p);
    }
  }

  lemma ArrivalGuards(s: State, s': State, r: Req, l: Local)
    requires Arrival(s, s', r, l) && GuardsInv(s)
    ensures GuardsInv(s') && (ListsInv(s) ==> ListsInv(s'))
  {
    forall q | q in s'.reqs && q != r ensures GuardsHold(s', s'.reqs[q]) {
      assert GuardsHold(s, s.reqs[q]);
    }
    if ListsInv(s) {
      forall q | q in s'.reqs && q != r ensures ListHolds(s', s'.reqs[q]) {
        assert ListHolds(s, s.reqs[q]);
      }
    }
  }

  lemma NewcomerOk(op: Op)
    ensures Newcomer(InitLocal(op)) && LocalOk(InitLocal(op))
  {
  }

  lemma ArriveKeepsInv(s: State, r: Req, op: Op)
    requires Inv(s) && r !in s.reqs
    ensures Inv(s.(reqs := s.reqs[r := InitLocal(op)]))
  {
    var l := InitLocal(op);
    var s' := s.(reqs := s.reqs[r := l]);
    NewcomerOk(op);
    ArrivalVols(s, s', r, l);
    ArrivalRefs(s, s', r, l);
    ArrivalSnaps(s, s', r, l);
    ArrivalGuards(s, s', r, l);
  }

  lemma InitialInv(s: State)
    requires Initial(s)
    ensures Inv(s)
  {
  }

  /** Every step keeps the invariant. */
  lemma StepKeepsInv(s: State, r: Req, a: Action, s': State)
    requires Inv(s) && Step(s, r, a, s')
    ensures Inv(s')
  {
    match a
    case Arrive(op) => ArriveKeepsInv(s, r, op);
    case Go(ans) => AdvanceKeepsInv(s, r, ans);
  }

  /** The invariant holds along every path from a state in which it holds. */
  lemma {:induction false} PathInv(states: seq<State>, events: seq<Event>, i: nat)
    requires Path(states, events) && Inv(states[0]) && i < |states|
    ensures Inv(states[i])
  {
    if i > 0 {
      PathInv(states, events, i - 1);
      PathStepInv(states, events, i);
    }
  }

  lemma PathStepInv(states: seq<State>, events: seq<Event>, i: nat)
    requires Path(states, events) && 0 < i < |states| && Inv(states[i - 1])
    ensures Inv(states[i])
  {
    assert StepAt(states, events, i - 1);
    StepKeepsInv(states[i - 1], events[i - 1].req, events[i - 1].action, states[i]);
  }

  /** The invariant holds throughout every run. */
  lemma RunInv(states: seq<State>, events: seq<Event>, i: nat)
    requires Run(states, events) && i < |states|
    ensures Inv(states[i])
  {
    InitialInv(states[0]);
    PathInv(states, events, i);
  }

  lemma ReachableStep(s: State, e: Event, s': State)
    requires Reachable(s) && Step(s, e.req, e.action, s')
    ensures Reachable(s')
  {
    var states, events :| Run(states, events) && states[|events|] == s;
    forall i | 0 <= i <= |events| ensures StepAt(states + [s'], events + [e], i) {
      if i < |events| { assert StepAt(states, events, i); }
    }
    assert Run(states + [s'], events + [e]);
    assert (states + [s'])[|events + [e]|] == s';
  }

  lemma ReachableInv(s: State)
    requires Reachable(s)
    ensures Inv(s)
  {
    var states, events :| Run(states, events) && states[|events|] == s;
    RunInv(states, events, |events|);
  }

  // ---- Single facts out of the invariant ----

  lemma InvLocal(s: State, r: Req)
    requires Inv(s) && r in s.reqs
    ensures LocalOk(s.reqs[r])
  {
  }

  lemma InvSlot(s: State, r: Req, k: Which)
    requires Inv(s) && r in s.reqs
    ensures SlotInv(s, r, SlotOf(s.reqs[r], k), VolNameOf(s.reqs[r].op, k))
  {
  }

  lemma InvSnapSlot(s: State, r: Req)
    requires Inv(s) && r in s.reqs
    ensures SnapSlotInv(s, r, s.reqs[r])
  {
  }

  lemma InvStray(s: State, r: Req)
    requires Inv(s) && r in s.reqs && s.reqs[r].stray.Some?
    ensures var o := s.reqs[r].stray.value;
            o < |s.vols| && !CachedVol(s, o) && s.vols[o].owner.None? && s.vols[o].refcount <= 0
  {
    assert GoneAstray(s, s.reqs[r]);
  }

  lemma InvCachedSnap(s: State, k: SnapName)
    requires Inv(s) && k in s.sHash
    ensures s.sHash[k] < |s.snaps| && s.snaps[s.sHash[k]].name == k && NamesSource(s, s.sHash[k])
  {
  }

  lemma ReachableLocal(s: State, r: Req)
    requires Reachable(s) && r in s.reqs
    ensures LocalOk(s.reqs[r])
  {
    ReachableInv(s);
  }

  lemma ReachableSlot(s: State, r: Req, k: Which)
    requires Reachable(s) && r in s.reqs
    ensures SlotInv(s, r, SlotOf(s.reqs[r], k), VolNameOf(s.reqs[r].op, k))
  {
    ReachableInv(s);
  }

  lemma ReachableSnapSlot(s: State, r: Req)
    requires Reachable(s) && r in s.reqs
    ensures SnapSlotInv(s, r, s.reqs[r])
  {
    ReachableInv(s);
  }

  lemma ReachableMove(s: State, r: Req, ans: Answer)
    requires Reachable(s) && r in s.reqs
    ensures var m := Act(s, r, s.reqs[r], ans);
            LocalOk(m.next) && Contract(s, s.reqs[r], m) && AppContract(s, s.reqs[r], m)
  {
    ReachableInv(s);
    MoveOk(s, r, ans);
  }

  // ---- Runs in which no deletion is decided on a list that was not understood ----

  predicate SightedStep(s: State, e: Event) {
    e.action.Go? && e.req in s.reqs ==> Sighted(s, s.reqs[e.req], e.action.ans)
  }

  ghost predicate SightedPath(states: seq<State>, events: seq<Event>) {
    Path(states, events) && forall i | 0 <= i < |events| :: SightedAt(states, events, i)
  }

  predicate SightedAt(states: seq<State>, events: seq<Event>, i: nat)
    requires i < |events| < |states|
  {
    SightedStep(states[i], events[i])
  }

  ghost predicate SightedRun(states: seq<State>, events: seq<Event>) {
    SightedPath(states, events) && Initial(states[0])
  }

  lemma StepKeepsApp(s: State, e: Event, s': State)
    requires Inv(s) && AppInv(s) && Step(s, e.req, e.action, s') && SightedStep(s, e)
    ensures AppInv(s')
  {
    match e.action
    case Arrive(op) =>
      NewcomerOk(op);
      ArrivalGuards(s, s', e.req, InitLocal(op));
    case Go(ans) => AdvanceKeepsApp(s, e.req, ans);
  }

  lemma AdvanceKeepsApp(s: State, r: Req, ans: Answer)
    requires Inv(s) && AppInv(s) && r in s.reqs && Sighted(s, s.reqs[r], ans)
    ensures AppInv(Advance(s, r, ans))
  {
    var m := Act(s, r, s.reqs[r], ans);
    MoveOk(s, r, ans);
    ActLists(s, r, s.reqs[r], ans);
    LocalInvTidy(s);
    assert GuardsHold(s, s.reqs[r]) && ListHolds(s, s.reqs[r]);
    StepLists(s, r, m);
    StepIntegrity(s, r, m);
  }

  lemma {:induction false} PathApp(states: seq<State>, events: seq<Event>, i: nat)
    requires SightedPath(states, events) && Inv(states[0]) && AppInv(states[0]) && i < |states|
    ensures AppInv(states[i])
  {
    if i > 0 {
      PathApp(states, events, i - 1);
      PathInv(states, events, i - 1);
      PathStepApp(states, events, i);
    }
  }

  lemma PathStepApp(states: seq<State>, events: seq<Event>, i: nat)
    requires SightedPath(states, events) && 0 < i < |states| && Inv(states[i - 1]) && AppInv(states[i - 1])
    ensures AppInv(states[i])
  {
    assert StepAt(states, events, i - 1) && SightedAt(states, events, i - 1);
    StepKeepsApp(states[i - 1], events[i - 1], states[i]);
  }

  lemma RunApp(states: seq<State>, events: seq<Event>, i: nat)
    requires SightedRun(states, events) && i < |states|
    ensures AppInv(states[i])
  {
    InitialInv(states[0]);
    PathApp(states, events, i);
  }
}
