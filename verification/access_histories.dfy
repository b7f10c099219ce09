/** What the protocol guarantees about the order of events in a run. */
module AccessHistories {
  import opened Common
  import opened AccessModel
  import opened AccessProgram
  import opened AccessVolumes
  import opened AccessSnapshots
  import opened AccessVolumeSteps
  import opened AccessSnapshotSteps
  import opened AccessRuns

  /** The states of a run are reachable. */
  lemma RunReachable(states: seq<State>, events: seq<Event>, i: nat)
    requires Run(states, events) && i < |states|
    ensures Reachable(states[i])
  {
    var prefix, past := states[..i + 1], events[..i];
    forall k | 0 <= k < i ensures StepAt(prefix, past, k) {
      assert StepAt(states, events, k);
    }
    assert Run(prefix, past) && prefix[|past|] == states[i];
  }

  // ---- Lifecycle ----

  // stateCreating, then perhaps stateCreated, then perhaps stateDeleted.
  function Rank(life: Life): nat { if life.Creating? then 0 else if life.Created? then 1 else 2 }

  /** Only operations of the owner of the bolt change an object's state, and only forwards. */
  ghost predicate Ages(s: State, s': State, r: Req) {
    && |s'.vols| >= |s.vols|
    && (forall o | 0 <= o < |s.vols| :: s'.vols[o].name == s.vols[o].name
          && Rank(s.vols[o].life) <= Rank(s'.vols[o].life)
          && (s'.vols[o].life != s.vols[o].life ==> s.vols[o].owner == Some(r)))
    && |s'.snaps| >= |s.snaps|
    && (forall x | 0 <= x < |s.snaps| :: s'.snaps[x].name == s.snaps[x].name && s'.snaps[x].volume == s.snaps[x].volume
          && s'.snaps[x].source == s.snaps[x].source
          && Rank(s.snaps[x].life) <= Rank(s'.snaps[x].life)
          && (s'.snaps[x].life != s.snaps[x].life ==> s.snaps[x].owner == Some(r)))
  }

  predicate ActsOnLife(e: Effect) { e.VAct? || e.SAct? }

  lemma VolEffectsKeepLife(s: State, r: Req, e: Effect)
    requires VolEffect(e) && !ActsOnLife(e)
    ensures Ages(s, Apply(s, r, e), r)
  {
  }

  lemma SnapEffectsKeepLife(s: State, r: Req, e: Effect)
    requires SnapEffect(e) && !ActsOnLife(e) && !e.SAdd? && !e.SRemove?
    ensures Ages(s, Apply(s, r, e), r)
  {
    match e
    case SHold(x) => SameLife(s, x, SnapAt(s, x).(refcount := SnapAt(s, x).refcount + 1), r);
    case STake(x) => SameLife(s, x, SnapAt(s, x).(owner := Some(r)), r);
    case SCount(x) => SameLife(s, x, SnapAt(s, x).(refcount := SnapAt(s, x).refcount - 1), r);
    case SFree(x) => SameLife(s, x, SnapAt(s, x).(owner := None), r);
  }

  lemma SameLife(s: State, x: nat, v: Snap, r: Req)
    requires v == SnapAt(s, x).(refcount := v.refcount, owner := v.owner)
    ensures Ages(s, WithSnap(s, x, v), r)
  {
  }

  lemma SnapCacheKeepsLife(s: State, r: Req, e: Effect)
    requires e.SAdd? || e.SRemove?
    ensures Ages(s, Apply(s, r, e), r)
  {
  }

  lemma OtherEffectsKeepLife(s: State, r: Req, e: Effect)
    requires !ActsOnLife(e)
    ensures Ages(s, Apply(s, r, e), r)
  {
    if VolEffect(e) { VolEffectsKeepLife(s, r, e); }
    else if e.SAdd? || e.SRemove? { SnapCacheKeepsLife(s, r, e); }
    else if SnapEffect(e) { SnapEffectsKeepLife(s, r, e); }
    else { ApplyOutsideBoth(s, r, e); }
  }

  lemma VActAges(s: State, r: Req, m: Move)
    requires r in s.reqs && SlotsInv(s) && VolContract(s, s.reqs[r], m) && m.eff.VAct?
    ensures Ages(s, Apply(s, r, m.eff), r)
  {
    var k := Touched(s.reqs[r]);
    assert SlotInv(s, r, SlotOf(s.reqs[r], k), VolNameOf(s.reqs[r].op, k));
  }

  lemma SActAges(s: State, r: Req, m: Move)
    requires r in s.reqs && SnapSlotsInv(s) && SnapContract(s, s.reqs[r], m) && m.eff.SAct?
    ensures Ages(s, Apply(s, r, m.eff), r)
  {
    assert SnapSlotInv(s, r, s.reqs[r]);
  }

  lemma AdvanceAges(s: State, r: Req, ans: Answer)
    requires Inv(s) && r in s.reqs
    ensures Ages(s, Advance(s, r, ans), r)
  {
    var m := Act(s, r, s.reqs[r], ans);
    MoveOk(s, r, ans);
    if m.eff.VAct? { VActAges(s, r, m); }
    else if m.eff.SAct? { InvSnapSlot(s, r); SActAges(s, r, m); }
    else { OtherEffectsKeepLife(s, r, m.eff); }
  }

  /** Each step changes the state of an object only if its request owns the object's bolt, and never
      back to an earlier state. */
  lemma StepAges(s: State, r: Req, a: Action, s': State)
    requires Reachable(s) && Step(s, r, a, s')
    ensures Ages(s, s', r)
  {
    if a.Go? {
      ReachableInv(s);
      AdvanceAges(s, r, a.ans);
    }
  }

  lemma RunStep(states: seq<State>, events: seq<Event>, i: nat)
    requires Run(states, events) && i < |events|
    ensures Reachable(states[i]) && Step(states[i], events[i].req, events[i].action, states[i + 1])
  {
    RunReachable(states, events, i);
    assert StepAt(states, events, i);
  }

  lemma RunStepAges(states: seq<State>, events: seq<Event>, i: nat)
    requires Run(states, events) && i < |events|
    ensures Ages(states[i], states[i + 1], events[i].req)
  {
    RunStep(states, events, i);
    StepAges(states[i], events[i].req, events[i].action, states[i + 1]);
  }

  /** Over any run the state of a volume object only moves forwards; in particular a deleted object
      stays deleted, whatever object its name denotes later. */
  lemma {:induction false} LifeMovesForwards(states: seq<State>, events: seq<Event>, i: nat, j: nat, o: nat)
    requires Run(states, events) && i <= j < |states| && o < |states[i].vols|
    ensures o < |states[j].vols| && Rank(states[i].vols[o].life) <= Rank(states[j].vols[o].life)
    ensures states[i].vols[o].life.Deleted? ==> states[j].vols[o].life.Deleted?
    decreases j
  {
    if i < j {
      LifeMovesForwards(states, events, i, j - 1, o);
      RunStepAges(states, events, j - 1);
    }
  }

  /** The same for snapshot objects, which keep their names and the volume they point at besides. */
  lemma {:induction false} SnapshotsMoveForwards(states: seq<State>, events: seq<Event>, i: nat, j: nat, x: nat)
    requires Run(states, events) && i <= j < |states| && x < |states[i].snaps|
    ensures x < |states[j].snaps| && Rank(states[i].snaps[x].life) <= Rank(states[j].snaps[x].life)
    ensures states[i].snaps[x].life.Deleted? ==> states[j].snaps[x].life.Deleted?
    ensures var a, b := states[i].snaps[x], states[j].snaps[x];
            a.name == b.name && a.source == b.source && a.volume == b.volume
    decreases j
  {
    if i < j {
      SnapshotsMoveForwards(states, events, i, j - 1, x);
      RunStepAges(states, events, j - 1);
    }
  }

  /** While a handler works on a volume it looked up, the volume is in stateCreated; the volume under
      creation is in stateCreated or in stateCreating, and the request owns its bolt. */
  lemma HandedOutVolumes(s: State, r: Req)
    requires Reachable(s) && r in s.reqs
    ensures var l := s.reqs[r];
            (PointOf(l.pc).cur.IsMine? ==>
               l.src.Mine? && VolAt(s, l.src.o).life.Created? && VolAt(s, l.src.o).owner == Some(r))
    ensures var l := s.reqs[r];
            (l.pc.Create? || l.pc.Refresh? || (l.which.Source? && l.op.CloneVolume? && !l.pc.Done?) ==>
               InHand(l.tgt) && !VolAt(s, l.tgt.o).life.Deleted? && VolAt(s, l.tgt.o).owner == Some(r))
  {
    ReachableLocal(s, r);
    ReachableSlot(s, r, Target);
    ReachableSlot(s, r, Source);
    TargetPoint(s.reqs[r]);
  }

  lemma TargetPoint(l: Local)
    requires LocalOk(l)
    ensures PointOf(l.pc).cur.IsMine? ==> l.which.Source?
    ensures l.pc.Create? || l.pc.Refresh? ==> l.which.Target? && InHand(l.tgt)
  {
  }

  // ---- Publishing a LUN ----

  /** Event e, taken in state s, sets the initiator group of LUN n to node, with or without the driver
      learning of it. */
  predicate Publishes(s: State, e: Event, n: VolName, node: NodeName) {
    && e.action.Go? && !e.action.ans.Fail? && e.req in s.reqs
    && s.reqs[e.req].pc.PubSet? && s.reqs[e.req].op == PublishVolume(n, node)
  }

  /** Event e, taken in state s, unpublishes LUN n or creates it anew, with or without the driver
      learning of it. */
  predicate Masks(s: State, e: Event, n: VolName) {
    && e.action.Go? && e.req in s.reqs
    && var l := s.reqs[e.req];
    || (l.pc.Unpub? && !e.action.ans.Fail? && VolNameOf(l.op, Source) == n)
    || ((l.pc.Create? || l.pc.Clone?) && !e.action.ans.Fail? && n !in s.appVols && VolNameOf(l.op, Target) == n)
  }

  // LUN n, if it exists, belongs to node.
  predicate BelongsTo(s: State, n: VolName, node: NodeName) { n in s.appVols ==> s.appVols[n].group == node }

  predicate TouchesShares(e: Effect) { e.VAct? || e.AppAct? }

  lemma OtherEffectsKeepShares(s: State, r: Req, e: Effect)
    requires !TouchesShares(e)
    ensures Apply(s, r, e).appVols == s.appVols
  {
  }

  lemma SharesChangeAt(s: State, r: Req, l: Local, ans: Answer)
    requires TouchesShares(Act(s, r, l, ans).eff)
    ensures l.pc.Details? || InVolumeAction(l.pc) || l.pc.Clone?
  {
  }

  lemma SharesOfVolume(s: State, r: Req, l: Local, ans: Answer, n: VolName, node: NodeName)
    requires InVolumeAction(l.pc)
    requires LocalOk(l) && r in s.reqs && s.reqs[r] == l && BelongsTo(s, n, node) && node != MASK_ALL
    requires l.pc.PubSet? ==> Masked(s, VolNameOf(l.op, Source))
    requires !Masks(s, Event(r, Go(ans)), n)
    ensures BelongsTo(Advance(s, r, ans), n, node)
  {
    SidesOfActions(l);
    assert Act(s, r, l, ans) == VolumeActionAct(s, l, ans);
  }

  lemma SharesOfClone(s: State, r: Req, l: Local, ans: Answer, n: VolName, node: NodeName)
    requires l.pc.Details? || l.pc.Clone?
    requires r in s.reqs && s.reqs[r] == l && BelongsTo(s, n, node) && node != MASK_ALL
    requires !Masks(s, Event(r, Go(ans)), n)
    ensures BelongsTo(Advance(s, r, ans), n, node)
  {
  }

  lemma SidesOfActions(l: Local)
    requires LocalOk(l) && (l.pc.Details? || InVolumeAction(l.pc) || l.pc.Clone?)
    ensures l.which == if l.pc.Create? || l.pc.Refresh? then Target else Source
  {
  }

  /** A published LUN stays with its node, whatever other requests do, until it is masked. */
  lemma BelongsStep(s: State, e: Event, s': State, n: VolName, node: NodeName)
    requires Reachable(s) && Step(s, e.req, e.action, s') && BelongsTo(s, n, node) && node != MASK_ALL
    requires !Masks(s, e, n)
    ensures BelongsTo(s', n, node)
  {
    if e.action.Go? {
      var l := s.reqs[e.req];
      var eff := Act(s, e.req, l, e.action.ans).eff;
      if TouchesShares(eff) {
        SharesChangeAt(s, e.req, l, e.action.ans);
        ReachableLocal(s, e.req);
        ReachableChecks(s, e.req);
        if InVolumeAction(l.pc) { SharesOfVolume(s, e.req, l, e.action.ans, n, node); }
        else { SharesOfClone(s, e.req, l, e.action.ans, n, node); }
      } else {
        OtherEffectsKeepShares(s, e.req, eff);
      }
    }
  }

  lemma ReachableChecks(s: State, r: Req)
    requires Reachable(s) && r in s.reqs
    ensures s.reqs[r].pc.PubSet? ==> Masked(s, VolNameOf(s.reqs[r].op, Source))
  {
    ReachableInv(s);
    assert GuardsHold(s, s.reqs[r]);
  }

  lemma PublishTakesEffect(s: State, e: Event, s': State, n: VolName, node: NodeName)
    requires Reachable(s) && Step(s, e.req, e.action, s') && Publishes(s, e, n, node)
    ensures Masked(s, n) && n in s'.appVols && s'.appVols[n].group == node
  {
    ReachableLocal(s, e.req);
    ReachableChecks(s, e.req);
    SidesOfActions(s.reqs[e.req]);
    assert Act(s, e.req, s.reqs[e.req], e.action.ans) == VolumeActionAct(s, s.reqs[e.req], e.action.ans);
  }

  lemma RunPublish(states: seq<State>, events: seq<Event>, i: nat, n: VolName, node: NodeName)
    requires Run(states, events) && i < |events| && Publishes(states[i], events[i], n, node)
    ensures Masked(states[i], n) && BelongsTo(states[i + 1], n, node)
  {
    RunStep(states, events, i);
    PublishTakesEffect(states[i], events[i], states[i + 1], n, node);
  }

  lemma RunBelongs(states: seq<State>, events: seq<Event>, i: nat, n: VolName, node: NodeName)
    requires Run(states, events) && i < |events| && node != MASK_ALL
    requires BelongsTo(states[i], n, node) && !Masks(states[i], events[i], n)
    ensures BelongsTo(states[i + 1], n, node)
  {
    RunStep(states, events, i);
    BelongsStep(states[i], events[i], states[i + 1], n, node);
  }

  /** From a publish to the next event that masks the LUN, the LUN's group is the node of that publish,
      as long as the LUN exists. */
  lemma {:induction false} GroupIsLastPublished(states: seq<State>, events: seq<Event>, i: nat, j: nat,
                                                n: VolName, node: NodeName)
    requires Run(states, events) && i < j < |states| && node != MASK_ALL
    requires Publishes(states[i], events[i], n, node) && Unmasked(states, events, i + 1, j, n)
    ensures BelongsTo(states[j], n, node)
    decreases j
  {
    if i == j - 1 {
      RunPublish(states, events, i, n, node);
    } else {
      UnmaskedPrefix(states, events, i + 1, j, n);
      GroupIsLastPublished(states, events, i, j - 1, n, node);
      RunBelongs(states, events, j - 1, n, node);
    }
  }

  // No event from the i-th up to the j-th masks LUN n.
  ghost predicate Unmasked(states: seq<State>, events: seq<Event>, i: nat, j: nat, n: VolName) {
    && j <= |states| && j <= |events| + 1
    && forall m | i <= m < j && m < |events| :: !Masks(states[m], events[m], n)
  }

  lemma UnmaskedPrefix(states: seq<State>, events: seq<Event>, i: nat, j: nat, n: VolName)
    requires i < j && |states| == |events| + 1 && Unmasked(states, events, i, j, n) && j <= |events|
    ensures Unmasked(states, events, i, j - 1, n) && !Masks(states[j - 1], events[j - 1], n)
  {
  }

  /** Two publishes of one LUN have an unpublish or a re-creation of it between them. */
  lemma PublishExclusive(states: seq<State>, events: seq<Event>, i: nat, j: nat, n: VolName, a: NodeName, b: NodeName)
    requires Run(states, events) && i < j < |events| && a != MASK_ALL
    requires Publishes(states[i], events[i], n, a) && Publishes(states[j], events[j], n, b)
    ensures exists m :: i < m < j && Masks(states[m], events[m], n)
  {
    if forall m | i < m < j :: !Masks(states[m], events[m], n) {
      GroupIsLastPublished(states, events, i, j, n, a);
      RunPublish(states, events, j, n, b);
    }
  }

  // ---- A refresh that skips the release ----

  lemma LeakedStays(states: seq<State>, events: seq<Event>, i: nat, r: Req)
    requires Run(states, events) && i < |events| && r in states[i].reqs && states[i].reqs[r].pc.Leaked?
    ensures r in states[i + 1].reqs && states[i + 1].reqs[r] == states[i].reqs[r]
  {
    RunStep(states, events, i);
  }

  /** A request that returned without releasing its snapshot keeps both bolts for ever: in every later
      state it still owns its source volume and its snapshot. */
  lemma {:induction false} LeakIsForever(states: seq<State>, events: seq<Event>, i: nat, j: nat, r: Req)
    requires Run(states, events) && i <= j < |states|
    requires r in states[i].reqs && states[i].reqs[r].pc.Leaked?
    ensures r in states[j].reqs && states[j].reqs[r] == states[i].reqs[r]
    ensures OwnsBoth(states[j], r)
    decreases j
  {
    if i < j {
      LeakIsForever(states, events, i, j - 1, r);
      LeakedStays(states, events, j - 1, r);
    }
    RunReachable(states, events, j);
    LeakedOwnsBoth(states[j], r);
  }

  // Request r owns the bolts of the snapshot and of the source volume in its slots.
  predicate OwnsBoth(s: State, r: Req)
    requires r in s.reqs
  {
    var l := s.reqs[r];
    && !l.src.Empty? && VolAt(s, l.src.o).owner == Some(r)
    && !l.snap.Empty? && SnapAt(s, l.snap.o).owner == Some(r)
  }

  lemma LeakedOwnsBoth(s: State, r: Req)
    requires Reachable(s) && r in s.reqs && s.reqs[r].pc.Leaked?
    ensures OwnsBoth(s, r)
  {
    ReachableLocal(s, r);
    ReachableSlot(s, r, Source);
    ReachableSnapSlot(s, r);
  }

  // ---- Requests for a leaked volume ----

  // On the way to the bolt of volume n.
  predicate Bound(l: Local, n: VolName) {
    && CurName(l) == n
    && (l.pc.LkRLock? || l.pc.LkIn? || l.pc.LkHit? || l.pc.NwLock? || l.pc.NwIn? || l.pc.NwHit? || l.pc.VBolt?)
  }

  ghost predicate Leaks(s: State, r: Req, n: VolName) {
    r in s.reqs && s.reqs[r].pc.Leaked? && VolNameOf(s.reqs[r].op, Source) == n
  }

  ghost predicate BoundAt(s: State, q: Req, n: VolName) { q in s.reqs && Bound(s.reqs[q], n) }

  lemma BoundStays(s: State, r: Req, e: Event, s': State, q: Req, n: VolName)
    requires Reachable(s) && Step(s, e.req, e.action, s') && Leaks(s, r, n) && BoundAt(s, q, n)
    ensures Leaks(s', r, n) && BoundAt(s', q, n)
  {
    if e.req == q && e.action.Go? {
      ReachableLocal(s, r);
      ReachableSlot(s, r, Source);
      LeakedOwnsBoth(s, r);
      ReachableLocal(s, q);
      ReachableSlot(s, q, s.reqs[q].which);
      BoundMoves(s, q, s.reqs[q], e.action.ans, n);
    }
  }

  lemma BoundMoves(s: State, q: Req, l: Local, ans: Answer, n: VolName)
    requires Bound(l, n) && LocalOk(l) && n in s.vHash && !l.pc.VBolt?
    ensures Bound(Act(s, q, l, ans).next, n)
  {
  }

  // The volume a request needs first.
  function FirstVolume(op: Op): VolName { VolNameOf(op, if NeedsTarget(op) then Target else Source) }

  // Once it has arrived, request q stays on the way to volume n.
  ghost predicate Starves(s: State, r: Req, q: Req, n: VolName) {
    Leaks(s, r, n) && (q in s.reqs ==> BoundAt(s, q, n) && !Finished(s.reqs[q].pc))
  }

  lemma StarvesOn(s: State, e: Event, s': State, r: Req, q: Req, n: VolName)
    requires Reachable(s) && Step(s, e.req, e.action, s') && Starves(s, r, q, n)
    requires q !in s.reqs && q in s'.reqs ==> FirstVolume(s'.reqs[q].op) == n
    ensures Starves(s', r, q, n)
  {
    if q in s.reqs { BoundStays(s, r, e, s', q, n); }
  }

  lemma OpStays(s: State, e: Event, s': State, q: Req)
    requires Reachable(s) && Step(s, e.req, e.action, s') && q in s.reqs
    ensures q in s'.reqs && s'.reqs[q].op == s.reqs[q].op
  {
    if e.action.Go? { ReachableMove(s, e.req, e.action.ans); }
  }

  /** No request that needs a leaked volume first ever finishes, whatever happens: neither one that is on the
      way to the volume already, nor one that arrives later. */
  lemma {:induction false} LeakStarves(states: seq<State>, events: seq<Event>, i: nat, j: nat,
                                       r: Req, q: Req, n: VolName)
    requires Run(states, events) && i <= j < |states| && Leaks(states[i], r, n)
    requires q in states[i].reqs ==> BoundAt(states[i], q, n)
    requires q in states[j].reqs ==> q in states[i].reqs || FirstVolume(states[j].reqs[q].op) == n
    ensures Leaks(states[j], r, n) && (q in states[j].reqs ==> !Finished(states[j].reqs[q].pc))
    ensures Starves(states[j], r, q, n)
    decreases j
  {
    if i < j {
      RunStep(states, events, j - 1);
      if q in states[j - 1].reqs { OpStays(states[j - 1], events[j - 1], states[j], q); }
      LeakStarves(states, events, i, j - 1, r, q, n);
      if q in states[i].reqs { StillThere(states, events, i, j - 1, q); }
      StarvesOn(states[j - 1], events[j - 1], states[j], r, q, n);
    }
  }

  lemma {:induction false} StillThere(states: seq<State>, events: seq<Event>, i: nat, j: nat, q: Req)
    requires Run(states, events) && i <= j < |states| && q in states[i].reqs
    ensures q in states[j].reqs
    decreases j
  {
    if i < j {
      StillThere(states, events, i, j - 1, q);
      RunStep(states, events, j - 1);
      OpStays(states[j - 1], events[j - 1], states[j], q);
    }
  }
}
