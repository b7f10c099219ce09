/** What each call to the appliance does, as its clients see it, and what the appliance holds in every
    state of a run: the steps are taken as they come, whatever method of the driver takes them. */
module AccessEffects {
  import opened Common
  import opened AccessModel
  import opened AccessProgram
  import opened AccessVolumes
  import opened AccessRuns
  import opened AccessHistories

  // ---- What stays as it is ----

  // Nothing but the share n changes on the appliance.
  predicate OnlyShare(s: State, s': State, n: VolName) {
    && s'.appSnaps == s.appSnaps
    && (forall m <- s.appVols :: m != n ==> m in s'.appVols && s'.appVols[m] == s.appVols[m])
    && (forall m <- s'.appVols :: m != n ==> m in s.appVols)
  }

  // Nothing but the snapshot key changes on the appliance.
  predicate OnlySnapshot(s: State, s': State, key: SnapKey) {
    s'.appVols == s.appVols && s'.appSnaps - {key} == s.appSnaps - {key}
  }

  predicate SameAppliance(s: State, s': State) { s'.appVols == s.appVols && s'.appSnaps == s.appSnaps }

  // The volume object in hand, and its state.
  function VolOf(s: State, r: Req, k: Which): nat
    requires r in s.reqs
  {
    ObjOf(SlotOf(s.reqs[r], k))
  }

  function VolLife(s: State, o: nat): Life { VolAt(s, o).life }

  function SnapLife(s: State, x: nat): Life { SnapAt(s, x).life }

  // Request r is about to release what it has.
  predicate Releases(s: State, r: Req) { r in s.reqs && (s.reqs[r].pc.VRlRLock? || s.reqs[r].pc.SRlRLock?) }

  // ---- Calls about volumes ----

  /** A creation puts a masked volume on the appliance, unless there is one of that name. The object is in
      stateCreated afterwards if the volume is new and the answer arrived, and deleted on any failure. */
  lemma CreateEffect(s: State, r: Req, ans: Answer, s': State)
    requires Reachable(s) && Step(s, r, Go(ans), s') && s.reqs[r].pc.Create?
    ensures var n, o := VolNameOf(s.reqs[r].op, Target), VolOf(s, r, Target);
            && OnlyShare(s, s', n) && Releases(s', r)
            && (n in s.appVols ==> n in s'.appVols && s'.appVols[n] == s.appVols[n])
            && (n !in s.appVols ==> (n in s'.appVols <==> !ans.Fail?))
            && (n !in s.appVols && n in s'.appVols ==> s'.appVols[n] == Share(None, MASK_ALL))
            && VolLife(s', o) ==
               (if !ans.Reply? then Deleted else if n in s.appVols then VolLife(s, o) else Created)
  {
    ReachableLocal(s, r);
    ReachableSlot(s, r, Target);
    CreateStep(s, r, ans, s');
  }

  lemma CreateStep(s: State, r: Req, ans: Answer, s': State)
    requires Step(s, r, Go(ans), s') && s.reqs[r].pc.Create? && LocalOk(s.reqs[r])
    requires SlotInv(s, r, s.reqs[r].tgt, VolNameOf(s.reqs[r].op, Target))
    ensures var n, o := VolNameOf(s.reqs[r].op, Target), VolOf(s, r, Target);
            var appears := n !in s.appVols && !ans.Fail?;
            && s'.appVols == (if appears then s.appVols[n := Share(None, MASK_ALL)] else s.appVols)
            && s'.appSnaps == s.appSnaps && Releases(s', r)
            && VolLife(s', o) ==
               (if !ans.Reply? then Deleted else if n in s.appVols then VolLife(s, o) else Created)
  {
    CreatePoint(s.reqs[r]);
  }

  lemma CreatePoint(l: Local)
    requires LocalOk(l) && (l.pc.Create? || l.pc.Refresh?)
    ensures l.which.Target? && InHand(l.tgt)
  {
  }

  /** A refresh puts the object into stateCreated. */
  lemma RefreshEffect(s: State, r: Req, ans: Answer, s': State)
    requires Reachable(s) && Step(s, r, Go(ans), s') && s.reqs[r].pc.Refresh?
    ensures SameAppliance(s, s') && Releases(s', r) && VolLife(s', VolOf(s, r, Target)).Created?
  {
    ReachableLocal(s, r);
    ReachableSlot(s, r, Target);
    CreatePoint(s.reqs[r]);
  }

  /** A placeholder becomes a volume in stateCreated, and the handler gets it, if and only if the appliance
      has the volume and says so. */
  lemma DetailsEffect(s: State, r: Req, ans: Answer, s': State)
    requires Reachable(s) && Step(s, r, Go(ans), s') && s.reqs[r].pc.Details?
    ensures var o, found := VolOf(s, r, Source), ans.Reply? && VolNameOf(s.reqs[r].op, Source) in s.appVols;
            && SameAppliance(s, s')
            && VolLife(s', o) == (if found then Created else VolLife(s, o))
            && (s'.reqs[r].src.Mine? <==> found) && (Releases(s', r) <==> !found)
  {
    ReachableLocal(s, r);
    ReachableSlot(s, r, Source);
    DetailsPoint(s.reqs[r]);
  }

  lemma DetailsPoint(l: Local)
    requires LocalOk(l) && l.pc.Details?
    ensures l.which.Source? && l.src.Fresh? && NeedsSource(l.op)
  {
  }

  lemma WorkPoint(l: Local)
    requires LocalOk(l) && (l.pc.DelList? || l.pc.DelGo? || l.pc.PubRead? || l.pc.PubSet? || l.pc.Unpub? || l.pc.Use?)
    ensures l.which.Source? && l.src.Mine?
  {
  }

  /** A deletion goes ahead if and only if the volume exists and the list of its snapshots is empty, or is of
      a LUN and has no entry that is understood. */
  lemma DelListEffect(s: State, r: Req, ans: Answer, s': State)
    requires Reachable(s) && Step(s, r, Go(ans), s') && s.reqs[r].pc.DelList?
    ensures var n := VolNameOf(s.reqs[r].op, Source);
            && SameAppliance(s, s') && VolLife(s', VolOf(s, r, Source)) == VolLife(s, VolOf(s, r, Source))
            && (s'.reqs[r].pc.DelGo? <==>
                  n in s.appVols && ((ans.Reply? && forall p <- s.appSnaps :: p.0 != n) || Unread(s.reqs[r], ans)))
            && (!s'.reqs[r].pc.DelGo? ==> Releases(s', r))
  {
    ReachableLocal(s, r);
    WorkPoint(s.reqs[r]);
  }

  /** A deletion removes the volume unless the call fails; the object is deleted if the answer arrives. */
  lemma DeleteEffect(s: State, r: Req, ans: Answer, s': State)
    requires Reachable(s) && Step(s, r, Go(ans), s') && s.reqs[r].pc.DelGo?
    ensures var n, o := VolNameOf(s.reqs[r].op, Source), VolOf(s, r, Source);
            && OnlyShare(s, s', n) && Releases(s', r)
            && (n in s'.appVols <==> n in s.appVols && ans.Fail?)
            && (n in s'.appVols ==> s'.appVols[n] == s.appVols[n])
            && VolLife(s', o) == (if ans.Reply? then Deleted else VolLife(s, o))
  {
    ReachableLocal(s, r);
    ReachableSlot(s, r, Source);
    WorkPoint(s.reqs[r]);
  }

  /** A publish goes on to set the group if and only if the LUN exists, is masked, and the appliance says so. */
  lemma PublishReadEffect(s: State, r: Req, ans: Answer, s': State)
    requires Reachable(s) && Step(s, r, Go(ans), s') && s.reqs[r].pc.PubRead?
    ensures var n := VolNameOf(s.reqs[r].op, Source);
            && SameAppliance(s, s') && s'.vols == s.vols
            && (s'.reqs[r].pc.PubSet? <==> ans.Reply? && n in s.appVols && s.appVols[n].group == MASK_ALL)
            && (!s'.reqs[r].pc.PubSet? ==> Releases(s', r))
  {
    ReachableLocal(s, r);
    WorkPoint(s.reqs[r]);
  }

  /** Setting the group gives a masked LUN to the node, unless the call fails. */
  lemma PublishEffect(s: State, r: Req, ans: Answer, s': State)
    requires Reachable(s) && Step(s, r, Go(ans), s') && s.reqs[r].pc.PubSet?
    ensures s.reqs[r].op.PublishVolume?
    ensures var n := s.reqs[r].op.name;
            && OnlyShare(s, s', n) && Releases(s', r) && s'.vols == s.vols
            && n in s.appVols && s.appVols[n].group == MASK_ALL && n in s'.appVols
            && s'.appVols[n].origin == s.appVols[n].origin
            && s'.appVols[n].group == (if ans.Fail? then MASK_ALL else s.reqs[r].op.node)
  {
    ReachableLocal(s, r);
    ReachableChecks(s, r);
    WorkPoint(s.reqs[r]);
    Dispatch(s, r);
  }

  /** An unpublish masks the LUN, unless the call fails. */
  lemma UnpublishEffect(s: State, r: Req, ans: Answer, s': State)
    requires Reachable(s) && Step(s, r, Go(ans), s') && s.reqs[r].pc.Unpub?
    ensures var n := VolNameOf(s.reqs[r].op, Source);
            && OnlyShare(s, s', n) && Releases(s', r) && s'.vols == s.vols
            && (n in s'.appVols <==> n in s.appVols)
            && (n in s.appVols ==> s'.appVols[n].origin == s.appVols[n].origin
                                   && s'.appVols[n].group == if ans.Fail? then s.appVols[n].group else MASK_ALL)
  {
    ReachableLocal(s, r);
    WorkPoint(s.reqs[r]);
  }

  /** A clone appears masked, with its origin, if its name is free and the snapshot exists, unless the call
      fails; its object is in stateCreated afterwards only if it appeared and the answer arrived. */
  lemma CloneEffect(s: State, r: Req, ans: Answer, s': State)
    requires Reachable(s) && Step(s, r, Go(ans), s') && s.reqs[r].pc.Clone?
    ensures var n, o, key := VolNameOf(s.reqs[r].op, Target), VolOf(s, r, Target), KeyOf(s.reqs[r].op);
            var appears := n !in s.appVols && key in s.appSnaps && !ans.Fail?;
            && OnlyShare(s, s', n) && Releases(s', r) && s'.snaps == s.snaps
            && (n in s'.appVols <==> n in s.appVols || appears)
            && (n in s'.appVols ==> s'.appVols[n] == if appears then Share(Some(key), MASK_ALL) else s.appVols[n])
            && VolLife(s', o) == (if appears && ans.Reply? then Created else VolLife(s, o))
  {
    ReachableLocal(s, r);
    ReachableSlot(s, r, Target);
    if CloneAppears(s, s.reqs[r], ans) { CloneMade(s, r, ans, s'); } else { CloneNotMade(s, r, ans, s'); }
  }

  predicate CloneAppears(s: State, l: Local, ans: Answer) {
    VolNameOf(l.op, Target) !in s.appVols && KeyOf(l.op) in s.appSnaps && !ans.Fail?
  }

  lemma CloneMade(s: State, r: Req, ans: Answer, s': State)
    requires Step(s, r, Go(ans), s') && s.reqs[r].pc.Clone? && LocalOk(s.reqs[r])
    requires SlotInv(s, r, s.reqs[r].tgt, VolNameOf(s.reqs[r].op, Target)) && CloneAppears(s, s.reqs[r], ans)
    ensures var n, o, key := VolNameOf(s.reqs[r].op, Target), VolOf(s, r, Target), KeyOf(s.reqs[r].op);
            && s'.appVols == s.appVols[n := Share(Some(key), MASK_ALL)]
            && s'.appSnaps == s.appSnaps && s'.snaps == s.snaps && Releases(s', r)
            && VolLife(s', o) == if ans.Reply? then Created else VolLife(s, o)
  {
    ClonePoint(s.reqs[r]);
  }

  lemma CloneNotMade(s: State, r: Req, ans: Answer, s': State)
    requires Step(s, r, Go(ans), s') && s.reqs[r].pc.Clone? && !CloneAppears(s, s.reqs[r], ans)
    ensures SameAppliance(s, s') && s'.vols == s.vols && s'.snaps == s.snaps && Releases(s', r)
  {
  }

  lemma ClonePoint(l: Local)
    requires LocalOk(l) && l.pc.Clone?
    ensures InHand(l.tgt) && l.op.CloneVolume?
  {
  }

  // ---- Calls about snapshots ----

  lemma SnapPoint(l: Local)
    requires LocalOk(l) && (InSnapshotAction(l.pc) || l.pc.SDetails?)
    ensures NeedsSnap(l.op) && (if l.pc.SDetails? then l.snap.Fresh? else InHand(l.snap))
  {
  }

  /** A creation puts the snapshot on the appliance, if its source is there and it is not, unless the call
      fails. The object is in stateCreated afterwards if the snapshot is new and the answer arrived; it stays
      as it is on a conflict, and is deleted otherwise. */
  lemma SnapCreateEffect(s: State, r: Req, ans: Answer, s': State)
    requires Reachable(s) && Step(s, r, Go(ans), s') && s.reqs[r].pc.SCreate?
    ensures var key, x := KeyOf(s.reqs[r].op), ObjOf(s.reqs[r].snap);
            && OnlySnapshot(s, s', key) && Releases(s', r) && s'.vols == s.vols
            && (key in s'.appSnaps <==> key in s.appSnaps || (key.0 in s.appVols && !ans.Fail?))
            && SnapLife(s', x) == (if ans.Reply? && key in s.appSnaps then SnapLife(s, x)
                                   else if ans.Reply? && key in s'.appSnaps then Created else Deleted)
  {
    ReachableLocal(s, r);
    ReachableSnapSlot(s, r);
    SnapPoint(s.reqs[r]);
  }

  /** A refresh puts the object into stateCreated, or is not understood and leaks. */
  lemma SnapRefreshEffect(s: State, r: Req, ans: Answer, s': State)
    requires Reachable(s) && Step(s, r, Go(ans), s') && s.reqs[r].pc.SRefresh?
    ensures SameAppliance(s, s') && s'.vols == s.vols
    ensures var x := ObjOf(s.reqs[r].snap);
            SnapLife(s', x) == if ans.Lost? then SnapLife(s, x) else Created
    ensures if ans.Lost? then s'.reqs[r].pc.Leaked? else Releases(s', r)
  {
    ReachableLocal(s, r);
    ReachableSnapSlot(s, r);
    SnapPoint(s.reqs[r]);
  }

  /** A placeholder becomes a snapshot in stateCreated, and the handler gets it, if and only if the appliance
      has the snapshot and says so. */
  lemma SnapDetailsEffect(s: State, r: Req, ans: Answer, s': State)
    requires Reachable(s) && Step(s, r, Go(ans), s') && s.reqs[r].pc.SDetails?
    ensures var x, found := ObjOf(s.reqs[r].snap), ans.Reply? && KeyOf(s.reqs[r].op) in s.appSnaps;
            && SameAppliance(s, s') && s'.vols == s.vols
            && SnapLife(s', x) == (if found then Created else SnapLife(s, x))
            && (s'.reqs[r].snap.Mine? <==> found) && (Releases(s', r) <==> !found)
  {
    ReachableLocal(s, r);
    ReachableSnapSlot(s, r);
    SnapPoint(s.reqs[r]);
  }

  /** A deletion goes ahead if and only if the snapshot exists, has no clone, and the appliance says so; if it
      is said to be missing, the object is deleted. */
  lemma SnapDelInfoEffect(s: State, r: Req, ans: Answer, s': State)
    requires Reachable(s) && Step(s, r, Go(ans), s') && s.reqs[r].pc.SDelInfo?
    ensures var key, x := KeyOf(s.reqs[r].op), ObjOf(s.reqs[r].snap);
            && SameAppliance(s, s') && s'.vols == s.vols
            && (s'.reqs[r].pc.SDelGo? <==> ans.Reply? && key in s.appSnaps && NoClones(s, key))
            && (!s'.reqs[r].pc.SDelGo? ==> Releases(s', r))
            && SnapLife(s', x) == (if ans.Reply? && key !in s.appSnaps then Deleted else SnapLife(s, x))
  {
    ReachableLocal(s, r);
    ReachableSnapSlot(s, r);
    SnapPoint(s.reqs[r]);
  }

  /** A deletion removes the snapshot unless the call fails; the object is deleted if the answer arrives. */
  lemma SnapDeleteEffect(s: State, r: Req, ans: Answer, s': State)
    requires Reachable(s) && Step(s, r, Go(ans), s') && s.reqs[r].pc.SDelGo?
    ensures var key, x := KeyOf(s.reqs[r].op), ObjOf(s.reqs[r].snap);
            && OnlySnapshot(s, s', key) && Releases(s', r) && s'.vols == s.vols
            && (key in s'.appSnaps <==> key in s.appSnaps && ans.Fail?)
            && SnapLife(s', x) == (if ans.Reply? then Deleted else SnapLife(s, x))
  {
    ReachableLocal(s, r);
    ReachableSnapSlot(s, r);
    SnapPoint(s.reqs[r]);
  }

  // ---- Which requests make which calls ----

  /** Every call is made by the request it is for. */
  ghost predicate Dispatched(l: Local) {
    && (l.pc.Create? ==> l.op.CreateVolume?)
    && (l.pc.Refresh? ==> l.op.RefreshVolume?)
    && (l.pc.DelList? || l.pc.DelGo? ==> l.op.DeleteVolume?)
    && (l.pc.PubRead? || l.pc.PubSet? ==> l.op.PublishVolume?)
    && (l.pc.Unpub? ==> l.op.UnpublishVolume?)
    && (l.pc.Use? ==> l.op.UseVolume?)
    && (l.pc.SCreate? ==> l.op.CreateSnapshot?)
    && (l.pc.SRefresh? ==> l.op.RefreshSnapshot?)
    && (l.pc.SDelInfo? || l.pc.SDelGo? ==> l.op.DeleteSnapshot?)
    && (l.pc.Clone? ==> l.op.CloneVolume?)
    && (l.pc.SGet? ==> l.op.GetSnapshot?)
  }

  ghost predicate DispatchInv(s: State) { forall r <- s.reqs :: Dispatched(s.reqs[r]) }

  lemma VolumeLookupDispatch(s: State, r: Req, l: Local, ans: Answer)
    requires LocalOk(l) && InLookupVolume(l.pc)
    ensures Dispatched(Act(s, r, l, ans).next)
  {
  }

  lemma NewVolumeDispatch(s: State, r: Req, l: Local, ans: Answer)
    requires LocalOk(l) && InNewVolume(l.pc)
    ensures Dispatched(Act(s, r, l, ans).next)
  {
  }

  lemma VolumeActionDispatch(s: State, r: Req, l: Local, ans: Answer)
    requires Dispatched(l) && InVolumeAction(l.pc)
    ensures Dispatched(Act(s, r, l, ans).next)
  {
  }

  lemma SnapshotLookupDispatch(s: State, r: Req, l: Local, ans: Answer)
    requires LocalOk(l) && Dispatched(l) && InLookupSnapshot(l.pc)
    ensures Dispatched(Act(s, r, l, ans).next)
  {
  }

  lemma NewSnapshotDispatch(s: State, r: Req, l: Local, ans: Answer)
    requires LocalOk(l) && Dispatched(l) && InNewSnapshot(l.pc)
    ensures Dispatched(Act(s, r, l, ans).next)
  {
  }

  lemma SnapshotActionDispatch(s: State, r: Req, l: Local, ans: Answer)
    requires Dispatched(l) && InSnapshotAction(l.pc)
    ensures Dispatched(Act(s, r, l, ans).next)
  {
  }

  lemma ReleaseDispatch(s: State, r: Req, l: Local, ans: Answer)
    requires InReleaseSnapshot(l.pc) || InReleaseVolume(l.pc) || Finished(l.pc)
    ensures Dispatched(Act(s, r, l, ans).next)
  {
    if InReleaseVolume(l.pc) { VolumeReleaseDispatch(s, r, l, ans); }
    else if InReleaseSnapshot(l.pc) { SnapshotReleaseDispatch(s, r, l, ans); }
  }

  lemma SnapshotReleaseDispatch(s: State, r: Req, l: Local, ans: Answer)
    requires InReleaseSnapshot(l.pc)
    ensures Dispatched(Act(s, r, l, ans).next)
  {
  }

  lemma VolumeReleaseDispatch(s: State, r: Req, l: Local, ans: Answer)
    requires InReleaseVolume(l.pc)
    ensures Dispatched(Act(s, r, l, ans).next)
  {
  }

  lemma ActDispatch(s: State, r: Req, l: Local, ans: Answer)
    requires LocalOk(l) && Dispatched(l)
    ensures Dispatched(Act(s, r, l, ans).next)
  {
    if InLookupVolume(l.pc) { VolumeLookupDispatch(s, r, l, ans); }
    else if InNewVolume(l.pc) { NewVolumeDispatch(s, r, l, ans); }
    else if InVolumeAction(l.pc) { VolumeActionDispatch(s, r, l, ans); }
    else if InLookupSnapshot(l.pc) { SnapshotLookupDispatch(s, r, l, ans); }
    else if InNewSnapshot(l.pc) { NewSnapshotDispatch(s, r, l, ans); }
    else if InSnapshotAction(l.pc) { SnapshotActionDispatch(s, r, l, ans); }
    else { ReleaseDispatch(s, r, l, ans); }
  }

  lemma StepDispatch(s: State, e: Event, s': State)
    requires Reachable(s) && DispatchInv(s) && Step(s, e.req, e.action, s')
    ensures DispatchInv(s')
  {
    if e.action.Go? {
      ReachableLocal(s, e.req);
      ActDispatch(s, e.req, s.reqs[e.req], e.action.ans);
      assert s'.reqs == s.reqs[e.req := s'.reqs[e.req]];
    }
  }

  lemma {:induction false} RunDispatch(states: seq<State>, events: seq<Event>, i: nat)
    requires Run(states, events) && i < |states|
    ensures DispatchInv(states[i])
  {
    if i > 0 {
      RunDispatch(states, events, i - 1);
      RunStep(states, events, i - 1);
      StepDispatch(states[i - 1], events[i - 1], states[i]);
    }
  }

  /** In every reachable state a request that is about to make a call is the one the call is for. */
  lemma Dispatch(s: State, r: Req)
    requires Reachable(s) && r in s.reqs
    ensures Dispatched(s.reqs[r])
  {
    var states, events :| Run(states, events) && states[|events|] == s;
    RunDispatch(states, events, |events|);
  }

  /** Nothing else changes the appliance: a step that does is one of seven calls. */
  lemma OnlyCallsChange(s: State, r: Req, ans: Answer, s': State)
    requires Reachable(s) && Step(s, r, Go(ans), s')
    ensures var pc := s.reqs[r].pc;
            SameAppliance(s, s') || pc.Create? || pc.DelGo? || pc.PubSet? || pc.Unpub? || pc.Clone?
            || pc.SCreate? || pc.SDelGo?
  {
    var l := s.reqs[r];
    if InVolumeAction(l.pc) || InSnapshotAction(l.pc) { ActionChange(s, r, l, ans); }
    else { OtherChange(s, r, l, ans); }
  }

  predicate KeepsAppliance(s: State, e: Effect) {
    match e
    case VAct(_, _, app) => app == s.appVols
    case AppAct(app) => app == s.appVols
    case SAct(_, _, app) => app == s.appSnaps
    case AppSnapAct(app) => app == s.appSnaps
    case _ => true
  }

  lemma ActionChange(s: State, r: Req, l: Local, ans: Answer)
    requires InVolumeAction(l.pc) || InSnapshotAction(l.pc)
    ensures KeepsAppliance(s, Act(s, r, l, ans).eff) || l.pc.Create? || l.pc.DelGo? || l.pc.PubSet? || l.pc.Unpub?
            || l.pc.Clone? || l.pc.SCreate? || l.pc.SDelGo?
    ensures KeepsAppliance(s, Act(s, r, l, ans).eff) ==> SameAppliance(s, Apply(s, r, Act(s, r, l, ans).eff))
  {
    if KeepsAppliance(s, Act(s, r, l, ans).eff) { KeptAppliance(s, r, Act(s, r, l, ans).eff); }
  }

  lemma OtherChange(s: State, r: Req, l: Local, ans: Answer)
    requires !InVolumeAction(l.pc) && !InSnapshotAction(l.pc)
    ensures SameAppliance(s, Apply(s, r, Act(s, r, l, ans).eff))
  {
    OtherKeeps(s, r, l, ans);
    KeptAppliance(s, r, Act(s, r, l, ans).eff);
  }

  lemma OtherKeeps(s: State, r: Req, l: Local, ans: Answer)
    requires !InVolumeAction(l.pc) && !InSnapshotAction(l.pc)
    ensures KeepsAppliance(s, Act(s, r, l, ans).eff)
  {
  }

  lemma KeptAppliance(s: State, r: Req, e: Effect)
    requires KeepsAppliance(s, e)
    ensures SameAppliance(s, Apply(s, r, e))
  {
  }

  // ---- What the appliance holds ----

  /** Event e, taken in state s, puts volume n on the appliance, with or without the driver learning of it. */
  predicate MakesVolume(s: State, e: Event, n: VolName) {
    && e.action.Go? && !e.action.ans.Fail? && e.req in s.reqs && n !in s.appVols
    && var l := s.reqs[e.req];
    (l.pc.Create? || (l.pc.Clone? && KeyOf(l.op) in s.appSnaps)) && VolNameOf(l.op, Target) == n
  }

  predicate DropsVolume(s: State, e: Event, n: VolName) {
    && e.action.Go? && !e.action.ans.Fail? && e.req in s.reqs
    && s.reqs[e.req].pc.DelGo? && VolNameOf(s.reqs[e.req].op, Source) == n
  }

  predicate MakesSnapshot(s: State, e: Event, key: SnapKey) {
    && e.action.Go? && !e.action.ans.Fail? && e.req in s.reqs
    && s.reqs[e.req].pc.SCreate? && KeyOf(s.reqs[e.req].op) == key && key.0 in s.appVols
  }

  predicate DropsSnapshot(s: State, e: Event, key: SnapKey) {
    && e.action.Go? && !e.action.ans.Fail? && e.req in s.reqs
    && s.reqs[e.req].pc.SDelGo? && KeyOf(s.reqs[e.req].op) == key
  }

  /** Event e, taken in state s, gives LUN n to a node. */
  predicate Gives(s: State, e: Event, n: VolName) {
    e.req in s.reqs && s.reqs[e.req].op.PublishVolume? && Publishes(s, e, n, s.reqs[e.req].op.node)
  }

  // Event e happens in state s of a run, and leads to s'.
  ghost predicate Happens(s: State, e: Event, s': State) {
    exists states, events, i: nat :: HappensAt(states, events, i, s, e, s')
  }

  ghost predicate HappensAt(states: seq<State>, events: seq<Event>, i: nat, s: State, e: Event, s': State) {
    Run(states, events) && i < |events| && states[i] == s && events[i] == e && states[i + 1] == s'
  }

  lemma Happened(s: State, e: Event, s': State)
    requires Happens(s, e, s')
    ensures Reachable(s) && Step(s, e.req, e.action, s')
  {
    var states, events, i: nat :| HappensAt(states, events, i, s, e, s');
    RunStep(states, events, i);
  }

  predicate VolumeMoves(s: State, e: Event, s': State, n: VolName) {
    n in s'.appVols <==> MakesVolume(s, e, n) || (n in s.appVols && !DropsVolume(s, e, n))
  }

  lemma StepVolumes(s: State, e: Event, s': State, n: VolName)
    requires Happens(s, e, s')
    ensures VolumeMoves(s, e, s', n)
  {
    Happened(s, e, s');
    if e.action.Go? {
      var r, ans, pc := e.req, e.action.ans, s.reqs[e.req].pc;
      OnlyCallsChange(s, r, ans, s');
      if pc.Create? { CreateEffect(s, r, ans, s'); }
      else if pc.Clone? { CloneEffect(s, r, ans, s'); }
      else if pc.DelGo? { DeleteEffect(s, r, ans, s'); }
      else if pc.PubSet? { PublishEffect(s, r, ans, s'); }
      else if pc.Unpub? { UnpublishEffect(s, r, ans, s'); }
      else if pc.SCreate? { SnapCreateEffect(s, r, ans, s'); }
      else if pc.SDelGo? { SnapDeleteEffect(s, r, ans, s'); }
    }
  }

  predicate SnapshotMoves(s: State, e: Event, s': State, key: SnapKey) {
    key in s'.appSnaps <==> MakesSnapshot(s, e, key) || (key in s.appSnaps && !DropsSnapshot(s, e, key))
  }

  lemma StepSnapshots(s: State, e: Event, s': State, key: SnapKey)
    requires Happens(s, e, s')
    ensures SnapshotMoves(s, e, s', key)
  {
    Happened(s, e, s');
    if e.action.Go? {
      var r, ans, pc := e.req, e.action.ans, s.reqs[e.req].pc;
      if pc.SCreate? || pc.SDelGo? {
        if pc.SCreate? { SnapCreateEffect(s, r, ans, s'); } else { SnapDeleteEffect(s, r, ans, s'); }
        if KeyOf(s.reqs[r].op) != key { OnlyKeyChanges(s, s', KeyOf(s.reqs[r].op), key); }
      } else { OtherCallsKeepSnapshots(s, r, ans, s'); }
    }
  }

  lemma OtherCallsKeepSnapshots(s: State, r: Req, ans: Answer, s': State)
    requires Reachable(s) && Step(s, r, Go(ans), s') && !s.reqs[r].pc.SCreate? && !s.reqs[r].pc.SDelGo?
    ensures s'.appSnaps == s.appSnaps
  {
    var pc := s.reqs[r].pc;
    OnlyCallsChange(s, r, ans, s');
    if pc.Create? { CreateEffect(s, r, ans, s'); }
    else if pc.Clone? { CloneEffect(s, r, ans, s'); }
    else if pc.DelGo? { DeleteEffect(s, r, ans, s'); }
    else if pc.PubSet? { PublishEffect(s, r, ans, s'); }
    else if pc.Unpub? { UnpublishEffect(s, r, ans, s'); }
  }

  lemma OnlyKeyChanges(s: State, s': State, key: SnapKey, p: SnapKey)
    requires OnlySnapshot(s, s', key) && p != key
    ensures p in s'.appSnaps <==> p in s.appSnaps
  {
    assert p in s'.appSnaps - {key} <==> p in s.appSnaps - {key};
  }

  // The group of a LUN changes to the node of a publish, or to the mask, or not at all.
  predicate GroupMoves(s: State, e: Event, s': State, n: VolName)
    requires n in s'.appVols
  {
    if Gives(s, e, n) || Masks(s, e, n) then s'.appVols[n].group == WrittenGroup(s, e, n)
    else n in s.appVols && s'.appVols[n].group == s.appVols[n].group
  }

  // The group that a write leaves.
  function WrittenGroup(s: State, e: Event, n: VolName): NodeName {
    if e.req in s.reqs && Gives(s, e, n) then s.reqs[e.req].op.node else MASK_ALL
  }

  /** What an event does to the group of a LUN that is there afterwards. */
  lemma StepGroup(s: State, e: Event, s': State, n: VolName)
    requires Happens(s, e, s') && n in s'.appVols
    ensures GroupMoves(s, e, s', n)
    ensures n in s.appVols ==> s'.appVols[n].origin == s.appVols[n].origin
  {
    Happened(s, e, s');
    if e.action.Go? {
      var r, ans, pc := e.req, e.action.ans, s.reqs[e.req].pc;
      OnlyCallsChange(s, r, ans, s');
      if pc.Create? { CreateEffect(s, r, ans, s'); }
      else if pc.Clone? { CloneEffect(s, r, ans, s'); }
      else if pc.DelGo? { DeleteEffect(s, r, ans, s'); }
      else if pc.PubSet? { PublishEffect(s, r, ans, s'); }
      else if pc.Unpub? { UnpublishEffect(s, r, ans, s'); }
      else if pc.SCreate? { SnapCreateEffect(s, r, ans, s'); }
      else if pc.SDelGo? { SnapDeleteEffect(s, r, ans, s'); }
    }
  }

  // ---- Over whole runs ----

  // Event m puts volume n on the appliance, and none up to the i-th removes it.
  predicate MadeSince(states: seq<State>, events: seq<Event>, m: nat, i: nat, n: VolName)
    requires i <= |events| < |states|
  {
    m < i && MakesVolume(states[m], events[m], n) && forall q | m < q < i :: !DropsVolume(states[q], events[q], n)
  }

  predicate KeptSoFar(states: seq<State>, events: seq<Event>, i: nat, n: VolName)
    requires i <= |events| < |states|
  {
    n in states[0].appVols && forall q | 0 <= q < i :: !DropsVolume(states[q], events[q], n)
  }

  ghost predicate EverMade(states: seq<State>, events: seq<Event>, i: nat, n: VolName)
    requires i <= |events| < |states|
  {
    exists m: nat :: MadeSince(states, events, m, i, n)
  }

  ghost predicate ShouldExist(states: seq<State>, events: seq<Event>, i: nat, n: VolName)
    requires i <= |events| < |states|
  {
    KeptSoFar(states, events, i, n) || EverMade(states, events, i, n)
  }

  /** In every state of every run the appliance has a volume if and only if it was there from the start, or
      was created or cloned, and no deletion of it has taken effect since. */
  lemma {:induction false} VolumesExactly(states: seq<State>, events: seq<Event>, i: nat, n: VolName)
    requires Run(states, events) && i < |states|
    ensures n in states[i].appVols <==> ShouldExist(states, events, i, n)
  {
    if i > 0 {
      VolumesExactly(states, events, i - 1, n);
      RunVolumes(states, events, i, n);
      ShouldExistStep(states, events, i, n);
    }
  }

  lemma RunVolumes(states: seq<State>, events: seq<Event>, i: nat, n: VolName)
    requires Run(states, events) && 0 < i < |states|
    ensures VolumeMoves(states[i - 1], events[i - 1], states[i], n)
  {
    var s, e, s' := states[i - 1], events[i - 1], states[i];
    assert HappensAt(states, events, i - 1, s, e, s');
    StepVolumes(s, e, s', n);
  }

  lemma ShouldExistStep(states: seq<State>, events: seq<Event>, i: nat, n: VolName)
    requires 0 < i <= |events| < |states|
    ensures ShouldExist(states, events, i, n) <==>
              || MakesVolume(states[i - 1], events[i - 1], n)
              || (ShouldExist(states, events, i - 1, n) && !DropsVolume(states[i - 1], events[i - 1], n))
  {
    if EverMade(states, events, i, n) {
      var m: nat :| MadeSince(states, events, m, i, n);
      if m < i - 1 { assert MadeSince(states, events, m, i - 1, n); }
    }
    if MakesVolume(states[i - 1], events[i - 1], n) { assert MadeSince(states, events, i - 1, i, n); }
    if EverMade(states, events, i - 1, n) && !DropsVolume(states[i - 1], events[i - 1], n) {
      var m: nat :| MadeSince(states, events, m, i - 1, n);
      assert MadeSince(states, events, m, i, n);
    }
  }

  predicate TakenSince(states: seq<State>, events: seq<Event>, m: nat, i: nat, key: SnapKey)
    requires i <= |events| < |states|
  {
    && m < i && MakesSnapshot(states[m], events[m], key)
    && forall q | m < q < i :: !DropsSnapshot(states[q], events[q], key)
  }

  predicate SnapKeptSoFar(states: seq<State>, events: seq<Event>, i: nat, key: SnapKey)
    requires i <= |events| < |states|
  {
    key in states[0].appSnaps && forall q | 0 <= q < i :: !DropsSnapshot(states[q], events[q], key)
  }

  ghost predicate EverTaken(states: seq<State>, events: seq<Event>, i: nat, key: SnapKey)
    requires i <= |events| < |states|
  {
    exists m: nat :: TakenSince(states, events, m, i, key)
  }

  ghost predicate ShouldBeTaken(states: seq<State>, events: seq<Event>, i: nat, key: SnapKey)
    requires i <= |events| < |states|
  {
    SnapKeptSoFar(states, events, i, key) || EverTaken(states, events, i, key)
  }

  /** The same for snapshots. */
  lemma {:induction false} SnapshotsExactly(states: seq<State>, events: seq<Event>, i: nat, key: SnapKey)
    requires Run(states, events) && i < |states|
    ensures key in states[i].appSnaps <==> ShouldBeTaken(states, events, i, key)
  {
    if i > 0 {
      SnapshotsExactly(states, events, i - 1, key);
      RunSnapshots(states, events, i, key);
      ShouldBeTakenStep(states, events, i, key);
    }
  }

  lemma RunSnapshots(states: seq<State>, events: seq<Event>, i: nat, key: SnapKey)
    requires Run(states, events) && 0 < i < |states|
    ensures SnapshotMoves(states[i - 1], events[i - 1], states[i], key)
  {
    var s, e, s' := states[i - 1], events[i - 1], states[i];
    assert HappensAt(states, events, i - 1, s, e, s');
    StepSnapshots(s, e, s', key);
  }

  lemma ShouldBeTakenStep(states: seq<State>, events: seq<Event>, i: nat, key: SnapKey)
    requires 0 < i <= |events| < |states|
    ensures ShouldBeTaken(states, events, i, key) <==>
              || MakesSnapshot(states[i - 1], events[i - 1], key)
              || (ShouldBeTaken(states, events, i - 1, key) && !DropsSnapshot(states[i - 1], events[i - 1], key))
  {
    if EverTaken(states, events, i, key) {
      var m: nat :| TakenSince(states, events, m, i, key);
      if m < i - 1 { assert TakenSince(states, events, m, i - 1, key); }
    }
    if MakesSnapshot(states[i - 1], events[i - 1], key) { assert TakenSince(states, events, i - 1, i, key); }
    if EverTaken(states, events, i - 1, key) && !DropsSnapshot(states[i - 1], events[i - 1], key) {
      var m: nat :| TakenSince(states, events, m, i - 1, key);
      assert TakenSince(states, events, m, i, key);
    }
  }

  // ---- Lists that are out of date ----

  /** What a refresh is to take up is not on the appliance. */
  predicate Gone(s: State, op: Op) {
    || (op.RefreshVolume? && op.name !in s.appVols)
    || (op.RefreshSnapshot? && KeyOf(op) !in s.appSnaps)
  }

  predicate Removes(s: State, e: Event, op: Op) {
    || (op.RefreshVolume? && DropsVolume(s, e, op.name))
    || (op.RefreshSnapshot? && DropsSnapshot(s, e, KeyOf(op)))
  }

  predicate Restores(s: State, e: Event, op: Op) {
    || (op.RefreshVolume? && MakesVolume(s, e, op.name))
    || (op.RefreshSnapshot? && MakesSnapshot(s, e, KeyOf(op)))
  }

  lemma StepGone(states: seq<State>, events: seq<Event>, i: nat, op: Op)
    requires Run(states, events) && 0 < i < |states| && (op.RefreshVolume? || op.RefreshSnapshot?)
    ensures var s, e := states[i - 1], events[i - 1];
            Gone(states[i], op) <==> !Restores(s, e, op) && (Gone(s, op) || Removes(s, e, op))
  {
    if op.RefreshVolume? { RunVolumes(states, events, i, op.name); }
    else { RunSnapshots(states, events, i, KeyOf(op)); }
  }

  predicate RemovedSince(states: seq<State>, events: seq<Event>, m: nat, q: nat, i: nat, op: Op)
    requires i <= |events| < |states|
  {
    && m < q < i && Removes(states[q], events[q], op)
    && forall p | q < p < i :: !Restores(states[p], events[p], op)
  }

  ghost predicate EverRemoved(states: seq<State>, events: seq<Event>, m: nat, i: nat, op: Op)
    requires i <= |events| < |states|
  {
    exists q: nat :: RemovedSince(states, events, m, q, i, op)
  }

  lemma EverRemovedStep(states: seq<State>, events: seq<Event>, m: nat, i: nat, op: Op)
    requires m < i - 1 < i <= |events| < |states|
    ensures var s, e := states[i - 1], events[i - 1];
            EverRemoved(states, events, m, i, op) <==>
              || Removes(s, e, op)
              || (EverRemoved(states, events, m, i - 1, op) && !Restores(s, e, op))
  {
    if EverRemoved(states, events, m, i, op) {
      var q: nat :| RemovedSince(states, events, m, q, i, op);
      if q < i - 1 { assert RemovedSince(states, events, m, q, i - 1, op); }
    }
    if Removes(states[i - 1], events[i - 1], op) { assert RemovedSince(states, events, m, i - 1, i, op); }
    if EverRemoved(states, events, m, i - 1, op) && !Restores(states[i - 1], events[i - 1], op) {
      var q: nat :| RemovedSince(states, events, m, q, i - 1, op);
      assert RemovedSince(states, events, m, q, i, op);
    }
  }

  /** At any time after its list was fetched, what a refresh is to take up is gone exactly if it was deleted
      since, and not made again: a list is out of date for no other reason. */
  lemma {:induction false} OutdatedExactly(states: seq<State>, events: seq<Event>, m: nat, i: nat, op: Op)
    requires Run(states, events) && m < i < |states|
    requires events[m].action == Arrive(op) && (op.RefreshVolume? || op.RefreshSnapshot?)
    ensures Gone(states[i], op) <==> EverRemoved(states, events, m, i, op)
  {
    if i == m + 1 {
      RunStep(states, events, m);
    } else {
      OutdatedExactly(states, events, m, i - 1, op);
      StepGone(states, events, i, op);
      EverRemovedStep(states, events, m, i, op);
    }
  }

  // Event m gives LUN n to a node or masks it, and none up to the i-th does so again.
  predicate LastWrite(states: seq<State>, events: seq<Event>, m: nat, i: nat, n: VolName)
    requires i <= |events| < |states|
  {
    && m < i && (Gives(states[m], events[m], n) || Masks(states[m], events[m], n))
    && forall q | m < q < i :: !Gives(states[q], events[q], n) && !Masks(states[q], events[q], n)
  }

  predicate NeverWritten(states: seq<State>, events: seq<Event>, i: nat, n: VolName)
    requires i <= |events| < |states|
  {
    forall q | 0 <= q < i :: !Gives(states[q], events[q], n) && !Masks(states[q], events[q], n)
  }

  ghost predicate EverWritten(states: seq<State>, events: seq<Event>, i: nat, n: VolName)
    requires i <= |events| < |states|
  {
    exists m: nat :: LastWrite(states, events, m, i, n)
  }

  // Group g is the one of the last write, or the one LUN n had from the start.
  ghost predicate GroupFits(states: seq<State>, events: seq<Event>, i: nat, n: VolName, g: NodeName)
    requires i <= |events| < |states|
  {
    && (forall m: nat | LastWrite(states, events, m, i, n) :: g == WrittenGroup(states[m], events[m], n))
    && (NeverWritten(states, events, i, n) ==> n in states[0].appVols && g == states[0].appVols[n].group)
    && (NeverWritten(states, events, i, n) || EverWritten(states, events, i, n))
  }

  /** In every state of every run the group of a LUN is the one given by the last publish, unpublish or
      creation of it that took effect, or the one it had from the start. In particular an unpublished LUN is
      masked until it is published again. */
  lemma {:induction false} GroupExactly(states: seq<State>, events: seq<Event>, i: nat, n: VolName)
    requires Run(states, events) && i < |states| && n in states[i].appVols
    ensures GroupFits(states, events, i, n, states[i].appVols[n].group)
  {
    if i > 0 {
      RunGroup(states, events, i, n);
      if Gives(states[i - 1], events[i - 1], n) || Masks(states[i - 1], events[i - 1], n) {
        WriteFits(states, events, i, n, states[i].appVols[n].group);
      } else {
        GroupExactly(states, events, i - 1, n);
        FitsStill(states, events, i, n, states[i].appVols[n].group);
      }
    }
  }

  lemma RunGroup(states: seq<State>, events: seq<Event>, i: nat, n: VolName)
    requires Run(states, events) && 0 < i < |states| && n in states[i].appVols
    ensures GroupMoves(states[i - 1], events[i - 1], states[i], n)
  {
    var s, e, s' := states[i - 1], events[i - 1], states[i];
    assert HappensAt(states, events, i - 1, s, e, s');
    StepGroup(s, e, s', n);
  }

  lemma WriteFits(states: seq<State>, events: seq<Event>, i: nat, n: VolName, g: NodeName)
    requires 0 < i <= |events| < |states|
    requires Gives(states[i - 1], events[i - 1], n) || Masks(states[i - 1], events[i - 1], n)
    requires g == WrittenGroup(states[i - 1], events[i - 1], n)
    ensures GroupFits(states, events, i, n, g)
  {
    assert LastWrite(states, events, i - 1, i, n);
  }

  lemma FitsStill(states: seq<State>, events: seq<Event>, i: nat, n: VolName, g: NodeName)
    requires 0 < i <= |events| < |states| && GroupFits(states, events, i - 1, n, g)
    requires !Gives(states[i - 1], events[i - 1], n) && !Masks(states[i - 1], events[i - 1], n)
    ensures GroupFits(states, events, i, n, g)
  {
    forall m: nat | LastWrite(states, events, m, i, n) ensures LastWrite(states, events, m, i - 1, n) {
    }
    if EverWritten(states, events, i - 1, n) {
      var m: nat :| LastWrite(states, events, m, i - 1, n);
      assert LastWrite(states, events, m, i, n);
    }
  }

  /** A LUN that was unpublished, cloned or created, and not published since, is masked. */
  lemma MaskedUntilPublished(states: seq<State>, events: seq<Event>, i: nat, j: nat, n: VolName)
    requires Run(states, events) && i < j < |states| && Masks(states[i], events[i], n) && n in states[j].appVols
    requires forall q | i < q < j :: !Gives(states[q], events[q], n)
    ensures states[j].appVols[n].group == MASK_ALL
  {
    GroupExactly(states, events, j, n);
    assert !NeverWritten(states, events, j, n);
    var m: nat :| LastWrite(states, events, m, j, n);
    GivesOrMasks(states[m], events[m], n);
    assert m >= i;
  }

  lemma GivesOrMasks(s: State, e: Event, n: VolName)
    ensures !(Gives(s, e, n) && Masks(s, e, n))
  {
  }
}
