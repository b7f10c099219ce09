/** What the protocol guarantees in every reachable state, whatever the appliance answers. */
module AccessTheorems {
  import opened Common
  import opened AccessModel
  import opened AccessProgram
  import opened AccessVolumes
  import opened AccessSnapshots
  import opened AccessVolumeSteps
  import opened AccessSnapshotSteps
  import opened AccessRuns

  // ---- Exclusive access ----

  /** In every state of every run, at most one request has the volume of a given name between a
      successful newVolume or lookupVolume and the end of its releaseVolume. */
  lemma ExclusiveAccess(s: State, r: Req, k: Which, q: Req, j: Which)
    requires Reachable(s)
    requires r in s.reqs && q in s.reqs
    requires Owning(SlotOf(s.reqs[r], k)) && Owning(SlotOf(s.reqs[q], j))
    requires VolNameOf(s.reqs[r].op, k) == VolNameOf(s.reqs[q].op, j)
    ensures r == q && k == j
  {
    ReachableInv(s);
    assert SlotInv(s, r, SlotOf(s.reqs[r], k), VolNameOf(s.reqs[r].op, k));
    assert SlotInv(s, q, SlotOf(s.reqs[q], j), VolNameOf(s.reqs[q].op, j));
    assert OwnsOnce(s.reqs[r]);
  }

  /** One name, one object: all requests referring to a volume name refer to the object cached under
      it, whose reference count is the number of requests between their hold and their release. */
  lemma OneObjectPerName(s: State, r: Req, k: Which)
    requires Reachable(s)
    requires r in s.reqs && !SlotOf(s.reqs[r], k).Empty?
    ensures var name, o := VolNameOf(s.reqs[r].op, k), SlotOf(s.reqs[r], k).o;
            name in s.vHash && s.vHash[name] == o && o < |s.vols| && s.vols[o].name == name
            && s.vols[o].refcount == |Holders(s.reqs, o)|
  {
    ReachableInv(s);
    assert SlotInv(s, r, SlotOf(s.reqs[r], k), VolNameOf(s.reqs[r].op, k));
  }

  /** The delete-by-name at the end of a release removes the object being released, and no other
      request refers to that object at that moment. */
  lemma RemovalIsSafe(s: State, r: Req, ans: Answer, o: nat)
    requires Reachable(s) && Ready(s, r)
    requires Act(s, r, s.reqs[r], ans).eff == VRemove(o)
    ensures var name := VolAt(s, o).name;
            && name in s.vHash && s.vHash[name] == o && Cur(s.reqs[r]) == Leaving(o)
            && forall q, j: Which | q in s.reqs && !SlotOf(s.reqs[q], j).Empty? && SlotOf(s.reqs[q], j).o == o ::
                 q == r && j == s.reqs[r].which
  {
    ReachableMove(s, r, ans);
    RemovalContract(s, r, s.reqs[r], ans, o);
    ReachableSlot(s, r, s.reqs[r].which);
    forall q, j: Which | q in s.reqs && (q != r || j != s.reqs[r].which)
      ensures SlotOf(s.reqs[q], j).Empty? || SlotOf(s.reqs[q], j).o != o
    {
      ReachableNobodyElse(s, r, o, q, j);
    }
  }

  lemma RemovalContract(s: State, r: Req, l: Local, ans: Answer, o: nat)
    requires VolContract(s, l, Act(s, r, l, ans)) && Act(s, r, l, ans).eff == VRemove(o)
    ensures Cur(l) == Leaving(o) && VolAt(s, o).refcount == 0
  {
  }

  lemma ReachableNobodyElse(s: State, r: Req, o: nat, q: Req, j: Which)
    requires Reachable(s) && r in s.reqs && Cur(s.reqs[r]) == Leaving(o) && VolAt(s, o).refcount == 0
    requires q in s.reqs && (q != r || j != s.reqs[r].which)
    ensures SlotOf(s.reqs[q], j).Empty? || SlotOf(s.reqs[q], j).o != o
  {
    ReachableSlot(s, r, s.reqs[r].which);
    ReachableVolumes(s);
    NobodyElse(s, r, o, q, j);
  }

  lemma ReachableVolumes(s: State)
    requires Reachable(s)
    ensures TidyInv(s) && VMutexInv(s) && SlotsInv(s) && RefInv(s)
  {
    ReachableInv(s);
    LocalInvTidy(s);
  }

  // ---- Snapshots ----

  /** A request waiting for or owning the bolt of a snapshot owns the bolt of the volume cached for the
      snapshot's source, and is the only request concerned with that snapshot. */
  lemma NestedLocking(s: State, r: Req)
    requires Reachable(s)
    requires r in s.reqs && !s.reqs[r].snap.Empty?
    ensures var x := s.reqs[r].snap.o;
            && x < |s.snaps| && s.snaps[x].source in s.vHash
            && VolAt(s, s.vHash[s.snaps[x].source]).owner == Some(r)
            && forall q | q in s.reqs && !s.reqs[q].snap.Empty? && s.reqs[q].snap.o == x :: q == r
  {
    var x := s.reqs[r].snap.o;
    ReachableInv(s);
    assert SnapSlotInv(s, r, s.reqs[r]);
    assert SlotInv(s, r, SlotOf(s.reqs[r], Source), VolNameOf(s.reqs[r].op, Source));
    forall q | q in s.reqs && !s.reqs[q].snap.Empty? && s.reqs[q].snap.o == x ensures q == r {
      assert SnapSlotInv(s, q, s.reqs[q]);
      SameSource(s, r, q);
    }
  }

  /** Snapshot bolts are never contended: the wait for one never blocks. */
  lemma SnapshotBoltFree(s: State, r: Req)
    requires Reachable(s) && r in s.reqs && !s.panicked
    requires s.reqs[r].pc.SBolt? || s.reqs[r].pc.SBoltFresh?
    ensures Ready(s, r)
  {
    ReachableLocal(s, r);
    ReachableSnapSlot(s, r);
  }

  /** A snapshot found in the cache is in stateCreated once its bolt is taken: the request goes on
      to its work, and both "snapshot is busy" branches are unreachable. */
  lemma SnapshotNeverBusy(s: State, r: Req, ans: Answer)
    requires Reachable(s) && r in s.reqs && s.reqs[r].pc.SBolt?
    ensures Advance(s, r, ans).reqs[r].pc == AfterSnap(s.reqs[r].op)
  {
    ReachableLocal(s, r);
    ReachableSnapSlot(s, r);
    assert NewSnapshotAct(s, s.reqs[r]).next.pc == AfterSnap(s.reqs[r].op);
  }

  // ---- Panics ----

  predicate Unlocking(pc: Pc) { pc.SRlFastBolt? || pc.SRlUnbolt? || pc.VRlFastBolt? || pc.VRlUnbolt? }

  lemma PanicPoints(s: State, r: Req, l: Local, ans: Answer)
    requires Act(s, r, l, ans).eff.Panic?
    ensures l.pc.SLkIn? || Unlocking(l.pc)
  {
  }

  lemma OnlyPanicPanics(s: State, r: Req, e: Effect)
    ensures Apply(s, r, e).panicked <==> s.panicked || e.Panic?
  {
  }

  /** A request unlocks a bolt it owns, exactly unless releaseSnapshot made it release a volume other
      than the one it looked up; that volume's bolt is free. */
  lemma UnlockByOwner(s: State, r: Req)
    requires Reachable(s) && r in s.reqs && Unlocking(s.reqs[r].pc)
    ensures var l := s.reqs[r];
            var owner :=
                  if InReleaseVolume(l.pc) then VolAt(s, Released(l)).owner else SnapAt(s, ObjOf(l.snap)).owner;
            if l.pc.VRlFastBolt? && l.stray.Some? then owner == None else owner == Some(r)
  {
    ReachableInv(s);
    InvUnlock(s, r);
  }

  lemma InvUnlock(s: State, r: Req)
    requires Inv(s) && r in s.reqs && Unlocking(s.reqs[r].pc)
    ensures var l := s.reqs[r];
            var owner :=
                  if InReleaseVolume(l.pc) then VolAt(s, Released(l)).owner else SnapAt(s, ObjOf(l.snap)).owner;
            if l.pc.VRlFastBolt? && l.stray.Some? then owner == None else owner == Some(r)
  {
    InvLocal(s, r);
    InvSlot(s, r, s.reqs[r].which);
    InvSnapSlot(s, r);
    if s.reqs[r].stray.Some? { InvStray(s, r); }
    UnlockFacts(s, r, s.reqs[r]);
  }

  lemma UnlockFacts(s: State, r: Req, l: Local)
    requires LocalOk(l) && SnapSlotInv(s, r, l) && SlotInv(s, r, Cur(l), CurName(l)) && Unlocking(l.pc)
    requires l.stray.Some? ==> VolAt(s, l.stray.value).owner.None?
    ensures var owner :=
                  if InReleaseVolume(l.pc) then VolAt(s, Released(l)).owner else SnapAt(s, ObjOf(l.snap)).owner;
            if l.pc.VRlFastBolt? && l.stray.Some? then owner == None else owner == Some(r)
  {
  }

  /** Two steps panic, and no others: lookupSnapshot finding a snapshot that points at another volume
      object than the one just looked up, and the unlock of a volume taken from such a snapshot. */
  lemma PanicExactly(s: State, r: Req, ans: Answer)
    requires Reachable(s) && Ready(s, r)
    ensures var l := s.reqs[r];
            Advance(s, r, ans).panicked <==>
              || (l.pc.SLkIn? && SnapNameOf(l.op) in s.sHash
                  && SnapAt(s, s.sHash[SnapNameOf(l.op)]).volume != ObjOf(l.src))
              || (l.pc.VRlFastBolt? && l.stray.Some?)
  {
    ReachableInv(s);
    InvPanicExactly(s, r, ans);
  }

  lemma InvPanicExactly(s: State, r: Req, ans: Answer)
    requires Inv(s) && Ready(s, r)
    ensures var l := s.reqs[r];
            Advance(s, r, ans).panicked <==>
              || (l.pc.SLkIn? && SnapNameOf(l.op) in s.sHash
                  && SnapAt(s, s.sHash[SnapNameOf(l.op)]).volume != ObjOf(l.src))
              || (l.pc.VRlFastBolt? && l.stray.Some?)
  {
    if Unlocking(s.reqs[r].pc) { InvUnlock(s, r); }
    PanicFacts(s, r, ans);
  }

  lemma PanicFacts(s: State, r: Req, ans: Answer)
    requires Ready(s, r)
    requires var l := s.reqs[r];
             Unlocking(l.pc) ==>
               var owner :=
                  if InReleaseVolume(l.pc) then VolAt(s, Released(l)).owner else SnapAt(s, ObjOf(l.snap)).owner;
               if l.pc.VRlFastBolt? && l.stray.Some? then owner == None else owner == Some(r)
    ensures var l := s.reqs[r];
            Advance(s, r, ans).panicked <==>
              || (l.pc.SLkIn? && SnapNameOf(l.op) in s.sHash
                  && SnapAt(s, s.sHash[SnapNameOf(l.op)]).volume != ObjOf(l.src))
              || (l.pc.VRlFastBolt? && l.stray.Some?)
  {
    var l := s.reqs[r];
    OnlyPanicPanics(s, r, Act(s, r, l, ans).eff);
    if Unlocking(l.pc) {
      UnlockPanics(s, r, l, ans);
    } else if Act(s, r, l, ans).eff.Panic? {
      PanicPoints(s, r, l, ans);
    }
  }

  lemma UnlockPanics(s: State, r: Req, l: Local, ans: Answer)
    requires Unlocking(l.pc)
    ensures var owner :=
                  if InReleaseVolume(l.pc) then VolAt(s, Released(l)).owner else SnapAt(s, ObjOf(l.snap)).owner;
            Act(s, r, l, ans).eff.Panic? <==> owner != Some(r)
  {
  }

  // ---- Nothing is left behind ----

  predicate Idle(l: Local) { l.tgt.Empty? && l.src.Empty? && l.snap.Empty? }

  /** Whenever no request is at work on any object, every cached volume and snapshot is in
      stateCreated with reference count zero and a free bolt: failed creations, failed lookups and
      deletions leave no placeholder behind. */
  lemma QuiescentCleanliness(s: State)
    requires Reachable(s)
    requires forall r <- s.reqs :: Idle(s.reqs[r])
    ensures && (forall n <- s.vHash :: VolAt(s, s.vHash[n]) == Vol(n, Created, 0, None))
            && (forall n <- s.sHash :: var x := SnapAt(s, s.sHash[n]);
                  x.name == n && x.life.Created? && x.refcount == 0 && x.owner.None?)
  {
    ReachableInv(s);
    forall n | n in s.vHash ensures VolAt(s, s.vHash[n]) == Vol(n, Created, 0, None) {
      QuietVolume(s, n);
    }
    forall n | n in s.sHash
      ensures var x := SnapAt(s, s.sHash[n]); x.name == n && x.life.Created? && x.refcount == 0 && x.owner.None?
    {
      QuietSnapshot(s, n);
    }
  }

  lemma QuietVolume(s: State, n: VolName)
    requires VMutexInv(s) && VolInv(s) && RefInv(s) && n in s.vHash
    requires forall r <- s.reqs :: Idle(s.reqs[r])
    ensures VolAt(s, s.vHash[n]) == Vol(n, Created, 0, None)
  {
    assert CachedVol(s, s.vHash[n]) && Holders(s.reqs, s.vHash[n]) == {};
  }

  lemma QuietSnapshot(s: State, n: SnapName)
    requires SnapInv(s) && n in s.sHash
    requires forall r <- s.reqs :: Idle(s.reqs[r])
    ensures var x := SnapAt(s, s.sHash[n]); x.name == n && x.life.Created? && x.refcount == 0 && x.owner.None?
  {
    assert Cached(s, s.sHash[n]) && !InUse(s, s.sHash[n]);
  }

  // ---- The appliance ----

  ghost predicate SightedReachable(s: State) {
    exists states, events :: SightedRun(states, events) && states[|events|] == s
  }

  ghost predicate SightedLeads(s: State, s': State) {
    exists states, events :: SightedPath(states, events) && states[0] == s && states[|events|] == s'
  }

  lemma SightedInv(s: State)
    requires SightedReachable(s)
    ensures Reachable(s) && Inv(s) && AppInv(s)
  {
    var states, events :| SightedRun(states, events) && states[|events|] == s;
    assert Run(states, events);
    RunInv(states, events, |events|);
    RunApp(states, events, |events|);
  }

  /** In every state of every run, every snapshot on the appliance has its source volume and every clone
      its origin snapshot, although the appliance refuses no deletion and any answer may be lost. No
      deletion of a LUN may be decided on a list of snapshots of which no entry is understood. */
  lemma ReferentialIntegrity(s: State)
    requires SightedReachable(s)
    ensures Integrity(s)
  {
    SightedInv(s);
  }

  /** When a LUN is about to be deleted and no entry of the list of its snapshots is understood, the
      appliance can become inconsistent exactly if the LUN has a snapshot. */
  lemma BlindDeletionExactly(s: State, r: Req)
    requires SightedReachable(s) && Ready(s, r) && Unread(s.reqs[r], Lost)
    ensures (exists s' :: SightedLeads(Advance(s, r, Lost), s') && !Integrity(s'))
            <==> !NoSnapshots(s, VolNameOf(s.reqs[r].op, Source))
  {
    var s1, name := Advance(s, r, Lost), VolNameOf(s.reqs[r].op, Source);
    SightedInv(s);
    AdvanceKeepsInv(s, r, Lost);
    if NoSnapshots(s, name) {
      StepKeepsApp(s, Event(r, Go(Lost)), s1);
      forall s' | SightedLeads(s1, s') ensures Integrity(s') {
        var states, events :| SightedPath(states, events) && states[0] == s1 && states[|events|] == s';
        PathApp(states, events, |events|);
      }
    } else {
      InvLocal(s, r);
      BlindDeletion(s, r);
    }
  }

  lemma BlindDeletion(s: State, r: Req)
    requires Integrity(s) && Ready(s, r) && LocalOk(s.reqs[r]) && Unread(s.reqs[r], Lost)
    requires !NoSnapshots(s, VolNameOf(s.reqs[r].op, Source))
    ensures exists s' :: SightedLeads(Advance(s, r, Lost), s') && !Integrity(s')
  {
    var name, s1 := VolNameOf(s.reqs[r].op, Source), Advance(s, r, Lost);
    BlindDecision(s, r);
    assert CurName(s1.reqs[r]) == name;
    DeletionRemoves(s1, r);
    var s2 := Advance(s1, r, Reply);
    var p :| p in s.appSnaps && p.0 == name;
    assert p in s2.appSnaps && name !in s2.appVols;
    SightedOnce(s1, Event(r, Go(Reply)), s2);
  }

  lemma BlindDecision(s: State, r: Req)
    requires Integrity(s) && Ready(s, r) && LocalOk(s.reqs[r]) && Unread(s.reqs[r], Lost)
    requires !NoSnapshots(s, VolNameOf(s.reqs[r].op, Source))
    ensures Advance(s, r, Lost) == s.(reqs := s.reqs[r := s.reqs[r].(pc := DelGo)])
    ensures Ready(Advance(s, r, Lost), r) && CurName(s.reqs[r]) == VolNameOf(s.reqs[r].op, Source)
  {
    OnSourceSide(s.reqs[r]);
    BlindAct(s, r, s.reqs[r]);
  }

  lemma BlindAct(s: State, r: Req, l: Local)
    requires Unread(l, Lost) && CurName(l) in s.appVols
    ensures Act(s, r, l, Lost) == Move(Skip, l.(pc := DelGo))
  {
  }

  lemma OnSourceSide(l: Local)
    requires LocalOk(l) && l.pc.DelList?
    ensures CurName(l) == VolNameOf(l.op, Source)
  {
  }

  lemma DeletionRemoves(s: State, r: Req)
    requires r in s.reqs && s.reqs[r].pc.DelGo?
    ensures var s' := Advance(s, r, Reply); CurName(s.reqs[r]) !in s'.appVols && s'.appSnaps == s.appSnaps
  {
  }

  lemma SightedOnce(s: State, e: Event, s': State)
    requires Step(s, e.req, e.action, s') && SightedStep(s, e)
    ensures SightedLeads(s, s')
  {
    var states, events := [s, s'], [e];
    assert StepAt(states, events, 0);
    assert SightedAt(states, events, 0);
    assert SightedPath(states, events) && states[0] == s && states[|events|] == s';
  }
}
