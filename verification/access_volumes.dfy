/** Volume objects, their cache and its mutex: the invariant and its preservation by every operation. */
module AccessVolumes {
  import opened Common
  import opened AccessModel
  import opened AccessProgram

  // ---- Facts about a request's variables that the shared invariants rely on ----

  predicate Tidy(l: Local) {
    && (l.tgt.Leaving? ==> l.vm.Writes? && l.which.Target?)
    && (l.src.Leaving? ==> l.vm.Writes? && l.which.Source?)
    && (l.tgt.Parting? || l.src.Parting? ==> l.vm.Reads?)
    && (l.which.Target? ==> l.src.Empty?)
    && (l.which.Source? ==> l.tgt.Empty? || InHand(l.tgt))
    && !l.tgt.Placed? && !l.src.Placed?
    && (!l.snap.Empty? ==> l.which.Source? && l.src.Mine? && NeedsSnap(l.op) && l.vm.Free?)
    && (l.snap.Leaving? ==> l.sm.Writes?)
    && (l.pc.DelGo? || l.pc.SDelGo? || l.pc.PubSet? ==> l.src.Mine?)
  }

  lemma LocalOkTidy(l: Local)
    requires LocalOk(l)
    ensures Tidy(l)
  {
  }

  /** What Ready demands of the operation to come. */
  predicate Guarded(s: State, e: Effect) {
    match e
    case VRLock => s.vWriter.None?
    case VLock => s.vWriter.None? && s.vReaders == {}
    case VTake(o) => VolAt(s, o).owner.None?
    case SRLock => s.sWriter.None?
    case SLock => s.sWriter.None? && s.sReaders == {}
    case STake(x) => SnapAt(s, x).owner.None?
    case _ => true
  }

  lemma VolumesGuarded(s: State, r: Req, ans: Answer)
    requires Ready(s, r) && (InLookupVolume(s.reqs[r].pc) || InNewVolume(s.reqs[r].pc) || InVolumeAction(s.reqs[r].pc))
    ensures Guarded(s, Act(s, r, s.reqs[r], ans).eff)
  {
  }

  lemma SnapshotsGuarded(s: State, r: Req, ans: Answer)
    requires Ready(s, r) && (InLookupSnapshot(s.reqs[r].pc) || InSnapshotAction(s.reqs[r].pc))
    ensures Guarded(s, Act(s, r, s.reqs[r], ans).eff)
  {
  }

  lemma NewSnapshotGuarded(s: State, r: Req)
    requires Ready(s, r) && InNewSnapshot(s.reqs[r].pc)
    ensures Guarded(s, NewSnapshotAct(s, s.reqs[r]).eff)
  {
  }

  lemma SnapshotReleaseGuarded(s: State, r: Req)
    requires Ready(s, r) && InReleaseSnapshot(s.reqs[r].pc)
    ensures Guarded(s, ReleaseSnapshotAct(s, r, s.reqs[r]).eff)
  {
  }

  lemma VolumeReleaseGuarded(s: State, r: Req)
    requires Ready(s, r) && InReleaseVolume(s.reqs[r].pc)
    ensures Guarded(s, ReleaseVolumeAct(s, r, s.reqs[r]).eff)
  {
  }

  lemma ActGuarded(s: State, r: Req, ans: Answer)
    requires Ready(s, r)
    ensures Guarded(s, Act(s, r, s.reqs[r], ans).eff)
  {
    var pc := s.reqs[r].pc;
    if InLookupVolume(pc) || InNewVolume(pc) || InVolumeAction(pc) { VolumesGuarded(s, r, ans); }
    else if InReleaseSnapshot(pc) { SnapshotReleaseGuarded(s, r); }
    else if InReleaseVolume(pc) { VolumeReleaseGuarded(s, r); }
    else if InNewSnapshot(pc) { NewSnapshotGuarded(s, r); }
    else if InLookupSnapshot(pc) || InSnapshotAction(pc) { SnapshotsGuarded(s, r, ans); }
  }

  ghost predicate TidyInv(s: State) { forall r <- s.reqs :: Tidy(s.reqs[r]) }

  /** The volume mutex is held exactly by the requests between its acquisition and its release,
      and a writer excludes every reader and every other writer. */
  ghost predicate VMutexInv(s: State) {
    && (forall r :: r in s.vReaders <==> r in s.reqs && s.reqs[r].vm.Reads?)
    && (forall r :: s.vWriter == Some(r) <==> r in s.reqs && s.reqs[r].vm.Writes?)
    && (s.vWriter.Some? ==> s.vReaders == {})
  }

  // ---- The invariant of volume objects ----

  /** A slot names the object cached under the slot's volume name. */
  ghost predicate SlotInv(s: State, r: Req, sl: Slot, name: VolName) {
    sl.Empty? ||
    (&& sl.o < |s.vols|
     && s.vols[sl.o].name == name
     && name in s.vHash && s.vHash[name] == sl.o
     && (Owning(sl) ==> s.vols[sl.o].owner == Some(r))
     && (sl.Fresh? ==> s.vols[sl.o].life.Creating?)
     && (sl.Mine? ==> s.vols[sl.o].life.Created?)
     && (sl.Parting? ==> s.vols[sl.o].life.Created? || s.vols[sl.o].refcount > 0)
     && (sl.Closing? ==> !LeftBehind(s, sl.o)))
  }

  // A writer of the cache has given up object o and is about to decide on its removal.
  ghost predicate LeftBehind(s: State, o: nat) {
    s.vWriter.Some? && s.vWriter.value in s.reqs && Cur(s.reqs[s.vWriter.value]) == Leaving(o)
  }

  ghost predicate SlotsInv(s: State) {
    forall r, k: Which | r in s.reqs :: SlotInv(s, r, SlotOf(s.reqs[r], k), VolNameOf(s.reqs[r].op, k))
  }

  // One request never owns one bolt through both of its slots.
  predicate OwnsOnce(l: Local) { !(Owning(l.tgt) && Owning(l.src) && l.tgt.o == l.src.o) }

  ghost predicate OwnsOnceInv(s: State) { forall r <- s.reqs :: OwnsOnce(s.reqs[r]) }

  predicate OwnsVol(l: Local, o: nat) { (Owning(l.tgt) && l.tgt.o == o) || (Owning(l.src) && l.src.o == o) }

  // A bolt is only ever owned by a request that knows it.
  ghost predicate OwnersInv(s: State) {
    forall o | 0 <= o < |s.vols| && s.vols[o].owner.Some? ::
      s.vols[o].owner.value in s.reqs && OwnsVol(s.reqs[s.vols[o].owner.value], o)
  }

  /** The cache maps names to objects of that name; an object not in stateCreated is in use. */
  ghost predicate CacheInv(s: State) {
    forall n | n in s.vHash ::
      && s.vHash[n] < |s.vols|
      && s.vols[s.vHash[n]].name == n
      && (s.vols[s.vHash[n]].life.Created? || s.vols[s.vHash[n]].refcount > 0
          || s.vols[s.vHash[n]].owner.Some? || LeftBehind(s, s.vHash[n]))
  }

  ghost predicate VolInv(s: State) { SlotsInv(s) && OwnsOnceInv(s) && OwnersInv(s) && CacheInv(s) }

  // ---- Objects that have left the cache ----

  predicate CachedVol(s: State, o: nat) {
    o < |s.vols| && s.vols[o].name in s.vHash && s.vHash[s.vols[o].name] == o
  }

  /** An object that left the cache is gone for good: nobody counts it, owns it, or finds it created. */
  ghost predicate DeadInv(s: State) {
    forall o | 0 <= o < |s.vols| && !CachedVol(s, o) ::
      s.vols[o].refcount <= 0 && s.vols[o].owner.None? && !s.vols[o].life.Created?
  }

  ghost predicate StrayInv(s: State) { forall r <- s.reqs :: GoneAstray(s, s.reqs[r]) }

  predicate GoneAstray(s: State, l: Local) {
    l.stray.Some? ==> l.stray.value < |s.vols| && !CachedVol(s, l.stray.value)
  }

  lemma StrayIsDead(s: State, r: Req)
    requires DeadInv(s) && StrayInv(s) && r in s.reqs
    ensures StrayDead(s, r, s.reqs[r])
  {
    assert GoneAstray(s, s.reqs[r]);
  }

  // ---- The reference count ----

  /** The slots that count as references to object o. */
  ghost function Holders(reqs: map<Req, Local>, o: nat): set<(Req, Which)> {
    set r, k: Which | r in reqs && k in {Target, Source} && Counts(reqs[r], k, o) :: (r, k)
  }

  predicate Counts(l: Local, k: Which, o: nat) { Counted(SlotOf(l, k)) && SlotOf(l, k).o == o }

  /** The reference count of a cached volume is the number of requests between its hold and its release. */
  ghost predicate RefInv(s: State) {
    forall o | 0 <= o < |s.vols| && CachedVol(s, o) :: s.vols[o].refcount == |Holders(s.reqs, o)|
  }

  lemma HoldersSame(reqs: map<Req, Local>, r: Req, n: Local, o: nat)
    requires r in reqs
    requires forall k: Which :: Counts(n, k, o) == Counts(reqs[r], k, o)
    ensures Holders(reqs[r := n], o) == Holders(reqs, o)
  {
  }

  lemma HoldersMore(reqs: map<Req, Local>, r: Req, n: Local, k: Which, o: nat)
    requires r in reqs
    requires !Counts(reqs[r], k, o) && Counts(n, k, o)
    requires forall j: Which | j != k :: Counts(n, j, o) == Counts(reqs[r], j, o)
    ensures |Holders(reqs[r := n], o)| == |Holders(reqs, o)| + 1
  {
    assert reqs[r := n][r := reqs[r]] == reqs;
    HoldersFewer(reqs[r := n], r, reqs[r], k, o);
  }

  lemma HoldersFewer(reqs: map<Req, Local>, r: Req, n: Local, k: Which, o: nat)
    requires r in reqs
    requires Counts(reqs[r], k, o) && !Counts(n, k, o)
    requires forall j: Which | j != k :: Counts(n, j, o) == Counts(reqs[r], j, o)
    ensures |Holders(reqs[r := n], o)| == |Holders(reqs, o)| - 1
  {
    assert Holders(reqs[r := n], o) == Holders(reqs, o) - {(r, k)};
  }
}
