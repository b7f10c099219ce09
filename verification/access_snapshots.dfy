/** Snapshot objects, their cache and its mutex, and the content of the appliance: the invariant. */
module AccessSnapshots {
  import opened Common
  import opened AccessModel
  import opened AccessProgram

  ghost predicate SMutexInv(s: State) {
    && (forall r :: r in s.sReaders <==> r in s.reqs && s.reqs[r].sm.Reads?)
    && (forall r :: s.sWriter == Some(r) <==> r in s.reqs && s.reqs[r].sm.Writes?)
    && (s.sWriter.Some? ==> s.sReaders == {})
  }

  /** A request at work on a snapshot is alone with it: the snapshot is the one cached under its name,
      it was taken of the volume the request owns, and nobody else counts or locks it. */
  ghost predicate SnapSlotInv(s: State, r: Req, l: Local) {
    l.snap.Empty? ||
    (&& l.snap.o < |s.snaps|
     && l.src.Mine?
     && s.snaps[l.snap.o].name == SnapNameOf(l.op)
     && s.snaps[l.snap.o].source == VolNameOf(l.op, Source)
     && SnapNameOf(l.op) in s.sHash && s.sHash[SnapNameOf(l.op)] == l.snap.o
     && s.snaps[l.snap.o].refcount == (if Counted(l.snap) then 1 else 0)
     && s.snaps[l.snap.o].owner == (if Owning(l.snap) then Some(r) else None)
     && (l.snap.Placed? || l.snap.Fresh? ==> s.snaps[l.snap.o].life.Creating?)
     && (l.snap.Held? || l.snap.Mine? || l.snap.Parting? ==> s.snaps[l.snap.o].life.Created?))
  }

  ghost predicate SnapSlotsInv(s: State) { forall r <- s.reqs :: SnapSlotInv(s, r, s.reqs[r]) }

  // The owner of the volume cached under the name of x's source is at work on x.
  ghost predicate InUse(s: State, x: nat)
    requires x < |s.snaps|
  {
    s.snaps[x].source in s.vHash
    && var o := s.vHash[s.snaps[x].source];
    && o < |s.vols| && s.vols[o].owner.Some? && s.vols[o].owner.value in s.reqs
    && !s.reqs[s.vols[o].owner.value].snap.Empty? && s.reqs[s.vols[o].owner.value].snap.o == x
  }

  predicate Cached(s: State, x: nat)
    requires x < |s.snaps|
  {
    s.snaps[x].name in s.sHash && s.sHash[s.snaps[x].name] == x
  }

  /** A snapshot that is counted, locked, or cached without being in stateCreated is in use. */
  ghost predicate IdleInv(s: State) {
    forall x | 0 <= x < |s.snaps| ::
      (s.snaps[x].refcount != 0 || s.snaps[x].owner.Some? || (Cached(s, x) && !s.snaps[x].life.Created?)) ==>
        InUse(s, x)
  }

  /** A snapshot object points at a volume object of its source's name, cached or not. */
  ghost predicate NamesInv(s: State) { forall x | 0 <= x < |s.snaps| :: NamesSource(s, x) }

  predicate NamesSource(s: State, x: nat) {
    x < |s.snaps| && s.snaps[x].volume < |s.vols| && s.vols[s.snaps[x].volume].name == s.snaps[x].source
  }

  ghost predicate SnapCacheInv(s: State) {
    forall n | n in s.sHash :: s.sHash[n] < |s.snaps| && s.snaps[s.sHash[n]].name == n
  }

  ghost predicate SnapInv(s: State) { SnapSlotsInv(s) && IdleInv(s) && NamesInv(s) && SnapCacheInv(s) }

  // ---- The appliance ----

  predicate Masked(s: State, name: VolName) { name in s.appVols && s.appVols[name].group == MASK_ALL }

  /** Between a check and the call it guards, what was checked stays true. */
  ghost predicate GuardsInv(s: State) { forall r <- s.reqs :: GuardsHold(s, s.reqs[r]) }

  predicate GuardsHold(s: State, l: Local) {
    && (l.pc.SDelGo? ==> NoClones(s, KeyOf(l.op)))
    && (l.pc.PubSet? ==> Masked(s, VolNameOf(l.op, Source)))
  }

  /** The volume about to be deleted has no snapshots. */
  ghost predicate ListsInv(s: State) { forall r <- s.reqs :: ListHolds(s, s.reqs[r]) }

  predicate ListHolds(s: State, l: Local) { l.pc.DelGo? ==> NoSnapshots(s, VolNameOf(l.op, Source)) }

  // ---- What the steps do to the appliance ----

  // A new share appears under the name the request works on.
  predicate Grows(s: State, l: Local, app: map<VolName, Share>) {
    var name := VolNameOf(l.op, Touched(l));
    && name !in s.appVols && name in app && app == s.appVols[name := app[name]]
    && app[name].group == MASK_ALL
    && (app[name].origin == None
        || (l.pc.Clone? && app[name].origin == Some(KeyOf(l.op)) && KeyOf(l.op) in s.appSnaps))
  }

  predicate SetsGroup(s: State, l: Local, app: map<VolName, Share>) {
    var name := VolNameOf(l.op, Source);
    && (l.pc.PubSet? || l.pc.Unpub?)
    && name in s.appVols && name in app && app == s.appVols[name := app[name]]
    && app[name].origin == s.appVols[name].origin
  }

  predicate Drops(s: State, l: Local, app: map<VolName, Share>) {
    l.pc.DelGo? && app == HashDelete(s.appVols, VolNameOf(l.op, Source))
  }

  predicate AppContract(s: State, l: Local, m: Move) {
    && (match m.eff
        case VAct(o, life, app) =>
          && (life.Created? ==> VolNameOf(l.op, Touched(l)) in app || l.pc.Refresh?)
          && (life.Deleted? ==> l.pc.DelGo? || l.pc.Create?)
          && (app == s.appVols || Grows(s, l, app) || (life.Deleted? && Drops(s, l, app)))
        case AppAct(app) => Grows(s, l, app) || SetsGroup(s, l, app) || Drops(s, l, app)
        case SAct(x, life, app) =>
          && (life.Created? ==> KeyOf(l.op) in app || l.pc.SRefresh?)
          && (app == s.appSnaps || (KeyOf(l.op).0 in s.appVols && app == s.appSnaps + {KeyOf(l.op)})
              || (l.pc.SDelGo? && life.Deleted? && app == s.appSnaps - {KeyOf(l.op)}))
        case AppSnapAct(app) => l.pc.SDelGo? && app == s.appSnaps - {KeyOf(l.op)}
        case _ => true)
    && (m.next.pc.DelGo? ==> m.eff.Skip?)
    && (m.next.pc.SDelGo? ==> m.eff.Skip? && NoClones(s, KeyOf(l.op)))
    && (m.next.pc.PubSet? ==> m.eff.Skip? && Masked(s, VolNameOf(l.op, Source)))
    && (l.pc.DelGo? || l.pc.PubSet? || l.pc.Unpub? ==> l.which.Source? && l.src.Mine? && l.snap.Empty?)
    && (l.pc.SDelGo? || l.pc.Clone? ==> l.which.Source? && l.snap.Mine?)
  }

  /** The list of snapshots that permits the deletion of a volume is not empty merely for want of
      entries that are understood. */
  predicate Sighted(s: State, l: Local, ans: Answer) { Unread(l, ans) ==> NoSnapshots(s, VolNameOf(l.op, Source)) }

  lemma LookupVolumeApp(s: State, l: Local, ans: Answer)
    requires LocalOk(l) && InLookupVolume(l.pc)
    ensures AppContract(s, l, LookupVolumeAct(s, l, ans))
  {
  }

  lemma NewVolumeApp(s: State, l: Local)
    requires LocalOk(l) && InNewVolume(l.pc)
    ensures AppContract(s, l, NewVolumeAct(s, l))
  {
  }

  lemma VolumeActionApp(s: State, l: Local, ans: Answer)
    requires LocalOk(l) && InVolumeAction(l.pc)
    ensures AppContract(s, l, VolumeActionAct(s, l, ans))
  {
  }

  lemma LookupSnapshotApp(s: State, l: Local, ans: Answer)
    requires LocalOk(l) && InLookupSnapshot(l.pc)
    ensures AppContract(s, l, LookupSnapshotAct(s, l, ans))
  {
  }

  lemma NewSnapshotApp(s: State, l: Local)
    requires LocalOk(l) && InNewSnapshot(l.pc)
    ensures AppContract(s, l, NewSnapshotAct(s, l))
  {
  }

  lemma SnapshotActionApp(s: State, l: Local, ans: Answer)
    requires LocalOk(l) && InSnapshotAction(l.pc)
    ensures AppContract(s, l, SnapshotActionAct(s, l, ans))
  {
  }

  lemma ReleaseSnapshotApp(s: State, r: Req, l: Local)
    requires LocalOk(l) && InReleaseSnapshot(l.pc)
    ensures AppContract(s, l, ReleaseSnapshotAct(s, r, l))
  {
  }

  lemma ReleaseVolumeApp(s: State, r: Req, l: Local)
    requires LocalOk(l) && InReleaseVolume(l.pc)
    ensures AppContract(s, l, ReleaseVolumeAct(s, r, l))
  {
  }

  lemma ActApp(s: State, r: Req, l: Local, ans: Answer)
    requires LocalOk(l)
    ensures AppContract(s, l, Act(s, r, l, ans))
  {
    if InLookupVolume(l.pc) { LookupVolumeApp(s, l, ans); }
    else if InNewVolume(l.pc) { NewVolumeApp(s, l); }
    else if InVolumeAction(l.pc) { VolumeActionApp(s, l, ans); }
    else if InLookupSnapshot(l.pc) { LookupSnapshotApp(s, l, ans); }
    else if InNewSnapshot(l.pc) { NewSnapshotApp(s, l); }
    else if InSnapshotAction(l.pc) { SnapshotActionApp(s, l, ans); }
    else if InReleaseSnapshot(l.pc) { ReleaseSnapshotApp(s, r, l); }
    else if InReleaseVolume(l.pc) { ReleaseVolumeApp(s, r, l); }
  }

  /** On a list of which some entry is understood, if there is any, deletion is decided rightly. */
  lemma ActLists(s: State, r: Req, l: Local, ans: Answer)
    requires LocalOk(l) && Sighted(s, l, ans)
    ensures ListHolds(s, Act(s, r, l, ans).next)
  {
    if InVolumeAction(l.pc) { VolumeActionLists(s, l, ans); }
    else if InReleaseSnapshot(l.pc) || InReleaseVolume(l.pc) { ReleaseLists(s, r, l, ans); }
    else { OtherLists(s, r, l, ans); }
  }

  lemma ReleaseLists(s: State, r: Req, l: Local, ans: Answer)
    requires InReleaseSnapshot(l.pc) || InReleaseVolume(l.pc)
    ensures !Act(s, r, l, ans).next.pc.DelGo?
  {
  }

  lemma OtherLists(s: State, r: Req, l: Local, ans: Answer)
    requires !InVolumeAction(l.pc) && !InReleaseSnapshot(l.pc) && !InReleaseVolume(l.pc)
    ensures !Act(s, r, l, ans).next.pc.DelGo?
  {
  }

  lemma VolumeActionLists(s: State, l: Local, ans: Answer)
    requires LocalOk(l) && Sighted(s, l, ans) && InVolumeAction(l.pc)
    ensures ListHolds(s, VolumeActionAct(s, l, ans).next)
  {
  }
}
