/**
  What one request's own variables say at each program point, and what its next operation
  looks like from outside: the contract every step keeps, whatever the other requests do.
 */
module AccessProgram {
  import opened Common
  import opened AccessModel

  // What the slot of an object may be.
  datatype Grip =
    | NoGrip | IsHeld | IsPlaced | IsFresh | IsMine | IsInHand | IsAcquired | IsParting | IsClosing | IsLeaving

  datatype Side = OnTarget | OnSource | OnEither

  datatype Need = AnyOp | SnapOp | CloneOp

  /** cur, snap: the slots of the volume being worked on and of the snapshot; vm, sm: the modes in
      which the two cache mutexes are held; side: which volume slot is worked on. */
  datatype Point = Point(cur: Grip, vm: Mode, snap: Grip, sm: Mode, side: Side, need: Need)

  predicate InHand(sl: Slot) { sl.Fresh? || sl.Mine? }

  predicate Acquired(sl: Slot) { sl.Fresh? || sl.Mine? || sl.Spent? }

  predicate Fits(g: Grip, sl: Slot) {
    match g
    case NoGrip => sl.Empty?
    case IsHeld => sl.Held?
    case IsPlaced => sl.Placed?
    case IsFresh => sl.Fresh?
    case IsMine => sl.Mine?
    case IsInHand => InHand(sl)
    case IsAcquired => Acquired(sl)
    case IsParting => sl.Parting?
    case IsClosing => sl.Closing?
    case IsLeaving => sl.Leaving?
  }

  function PointOf(pc: Pc): Point {
    match pc
    case LkRLock => Point(NoGrip, Free, NoGrip, Free, OnSource, AnyOp)
    case LkIn => Point(NoGrip, Reads, NoGrip, Free, OnSource, AnyOp)
    case LkHit => Point(IsHeld, Reads, NoGrip, Free, OnSource, AnyOp)
    case LkMiss => Point(NoGrip, Reads, NoGrip, Free, OnSource, AnyOp)
    case Details => Point(IsFresh, Free, NoGrip, Free, OnSource, AnyOp)
    case NwLock => Point(NoGrip, Free, NoGrip, Free, OnEither, AnyOp)
    case NwIn => Point(NoGrip, Writes, NoGrip, Free, OnEither, AnyOp)
    case NwHit => Point(IsHeld, Writes, NoGrip, Free, OnEither, AnyOp)
    case NwFresh => Point(IsFresh, Writes, NoGrip, Free, OnEither, AnyOp)
    case VBolt => Point(IsHeld, Free, NoGrip, Free, OnEither, AnyOp)
    case Create => Point(IsInHand, Free, NoGrip, Free, OnTarget, AnyOp)
    case Refresh => Point(IsInHand, Free, NoGrip, Free, OnTarget, AnyOp)
    case DelList => Point(IsMine, Free, NoGrip, Free, OnSource, AnyOp)
    case DelGo => Point(IsMine, Free, NoGrip, Free, OnSource, AnyOp)
    case PubRead => Point(IsMine, Free, NoGrip, Free, OnSource, AnyOp)
    case PubSet => Point(IsMine, Free, NoGrip, Free, OnSource, AnyOp)
    case Unpub => Point(IsMine, Free, NoGrip, Free, OnSource, AnyOp)
    case Use => Point(IsMine, Free, NoGrip, Free, OnSource, AnyOp)
    case SLkRLock => Point(IsMine, Free, NoGrip, Free, OnSource, SnapOp)
    case SLkIn => Point(IsMine, Free, NoGrip, Reads, OnSource, SnapOp)
    case SLkHit => Point(IsMine, Free, IsHeld, Reads, OnSource, SnapOp)
    case SLkMiss => Point(IsMine, Free, NoGrip, Reads, OnSource, SnapOp)
    case SDetails => Point(IsMine, Free, IsFresh, Free, OnSource, SnapOp)
    case SNwLock => Point(IsMine, Free, NoGrip, Free, OnSource, SnapOp)
    case SNwIn => Point(IsMine, Free, NoGrip, Writes, OnSource, SnapOp)
    case SNwHit => Point(IsMine, Free, IsHeld, Writes, OnSource, SnapOp)
    case SNwFresh => Point(IsMine, Free, IsPlaced, Writes, OnSource, SnapOp)
    case SNwDiff => Point(IsMine, Free, NoGrip, Writes, OnSource, SnapOp)
    case SBoltFresh => Point(IsMine, Free, IsPlaced, Free, OnSource, SnapOp)
    case SBolt => Point(IsMine, Free, IsHeld, Free, OnSource, SnapOp)
    case SCreate => Point(IsMine, Free, IsInHand, Free, OnSource, SnapOp)
    case SRefresh => Point(IsMine, Free, IsInHand, Free, OnSource, SnapOp)
    case SDelInfo => Point(IsMine, Free, IsMine, Free, OnSource, SnapOp)
    case SDelGo => Point(IsMine, Free, IsMine, Free, OnSource, SnapOp)
    case Clone => Point(IsMine, Free, IsMine, Free, OnSource, CloneOp)
    case SGet => Point(IsMine, Free, IsMine, Free, OnSource, SnapOp)
    case SRlRLock => Point(IsMine, Free, IsAcquired, Free, OnSource, SnapOp)
    case SRlIn => Point(IsMine, Free, IsAcquired, Reads, OnSource, SnapOp)
    case SRlFast => Point(IsMine, Free, IsParting, Reads, OnSource, SnapOp)
    case SRlFastBolt => Point(IsMine, Free, IsParting, Free, OnSource, SnapOp)
    case SRlSlow => Point(IsMine, Free, IsClosing, Reads, OnSource, SnapOp)
    case SRlSlowLock => Point(IsMine, Free, IsClosing, Free, OnSource, SnapOp)
    case SRlUnbolt => Point(IsMine, Free, IsClosing, Writes, OnSource, SnapOp)
    case SRlDel => Point(IsMine, Free, IsLeaving, Writes, OnSource, SnapOp)
    case SRlSlowDone => Point(IsMine, Free, NoGrip, Writes, OnSource, SnapOp)
    case VRlRLock => Point(IsAcquired, Free, NoGrip, Free, OnEither, AnyOp)
    case VRlIn => Point(IsAcquired, Reads, NoGrip, Free, OnEither, AnyOp)
    case VRlFastBolt => Point(IsParting, Reads, NoGrip, Free, OnEither, AnyOp)
    case VRlFast => Point(NoGrip, Reads, NoGrip, Free, OnEither, AnyOp)
    case VRlSlow => Point(IsClosing, Reads, NoGrip, Free, OnEither, AnyOp)
    case VRlSlowLock => Point(IsClosing, Free, NoGrip, Free, OnEither, AnyOp)
    case VRlUnbolt => Point(IsClosing, Writes, NoGrip, Free, OnEither, AnyOp)
    case VRlDel => Point(IsLeaving, Writes, NoGrip, Free, OnEither, AnyOp)
    case VRlSlowDone => Point(NoGrip, Writes, NoGrip, Free, OnEither, AnyOp)
    case Done => Point(NoGrip, Free, NoGrip, Free, OnEither, AnyOp)
    case Leaked => Point(IsMine, Free, IsInHand, Free, OnSource, SnapOp)
  }

  predicate OpFits(need: Need, op: Op) {
    match need
    case AnyOp => true
    case SnapOp => NeedsSnap(op)
    case CloneOp => op.CloneVolume?
  }

  // A clone keeps its target in hand while it works on the source; otherwise only one slot is used.
  predicate SidesOk(l: Local) {
    if l.which.Target? then NeedsTarget(l.op) && l.src.Empty? && !PointOf(l.pc).side.OnSource?
    else
      && NeedsSource(l.op)
      && !PointOf(l.pc).side.OnTarget?
      && if l.op.CloneVolume? && !l.pc.Done? then InHand(l.tgt) else l.tgt.Empty?
  }

  // With a stray volume the request keeps its own one to the end.
  predicate StrayOk(l: Local) {
    && l.which.Source? && NeedsSnap(l.op)
    && ((InReleaseSnapshot(l.pc) && !l.pc.SRlRLock?) || l.pc.VRlRLock? || l.pc.VRlIn? || l.pc.VRlFastBolt?)
  }

  predicate LocalOk(l: Local) {
    var p := PointOf(l.pc);
    && Fits(if l.stray.Some? then IsMine else p.cur, Cur(l))
    && (l.stray.Some? ==> StrayOk(l))
    && Fits(p.snap, l.snap)
    && OpFits(p.need, l.op)
    && SidesOk(l)
    && l.vm == p.vm
    && l.sm == p.sm
  }

  // Nobody counts or owns a stray volume any more.
  predicate StrayDead(s: State, r: Req, l: Local) {
    l.stray.Some? ==> VolAt(s, l.stray.value).refcount != 1 && VolAt(s, l.stray.value).owner != Some(r)
  }

  // ---- What a step looks like from outside ----

  predicate SameVols(l: Local, n: Local) { n.tgt == l.tgt && n.src == l.src }

  predicate OnlyVol(l: Local, n: Local, k: Which, sl: Slot) {
    if k.Target? then n.tgt == sl && n.src == l.src else n.src == sl && n.tgt == l.tgt
  }

  // The slot of the volume whose state an appliance call changes.
  function Touched(l: Local): Which { if l.pc.Clone? then Target else l.which }

  // What the step does with the volume mutex and the request's volume slots.
  predicate VolContract(s: State, l: Local, m: Move) {
    var n := m.next;
    match m.eff
    case VRLock => SameVols(l, n) && l.vm.Free? && n.vm.Reads?
    case VRUnlock => SameVols(l, n) && l.vm.Reads? && n.vm.Free?
    case VLock => SameVols(l, n) && l.vm.Free? && n.vm.Writes?
    case VUnlock => SameVols(l, n) && l.vm.Writes? && n.vm.Free?
    case VHold(o) =>
      && l.vm == n.vm && !l.vm.Free? && Cur(l).Empty?
      && CurName(l) in s.vHash && s.vHash[CurName(l)] == o && OnlyVol(l, n, l.which, Held(o))
    case VAdd(name) =>
      && l.vm == n.vm == Writes && Cur(l).Empty?
      && name == CurName(l) && name !in s.vHash && OnlyVol(l, n, l.which, Fresh(|s.vols|))
    case VTake(o) =>
      && l.vm == n.vm == Free && Cur(l) == Held(o)
      && OnlyVol(l, n, l.which, if VolAt(s, o).life.Created? then Mine(o) else Spent(o))
    case VCount(o) =>
      && l.vm == n.vm == Reads
      && if l.stray.Some? then o == l.stray.value && SameVols(l, n)
         else
           && Acquired(Cur(l)) && Cur(l).o == o
           && OnlyVol(l, n, l.which,
                      if VolAt(s, o).refcount == 1 && !VolAt(s, o).life.Created? then Closing(o) else Parting(o))
    case VFree(o) =>
      && l.vm == n.vm
      && ((l.vm.Reads? && Cur(l) == Parting(o) && OnlyVol(l, n, l.which, Empty))
          || (l.vm.Writes? && Cur(l) == Closing(o) && OnlyVol(l, n, l.which, Leaving(o))))
    case VRemove(o) =>
      && l.vm == n.vm == Writes && Cur(l) == Leaving(o) && OnlyVol(l, n, l.which, Empty)
      && VolAt(s, o).refcount == 0 && !VolAt(s, o).life.Created?
    case VAct(o, life, _) =>
      && l.vm == n.vm == Free && !life.Creating?
      && InHand(SlotOf(l, Touched(l))) && SlotOf(l, Touched(l)).o == o
      && OnlyVol(l, n, Touched(l), if life.Created? then Mine(o) else Spent(o))
    case Skip =>
      l.vm == n.vm
      && (SameVols(l, n)
          || (Cur(l).Leaving? && l.vm.Writes? && OnlyVol(l, n, l.which, Empty)
              && (VolAt(s, Cur(l).o).refcount != 0 || VolAt(s, Cur(l).o).life.Created?)))
    case _ => l.vm == n.vm && SameVols(l, n)
  }

  // The same for the snapshot mutex and the request's snapshot slot.
  predicate SnapContract(s: State, l: Local, m: Move) {
    var n := m.next;
    match m.eff
    case SRLock => n.snap == l.snap && l.sm.Free? && n.sm.Reads?
    case SRUnlock => n.snap == l.snap && l.sm.Reads? && n.sm.Free?
    case SLock => n.snap == l.snap && l.sm.Free? && n.sm.Writes?
    case SUnlock => n.snap == l.snap && l.sm.Writes? && n.sm.Free?
    case SHold(x) =>
      && l.sm == n.sm && !l.sm.Free? && l.snap.Empty? && n.snap == Held(x)
      && NeedsSnap(l.op) && l.which.Source? && l.src.Mine?
      && SnapNameOf(l.op) in s.sHash && s.sHash[SnapNameOf(l.op)] == x
      && (SnapAt(s, x).volume == l.src.o || SnapAt(s, x).source == VolNameOf(l.op, Source))
    case SAdd(name, o, source) =>
      && l.sm == n.sm == Writes && l.snap.Empty? && n.snap == Placed(|s.snaps|)
      && NeedsSnap(l.op) && l.which.Source? && l.src == Mine(o)
      && name == SnapNameOf(l.op) && name !in s.sHash && source == VolNameOf(l.op, Source)
    case STake(x) =>
      && l.sm == n.sm == Free
      && ((l.snap == Placed(x) && n.snap == Fresh(x))
          || (l.snap == Held(x) && n.snap == if SnapAt(s, x).life.Created? then Mine(x) else Spent(x)))
    case SCount(x) =>
      && l.sm == n.sm == Reads && Acquired(l.snap) && l.snap.o == x
      && n.snap == if SnapAt(s, x).refcount == 1 && !SnapAt(s, x).life.Created? then Closing(x) else Parting(x)
    case SFree(x) =>
      && l.sm == n.sm
      && ((l.snap == Parting(x) && n.snap == Empty) || (l.snap == Closing(x) && n.snap == Leaving(x)))
    case SRemove(x) =>
      && l.sm == n.sm == Writes && l.snap == Leaving(x) && n.snap == Empty
      && SnapAt(s, x).refcount == 0 && !SnapAt(s, x).life.Created?
    case SAct(x, life, _) =>
      && l.sm == n.sm == Free && !life.Creating? && InHand(l.snap) && l.snap.o == x
      && n.snap == if life.Created? then Mine(x) else Spent(x)
    case Skip =>
      && l.sm == n.sm
      && (n.snap == l.snap
          || (l.snap.Leaving? && l.sm.Writes? && n.snap.Empty?
              && (SnapAt(s, l.snap.o).refcount != 0 || SnapAt(s, l.snap.o).life.Created?)))
    case _ => l.sm == n.sm && n.snap == l.snap
  }

  // A volume goes astray only when releaseSnapshot finds another one than lookupVolume found.
  predicate StrayContract(s: State, l: Local, m: Move) {
    var n := m.next;
    n.stray == l.stray
    || (m.eff.SRLock? && l.stray.None? && !l.snap.Empty? && !l.src.Empty?
        && n.stray == Some(SnapAt(s, l.snap.o).volume) && SnapAt(s, l.snap.o).volume != l.src.o)
  }

  predicate Contract(s: State, l: Local, m: Move) {
    m.next.op == l.op && VolContract(s, l, m) && SnapContract(s, l, m) && StrayContract(s, l, m)
  }

  // ---- Every step keeps the variables consistent and honours the contract ----

  lemma LookupVolumeLocal(s: State, l: Local, ans: Answer)
    requires LocalOk(l) && InLookupVolume(l.pc)
    ensures LocalOk(LookupVolumeAct(s, l, ans).next)
  {
  }

  lemma NewVolumeLocal1(s: State, l: Local)
    requires LocalOk(l)
    requires l.pc.NwLock? || l.pc.NwIn? || l.pc.NwHit?
    ensures LocalOk(NewVolumeAct(s, l).next)
  {
  }

  lemma NewVolumeLocal2(s: State, l: Local)
    requires LocalOk(l) && l.pc.NwFresh?
    ensures LocalOk(NewVolumeAct(s, l).next)
  {
  }

  lemma NewVolumeLocal3(s: State, l: Local)
    requires LocalOk(l) && l.pc.VBolt?
    ensures LocalOk(NewVolumeAct(s, l).next)
  {
  }

  lemma VolumeActionLocal1(s: State, l: Local, ans: Answer)
    requires LocalOk(l)
    requires l.pc.Create? || l.pc.Refresh?
    ensures LocalOk(VolumeActionAct(s, l, ans).next)
  {
  }

  lemma VolumeActionLocal2(s: State, l: Local, ans: Answer)
    requires LocalOk(l)
    requires l.pc.DelList? || l.pc.DelGo?
    ensures LocalOk(VolumeActionAct(s, l, ans).next)
  {
  }

  lemma VolumeActionLocal3(s: State, l: Local, ans: Answer)
    requires LocalOk(l)
    requires l.pc.PubRead? || l.pc.PubSet?
    ensures LocalOk(VolumeActionAct(s, l, ans).next)
  {
  }

  lemma VolumeActionLocal4(s: State, l: Local, ans: Answer)
    requires LocalOk(l)
    requires l.pc.Unpub? || l.pc.Use?
    ensures LocalOk(VolumeActionAct(s, l, ans).next)
  {
  }

  lemma LookupSnapshotLocal1(s: State, l: Local, ans: Answer)
    requires LocalOk(l)
    requires l.pc.SLkRLock? || l.pc.SLkIn? || l.pc.SLkHit?
    ensures LocalOk(LookupSnapshotAct(s, l, ans).next)
  {
  }

  lemma LookupSnapshotLocal2(s: State, l: Local, ans: Answer)
    requires LocalOk(l)
    requires l.pc.SLkMiss? || l.pc.SDetails?
    ensures LocalOk(LookupSnapshotAct(s, l, ans).next)
  {
  }

  lemma NewSnapshotLocal1(s: State, l: Local)
    requires LocalOk(l)
    requires l.pc.SNwLock? || l.pc.SNwIn? || l.pc.SNwHit?
    ensures LocalOk(NewSnapshotAct(s, l).next)
  {
  }

  lemma NewSnapshotLocal2(s: State, l: Local)
    requires LocalOk(l)
    requires l.pc.SNwFresh? || l.pc.SNwDiff?
    ensures LocalOk(NewSnapshotAct(s, l).next)
  {
  }

  lemma NewSnapshotLocal3(s: State, l: Local)
    requires LocalOk(l)
    requires l.pc.SBoltFresh? || l.pc.SBolt?
    ensures LocalOk(NewSnapshotAct(s, l).next)
  {
  }

  lemma SnapshotActionLocal1(s: State, l: Local, ans: Answer)
    requires LocalOk(l)
    requires l.pc.SCreate? || l.pc.SRefresh? || l.pc.SGet?
    ensures LocalOk(SnapshotActionAct(s, l, ans).next)
  {
  }

  lemma SnapshotActionLocal2(s: State, l: Local, ans: Answer)
    requires LocalOk(l)
    requires l.pc.SDelInfo? || l.pc.SDelGo?
    ensures LocalOk(SnapshotActionAct(s, l, ans).next)
  {
  }

  lemma SnapshotActionLocal3(s: State, l: Local, ans: Answer)
    requires LocalOk(l) && l.pc.Clone?
    ensures LocalOk(SnapshotActionAct(s, l, ans).next)
  {
  }

  lemma ReleaseSnapshotLocal1(s: State, r: Req, l: Local)
    requires LocalOk(l)
    requires l.pc.SRlRLock? || l.pc.SRlIn? || l.pc.SRlFast?
    ensures LocalOk(ReleaseSnapshotAct(s, r, l).next)
  {
  }

  lemma ReleaseSnapshotLocal2(s: State, r: Req, l: Local)
    requires LocalOk(l)
    requires l.pc.SRlFastBolt? || l.pc.SRlSlow?
    ensures LocalOk(ReleaseSnapshotAct(s, r, l).next)
  {
  }

  lemma ReleaseSnapshotLocal3(s: State, r: Req, l: Local)
    requires LocalOk(l)
    requires l.pc.SRlSlowLock? || l.pc.SRlUnbolt?
    ensures LocalOk(ReleaseSnapshotAct(s, r, l).next)
  {
  }

  lemma ReleaseSnapshotLocal4(s: State, r: Req, l: Local)
    requires LocalOk(l)
    requires l.pc.SRlDel? || l.pc.SRlSlowDone?
    ensures LocalOk(ReleaseSnapshotAct(s, r, l).next)
  {
  }

  lemma ReleaseVolumeLocal1(s: State, r: Req, l: Local)
    requires LocalOk(l) && StrayDead(s, r, l)
    requires l.pc.VRlRLock? || l.pc.VRlIn?
    ensures LocalOk(ReleaseVolumeAct(s, r, l).next)
  {
  }

  lemma ReleaseVolumeLocal2(s: State, r: Req, l: Local)
    requires LocalOk(l) && StrayDead(s, r, l) && l.pc.VRlFastBolt?
    ensures LocalOk(ReleaseVolumeAct(s, r, l).next)
  {
  }

  lemma ReleaseVolumeLocal3(s: State, r: Req, l: Local)
    requires LocalOk(l) && StrayDead(s, r, l)
    requires l.pc.VRlSlow? || l.pc.VRlSlowLock?
    ensures LocalOk(ReleaseVolumeAct(s, r, l).next)
  {
  }

  lemma ReleaseVolumeLocal4(s: State, r: Req, l: Local)
    requires LocalOk(l) && StrayDead(s, r, l)
    requires l.pc.VRlUnbolt?
    ensures LocalOk(ReleaseVolumeAct(s, r, l).next)
  {
  }

  lemma ReleaseVolumeLocal6(s: State, r: Req, l: Local)
    requires LocalOk(l) && StrayDead(s, r, l)
    requires l.pc.VRlDel?
    ensures LocalOk(ReleaseVolumeAct(s, r, l).next)
  {
  }

  lemma ReleaseVolumeLocal5(s: State, r: Req, l: Local)
    requires LocalOk(l) && StrayDead(s, r, l)
    requires l.pc.VRlFast? || l.pc.VRlSlowDone?
    ensures LocalOk(ReleaseVolumeAct(s, r, l).next)
  {
  }

  lemma LookupVolumeContract(s: State, l: Local, ans: Answer)
    requires LocalOk(l) && InLookupVolume(l.pc)
    ensures Contract(s, l, LookupVolumeAct(s, l, ans))
  {
  }

  lemma NewVolumeContract(s: State, l: Local)
    requires LocalOk(l) && InNewVolume(l.pc)
    ensures Contract(s, l, NewVolumeAct(s, l))
  {
  }

  lemma VolumeActionContract1(s: State, l: Local, ans: Answer)
    requires LocalOk(l)
    requires l.pc.Create? || l.pc.Refresh? || l.pc.DelList? || l.pc.DelGo?
    ensures Contract(s, l, VolumeActionAct(s, l, ans))
  {
  }

  lemma VolumeActionContract2(s: State, l: Local, ans: Answer)
    requires LocalOk(l)
    requires l.pc.PubRead? || l.pc.PubSet? || l.pc.Unpub? || l.pc.Use?
    ensures Contract(s, l, VolumeActionAct(s, l, ans))
  {
  }

  lemma LookupSnapshotContract(s: State, l: Local, ans: Answer)
    requires LocalOk(l) && InLookupSnapshot(l.pc)
    ensures Contract(s, l, LookupSnapshotAct(s, l, ans))
  {
  }

  lemma NewSnapshotContract1(s: State, l: Local)
    requires LocalOk(l)
    requires l.pc.SNwLock? || l.pc.SNwIn? || l.pc.SNwHit? || l.pc.SNwFresh? || l.pc.SNwDiff?
    ensures Contract(s, l, NewSnapshotAct(s, l))
  {
  }

  lemma NewSnapshotContract2(s: State, l: Local)
    requires LocalOk(l)
    requires l.pc.SBoltFresh? || l.pc.SBolt?
    ensures Contract(s, l, NewSnapshotAct(s, l))
  {
  }

  lemma SnapshotActionContract1(s: State, l: Local, ans: Answer)
    requires LocalOk(l)
    requires l.pc.SCreate? || l.pc.SRefresh? || l.pc.SGet?
    ensures Contract(s, l, SnapshotActionAct(s, l, ans))
  {
  }

  lemma SnapshotActionContract2(s: State, l: Local, ans: Answer)
    requires LocalOk(l)
    requires l.pc.SDelInfo? || l.pc.SDelGo? || l.pc.Clone?
    ensures Contract(s, l, SnapshotActionAct(s, l, ans))
  {
  }

  lemma ReleaseSnapshotContract1(s: State, r: Req, l: Local)
    requires LocalOk(l)
    requires l.pc.SRlRLock? || l.pc.SRlIn? || l.pc.SRlFast? || l.pc.SRlFastBolt?
    ensures Contract(s, l, ReleaseSnapshotAct(s, r, l))
  {
  }

  lemma ReleaseSnapshotContract2(s: State, r: Req, l: Local)
    requires LocalOk(l)
    requires l.pc.SRlSlow? || l.pc.SRlSlowLock? || l.pc.SRlUnbolt? || l.pc.SRlDel? || l.pc.SRlSlowDone?
    ensures Contract(s, l, ReleaseSnapshotAct(s, r, l))
  {
  }

  lemma ReleaseVolumeContract1(s: State, r: Req, l: Local)
    requires LocalOk(l) && StrayDead(s, r, l)
    requires l.pc.VRlRLock? || l.pc.VRlIn? || l.pc.VRlFastBolt? || l.pc.VRlFast?
    ensures Contract(s, l, ReleaseVolumeAct(s, r, l))
  {
  }

  lemma ReleaseVolumeContract2(s: State, r: Req, l: Local)
    requires LocalOk(l) && StrayDead(s, r, l)
    requires l.pc.VRlSlow? || l.pc.VRlSlowLock? || l.pc.VRlUnbolt? || l.pc.VRlDel? || l.pc.VRlSlowDone?
    ensures Contract(s, l, ReleaseVolumeAct(s, r, l))
  {
  }

  /** Whatever a request does next, its variables stay consistent. */
  lemma ActLocal(s: State, r: Req, l: Local, ans: Answer)
    requires LocalOk(l) && StrayDead(s, r, l)
    ensures LocalOk(Act(s, r, l, ans).next)
  {
    if InLookupVolume(l.pc) {
      LookupVolumeLocal(s, l, ans);
    } else if InNewVolume(l.pc) {
      if l.pc.NwLock? || l.pc.NwIn? || l.pc.NwHit? { NewVolumeLocal1(s, l); }
      else if l.pc.NwFresh? { NewVolumeLocal2(s, l); }
      else { NewVolumeLocal3(s, l); }
    } else if InVolumeAction(l.pc) {
      if l.pc.Create? || l.pc.Refresh? { VolumeActionLocal1(s, l, ans); }
      else if l.pc.DelList? || l.pc.DelGo? { VolumeActionLocal2(s, l, ans); }
      else if l.pc.PubRead? || l.pc.PubSet? { VolumeActionLocal3(s, l, ans); }
      else { VolumeActionLocal4(s, l, ans); }
    } else if InLookupSnapshot(l.pc) {
      if l.pc.SLkRLock? || l.pc.SLkIn? || l.pc.SLkHit? { LookupSnapshotLocal1(s, l, ans); }
      else { LookupSnapshotLocal2(s, l, ans); }
    } else if InNewSnapshot(l.pc) {
      if l.pc.SNwLock? || l.pc.SNwIn? || l.pc.SNwHit? { NewSnapshotLocal1(s, l); }
      else if l.pc.SNwFresh? || l.pc.SNwDiff? { NewSnapshotLocal2(s, l); }
      else { NewSnapshotLocal3(s, l); }
    } else if InSnapshotAction(l.pc) {
      if l.pc.SCreate? || l.pc.SRefresh? || l.pc.SGet? { SnapshotActionLocal1(s, l, ans); }
      else if l.pc.SDelInfo? || l.pc.SDelGo? { SnapshotActionLocal2(s, l, ans); }
      else { SnapshotActionLocal3(s, l, ans); }
    } else if InReleaseSnapshot(l.pc) {
      if l.pc.SRlRLock? || l.pc.SRlIn? || l.pc.SRlFast? { ReleaseSnapshotLocal1(s, r, l); }
      else if l.pc.SRlFastBolt? || l.pc.SRlSlow? { ReleaseSnapshotLocal2(s, r, l); }
      else if l.pc.SRlSlowLock? || l.pc.SRlUnbolt? { ReleaseSnapshotLocal3(s, r, l); }
      else { ReleaseSnapshotLocal4(s, r, l); }
    } else if InReleaseVolume(l.pc) {
      if l.pc.VRlRLock? || l.pc.VRlIn? { ReleaseVolumeLocal1(s, r, l); }
      else if l.pc.VRlFastBolt? { ReleaseVolumeLocal2(s, r, l); }
      else if l.pc.VRlSlow? || l.pc.VRlSlowLock? { ReleaseVolumeLocal3(s, r, l); }
      else if l.pc.VRlUnbolt? { ReleaseVolumeLocal4(s, r, l); }
      else if l.pc.VRlDel? { ReleaseVolumeLocal6(s, r, l); }
      else { ReleaseVolumeLocal5(s, r, l); }
    }
  }

  /** Whatever a request does next, the step honours its contract. */
  lemma ActContract(s: State, r: Req, l: Local, ans: Answer)
    requires LocalOk(l) && StrayDead(s, r, l)
    ensures Contract(s, l, Act(s, r, l, ans))
  {
    if InLookupVolume(l.pc) {
      LookupVolumeContract(s, l, ans);
    } else if InNewVolume(l.pc) {
      NewVolumeContract(s, l);
    } else if InVolumeAction(l.pc) {
      if l.pc.Create? || l.pc.Refresh? || l.pc.DelList? || l.pc.DelGo? { VolumeActionContract1(s, l, ans); }
      else { VolumeActionContract2(s, l, ans); }
    } else if InLookupSnapshot(l.pc) {
      LookupSnapshotContract(s, l, ans);
    } else if InNewSnapshot(l.pc) {
      if l.pc.SNwLock? || l.pc.SNwIn? || l.pc.SNwHit? || l.pc.SNwFresh? || l.pc.SNwDiff? { NewSnapshotContract1(s, l); }
      else { NewSnapshotContract2(s, l); }
    } else if InSnapshotAction(l.pc) {
      if l.pc.SCreate? || l.pc.SRefresh? || l.pc.SGet? { SnapshotActionContract1(s, l, ans); }
      else { SnapshotActionContract2(s, l, ans); }
    } else if InReleaseSnapshot(l.pc) {
      if l.pc.SRlRLock? || l.pc.SRlIn? || l.pc.SRlFast? || l.pc.SRlFastBolt? { ReleaseSnapshotContract1(s, r, l); }
      else { ReleaseSnapshotContract2(s, r, l); }
    } else if InReleaseVolume(l.pc) {
      if l.pc.VRlRLock? || l.pc.VRlIn? || l.pc.VRlFastBolt? || l.pc.VRlFast? { ReleaseVolumeContract1(s, r, l); }
      else { ReleaseVolumeContract2(s, r, l); }
    }
  }
}
