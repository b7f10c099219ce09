/**
  The volume and snapshot access-control protocol of the driver, as a transition system.

  One step of a request is one access to shared state: taking or leaving a cache mutex, one
  operation on a cache or an object, taking or leaving the bolt of an object, or one call to the
  appliance. Steps of different requests interleave freely. `Act` says which operation a request
  performs next and where it goes, method by method of the driver; `Apply` performs it.

  Volume and snapshot names are compared for equality only, so natural numbers stand for them;
  so do request contexts.
 */
module AccessModel {
  import opened Common

  type Req = nat        // a request context: non-nil and distinct per request
  type VolName = nat
  type SnapName = nat
  type NodeName = nat
  type SnapKey = (VolName, SnapName)

  // The initiator group that hides a LUN from every node.
  const MASK_ALL: NodeName := 0

  datatype Life = Creating | Created | Deleted

  datatype Vol = Vol(name: VolName, life: Life, refcount: int, owner: Option<Req>)

  // volume: the source volume object; source: the source name inside the snapshot ID
  datatype Snap = Snap(name: SnapName, volume: nat, source: VolName,
                       life: Life, refcount: int, owner: Option<Req>)

  // What the appliance stores for a volume: the snapshot it was cloned from, its initiator group.
  datatype Share = Share(origin: Option<SnapKey>, group: NodeName)

  datatype Op =
    | CreateVolume(name: VolName)
    | CloneVolume(name: VolName, source: VolName, snap: SnapName)
    | RefreshVolume(name: VolName)
    | DeleteVolume(name: VolName, block: bool)  // block: of a LUN rather than a filesystem
    | PublishVolume(name: VolName, node: NodeName)
    | UnpublishVolume(name: VolName)
    | UseVolume(name: VolName)
    | CreateSnapshot(source: VolName, snap: SnapName)
    | RefreshSnapshot(source: VolName, snap: SnapName)
    | DeleteSnapshot(source: VolName, snap: SnapName)
    | GetSnapshot(source: VolName, snap: SnapName)

  // Where a request stands. The prefix names the method of the driver that is running.
  datatype Pc =
    // lookupVolume
    | LkRLock | LkIn | LkHit | LkMiss | Details
    // newVolume; VBolt is the wait for the bolt shared with lookupVolume
    | NwLock | NwIn | NwHit | NwFresh | VBolt
    // what the handlers do with a volume
    | Create | Refresh | DelList | DelGo | PubRead | PubSet | Unpub | Use
    // lookupSnapshot
    | SLkRLock | SLkIn | SLkHit | SLkMiss | SDetails
    // newSnapshot; SBolt is the wait for the bolt shared with lookupSnapshot
    | SNwLock | SNwIn | SNwHit | SNwFresh | SNwDiff | SBoltFresh | SBolt
    // what the handlers do with a snapshot
    | SCreate | SRefresh | SDelInfo | SDelGo | Clone | SGet
    // releaseSnapshot
    | SRlRLock | SRlIn | SRlFast | SRlFastBolt
    | SRlSlow | SRlSlowLock | SRlUnbolt | SRlDel | SRlSlowDone
    // releaseVolume
    | VRlRLock | VRlIn | VRlFastBolt | VRlFast
    | VRlSlow | VRlSlowLock | VRlUnbolt | VRlDel | VRlSlowDone
    // the request has returned; Leaked: it returned without releasing its snapshot
    | Done | Leaked

  /** A request's grip on one object, from hold to the end of the release. */
  datatype Slot =
    | Empty
    | Held(o: nat)      // counted, waiting for the bolt
    | Placed(o: nat)    // counted, a fresh snapshot in the cache, about to take its bolt
    | Fresh(o: nat)     // counted, bolt owned, a placeholder in stateCreating
    | Mine(o: nat)      // counted, bolt owned, stateCreated
    | Spent(o: nat)     // counted, bolt owned, to be released
    | Parting(o: nat)   // no longer counted, bolt owned, stays in the cache
    | Closing(o: nat)   // no longer counted, bolt owned, perhaps to be removed from the cache
    | Leaving(o: nat)   // neither; about to decide on the removal

  // Target: the volume under creation. Source: the volume looked up by its ID.
  datatype Which = Target | Source

  // lookupSnapshot has not looked, has missed the cache, or went on to newSnapshot.
  datatype Pass = First | Missed | Query

  datatype Mode = Free | Reads | Writes

  // vm, sm: the request's hold on the mutex of the volume and of the snapshot cache
  // stray: the volume object releaseSnapshot is about to release, if it is not the one in src
  datatype Local = Local(op: Op, pc: Pc, vm: Mode, sm: Mode, which: Which,
                         tgt: Slot, src: Slot, snap: Slot, pass: Pass, stray: Option<nat>)

  datatype State = State(
    vHash: map<VolName, nat>, vReaders: set<Req>, vWriter: Option<Req>, vols: seq<Vol>,
    sHash: map<SnapName, nat>, sReaders: set<Req>, sWriter: Option<Req>, snaps: seq<Snap>,
    appVols: map<VolName, Share>, appSnaps: set<SnapKey>,
    reqs: map<Req, Local>, panicked: bool)

  /** Reply: the appliance executed the call and its answer was understood. Fail: the call failed and
      had no effect. Lost: the call took effect, but its answer was lost or not understood. */
  datatype Answer = Reply | Fail | Lost

  // ---- Operations on shared state ----

  datatype Effect =
    | Skip
    | VRLock | VRUnlock | VLock | VUnlock
    | VHold(o: nat) | VAdd(name: VolName) | VTake(o: nat) | VCount(o: nat) | VFree(o: nat) | VRemove(o: nat)
    | SRLock | SRUnlock | SLock | SUnlock
    | SHold(o: nat) | SAdd(snap: SnapName, o: nat, source: VolName)
    | STake(o: nat) | SCount(o: nat) | SFree(o: nat) | SRemove(o: nat)
    // an appliance call with the state it leaves the volume or snapshot object in
    | VAct(o: nat, life: Life, appVols: map<VolName, Share>)
    | SAct(o: nat, life: Life, appSnaps: set<SnapKey>)
    | AppAct(appVols: map<VolName, Share>) | AppSnapAct(appSnaps: set<SnapKey>)
    | Panic

  function VolAt(s: State, o: nat): Vol {
    if o < |s.vols| then s.vols[o] else Vol(0, Deleted, 0, None)
  }

  function SnapAt(s: State, x: nat): Snap {
    if x < |s.snaps| then s.snaps[x] else Snap(0, 0, 0, Deleted, 0, None)
  }

  function WithVol(s: State, o: nat, v: Vol): State {
    if o < |s.vols| then s.(vols := s.vols[o := v]) else s
  }

  function WithSnap(s: State, x: nat, v: Snap): State {
    if x < |s.snaps| then s.(snaps := s.snaps[x := v]) else s
  }

  function HashDelete<K(==), V>(h: map<K, V>, k: K): map<K, V> { map j | j in h && j != k :: h[j] }

  function Apply(s: State, r: Req, e: Effect): State {
    match e
    case Skip => s
    case VRLock => s.(vReaders := s.vReaders + {r})
    case VRUnlock => s.(vReaders := s.vReaders - {r})
    case VLock => s.(vWriter := Some(r))
    case VUnlock => s.(vWriter := None)
    case VHold(o) => WithVol(s, o, VolAt(s, o).(refcount := VolAt(s, o).refcount + 1))
    case VAdd(name) =>  // add, hold and lock: the new object is not visible before the cache is unlocked
      s.(vHash := s.vHash[name := |s.vols|], vols := s.vols + [Vol(name, Creating, 1, Some(r))])
    case VTake(o) => WithVol(s, o, VolAt(s, o).(owner := Some(r)))
    case VCount(o) => WithVol(s, o, VolAt(s, o).(refcount := VolAt(s, o).refcount - 1))
    case VFree(o) => WithVol(s, o, VolAt(s, o).(owner := None))
    case VRemove(o) => s.(vHash := HashDelete(s.vHash, VolAt(s, o).name))
    case SRLock => s.(sReaders := s.sReaders + {r})
    case SRUnlock => s.(sReaders := s.sReaders - {r})
    case SLock => s.(sWriter := Some(r))
    case SUnlock => s.(sWriter := None)
    case SHold(x) => WithSnap(s, x, SnapAt(s, x).(refcount := SnapAt(s, x).refcount + 1))
    case SAdd(name, o, source) =>  // hold and add: unlocking the cache comes before taking the bolt
      s.(sHash := s.sHash[name := |s.snaps|], snaps := s.snaps + [Snap(name, o, source, Creating, 1, None)])
    case STake(x) => WithSnap(s, x, SnapAt(s, x).(owner := Some(r)))
    case SCount(x) => WithSnap(s, x, SnapAt(s, x).(refcount := SnapAt(s, x).refcount - 1))
    case SFree(x) => WithSnap(s, x, SnapAt(s, x).(owner := None))
    case SRemove(x) => s.(sHash := HashDelete(s.sHash, SnapAt(s, x).name))
    case VAct(o, life, app) => WithVol(s, o, VolAt(s, o).(life := life)).(appVols := app)
    case SAct(x, life, app) => WithSnap(s, x, SnapAt(s, x).(life := life)).(appSnaps := app)
    case AppAct(app) => s.(appVols := app)
    case AppSnapAct(app) => s.(appSnaps := app)
    case Panic => s.(panicked := true)
  }

  // ---- Reading requests ----

  predicate NeedsTarget(op: Op) { op.CreateVolume? || op.CloneVolume? || op.RefreshVolume? }

  predicate NeedsSource(op: Op) { !op.CreateVolume? && !op.RefreshVolume? }

  predicate NeedsSnap(op: Op) {
    op.CloneVolume? || op.CreateSnapshot? || op.RefreshSnapshot? || op.DeleteSnapshot? || op.GetSnapshot?
  }

  function VolNameOf(op: Op, which: Which): VolName {
    match op
    case CloneVolume(name, source, _) => if which.Target? then name else source
    case CreateVolume(name) => name
    case RefreshVolume(name) => name
    case DeleteVolume(name, _) => name
    case PublishVolume(name, _) => name
    case UnpublishVolume(name) => name
    case UseVolume(name) => name
    case CreateSnapshot(source, _) => source
    case RefreshSnapshot(source, _) => source
    case DeleteSnapshot(source, _) => source
    case GetSnapshot(source, _) => source
  }

  function SnapNameOf(op: Op): SnapName { if NeedsSnap(op) then op.snap else 0 }

  function KeyOf(op: Op): SnapKey { (VolNameOf(op, Source), SnapNameOf(op)) }

  predicate Counted(sl: Slot) { sl.Held? || sl.Placed? || sl.Fresh? || sl.Mine? || sl.Spent? }

  predicate Owning(sl: Slot) { sl.Fresh? || sl.Mine? || sl.Spent? || sl.Parting? || sl.Closing? }

  function SlotOf(l: Local, which: Which): Slot { if which.Target? then l.tgt else l.src }

  function Cur(l: Local): Slot { SlotOf(l, l.which) }

  function CurName(l: Local): VolName { VolNameOf(l.op, l.which) }

  function WithCur(l: Local, sl: Slot): Local {
    if l.which.Target? then l.(tgt := sl) else l.(src := sl)
  }

  function ObjOf(sl: Slot): nat { if sl.Empty? then 0 else sl.o }

  // ---- Where control goes ----

  function InitLocal(op: Op): Local {
    if NeedsTarget(op) then Local(op, NwLock, Free, Free, Target, Empty, Empty, Empty, First, None)
    else Local(op, LkRLock, Free, Free, Source, Empty, Empty, Empty, First, None)
  }

  // The volume of the current slot was acquired.
  function AfterVolume(l: Local): Pc {
    match l.op
    case CreateVolume(_) => Create
    case RefreshVolume(_) => Refresh
    case DeleteVolume(_, _) => DelList
    case PublishVolume(_, _) => PubRead
    case UnpublishVolume(_) => Unpub
    case UseVolume(_) => Use
    case CreateSnapshot(_, _) => SNwLock
    case RefreshSnapshot(_, _) => SNwLock
    case CloneVolume(_, _, _) =>
      if l.which.Target? then LkRLock else if l.pass.Query? then SNwLock else SLkRLock
    case DeleteSnapshot(_, _) => if l.pass.Query? then SNwLock else SLkRLock
    case GetSnapshot(_, _) => if l.pass.Query? then SNwLock else SLkRLock
  }

  function GoOn(l: Local): Local {
    l.(pc := AfterVolume(l), which := if NeedsSource(l.op) then Source else Target)
  }

  // The snapshot was acquired in the stateCreated state.
  function AfterSnap(op: Op): Pc {
    match op
    case CreateSnapshot(_, _) => SCreate
    case RefreshSnapshot(_, _) => SRefresh
    case CloneVolume(_, _, _) => Clone
    case DeleteSnapshot(_, _) => SDelInfo
    case _ => SGet
  }

  // A fresh snapshot placeholder was acquired.
  function AfterFreshSnap(op: Op): Pc {
    match op
    case CreateSnapshot(_, _) => SCreate
    case RefreshSnapshot(_, _) => SRefresh
    case _ => SDetails
  }

  // releaseVolume returned: lookupSnapshot goes on to newSnapshot, a clone goes on to release its
  // target, and otherwise the request is over.
  function AfterRelease(l: Local): Local {
    if l.which.Source? && l.pass.Missed? then l.(pc := LkRLock, pass := Query)
    else if l.which.Source? && !l.tgt.Empty? then l.(pc := VRlRLock, which := Target)
    else l.(pc := Done)
  }

  // ---- Checks ----

  predicate NoSnapshots(s: State, name: VolName) { forall p <- s.appSnaps :: p.0 != name }

  predicate NoClones(s: State, key: SnapKey) { forall n <- s.appVols :: s.appVols[n].origin != Some(key) }

  // A LUN is about to be deleted, and no entry of the list of its snapshots is understood.
  predicate Unread(l: Local, ans: Answer) { l.pc.DelList? && l.op.DeleteVolume? && l.op.block && ans.Lost? }

  // ---- What a request does next, method by method of the driver ----

  datatype Move = Move(eff: Effect, next: Local)

  function LookupVolumeAct(s: State, l: Local, ans: Answer): Move {
    match l.pc
    case LkRLock => Move(VRLock, l.(pc := LkIn, vm := Reads))
    case LkIn =>
      if CurName(l) in s.vHash
      then var o := s.vHash[CurName(l)]; Move(VHold(o), WithCur(l, Held(o)).(pc := LkHit))
      else Move(Skip, l.(pc := LkMiss))
    case LkHit => Move(VRUnlock, l.(pc := VBolt, vm := Free))
    case LkMiss => Move(VRUnlock, l.(pc := NwLock, vm := Free))
    case Details =>
      if ans.Reply? && CurName(l) in s.appVols
      then Move(VAct(ObjOf(l.src), Created, s.appVols), GoOn(l.(src := Mine(ObjOf(l.src)))))
      else Move(Skip, l.(pc := VRlRLock))
    case _ => Move(Skip, l)
  }

  function NewVolumeAct(s: State, l: Local): Move {
    match l.pc
    case NwLock => Move(VLock, l.(pc := NwIn, vm := Writes))
    case NwIn =>
      if CurName(l) in s.vHash
      then var o := s.vHash[CurName(l)]; Move(VHold(o), WithCur(l, Held(o)).(pc := NwHit))
      else Move(VAdd(CurName(l)), WithCur(l, Fresh(|s.vols|)).(pc := NwFresh))
    case NwHit => Move(VUnlock, l.(pc := VBolt, vm := Free))
    case NwFresh =>
      Move(VUnlock, if l.which.Target? then GoOn(l.(vm := Free)) else l.(pc := Details, vm := Free))
    case VBolt =>
      var o := ObjOf(Cur(l));
      Move(VTake(o), if VolAt(s, o).life.Created? then GoOn(WithCur(l, Mine(o)))
                     else WithCur(l, Spent(o)).(pc := VRlRLock))
    case _ => Move(Skip, l)
  }

  function VolumeActionAct(s: State, l: Local, ans: Answer): Move {
    var name := CurName(l);
    var o := ObjOf(Cur(l));
    var rel := l.(pc := VRlRLock);
    match l.pc
    case Create =>
      if name in s.appVols && ans.Reply? then Move(Skip, rel)      // 409
      else
        Move(VAct(o, if ans.Reply? then Created else Deleted,
                  if name !in s.appVols && !ans.Fail? then s.appVols[name := Share(None, MASK_ALL)] else s.appVols),
             rel.(tgt := if ans.Reply? then Mine(o) else Spent(o)))
    case Refresh =>  // the volume was listed when the list was fetched
      Move(VAct(o, Created, s.appVols), rel.(tgt := Mine(o)))
    case DelList =>  // a missing volume has no list; entries that are not understood are passed over for a LUN
      Move(Skip, if name in s.appVols && ((ans.Reply? && NoSnapshots(s, name)) || Unread(l, ans))
                 then l.(pc := DelGo) else rel)
    case DelGo =>
      if ans.Reply? then Move(VAct(o, Deleted, HashDelete(s.appVols, name)), rel.(src := Spent(o)))
      else Move(if ans.Lost? then AppAct(HashDelete(s.appVols, name)) else Skip, rel)
    case PubRead =>
      Move(Skip, if ans.Reply? && name in s.appVols && s.appVols[name].group == MASK_ALL
                 then l.(pc := PubSet) else rel)
    case PubSet =>
      if !ans.Fail? && name in s.appVols && l.op.PublishVolume?
      then Move(AppAct(s.appVols[name := s.appVols[name].(group := l.op.node)]), rel)
      else Move(Skip, rel)
    case Unpub =>
      if !ans.Fail? && name in s.appVols
      then Move(AppAct(s.appVols[name := s.appVols[name].(group := MASK_ALL)]), rel)
      else Move(Skip, rel)
    case Use => Move(Skip, rel)
    case _ => Move(Skip, l)
  }

  function LookupSnapshotAct(s: State, l: Local, ans: Answer): Move {
    match l.pc
    case SLkRLock => Move(SRLock, l.(pc := SLkIn, sm := Reads))
    case SLkIn =>
      if SnapNameOf(l.op) in s.sHash then
        var x := s.sHash[SnapNameOf(l.op)];
        if SnapAt(s, x).volume != ObjOf(l.src) then Move(Panic, l)
        else Move(SHold(x), l.(snap := Held(x), pc := SLkHit))
      else Move(Skip, l.(pc := SLkMiss))
    case SLkHit => Move(SRUnlock, l.(pc := SBolt, sm := Free))
    case SLkMiss => Move(SRUnlock, l.(pc := VRlRLock, sm := Free, pass := Missed))
    case SDetails =>
      if ans.Reply? && KeyOf(l.op) in s.appSnaps
      then Move(SAct(ObjOf(l.snap), Created, s.appSnaps), l.(snap := Mine(ObjOf(l.snap)), pc := AfterSnap(l.op)))
      else Move(Skip, l.(pc := SRlRLock))
    case _ => Move(Skip, l)
  }

  function NewSnapshotAct(s: State, l: Local): Move {
    match l.pc
    case SNwLock => Move(SLock, l.(pc := SNwIn, sm := Writes))
    case SNwIn =>
      if SnapNameOf(l.op) in s.sHash then
        var x := s.sHash[SnapNameOf(l.op)];
        if SnapAt(s, x).source != VolNameOf(l.op, Source) then Move(Skip, l.(pc := SNwDiff))
        else Move(SHold(x), l.(snap := Held(x), pc := SNwHit))
      else
        Move(SAdd(SnapNameOf(l.op), ObjOf(l.src), VolNameOf(l.op, Source)),
             l.(snap := Placed(|s.snaps|), pc := SNwFresh))
    case SNwHit => Move(SUnlock, l.(pc := SBolt, sm := Free))
    case SNwFresh => Move(SUnlock, l.(pc := SBoltFresh, sm := Free))
    case SNwDiff => Move(SUnlock, l.(pc := VRlRLock, sm := Free))
    case SBoltFresh =>
      Move(STake(ObjOf(l.snap)), l.(snap := Fresh(ObjOf(l.snap)), pc := AfterFreshSnap(l.op)))
    case SBolt =>
      var x := ObjOf(l.snap);
      Move(STake(x), if SnapAt(s, x).life.Created? then l.(snap := Mine(x), pc := AfterSnap(l.op))
                     else l.(snap := Spent(x), pc := SRlRLock))
    case _ => Move(Skip, l)
  }

  function SnapshotActionAct(s: State, l: Local, ans: Answer): Move {
    var key := KeyOf(l.op);
    var x := ObjOf(l.snap);
    var rel := l.(pc := SRlRLock);
    match l.pc
    case SCreate =>
      if key in s.appSnaps && ans.Reply? then Move(Skip, rel)      // 409
      else
        var made := key.0 in s.appVols && !ans.Fail?;             // 404 without the source volume
        Move(SAct(x, if made && ans.Reply? then Created else Deleted,
                  if made then s.appSnaps + {key} else s.appSnaps),
             rel.(snap := if made && ans.Reply? then Mine(x) else Spent(x)))
    case SRefresh =>
      if ans.Lost? then Move(Skip, l.(pc := Leaked))
      else Move(SAct(x, Created, s.appSnaps), rel.(snap := Mine(x)))
    case SDelInfo =>
      if !ans.Reply? then Move(Skip, rel)
      else if key !in s.appSnaps then Move(SAct(x, Deleted, s.appSnaps), rel.(snap := Spent(x)))
      else Move(Skip, if NoClones(s, key) then l.(pc := SDelGo) else rel)
    case SDelGo =>
      if ans.Reply? then Move(SAct(x, Deleted, s.appSnaps - {key}), rel.(snap := Spent(x)))
      else Move(if ans.Lost? then AppSnapAct(s.appSnaps - {key}) else Skip, rel)
    case Clone =>
      var name := VolNameOf(l.op, Target);
      if ans.Fail? || name in s.appVols || key !in s.appSnaps then Move(Skip, rel)
      else
        var app := s.appVols[name := Share(Some(key), MASK_ALL)];
        if ans.Reply? then Move(VAct(ObjOf(l.tgt), Created, app), rel.(tgt := Mine(ObjOf(l.tgt))))
        else Move(AppAct(app), rel)
    case SGet => Move(Skip, rel)
    case _ => Move(Skip, l)
  }

  function ReleaseSnapshotAct(s: State, r: Req, l: Local): Move {
    var x := ObjOf(l.snap);
    match l.pc
    case SRlRLock =>  // the volume released afterwards is the one the snapshot points at
      var o := SnapAt(s, x).volume;
      Move(SRLock, l.(pc := SRlIn, sm := Reads, stray := if o == ObjOf(l.src) then None else Some(o)))
    case SRlIn =>
      Move(SCount(x), if SnapAt(s, x).refcount == 1 && !SnapAt(s, x).life.Created?
                      then l.(snap := Closing(x), pc := SRlSlow) else l.(snap := Parting(x), pc := SRlFast))
    case SRlFast => Move(SRUnlock, l.(pc := SRlFastBolt, sm := Free))
    case SRlFastBolt =>
      if SnapAt(s, x).owner != Some(r) then Move(Panic, l)
      else Move(SFree(x), l.(snap := Empty, pc := VRlRLock))
    case SRlSlow => Move(SRUnlock, l.(pc := SRlSlowLock, sm := Free))
    case SRlSlowLock => Move(SLock, l.(pc := SRlUnbolt, sm := Writes))
    case SRlUnbolt =>
      if SnapAt(s, x).owner != Some(r) then Move(Panic, l)
      else Move(SFree(x), l.(snap := Leaving(x), pc := SRlDel))
    case SRlDel =>
      Move(if SnapAt(s, x).refcount == 0 && !SnapAt(s, x).life.Created? then SRemove(x) else Skip,
           l.(snap := Empty, pc := SRlSlowDone))
    case SRlSlowDone => Move(SUnlock, l.(pc := VRlRLock, sm := Free))
    case _ => Move(Skip, l)
  }

  // The volume object being released; the slots do not tell about a stray one.
  function Released(l: Local): nat { if l.stray.Some? then l.stray.value else ObjOf(Cur(l)) }

  function Shed(l: Local, sl: Slot): Local { if l.stray.Some? then l else WithCur(l, sl) }

  function ReleaseVolumeAct(s: State, r: Req, l: Local): Move {
    var o := Released(l);
    match l.pc
    case VRlRLock => Move(VRLock, l.(pc := VRlIn, vm := Reads))
    case VRlIn =>
      Move(VCount(o), if VolAt(s, o).refcount == 1 && !VolAt(s, o).life.Created?
                      then Shed(l, Closing(o)).(pc := VRlSlow) else Shed(l, Parting(o)).(pc := VRlFastBolt))
    case VRlFastBolt =>
      if VolAt(s, o).owner != Some(r) then Move(Panic, l)
      else Move(VFree(o), Shed(l, Empty).(pc := VRlFast))
    case VRlFast => Move(VRUnlock, AfterRelease(l.(vm := Free)))
    case VRlSlow => Move(VRUnlock, l.(pc := VRlSlowLock, vm := Free))
    case VRlSlowLock => Move(VLock, l.(pc := VRlUnbolt, vm := Writes))
    case VRlUnbolt =>
      if VolAt(s, o).owner != Some(r) then Move(Panic, l)
      else Move(VFree(o), Shed(l, Leaving(o)).(pc := VRlDel))
    case VRlDel =>
      Move(if VolAt(s, o).refcount == 0 && !VolAt(s, o).life.Created? then VRemove(o) else Skip,
           Shed(l, Empty).(pc := VRlSlowDone))
    case VRlSlowDone => Move(VUnlock, AfterRelease(l.(vm := Free)))
    case _ => Move(Skip, l)
  }

  // ---- Groups of program points ----

  predicate InLookupVolume(pc: Pc) { pc.LkRLock? || pc.LkIn? || pc.LkHit? || pc.LkMiss? || pc.Details? }

  predicate InNewVolume(pc: Pc) { pc.NwLock? || pc.NwIn? || pc.NwHit? || pc.NwFresh? || pc.VBolt? }

  predicate InVolumeAction(pc: Pc) {
    pc.Create? || pc.Refresh? || pc.DelList? || pc.DelGo? || pc.PubRead? || pc.PubSet? || pc.Unpub? || pc.Use?
  }

  predicate InLookupSnapshot(pc: Pc) { pc.SLkRLock? || pc.SLkIn? || pc.SLkHit? || pc.SLkMiss? || pc.SDetails? }

  predicate InNewSnapshot(pc: Pc) {
    pc.SNwLock? || pc.SNwIn? || pc.SNwHit? || pc.SNwFresh? || pc.SNwDiff? || pc.SBoltFresh? || pc.SBolt?
  }

  predicate InSnapshotAction(pc: Pc) {
    pc.SCreate? || pc.SRefresh? || pc.SDelInfo? || pc.SDelGo? || pc.Clone? || pc.SGet?
  }

  predicate InReleaseSnapshot(pc: Pc) {
    pc.SRlRLock? || pc.SRlIn? || pc.SRlFast? || pc.SRlFastBolt? || pc.SRlSlow? || pc.SRlSlowLock?
    || pc.SRlUnbolt? || pc.SRlDel? || pc.SRlSlowDone?
  }

  predicate InReleaseVolume(pc: Pc) {
    pc.VRlRLock? || pc.VRlIn? || pc.VRlFastBolt? || pc.VRlFast? || pc.VRlSlow? || pc.VRlSlowLock?
    || pc.VRlUnbolt? || pc.VRlDel? || pc.VRlSlowDone?
  }

  // ---- The transition system ----

  predicate Finished(pc: Pc) { pc.Done? || pc.Leaked? }

  // Waiting for a cache mutex to read or to write.
  predicate WantsVRead(pc: Pc) { pc.LkRLock? || pc.VRlRLock? }
  predicate WantsVWrite(pc: Pc) { pc.NwLock? || pc.VRlSlowLock? }
  predicate WantsSRead(pc: Pc) { pc.SLkRLock? || pc.SRlRLock? }
  predicate WantsSWrite(pc: Pc) { pc.SNwLock? || pc.SRlSlowLock? }

  /** The request can take its next step now. */
  predicate Ready(s: State, r: Req)
  {
    && !s.panicked
    && r in s.reqs
    && var l := s.reqs[r];
    && !Finished(l.pc)
    && (WantsVRead(l.pc) ==> s.vWriter.None?)
    && (WantsVWrite(l.pc) ==> s.vWriter.None? && s.vReaders == {})
    && (WantsSRead(l.pc) ==> s.sWriter.None?)
    && (WantsSWrite(l.pc) ==> s.sWriter.None? && s.sReaders == {})
    && (l.pc.VBolt? ==> VolAt(s, ObjOf(Cur(l))).owner.None?)
    && (l.pc.SBolt? || l.pc.SBoltFresh? ==> SnapAt(s, ObjOf(l.snap)).owner.None?)
  }

  function Act(s: State, r: Req, l: Local, ans: Answer): Move {
    if InLookupVolume(l.pc) then LookupVolumeAct(s, l, ans)
    else if InNewVolume(l.pc) then NewVolumeAct(s, l)
    else if InVolumeAction(l.pc) then VolumeActionAct(s, l, ans)
    else if InLookupSnapshot(l.pc) then LookupSnapshotAct(s, l, ans)
    else if InNewSnapshot(l.pc) then NewSnapshotAct(s, l)
    else if InSnapshotAction(l.pc) then SnapshotActionAct(s, l, ans)
    else if InReleaseSnapshot(l.pc) then ReleaseSnapshotAct(s, r, l)
    else if InReleaseVolume(l.pc) then ReleaseVolumeAct(s, r, l)
    else Move(Skip, l)
  }

  function Perform(s: State, r: Req, m: Move): State {
    Apply(s, r, m.eff).(reqs := s.reqs[r := m.next])
  }

  function Advance(s: State, r: Req, ans: Answer): State
    requires r in s.reqs
  {
    Perform(s, r, Act(s, r, s.reqs[r], ans))
  }

  datatype Action = Arrive(op: Op) | Go(ans: Answer)

  // A refresh takes up what was on the appliance when the list was fetched, which is when it arrives.
  predicate Listed(s: State, op: Op) {
    && (op.RefreshVolume? ==> op.name in s.appVols)
    && (op.RefreshSnapshot? ==> KeyOf(op) in s.appSnaps)
  }

  /** A request arrives, or request r advances with the given answer of the appliance. */
  predicate Step(s: State, r: Req, a: Action, s': State) {
    match a
    case Arrive(op) => !s.panicked && r !in s.reqs && Listed(s, op) && s' == s.(reqs := s.reqs[r := InitLocal(op)])
    case Go(ans) => Ready(s, r) && s' == Advance(s, r, ans)
  }

  /** Every snapshot has its source volume and every clone its origin snapshot. */
  predicate Integrity(s: State) {
    && (forall p <- s.appSnaps :: p.0 in s.appVols)
    && (forall n <- s.appVols :: s.appVols[n].origin.Some? ==> s.appVols[n].origin.value in s.appSnaps)
  }

  // The driver starts with empty caches against an appliance with any consistent content.
  predicate Initial(s: State) {
    && s.vHash == map[] && s.vols == [] && s.vReaders == {} && s.vWriter.None?
    && s.sHash == map[] && s.snaps == [] && s.sReaders == {} && s.sWriter.None?
    && s.reqs == map[] && !s.panicked
    && Integrity(s)
  }

  datatype Event = Event(req: Req, action: Action)

  predicate StepAt(states: seq<State>, events: seq<Event>, i: nat)
    requires i < |events| < |states|
  {
    Step(states[i], events[i].req, events[i].action, states[i + 1])
  }

  /** Each event leads from one state to the next. */
  ghost predicate Path(states: seq<State>, events: seq<Event>) {
    |states| == |events| + 1 && forall i | 0 <= i < |events| :: StepAt(states, events, i)
  }

  /** A run: a path from an initial state. Whatever the appliance answers, it is a run. */
  ghost predicate Run(states: seq<State>, events: seq<Event>) {
    Path(states, events) && Initial(states[0])
  }

  /** The states the driver can get into. */
  ghost predicate Reachable(s: State) {
    exists states, events :: Run(states, events) && states[|events|] == s
  }
}
