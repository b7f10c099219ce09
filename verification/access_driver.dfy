/**
  The driver as it stands in memory: volume and snapshot objects that requests update in place, two
  caches of references to them, and references from snapshots to volumes. A request decides on its
  next operation by looking at these objects, and performs it by updating them. Both are proved to do
  what the transition system says, so that everything proved of its runs holds of the driver.
 */
module AccessDriver {
  import opened Common
  import opened AccessModel
  import opened AccessProgram
  import opened AccessVolumes
  import opened AccessSnapshots
  import opened AccessVolumeSteps
  import opened AccessSnapshotSteps
  import opened AccessRuns
  import opened AccessTheorems

  // ---- Which objects an operation works on ----

  predicate OnVolume(e: Effect) { e.VHold? || e.VTake? || e.VCount? || e.VFree? || e.VAct? }

  predicate OnSnapshot(e: Effect) { e.SHold? || e.STake? || e.SCount? || e.SFree? || e.SAct? }

  predicate OnCache(e: Effect) { e.VAdd? || e.VRemove? || e.SAdd? || e.SRemove? }

  // What an operation makes of its object.
  function VolAfter(v: Vol, r: Req, e: Effect): Vol
    requires OnVolume(e)
  {
    match e
    case VHold(_) => v.(refcount := v.refcount + 1)
    case VTake(_) => v.(owner := Some(r))
    case VCount(_) => v.(refcount := v.refcount - 1)
    case VFree(_) => v.(owner := None)
    case VAct(_, life, _) => v.(life := life)
  }

  function SnapAfter(x: Snap, r: Req, e: Effect): Snap
    requires OnSnapshot(e)
  {
    match e
    case SHold(_) => x.(refcount := x.refcount + 1)
    case STake(_) => x.(owner := Some(r))
    case SCount(_) => x.(refcount := x.refcount - 1)
    case SFree(_) => x.(owner := None)
    case SAct(_, life, _) => x.(life := life)
  }

  lemma ApplyOnVolume(s: State, r: Req, e: Effect)
    requires OnVolume(e) && e.o < |s.vols|
    ensures Apply(s, r, e) == s.(vols := s.vols[e.o := VolAfter(s.vols[e.o], r, e)],
                                 appVols := if e.VAct? then e.appVols else s.appVols)
  {
  }

  lemma ApplyOnSnapshot(s: State, r: Req, e: Effect)
    requires OnSnapshot(e) && e.o < |s.snaps|
    ensures Apply(s, r, e) == s.(snaps := s.snaps[e.o := SnapAfter(s.snaps[e.o], r, e)],
                                 appSnaps := if e.SAct? then e.appSnaps else s.appSnaps)
  {
  }

  lemma ApplyRest(s: State, r: Req, e: Effect)
    requires e.Skip? || e.AppAct? || e.AppSnapAct? || e.Panic?
    ensures Apply(s, r, e) == s.(appVols := if e.AppAct? then e.appVols else s.appVols,
                                 appSnaps := if e.AppSnapAct? then e.appSnaps else s.appSnaps,
                                 panicked := e.Panic? || s.panicked)
  {
  }

  // Where a request looks at objects to decide on its next operation.
  predicate LooksAtVolume(pc: Pc) { pc.VBolt? || pc.VRlIn? || pc.VRlFastBolt? || pc.VRlUnbolt? || pc.VRlDel? }

  predicate LooksAtSnapshot(pc: Pc) {
    pc.SBolt? || pc.SRlRLock? || pc.SRlIn? || pc.SRlFastBolt? || pc.SRlUnbolt? || pc.SRlDel?
  }

  predicate LooksAtCache(pc: Pc) { pc.LkIn? || pc.NwIn? || pc.SLkIn? || pc.SNwIn? }

  predicate Looks(pc: Pc) { LooksAtVolume(pc) || LooksAtSnapshot(pc) || LooksAtCache(pc) }

  // Elsewhere the appliance decides.
  lemma OnlyAppliance(s: State, t: State, r: Req, l: Local, ans: Answer)
    requires !Looks(l.pc) && s.appVols == t.appVols && s.appSnaps == t.appSnaps
    ensures Act(s, r, l, ans) == Act(t, r, l, ans)
  {
  }

  lemma HoldsVolume(l: Local)
    requires LocalOk(l)
    ensures LooksAtVolume(l.pc) ==> !Cur(l).Empty?
    ensures l.pc.VBolt? ==> l.stray.None?
    ensures l.pc.SLkIn? || l.pc.SRlRLock? ==> !l.src.Empty?
  {
  }

  lemma HoldsSnapshot(l: Local)
    requires LocalOk(l)
    ensures LooksAtSnapshot(l.pc) ==> !l.snap.Empty?
  {
  }

  /** The objects a request looks at exist. */
  lemma LooksInRange(s: State, r: Req)
    requires Inv(s) && r in s.reqs
    ensures var l := s.reqs[r];
            && (LooksAtVolume(l.pc) ==> ObjOf(Cur(l)) < |s.vols| && Released(l) < |s.vols|)
            && (l.pc.SLkIn? || l.pc.SRlRLock? ==> ObjOf(l.src) < |s.vols|)
            && (LooksAtSnapshot(l.pc) ==> ObjOf(l.snap) < |s.snaps|)
  {
    var l := s.reqs[r];
    InvLocal(s, r);
    HoldsVolume(l);
    HoldsSnapshot(l);
    InvSlot(s, r, l.which);
    InvSlot(s, r, Source);
    InvSnapSlot(s, r);
    if l.stray.Some? { InvStray(s, r); }
  }

  /** The objects a request works on exist. */
  lemma WorksInRange(s: State, r: Req, ans: Answer)
    requires Inv(s) && r in s.reqs
    ensures var e := Act(s, r, s.reqs[r], ans).eff;
            && (OnVolume(e) || e.VRemove? || e.SAdd? ==> e.o < |s.vols|)
            && (OnSnapshot(e) || e.SRemove? ==> e.o < |s.snaps|)
  {
    var l, m := s.reqs[r], Act(s, r, s.reqs[r], ans);
    MoveOk(s, r, ans);
    InvSlot(s, r, l.which);
    InvSlot(s, r, Touched(l));
    InvSlot(s, r, Source);
    if l.stray.Some? { InvStray(s, r); }
    VolumeInRange(s, r, l, m);
    InvSnapSlot(s, r);
    if m.eff.SHold? { InvCachedSnap(s, SnapNameOf(l.op)); }
    SnapshotInRange(s, r, l, m);
  }

  lemma VolumeInRange(s: State, r: Req, l: Local, m: Move)
    requires SlotInv(s, r, SlotOf(l, l.which), VolNameOf(l.op, l.which))
    requires SlotInv(s, r, SlotOf(l, Touched(l)), VolNameOf(l.op, Touched(l)))
    requires SlotInv(s, r, SlotOf(l, Source), VolNameOf(l.op, Source))
    requires CacheInv(s) && VolContract(s, l, m) && SnapContract(s, l, m)
    requires l.stray.Some? ==> l.stray.value < |s.vols|
    ensures OnVolume(m.eff) || m.eff.VRemove? || m.eff.SAdd? ==> m.eff.o < |s.vols|
  {
  }

  lemma SnapshotInRange(s: State, r: Req, l: Local, m: Move)
    requires SnapSlotInv(s, r, l) && SnapContract(s, l, m)
    requires m.eff.SHold? ==> s.sHash[SnapNameOf(l.op)] < |s.snaps|
    ensures OnSnapshot(m.eff) || m.eff.SRemove? ==> m.eff.o < |s.snaps|
  {
  }

  lemma ApplyKeepsRequests(s: State, r: Req, e: Effect)
    ensures Apply(s, r, e).reqs == s.reqs
  {
  }

  class Volume {
    const id: nat  // stands for the object's address
    const name: VolName
    var state: Life
    var refcount: int
    var owner: Option<Req>  // the context of the bolt

    function View(): Vol
      reads this
    {
      Vol(name, state, refcount, owner)
    }

    constructor (id: nat, name: VolName, refcount: int, owner: Option<Req>)
      ensures this.id == id && View() == Vol(name, Creating, refcount, owner)
    {
      this.id, this.name, state, this.refcount, this.owner := id, name, Creating, refcount, owner;
    }

    /** hold, release and the bolt of the object, and its state after an answer of the appliance. */
    method Update(r: Req, e: Effect)
      requires OnVolume(e)
      modifies this
      ensures View() == VolAfter(old(View()), r, e)
    {
      match e {
        case VHold(_) => refcount := refcount + 1;
        case VTake(_) => owner := Some(r);
        case VCount(_) => refcount := refcount - 1;
        case VFree(_) => owner := None;
        case VAct(_, life, _) => state := life;
      }
    }
  }

  class Snapshot {
    const id: nat
    const name: SnapName
    const volume: Volume
    const source: VolName
    var state: Life
    var refcount: int
    var owner: Option<Req>

    function View(): Snap
      reads this
    {
      Snap(name, volume.id, source, state, refcount, owner)
    }

    constructor (id: nat, name: SnapName, volume: Volume, source: VolName, refcount: int)
      ensures this.id == id && this.volume == volume
      ensures View() == Snap(name, volume.id, source, Creating, refcount, None)
    {
      this.id, this.name, this.volume, this.source := id, name, volume, source;
      state, this.refcount, owner := Creating, refcount, None;
    }

    method Update(r: Req, e: Effect)
      requires OnSnapshot(e)
      modifies this
      ensures View() == SnapAfter(old(View()), r, e)
    {
      match e {
        case SHold(_) => refcount := refcount + 1;
        case STake(_) => owner := Some(r);
        case SCount(_) => refcount := refcount - 1;
        case SFree(_) => owner := None;
        case SAct(_, life, _) => state := life;
      }
    }
  }

  // ---- What the objects and caches stand for ----

  function VolViews(vols: seq<Volume>): (views: seq<Vol>)
    reads vols
    ensures |views| == |vols| && forall i | 0 <= i < |vols| :: views[i] == vols[i].View()
  {
    seq(|vols|, i requires 0 <= i < |vols| reads vols => vols[i].View())
  }

  function SnapViews(snaps: seq<Snapshot>): (views: seq<Snap>)
    reads snaps
    ensures |views| == |snaps| && forall i | 0 <= i < |snaps| :: views[i] == snaps[i].View()
  {
    seq(|snaps|, i requires 0 <= i < |snaps| reads snaps => snaps[i].View())
  }

  function VolIds(h: map<VolName, Volume>): map<VolName, nat> { map n | n in h :: h[n].id }

  function SnapIds(h: map<SnapName, Snapshot>): map<SnapName, nat> { map n | n in h :: h[n].id }

  lemma VolIdsChange(h: map<VolName, Volume>, k: VolName, v: Volume)
    ensures VolIds(h[k := v]) == VolIds(h)[k := v.id]
    ensures VolIds(HashDelete(h, k)) == HashDelete(VolIds(h), k)
  {
  }

  lemma SnapIdsChange(h: map<SnapName, Snapshot>, k: SnapName, x: Snapshot)
    ensures SnapIds(h[k := x]) == SnapIds(h)[k := x.id]
    ensures SnapIds(HashDelete(h, k)) == HashDelete(SnapIds(h), k)
  {
  }

  predicate KnowsVolume(vols: seq<Volume>, v: Volume) { v.id < |vols| && vols[v.id] == v }

  predicate KnowsSnapshot(snaps: seq<Snapshot>, x: Snapshot) { x.id < |snaps| && snaps[x.id] == x }

  class Driver {
    var vHash: map<VolName, Volume>
    var vReaders: set<Req>
    var vWriter: Option<Req>
    var vols: seq<Volume>  // every volume object ever created
    var sHash: map<SnapName, Snapshot>
    var sReaders: set<Req>
    var sWriter: Option<Req>
    var snaps: seq<Snapshot>
    var appVols: map<VolName, Share>  // what the appliance stores
    var appSnaps: set<SnapKey>
    var reqs: map<Req, Local>
    var panicked: bool

    predicate Valid()
      reads this
    {
      && (forall i | 0 <= i < |vols| :: vols[i].id == i)
      && (forall i | 0 <= i < |snaps| :: snaps[i].id == i && KnowsVolume(vols, snaps[i].volume))
      && (forall n <- vHash :: KnowsVolume(vols, vHash[n]))
      && (forall n <- sHash :: KnowsSnapshot(snaps, sHash[n]))
    }

    function View(): State
      reads this, vols, snaps
    {
      State(VolIds(vHash), vReaders, vWriter, VolViews(vols),
            SnapIds(sHash), sReaders, sWriter, SnapViews(snaps),
            appVols, appSnaps, reqs, panicked)
    }

    constructor (appVols: map<VolName, Share>, appSnaps: set<SnapKey>)
      ensures Valid() && vols == [] && snaps == []
      ensures View().appVols == appVols && View().appSnaps == appSnaps
      ensures Initial(View()) <==> Integrity(View())
    {
      vHash, vReaders, vWriter, vols := map[], {}, None, [];
      sHash, sReaders, sWriter, snaps := map[], {}, None, [];
      this.appVols, this.appSnaps := appVols, appSnaps;
      reqs, panicked := map[], false;
    }

    // ---- Performing an operation ----

    lemma VolumeChanged(before: seq<Vol>, o: nat)
      requires Valid() && o < |vols| == |before|
      requires forall i | 0 <= i < |vols| && vols[i] != vols[o] :: before[i] == vols[i].View()
      ensures VolViews(vols) == before[o := vols[o].View()]
    {
    }

    lemma SnapshotChanged(before: seq<Snap>, x: nat)
      requires Valid() && x < |snaps| == |before|
      requires forall i | 0 <= i < |snaps| && snaps[i] != snaps[x] :: before[i] == snaps[i].View()
      ensures SnapViews(snaps) == before[x := snaps[x].View()]
    {
    }

    method UpdateVolume(r: Req, e: Effect)
      requires Valid() && OnVolume(e) && e.o < |vols|
      modifies vols[e.o], this`appVols
      ensures Valid() && View() == Apply(old(View()), r, e)
    {
      ApplyOnVolume(View(), r, e);
      vols[e.o].Update(r, e);
      if e.VAct? { appVols := e.appVols; }
      VolumeChanged(old(VolViews(vols)), e.o);
    }

    method UpdateSnapshot(r: Req, e: Effect)
      requires Valid() && OnSnapshot(e) && e.o < |snaps|
      modifies snaps[e.o], this`appSnaps
      ensures Valid() && View() == Apply(old(View()), r, e)
    {
      ApplyOnSnapshot(View(), r, e);
      snaps[e.o].Update(r, e);
      if e.SAct? { appSnaps := e.appSnaps; }
      SnapshotChanged(old(SnapViews(snaps)), e.o);
    }

    method AddVolume(r: Req, name: VolName)
      requires Valid()
      modifies this`vHash, this`vols
      ensures Valid() && Grown() && View() == Apply(old(View()), r, VAdd(name))
    {
      var v := new Volume(|vols|, name, 1, Some(r));
      vHash, vols := vHash[name := v], vols + [v];
      VolIdsChange(old(vHash), name, v);
      assert VolViews(vols) == old(VolViews(vols)) + [v.View()];
    }

    method AddSnapshot(r: Req, name: SnapName, o: nat, source: VolName)
      requires Valid() && o < |vols|
      modifies this`sHash, this`snaps
      ensures Valid() && Grown() && View() == Apply(old(View()), r, SAdd(name, o, source))
    {
      var x := new Snapshot(|snaps|, name, vols[o], source, 1);
      EnterSnapshot(name, x);
    }

    method EnterSnapshot(name: SnapName, x: Snapshot)
      requires Valid() && x.id == |snaps| && KnowsVolume(vols, x.volume)
      modifies this`sHash, this`snaps
      ensures Valid() && snaps == old(snaps) + [x]
      ensures View() == old(View()).(sHash := old(View()).sHash[name := x.id], snaps := old(View()).snaps + [x.View()])
    {
      sHash, snaps := sHash[name := x], snaps + [x];
      SnapIdsChange(old(sHash), name, x);
      assert SnapViews(snaps) == old(SnapViews(snaps)) + [x.View()];
    }

    method RemoveVolume(r: Req, o: nat)
      requires Valid() && o < |vols|
      modifies this`vHash
      ensures Valid() && View() == Apply(old(View()), r, VRemove(o))
    {
      vHash := HashDelete(vHash, vols[o].name);
      VolIdsChange(old(vHash), vols[o].name, vols[o]);
    }

    method RemoveSnapshot(r: Req, x: nat)
      requires Valid() && x < |snaps|
      modifies this`sHash
      ensures Valid() && View() == Apply(old(View()), r, SRemove(x))
    {
      sHash := HashDelete(sHash, snaps[x].name);
      SnapIdsChange(old(sHash), snaps[x].name, snaps[x]);
      assert View() == old(View()).(sHash := SnapIds(sHash));
    }

    method LockVolumes(r: Req, e: Effect)
      requires Valid() && VolLock(e)
      modifies this`vReaders, this`vWriter
      ensures Valid() && View() == Apply(old(View()), r, e)
    {
      match e {
        case VRLock => vReaders := vReaders + {r};
        case VRUnlock => vReaders := vReaders - {r};
        case VLock => vWriter := Some(r);
        case VUnlock => vWriter := None;
      }
    }

    method LockSnapshots(r: Req, e: Effect)
      requires Valid() && SnapLock(e)
      modifies this`sReaders, this`sWriter
      ensures Valid() && View() == Apply(old(View()), r, e)
    {
      match e {
        case SRLock => sReaders := sReaders + {r};
        case SRUnlock => sReaders := sReaders - {r};
        case SLock => sWriter := Some(r);
        case SUnlock => sWriter := None;
      }
    }

    method UpdateRest(r: Req, e: Effect)
      requires Valid() && (e.Skip? || e.AppAct? || e.AppSnapAct? || e.Panic?)
      modifies this`appVols, this`appSnaps, this`panicked
      ensures Valid() && View() == Apply(old(View()), r, e)
    {
      ApplyRest(View(), r, e);
      if e.AppAct? { appVols := e.appVols; }
      else if e.AppSnapAct? { appSnaps := e.appSnaps; }
      else if e.Panic? { panicked := true; }
    }

    // The objects the operation works on exist.
    predicate Present(e: Effect)
      reads this
    {
      && (OnVolume(e) || e.VRemove? || e.SAdd? ==> e.o < |vols|)
      && (OnSnapshot(e) || e.SRemove? ==> e.o < |snaps|)
    }

    // Objects are only ever added.
    twostate predicate Grown()
      reads this
    {
      && (forall i | 0 <= i < |vols| :: vols[i] in old(vols) || fresh(vols[i]))
      && (forall i | 0 <= i < |snaps| :: snaps[i] in old(snaps) || fresh(snaps[i]))
    }

    method UpdateCache(r: Req, e: Effect)
      requires Valid() && Present(e) && OnCache(e)
      modifies this`vHash, this`vols, this`sHash, this`snaps
      ensures Valid() && Grown() && View() == Apply(old(View()), r, e)
    {
      match e {
        case VAdd(name) => AddVolume(r, name);
        case VRemove(o) => RemoveVolume(r, o);
        case SAdd(name, o, source) => AddSnapshot(r, name, o, source);
        case SRemove(x) => RemoveSnapshot(r, x);
      }
    }

    method UpdateObject(r: Req, e: Effect)
      requires Valid() && Present(e) && (OnVolume(e) || OnSnapshot(e))
      modifies vols, snaps, this`appVols, this`appSnaps
      ensures Valid() && View() == Apply(old(View()), r, e)
    {
      if OnVolume(e) { UpdateVolume(r, e); } else { UpdateSnapshot(r, e); }
    }

    method UpdateLocks(r: Req, e: Effect)
      requires Valid() && !OnVolume(e) && !OnSnapshot(e) && !OnCache(e)
      modifies this`vReaders, this`vWriter, this`sReaders, this`sWriter, this`appVols, this`appSnaps, this`panicked
      ensures Valid() && View() == Apply(old(View()), r, e)
    {
      if VolLock(e) { LockVolumes(r, e); }
      else if SnapLock(e) { LockSnapshots(r, e); }
      else { UpdateRest(r, e); }
    }

    /** Performs an operation on the shared state. */
    method Execute(r: Req, e: Effect)
      requires Valid() && Present(e)
      modifies this, vols, snaps
      ensures Valid() && Grown() && View() == Apply(old(View()), r, e)
    {
      if OnVolume(e) || OnSnapshot(e) { UpdateObject(r, e); }
      else if OnCache(e) { UpdateCache(r, e); }
      else { UpdateLocks(r, e); }
    }

    // ---- Deciding on an operation ----

    // The objects in the slots of the request exist.
    predicate Prepared(l: Local)
      reads this
    {
      && (LooksAtVolume(l.pc) ==> ObjOf(Cur(l)) < |vols| && Released(l) < |vols|)
      && (l.pc.SLkIn? || l.pc.SRlRLock? ==> ObjOf(l.src) < |vols|)
      && (LooksAtSnapshot(l.pc) ==> ObjOf(l.snap) < |snaps|)
    }

    method LookIntoVolumes(r: Req, l: Local, ans: Answer) returns (m: Move)
      requires Valid() && (l.pc.LkIn? || l.pc.NwIn?)
      ensures m == Act(View(), r, l, ans)
    {
      if CurName(l) in vHash {
        var v := vHash[CurName(l)];
        m := Move(VHold(v.id), WithCur(l, Held(v.id)).(pc := if l.pc.LkIn? then LkHit else NwHit));
      } else if l.pc.LkIn? {
        m := Move(Skip, l.(pc := LkMiss));
      } else {
        m := Move(VAdd(CurName(l)), WithCur(l, Fresh(|vols|)).(pc := NwFresh));
      }
    }

    // lookupSnapshot compares the volume object it has in hand with the one the snapshot refers to.
    method LookUpSnapshot(r: Req, l: Local, ans: Answer) returns (m: Move)
      requires Valid() && Prepared(l) && l.pc.SLkIn?
      ensures m == Act(View(), r, l, ans)
    {
      if SnapNameOf(l.op) in sHash {
        var x := sHash[SnapNameOf(l.op)];
        assert SnapAt(View(), x.id) == x.View();
        if x.volume != vols[ObjOf(l.src)] {
          m := Move(Panic, l);
        } else {
          m := Move(SHold(x.id), l.(snap := Held(x.id), pc := SLkHit));
        }
      } else {
        m := Move(Skip, l.(pc := SLkMiss));
      }
    }

    // newSnapshot compares the name of the source.
    method FindSnapshot(r: Req, l: Local, ans: Answer) returns (m: Move)
      requires Valid() && l.pc.SNwIn?
      ensures m == Act(View(), r, l, ans)
    {
      var name, source := SnapNameOf(l.op), VolNameOf(l.op, Source);
      if name in sHash {
        var x := sHash[name];
        assert SnapAt(View(), x.id) == x.View();
        if x.source != source {
          m := Move(Skip, l.(pc := SNwDiff));
        } else {
          m := Move(SHold(x.id), l.(snap := Held(x.id), pc := SNwHit));
        }
      } else {
        m := Move(SAdd(name, ObjOf(l.src), source), l.(snap := Placed(|snaps|), pc := SNwFresh));
      }
    }

    // The bolt is free.
    method TakeBolt(r: Req, l: Local, ans: Answer) returns (m: Move)
      requires Valid() && Prepared(l) && (l.pc.VBolt? || l.pc.SBolt?)
      ensures m == Act(View(), r, l, ans)
    {
      if l.pc.VBolt? {
        var v := vols[ObjOf(Cur(l))];
        m := Move(VTake(v.id), if v.state.Created? then GoOn(WithCur(l, Mine(v.id)))
                               else WithCur(l, Spent(v.id)).(pc := VRlRLock));
      } else {
        var x := snaps[ObjOf(l.snap)];
        m := Move(STake(x.id), if x.state.Created? then l.(snap := Mine(x.id), pc := AfterSnap(l.op))
                               else l.(snap := Spent(x.id), pc := SRlRLock));
      }
    }

    // releaseSnapshot goes on to release the volume object that the snapshot refers to.
    method AimRelease(r: Req, l: Local, ans: Answer) returns (m: Move)
      requires Valid() && Prepared(l) && l.pc.SRlRLock?
      ensures m == Act(View(), r, l, ans)
    {
      var v := snaps[ObjOf(l.snap)].volume;
      m := Move(SRLock, l.(pc := SRlIn, sm := Reads, stray := if v == vols[ObjOf(l.src)] then None else Some(v.id)));
    }

    method LeaveSnapshot(r: Req, l: Local, ans: Answer) returns (m: Move)
      requires Valid() && Prepared(l) && (l.pc.SRlIn? || l.pc.SRlDel?)
      ensures m == Act(View(), r, l, ans)
    {
      var x := snaps[ObjOf(l.snap)];
      if l.pc.SRlIn? {
        m := Move(SCount(x.id), if x.refcount == 1 && !x.state.Created? then l.(snap := Closing(x.id), pc := SRlSlow)
                                else l.(snap := Parting(x.id), pc := SRlFast));
      } else {
        m := Move(if x.refcount == 0 && !x.state.Created? then SRemove(x.id) else Skip,
                  l.(snap := Empty, pc := SRlSlowDone));
      }
    }

    method UnlockSnapshot(r: Req, l: Local, ans: Answer) returns (m: Move)
      requires Valid() && Prepared(l) && (l.pc.SRlFastBolt? || l.pc.SRlUnbolt?)
      ensures m == Act(View(), r, l, ans)
    {
      var x := snaps[ObjOf(l.snap)];
      if x.owner != Some(r) {
        m := Move(Panic, l);
      } else {
        m := Move(SFree(x.id), if l.pc.SRlFastBolt? then l.(snap := Empty, pc := VRlRLock)
                               else l.(snap := Leaving(x.id), pc := SRlDel));
      }
    }

    method LeaveVolume(r: Req, l: Local, ans: Answer) returns (m: Move)
      requires Valid() && Prepared(l) && (l.pc.VRlIn? || l.pc.VRlDel?)
      ensures m == Act(View(), r, l, ans)
    {
      var v := vols[Released(l)];
      assert VolAt(View(), v.id) == v.View();
      if l.pc.VRlIn? {
        m := Move(VCount(v.id), if v.refcount == 1 && !v.state.Created? then Shed(l, Closing(v.id)).(pc := VRlSlow)
                                else Shed(l, Parting(v.id)).(pc := VRlFastBolt));
      } else {
        m := Move(if v.refcount == 0 && !v.state.Created? then VRemove(v.id) else Skip,
                  Shed(l, Empty).(pc := VRlSlowDone));
      }
    }

    method UnlockVolume(r: Req, l: Local, ans: Answer) returns (m: Move)
      requires Valid() && Prepared(l) && (l.pc.VRlFastBolt? || l.pc.VRlUnbolt?)
      ensures m == Act(View(), r, l, ans)
    {
      var v := vols[Released(l)];
      assert VolAt(View(), v.id) == v.View();
      if v.owner != Some(r) {
        m := Move(Panic, l);
      } else {
        m := Move(VFree(v.id), if l.pc.VRlFastBolt? then Shed(l, Empty).(pc := VRlFast)
                               else Shed(l, Leaving(v.id)).(pc := VRlDel));
      }
    }

    // What a request sees that looks at no object.
    function Shared(): State
      reads this
    {
      State(map[], {}, None, [], map[], {}, None, [], appVols, appSnaps, map[], false)
    }

    /** The next operation of a request, decided on the objects and caches in memory. */
    method Decide(r: Req, l: Local, ans: Answer) returns (m: Move)
      requires Valid() && Prepared(l)
      ensures m == Act(View(), r, l, ans)
    {
      if l.pc.LkIn? || l.pc.NwIn? { m := LookIntoVolumes(r, l, ans); }
      else if l.pc.SLkIn? { m := LookUpSnapshot(r, l, ans); }
      else if l.pc.SNwIn? { m := FindSnapshot(r, l, ans); }
      else if l.pc.VBolt? || l.pc.SBolt? { m := TakeBolt(r, l, ans); }
      else if l.pc.SRlRLock? { m := AimRelease(r, l, ans); }
      else if l.pc.SRlIn? || l.pc.SRlDel? { m := LeaveSnapshot(r, l, ans); }
      else if LooksAtSnapshot(l.pc) { m := UnlockSnapshot(r, l, ans); }
      else if l.pc.VRlIn? || l.pc.VRlDel? { m := LeaveVolume(r, l, ans); }
      else if LooksAtVolume(l.pc) { m := UnlockVolume(r, l, ans); }
      else {
        OnlyAppliance(View(), Shared(), r, l, ans);
        m := Act(Shared(), r, l, ans);
      }
    }

    // ---- Whole requests ----

    /** Request r takes its next step, with the given answer of the appliance to its call if any. */
    method Go(r: Req, ans: Answer)
      requires Valid() && Inv(View()) && Ready(View(), r)
      modifies this, vols, snaps
      ensures Valid() && Grown() && View() == Advance(old(View()), r, ans)
    {
      LooksInRange(View(), r);
      WorksInRange(View(), r, ans);
      DecideAndExecute(r, ans);
    }

    method DecideAndExecute(r: Req, ans: Answer)
      requires Valid() && r in reqs && Prepared(reqs[r]) && Present(Act(View(), r, reqs[r], ans).eff)
      modifies this, vols, snaps
      ensures Valid() && Grown() && View() == Advance(old(View()), r, ans)
    {
      var m := Decide(r, reqs[r], ans);
      ExecuteMove(r, m);
    }

    method ExecuteMove(r: Req, m: Move)
      requires Valid() && Present(m.eff)
      modifies this, vols, snaps
      ensures Valid() && Grown() && View() == Perform(old(View()), r, m)
    {
      ghost var s := View();
      Execute(r, m.eff);
      assert View().reqs == s.reqs by { ApplyKeepsRequests(s, r, m.eff); }
      Continue(r, m.next);
    }

    method Continue(r: Req, l: Local)
      requires Valid()
      modifies this`reqs
      ensures Valid() && View() == old(View()).(reqs := old(View()).reqs[r := l])
    {
      reqs := reqs[r := l];
    }

    /** Serves requests in the given order of events, passing over events that cannot happen. Whatever
        the order, the driver stays in states of the transition system. */
    method Serve(schedule: seq<Event>)
      requires Valid() && Reachable(View())
      modifies this, vols, snaps
      ensures Valid() && Grown() && Reachable(View())
    {
      for i := 0 to |schedule|
        invariant Valid() && Grown() && Reachable(View())
      {
        Take(schedule[i]);
      }
    }

    method Take(e: Event)
      requires Valid() && Reachable(View())
      modifies this, vols, snaps
      ensures Valid() && Grown() && Reachable(View())
    {
      ghost var s := View();
      ReachableInv(s);
      match e.action {
        case Arrive(op) =>
          if !panicked && e.req !in reqs && Listed(View(), op) {
            Continue(e.req, InitLocal(op));
            ReachableStep(s, e, View());
          }
        case Go(ans) =>
          if Ready(View(), e.req) {
            Go(e.req, ans);
            ReachableStep(s, e, View());
          }
      }
    }

    /** Two requests that own the bolt of the same object in memory are one and the same. */
    lemma OneOwnerPerObject(r: Req, k: Which, q: Req, j: Which)
      requires Valid() && Reachable(View()) && r in reqs && q in reqs
      requires Owning(SlotOf(reqs[r], k)) && Owning(SlotOf(reqs[q], j))
      ensures SlotOf(reqs[r], k).o < |vols| && SlotOf(reqs[q], j).o < |vols|
      ensures vols[SlotOf(reqs[r], k).o] == vols[SlotOf(reqs[q], j).o] ==> r == q && k == j
    {
      OneObjectPerName(View(), r, k);
      OneObjectPerName(View(), q, j);
      if vols[SlotOf(reqs[r], k).o] == vols[SlotOf(reqs[q], j).o] { ExclusiveAccess(View(), r, k, q, j); }
    }
  }
}
