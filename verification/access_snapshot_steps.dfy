/** Every operation keeps the invariant of the snapshot objects and of the appliance. */
module AccessSnapshotSteps {
  import opened Common
  import opened AccessModel
  import opened AccessProgram
  import opened AccessVolumes
  import opened AccessSnapshots
  import opened AccessVolumeSteps

  /** Two requests with the same source volume in hand are one request. */
  lemma SameSource(s: State, r: Req, q: Req)
    requires SlotsInv(s) && r in s.reqs && q in s.reqs
    requires s.reqs[r].src.Mine? && s.reqs[q].src.Mine?
    requires VolNameOf(s.reqs[r].op, Source) == VolNameOf(s.reqs[q].op, Source) || s.reqs[r].src == s.reqs[q].src
    ensures q == r
  {
    assert SlotInv(s, r, SlotOf(s.reqs[r], Source), VolNameOf(s.reqs[r].op, Source));
    assert SlotInv(s, q, SlotOf(s.reqs[q], Source), VolNameOf(s.reqs[q].op, Source));
  }

  /** Only snapshot x and request r's own variables change; r has the source volume of x in hand. */
  ghost predicate TouchesSnap(s: State, s': State, r: Req, n: Local, x: nat) {
    && r in s.reqs
    && n.op == s.reqs[r].op && n.src == s.reqs[r].src
    && s'.reqs == s.reqs[r := n]
    && s'.sHash == s.sHash && s'.vHash == s.vHash && s'.vols == s.vols
    && |s'.snaps| == |s.snaps| && x < |s.snaps|
    && s'.snaps[x].name == s.snaps[x].name && s'.snaps[x].volume == s.snaps[x].volume
    && s'.snaps[x].source == s.snaps[x].source
    && (forall p | 0 <= p < |s.snaps| && p != x :: s'.snaps[p] == s.snaps[p])
    && s.reqs[r].src.Mine? && s.snaps[x].source == VolNameOf(s.reqs[r].op, Source)
    && (s.reqs[r].snap.Empty? || s.reqs[r].snap.o == x)
    && (n.snap.Empty? || n.snap.o == x)
  }

  lemma UserKeepsSlots(s: State, s': State, r: Req, n: Local, x: nat)
    requires SlotsInv(s) && SnapInv(s) && TouchesSnap(s, s', r, n, x) && SnapSlotInv(s', r, n)
    ensures SnapSlotsInv(s')
  {
    forall q | q in s'.reqs ensures SnapSlotInv(s', q, s'.reqs[q]) {
      if q != r && !s.reqs[q].snap.Empty? {
        assert SnapSlotInv(s, q, s.reqs[q]);
        if s.reqs[q].snap.o == x { SameSource(s, r, q); }
      }
    }
  }

  lemma UserKeepsIdle(s: State, s': State, r: Req, n: Local, x: nat)
    requires SlotsInv(s) && SnapInv(s) && TouchesSnap(s, s', r, n, x)
    requires n.snap.Empty? ==> s'.snaps[x].refcount == 0 && s'.snaps[x].owner.None? && s'.snaps[x].life.Created?
    ensures IdleInv(s')
  {
    assert SlotInv(s, r, SlotOf(s.reqs[r], Source), VolNameOf(s.reqs[r].op, Source));
    forall p | 0 <= p < |s'.snaps| && p != x && InUse(s, p) ensures InUse(s', p) {
    }
  }

  lemma UserKeepsCache(s: State, s': State, r: Req, n: Local, x: nat)
    requires SnapInv(s) && TouchesSnap(s, s', r, n, x)
    ensures SnapCacheInv(s') && NamesInv(s')
  {
    forall p | 0 <= p < |s'.snaps| ensures NamesSource(s', p) {
      assert NamesSource(s, p);
    }
  }

  lemma UserKeeps(s: State, s': State, r: Req, n: Local, x: nat)
    requires SlotsInv(s) && SnapInv(s) && TouchesSnap(s, s', r, n, x) && SnapSlotInv(s', r, n)
    requires n.snap.Empty? ==> s'.snaps[x].refcount == 0 && s'.snaps[x].owner.None? && s'.snaps[x].life.Created?
    ensures SnapInv(s')
  {
    UserKeepsSlots(s, s', r, n, x);
    UserKeepsIdle(s, s', r, n, x);
    UserKeepsCache(s, s', r, n, x);
  }

  ghost predicate SnapReady(s: State, r: Req, m: Move) {
    && r in s.reqs
    && TidyInv(s) && VMutexInv(s) && VolInv(s) && RefInv(s)
    && SMutexInv(s) && SnapInv(s)
    && Contract(s, s.reqs[r], m) && Guarded(s, m.eff) && Tidy(m.next)
  }

  predicate OnSnap(e: Effect, x: nat) {
    match e
    case SHold(o) => o == x
    case STake(o) => o == x
    case SCount(o) => o == x
    case SFree(o) => o == x
    case SAct(o, _, _) => o == x
    case _ => false
  }

  /** An operation on the snapshot in the request's slot changes that snapshot only. */
  lemma UserTouches(s: State, r: Req, m: Move, x: nat)
    requires r in s.reqs && OnSnap(m.eff, x) && Contract(s, s.reqs[r], m)
    requires x < |s.snaps| && s.reqs[r].src.Mine? && s.snaps[x].source == VolNameOf(s.reqs[r].op, Source)
    requires s.reqs[r].snap.Empty? || s.reqs[r].snap.o == x
    ensures TouchesSnap(s, Perform(s, r, m), r, m.next, x)
  {
  }

  lemma HoldSnap(s: State, r: Req, m: Move)
    requires r in s.reqs && SlotsInv(s) && SnapInv(s) && Contract(s, s.reqs[r], m) && m.eff.SHold?
    ensures SnapInv(Perform(s, r, m))
  {
    var s', l, x := Perform(s, r, m), s.reqs[r], m.eff.o;
    assert NamesSource(s, x);
    assert SlotInv(s, r, SlotOf(l, Source), VolNameOf(l.op, Source));
    assert Cached(s, x);
    assert !InUse(s, x);
    UserTouches(s, r, m, x);
    UserKeeps(s, s', r, m.next, x);
  }

  lemma TakeSlot(s: State, r: Req, m: Move)
    requires r in s.reqs && SnapSlotInv(s, r, s.reqs[r]) && SnapContract(s, s.reqs[r], m) && m.eff.STake?
    requires m.next.op == s.reqs[r].op && m.next.src == s.reqs[r].src
    ensures m.eff.o < |s.snaps| && s.reqs[r].src.Mine? && s.reqs[r].snap.o == m.eff.o
    ensures s.snaps[m.eff.o].source == VolNameOf(s.reqs[r].op, Source)
    ensures SnapSlotInv(Perform(s, r, m), r, m.next)
  {
  }

  lemma TakeSnap(s: State, r: Req, m: Move)
    requires r in s.reqs && SlotsInv(s) && SnapInv(s) && Contract(s, s.reqs[r], m) && m.eff.STake?
    ensures SnapInv(Perform(s, r, m))
  {
    assert SnapSlotInv(s, r, s.reqs[r]);
    TakeSlot(s, r, m);
    UserTouches(s, r, m, m.eff.o);
    UserKeeps(s, Perform(s, r, m), r, m.next, m.eff.o);
  }

  lemma CountSlot(s: State, r: Req, m: Move)
    requires r in s.reqs && SnapSlotInv(s, r, s.reqs[r]) && SnapContract(s, s.reqs[r], m) && m.eff.SCount?
    requires m.next.op == s.reqs[r].op && m.next.src == s.reqs[r].src
    ensures m.eff.o < |s.snaps| && s.reqs[r].src.Mine? && s.reqs[r].snap.o == m.eff.o
    ensures s.snaps[m.eff.o].source == VolNameOf(s.reqs[r].op, Source)
    ensures SnapSlotInv(Perform(s, r, m), r, m.next)
  {
  }

  lemma CountSnap(s: State, r: Req, m: Move)
    requires r in s.reqs && SlotsInv(s) && SnapInv(s) && Contract(s, s.reqs[r], m) && m.eff.SCount?
    ensures SnapInv(Perform(s, r, m))
  {
    assert SnapSlotInv(s, r, s.reqs[r]);
    CountSlot(s, r, m);
    UserTouches(s, r, m, m.eff.o);
    UserKeeps(s, Perform(s, r, m), r, m.next, m.eff.o);
  }

  lemma FreeSlot(s: State, r: Req, m: Move)
    requires r in s.reqs && SnapSlotInv(s, r, s.reqs[r]) && SnapContract(s, s.reqs[r], m) && m.eff.SFree?
    requires m.next.op == s.reqs[r].op && m.next.src == s.reqs[r].src
    ensures m.eff.o < |s.snaps| && s.reqs[r].src.Mine? && s.reqs[r].snap.o == m.eff.o
    ensures s.snaps[m.eff.o].source == VolNameOf(s.reqs[r].op, Source)
    ensures SnapSlotInv(Perform(s, r, m), r, m.next)
    ensures m.next.snap.Empty? ==>
              var y := Perform(s, r, m).snaps[m.eff.o]; y.refcount == 0 && y.owner.None? && y.life.Created?
  {
  }

  lemma FreeSnap(s: State, r: Req, m: Move)
    requires r in s.reqs && SlotsInv(s) && SnapInv(s) && Contract(s, s.reqs[r], m) && m.eff.SFree?
    ensures SnapInv(Perform(s, r, m))
  {
    assert SnapSlotInv(s, r, s.reqs[r]);
    FreeSlot(s, r, m);
    UserTouches(s, r, m, m.eff.o);
    UserKeeps(s, Perform(s, r, m), r, m.next, m.eff.o);
  }

  lemma ActSlot(s: State, r: Req, m: Move)
    requires r in s.reqs && SnapSlotInv(s, r, s.reqs[r]) && SnapContract(s, s.reqs[r], m) && m.eff.SAct?
    requires m.next.op == s.reqs[r].op && m.next.src == s.reqs[r].src
    ensures m.eff.o < |s.snaps| && s.reqs[r].src.Mine? && s.reqs[r].snap.o == m.eff.o
    ensures s.snaps[m.eff.o].source == VolNameOf(s.reqs[r].op, Source)
    ensures SnapSlotInv(Perform(s, r, m), r, m.next)
  {
  }

  lemma ActSnap(s: State, r: Req, m: Move)
    requires r in s.reqs && SlotsInv(s) && SnapInv(s) && Contract(s, s.reqs[r], m) && m.eff.SAct?
    ensures SnapInv(Perform(s, r, m))
  {
    assert SnapSlotInv(s, r, s.reqs[r]);
    ActSlot(s, r, m);
    UserTouches(s, r, m, m.eff.o);
    UserKeeps(s, Perform(s, r, m), r, m.next, m.eff.o);
  }

  lemma SkipSnap(s: State, r: Req, m: Move)
    requires SnapReady(s, r, m) && m.eff.Skip? && s.reqs[r].snap.Leaving? && m.next.snap.Empty?
    ensures SnapInv(Perform(s, r, m))
  {
    var s', l, x := Perform(s, r, m), s.reqs[r], s.reqs[r].snap.o;
    assert SnapSlotInv(s, r, l);
    UserKeeps(s, s', r, m.next, x);
  }

  lemma AddSlots(s: State, r: Req, m: Move)
    requires SnapSlotsInv(s) && r in s.reqs && SnapContract(s, s.reqs[r], m) && m.eff.SAdd?
    requires m.next.op == s.reqs[r].op && m.next.src == s.reqs[r].src
    ensures SnapSlotsInv(Perform(s, r, m))
  {
    var s' := Perform(s, r, m);
    forall q | q in s'.reqs ensures SnapSlotInv(s', q, s'.reqs[q]) {
      if q != r { assert SnapSlotInv(s, q, s.reqs[q]); }
    }
  }

  lemma AddIdle(s: State, r: Req, m: Move)
    requires r in s.reqs && SlotsInv(s) && IdleInv(s) && SnapCacheInv(s) && Contract(s, s.reqs[r], m) && m.eff.SAdd?
    ensures IdleInv(Perform(s, r, m))
  {
    var s', l := Perform(s, r, m), s.reqs[r];
    assert SlotInv(s, r, SlotOf(l, Source), VolNameOf(l.op, Source));
    forall p | 0 <= p < |s.snaps| && InUse(s, p) ensures InUse(s', p) {
    }
  }

  lemma AddCache(s: State, r: Req, m: Move)
    requires r in s.reqs && SlotsInv(s) && SnapCacheInv(s) && NamesInv(s) && Contract(s, s.reqs[r], m) && m.eff.SAdd?
    ensures SnapCacheInv(Perform(s, r, m)) && NamesInv(Perform(s, r, m))
  {
    var s', l := Perform(s, r, m), s.reqs[r];
    assert SlotInv(s, r, SlotOf(l, Source), VolNameOf(l.op, Source));
    forall p | 0 <= p < |s'.snaps| ensures NamesSource(s', p) {
      if p < |s.snaps| { assert NamesSource(s, p); }
    }
  }

  lemma AddSnap(s: State, r: Req, m: Move)
    requires SnapReady(s, r, m) && m.eff.SAdd?
    ensures SnapInv(Perform(s, r, m))
  {
    AddSlots(s, r, m);
    AddIdle(s, r, m);
    AddCache(s, r, m);
  }

  lemma RemoveSnap(s: State, r: Req, m: Move)
    requires r in s.reqs && SlotsInv(s) && SnapInv(s) && Contract(s, s.reqs[r], m) && m.eff.SRemove?
    ensures SnapInv(Perform(s, r, m))
  {
    var s', l, x := Perform(s, r, m), s.reqs[r], m.eff.o;
    assert SnapSlotInv(s, r, l);
    assert SlotInv(s, r, SlotOf(l, Source), VolNameOf(l.op, Source));
    forall q | q in s'.reqs ensures SnapSlotInv(s', q, s'.reqs[q]) {
      if q != r {
        assert SnapSlotInv(s, q, s.reqs[q]);
        if !s.reqs[q].snap.Empty? && s.reqs[q].snap.o == x { SameSource(s, r, q); }
      }
    }
    forall p | 0 <= p < |s.snaps| && p != x && InUse(s, p) ensures InUse(s', p) {
    }
    forall p | 0 <= p < |s'.snaps| ensures NamesSource(s', p) {
      assert NamesSource(s, p);
    }
  }

  // ---- Operations on volumes, seen from the snapshots ----

  /** No snapshot object and no entry of the snapshot cache changes; an owned volume stays in the cache,
      and an owner at work on a snapshot stays the owner. */
  ghost predicate VolumesServe(s: State, s': State, r: Req, n: Local) {
    && r in s.reqs && n.op == s.reqs[r].op
    && s'.reqs == s.reqs[r := n]
    && s'.snaps == s.snaps && s'.sHash == s.sHash
    && n.snap == s.reqs[r].snap && (!n.snap.Empty? ==> n.src == s.reqs[r].src)
    && |s'.vols| >= |s.vols| && (forall o | 0 <= o < |s.vols| :: s'.vols[o].name == s.vols[o].name)
    && (forall c | c in s.vHash :: KeepsOwner(s, s', r, n, c))
  }

  predicate KeepsOwner(s: State, s': State, r: Req, n: Local, c: VolName)
    requires c in s.vHash && |s'.vols| >= |s.vols|
  {
    var o := s.vHash[c];
    o < |s.vols| && s.vols[o].owner.Some? ==>
      && c in s'.vHash && s'.vHash[c] == o
      && (s'.vols[o].owner == s.vols[o].owner || (s.vols[o].owner == Some(r) && n.snap.Empty?))
  }

  lemma VolumesServeSnaps(s: State, s': State, r: Req, n: Local)
    requires SnapInv(s) && VolumesServe(s, s', r, n)
    ensures SnapInv(s')
  {
    forall q | q in s'.reqs ensures SnapSlotInv(s', q, s'.reqs[q]) {
      assert SnapSlotInv(s, q, s.reqs[q]);
    }
    forall p | 0 <= p < |s.snaps| && InUse(s, p) ensures InUse(s', p) {
      assert KeepsOwner(s, s', r, n, s.snaps[p].source);
    }
    forall p | 0 <= p < |s'.snaps| ensures NamesSource(s', p) {
      assert NamesSource(s, p);
    }
  }

  // Operations on one object that do not touch the cache.
  lemma WorkServes(s: State, r: Req, m: Move)
    requires r in s.reqs && Tidy(s.reqs[r]) && Tidy(m.next) && Contract(s, s.reqs[r], m) && Guarded(s, m.eff)
    requires m.eff.VHold? || m.eff.VTake? || m.eff.VCount? || m.eff.VFree?
    requires m.eff.VFree? ==> VolAt(s, m.eff.o).owner == Some(r)
    ensures VolumesServe(s, Perform(s, r, m), r, m.next)
  {
    if m.eff.VHold? || m.eff.VCount? { CountServes(s, r, m); } else { BoltServes(s, r, m); }
  }

  lemma CountServes(s: State, r: Req, m: Move)
    requires r in s.reqs && Tidy(s.reqs[r]) && Tidy(m.next) && Contract(s, s.reqs[r], m)
    requires m.eff.VHold? || m.eff.VCount?
    ensures VolumesServe(s, Perform(s, r, m), r, m.next)
  {
    var s' := Perform(s, r, m);
    forall c | c in s.vHash ensures KeepsOwner(s, s', r, m.next, c) {
    }
  }

  lemma BoltServes(s: State, r: Req, m: Move)
    requires r in s.reqs && Tidy(s.reqs[r]) && Tidy(m.next) && Contract(s, s.reqs[r], m) && Guarded(s, m.eff)
    requires m.eff.VTake? || (m.eff.VFree? && VolAt(s, m.eff.o).owner == Some(r))
    ensures VolumesServe(s, Perform(s, r, m), r, m.next)
  {
    var s' := Perform(s, r, m);
    forall c | c in s.vHash ensures KeepsOwner(s, s', r, m.next, c) {
    }
  }

  lemma ActServes(s: State, r: Req, m: Move)
    requires r in s.reqs && Tidy(s.reqs[r]) && Tidy(m.next) && Contract(s, s.reqs[r], m) && m.eff.VAct?
    ensures VolumesServe(s, Perform(s, r, m), r, m.next)
  {
    var s' := Perform(s, r, m);
    forall c | c in s.vHash ensures KeepsOwner(s, s', r, m.next, c) {
    }
  }

  lemma AddServes(s: State, r: Req, m: Move)
    requires r in s.reqs && Tidy(s.reqs[r]) && Tidy(m.next) && Contract(s, s.reqs[r], m) && m.eff.VAdd?
    ensures VolumesServe(s, Perform(s, r, m), r, m.next)
  {
    var s' := Perform(s, r, m);
    forall c | c in s.vHash ensures KeepsOwner(s, s', r, m.next, c) {
    }
  }

  lemma RemoveServes(s: State, r: Req, m: Move)
    requires r in s.reqs && Tidy(s.reqs[r]) && Tidy(m.next) && Contract(s, s.reqs[r], m) && m.eff.VRemove?
    requires VolAt(s, m.eff.o).owner.None? && CachedVol(s, m.eff.o)
    ensures VolumesServe(s, Perform(s, r, m), r, m.next)
  {
    var s' := Perform(s, r, m);
    forall c | c in s.vHash ensures KeepsOwner(s, s', r, m.next, c) {
    }
  }

  lemma VolEffectSnap(s: State, r: Req, m: Move)
    requires SnapReady(s, r, m) && VolEffect(m.eff)
    ensures SnapInv(Perform(s, r, m))
  {
    var l := s.reqs[r];
    if m.eff.VAdd? {
      AddServes(s, r, m);
    } else if m.eff.VAct? {
      ActServes(s, r, m);
    } else {
      assert SlotInv(s, r, SlotOf(l, l.which), VolNameOf(l.op, l.which));
      if m.eff.VRemove? {
        RemovedIsFree(s, r, m.eff.o);
        RemoveServes(s, r, m);
      } else {
        WorkServes(s, r, m);
      }
    }
    VolumesServeSnaps(s, Perform(s, r, m), r, m.next);
  }

  // ---- All operations ----

  predicate SnapEffect(e: Effect) { e.SHold? || e.SAdd? || e.STake? || e.SCount? || e.SFree? || e.SRemove? || e.SAct? }

  predicate SnapLock(e: Effect) { e.SRLock? || e.SRUnlock? || e.SLock? || e.SUnlock? }

  lemma EffectSnap(s: State, r: Req, m: Move)
    requires SnapReady(s, r, m) && SnapEffect(m.eff)
    ensures SnapInv(Perform(s, r, m))
  {
    match m.eff
    case SHold(_) => HoldSnap(s, r, m);
    case SAdd(_, _, _) => AddSnap(s, r, m);
    case STake(_) => TakeSnap(s, r, m);
    case SCount(_) => CountSnap(s, r, m);
    case SFree(_) => FreeSnap(s, r, m);
    case SRemove(_) => RemoveSnap(s, r, m);
    case SAct(_, _, _) => ActSnap(s, r, m);
  }

  lemma QuietSnap(s: State, s': State, r: Req, n: Local)
    requires r in s.reqs && SnapInv(s) && n.op == s.reqs[r].op
    requires n.snap == s.reqs[r].snap && (!n.snap.Empty? ==> n.src == s.reqs[r].src)
    requires s'.vols == s.vols && s'.vHash == s.vHash && s'.snaps == s.snaps && s'.sHash == s.sHash
    requires s'.reqs == s.reqs[r := n]
    ensures SnapInv(s')
  {
    VolumesServeSnaps(s, s', r, n);
  }

  lemma ApplyOutsideBoth(s: State, r: Req, e: Effect)
    requires !VolEffect(e) && !SnapEffect(e)
    ensures var s' := Apply(s, r, e);
            s'.vols == s.vols && s'.vHash == s.vHash && s'.snaps == s.snaps && s'.sHash == s.sHash
  {
  }

  lemma QuietSnapContract(s: State, r: Req, m: Move)
    requires r in s.reqs && Tidy(s.reqs[r]) && Contract(s, s.reqs[r], m)
    requires !VolEffect(m.eff) && !SnapEffect(m.eff)
    requires m.eff.Skip? ==> m.next.snap == s.reqs[r].snap
    ensures m.next.snap == s.reqs[r].snap && (!m.next.snap.Empty? ==> m.next.src == s.reqs[r].src)
  {
  }

  lemma LockSMutex(s: State, r: Req, m: Move)
    requires r in s.reqs && SMutexInv(s) && SnapContract(s, s.reqs[r], m) && Guarded(s, m.eff) && SnapLock(m.eff)
    ensures SMutexInv(Perform(s, r, m))
  {
  }

  lemma QuietSMutex(s: State, s': State, r: Req, n: Local)
    requires r in s.reqs && SMutexInv(s) && n.sm == s.reqs[r].sm
    requires s'.reqs == s.reqs[r := n] && s'.sReaders == s.sReaders && s'.sWriter == s.sWriter
    ensures SMutexInv(s')
  {
  }

  lemma SameSnapMode(s: State, l: Local, m: Move)
    requires SnapContract(s, l, m) && !SnapLock(m.eff)
    ensures m.next.sm == l.sm
  {
  }

  lemma ApplyKeepsSMutex(s: State, r: Req, e: Effect)
    requires !SnapLock(e)
    ensures Apply(s, r, e).sReaders == s.sReaders && Apply(s, r, e).sWriter == s.sWriter
  {
  }

  lemma StepSMutex(s: State, r: Req, m: Move)
    requires r in s.reqs && SMutexInv(s) && SnapContract(s, s.reqs[r], m) && Guarded(s, m.eff)
    ensures SMutexInv(Perform(s, r, m))
  {
    if SnapLock(m.eff) {
      LockSMutex(s, r, m);
    } else {
      SameSnapMode(s, s.reqs[r], m);
      ApplyKeepsSMutex(s, r, m.eff);
      QuietSMutex(s, Perform(s, r, m), r, m.next);
    }
  }

  lemma SkipSnapContract(s: State, l: Local, m: Move)
    requires SnapContract(s, l, m) && m.eff.Skip? && m.next.snap != l.snap
    ensures l.snap.Leaving? && m.next.snap.Empty?
  {
  }

  /** Every step that honours its contract keeps the snapshot objects, their cache and its mutex consistent. */
  lemma StepSnap(s: State, r: Req, m: Move)
    requires SnapReady(s, r, m)
    ensures SMutexInv(Perform(s, r, m)) && SnapInv(Perform(s, r, m))
  {
    StepSMutex(s, r, m);
    if SnapEffect(m.eff) {
      EffectSnap(s, r, m);
    } else if VolEffect(m.eff) {
      VolEffectSnap(s, r, m);
    } else if m.eff.Skip? && m.next.snap != s.reqs[r].snap {
      SkipSnapContract(s, s.reqs[r], m);
      SkipSnap(s, r, m);
    } else {
      ApplyOutsideBoth(s, r, m.eff);
      QuietSnapContract(s, r, m);
      QuietSnap(s, Perform(s, r, m), r, m.next);
    }
  }

  /** A volume goes astray only if the snapshot points at an object that left the cache. */
  lemma StrayNext(s: State, r: Req, m: Move)
    requires r in s.reqs && SlotsInv(s) && SnapSlotsInv(s) && NamesInv(s) && StrayInv(s)
    requires Contract(s, s.reqs[r], m)
    ensures GoneAstray(s, m.next)
  {
    var l := s.reqs[r];
    assert GoneAstray(s, l);
    assert SnapSlotInv(s, r, l);
    if m.next.stray != l.stray {
      assert NamesSource(s, l.snap.o);
      assert SlotInv(s, r, SlotOf(l, Source), VolNameOf(l.op, Source));
    }
  }
}
