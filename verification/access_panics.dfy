/** When the driver can be made to panic: the exact condition after an answer that leaves a cached
    snapshot pointing at a volume object that is about to go. */
module AccessPanics {
  import opened Common
  import opened AccessModel
  import opened AccessProgram
  import opened AccessVolumes
  import opened AccessSnapshots
  import opened AccessVolumeSteps
  import opened AccessSnapshotSteps
  import opened AccessApplianceSteps
  import opened AccessRuns
  import opened AccessHistories
  import opened AccessBeliefs
  import opened AccessDrain
  import opened AccessSolo
  import opened AccessDeletion

  /** Tame steps can lead from s to a panic. */
  ghost predicate CanPanic(s: State, names: Names) {
    exists s' :: TameLeads(s, s', names) && s'.panicked
  }

  /** Tame steps can lead from s to a state in which the next step, at the given point, panics. */
  ghost predicate CanPanicAt(s: State, pc: Pc, names: Names) {
    exists s', r :: TameLeads(s, s', names) && PanicsNext(s', r, pc)
  }

  ghost predicate PanicsNext(s: State, r: Req, pc: Pc) {
    Ready(s, r) && s.reqs[r].pc == pc && Advance(s, r, Reply).panicked
  }

  // The two panics: the caches disagree on the source, or the caller does not own the bolt.
  ghost predicate CanPanicTwice(s: State, names: Names) {
    CanPanicAt(s, SLkIn, names) && CanPanicAt(s, VRlFastBolt, names)
  }

  lemma LookupPanicPanics(s0: State, names: Names)
    requires CanPanicAt(s0, SLkIn, names)
    ensures CanPanic(s0, names)
  {
    var s, r :| TameLeads(s0, s, names) && PanicsNext(s, r, SLkIn);
    Tick(s0, s, r, Advance(s, r, Reply), names);
  }

  /** The snapshot cached under k points at volume object o, which has left the created state. */
  predicate Orphan(s: State, k: SnapName, n: VolName, o: nat) {
    && k in s.sHash && s.sHash[k] < |s.snaps| && s.snaps[s.sHash[k]].volume == o
    && o < |s.vols| && s.vols[o].life.Deleted? && s.vols[o].name == n
  }

  /** Request h is about to release the cached but deleted volume o of the snapshot k. */
  ghost predicate Dying(s: State, k: SnapName, n: VolName, o: nat, h: Req) {
    && Orphan(s, k, n, o) && CachedVol(s, o)
    && h in s.reqs && s.reqs[h].pc.VRlRLock? && s.reqs[h].stray.None? && !Inside(s.reqs[h])
    && Cur(s.reqs[h]) == Spent(o)
  }

  // ---- Others do not save the situation ----

  // Nobody works on a snapshot whose source volume is cached but deleted.
  lemma NoUser(s: State, k: SnapName, n: VolName, o: nat, q: Req)
    requires SlotsInv(s) && SnapSlotsInv(s) && NamesInv(s) && Orphan(s, k, n, o) && CachedVol(s, o) && q in s.reqs
    ensures s.reqs[q].snap.Empty? || s.reqs[q].snap.o != s.sHash[k]
  {
    assert SnapSlotInv(s, q, s.reqs[q]) && NamesSource(s, s.sHash[k]);
    assert SlotInv(s, q, SlotOf(s.reqs[q], Source), VolNameOf(s.reqs[q].op, Source));
  }

  lemma EntryKept(s: State, q: Req, m: Move, k: SnapName)
    requires q in s.reqs && SnapSlotInv(s, q, s.reqs[q]) && SnapCacheInv(s) && SnapContract(s, s.reqs[q], m)
    requires k in s.sHash && (s.reqs[q].snap.Empty? || s.reqs[q].snap.o != s.sHash[k])
    ensures var s' := Perform(s, q, m); k in s'.sHash && s'.sHash[k] == s.sHash[k]
  {
    if !SnapEffect(m.eff) && !m.eff.AppSnapAct? { OutsideSnapCache(s, q, m.eff); }
  }

  lemma CachedKept(s: State, q: Req, m: Move, o: nat)
    requires q in s.reqs && VolContract(s, s.reqs[q], m) && CachedVol(s, o) && s.vols[o].refcount > 0
    requires SlotsInv(s)
    ensures CachedVol(Perform(s, q, m), o)
  {
    if m.eff.VRemove? { RemovedOther(s, q, m, o); }
    else if m.eff.VAdd? { AddedOther(s, q, m, o); }
    else if VolEffect(m.eff) || VolLock(m.eff) { WorkKeepsCached(s, q, m.eff, o); }
    else { ApplyOutside(s, q, m.eff); }
  }

  lemma WorkKeepsCached(s: State, q: Req, e: Effect, o: nat)
    requires (VolEffect(e) || VolLock(e)) && !e.VAdd? && !e.VRemove? && CachedVol(s, o)
    ensures CachedVol(Apply(s, q, e), o)
  {
  }

  lemma AddedOther(s: State, q: Req, m: Move, o: nat)
    requires q in s.reqs && VolContract(s, s.reqs[q], m) && m.eff.VAdd? && CachedVol(s, o)
    ensures CachedVol(Perform(s, q, m), o)
  {
  }

  lemma RemovedOther(s: State, q: Req, m: Move, o: nat)
    requires q in s.reqs && VolContract(s, s.reqs[q], m) && m.eff.VRemove? && CachedVol(s, o) && s.vols[o].refcount > 0
    requires SlotsInv(s)
    ensures CachedVol(Perform(s, q, m), o)
  {
    assert SlotInv(s, q, Cur(s.reqs[q]), CurName(s.reqs[q]));
    assert m.eff.o != o;
  }

  lemma DyingStep(s: State, k: SnapName, n: VolName, o: nat, h: Req, q: Req)
    requires Inv(s) && Dying(s, k, n, o, h) && q != h && Ready(s, q)
    ensures Dying(Advance(s, q, Reply), k, n, o, h)
  {
    MoveOk(s, q, Reply);
    AdvanceAges(s, q, Reply);
    DyingMove(s, k, n, o, h, q, Act(s, q, s.reqs[q], Reply));
  }

  lemma DyingMove(s: State, k: SnapName, n: VolName, o: nat, h: Req, q: Req, m: Move)
    requires SlotsInv(s) && SnapSlotsInv(s) && NamesInv(s) && SnapCacheInv(s) && RefInv(s)
    requires Dying(s, k, n, o, h) && q in s.reqs && q != h
    requires VolContract(s, s.reqs[q], m) && SnapContract(s, s.reqs[q], m) && Ages(s, Perform(s, q, m), q)
    ensures Dying(Perform(s, q, m), k, n, o, h)
  {
    NoUser(s, k, n, o, q);
    assert SnapSlotInv(s, q, s.reqs[q]);
    EntryKept(s, q, m, k);
    HolderCounts(s, h, o);
    CachedKept(s, q, m, o);
  }

  lemma HolderCounts(s: State, h: Req, o: nat)
    requires RefInv(s) && h in s.reqs && Cur(s.reqs[h]) == Spent(o) && CachedVol(s, o)
    ensures s.vols[o].refcount > 0
  {
    Positive(s, h, s.reqs[h].which);
  }

  lemma DyingLasts(k: SnapName, n: VolName, o: nat, h: Req)
    ensures Lasting((t: State) => Dying(t, k, n, o, h), h)
  {
    var keep := (t: State) => Dying(t, k, n, o, h);
    forall s, q | Inv(s) && keep(s) && q != h && Ready(s, q) && Inside(s.reqs[q]) ensures Survives(s, keep, q) {
      DyingStep(s, k, n, o, h, q);
    }
  }

  // ---- The deleted volume leaves the cache ----

  /** The snapshot cached under k, of source n, is left with a volume that is gone. */
  predicate Gone(s: State, k: SnapName, n: VolName, o: nat) {
    && Quiet(s) && !s.panicked && Orphan(s, k, n, o) && s.snaps[s.sHash[k]].source == n && n !in s.vHash
  }

  lemma DyingFacts(s: State, k: SnapName, n: VolName, o: nat, h: Req)
    requires Inv(s) && Dying(s, k, n, o, h) && Quiet(s) && !s.panicked
    ensures AboutToRelease(s, h, o) && s.vols[o].refcount > 0
    ensures s.snaps[s.sHash[k]].source == n
  {
    InvSlot(s, h, s.reqs[h].which);
    HolderCounts(s, h, o);
    InvCachedSnap(s, k);
  }

  /** When a counted volume has no owner, one of those who count it is waiting for its bolt. */
  lemma NextHolder(s: State, o: nat) returns (q: Req)
    requires Inv(s) && Quiet(s) && CachedVol(s, o) && s.vols[o].owner.None? && s.vols[o].refcount > 0
    ensures q in s.reqs && s.reqs[q].pc.VBolt? && Cur(s.reqs[q]) == Held(o)
    ensures s.reqs[q].stray.None? && !Inside(s.reqs[q])
  {
    assert |Holders(s.reqs, o)| > 0;
    var h :| h in Holders(s.reqs, o);
    q := h.0;
    InvSlot(s, q, h.1);
    InvLocal(s, q);
    QuietOutside(s, q);
    HeldSlot(s.reqs[q], h.1);
  }

  lemma QuietOutside(s: State, q: Req)
    requires Inv(s) && Quiet(s) && q in s.reqs
    ensures !Inside(s.reqs[q])
  {
  }

  lemma HeldSlot(l: Local, k: Which)
    requires LocalOk(l) && !Inside(l) && Counted(SlotOf(l, k)) && !Owning(SlotOf(l, k))
    ensures l.pc.VBolt? && Cur(l) == SlotOf(l, k) && Cur(l).Held? && l.stray.None?
  {
    LocalOkTidy(l);
  }

  lemma {:induction false} LeaveCache(s0: State, s: State, k: SnapName, n: VolName, o: nat, h: Req, names: Names)
    returns (s': State)
    requires Inv(s0) && TameLeads(s0, s, names) && Dying(s, k, n, o, h) && Quiet(s) && !s.panicked
    ensures TameLeads(s0, s', names) && Gone(s', k, n, o)
    decreases s.vols[o].refcount
  {
    LeadsKeepsInv(s0, s, names);
    DyingFacts(s, k, n, o, h);
    if s.vols[o].refcount == 1 {
      s' := SlowRelease(s0, s, h, o, names);
    } else {
      var s1 := FastRelease(s0, s, h, o, names);
      var s2, q := NextRelease(s0, s1, k, n, o, names);
      s' := LeaveCache(s0, s2, k, n, o, q, names);
    }
  }

  lemma NextRelease(s0: State, s: State, k: SnapName, n: VolName, o: nat, names: Names) returns (s': State, q: Req)
    requires Inv(s0) && TameLeads(s0, s, names) && Orphan(s, k, n, o) && CachedVol(s, o) && Quiet(s) && !s.panicked
    requires s.vols[o].owner.None? && s.vols[o].refcount > 0
    ensures TameLeads(s0, s', names) && Dying(s', k, n, o, q) && Quiet(s') && !s'.panicked
    ensures s'.vols[o].refcount == s.vols[o].refcount
  {
    LeadsKeepsInv(s0, s, names);
    q := NextHolder(s, o);
    s' := NextTake(s0, s, k, n, o, q, names);
  }

  lemma NextTake(s0: State, s: State, k: SnapName, n: VolName, o: nat, q: Req, names: Names) returns (s': State)
    requires TameLeads(s0, s, names) && Orphan(s, k, n, o) && CachedVol(s, o) && Quiet(s) && !s.panicked
    requires q in s.reqs && s.reqs[q].pc.VBolt? && Cur(s.reqs[q]) == Held(o) && s.vols[o].owner.None?
    requires s.reqs[q].stray.None? && !Inside(s.reqs[q])
    ensures TameLeads(s0, s', names) && Dying(s', k, n, o, q) && Quiet(s') && !s'.panicked
    ensures s'.vols[o].refcount == s.vols[o].refcount
  {
    s' := Put(s, q, WithCur(s.reqs[q], Spent(o)).(pc := VRlRLock)).(
      vols := s.vols[o := s.vols[o].(owner := Some(q))]);
    AtVBolt(s0, s, q, o, s', names);
  }

  // ---- The next request for the snapshot panics ----

  lemma LookupPanics(s: State, r: Req, k: SnapName)
    requires r in s.reqs && s.reqs[r].pc.SLkIn? && SnapNameOf(s.reqs[r].op) == k && k in s.sHash && !s.panicked
    requires SnapAt(s, s.sHash[k]).volume != ObjOf(s.reqs[r].src)
    ensures PanicsNext(s, r, SLkIn)
  {
  }

  lemma FinalPanic(s0: State, s: State, r: Req, n: VolName, k: SnapName, o: nat, names: Names)
    requires TameLeads(s0, s, names) && Quiet(s) && !s.panicked && k in s.sHash
    requires r in s.reqs && s.reqs[r] == InHandOf(GetSnapshot(n, k), o) && SnapAt(s, s.sHash[k]).volume != o
    ensures CanPanicAt(s0, SLkIn, names)
  {
    var s1 := Put(s, r, s.reqs[r].(pc := SLkIn, sm := Reads)).(sReaders := s.sReaders + {r});
    AtSLkRLock(s0, s, r, s1, names);
    LookupPanics(s1, r, k);
  }

  // ---- The other panic: unlocking a volume of another owner ----

  // Request r has volume o in hand and is about to lock the snapshot cache for snapshot k of volume n.
  predicate Resumes(s: State, r: Req, k: SnapName, n: VolName, o: nat) {
    && Quiet(s) && !s.panicked && r in s.reqs && s.reqs[r] == InHandOf(CreateSnapshot(n, k), o)
    && n in s.appVols
  }

  // The idle snapshot x cached under k points at another volume object.
  predicate Misled(s: State, k: SnapName, n: VolName, x: nat, o: nat) {
    && k in s.sHash && s.sHash[k] == x && x < |s.snaps|
    && s.snaps[x].source == n && s.snaps[x].life.Created? && s.snaps[x].owner.None? && s.snaps[x].volume != o
  }

  lemma TakeMisled(s0: State, s: State, r: Req, k: SnapName, n: VolName, x: nat, o: nat, names: Names)
    returns (s': State)
    requires TameLeads(s0, s, names) && Resumes(s, r, k, n, o) && Misled(s, k, n, x, o)
    ensures TameLeads(s0, s', names)
    ensures s' == Put(s, r, s.reqs[r].(pc := SBolt, snap := Held(x))).(
              snaps := s.snaps[x := s.snaps[x].(refcount := s.snaps[x].refcount + 1)])
  {
    var l := s.reqs[r];
    var l1 := l.(pc := SNwIn, sm := Writes);
    var s1 := Put(s, r, l1).(sWriter := Some(r));
    AtSNwLock(s0, s, r, s1, names);
    var l2 := l1.(pc := SNwHit, snap := Held(x));
    var s2 := Put(s, r, l2).(sWriter := Some(r),
                             snaps := s.snaps[x := s.snaps[x].(refcount := s.snaps[x].refcount + 1)]);
    AtSNwInHit(s0, s1, r, k, n, x, s2, names) by { Again(s, r, l1, l2); }
    var l3 := l.(pc := SBolt, snap := Held(x));
    s' := Put(s, r, l3).(snaps := s2.snaps);
    AtSNwHit(s0, s2, r, s', names) by { Again(s, r, l2, l3); }
  }

  lemma UseMisled(s0: State, s: State, r: Req, k: SnapName, n: VolName, x: nat, names: Names)
    returns (s': State)
    requires TameLeads(s0, s, names) && Quiet(s) && !s.panicked && r in s.reqs && n in s.appVols
    requires s.reqs[r].pc.SBolt? && s.reqs[r].op == CreateSnapshot(n, k) && s.reqs[r].snap == Held(x)
    requires x < |s.snaps| && s.snaps[x].life.Created? && s.snaps[x].owner.None?
    ensures TameLeads(s0, s', names)
    ensures s' == Put(s, r, s.reqs[r].(pc := SRlRLock, snap := Mine(x))).(
              snaps := s.snaps[x := s.snaps[x].(owner := Some(r))], appSnaps := s.appSnaps + {(n, k)})
  {
    var l := s.reqs[r];
    var l1 := l.(pc := SCreate, snap := Mine(x));
    var s1 := Put(s, r, l1).(snaps := s.snaps[x := s.snaps[x].(owner := Some(r))]);
    AtSBolt(s0, s, r, x, s1, names);
    var l2 := l1.(pc := SRlRLock);
    s' := Put(s, r, l2).(snaps := s1.snaps, appSnaps := s.appSnaps + {(n, k)});
    AtSCreate(s0, s1, r, k, n, x, s', names) by { Again(s, r, l1, l2); }
  }

  lemma LoseWay(s0: State, s: State, r: Req, x: nat, v: nat, names: Names) returns (s': State)
    requires TameLeads(s0, s, names) && Quiet(s) && !s.panicked && r in s.reqs && s.reqs[r].pc.SRlRLock?
    requires s.reqs[r].snap == Mine(x) && x < |s.snaps| && s.snaps[x].life.Created? && s.snaps[x].owner == Some(r)
    requires s.snaps[x].volume == v && v != ObjOf(s.reqs[r].src)
    ensures TameLeads(s0, s', names) && Quiet(s') && !s'.panicked && s'.vols == s.vols && s'.vHash == s.vHash
    ensures r in s'.reqs && s'.reqs[r].pc.VRlRLock? && s'.reqs[r].stray == Some(v)
  {
    var l, y := s.reqs[r], s.snaps[x].(refcount := s.snaps[x].refcount - 1);
    var l1 := l.(pc := SRlIn, sm := Reads, stray := Some(v));
    var s1 := Put(s, r, l1).(sReaders := {r});
    AtSRlRLockStray(s0, s, r, v, s1, names) by { assert s.sReaders + {r} == {r}; }
    var l2 := l1.(pc := SRlFast, snap := Parting(x));
    var s2 := Put(s, r, l2).(sReaders := {r}, snaps := s.snaps[x := y]);
    AtSRlIn(s0, s1, r, x, s2, names) by { Again(s, r, l1, l2); }
    s' := ReleaseSnapEnd(s0, s, s2, r, x, y, names);
  }

  lemma UnlockPanics(s: State, r: Req, v: nat)
    requires r in s.reqs && s.reqs[r].pc.VRlFastBolt? && s.reqs[r].stray == Some(v) && !s.panicked
    requires v < |s.vols| && s.vols[v].owner.None?
    ensures PanicsNext(s, r, VRlFastBolt)
  {
  }

  lemma UnlockStray(s0: State, s: State, r: Req, v: nat, names: Names)
    requires TameLeads(s0, s, names) && Quiet(s) && !s.panicked
    requires r in s.reqs && s.reqs[r].pc.VRlRLock? && s.reqs[r].stray == Some(v)
    requires v < |s.vols| && s.vols[v].refcount != 1 && s.vols[v].owner.None?
    ensures CanPanicAt(s0, VRlFastBolt, names)
  {
    var l := s.reqs[r];
    var l1 := l.(pc := VRlIn, vm := Reads);
    var s1 := Put(s, r, l1).(vReaders := {r});
    AtVRlRLock(s0, s, r, s1, names) by { assert s.vReaders + {r} == {r}; }
    var l2 := l1.(pc := VRlFastBolt);
    var s2 := Put(s, r, l2).(vReaders := {r}, vols := s.vols[v := s.vols[v].(refcount := s.vols[v].refcount - 1)]);
    AtVRlIn(s0, s1, r, v, s2, names) by { Again(s, r, l1, l2); }
    UnlockPanics(s2, r, v);
  }

  lemma MisledPanics(s0: State, s: State, r: Req, k: SnapName, n: VolName, x: nat, o: nat, v: nat, names: Names)
    requires TameLeads(s0, s, names) && Resumes(s, r, k, n, o) && Misled(s, k, n, x, o) && s.snaps[x].volume == v
    requires v < |s.vols| && s.vols[v].refcount != 1 && s.vols[v].owner.None?
    ensures CanPanicAt(s0, VRlFastBolt, names)
  {
    var s1 := TakeMisled(s0, s, r, k, n, x, o, names);
    var s2 := UseMisled(s0, s1, r, k, n, x, names);
    var s3 := LoseWay(s0, s2, r, x, v, names);
    UnlockStray(s0, s3, r, v, names);
  }

  // Nobody has the snapshot cached under k or the volume object o.
  predicate Idle(s: State, k: SnapName, o: nat) {
    && o < |s.vols| && s.vols[o].refcount <= 0 && s.vols[o].owner.None?
    && k in s.sHash && SnapAt(s, s.sHash[k]).life.Created? && SnapAt(s, s.sHash[k]).owner.None?
  }

  lemma GoneFacts(s0: State, s: State, k: SnapName, n: VolName, o: nat, names: Names)
    requires Inv(s0) && TameLeads(s0, s, names) && Gone(s, k, n, o)
    ensures Idle(s, k, o)
  {
    LeadsKeepsInv(s0, s, names);
    InvCachedSnap(s, k);
    assert !CachedVol(s, o);
    assert Cached(s, s.sHash[k]) && !InUse(s, s.sHash[k]);
  }

  lemma AskPanicsAtLookup(s0: State, s: State, k: SnapName, n: VolName, o: nat, names: Names)
    requires TameLeads(s0, s, names) && Gone(s, k, n, o) && names((n, k)) && n in s.appVols
    ensures CanPanicAt(s0, SLkIn, names)
  {
    var r, s1 := LookupMiss(s0, s, GetSnapshot(n, k), names);
    FinalPanic(s0, s1, r, n, k, |s.vols|, names);
  }

  // The volume is still on the appliance.
  lemma AskPanics(s0: State, s: State, k: SnapName, n: VolName, o: nat, names: Names)
    requires TameLeads(s0, s, names) && Gone(s, k, n, o) && Idle(s, k, o) && names((n, k)) && n in s.appVols
    ensures CanPanicTwice(s0, names)
  {
    AskPanicsAtLookup(s0, s, k, n, o, names);
    var q, s2 := LookupMiss(s0, s, CreateSnapshot(n, k), names);
    MisledPanics(s0, s2, q, k, n, s.sHash[k], |s.vols|, o, names);
  }

  // The volume is created anew, as object p.
  lemma RemakePanics(s0: State, s: State, k: SnapName, n: VolName, o: nat, names: Names)
    requires TameLeads(s0, s, names) && Gone(s, k, n, o) && Idle(s, k, o) && names((n, k)) && n !in s.appVols
    ensures CanPanicTwice(s0, names)
  {
    var h, s1 := CreateAnew(s0, s, n, names);
    RemadePanics(s0, s1, k, n, o, |s.vols|, names);
  }

  // The snapshot cached under k points at volume object o, while p is cached under the name of its source.
  predicate Displaced(s: State, k: SnapName, n: VolName, o: nat, p: nat) {
    && Quiet(s) && !s.panicked && Idle(s, k, o) && n in s.appVols
    && SnapAt(s, s.sHash[k]).volume == o && SnapAt(s, s.sHash[k]).source == n
    && n in s.vHash && s.vHash[n] == p && p != o && p < |s.vols| && s.vols[p] == Vol(n, Created, 0, None)
  }

  lemma RemadePanics(s0: State, s: State, k: SnapName, n: VolName, o: nat, p: nat, names: Names)
    requires TameLeads(s0, s, names) && names((n, k)) && Displaced(s, k, n, o, p)
    ensures CanPanicTwice(s0, names)
  {
    RemadePanicsAtLookup(s0, s, k, n, o, p, names);
    var q, s1 := LookupHit(s0, s, CreateSnapshot(n, k), p, names);
    MisledPanics(s0, s1, q, k, n, s.sHash[k], p, o, names);
  }

  lemma RemadePanicsAtLookup(s0: State, s: State, k: SnapName, n: VolName, o: nat, p: nat, names: Names)
    requires TameLeads(s0, s, names) && names((n, k)) && Displaced(s, k, n, o, p)
    ensures CanPanicAt(s0, SLkIn, names)
  {
    var r, s1 := LookupHit(s0, s, GetSnapshot(n, k), p, names);
    FinalPanic(s0, s1, r, n, k, p, names);
  }

  /** With a snapshot left pointing at a volume that is gone, a request that looks the snapshot up panics
      on the difference, and one that creates it anew panics when it unlocks the volume it never locked. */
  lemma GonePanics(s0: State, s: State, k: SnapName, n: VolName, o: nat, names: Names)
    requires Inv(s0) && TameLeads(s0, s, names) && Gone(s, k, n, o) && names((n, k))
    ensures CanPanicTwice(s0, names)
  {
    GoneFacts(s0, s, k, n, o, names);
    if n in s.appVols { AskPanics(s0, s, k, n, o, names); } else { RemakePanics(s0, s, k, n, o, names); }
  }

  /** From a state in which a request is about to release the deleted volume of a cached snapshot, a
      panic can be reached, whatever the other requests are doing. */
  lemma DyingPanics(s0: State, s: State, k: SnapName, n: VolName, o: nat, h: Req, names: Names)
    requires Inv(s0) && TameLeads(s0, s, names) && !s.panicked && Dying(s, k, n, o, h) && names((n, k))
    ensures CanPanic(s0, names) && (Quiet(s) ==> CanPanicTwice(s0, names))
  {
    var s1 := s;
    if !Quiet(s) {
      DyingLasts(k, n, o, h);
      s1 := Drain(s0, s, (t: State) => Dying(t, k, n, o, h), h, names);
    }
    if !s1.panicked {
      var s2 := LeaveCache(s0, s1, k, n, o, h, names);
      GonePanics(s0, s2, k, n, o, names);
      LookupPanicPanics(s0, names);
    }
  }

  // ---- A creation that fails for a cached volume ----

  lemma TameDoesNotLeadToPanic(s: State, names: Names)
    requires TameInv(s, names) && !s.panicked && Functional(names)
    ensures !CanPanic(s, names)
  {
    forall s' | TameLeads(s, s', names) ensures !s'.panicked {
      AgreeingLeads(s, s', names);
    }
  }

  // A tame step from a reachable state does no harm.
  lemma TameAnswerIsHarmless(s: State, r: Req, ans: Answer, names: Names)
    requires TameReachable(s, names) && Functional(names) && Ready(s, r) && TameAnswer(s, s.reqs[r], ans, names)
    ensures !CanPanic(Advance(s, r, ans), names)
  {
    NoPanic(s, names);
    TameAdvance(s, r, ans, names);
    TamePanic(s, r, ans, names);
    AgreedSources(s, r, names);
    TameDoesNotLeadToPanic(Advance(s, r, ans), names);
  }

  lemma AtFailedCreate(s: State, r: Req, ans: Answer, o: nat)
    requires r in s.reqs && s.reqs[r].pc.Create? && s.reqs[r].tgt == Mine(o) && s.reqs[r].which.Target?
    requires !ans.Reply? && o < |s.vols|
    ensures var s' := Advance(s, r, ans);
            && s'.reqs == s.reqs[r := s.reqs[r].(pc := VRlRLock, tgt := Spent(o))]
            && s'.vols == s.vols[o := s.vols[o].(life := Deleted)]
            && s'.vHash == s.vHash && s'.sHash == s.sHash && s'.snaps == s.snaps && s'.panicked == s.panicked
  {
  }

  lemma CreatingLocal(l: Local)
    requires LocalOk(l) && l.pc.Create?
    ensures l.which.Target? && l.stray.None? && !Inside(l)
  {
  }

  lemma FailedCreationDies(s: State, r: Req, ans: Answer, k: SnapName, n: VolName)
    requires Inv(s) && PointersInv(s) && Ready(s, r)
    requires s.reqs[r].pc.Create? && s.reqs[r].tgt.Mine? && !ans.Reply? && VolNameOf(s.reqs[r].op, Target) == n
    requires k in s.sHash && SnapAt(s, s.sHash[k]).source == n
    ensures Dying(Advance(s, r, ans), k, n, s.reqs[r].tgt.o, r) && !Advance(s, r, ans).panicked
  {
    InvLocal(s, r);
    InvSlot(s, r, Target);
    InvCachedSnap(s, k);
    assert PointsAtSource(s, k);
    CreationDies(s, r, ans, k, n);
  }

  lemma CreationDies(s: State, r: Req, ans: Answer, k: SnapName, n: VolName)
    requires r in s.reqs && LocalOk(s.reqs[r]) && SlotInv(s, r, s.reqs[r].tgt, n) && !s.panicked
    requires s.reqs[r].pc.Create? && s.reqs[r].tgt.Mine? && !ans.Reply?
    requires k in s.sHash && s.sHash[k] < |s.snaps| && s.snaps[s.sHash[k]].source == n && PointsAtSource(s, k)
    ensures Dying(Advance(s, r, ans), k, n, s.reqs[r].tgt.o, r) && !Advance(s, r, ans).panicked
  {
    CreatingLocal(s.reqs[r]);
    AtFailedCreate(s, r, ans, s.reqs[r].tgt.o);
  }

  lemma FailedCreationPanics(s: State, r: Req, ans: Answer, k: SnapName, names: Names)
    requires TameInv(s, names) && Ready(s, r)
    requires s.reqs[r].pc.Create? && s.reqs[r].tgt.Mine? && !ans.Reply?
    requires k in s.sHash && SnapAt(s, s.sHash[k]).source == VolNameOf(s.reqs[r].op, Target)
    ensures var s' := Advance(s, r, ans); CanPanic(s', names) && (Quiet(s) ==> CanPanicTwice(s', names))
  {
    var n, o := VolNameOf(s.reqs[r].op, Target), s.reqs[r].tgt.o;
    FailedCreationDies(s, r, ans, k, n);
    AdvanceKeepsInv(s, r, ans);
    InvCachedSnap(s, k);
    StaysQuiet(s, r, ans);
    LeadsRefl(Advance(s, r, ans), names);
    DyingPanics(Advance(s, r, ans), Advance(s, r, ans), k, n, o, r, names);
  }

  lemma StaysQuiet(s: State, r: Req, ans: Answer)
    requires r in s.reqs && s.reqs[r].pc.Create?
    ensures Quiet(s) ==> Quiet(Advance(s, r, ans))
  {
  }

  /** When a creation request for a cached, existing volume gets an answer other than success or 409, the
      driver can be made to panic afterwards, without any further fault, if and only if a snapshot of that
      volume is cached. If no request is inside a cache mutex, both panics can follow. */
  lemma FailedCreationPanicsExactly(s: State, r: Req, ans: Answer, names: Names)
    requires TameReachable(s, names) && Functional(names) && Ready(s, r)
    requires s.reqs[r].pc.Create? && s.reqs[r].tgt.Mine? && !ans.Reply?
    ensures var cached := !NoCachedSnapshots(s, VolNameOf(s.reqs[r].op, Target));
            && (CanPanic(Advance(s, r, ans), names) <==> cached)
            && (cached && Quiet(s) ==> CanPanicTwice(Advance(s, r, ans), names))
  {
    NoPanic(s, names);
    if NoCachedSnapshots(s, VolNameOf(s.reqs[r].op, Target)) {
      TameAnswerIsHarmless(s, r, ans, names);
    } else {
      var k :| k in s.sHash && SnapAt(s, s.sHash[k]).source == VolNameOf(s.reqs[r].op, Target);
      FailedCreationPanics(s, r, ans, k, names);
    }
  }

  // ---- A deletion of a LUN decided on a list that was not understood ----

  lemma AtUnreadList(s: State, r: Req, o: nat)
    requires r in s.reqs && Unread(s.reqs[r], Lost) && s.reqs[r].which.Source? && CurName(s.reqs[r]) in s.appVols
    ensures Advance(s, r, Lost) == Put(s, r, s.reqs[r].(pc := DelGo))
  {
  }

  lemma ListingLocal(l: Local)
    requires LocalOk(l) && l.pc.DelList?
    ensures l.which.Source? && l.src.Mine? && l.stray.None? && !Inside(l)
  {
  }

  lemma BlindDeletionDies(s: State, r: Req, k: SnapName, n: VolName)
    requires Inv(s) && PointersInv(s) && Ready(s, r) && s.reqs[r].pc.DelGo? && VolNameOf(s.reqs[r].op, Source) == n
    requires s.reqs[r].which.Source? && s.reqs[r].src.Mine? && s.reqs[r].stray.None? && !Inside(s.reqs[r])
    requires k in s.sHash && SnapAt(s, s.sHash[k]).source == n
    ensures var o := s.reqs[r].src.o;
            && o < |s.vols|
            && var s' := Put(s, r, s.reqs[r].(pc := VRlRLock, src := Spent(o))).(
                           vols := s.vols[o := s.vols[o].(life := Deleted)], appVols := HashDelete(s.appVols, n));
            Dying(s', k, n, o, r)
  {
    InvSlot(s, r, Source);
    InvCachedSnap(s, k);
    assert PointsAtSource(s, k);
  }

  lemma BlindDeletionPanics(s: State, r: Req, k: SnapName, names: Names)
    requires TameInv(s, names) && Ready(s, r) && Unread(s.reqs[r], Lost)
    requires VolNameOf(s.reqs[r].op, Source) in s.appVols
    requires k in s.sHash && SnapAt(s, s.sHash[k]).source == VolNameOf(s.reqs[r].op, Source)
    ensures CanPanic(Advance(s, r, Lost), names)
    ensures Quiet(s) ==> CanPanicTwice(Advance(s, r, Lost), names)
  {
    AdvanceKeepsInv(s, r, Lost);
    InvLocal(s, r);
    UnreadListed(s, r);
    assert names((SnapAt(s, s.sHash[k]).source, k)) by { InvCachedSnap(s, k); }
    BlindPanics(Advance(s, r, Lost), r, k, VolNameOf(s.reqs[r].op, Source), s.reqs[r].src.o, names);
  }

  lemma UnreadListed(s: State, r: Req)
    requires PointersInv(s) && Ready(s, r) && LocalOk(s.reqs[r])
    requires Unread(s.reqs[r], Lost) && VolNameOf(s.reqs[r].op, Source) in s.appVols
    ensures var s1 := Advance(s, r, Lost);
            && PointersInv(s1) && Ready(s1, r) && s1 == Put(s, r, s.reqs[r].(pc := DelGo))
            && s.reqs[r].which.Source? && s.reqs[r].src.Mine? && s.reqs[r].stray.None? && !Inside(s.reqs[r])
  {
    ListingLocal(s.reqs[r]);
    AtUnreadList(s, r, s.reqs[r].src.o);
    PutPointers(s, r, s.reqs[r].(pc := DelGo));
  }

  lemma PutPointers(s: State, r: Req, l: Local)
    requires PointersInv(s)
    ensures PointersInv(Put(s, r, l))
  {
    PointersStay(s, Put(s, r, l));
  }

  lemma BlindPanics(s: State, r: Req, k: SnapName, n: VolName, o: nat, names: Names)
    requires Inv(s) && PointersInv(s) && Ready(s, r) && s.reqs[r].pc.DelGo? && VolNameOf(s.reqs[r].op, Source) == n
    requires s.reqs[r].which.Source? && s.reqs[r].src == Mine(o) && s.reqs[r].stray.None? && !Inside(s.reqs[r])
    requires k in s.sHash && SnapAt(s, s.sHash[k]).source == n && names((n, k))
    ensures CanPanic(s, names) && (Quiet(s) ==> CanPanicTwice(s, names))
  {
    LeadsRefl(s, names);
    BlindDeletionDies(s, r, k, n);
    var s' := Put(s, r, s.reqs[r].(pc := VRlRLock, src := Spent(o))).(
      vols := s.vols[o := s.vols[o].(life := Deleted)], appVols := HashDelete(s.appVols, n));
    AtDelGo(s, s, r, o, s', names);
    DyingPanics(s, s', k, n, o, r, names);
  }

  /** When no entry of the list of the snapshots of a LUN to be deleted is understood, the driver can be
      made to panic afterwards, without any further fault, if and only if the LUN exists and a snapshot of
      it is cached. */
  lemma BlindDeletionPanicsExactly(s: State, r: Req, names: Names)
    requires TameReachable(s, names) && Functional(names) && Ready(s, r) && Unread(s.reqs[r], Lost)
    ensures var name := VolNameOf(s.reqs[r].op, Source);
            && var panics := name in s.appVols && !NoCachedSnapshots(s, name);
            && (CanPanic(Advance(s, r, Lost), names) <==> panics)
            && (panics && Quiet(s) ==> CanPanicTwice(Advance(s, r, Lost), names))
  {
    var name := VolNameOf(s.reqs[r].op, Source);
    NoPanic(s, names);
    if name in s.appVols && !NoCachedSnapshots(s, name) {
      var k :| k in s.sHash && SnapAt(s, s.sHash[k]).source == name;
      BlindDeletionPanics(s, r, k, names);
    } else {
      TameAnswerIsHarmless(s, r, Lost, names);
    }
  }

  // ---- A snapshot that is gone while the driver goes on to cache it ----

  // The snapshots of volume n on the appliance may be named, and have no clones.
  predicate Clearable(s: State, n: VolName, names: Names) {
    forall p <- s.appSnaps :: p.0 == n ==> names(p) && NoClones(s, p)
  }

  // Every cached snapshot of volume n points at object o.
  predicate AllPoint(s: State, n: VolName, o: nat) {
    forall j <- s.sHash :: SnapAt(s, s.sHash[j]).source == n ==> SnapAt(s, s.sHash[j]).volume == o
  }

  /** Request r is about to release the snapshot cached under k, which is gone from the appliance. */
  ghost predicate Bereft(s: State, k: SnapName, n: VolName, o: nat, r: Req, names: Names) {
    && k in s.sHash && s.sHash[k] < |s.snaps| && s.snaps[s.sHash[k]].volume == o
    && s.snaps[s.sHash[k]].source == n && s.snaps[s.sHash[k]].life.Created? && s.snaps[s.sHash[k]].owner == Some(r)
    && CachedVol(s, o) && s.vols[o].name == n && s.vols[o].life.Created? && s.vols[o].owner == Some(r)
    && (n, k) !in s.appSnaps && Clearable(s, n, names) && AllPoint(s, n, o)
    && r in s.reqs && s.reqs[r].pc.SRlRLock? && s.reqs[r].stray.None? && !Inside(s.reqs[r])
    && s.reqs[r].which.Source? && s.reqs[r].src == Mine(o) && s.reqs[r].snap == Mine(s.sHash[k])
  }

  lemma InsideOffAppliance(s: State, q: Req, l: Local)
    requires LocalOk(l) && Inside(l)
    ensures !OnAppliance(Act(s, q, l, Reply).eff)
  {
    InsidePoints(l);
    if InLookupVolume(l.pc) || InNewVolume(l.pc) || InReleaseVolume(l.pc) { VolumesOffAppliance(s, q, l); }
    else { SnapshotsOffAppliance(s, q, l); }
  }

  lemma VolumesOffAppliance(s: State, q: Req, l: Local)
    requires (InLookupVolume(l.pc) && !l.pc.Details?) || InNewVolume(l.pc) || InReleaseVolume(l.pc)
    ensures !OnAppliance(Act(s, q, l, Reply).eff)
  {
  }

  lemma SnapshotsOffAppliance(s: State, q: Req, l: Local)
    requires (InLookupSnapshot(l.pc) && !l.pc.SDetails?) || InNewSnapshot(l.pc) || InReleaseSnapshot(l.pc)
    ensures !OnAppliance(Act(s, q, l, Reply).eff)
  {
  }

  // The owner of a snapshot is the only request with that snapshot in a slot.
  lemma OnlyUser(s: State, r: Req, q: Req)
    requires SlotsInv(s) && SnapSlotsInv(s) && r in s.reqs && q in s.reqs && q != r
    requires !s.reqs[r].snap.Empty?
    ensures s.reqs[q].snap.Empty? || s.reqs[q].snap.o != s.reqs[r].snap.o
  {
    assert SnapSlotInv(s, r, s.reqs[r]) && SnapSlotInv(s, q, s.reqs[q]);
    if !s.reqs[q].snap.Empty? && s.reqs[q].snap.o == s.reqs[r].snap.o { SameSource(s, r, q); }
  }

  lemma BereftStep(s: State, k: SnapName, n: VolName, o: nat, r: Req, q: Req, names: Names)
    requires Inv(s) && Bereft(s, k, n, o, r, names) && q != r && Ready(s, q) && Inside(s.reqs[q])
    ensures Bereft(Advance(s, q, Reply), k, n, o, r, names)
  {
    var m := Act(s, q, s.reqs[q], Reply);
    MoveOk(s, q, Reply);
    InsideOffAppliance(s, q, s.reqs[q]);
    ActGuarded(s, q, Reply);
    BereftMove(s, k, n, o, r, q, m, names);
  }

  lemma BereftMove(s: State, k: SnapName, n: VolName, o: nat, r: Req, q: Req, m: Move, names: Names)
    requires SlotsInv(s) && SnapSlotsInv(s) && SnapCacheInv(s) && RefInv(s)
    requires Bereft(s, k, n, o, r, names) && q in s.reqs && q != r
    requires VolContract(s, s.reqs[q], m) && SnapContract(s, s.reqs[q], m) && Guarded(s, m.eff) && !OnAppliance(m.eff)
    ensures Bereft(Perform(s, q, m), k, n, o, r, names)
  {
    OutsideApp(s, q, m.eff);
    OnlyUser(s, r, q);
    assert SnapSlotInv(s, q, s.reqs[q]);
    EntryKept(s, q, m, k);
    Positive(s, r, Source);
    CachedKept(s, q, m, o);
    OthersKeepVolume(s, q, m, r, o);
    OthersKeepSnapshot(s, q, m, r, s.sHash[k]);
    assert SlotInv(s, r, SlotOf(s.reqs[r], Source), VolNameOf(s.reqs[r].op, Source));
    AllPointStays(s, q, m, r, o);
  }

  // Nobody else caches a snapshot of the volume that request r owns.
  lemma AllPointStays(s: State, q: Req, m: Move, r: Req, o: nat)
    requires q in s.reqs && r in s.reqs && q != r && SlotsInv(s) && SnapCacheInv(s) && SnapContract(s, s.reqs[q], m)
    requires s.reqs[r].src.Mine? && AllPoint(s, VolNameOf(s.reqs[r].op, Source), o)
    ensures AllPoint(Perform(s, q, m), VolNameOf(s.reqs[r].op, Source), o)
  {
    var s' := Perform(s, q, m);
    if m.eff.SAdd? { OwnerAddsAll(s, q, m, r, o); }
    else {
      forall j | j in s'.sHash ensures EntryStays(s, s', j) {
        if SnapEffect(m.eff) { SnapWorkKeepsEntry(s, q, m.eff, j); }
        else if !m.eff.AppSnapAct? { OutsideSnapCache(s, q, m.eff); }
      }
    }
  }

  lemma OwnerAddsAll(s: State, q: Req, m: Move, r: Req, o: nat)
    requires q in s.reqs && r in s.reqs && q != r && SlotsInv(s) && SnapCacheInv(s)
    requires SnapContract(s, s.reqs[q], m) && m.eff.SAdd?
    requires s.reqs[r].src.Mine? && AllPoint(s, VolNameOf(s.reqs[r].op, Source), o)
    ensures AllPoint(Perform(s, q, m), VolNameOf(s.reqs[r].op, Source), o)
  {
    if m.eff.source == VolNameOf(s.reqs[r].op, Source) { SameSource(s, q, r); }
  }

  // Nobody else touches what r owns, except to count references.
  lemma OthersKeepVolume(s: State, q: Req, m: Move, r: Req, o: nat)
    requires q in s.reqs && q != r && SlotsInv(s) && VolContract(s, s.reqs[q], m)
    requires Guarded(s, m.eff) && !OnAppliance(m.eff) && o < |s.vols| && s.vols[o].owner == Some(r)
    ensures var vols := Perform(s, q, m).vols; o < |vols| && vols[o].(refcount := s.vols[o].refcount) == s.vols[o]
  {
    assert SlotInv(s, q, Cur(s.reqs[q]), CurName(s.reqs[q]));
  }

  lemma OthersKeepSnapshot(s: State, q: Req, m: Move, r: Req, x: nat)
    requires q in s.reqs && q != r && SnapSlotInv(s, q, s.reqs[q]) && SnapContract(s, s.reqs[q], m)
    requires Guarded(s, m.eff) && !OnAppliance(m.eff) && x < |s.snaps| && s.snaps[x].owner == Some(r)
    ensures var snaps := Perform(s, q, m).snaps; x < |snaps| && snaps[x].(refcount := s.snaps[x].refcount) == s.snaps[x]
  {
    if !SnapEffect(m.eff) { OutsideSnapCache(s, q, m.eff); }
  }

  lemma BereftLasts(k: SnapName, n: VolName, o: nat, r: Req, names: Names)
    ensures Lasting((t: State) => Bereft(t, k, n, o, r, names), r)
  {
    var keep := (t: State) => Bereft(t, k, n, o, r, names);
    forall s, q | Inv(s) && keep(s) && q != r && Ready(s, q) && Inside(s.reqs[q]) ensures Survives(s, keep, q) {
      BereftStep(s, k, n, o, r, q, names);
    }
  }

  lemma BereftPanics(s: State, k: SnapName, n: VolName, o: nat, r: Req, names: Names)
    requires Inv(s) && SourcesKnown(s, names) && Functional(names) && !s.panicked && Bereft(s, k, n, o, r, names)
    requires names((n, k))
    ensures CanPanic(s, names) && (Quiet(s) ==> CanPanicTwice(s, names))
  {
    var s1 := s;
    LeadsRefl(s, names);
    if !Quiet(s) {
      BereftLasts(k, n, o, r, names);
      s1 := Drain(s, s, (t: State) => Bereft(t, k, n, o, r, names), r, names);
    }
    if !s1.panicked {
      LoseVolume(s, s1, k, n, o, r, names);
      LookupPanicPanics(s, names);
    }
  }

  // The snapshot cached under k is gone; it and its volume, the object o, are idle.
  ghost predicate Bereaved(s: State, k: SnapName, n: VolName, o: nat, names: Names) {
    && Quiet(s) && !s.panicked
    && k in s.sHash && s.sHash[k] < |s.snaps| && s.snaps[s.sHash[k]].volume == o
    && s.snaps[s.sHash[k]].source == n && s.snaps[s.sHash[k]].life.Created?
    && n in s.vHash && s.vHash[n] == o && o < |s.vols| && s.vols[o].name == n
    && s.vols[o].life.Created? && s.vols[o].owner.None?
    && (n, k) !in s.appSnaps && Clearable(s, n, names) && AllPoint(s, n, o)
  }

  lemma LeaveBereft(s0: State, s: State, k: SnapName, n: VolName, o: nat, r: Req, names: Names) returns (s': State)
    requires TameLeads(s0, s, names) && Quiet(s) && !s.panicked && Bereft(s, k, n, o, r, names)
    ensures TameLeads(s0, s', names) && Bereaved(s', k, n, o, names)
  {
    var s1 := ReleaseSnap(s0, s, r, s.sHash[k], names);
    s' := FastRelease(s0, s1, r, o, names);
  }

  // What an idle snapshot of volume n looks like.
  lemma KnownSnapshot(s: State, k: SnapName, n: VolName, o: nat, j: SnapName, names: Names)
    requires Inv(s) && SourcesKnown(s, names) && Functional(names) && Bereaved(s, k, n, o, names)
    requires names((n, j)) && j in s.sHash
    ensures s.sHash[j] < |s.snaps| && s.snaps[s.sHash[j]] == Snap(j, o, n, Created, 0, None)
  {
    var x := s.sHash[j];
    InvCachedSnap(s, j);
    assert names((s.snaps[x].source, s.snaps[x].name));
    assert Cached(s, x) && !InUse(s, x);
  }

  /** Another snapshot of the volume is deleted. */
  lemma ClearOne(s0: State, s: State, k: SnapName, n: VolName, o: nat, j: SnapName, names: Names) returns (s': State)
    requires Inv(s0) && SourcesKnown(s0, names) && Functional(names) && TameLeads(s0, s, names)
    requires Bereaved(s, k, n, o, names) && (n, j) in s.appSnaps
    ensures TameLeads(s0, s', names) && Bereaved(s', k, n, o, names)
    ensures s'.appVols == s.appVols && s'.appSnaps == s.appSnaps - {(n, j)}
  {
    LeadsKeepsInv(s0, s, names);
    LeadsKeepsSources(s0, s, names);
    if j in s.sHash {
      KnownSnapshot(s, k, n, o, j, names);
      var r, s1 := DeleteKnown(s0, s, j, n, s.sHash[j], o, names);
      KnownCleared(s, s1, k, n, o, j, names);
      s' := s1;
    } else {
      var r, s1 := DeleteUnknown(s0, s, j, n, o, names);
      UnknownCleared(s, s1, k, n, o, j, names);
      s' := s1;
    }
  }

  lemma KnownCleared(s: State, s': State, k: SnapName, n: VolName, o: nat, j: SnapName, names: Names)
    requires Bereaved(s, k, n, o, names) && j != k && SnapCacheInv(s)
    requires j in s.sHash && s.sHash[j] < |s.snaps|
    requires s' == s.(reqs := s'.reqs, snaps := s.snaps[s.sHash[j] := Snap(j, o, n, Deleted, 0, None)],
                      sHash := HashDelete(s.sHash, j), appSnaps := s.appSnaps - {(n, j)})
    ensures Bereaved(s', k, n, o, names)
  {
    assert s.snaps[s.sHash[k]].name == k && s.snaps[s.sHash[j]].name == j;
  }

  lemma UnknownCleared(s: State, s': State, k: SnapName, n: VolName, o: nat, j: SnapName, names: Names)
    requires Bereaved(s, k, n, o, names) && SnapCacheInv(s)
    requires s' == s.(reqs := s'.reqs, snaps := s.snaps + [Snap(j, o, n, Deleted, 0, None)],
                      appSnaps := s.appSnaps - {(n, j)})
    ensures Bereaved(s', k, n, o, names)
  {
  }

  function SnapshotsOf(s: State, n: VolName): set<SnapKey> { set p | p in s.appSnaps && p.0 == n }

  /** All snapshots of the volume are deleted, one after the other. */
  lemma {:induction false} ClearAll(s0: State, s: State, k: SnapName, n: VolName, o: nat, names: Names)
    returns (s': State)
    requires Inv(s0) && SourcesKnown(s0, names) && Functional(names) && TameLeads(s0, s, names)
    requires Bereaved(s, k, n, o, names)
    ensures TameLeads(s0, s', names) && Bereaved(s', k, n, o, names) && NoSnapshots(s', n)
    decreases |SnapshotsOf(s, n)|
  {
    s' := s;
    if p :| p in SnapshotsOf(s, n) {
      var s1 := ClearOne(s0, s, k, n, o, p.1, names);
      assert SnapshotsOf(s1, n) == SnapshotsOf(s, n) - {p};
      s' := ClearAll(s0, s1, k, n, o, names);
    } else {
      assert forall p <- s.appSnaps :: p.0 == n ==> p in SnapshotsOf(s, n);
    }
  }

  lemma LoseVolume(s0: State, s: State, k: SnapName, n: VolName, o: nat, r: Req, names: Names)
    requires Inv(s0) && SourcesKnown(s0, names) && Functional(names) && TameLeads(s0, s, names)
    requires Quiet(s) && !s.panicked && Bereft(s, k, n, o, r, names) && names((n, k))
    ensures CanPanicTwice(s0, names)
  {
    var s1 := LeaveBereft(s0, s, k, n, o, r, names);
    var s2 := ClearAll(s0, s1, k, n, o, names);
    if n !in s2.appVols {
      var q, s3 := Recreate(s0, s2, n, o, names);
      LastPanics(s0, s3, k, n, o, names);
    } else {
      LastPanics(s0, s2, k, n, o, names);
    }
  }

  // The volume is there, has no snapshots, and can be deleted.
  lemma LastPanics(s0: State, s: State, k: SnapName, n: VolName, o: nat, names: Names)
    requires Inv(s0) && TameLeads(s0, s, names) && names((n, k))
    requires Bereaved(s, k, n, o, names) && n in s.appVols && NoSnapshots(s, n)
    ensures CanPanicTwice(s0, names)
  {
    var q, s1 := DeleteCached(s0, s, n, o, names);
    var s2 := LeaveCache(s0, s1, k, n, o, q, names);
    GonePanics(s0, s2, k, n, o, names);
  }

  // ---- A lost deletion of a snapshot, and a refresh that comes too late ----

  /** Requests may name all other snapshots of the volume. */
  predicate OthersNamed(s: State, key: SnapKey, names: Names) {
    forall p <- s.appSnaps :: p.0 == key.0 && p != key ==> names(p)
  }

  predicate OthersUncloned(s: State, key: SnapKey) {
    forall p <- s.appSnaps :: p.0 == key.0 && p != key ==> NoClones(s, p)
  }

  lemma OthersNamedExactly(s: State, key: SnapKey, names: Names)
    requires names(key)
    ensures OthersNamed(s, key, names) <==> !Shielded(s, key.0, names)
  {
  }

  lemma AtLostDeletion(s: State, r: Req)
    requires r in s.reqs && s.reqs[r].pc.SDelGo?
    ensures Advance(s, r, Lost) == Put(s, r, s.reqs[r].(pc := SRlRLock)).(
              appSnaps := s.appSnaps - {KeyOf(s.reqs[r].op)})
  {
  }

  lemma AtLateRefresh(s: State, r: Req, x: nat, ans: Answer)
    requires r in s.reqs && s.reqs[r].pc.SRefresh? && !ans.Lost? && ObjOf(s.reqs[r].snap) == x && x < |s.snaps|
    ensures Advance(s, r, ans) == Put(s, r, s.reqs[r].(pc := SRlRLock, snap := Mine(x))).(
              snaps := s.snaps[x := s.snaps[x].(life := Created)])
  {
  }

  lemma DriftingLocal(l: Local)
    requires LocalOk(l) && (l.pc.SDelGo? || l.pc.SRefresh?)
    ensures l.which.Source? && l.stray.None? && !Inside(l) && l.src.Mine? && InHand(l.snap) && NeedsSnap(l.op)
    ensures l.pc.SDelGo? ==> l.snap.Mine?
  {
  }

  // Request r is about to lose track of snapshot k of volume n, which are the objects x and o.
  ghost predicate Drifting(s: State, r: Req, k: SnapName, n: VolName, x: nat, o: nat, names: Names) {
    && !s.panicked && r in s.reqs && s.reqs[r].which.Source? && s.reqs[r].stray.None? && !Inside(s.reqs[r])
    && s.reqs[r].src == Mine(o) && !s.reqs[r].snap.Empty? && s.reqs[r].snap.o == x
    && NeedsSnap(s.reqs[r].op) && KeyOf(s.reqs[r].op) == (n, k) && names((n, k))
    && k in s.sHash && s.sHash[k] == x && x < |s.snaps|
    && s.snaps[x].volume == o && s.snaps[x].source == n && s.snaps[x].owner == Some(r)
    && (s.reqs[r].pc.SDelGo? ==> s.reqs[r].snap.Mine? && s.snaps[x].life.Created?)
    && CachedVol(s, o) && s.vols[o].name == n && s.vols[o].life.Created? && s.vols[o].owner == Some(r)
    && AllPoint(s, n, o)
  }

  lemma DriftingFacts(s: State, r: Req, names: Names)
    requires TameInv(s, names) && !s.panicked && r in s.reqs && (s.reqs[r].pc.SDelGo? || s.reqs[r].pc.SRefresh?)
    ensures var l := s.reqs[r];
            Drifting(s, r, SnapNameOf(l.op), VolNameOf(l.op, Source), ObjOf(l.snap), ObjOf(l.src), names)
  {
    var l := s.reqs[r];
    InvLocal(s, r);
    DriftingLocal(l);
    InvSlot(s, r, Source);
    InvSnapSlot(s, r);
    assert PointsAtSource(s, SnapNameOf(l.op));
    PointersAgree(s, VolNameOf(l.op, Source), l.src.o);
  }

  lemma PointersAgree(s: State, n: VolName, o: nat)
    requires PointersInv(s) && n in s.vHash && s.vHash[n] == o
    ensures AllPoint(s, n, o)
  {
    forall j | j in s.sHash && SnapAt(s, s.sHash[j]).source == n ensures SnapAt(s, s.sHash[j]).volume == o {
      assert PointsAtSource(s, j);
    }
  }

  lemma DriftBereaves(s: State, r: Req, k: SnapName, n: VolName, x: nat, o: nat, ans: Answer, names: Names)
    requires Drifting(s, r, k, n, x, o, names) && DriftsApart(s, s.reqs[r], ans)
    requires OthersNamed(s, (n, k), names) && OthersUncloned(s, (n, k))
    ensures var s' := Advance(s, r, ans);
            && Bereft(s', k, n, o, r, names) && !s'.panicked && s'.reqs[r].op == s.reqs[r].op
            && s'.vReaders == s.vReaders && s'.vWriter == s.vWriter
            && s'.sReaders == s.sReaders && s'.sWriter == s.sWriter
  {
    if s.reqs[r].pc.SDelGo? { AtLostDeletion(s, r); } else { AtLateRefresh(s, r, x, ans); }
  }

  lemma DriftPanics(s: State, r: Req, ans: Answer, names: Names)
    requires TameInv(s, names) && Functional(names) && Ready(s, r) && DriftsApart(s, s.reqs[r], ans)
    requires OthersNamed(s, KeyOf(s.reqs[r].op), names) && OthersUncloned(s, KeyOf(s.reqs[r].op))
    ensures var s' := Advance(s, r, ans); CanPanic(s', names) && (Quiet(s) ==> CanPanicTwice(s', names))
  {
    var l := s.reqs[r];
    var k, n, x, o := SnapNameOf(l.op), VolNameOf(l.op, Source), ObjOf(l.snap), ObjOf(l.src);
    DriftingFacts(s, r, names);
    DriftBereaves(s, r, k, n, x, o, ans, names);
    AdvanceKeepsInv(s, r, ans);
    MoveOk(s, r, ans);
    StepSources(s, r, Act(s, r, l, ans), names);
    BereftPanics(Advance(s, r, ans), k, n, o, r, names);
  }

  /** Both calls after which the driver may go on to cache a snapshot that is gone: the one that deletes a
      snapshot, and the one that takes up a snapshot from a list fetched earlier. If no other snapshot of
      the volume has a clone, the driver can be made to panic afterwards, without any further fault, if and
      only if the driver does lose track of the snapshot and requests may name all other snapshots of the
      volume. If no request is inside a cache mutex, both panics can follow. */
  lemma DriftPanicsExactly(s: State, r: Req, ans: Answer, names: Names)
    requires TameReachable(s, names) && Functional(names) && Ready(s, r)
    requires s.reqs[r].pc.SDelGo? || s.reqs[r].pc.SRefresh?
    ensures var s', key := Advance(s, r, ans), KeyOf(s.reqs[r].op);
            var drifts := DriftsApart(s, s.reqs[r], ans) && OthersNamed(s, key, names);
            && (CanPanic(s', names) ==> drifts)
            && (OthersUncloned(s, key) && drifts ==> CanPanic(s', names) && (Quiet(s) ==> CanPanicTwice(s', names)))
  {
    NoPanic(s, names);
    DriftingFacts(s, r, names);
    OthersNamedExactly(s, KeyOf(s.reqs[r].op), names);
    if !DriftsApart(s, s.reqs[r], ans) || !OthersNamed(s, KeyOf(s.reqs[r].op), names) {
      TameAnswerIsHarmless(s, r, ans, names);
    } else if OthersUncloned(s, KeyOf(s.reqs[r].op)) {
      DriftPanics(s, r, ans, names);
    }
  }

  /** The deletion of a snapshot: a panic can follow if and only if it takes effect, its answer is lost, and
      requests may name all other snapshots of the volume; provided that none of these has a clone. */
  lemma LostDeletionPanicsExactly(s: State, r: Req, ans: Answer, names: Names)
    requires TameReachable(s, names) && Functional(names) && Ready(s, r) && s.reqs[r].pc.SDelGo?
    requires OthersUncloned(s, KeyOf(s.reqs[r].op))
    ensures CanPanic(Advance(s, r, ans), names) <==> ans.Lost? && OthersNamed(s, KeyOf(s.reqs[r].op), names)
  {
    DriftPanicsExactly(s, r, ans, names);
  }

  /** A refresh that takes up a snapshot: a panic can follow if and only if the snapshot was deleted since
      the list was fetched, its entry in the list is understood, and requests may name all other snapshots of
      the volume; provided that none of these has a clone. */
  lemma LateRefreshPanicsExactly(s: State, r: Req, ans: Answer, names: Names)
    requires TameReachable(s, names) && Functional(names) && Ready(s, r) && s.reqs[r].pc.SRefresh?
    requires OthersUncloned(s, KeyOf(s.reqs[r].op))
    ensures var key := KeyOf(s.reqs[r].op);
            CanPanic(Advance(s, r, ans), names) <==>
              key !in s.appSnaps && !ans.Lost? && OthersNamed(s, key, names)
  {
    DriftPanicsExactly(s, r, ans, names);
  }
}
