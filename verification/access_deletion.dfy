/** Continuations of a run in which a request deletes a snapshot by itself while nobody is inside a mutex,
    or creates a volume that is still cached. */
module AccessDeletion {
  import opened Common
  import opened AccessModel
  import opened AccessBeliefs
  import opened AccessDrain
  import opened AccessSolo

  // ---- lookupSnapshot and newSnapshot, step by step ----

  lemma AtSLkRLock(s0: State, s: State, r: Req, s': State, names: Names)
    requires TameLeads(s0, s, names) && !s.panicked
    requires r in s.reqs && s.reqs[r].pc.SLkRLock? && s.sWriter.None?
    requires s' == Put(s, r, s.reqs[r].(pc := SLkIn, sm := Reads)).(sReaders := s.sReaders + {r})
    ensures TameLeads(s0, s', names)
  {
    Tick(s0, s, r, s', names);
  }

  lemma AtSLkInHit(s0: State, s: State, r: Req, x: nat, s': State, names: Names)
    requires TameLeads(s0, s, names) && !s.panicked
    requires r in s.reqs && s.reqs[r].pc.SLkIn? && SnapNameOf(s.reqs[r].op) in s.sHash
    requires s.sHash[SnapNameOf(s.reqs[r].op)] == x && x < |s.snaps| && s.snaps[x].volume == ObjOf(s.reqs[r].src)
    requires s' == Put(s, r, s.reqs[r].(pc := SLkHit, snap := Held(x))).(
              snaps := s.snaps[x := s.snaps[x].(refcount := s.snaps[x].refcount + 1)])
    ensures TameLeads(s0, s', names)
  {
    Tick(s0, s, r, s', names);
  }

  lemma AtSLkHit(s0: State, s: State, r: Req, s': State, names: Names)
    requires TameLeads(s0, s, names) && !s.panicked && r in s.reqs && s.reqs[r].pc.SLkHit?
    requires s' == Put(s, r, s.reqs[r].(pc := SBolt, sm := Free)).(sReaders := s.sReaders - {r})
    ensures TameLeads(s0, s', names)
  {
    Tick(s0, s, r, s', names);
  }

  lemma AtSDelInfo(s0: State, s: State, r: Req, s': State, names: Names)
    requires TameLeads(s0, s, names) && !s.panicked && r in s.reqs && s.reqs[r].pc.SDelInfo?
    requires KeyOf(s.reqs[r].op) in s.appSnaps && NoClones(s, KeyOf(s.reqs[r].op))
    requires s' == Put(s, r, s.reqs[r].(pc := SDelGo))
    ensures TameLeads(s0, s', names)
  {
    Tick(s0, s, r, s', names);
  }

  lemma AtSLkInMiss(s0: State, s: State, r: Req, s': State, names: Names)
    requires TameLeads(s0, s, names) && !s.panicked
    requires r in s.reqs && s.reqs[r].pc.SLkIn? && SnapNameOf(s.reqs[r].op) !in s.sHash
    requires s' == Put(s, r, s.reqs[r].(pc := SLkMiss))
    ensures TameLeads(s0, s', names)
  {
    Tick(s0, s, r, s', names);
  }

  lemma AtSLkMiss(s0: State, s: State, r: Req, s': State, names: Names)
    requires TameLeads(s0, s, names) && !s.panicked && r in s.reqs && s.reqs[r].pc.SLkMiss?
    requires s' == Put(s, r, s.reqs[r].(pc := VRlRLock, sm := Free, pass := Missed)).(sReaders := s.sReaders - {r})
    ensures TameLeads(s0, s', names)
  {
    Tick(s0, s, r, s', names);
  }

  lemma AtSBoltFresh(s0: State, s: State, r: Req, x: nat, s': State, names: Names)
    requires TameLeads(s0, s, names) && !s.panicked
    requires r in s.reqs && s.reqs[r].pc.SBoltFresh? && s.reqs[r].snap == Placed(x)
    requires x < |s.snaps| && s.snaps[x].owner.None?
    requires s' == Put(s, r, s.reqs[r].(pc := AfterFreshSnap(s.reqs[r].op), snap := Fresh(x))).(
              snaps := s.snaps[x := s.snaps[x].(owner := Some(r))])
    ensures TameLeads(s0, s', names)
  {
    Tick(s0, s, r, s', names);
  }

  lemma AtSDetails(s0: State, s: State, r: Req, x: nat, s': State, names: Names)
    requires TameLeads(s0, s, names) && !s.panicked
    requires r in s.reqs && s.reqs[r].pc.SDetails? && s.reqs[r].snap == Fresh(x) && KeyOf(s.reqs[r].op) in s.appSnaps
    requires x < |s.snaps|
    requires s' == Put(s, r, s.reqs[r].(pc := AfterSnap(s.reqs[r].op), snap := Mine(x))).(
              snaps := s.snaps[x := s.snaps[x].(life := Created)])
    ensures TameLeads(s0, s', names)
  {
    Tick(s0, s, r, s', names);
  }

  // ---- The deletion and the removal from the cache, step by step ----

  lemma AtSDelGo(s0: State, s: State, r: Req, x: nat, s': State, names: Names)
    requires TameLeads(s0, s, names) && !s.panicked
    requires r in s.reqs && s.reqs[r].pc.SDelGo? && s.reqs[r].snap == Mine(x) && x < |s.snaps|
    requires s' == Put(s, r, s.reqs[r].(pc := SRlRLock, snap := Spent(x))).(
              snaps := s.snaps[x := s.snaps[x].(life := Deleted)], appSnaps := s.appSnaps - {KeyOf(s.reqs[r].op)})
    ensures TameLeads(s0, s', names)
  {
    Tick(s0, s, r, s', names);
  }

  lemma AtSRlInLast(s0: State, s: State, r: Req, x: nat, s': State, names: Names)
    requires TameLeads(s0, s, names) && !s.panicked
    requires r in s.reqs && s.reqs[r].pc.SRlIn? && s.reqs[r].snap == Spent(x)
    requires x < |s.snaps| && s.snaps[x].refcount == 1 && !s.snaps[x].life.Created?
    requires s' == Put(s, r, s.reqs[r].(pc := SRlSlow, snap := Closing(x))).(
              snaps := s.snaps[x := s.snaps[x].(refcount := 0)])
    ensures TameLeads(s0, s', names)
  {
    Tick(s0, s, r, s', names);
  }

  lemma AtSRlSlow(s0: State, s: State, r: Req, s': State, names: Names)
    requires TameLeads(s0, s, names) && !s.panicked && r in s.reqs && s.reqs[r].pc.SRlSlow?
    requires s' == Put(s, r, s.reqs[r].(pc := SRlSlowLock, sm := Free)).(sReaders := s.sReaders - {r})
    ensures TameLeads(s0, s', names)
  {
    Tick(s0, s, r, s', names);
  }

  lemma AtSRlSlowLock(s0: State, s: State, r: Req, s': State, names: Names)
    requires TameLeads(s0, s, names) && !s.panicked
    requires r in s.reqs && s.reqs[r].pc.SRlSlowLock? && s.sWriter.None? && s.sReaders == {}
    requires s' == Put(s, r, s.reqs[r].(pc := SRlUnbolt, sm := Writes)).(sWriter := Some(r))
    ensures TameLeads(s0, s', names)
  {
    Tick(s0, s, r, s', names);
  }

  lemma AtSRlUnbolt(s0: State, s: State, r: Req, x: nat, s': State, names: Names)
    requires TameLeads(s0, s, names) && !s.panicked
    requires r in s.reqs && s.reqs[r].pc.SRlUnbolt? && s.reqs[r].snap == Closing(x)
    requires x < |s.snaps| && s.snaps[x].owner == Some(r)
    requires s' == Put(s, r, s.reqs[r].(pc := SRlDel, snap := Leaving(x))).(
              snaps := s.snaps[x := s.snaps[x].(owner := None)])
    ensures TameLeads(s0, s', names)
  {
    Tick(s0, s, r, s', names);
  }

  lemma AtSRlDel(s0: State, s: State, r: Req, x: nat, s': State, names: Names)
    requires TameLeads(s0, s, names) && !s.panicked
    requires r in s.reqs && s.reqs[r].pc.SRlDel? && s.reqs[r].snap == Leaving(x)
    requires x < |s.snaps| && s.snaps[x].refcount == 0 && !s.snaps[x].life.Created?
    requires s' == Put(s, r, s.reqs[r].(pc := SRlSlowDone, snap := Empty)).(
              sHash := HashDelete(s.sHash, s.snaps[x].name))
    ensures TameLeads(s0, s', names)
  {
    Tick(s0, s, r, s', names);
  }

  lemma AtSRlSlowDone(s0: State, s: State, r: Req, s': State, names: Names)
    requires TameLeads(s0, s, names) && !s.panicked && r in s.reqs && s.reqs[r].pc.SRlSlowDone?
    requires s' == Put(s, r, s.reqs[r].(pc := VRlRLock, sm := Free)).(sWriter := None)
    ensures TameLeads(s0, s', names)
  {
    Tick(s0, s, r, s', names);
  }

  // ---- The snapshot in hand is deleted ----

  // releaseSnapshot for a deleted snapshot, up to the gap between the read lock and the write lock.
  lemma DropStart(s0: State, s: State, r: Req, x: nat, names: Names) returns (s': State)
    requires TameLeads(s0, s, names) && Quiet(s) && !s.panicked && r in s.reqs && s.reqs[r].pc.SRlRLock?
    requires s.reqs[r].stray.None? && s.reqs[r].snap == Spent(x) && x < |s.snaps|
    requires s.snaps[x].volume == ObjOf(s.reqs[r].src) && s.snaps[x].refcount == 1 && !s.snaps[x].life.Created?
    ensures TameLeads(s0, s', names)
    ensures s' == Put(s, r, s.reqs[r].(pc := SRlSlowLock, snap := Closing(x), sm := Free)).(
              snaps := s.snaps[x := s.snaps[x].(refcount := 0)])
  {
    var l := s.reqs[r];
    var l1 := l.(pc := SRlIn, sm := Reads);
    var s1 := Put(s, r, l1).(sReaders := {r});
    AtSRlRLock(s0, s, r, s1, names) by { assert s.sReaders + {r} == {r}; }
    var l2 := l1.(pc := SRlSlow, snap := Closing(x));
    var s2 := Put(s, r, l2).(sReaders := {r}, snaps := s.snaps[x := s.snaps[x].(refcount := 0)]);
    AtSRlInLast(s0, s1, r, x, s2, names) by { Again(s, r, l1, l2); }
    var l3 := l.(pc := SRlSlowLock, snap := Closing(x), sm := Free);
    s' := Put(s, r, l3).(snaps := s2.snaps);
    AtSRlSlow(s0, s2, r, s', names) by { Again(s, r, l2, l3); assert {r} - {r} == s.sReaders; }
  }

  lemma DropEnd(s0: State, s: State, r: Req, x: nat, names: Names) returns (s': State)
    requires TameLeads(s0, s, names) && Quiet(s) && !s.panicked && r in s.reqs && s.reqs[r].pc.SRlSlowLock?
    requires s.reqs[r].snap == Closing(x) && s.reqs[r].sm.Free? && x < |s.snaps|
    requires s.snaps[x].refcount == 0 && !s.snaps[x].life.Created? && s.snaps[x].owner == Some(r)
    ensures TameLeads(s0, s', names)
    ensures s' == Put(s, r, s.reqs[r].(pc := VRlRLock, snap := Empty)).(
              snaps := s.snaps[x := s.snaps[x].(owner := None)], sHash := HashDelete(s.sHash, s.snaps[x].name))
  {
    var l, y := s.reqs[r], s.snaps[x].(owner := None);
    var l1 := l.(pc := SRlUnbolt, sm := Writes);
    var s1 := Put(s, r, l1).(sWriter := Some(r));
    AtSRlSlowLock(s0, s, r, s1, names);
    var l2 := l1.(pc := SRlDel, snap := Leaving(x));
    var s2 := Put(s, r, l2).(sWriter := Some(r), snaps := s.snaps[x := y]);
    AtSRlUnbolt(s0, s1, r, x, s2, names) by { Again(s, r, l1, l2); }
    s' := Unlist(s0, s, s2, r, x, y, names);
    assert l2.(pc := VRlRLock, snap := Empty, sm := Free) == l.(pc := VRlRLock, snap := Empty);
  }

  lemma Unlist(s0: State, s: State, s2: State, r: Req, x: nat, y: Snap, names: Names) returns (s': State)
    requires TameLeads(s0, s2, names) && Quiet(s) && !s.panicked && r in s2.reqs && x < |s.snaps|
    requires s2 == Put(s, r, s2.reqs[r]).(sWriter := Some(r), snaps := s.snaps[x := y])
    requires s2.reqs[r].pc.SRlDel? && s2.reqs[r].snap == Leaving(x) && y.refcount == 0 && !y.life.Created?
    ensures TameLeads(s0, s', names)
    ensures s' == Put(s, r, s2.reqs[r].(pc := VRlRLock, snap := Empty, sm := Free)).(
              snaps := s.snaps[x := y], sHash := HashDelete(s.sHash, y.name))
  {
    var l2 := s2.reqs[r];
    var l3 := l2.(pc := SRlSlowDone, snap := Empty);
    var s3 := Put(s, r, l3).(sWriter := Some(r), snaps := s.snaps[x := y], sHash := HashDelete(s.sHash, y.name));
    AtSRlDel(s0, s2, r, x, s3, names) by { Again(s, r, l2, l3); }
    var l4 := l3.(pc := VRlRLock, sm := Free);
    s' := Put(s, r, l4).(snaps := s.snaps[x := y], sHash := s3.sHash);
    AtSRlSlowDone(s0, s3, r, s', names) by { Again(s, r, l3, l4); }
  }

  // Request r has volume n and its snapshot k in hand, as objects o and x, and is about to delete the snapshot.
  predicate Deleting(s: State, r: Req, k: SnapName, n: VolName, x: nat, o: nat) {
    && Quiet(s) && !s.panicked && r in s.reqs
    && s.reqs[r] == InHandOf(DeleteSnapshot(n, k), o).(pc := SDelInfo, snap := Mine(x), pass := s.reqs[r].pass)
    && !s.reqs[r].pass.Missed?
    && x < |s.snaps| && s.snaps[x] == Snap(k, o, n, Created, 1, Some(r))
    && o < |s.vols| && s.vols[o].life.Created? && s.vols[o].owner == Some(r)
    && (n, k) in s.appSnaps && NoClones(s, (n, k))
  }

  lemma DeleteInHand(s0: State, s: State, r: Req, k: SnapName, n: VolName, x: nat, o: nat, names: Names)
    returns (s': State)
    requires TameLeads(s0, s, names) && Deleting(s, r, k, n, x, o)
    ensures TameLeads(s0, s', names) && r in s'.reqs && s'.reqs[r].pc.Done?
    ensures s' == Put(s, r, s'.reqs[r]).(
              snaps := s.snaps[x := Snap(k, o, n, Deleted, 0, None)], sHash := HashDelete(s.sHash, k),
              appSnaps := s.appSnaps - {(n, k)},
              vols := s.vols[o := s.vols[o].(refcount := s.vols[o].refcount - 1, owner := None)])
  {
    var s1 := SendDeletion(s0, s, r, k, n, x, o, names);
    s' := LeaveDeleted(s0, s1, r, k, n, x, o, names);
    assert s.snaps[x := Snap(k, o, n, Deleted, 1, Some(r))][x := Snap(k, o, n, Deleted, 0, None)] ==
           s.snaps[x := Snap(k, o, n, Deleted, 0, None)];
    Again(s, r, s1.reqs[r], s'.reqs[r]);
  }

  lemma SendDeletion(s0: State, s: State, r: Req, k: SnapName, n: VolName, x: nat, o: nat, names: Names)
    returns (s': State)
    requires TameLeads(s0, s, names) && Deleting(s, r, k, n, x, o)
    ensures TameLeads(s0, s', names)
    ensures s' == Put(s, r, s.reqs[r].(pc := SRlRLock, snap := Spent(x))).(
              snaps := s.snaps[x := Snap(k, o, n, Deleted, 1, Some(r))], appSnaps := s.appSnaps - {(n, k)})
  {
    var l := s.reqs[r];
    var l1 := l.(pc := SDelGo);
    var s1 := Put(s, r, l1);
    AtSDelInfo(s0, s, r, s1, names);
    var l2 := l.(pc := SRlRLock, snap := Spent(x));
    s' := Put(s, r, l2).(snaps := s.snaps[x := Snap(k, o, n, Deleted, 1, Some(r))], appSnaps := s.appSnaps - {(n, k)});
    AtSDelGo(s0, s1, r, x, s', names) by { Again(s, r, l1, l2); }
  }

  lemma LeaveDeleted(s0: State, s: State, r: Req, k: SnapName, n: VolName, x: nat, o: nat, names: Names)
    returns (s': State)
    requires TameLeads(s0, s, names) && Quiet(s) && !s.panicked && r in s.reqs
    requires s.reqs[r] == InHandOf(DeleteSnapshot(n, k), o).(pc := SRlRLock, snap := Spent(x), pass := s.reqs[r].pass)
    requires !s.reqs[r].pass.Missed?
    requires x < |s.snaps| && s.snaps[x] == Snap(k, o, n, Deleted, 1, Some(r))
    requires o < |s.vols| && s.vols[o].life.Created? && s.vols[o].owner == Some(r)
    ensures TameLeads(s0, s', names) && r in s'.reqs && s'.reqs[r].pc.Done?
    ensures s' == Put(s, r, s'.reqs[r]).(
              snaps := s.snaps[x := Snap(k, o, n, Deleted, 0, None)], sHash := HashDelete(s.sHash, k),
              vols := s.vols[o := s.vols[o].(refcount := s.vols[o].refcount - 1, owner := None)])
  {
    var s1 := DropStart(s0, s, r, x, names);
    var s2 := DropEnd(s0, s1, r, x, names);
    var l2 := s2.reqs[r];
    s' := FastRelease(s0, s2, r, o, names);
    Again(s, r, s1.reqs[r], l2);
    Again(s, r, l2, s'.reqs[r]);
    assert s.snaps[x := Snap(k, o, n, Deleted, 0, Some(r))][x := Snap(k, o, n, Deleted, 0, None)] ==
           s.snaps[x := Snap(k, o, n, Deleted, 0, None)];
  }

  // ---- From the arrival of the request to the deletion ----

  // lookupSnapshot finds the snapshot in the cache, up to waiting for its bolt.
  lemma JoinSnapshot(s0: State, s: State, r: Req, x: nat, names: Names) returns (s': State)
    requires TameLeads(s0, s, names) && Quiet(s) && !s.panicked
    requires r in s.reqs && s.reqs[r].pc.SLkRLock? && s.reqs[r].sm.Free?
    requires SnapNameOf(s.reqs[r].op) in s.sHash && s.sHash[SnapNameOf(s.reqs[r].op)] == x
    requires x < |s.snaps| && s.snaps[x].volume == ObjOf(s.reqs[r].src)
    ensures TameLeads(s0, s', names)
    ensures s' == Put(s, r, s.reqs[r].(pc := SBolt, snap := Held(x))).(
              snaps := s.snaps[x := s.snaps[x].(refcount := s.snaps[x].refcount + 1)])
  {
    var l := s.reqs[r];
    var l1 := l.(pc := SLkIn, sm := Reads);
    var s1 := Put(s, r, l1).(sReaders := {r});
    AtSLkRLock(s0, s, r, s1, names) by { assert s.sReaders + {r} == {r}; }
    var l2, y := l1.(pc := SLkHit, snap := Held(x)), s.snaps[x].(refcount := s.snaps[x].refcount + 1);
    var s2 := Put(s, r, l2).(sReaders := {r}, snaps := s.snaps[x := y]);
    AtSLkInHit(s0, s1, r, x, s2, names) by { Again(s, r, l1, l2); }
    var l3 := l.(pc := SBolt, snap := Held(x));
    s' := Put(s, r, l3).(snaps := s.snaps[x := y]);
    AtSLkHit(s0, s2, r, s', names) by { Again(s, r, l2, l3); assert {r} - {r} == s.sReaders; }
  }

  lemma CacheNew(s0: State, s: State, r: Req, k: SnapName, n: VolName, o: nat, names: Names) returns (s': State)
    requires TameLeads(s0, s, names) && Quiet(s) && !s.panicked && r in s.reqs && s.reqs[r].pc.SNwLock?
    requires s.reqs[r].sm.Free? && s.reqs[r].src == Mine(o) && NeedsSnap(s.reqs[r].op)
    requires KeyOf(s.reqs[r].op) == (n, k) && k !in s.sHash
    ensures TameLeads(s0, s', names)
    ensures s' == Put(s, r, s.reqs[r].(pc := SBoltFresh, snap := Placed(|s.snaps|))).(
              sHash := s.sHash[k := |s.snaps|], snaps := s.snaps + [Snap(k, o, n, Creating, 1, None)])
  {
    var l := s.reqs[r];
    var l1 := l.(pc := SNwIn, sm := Writes);
    var s1 := Put(s, r, l1).(sWriter := Some(r));
    AtSNwLock(s0, s, r, s1, names);
    var l2 := l1.(pc := SNwFresh, snap := Placed(|s.snaps|));
    var s2 := Put(s, r, l2).(sWriter := Some(r), sHash := s.sHash[k := |s.snaps|],
                             snaps := s.snaps + [Snap(k, o, n, Creating, 1, None)]);
    AtSNwInNew(s0, s1, r, k, n, o, s2, names) by { Again(s, r, l1, l2); }
    var l3 := l.(pc := SBoltFresh, snap := Placed(|s.snaps|));
    s' := Put(s, r, l3).(sHash := s2.sHash, snaps := s2.snaps);
    AtSNwFresh(s0, s2, r, s', names) by { Again(s, r, l2, l3); }
  }

  // A snapshot cached in stateCreated.
  lemma DeleteKnown(s0: State, s: State, k: SnapName, n: VolName, x: nat, o: nat, names: Names)
    returns (r: Req, s': State)
    requires TameLeads(s0, s, names) && Quiet(s) && !s.panicked && names((n, k))
    requires n in s.vHash && s.vHash[n] == o && o < |s.vols| && s.vols[o].life.Created? && s.vols[o].owner.None?
    requires k in s.sHash && s.sHash[k] == x && x < |s.snaps| && s.snaps[x] == Snap(k, o, n, Created, 0, None)
    requires (n, k) in s.appSnaps && NoClones(s, (n, k))
    ensures TameLeads(s0, s', names) && r !in s.reqs && r in s'.reqs && s'.reqs[r].pc.Done?
    ensures s' == Put(s, r, s'.reqs[r]).(snaps := s.snaps[x := Snap(k, o, n, Deleted, 0, None)],
                                         sHash := HashDelete(s.sHash, k), appSnaps := s.appSnaps - {(n, k)})
  {
    var s1, op := s, DeleteSnapshot(n, k);
    r, s1 := LookupHit(s0, s, op, o, names);
    var s2 := JoinSnapshot(s0, s1, r, x, names);
    var l2, l3 := s2.reqs[r], InHandOf(op, o).(pc := SDelInfo, snap := Mine(x));
    var s3 := Put(s2, r, l3).(snaps := s.snaps[x := Snap(k, o, n, Created, 1, Some(r))]);
    AtSBolt(s0, s2, r, x, s3, names) by {
      assert s.snaps[x := Snap(k, o, n, Created, 1, None)][x := Snap(k, o, n, Created, 1, Some(r))] == s3.snaps;
    }
    s' := DeleteInHand(s0, s3, r, k, n, x, o, names);
  }

  // lookupSnapshot misses the cache and releases the volume.
  lemma MissSnapshot(s0: State, s: State, r: Req, k: SnapName, n: VolName, o: nat, names: Names) returns (s': State)
    requires TameLeads(s0, s, names) && Quiet(s) && !s.panicked && k !in s.sHash
    requires r in s.reqs && s.reqs[r] == InHandOf(DeleteSnapshot(n, k), o)
    requires o < |s.vols| && s.vols[o].life.Created? && s.vols[o].owner == Some(r)
    ensures TameLeads(s0, s', names)
    ensures s' == Put(s, r, s.reqs[r].(pc := LkRLock, src := Empty, pass := Query)).(
              vols := s.vols[o := s.vols[o].(refcount := s.vols[o].refcount - 1, owner := None)])
  {
    var l := s.reqs[r];
    var l1 := l.(pc := SLkIn, sm := Reads);
    var s1 := Put(s, r, l1).(sReaders := {r});
    AtSLkRLock(s0, s, r, s1, names) by { assert s.sReaders + {r} == {r}; }
    var l2 := l1.(pc := SLkMiss);
    var s2 := Put(s, r, l2).(sReaders := {r});
    AtSLkInMiss(s0, s1, r, s2, names) by { Again(s, r, l1, l2); }
    var l3 := l.(pc := VRlRLock, pass := Missed);
    var s3 := Put(s, r, l3);
    AtSLkMiss(s0, s2, r, s3, names) by { Again(s, r, l2, l3); assert {r} - {r} == s.sReaders; }
    s' := FastRelease(s0, s3, r, o, names);
    Again(s, r, l3, s'.reqs[r]);
  }

  // newSnapshot caches the snapshot, and the appliance knows it.
  lemma FetchSnapshot(s0: State, s: State, r: Req, k: SnapName, n: VolName, o: nat, names: Names) returns (s': State)
    requires TameLeads(s0, s, names) && Quiet(s) && !s.panicked && k !in s.sHash && (n, k) in s.appSnaps
    requires r in s.reqs && s.reqs[r] == InHandOf(DeleteSnapshot(n, k), o).(pc := SNwLock, pass := Query)
    ensures TameLeads(s0, s', names)
    ensures s' == Put(s, r, s.reqs[r].(pc := SDelInfo, snap := Mine(|s.snaps|))).(
              sHash := s.sHash[k := |s.snaps|], snaps := s.snaps + [Snap(k, o, n, Created, 1, Some(r))])
  {
    var l, x := s.reqs[r], |s.snaps|;
    var s1 := CacheNew(s0, s, r, k, n, o, names);
    var l1 := s1.reqs[r];
    var l2 := l.(pc := SDetails, snap := Fresh(x));
    var s2 := Put(s, r, l2).(sHash := s1.sHash, snaps := s.snaps + [Snap(k, o, n, Creating, 1, Some(r))]);
    AtSBoltFresh(s0, s1, r, x, s2, names) by {
      Again(s, r, l1, l2);
      assert s1.snaps[x := Snap(k, o, n, Creating, 1, Some(r))] == s2.snaps;
    }
    var l3 := l.(pc := SDelInfo, snap := Mine(x));
    s' := Put(s, r, l3).(sHash := s1.sHash, snaps := s.snaps + [Snap(k, o, n, Created, 1, Some(r))]);
    AtSDetails(s0, s2, r, x, s', names) by {
      Again(s, r, l2, l3);
      assert s2.snaps[x := Snap(k, o, n, Created, 1, Some(r))] == s'.snaps;
    }
  }

  // A snapshot that is not cached.
  lemma DeleteUnknown(s0: State, s: State, k: SnapName, n: VolName, o: nat, names: Names) returns (r: Req, s': State)
    requires TameLeads(s0, s, names) && Quiet(s) && !s.panicked && names((n, k)) && k !in s.sHash
    requires n in s.vHash && s.vHash[n] == o && o < |s.vols| && s.vols[o].life.Created? && s.vols[o].owner.None?
    requires (n, k) in s.appSnaps && NoClones(s, (n, k))
    ensures TameLeads(s0, s', names) && r !in s.reqs && r in s'.reqs && s'.reqs[r].pc.Done?
    ensures s' == Put(s, r, s'.reqs[r]).(snaps := s.snaps + [Snap(k, o, n, Deleted, 0, None)],
                                         appSnaps := s.appSnaps - {(n, k)})
  {
    var s2 := s;
    r, s2 := ReachSecondPass(s0, s, k, n, o, names);
    var s3 := FetchSnapshot(s0, s2, r, k, n, o, names);
    var x := |s.snaps|;
    s' := DeleteInHand(s0, s3, r, k, n, x, o, names);
    assert (s.snaps + [Snap(k, o, n, Created, 1, Some(r))])[x := Snap(k, o, n, Deleted, 0, None)] ==
           s.snaps + [Snap(k, o, n, Deleted, 0, None)];
    assert HashDelete(s.sHash[k := x], k) == s.sHash;
    assert s'.vols == s.vols;
  }

  lemma ReachSecondPass(s0: State, s: State, k: SnapName, n: VolName, o: nat, names: Names) returns (r: Req, s': State)
    requires TameLeads(s0, s, names) && Quiet(s) && !s.panicked && names((n, k)) && k !in s.sHash
    requires n in s.vHash && s.vHash[n] == o && o < |s.vols| && s.vols[o].life.Created? && s.vols[o].owner.None?
    ensures TameLeads(s0, s', names) && r !in s.reqs
    ensures s' == Put(s, r, InHandOf(DeleteSnapshot(n, k), o).(pc := SNwLock, pass := Query)).(
              vols := s.vols[o := s.vols[o].(refcount := s.vols[o].refcount + 1, owner := Some(r))])
  {
    var s1 := s;
    r, s1 := LookupHit(s0, s, DeleteSnapshot(n, k), o, names);
    var s2 := MissSnapshot(s0, s1, r, k, n, o, names);
    assert s2.vols == s.vols;
    s' := HitVolume(s0, s2, r, o, names);
    Again(s, r, s1.reqs[r], s2.reqs[r]);
    Again(s, r, s2.reqs[r], s'.reqs[r]);
  }

  // ---- Creation of a volume that is cached and gone ----

  lemma AtNwInHit(s0: State, s: State, r: Req, o: nat, s': State, names: Names)
    requires TameLeads(s0, s, names) && !s.panicked
    requires r in s.reqs && s.reqs[r].pc.NwIn? && CurName(s.reqs[r]) in s.vHash && s.vHash[CurName(s.reqs[r])] == o
    requires o < |s.vols|
    requires s' == Put(s, r, WithCur(s.reqs[r], Held(o)).(pc := NwHit)).(
              vols := s.vols[o := s.vols[o].(refcount := s.vols[o].refcount + 1)])
    ensures TameLeads(s0, s', names)
  {
    Tick(s0, s, r, s', names);
  }

  lemma AtNwHit(s0: State, s: State, r: Req, s': State, names: Names)
    requires TameLeads(s0, s, names) && !s.panicked && r in s.reqs && s.reqs[r].pc.NwHit?
    requires s' == Put(s, r, s.reqs[r].(pc := VBolt, vm := Free)).(vWriter := None)
    ensures TameLeads(s0, s', names)
  {
    Tick(s0, s, r, s', names);
  }

  // newVolume finds the volume in the cache, up to waiting for its bolt.
  lemma JoinVolume(s0: State, s: State, n: VolName, o: nat, names: Names) returns (r: Req, s': State)
    requires TameLeads(s0, s, names) && Quiet(s) && !s.panicked && n in s.vHash && s.vHash[n] == o && o < |s.vols|
    ensures TameLeads(s0, s', names) && r !in s.reqs
    ensures s' == Put(s, r, InitLocal(CreateVolume(n)).(pc := VBolt, tgt := Held(o))).(
              vols := s.vols[o := s.vols[o].(refcount := s.vols[o].refcount + 1)])
  {
    var s1, l := s, InitLocal(CreateVolume(n));
    r, s1 := ArriveNew(s0, s, CreateVolume(n), names);
    var l2 := l.(pc := NwIn, vm := Writes);
    var s2 := Put(s, r, l2).(vWriter := Some(r));
    AtNwLock(s0, s1, r, s2, names) by { Again(s, r, l, l2); }
    var l3, v := l2.(pc := NwHit, tgt := Held(o)), s.vols[o].(refcount := s.vols[o].refcount + 1);
    var s3 := Put(s, r, l3).(vWriter := Some(r), vols := s.vols[o := v]);
    AtNwInHit(s0, s2, r, o, s3, names) by { Again(s, r, l2, l3); }
    var l4 := l.(pc := VBolt, tgt := Held(o));
    s' := Put(s, r, l4).(vols := s.vols[o := v]);
    AtNwHit(s0, s3, r, s', names) by { Again(s, r, l3, l4); }
  }

  lemma AtCreateAgain(s0: State, s: State, r: Req, o: nat, s': State, names: Names)
    requires TameLeads(s0, s, names) && !s.panicked
    requires r in s.reqs && s.reqs[r].pc.Create? && s.reqs[r].tgt == Mine(o) && s.reqs[r].which.Target?
    requires o < |s.vols| && s.vols[o].life.Created? && CurName(s.reqs[r]) !in s.appVols
    requires s' == Put(s, r, s.reqs[r].(pc := VRlRLock)).(
              appVols := s.appVols[CurName(s.reqs[r]) := Share(None, MASK_ALL)])
    ensures TameLeads(s0, s', names)
  {
    assert s.vols[o := s.vols[o].(life := Created)] == s.vols;
    Tick(s0, s, r, s', names);
  }

  lemma Recreate(s0: State, s: State, n: VolName, o: nat, names: Names) returns (r: Req, s': State)
    requires TameLeads(s0, s, names) && Quiet(s) && !s.panicked && n in s.vHash && s.vHash[n] == o && o < |s.vols|
    requires s.vols[o].life.Created? && s.vols[o].owner.None? && n !in s.appVols
    ensures TameLeads(s0, s', names) && r in s'.reqs
    ensures s' == Put(s, r, s'.reqs[r]).(appVols := s.appVols[n := Share(None, MASK_ALL)])
  {
    var s1 := s;
    r, s1 := JoinVolume(s0, s, n, o, names);
    var s2 := CreateAgain(s0, s, s1, r, n, o, s1.vols[o], names);
    var l2 := s2.reqs[r];
    s' := FastRelease(s0, s2, r, o, names);
    Again(s, r, l2, s'.reqs[r]);
    assert s'.vols == s.vols;
  }

  lemma CreateAgain(s0: State, s: State, s1: State, r: Req, n: VolName, o: nat, v: Vol, names: Names)
    returns (s': State)
    requires TameLeads(s0, s1, names) && !s.panicked && o < |s.vols| && n !in s.appVols
    requires v.life.Created? && v.owner.None?
    requires s1 == Put(s, r, InitLocal(CreateVolume(n)).(pc := VBolt, tgt := Held(o))).(vols := s.vols[o := v])
    ensures TameLeads(s0, s', names)
    ensures s' == Put(s, r, InitLocal(CreateVolume(n)).(pc := VRlRLock, tgt := Mine(o))).(
              vols := s.vols[o := v.(owner := Some(r))], appVols := s.appVols[n := Share(None, MASK_ALL)])
  {
    var l1, l2 := s1.reqs[r], InitLocal(CreateVolume(n)).(pc := Create, tgt := Mine(o));
    var s2 := Put(s, r, l2).(vols := s.vols[o := v.(owner := Some(r))]);
    AtVBolt(s0, s1, r, o, s2, names) by { Again(s, r, l1, l2); assert s1.vols[o := v.(owner := Some(r))] == s2.vols; }
    var l3 := l2.(pc := VRlRLock);
    s' := Put(s, r, l3).(vols := s2.vols, appVols := s.appVols[n := Share(None, MASK_ALL)]);
    AtCreateAgain(s0, s2, r, o, s', names) by { Again(s, r, l2, l3); }
  }
}
