/** A request that is served by itself does what it is for: from a state in which nobody is inside a mutex,
    tame steps in which no other request moves lead to a state in which the request is finished and the
    appliance holds what was asked for. */
module AccessService {
  import opened Common
  import opened AccessModel
  import opened AccessBeliefs
  import opened AccessDrain
  import opened AccessSolo
  import opened AccessDeletion

  // Request r came after s, has been served, and nobody else has moved.
  predicate Served(s: State, s': State, r: Req) {
    r !in s.reqs && r in s'.reqs && s'.reqs == s.reqs[r := s'.reqs[r]] && s'.reqs[r].pc.Done? && !s'.panicked
  }

  // Volume n exists, and is not cached or is cached in stateCreated and free.
  predicate Available(s: State, n: VolName) {
    && Quiet(s) && !s.panicked && n in s.appVols
    && (n in s.vHash ==>
          s.vHash[n] < |s.vols| && s.vols[s.vHash[n]].life.Created? && s.vols[s.vHash[n]].owner.None?)
  }

  // Request r has the volume object o in hand, and nothing else has changed but the volumes in the driver.
  predicate Obtained(s: State, s': State, r: Req, op: Op, o: nat) {
    && s' == s.(reqs := s.reqs[r := InHandOf(op, o)], vHash := s'.vHash, vols := s'.vols)
    && o < |s'.vols| && s'.vols[o].life.Created? && s'.vols[o].owner == Some(r)
  }

  lemma Obtain(s: State, op: Op, names: Names) returns (r: Req, o: nat, s': State)
    requires Available(s, VolNameOf(op, Source)) && Plain(op, names)
    ensures TameLeads(s, s', names) && r !in s.reqs && Obtained(s, s', r, op, o)
  {
    var n := VolNameOf(op, Source);
    LeadsRefl(s, names);
    if n in s.vHash {
      o := s.vHash[n];
      r, s' := LookupHit(s, s, op, o, names);
    } else {
      o := |s.vols|;
      r, s' := LookupMiss(s, s, op, names);
    }
  }

  // Request r is done with the appliance and about to release its volume, the object o.
  predicate Returning(s: State, r: Req, o: nat) {
    && AboutToRelease(s, r, o) && s.reqs[r].which.Source? && s.reqs[r].tgt.Empty? && !s.reqs[r].pass.Missed?
  }

  lemma Return(s0: State, s: State, r: Req, o: nat, names: Names) returns (s': State)
    requires TameLeads(s0, s, names) && Returning(s, r, o)
    ensures TameLeads(s0, s', names) && r in s'.reqs && s'.reqs == s.reqs[r := s'.reqs[r]] && s'.reqs[r].pc.Done?
    ensures s'.appVols == s.appVols && s'.appSnaps == s.appSnaps && !s'.panicked
  {
    if s.vols[o].refcount == 1 && !s.vols[o].life.Created? { s' := SlowRelease(s0, s, r, o, names); }
    else { s' := FastRelease(s0, s, r, o, names); }
  }

  // ---- Publishing ----

  lemma AtPubRead(s0: State, s: State, r: Req, s': State, names: Names)
    requires TameLeads(s0, s, names) && !s.panicked && r in s.reqs && s.reqs[r].pc.PubRead?
    requires CurName(s.reqs[r]) in s.appVols && s.appVols[CurName(s.reqs[r])].group == MASK_ALL
    requires s' == Put(s, r, s.reqs[r].(pc := PubSet))
    ensures TameLeads(s0, s', names)
  {
    Tick(s0, s, r, s', names);
  }

  lemma AtPubSet(s0: State, s: State, r: Req, n: VolName, node: NodeName, s': State, names: Names)
    requires TameLeads(s0, s, names) && !s.panicked && r in s.reqs && s.reqs[r].pc.PubSet?
    requires s.reqs[r].op == PublishVolume(n, node) && s.reqs[r].which.Source? && n in s.appVols
    requires s' == Put(s, r, s.reqs[r].(pc := VRlRLock)).(appVols := s.appVols[n := s.appVols[n].(group := node)])
    ensures TameLeads(s0, s', names)
  {
    Tick(s0, s, r, s', names);
  }

  /** A publish of a masked LUN, served by itself, gives it to the node. */
  lemma PublishServed(s: State, n: VolName, node: NodeName, names: Names) returns (r: Req, s': State)
    requires Available(s, n) && s.appVols[n].group == MASK_ALL
    ensures TameLeads(s, s', names) && Served(s, s', r)
    ensures s'.appVols == s.appVols[n := s.appVols[n].(group := node)] && s'.appSnaps == s.appSnaps
  {
    var o, s1, op := 0, s, PublishVolume(n, node);
    r, o, s1 := Obtain(s, op, names);
    var l := s1.reqs[r];
    var s2 := Put(s1, r, l.(pc := PubSet));
    AtPubRead(s, s1, r, s2, names);
    var s3 := Put(s1, r, l.(pc := VRlRLock)).(appVols := s.appVols[n := s.appVols[n].(group := node)]);
    AtPubSet(s, s2, r, n, node, s3, names) by { Again(s1, r, l.(pc := PubSet), l.(pc := VRlRLock)); }
    s' := Return(s, s3, r, o, names);
  }

  lemma AtUnpub(s0: State, s: State, r: Req, s': State, names: Names)
    requires TameLeads(s0, s, names) && !s.panicked && r in s.reqs && s.reqs[r].pc.Unpub?
    requires CurName(s.reqs[r]) in s.appVols
    requires s' == Put(s, r, s.reqs[r].(pc := VRlRLock)).(
              appVols := s.appVols[CurName(s.reqs[r]) := s.appVols[CurName(s.reqs[r])].(group := MASK_ALL)])
    ensures TameLeads(s0, s', names)
  {
    Tick(s0, s, r, s', names);
  }

  /** An unpublish, served by itself, masks the LUN. */
  lemma UnpublishServed(s: State, n: VolName, names: Names) returns (r: Req, s': State)
    requires Available(s, n)
    ensures TameLeads(s, s', names) && Served(s, s', r)
    ensures s'.appVols == s.appVols[n := s.appVols[n].(group := MASK_ALL)] && s'.appSnaps == s.appSnaps
  {
    var o, s1 := 0, s;
    r, o, s1 := Obtain(s, UnpublishVolume(n), names);
    var s2 := Put(s1, r, s1.reqs[r].(pc := VRlRLock)).(appVols := s.appVols[n := s.appVols[n].(group := MASK_ALL)]);
    AtUnpub(s, s1, r, s2, names);
    s' := Return(s, s2, r, o, names);
  }

  // ---- Creation and deletion of volumes ----

  /** A creation, served by itself, puts the volume on the appliance. */
  lemma CreateServed(s: State, n: VolName, names: Names) returns (r: Req, s': State)
    requires Quiet(s) && !s.panicked && n !in s.vHash && n !in s.appVols
    ensures TameLeads(s, s', names) && Served(s, s', r)
    ensures s'.appVols == s.appVols[n := Share(None, MASK_ALL)] && s'.appSnaps == s.appSnaps
    ensures n in s'.vHash && VolAt(s', s'.vHash[n]) == Vol(n, Created, 0, None)
  {
    LeadsRefl(s, names);
    r, s' := CreateAnew(s, s, n, names);
  }

  /** A deletion of a volume without snapshots, served by itself, removes it. */
  lemma DeleteServed(s: State, n: VolName, block: bool, names: Names) returns (r: Req, s': State)
    requires Available(s, n) && NoSnapshots(s, n)
    ensures TameLeads(s, s', names) && Served(s, s', r)
    ensures s'.appVols == HashDelete(s.appVols, n) && s'.appSnaps == s.appSnaps
  {
    var o, s1 := 0, s;
    r, o, s1 := Obtain(s, DeleteVolume(n, block), names);
    var l, v := s1.reqs[r], s1.vols[o].(life := Deleted);
    var s2 := Put(s1, r, l.(pc := DelGo));
    AtDelList(s, s1, r, s2, names);
    var s3 := Put(s1, r, l.(pc := VRlRLock, src := Spent(o))).(
      vols := s1.vols[o := v], appVols := HashDelete(s.appVols, n));
    AtDelGo(s, s2, r, o, s3, names) by { Again(s1, r, l.(pc := DelGo), l.(pc := VRlRLock, src := Spent(o))); }
    s' := Return(s, s3, r, o, names);
  }

  // ---- Creation and deletion of snapshots ----

  lemma AtSCreateFresh(s0: State, s: State, r: Req, k: SnapName, n: VolName, x: nat, s': State, names: Names)
    requires TameLeads(s0, s, names) && !s.panicked
    requires r in s.reqs && s.reqs[r].pc.SCreate? && s.reqs[r].op == CreateSnapshot(n, k) && s.reqs[r].snap == Fresh(x)
    requires x < |s.snaps| && n in s.appVols && (n, k) !in s.appSnaps
    requires s' == Put(s, r, s.reqs[r].(pc := SRlRLock, snap := Mine(x))).(
              snaps := s.snaps[x := s.snaps[x].(life := Created)], appSnaps := s.appSnaps + {(n, k)})
    ensures TameLeads(s0, s', names)
  {
    Tick(s0, s, r, s', names);
  }

  // The snapshot just cached is created on the appliance.
  lemma TakeNew(s0: State, s: State, r: Req, k: SnapName, n: VolName, x: nat, o: nat, names: Names)
    returns (s': State)
    requires TameLeads(s0, s, names) && Quiet(s) && !s.panicked && r in s.reqs
    requires s.reqs[r] == InHandOf(CreateSnapshot(n, k), o).(pc := SBoltFresh, snap := Placed(x))
    requires x < |s.snaps| && s.snaps[x] == Snap(k, o, n, Creating, 1, None)
    requires n in s.appVols && (n, k) !in s.appSnaps
    ensures TameLeads(s0, s', names)
    ensures s' == Put(s, r, InHandOf(CreateSnapshot(n, k), o).(pc := SRlRLock, snap := Mine(x))).(
              snaps := s.snaps[x := Snap(k, o, n, Created, 1, Some(r))], appSnaps := s.appSnaps + {(n, k)})
  {
    var l := s.reqs[r];
    var l1, y := l.(pc := SCreate, snap := Fresh(x)), Snap(k, o, n, Creating, 1, Some(r));
    var s1 := Put(s, r, l1).(snaps := s.snaps[x := y]);
    AtSBoltFresh(s0, s, r, x, s1, names);
    var l2 := l.(pc := SRlRLock, snap := Mine(x));
    s' := Put(s, r, l2).(snaps := s.snaps[x := y.(life := Created)], appSnaps := s.appSnaps + {(n, k)});
    AtSCreateFresh(s0, s1, r, k, n, x, s', names) by {
      Again(s, r, l1, l2);
      assert s.snaps[x := y][x := y.(life := Created)] == s.snaps[x := y.(life := Created)];
    }
  }

  /** A snapshot is created. */
  lemma SnapshotServed(s: State, n: VolName, k: SnapName, names: Names) returns (r: Req, s': State)
    requires Available(s, n) && names((n, k)) && k !in s.sHash && (n, k) !in s.appSnaps
    ensures TameLeads(s, s', names) && Served(s, s', r)
    ensures s'.appSnaps == s.appSnaps + {(n, k)} && s'.appVols == s.appVols
  {
    var o, s1, op := 0, s, CreateSnapshot(n, k);
    r, o, s1 := Obtain(s, op, names);
    var x := |s1.snaps|;
    var s2 := CacheNew(s, s1, r, k, n, o, names);
    var s3 := TakeNew(s, s2, r, k, n, x, o, names);
    var s4 := ReleaseSnap(s, s3, r, x, names);
    s' := Return(s, s4, r, o, names);
  }

  /** The deletion of a snapshot without clones removes it, whether it is cached or not. */
  lemma SnapshotDeletionServed(s: State, n: VolName, k: SnapName, names: Names) returns (r: Req, s': State)
    requires Available(s, n) && n in s.vHash && names((n, k)) && (n, k) in s.appSnaps && NoClones(s, (n, k))
    requires k in s.sHash ==>
               s.sHash[k] < |s.snaps| && s.snaps[s.sHash[k]] == Snap(k, s.vHash[n], n, Created, 0, None)
    ensures TameLeads(s, s', names) && Served(s, s', r)
    ensures s'.appSnaps == s.appSnaps - {(n, k)} && s'.appVols == s.appVols && k !in s'.sHash
  {
    LeadsRefl(s, names);
    if k in s.sHash { r, s' := DeleteKnown(s, s, k, n, s.sHash[k], s.vHash[n], names); }
    else { r, s' := DeleteUnknown(s, s, k, n, s.vHash[n], names); }
  }

  // ---- Clones ----

  lemma AtClone(s0: State, s: State, r: Req, c: nat, s': State, names: Names)
    requires TameLeads(s0, s, names) && !s.panicked
    requires r in s.reqs && s.reqs[r].pc.Clone? && s.reqs[r].tgt == Fresh(c) && c < |s.vols|
    requires VolNameOf(s.reqs[r].op, Target) !in s.appVols && KeyOf(s.reqs[r].op) in s.appSnaps
    requires s' == Put(s, r, s.reqs[r].(pc := SRlRLock, tgt := Mine(c))).(
              vols := s.vols[c := s.vols[c].(life := Created)],
              appVols := s.appVols[VolNameOf(s.reqs[r].op, Target) := Share(Some(KeyOf(s.reqs[r].op)), MASK_ALL)])
    ensures TameLeads(s0, s', names)
  {
    Tick(s0, s, r, s', names);
  }

  // The source of the clone and its snapshot are cached in stateCreated and free.
  predicate CanClone(s: State, t: VolName, n: VolName, k: SnapName, o: nat, x: nat) {
    && Quiet(s) && !s.panicked && t !in s.vHash && t !in s.appVols && (n, k) in s.appSnaps
    && n in s.vHash && s.vHash[n] == o && o < |s.vols| && s.vols[o].life.Created? && s.vols[o].owner.None?
    && k in s.sHash && s.sHash[k] == x && x < |s.snaps| && s.snaps[x] == Snap(k, o, n, Created, 0, None)
  }

  // The new volume is placed in the cache, and its source looked up.
  lemma PlaceClone(s: State, t: VolName, n: VolName, k: SnapName, o: nat, x: nat, names: Names)
    returns (r: Req, s': State)
    requires CanClone(s, t, n, k, o, x) && names((n, k))
    ensures TameLeads(s, s', names) && r !in s.reqs
    ensures var l := InHandOf(CloneVolume(t, n, k), o).(pc := SLkRLock, which := Source, tgt := Fresh(|s.vols|));
            s' == Put(s, r, l).(
              vHash := s.vHash[t := |s.vols|],
              vols := s.vols[o := s.vols[o].(refcount := s.vols[o].refcount + 1, owner := Some(r))]
                      + [Vol(t, Creating, 1, Some(r))])
  {
    var s1, op := s, CloneVolume(t, n, k);
    LeadsRefl(s, names);
    r, s1 := ArriveNew(s, s, op, names);
    var s2 := Place(s, s, s1, r, names);
    s' := HitVolume(s, s2, r, o, names);
    Again(s, r, s2.reqs[r], s'.reqs[r]);
  }

  lemma TakeClone(s0: State, s: State, r: Req, c: nat, o: nat, x: nat, names: Names) returns (s': State)
    requires TameLeads(s0, s, names) && Quiet(s) && !s.panicked && r in s.reqs && s.reqs[r].op.CloneVolume?
    requires var op := s.reqs[r].op;
             && s.reqs[r] == InHandOf(op, o).(pc := SLkRLock, which := Source, tgt := Fresh(c))
             && op.name !in s.appVols && KeyOf(op) in s.appSnaps
             && op.snap in s.sHash && s.sHash[op.snap] == x && x < |s.snaps|
             && s.snaps[x] == Snap(op.snap, o, op.source, Created, 0, None)
    requires c < |s.vols| && c != o
    ensures TameLeads(s0, s', names)
    ensures var op := s.reqs[r].op;
            s' == Put(s, r, s.reqs[r].(pc := SRlRLock, tgt := Mine(c), snap := Mine(x))).(
              vols := s.vols[c := s.vols[c].(life := Created)],
              snaps := s.snaps[x := Snap(op.snap, o, op.source, Created, 1, Some(r))],
              appVols := s.appVols[op.name := Share(Some(KeyOf(op)), MASK_ALL)])
  {
    var l, op := s.reqs[r], s.reqs[r].op;
    var s1 := JoinSnapshot(s0, s, r, x, names);
    var l1, l2 := s1.reqs[r], l.(pc := Clone, snap := Mine(x));
    var s2 := Put(s, r, l2).(snaps := s.snaps[x := Snap(op.snap, o, op.source, Created, 1, Some(r))]);
    AtSBolt(s0, s1, r, x, s2, names) by {
      Again(s, r, l1, l2);
      assert s1.snaps[x := Snap(op.snap, o, op.source, Created, 1, Some(r))] == s2.snaps;
    }
    var l3 := l.(pc := SRlRLock, tgt := Mine(c), snap := Mine(x));
    s' := Put(s, r, l3).(vols := s.vols[c := s.vols[c].(life := Created)], snaps := s2.snaps,
                         appVols := s.appVols[op.name := Share(Some(KeyOf(op)), MASK_ALL)]);
    AtClone(s0, s2, r, c, s', names) by { Again(s, r, l2, l3); }
  }

  lemma LeaveClone(s0: State, s: State, r: Req, c: nat, o: nat, x: nat, names: Names) returns (s': State)
    requires TameLeads(s0, s, names) && Quiet(s) && !s.panicked && r in s.reqs && s.reqs[r].op.CloneVolume?
    requires s.reqs[r] == InHandOf(s.reqs[r].op, o).(pc := SRlRLock, which := Source, tgt := Mine(c), snap := Mine(x))
    requires x < |s.snaps| && s.snaps[x].volume == o && s.snaps[x].life.Created? && s.snaps[x].owner == Some(r)
    requires c < |s.vols| && o < |s.vols| && c != o
    requires s.vols[c].life.Created? && s.vols[c].owner == Some(r)
    requires s.vols[o].life.Created? && s.vols[o].owner == Some(r)
    ensures TameLeads(s0, s', names) && r in s'.reqs && s'.reqs == s.reqs[r := s'.reqs[r]] && s'.reqs[r].pc.Done?
    ensures s'.appVols == s.appVols && s'.appSnaps == s.appSnaps && !s'.panicked
  {
    var s1 := ReleaseSnap(s0, s, r, x, names);
    var s2 := FastRelease(s0, s1, r, o, names);
    s' := FastRelease(s0, s2, r, c, names);
  }

  /** A clone, served by itself, puts the new volume on the appliance with its origin. */
  lemma CloneServed(s: State, t: VolName, n: VolName, k: SnapName, o: nat, x: nat, names: Names)
    returns (r: Req, s': State)
    requires CanClone(s, t, n, k, o, x) && names((n, k))
    ensures TameLeads(s, s', names) && Served(s, s', r)
    ensures s'.appVols == s.appVols[t := Share(Some((n, k)), MASK_ALL)] && s'.appSnaps == s.appSnaps
  {
    var s1, c := s, |s.vols|;
    r, s1 := PlaceClone(s, t, n, k, o, x, names);
    var s2 := TakeClone(s, s1, r, c, o, x, names);
    s' := LeaveClone(s, s2, r, c, o, x, names);
  }
}
