/** Continuations of a run in which one request runs by itself while nobody is inside a mutex. */
module AccessSolo {
  import opened Common
  import opened AccessModel
  import opened AccessProgram
  import opened AccessBeliefs
  import opened AccessDrain

  function Put(s: State, r: Req, l: Local): State { s.(reqs := s.reqs[r := l]) }

  // ---- releaseVolume, step by step ----

  lemma AtVRlRLock(s0: State, s: State, r: Req, s': State, names: Names)
    requires TameLeads(s0, s, names) && !s.panicked
    requires r in s.reqs && s.reqs[r].pc.VRlRLock?
    requires s.vWriter.None?
    requires s' ==
              Put(s, r, s.reqs[r].(pc := VRlIn, vm := Reads)).(vReaders := s.vReaders + {r})
    ensures TameLeads(s0, s', names)
  {
    Tick(s0, s, r, s', names);
  }

  lemma AtVRlIn(s0: State, s: State, r: Req, o: nat, s': State, names: Names)
    requires TameLeads(s0, s, names) && !s.panicked
    requires r in s.reqs && s.reqs[r].pc.VRlIn? && Released(s.reqs[r]) == o && o < |s.vols|
    requires var l := s.reqs[r];
            var n := if s.vols[o].refcount == 1 && !s.vols[o].life.Created?
                     then Shed(l, Closing(o)).(pc := VRlSlow) else Shed(l, Parting(o)).(pc := VRlFastBolt);
            s' ==
              Put(s, r, n).(vols := s.vols[o := s.vols[o].(refcount := s.vols[o].refcount - 1)])
    ensures TameLeads(s0, s', names)
  {
    Tick(s0, s, r, s', names);
  }

  lemma AtVRlFastBolt(s0: State, s: State, r: Req, o: nat, s': State, names: Names)
    requires TameLeads(s0, s, names) && !s.panicked
    requires r in s.reqs && s.reqs[r].pc.VRlFastBolt? && Cur(s.reqs[r]) == Parting(o) && s.reqs[r].stray.None?
    requires o < |s.vols| && s.vols[o].owner == Some(r)
    requires s' ==
              Put(s, r, WithCur(s.reqs[r], Empty).(pc := VRlFast)).(vols := s.vols[o := s.vols[o].(owner := None)])
    ensures TameLeads(s0, s', names)
  {
    Tick(s0, s, r, s', names);
  }

  lemma AtVRlFast(s0: State, s: State, r: Req, s': State, names: Names)
    requires TameLeads(s0, s, names) && !s.panicked
    requires r in s.reqs && s.reqs[r].pc.VRlFast?
    requires s' == Put(s, r, AfterRelease(s.reqs[r].(vm := Free))).(vReaders := s.vReaders - {r})
    ensures TameLeads(s0, s', names)
  {
    Tick(s0, s, r, s', names);
  }

  lemma AtVRlSlow(s0: State, s: State, r: Req, s': State, names: Names)
    requires TameLeads(s0, s, names) && !s.panicked
    requires r in s.reqs && s.reqs[r].pc.VRlSlow?
    requires s' == Put(s, r, s.reqs[r].(pc := VRlSlowLock, vm := Free)).(vReaders := s.vReaders - {r})
    ensures TameLeads(s0, s', names)
  {
    Tick(s0, s, r, s', names);
  }

  lemma AtVRlSlowLock(s0: State, s: State, r: Req, s': State, names: Names)
    requires TameLeads(s0, s, names) && !s.panicked
    requires r in s.reqs && s.reqs[r].pc.VRlSlowLock?
    requires s.vWriter.None? && s.vReaders == {}
    requires s' == Put(s, r, s.reqs[r].(pc := VRlUnbolt, vm := Writes)).(vWriter := Some(r))
    ensures TameLeads(s0, s', names)
  {
    Tick(s0, s, r, s', names);
  }

  lemma AtVRlUnbolt(s0: State, s: State, r: Req, o: nat, s': State, names: Names)
    requires TameLeads(s0, s, names) && !s.panicked
    requires r in s.reqs && s.reqs[r].pc.VRlUnbolt? && Cur(s.reqs[r]) == Closing(o) && s.reqs[r].stray.None?
    requires o < |s.vols| && s.vols[o].owner == Some(r)
    requires s' ==
              Put(s, r, WithCur(s.reqs[r], Leaving(o)).(pc := VRlDel)).(vols := s.vols[o := s.vols[o].(owner := None)])
    ensures TameLeads(s0, s', names)
  {
    Tick(s0, s, r, s', names);
  }

  lemma AtVRlDel(s0: State, s: State, r: Req, o: nat, s': State, names: Names)
    requires TameLeads(s0, s, names) && !s.panicked
    requires r in s.reqs && s.reqs[r].pc.VRlDel? && Cur(s.reqs[r]) == Leaving(o) && s.reqs[r].stray.None?
    requires o < |s.vols| && s.vols[o].refcount == 0 && !s.vols[o].life.Created?
    requires s' ==
              Put(s, r, WithCur(s.reqs[r], Empty).(pc := VRlSlowDone)).(vHash := HashDelete(s.vHash, s.vols[o].name))
    ensures TameLeads(s0, s', names)
  {
    Tick(s0, s, r, s', names);
  }

  lemma AtVRlSlowDone(s0: State, s: State, r: Req, s': State, names: Names)
    requires TameLeads(s0, s, names) && !s.panicked
    requires r in s.reqs && s.reqs[r].pc.VRlSlowDone?
    requires s' == Put(s, r, AfterRelease(s.reqs[r].(vm := Free))).(vWriter := None)
    ensures TameLeads(s0, s', names)
  {
    Tick(s0, s, r, s', names);
  }

  // r is about to release volume o, alone.
  predicate AboutToRelease(s: State, r: Req, o: nat) {
    && Quiet(s) && !s.panicked
    && r in s.reqs && s.reqs[r].pc.VRlRLock? && s.reqs[r].stray.None? && s.reqs[r].vm.Free?
    && Acquired(Cur(s.reqs[r])) && Cur(s.reqs[r]).o == o
    && o < |s.vols| && s.vols[o].owner == Some(r)
  }

  /** A volume that others wait for, or that is in stateCreated, is released and stays in the cache. */
  lemma FastRelease(s0: State, s: State, r: Req, o: nat, names: Names) returns (s': State)
    requires TameLeads(s0, s, names) && AboutToRelease(s, r, o)
    requires s.vols[o].refcount != 1 || s.vols[o].life.Created?
    ensures TameLeads(s0, s', names)
    ensures s' == Put(s, r, AfterRelease(WithCur(s.reqs[r], Empty).(pc := VRlFast))).(
              vols := s.vols[o := s.vols[o].(refcount := s.vols[o].refcount - 1, owner := None)])
  {
    var v := s.vols[o].(refcount := s.vols[o].refcount - 1);
    var l2 := WithCur(s.reqs[r], Parting(o)).(pc := VRlFastBolt, vm := Reads);
    var s2 := FastStart(s0, s, r, o, names);
    s' := FastEnd(s0, s, s2, r, o, v, names);
    assert WithCur(l2, Empty).(pc := VRlFast, vm := Free) == WithCur(s.reqs[r], Empty).(pc := VRlFast);
  }

  lemma FastStart(s0: State, s: State, r: Req, o: nat, names: Names) returns (s': State)
    requires TameLeads(s0, s, names) && AboutToRelease(s, r, o)
    requires s.vols[o].refcount != 1 || s.vols[o].life.Created?
    ensures TameLeads(s0, s', names)
    ensures s' == Put(s, r, WithCur(s.reqs[r], Parting(o)).(pc := VRlFastBolt, vm := Reads)).(
              vReaders := {r}, vols := s.vols[o := s.vols[o].(refcount := s.vols[o].refcount - 1)])
  {
    var l := s.reqs[r];
    var l1 := l.(pc := VRlIn, vm := Reads);
    var s1 := Put(s, r, l1).(vReaders := {r});
    AtVRlRLock(s0, s, r, s1, names) by { assert s.vReaders + {r} == {r}; }
    var l2 := WithCur(l, Parting(o)).(pc := VRlFastBolt, vm := Reads);
    s' := Put(s, r, l2).(vReaders := {r}, vols := s.vols[o := s.vols[o].(refcount := s.vols[o].refcount - 1)]);
    AtVRlIn(s0, s1, r, o, s', names) by { Again(s, r, l1, l2); }
  }

  lemma Again(s: State, r: Req, a: Local, b: Local)
    ensures s.reqs[r := a][r := b] == s.reqs[r := b]
  {
  }

  lemma FastEnd(s0: State, s: State, s2: State, r: Req, o: nat, v: Vol, names: Names) returns (s': State)
    requires TameLeads(s0, s2, names) && Quiet(s) && !s.panicked
    requires r in s2.reqs && o < |s.vols| && v.owner == Some(r)
    requires s2 == Put(s, r, s2.reqs[r]).(vReaders := {r}, vols := s.vols[o := v])
    requires s2.reqs[r].pc.VRlFastBolt? && Cur(s2.reqs[r]) == Parting(o) && s2.reqs[r].stray.None?
    ensures TameLeads(s0, s', names)
    ensures s' == Put(s, r, AfterRelease(WithCur(s2.reqs[r], Empty).(pc := VRlFast, vm := Free))).(
              vols := s.vols[o := v.(owner := None)])
  {
    var l2 := s2.reqs[r];
    var l3 := WithCur(l2, Empty).(pc := VRlFast);
    var s3 := Put(s, r, l3).(vReaders := {r}, vols := s.vols[o := v.(owner := None)]);
    AtVRlFastBolt(s0, s2, r, o, s3, names) by {
      Again(s, r, l2, l3);
      assert s.vols[o := v][o := v.(owner := None)] == s.vols[o := v.(owner := None)];
    }
    var l4 := AfterRelease(l3.(vm := Free));
    s' := Put(s, r, l4).(vols := s.vols[o := v.(owner := None)]);
    AtVRlFast(s0, s3, r, s', names) by { Again(s, r, l3, l4); assert {r} - {r} == s.vReaders; }
  }

  /** The last reference to a volume that is not in stateCreated: the volume leaves the cache. */
  lemma SlowRelease(s0: State, s: State, r: Req, o: nat, names: Names) returns (s': State)
    requires TameLeads(s0, s, names) && AboutToRelease(s, r, o)
    requires s.vols[o].refcount == 1 && !s.vols[o].life.Created?
    ensures TameLeads(s0, s', names)
    ensures s' == Put(s, r, AfterRelease(WithCur(s.reqs[r], Empty).(pc := VRlSlowDone))).(
              vols := s.vols[o := s.vols[o].(refcount := 0, owner := None)],
              vHash := HashDelete(s.vHash, s.vols[o].name))
  {
    var l, v := s.reqs[r], s.vols[o].(refcount := 0);
    var l1 := l.(pc := VRlIn, vm := Reads);
    var s1 := Put(s, r, l1).(vReaders := {r});
    AtVRlRLock(s0, s, r, s1, names) by { assert s.vReaders + {r} == {r}; }
    var l2 := WithCur(l1, Closing(o)).(pc := VRlSlow);
    var s2 := Put(s, r, l2).(vReaders := {r}, vols := s.vols[o := v]);
    AtVRlIn(s0, s1, r, o, s2, names) by { Again(s, r, l1, l2); }
    var l3 := l2.(pc := VRlSlowLock, vm := Free);
    var s3 := Put(s, r, l3).(vols := s.vols[o := v]);
    AtVRlSlow(s0, s2, r, s3, names) by { Again(s, r, l2, l3); assert {r} - {r} == s.vReaders; }
    s' := SlowEnd(s0, s, s3, r, o, v, names);
  }

  lemma SlowEnd(s0: State, s: State, s3: State, r: Req, o: nat, v: Vol, names: Names) returns (s': State)
    requires TameLeads(s0, s3, names) && Quiet(s) && !s.panicked && r in s3.reqs && o < |s.vols|
    requires v.owner == Some(r) && v.refcount == 0 && !v.life.Created?
    requires s3 == Put(s, r, s3.reqs[r]).(vols := s.vols[o := v])
    requires s3.reqs[r].pc.VRlSlowLock? && Cur(s3.reqs[r]) == Closing(o) && s3.reqs[r].stray.None?
    ensures TameLeads(s0, s', names)
    ensures s' == Put(s, r, AfterRelease(WithCur(s3.reqs[r], Empty).(pc := VRlSlowDone, vm := Free))).(
              vols := s.vols[o := v.(owner := None)], vHash := HashDelete(s.vHash, v.name))
  {
    var l3, w := s3.reqs[r], v.(owner := None);
    var l4 := l3.(pc := VRlUnbolt, vm := Writes);
    var s4 := Put(s, r, l4).(vols := s.vols[o := v], vWriter := Some(r));
    AtVRlSlowLock(s0, s3, r, s4, names) by { Again(s, r, l3, l4); }
    var l5 := WithCur(l4, Leaving(o)).(pc := VRlDel);
    var s5 := Put(s, r, l5).(vols := s.vols[o := w], vWriter := Some(r));
    AtVRlUnbolt(s0, s4, r, o, s5, names) by { Again(s, r, l4, l5); assert s.vols[o := v][o := w] == s.vols[o := w]; }
    s' := Removal(s0, s, s5, r, o, w, names);
    assert WithCur(l5, Empty).(pc := VRlSlowDone, vm := Free) == WithCur(l3, Empty).(pc := VRlSlowDone, vm := Free);
  }

  lemma Removal(s0: State, s: State, s5: State, r: Req, o: nat, w: Vol, names: Names) returns (s': State)
    requires TameLeads(s0, s5, names) && Quiet(s) && !s.panicked && r in s5.reqs && o < |s.vols|
    requires w.refcount == 0 && !w.life.Created?
    requires s5 == Put(s, r, s5.reqs[r]).(vols := s.vols[o := w], vWriter := Some(r))
    requires s5.reqs[r].pc.VRlDel? && Cur(s5.reqs[r]) == Leaving(o) && s5.reqs[r].stray.None?
    ensures TameLeads(s0, s', names)
    ensures s' == Put(s, r, AfterRelease(WithCur(s5.reqs[r], Empty).(pc := VRlSlowDone, vm := Free))).(
              vols := s.vols[o := w], vHash := HashDelete(s.vHash, w.name))
  {
    var l5 := s5.reqs[r];
    var l6 := WithCur(l5, Empty).(pc := VRlSlowDone);
    var s6 := Put(s, r, l6).(vols := s.vols[o := w], vWriter := Some(r), vHash := HashDelete(s.vHash, w.name));
    AtVRlDel(s0, s5, r, o, s6, names) by { Again(s, r, l5, l6); }
    var l7 := AfterRelease(l6.(vm := Free));
    s' := Put(s, r, l7).(vols := s.vols[o := w], vHash := HashDelete(s.vHash, w.name));
    AtVRlSlowDone(s0, s6, r, s', names) by { Again(s, r, l6, l7); }
  }

  // ---- newVolume and lookupVolume, step by step ----

  lemma AtNwLock(s0: State, s: State, r: Req, s': State, names: Names)
    requires TameLeads(s0, s, names) && !s.panicked
    requires r in s.reqs && s.reqs[r].pc.NwLock?
    requires s.vWriter.None? && s.vReaders == {}
    requires s' == Put(s, r, s.reqs[r].(pc := NwIn, vm := Writes)).(vWriter := Some(r))
    ensures TameLeads(s0, s', names)
  {
    Tick(s0, s, r, s', names);
  }

  lemma AtNwIn(s0: State, s: State, r: Req, s': State, names: Names)
    requires TameLeads(s0, s, names) && !s.panicked
    requires r in s.reqs && s.reqs[r].pc.NwIn? && CurName(s.reqs[r]) !in s.vHash
    requires var n := CurName(s.reqs[r]);
            s' == Put(s, r, WithCur(s.reqs[r], Fresh(|s.vols|)).(pc := NwFresh)).(
              vHash := s.vHash[n := |s.vols|], vols := s.vols + [Vol(n, Creating, 1, Some(r))])
    ensures TameLeads(s0, s', names)
  {
    Tick(s0, s, r, s', names);
  }

  lemma AtNwFresh(s0: State, s: State, r: Req, s': State, names: Names)
    requires TameLeads(s0, s, names) && !s.panicked
    requires r in s.reqs && s.reqs[r].pc.NwFresh?
    requires var l := s.reqs[r].(vm := Free);
            s' ==
              Put(s, r, if l.which.Target? then GoOn(l) else l.(pc := Details)).(vWriter := None)
    ensures TameLeads(s0, s', names)
  {
    Tick(s0, s, r, s', names);
  }

  lemma AtLkRLock(s0: State, s: State, r: Req, s': State, names: Names)
    requires TameLeads(s0, s, names) && !s.panicked
    requires r in s.reqs && s.reqs[r].pc.LkRLock?
    requires s.vWriter.None?
    requires s' == Put(s, r, s.reqs[r].(pc := LkIn, vm := Reads)).(vReaders := s.vReaders + {r})
    ensures TameLeads(s0, s', names)
  {
    Tick(s0, s, r, s', names);
  }

  lemma AtLkInHit(s0: State, s: State, r: Req, o: nat, s': State, names: Names)
    requires TameLeads(s0, s, names) && !s.panicked
    requires r in s.reqs && s.reqs[r].pc.LkIn? && CurName(s.reqs[r]) in s.vHash && s.vHash[CurName(s.reqs[r])] == o
    requires o < |s.vols|
    requires s' == Put(s, r, WithCur(s.reqs[r], Held(o)).(pc := LkHit)).(
              vols := s.vols[o := s.vols[o].(refcount := s.vols[o].refcount + 1)])
    ensures TameLeads(s0, s', names)
  {
    Tick(s0, s, r, s', names);
  }

  lemma AtLkInMiss(s0: State, s: State, r: Req, s': State, names: Names)
    requires TameLeads(s0, s, names) && !s.panicked
    requires r in s.reqs && s.reqs[r].pc.LkIn? && CurName(s.reqs[r]) !in s.vHash
    requires s' == Put(s, r, s.reqs[r].(pc := LkMiss))
    ensures TameLeads(s0, s', names)
  {
    Tick(s0, s, r, s', names);
  }

  lemma AtLkHit(s0: State, s: State, r: Req, s': State, names: Names)
    requires TameLeads(s0, s, names) && !s.panicked
    requires r in s.reqs && s.reqs[r].pc.LkHit?
    requires s' == Put(s, r, s.reqs[r].(pc := VBolt, vm := Free)).(vReaders := s.vReaders - {r})
    ensures TameLeads(s0, s', names)
  {
    Tick(s0, s, r, s', names);
  }

  lemma AtLkMiss(s0: State, s: State, r: Req, s': State, names: Names)
    requires TameLeads(s0, s, names) && !s.panicked
    requires r in s.reqs && s.reqs[r].pc.LkMiss?
    requires s' == Put(s, r, s.reqs[r].(pc := NwLock, vm := Free)).(vReaders := s.vReaders - {r})
    ensures TameLeads(s0, s', names)
  {
    Tick(s0, s, r, s', names);
  }

  lemma AtVBolt(s0: State, s: State, r: Req, o: nat, s': State, names: Names)
    requires TameLeads(s0, s, names) && !s.panicked
    requires r in s.reqs && s.reqs[r].pc.VBolt? && Cur(s.reqs[r]) == Held(o) && o < |s.vols|
    requires s.vols[o].owner.None?
    requires var n := if s.vols[o].life.Created? then GoOn(WithCur(s.reqs[r], Mine(o)))
                     else WithCur(s.reqs[r], Spent(o)).(pc := VRlRLock);
            s' == Put(s, r, n).(vols := s.vols[o := s.vols[o].(owner := Some(r))])
    ensures TameLeads(s0, s', names)
  {
    Tick(s0, s, r, s', names);
  }

  lemma AtDetails(s0: State, s: State, r: Req, o: nat, s': State, names: Names)
    requires TameLeads(s0, s, names) && !s.panicked
    requires r in s.reqs && s.reqs[r].pc.Details? && s.reqs[r].src == Fresh(o) && s.reqs[r].which.Source?
    requires o < |s.vols| && CurName(s.reqs[r]) in s.appVols
    requires s' == Put(s, r, GoOn(s.reqs[r].(src := Mine(o)))).(
              vols := s.vols[o := s.vols[o].(life := Created)])
    ensures TameLeads(s0, s', names)
  {
    Tick(s0, s, r, s', names);
  }

  lemma AtCreate(s0: State, s: State, r: Req, o: nat, s': State, names: Names)
    requires TameLeads(s0, s, names) && !s.panicked
    requires r in s.reqs && s.reqs[r].pc.Create? && s.reqs[r].tgt == Fresh(o) && s.reqs[r].which.Target?
    requires o < |s.vols| && CurName(s.reqs[r]) !in s.appVols
    requires s' == Put(s, r, s.reqs[r].(pc := VRlRLock, tgt := Mine(o))).(
              vols := s.vols[o := s.vols[o].(life := Created)],
              appVols := s.appVols[CurName(s.reqs[r]) := Share(None, MASK_ALL)])
    ensures TameLeads(s0, s', names)
  {
    Tick(s0, s, r, s', names);
  }

  // ---- releaseSnapshot and deletion, step by step ----

  lemma AtSRlRLock(s0: State, s: State, r: Req, s': State, names: Names)
    requires TameLeads(s0, s, names) && !s.panicked
    requires r in s.reqs && s.reqs[r].pc.SRlRLock? && s.reqs[r].stray.None?
    requires SnapAt(s, ObjOf(s.reqs[r].snap)).volume == ObjOf(s.reqs[r].src)
    requires s.sWriter.None?
    requires s' == Put(s, r, s.reqs[r].(pc := SRlIn, sm := Reads)).(sReaders := s.sReaders + {r})
    ensures TameLeads(s0, s', names)
  {
    Tick(s0, s, r, s', names);
  }

  lemma AtSRlIn(s0: State, s: State, r: Req, x: nat, s': State, names: Names)
    requires TameLeads(s0, s, names) && !s.panicked
    requires r in s.reqs && s.reqs[r].pc.SRlIn? && s.reqs[r].snap == Mine(x)
    requires x < |s.snaps| && s.snaps[x].life.Created?
    requires s' == Put(s, r, s.reqs[r].(pc := SRlFast, snap := Parting(x))).(
              snaps := s.snaps[x := s.snaps[x].(refcount := s.snaps[x].refcount - 1)])
    ensures TameLeads(s0, s', names)
  {
    Tick(s0, s, r, s', names);
  }

  lemma AtSRlFast(s0: State, s: State, r: Req, s': State, names: Names)
    requires TameLeads(s0, s, names) && !s.panicked
    requires r in s.reqs && s.reqs[r].pc.SRlFast?
    requires s' == Put(s, r, s.reqs[r].(pc := SRlFastBolt, sm := Free)).(sReaders := s.sReaders - {r})
    ensures TameLeads(s0, s', names)
  {
    Tick(s0, s, r, s', names);
  }

  lemma AtSRlFastBolt(s0: State, s: State, r: Req, x: nat, s': State, names: Names)
    requires TameLeads(s0, s, names) && !s.panicked
    requires r in s.reqs && s.reqs[r].pc.SRlFastBolt? && s.reqs[r].snap == Parting(x)
    requires x < |s.snaps| && s.snaps[x].owner == Some(r)
    requires s' == Put(s, r, s.reqs[r].(pc := VRlRLock, snap := Empty)).(
              snaps := s.snaps[x := s.snaps[x].(owner := None)])
    ensures TameLeads(s0, s', names)
  {
    Tick(s0, s, r, s', names);
  }

  lemma AtDelList(s0: State, s: State, r: Req, s': State, names: Names)
    requires TameLeads(s0, s, names) && !s.panicked
    requires r in s.reqs && s.reqs[r].pc.DelList?
    requires CurName(s.reqs[r]) in s.appVols && NoSnapshots(s, CurName(s.reqs[r]))
    requires s' == Put(s, r, s.reqs[r].(pc := DelGo))
    ensures TameLeads(s0, s', names)
  {
    Tick(s0, s, r, s', names);
  }

  lemma AtDelGo(s0: State, s: State, r: Req, o: nat, s': State, names: Names)
    requires TameLeads(s0, s, names) && !s.panicked
    requires r in s.reqs && s.reqs[r].pc.DelGo? && s.reqs[r].which.Source? && s.reqs[r].src == Mine(o) && o < |s.vols|
    requires s' == Put(s, r, s.reqs[r].(pc := VRlRLock, src := Spent(o))).(
              vols := s.vols[o := s.vols[o].(life := Deleted)], appVols := HashDelete(s.appVols, CurName(s.reqs[r])))
    ensures TameLeads(s0, s', names)
  {
    Tick(s0, s, r, s', names);
  }

  /** A snapshot in stateCreated is released and stays in the cache. */
  lemma ReleaseSnap(s0: State, s: State, r: Req, x: nat, names: Names) returns (s': State)
    requires TameLeads(s0, s, names) && Quiet(s) && !s.panicked
    requires r in s.reqs && s.reqs[r].pc.SRlRLock? && s.reqs[r].stray.None? && s.reqs[r].sm.Free?
    requires s.reqs[r].snap == Mine(x) && x < |s.snaps| && s.snaps[x].volume == ObjOf(s.reqs[r].src)
    requires s.snaps[x].life.Created? && s.snaps[x].owner == Some(r)
    ensures TameLeads(s0, s', names)
    ensures s' == Put(s, r, s.reqs[r].(pc := VRlRLock, snap := Empty)).(
              snaps := s.snaps[x := s.snaps[x].(refcount := s.snaps[x].refcount - 1, owner := None)])
  {
    var l, y := s.reqs[r], s.snaps[x].(refcount := s.snaps[x].refcount - 1);
    var l1 := l.(pc := SRlIn, sm := Reads);
    var s1 := Put(s, r, l1).(sReaders := {r});
    AtSRlRLock(s0, s, r, s1, names) by { assert s.sReaders + {r} == {r}; }
    var l2 := l1.(pc := SRlFast, snap := Parting(x));
    var s2 := Put(s, r, l2).(sReaders := {r}, snaps := s.snaps[x := y]);
    AtSRlIn(s0, s1, r, x, s2, names) by { Again(s, r, l1, l2); }
    s' := ReleaseSnapEnd(s0, s, s2, r, x, y, names);
    assert l2.(pc := VRlRLock, snap := Empty, sm := Free) == l.(pc := VRlRLock, snap := Empty);
  }

  lemma ReleaseSnapEnd(s0: State, s: State, s2: State, r: Req, x: nat, y: Snap, names: Names)
    returns (s': State)
    requires TameLeads(s0, s2, names) && Quiet(s) && !s.panicked
    requires r in s2.reqs && x < |s.snaps| && y.owner == Some(r)
    requires s2 == Put(s, r, s2.reqs[r]).(sReaders := {r}, snaps := s.snaps[x := y])
    requires s2.reqs[r].pc.SRlFast? && s2.reqs[r].snap == Parting(x)
    ensures TameLeads(s0, s', names)
    ensures s' == Put(s, r, s2.reqs[r].(pc := VRlRLock, snap := Empty, sm := Free)).(
              snaps := s.snaps[x := y.(owner := None)])
  {
    var l2 := s2.reqs[r];
    var l3 := l2.(pc := SRlFastBolt, sm := Free);
    var s3 := Put(s, r, l3).(snaps := s.snaps[x := y]);
    AtSRlFast(s0, s2, r, s3, names) by { Again(s, r, l2, l3); assert {r} - {r} == s.sReaders; }
    var l4 := l3.(pc := VRlRLock, snap := Empty);
    s' := Put(s, r, l4).(snaps := s.snaps[x := y.(owner := None)]);
    AtSRlFastBolt(s0, s3, r, x, s', names) by {
      Again(s, r, l3, l4);
      assert s.snaps[x := y][x := y.(owner := None)] == s.snaps[x := y.(owner := None)];
    }
  }

  // ---- newSnapshot, step by step ----

  lemma AtSNwLock(s0: State, s: State, r: Req, s': State, names: Names)
    requires TameLeads(s0, s, names) && !s.panicked
    requires r in s.reqs && s.reqs[r].pc.SNwLock?
    requires s.sWriter.None? && s.sReaders == {}
    requires s' == Put(s, r, s.reqs[r].(pc := SNwIn, sm := Writes)).(sWriter := Some(r))
    ensures TameLeads(s0, s', names)
  {
    Tick(s0, s, r, s', names);
  }

  lemma AtSNwInNew(s0: State, s: State, r: Req, k: SnapName, n: VolName, o: nat, s': State, names: Names)
    requires TameLeads(s0, s, names) && !s.panicked
    requires r in s.reqs && s.reqs[r].pc.SNwIn? && NeedsSnap(s.reqs[r].op) && KeyOf(s.reqs[r].op) == (n, k)
    requires k !in s.sHash && s.reqs[r].src == Mine(o)
    requires s' == Put(s, r, s.reqs[r].(pc := SNwFresh, snap := Placed(|s.snaps|))).(
              sHash := s.sHash[k := |s.snaps|], snaps := s.snaps + [Snap(k, o, n, Creating, 1, None)])
    ensures TameLeads(s0, s', names)
  {
    Tick(s0, s, r, s', names);
  }

  lemma AtSNwInHit(s0: State, s: State, r: Req, k: SnapName, n: VolName, x: nat, s': State, names: Names)
    requires TameLeads(s0, s, names) && !s.panicked
    requires r in s.reqs && s.reqs[r].pc.SNwIn? && s.reqs[r].op == CreateSnapshot(n, k)
    requires k in s.sHash && s.sHash[k] == x && x < |s.snaps| && s.snaps[x].source == n
    requires s' == Put(s, r, s.reqs[r].(pc := SNwHit, snap := Held(x))).(
              snaps := s.snaps[x := s.snaps[x].(refcount := s.snaps[x].refcount + 1)])
    ensures TameLeads(s0, s', names)
  {
    Tick(s0, s, r, s', names);
  }

  lemma AtSNwHit(s0: State, s: State, r: Req, s': State, names: Names)
    requires TameLeads(s0, s, names) && !s.panicked
    requires r in s.reqs && s.reqs[r].pc.SNwHit?
    requires s' == Put(s, r, s.reqs[r].(pc := SBolt, sm := Free)).(sWriter := None)
    ensures TameLeads(s0, s', names)
  {
    Tick(s0, s, r, s', names);
  }

  lemma AtSNwFresh(s0: State, s: State, r: Req, s': State, names: Names)
    requires TameLeads(s0, s, names) && !s.panicked
    requires r in s.reqs && s.reqs[r].pc.SNwFresh?
    requires s' == Put(s, r, s.reqs[r].(pc := SBoltFresh, sm := Free)).(sWriter := None)
    ensures TameLeads(s0, s', names)
  {
    Tick(s0, s, r, s', names);
  }

  lemma AtSBolt(s0: State, s: State, r: Req, x: nat, s': State, names: Names)
    requires TameLeads(s0, s, names) && !s.panicked
    requires r in s.reqs && s.reqs[r].pc.SBolt? && s.reqs[r].snap == Held(x)
    requires x < |s.snaps| && s.snaps[x].life.Created?
    requires s.snaps[x].owner.None?
    requires s' == Put(s, r, s.reqs[r].(pc := AfterSnap(s.reqs[r].op), snap := Mine(x))).(
              snaps := s.snaps[x := s.snaps[x].(owner := Some(r))])
    ensures TameLeads(s0, s', names)
  {
    Tick(s0, s, r, s', names);
  }

  // Success, or 409, for a snapshot object in stateCreated.
  lemma AtSCreate(s0: State, s: State, r: Req, k: SnapName, n: VolName, x: nat, s': State, names: Names)
    requires TameLeads(s0, s, names) && !s.panicked
    requires r in s.reqs && s.reqs[r].pc.SCreate? && s.reqs[r].op == CreateSnapshot(n, k) && s.reqs[r].snap == Mine(x)
    requires x < |s.snaps| && s.snaps[x].life.Created? && n in s.appVols
    requires s' == Put(s, r, s.reqs[r].(pc := SRlRLock)).(appSnaps := s.appSnaps + {(n, k)})
    ensures TameLeads(s0, s', names)
  {
    assert s.snaps[x := s.snaps[x].(life := Created)] == s.snaps;
    if (n, k) in s.appSnaps { assert s.appSnaps + {(n, k)} == s.appSnaps; }
    Tick(s0, s, r, s', names);
  }

  lemma AtSRlRLockStray(s0: State, s: State, r: Req, o: nat, s': State, names: Names)
    requires TameLeads(s0, s, names) && !s.panicked
    requires r in s.reqs && s.reqs[r].pc.SRlRLock? && SnapAt(s, ObjOf(s.reqs[r].snap)).volume == o
    requires o != ObjOf(s.reqs[r].src)
    requires s.sWriter.None?
    requires s' ==
              Put(s, r, s.reqs[r].(pc := SRlIn, sm := Reads, stray := Some(o))).(sReaders := s.sReaders + {r})
    ensures TameLeads(s0, s', names)
  {
    Tick(s0, s, r, s', names);
  }

  // ---- A request arrives and runs by itself ----

  lemma ArriveNew(s0: State, s: State, op: Op, names: Names) returns (r: Req, s': State)
    requires TameLeads(s0, s, names) && !s.panicked
    requires Listed(s, op) && (NeedsSnap(op) ==> names(KeyOf(op)))
    ensures r !in s.reqs && s' == Put(s, r, InitLocal(op)) && TameLeads(s0, s', names)
  {
    r := Unused(s.reqs.Keys);
    s' := Put(s, r, InitLocal(op));
    LeadsMore(s0, s, Event(r, Arrive(op)), s', names);
  }

  // The request looks up one volume, and names the source that is known for its snapshot.
  predicate Plain(op: Op, names: Names) {
    NeedsSource(op) && !NeedsTarget(op) && !op.RefreshSnapshot? && (NeedsSnap(op) ==> names(KeyOf(op)))
  }

  function InHandOf(op: Op, o: nat): Local { GoOn(InitLocal(op).(src := Mine(o))) }

  // lookupVolume for a cached volume in stateCreated that nobody owns.
  lemma HitVolume(s0: State, s: State, r: Req, o: nat, names: Names) returns (s': State)
    requires TameLeads(s0, s, names) && Quiet(s) && !s.panicked
    requires r in s.reqs && s.reqs[r].pc.LkRLock? && s.reqs[r].which.Source? && s.reqs[r].vm.Free?
    requires CurName(s.reqs[r]) in s.vHash && s.vHash[CurName(s.reqs[r])] == o
    requires o < |s.vols| && s.vols[o].life.Created? && s.vols[o].owner.None?
    ensures TameLeads(s0, s', names)
    ensures s' == Put(s, r, GoOn(s.reqs[r].(src := Mine(o)))).(
              vols := s.vols[o := s.vols[o].(refcount := s.vols[o].refcount + 1, owner := Some(r))])
  {
    var l, v := s.reqs[r], s.vols[o].(refcount := s.vols[o].refcount + 1);
    var l1 := l.(pc := LkIn, vm := Reads);
    var s1 := Put(s, r, l1).(vReaders := {r});
    AtLkRLock(s0, s, r, s1, names) by { assert s.vReaders + {r} == {r}; }
    var l2 := l1.(pc := LkHit, src := Held(o));
    var s2 := Put(s, r, l2).(vReaders := {r}, vols := s.vols[o := v]);
    AtLkInHit(s0, s1, r, o, s2, names) by { Again(s, r, l1, l2); }
    var l3 := l.(pc := VBolt, src := Held(o));
    var s3 := Put(s, r, l3).(vols := s.vols[o := v]);
    AtLkHit(s0, s2, r, s3, names) by { Again(s, r, l2, l3); assert {r} - {r} == s.vReaders; }
    s' := TakeHit(s0, s, s3, r, o, v, names);
    assert GoOn(l3.(src := Mine(o))) == GoOn(l.(src := Mine(o)));
  }

  lemma TakeHit(s0: State, s: State, s3: State, r: Req, o: nat, v: Vol, names: Names) returns (s': State)
    requires TameLeads(s0, s3, names) && !s.panicked && o < |s.vols| && v.life.Created? && v.owner.None?
    requires r in s3.reqs && s3 == Put(s, r, s3.reqs[r]).(vols := s.vols[o := v])
    requires s3.reqs[r].pc.VBolt? && s3.reqs[r].which.Source? && s3.reqs[r].src == Held(o)
    ensures TameLeads(s0, s', names)
    ensures s' == Put(s, r, GoOn(s3.reqs[r].(src := Mine(o)))).(vols := s.vols[o := v.(owner := Some(r))])
  {
    var l := GoOn(s3.reqs[r].(src := Mine(o)));
    s' := Put(s, r, l).(vols := s.vols[o := v.(owner := Some(r))]);
    AtVBolt(s0, s3, r, o, s', names) by {
      Again(s, r, s3.reqs[r], l);
      assert s.vols[o := v][o := v.(owner := Some(r))] == s.vols[o := v.(owner := Some(r))];
    }
  }

  lemma LookupHit(s0: State, s: State, op: Op, o: nat, names: Names) returns (r: Req, s': State)
    requires TameLeads(s0, s, names) && Quiet(s) && !s.panicked && Plain(op, names)
    requires VolNameOf(op, Source) in s.vHash && s.vHash[VolNameOf(op, Source)] == o
    requires o < |s.vols| && s.vols[o].life.Created? && s.vols[o].owner.None?
    ensures TameLeads(s0, s', names) && r !in s.reqs
    ensures s' == Put(s, r, InHandOf(op, o)).(
              vols := s.vols[o := s.vols[o].(refcount := s.vols[o].refcount + 1, owner := Some(r))])
  {
    var s1 := s;
    r, s1 := ArriveNew(s0, s, op, names);
    s' := HitVolume(s0, s1, r, o, names);
    Again(s, r, InitLocal(op), InHandOf(op, o));
  }

  lemma ToNwLock(s0: State, s: State, op: Op, names: Names) returns (r: Req, s': State)
    requires TameLeads(s0, s, names) && Quiet(s)
    requires !s.panicked && Plain(op, names) && VolNameOf(op, Source) !in s.vHash
    ensures TameLeads(s0, s', names) && r !in s.reqs && s' == Put(s, r, InitLocal(op).(pc := NwLock))
  {
    var s1, l0 := s, InitLocal(op);
    r, s1 := ArriveNew(s0, s, op, names);
    var l2 := l0.(pc := LkIn, vm := Reads);
    var s2 := Put(s, r, l2).(vReaders := {r});
    AtLkRLock(s0, s1, r, s2, names) by { Again(s, r, l0, l2); assert s.vReaders + {r} == {r}; }
    var l3 := l2.(pc := LkMiss);
    var s3 := Put(s, r, l3).(vReaders := {r});
    AtLkInMiss(s0, s2, r, s3, names) by { Again(s, r, l2, l3); }
    var l4 := l0.(pc := NwLock);
    s' := Put(s, r, l4);
    AtLkMiss(s0, s3, r, s', names) by { Again(s, r, l3, l4); assert {r} - {r} == s.vReaders; }
  }

  // newVolume for a name that is not cached, up to leaving the cache.
  lemma Place(s0: State, s: State, s1: State, r: Req, names: Names) returns (s': State)
    requires TameLeads(s0, s1, names) && Quiet(s) && !s.panicked && r in s1.reqs && s1 == Put(s, r, s1.reqs[r])
    requires s1.reqs[r].pc.NwLock? && s1.reqs[r].vm.Free? && CurName(s1.reqs[r]) !in s.vHash
    ensures var l, n := WithCur(s1.reqs[r], Fresh(|s.vols|)), CurName(s1.reqs[r]);
            TameLeads(s0, s', names)
            && s' == Put(s, r, if l.which.Target? then GoOn(l) else l.(pc := Details)).(
                 vHash := s.vHash[n := |s.vols|], vols := s.vols + [Vol(n, Creating, 1, Some(r))])
  {
    var l1, n := s1.reqs[r], CurName(s1.reqs[r]);
    var l2 := l1.(pc := NwIn, vm := Writes);
    var s2 := Put(s, r, l2).(vWriter := Some(r));
    AtNwLock(s0, s1, r, s2, names) by { Again(s, r, l1, l2); }
    var l3 := WithCur(l2, Fresh(|s.vols|)).(pc := NwFresh);
    var s3 := Put(s, r, l3).(vWriter := Some(r), vHash := s.vHash[n := |s.vols|],
                             vols := s.vols + [Vol(n, Creating, 1, Some(r))]);
    AtNwIn(s0, s2, r, s3, names) by { Again(s, r, l2, l3); }
    var l := WithCur(l1, Fresh(|s.vols|));
    var l4 := if l.which.Target? then GoOn(l) else l.(pc := Details);
    s' := Put(s, r, l4).(vHash := s3.vHash, vols := s3.vols);
    AtNwFresh(s0, s3, r, s', names) by { Again(s, r, l3, l4); }
  }

  lemma LookupMiss(s0: State, s: State, op: Op, names: Names) returns (r: Req, s': State)
    requires TameLeads(s0, s, names) && Quiet(s) && !s.panicked && Plain(op, names)
    requires VolNameOf(op, Source) !in s.vHash && VolNameOf(op, Source) in s.appVols
    ensures TameLeads(s0, s', names) && r !in s.reqs
    ensures var n := VolNameOf(op, Source);
            s' == Put(s, r, InHandOf(op, |s.vols|)).(
              vHash := s.vHash[n := |s.vols|], vols := s.vols + [Vol(n, Created, 1, Some(r))])
  {
    var s1, o, n := s, |s.vols|, VolNameOf(op, Source);
    r, s1 := ToNwLock(s0, s, op, names);
    var s2 := Place(s0, s, s1, r, names);
    var l2, l3 := s2.reqs[r], InHandOf(op, o);
    s' := Put(s, r, l3).(vHash := s.vHash[n := o], vols := s.vols + [Vol(n, Created, 1, Some(r))]);
    AtDetails(s0, s2, r, o, s', names) by {
      Again(s, r, l2, l3);
      assert s2.vols[o := s2.vols[o].(life := Created)] == s'.vols;
    }
  }

  /** A volume that neither the cache nor the appliance knows can be created. */
  // The creation itself, answered, once the volume is in the cache.
  lemma CreatePlaced(s0: State, s: State, s1: State, r: Req, names: Names) returns (s': State)
    requires TameLeads(s0, s1, names) && !s.panicked && r in s1.reqs && s1.reqs[r].op.CreateVolume?
    requires var l, n := s1.reqs[r], s1.reqs[r].op.name;
             && l == InitLocal(l.op).(pc := Create, tgt := Fresh(|s.vols|)) && n !in s.appVols
             && s1 == Put(s, r, l).(vHash := s.vHash[n := |s.vols|],
                                    vols := s.vols + [Vol(n, Creating, 1, Some(r))])
    ensures var l, n := s1.reqs[r], s1.reqs[r].op.name;
            TameLeads(s0, s', names)
            && s' == Put(s, r, l.(pc := VRlRLock, tgt := Mine(|s.vols|))).(
                 vHash := s1.vHash, vols := s.vols + [Vol(n, Created, 1, Some(r))],
                 appVols := s.appVols[n := Share(None, MASK_ALL)])
  {
    var l, n, o := s1.reqs[r], s1.reqs[r].op.name, |s.vols|;
    var l' := l.(pc := VRlRLock, tgt := Mine(o));
    s' := Put(s, r, l').(vHash := s1.vHash, vols := s.vols + [Vol(n, Created, 1, Some(r))],
                         appVols := s.appVols[n := Share(None, MASK_ALL)]);
    AtCreate(s0, s1, r, o, s', names) by {
      Again(s, r, l, l');
      assert s1.vols[o := s1.vols[o].(life := Created)] == s'.vols;
    }
  }

  lemma CreateAnew(s0: State, s: State, n: VolName, names: Names) returns (r: Req, s': State)
    requires TameLeads(s0, s, names) && Quiet(s) && !s.panicked && n !in s.vHash && n !in s.appVols
    ensures TameLeads(s0, s', names) && r !in s.reqs && r in s'.reqs && s'.reqs[r].pc.Done?
    ensures s' == Put(s, r, s'.reqs[r]).(
              vHash := s.vHash[n := |s.vols|], vols := s.vols + [Vol(n, Created, 0, None)],
              appVols := s.appVols[n := Share(None, MASK_ALL)])
  {
    var s1, o := s, |s.vols|;
    r, s1 := ArriveNew(s0, s, CreateVolume(n), names);
    var s2 := Place(s0, s, s1, r, names);
    s1 := CreatePlaced(s0, s, s2, r, names);
    s' := FastRelease(s0, s1, r, o, names);
    assert s1.vols[o := Vol(n, Created, 0, None)] == s.vols + [Vol(n, Created, 0, None)];
    Again(s, r, s1.reqs[r], s'.reqs[r]);
  }

  /** A cached volume without owner and without snapshots is deleted, up to its release. */
  lemma DeleteCached(s0: State, s: State, n: VolName, o: nat, names: Names) returns (r: Req, s': State)
    requires TameLeads(s0, s, names) && Quiet(s) && !s.panicked && n in s.appVols && NoSnapshots(s, n)
    requires n in s.vHash && s.vHash[n] == o && o < |s.vols| && s.vols[o].life.Created? && s.vols[o].owner.None?
    ensures TameLeads(s0, s', names) && r !in s.reqs
    ensures s' == Put(s, r, InHandOf(DeleteVolume(n, false), o).(pc := VRlRLock, src := Spent(o))).(
              vols := s.vols[o := s.vols[o].(refcount := s.vols[o].refcount + 1, owner := Some(r), life := Deleted)],
              appVols := HashDelete(s.appVols, n))
  {
    var s1, op := s, DeleteVolume(n, false);
    r, s1 := LookupHit(s0, s, op, o, names);
    var l1, v := InHandOf(op, o), s.vols[o].(refcount := s.vols[o].refcount + 1, owner := Some(r));
    var l2 := l1.(pc := DelGo);
    var s2 := Put(s, r, l2).(vols := s.vols[o := v]);
    AtDelList(s0, s1, r, s2, names) by { Again(s, r, l1, l2); }
    var l3 := l2.(pc := VRlRLock, src := Spent(o));
    s' := Put(s, r, l3).(vols := s.vols[o := v.(life := Deleted)], appVols := HashDelete(s.appVols, n));
    AtDelGo(s0, s2, r, o, s', names) by {
      Again(s, r, l2, l3);
      assert s.vols[o := v][o := v.(life := Deleted)] == s.vols[o := v.(life := Deleted)];
    }
  }
}
