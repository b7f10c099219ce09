/** Runs that get the driver to panic: the situations in which one lost or failed answer, or one source
    that differs, is enough come about in the course of ordinary requests. */
module AccessWitnesses {
  import opened Common
  import opened AccessModel
  import opened AccessDrain
  import opened AccessSolo
  import opened AccessDeletion
  import opened AccessService
  import opened AccessBeliefs
  import opened AccessPanics

  // An appliance with volumes and nothing else, and a driver that has not served any request.
  function Holding(names: set<VolName>): State {
    State(map[], {}, None, [], map[], {}, None, [], map n | n in names :: Share(None, MASK_ALL), {}, map[], false)
  }

  // Requests name snapshots of volume n only.
  function NamesOf(n: VolName): Names { (p: SnapKey) => p.0 == n }

  // ---- Disagreement on the source ----

  lemma AskForOther(s0: State, s: State, m: VolName, k: SnapName, names: Names)
    requires TameLeads(s0, s, names) && Quiet(s) && !s.panicked && m !in s.vHash && m in s.appVols && names((m, k))
    requires k in s.sHash && SnapAt(s, s.sHash[k]).volume < |s.vols|
    ensures CanPanicAt(s0, SLkIn, names)
  {
    var q, s1 := LookupMiss(s0, s, GetSnapshot(m, k), names);
    FinalPanic(s0, s1, q, m, k, |s.vols|, names);
  }

  lemma DisagreementPanics(n: VolName, m: VolName, k: SnapName, names: Names)
    requires n != m && names((n, k)) && names((m, k))
    ensures CanPanicAt(Holding({n, m}), SLkIn, names)
  {
    var s0 := Holding({n, m});
    LeadsRefl(s0, names);
    var r, s1 := LookupMiss(s0, s0, CreateSnapshot(n, k), names);
    var s2 := CacheNew(s0, s1, r, k, n, 0, names);
    AskForOther(s0, s2, m, k, names);
  }

  /** Tame runs in which requests name given snapshots can panic if and only if two of these snapshots have
      the same name and different sources. */
  lemma SourcesDisagreeExactly(names: Names)
    ensures (exists s :: TameReachable(s, names) && s.panicked) <==> !Functional(names)
  {
    if Functional(names) {
      forall s | TameReachable(s, names) ensures !s.panicked { NoPanic(s, names); }
    } else {
      var p, q :| names(p) && names(q) && p.1 == q.1 && p != q;
      var s0 := Holding({p.0, q.0});
      DisagreementPanics(p.0, q.0, p.1, names);
      LookupPanicPanics(s0, names);
      var s :| TameLeads(s0, s, names) && s.panicked;
      assert Initial(s0);
      assert TameReachable(s, names);
    }
  }

  // ---- A snapshot is created ----

  // Snapshot k of volume n is the only one on the appliance, and both are cached and idle.
  predicate Taken(s: State, k: SnapName, n: VolName) {
    && Quiet(s) && !s.panicked && n in s.appVols && s.appSnaps == {(n, k)} && NoClones(s, (n, k))
    && s.vHash == map[n := 0] && s.vols == [Vol(n, Created, 0, None)]
    && s.sHash == map[k := 0] && s.snaps == [Snap(k, 0, n, Created, 0, None)]
  }

  /** Any snapshot of any volume can be taken. */
  lemma SnapshotTaken(n: VolName, k: SnapName) returns (s: State)
    ensures TameReachable(s, NamesOf(n)) && Taken(s, k, n)
  {
    var of, s0, op := NamesOf(n), Holding({n}), CreateSnapshot(n, k);
    assert Initial(s0);
    LeadsRefl(s0, of);
    var r, s1 := LookupMiss(s0, s0, op, of);
    var s2 := CacheNew(s0, s1, r, k, n, 0, of);
    assert s2.reqs[r] == InHandOf(op, 0).(pc := SBoltFresh, snap := Placed(0));
    var s3 := TakeNew(s0, s2, r, k, n, 0, 0, of);
    s := LeaveTaken(s0, s3, r, k, n, of);
  }

  lemma LeaveTaken(s0: State, s: State, r: Req, k: SnapName, n: VolName, names: Names) returns (s': State)
    requires TameLeads(s0, s, names) && Quiet(s) && !s.panicked && n in s.appVols
    requires s.appSnaps == {(n, k)} && NoClones(s, (n, k)) && s.vHash == map[n := 0] && s.sHash == map[k := 0]
    requires r in s.reqs && s.reqs[r] == InHandOf(CreateSnapshot(n, k), 0).(pc := SRlRLock, snap := Mine(0))
    requires s.vols == [Vol(n, Created, 1, Some(r))] && s.snaps == [Snap(k, 0, n, Created, 1, Some(r))]
    ensures TameLeads(s0, s', names) && Taken(s', k, n)
  {
    var s1 := ReleaseSnap(s0, s, r, 0, names);
    s' := FastRelease(s0, s1, r, 0, names);
  }

  // ---- What can happen next ----

  lemma JoinBolt(s0: State, s: State, r: Req, n: VolName, o: nat, names: Names) returns (s': State)
    requires TameLeads(s0, s, names) && !s.panicked && r in s.reqs
    requires s.reqs[r] == InitLocal(CreateVolume(n)).(pc := VBolt, tgt := Held(o))
    requires o < |s.vols| && s.vols[o].life.Created? && s.vols[o].owner.None?
    ensures TameLeads(s0, s', names) && Ready(s', r)
    ensures s'.reqs[r].pc.Create? && s'.reqs[r].tgt.Mine? && s'.reqs[r].op == s.reqs[r].op
    ensures s'.sHash == s.sHash && s'.snaps == s.snaps && (Quiet(s) ==> Quiet(s'))
  {
    s' := Put(s, r, GoOn(WithCur(s.reqs[r], Mine(o)))).(vols := s.vols[o := s.vols[o].(owner := Some(r))]);
    AtVBolt(s0, s, r, o, s', names);
  }

  /** A volume is created again, as far as the call to the appliance, while a snapshot of it is cached. If
      this call fails, both panics can follow. */
  lemma FailedRetryPanics(n: VolName, k: SnapName, ans: Answer) returns (s: State, r: Req)
    requires !ans.Reply?
    ensures var of := NamesOf(n);
            TameReachable(s, of) && Ready(s, r) && s.reqs[r].pc.Create? && CanPanicTwice(Advance(s, r, ans), of)
  {
    var of := NamesOf(n);
    var s1 := SnapshotTaken(n, k);
    var s0 :| Initial(s0) && TameLeads(s0, s1, of);
    var s2 := s1;
    r, s2 := JoinVolume(s0, s1, n, 0, of);
    s := JoinBolt(s0, s2, r, n, 0, of);
    assert k in s.sHash && SnapAt(s, s.sHash[k]).source == n;
    FailedCreationPanicsExactly(s, r, ans, of);
  }

  /** A LUN is deleted, as far as the list of its snapshots, while its snapshot is cached. If no entry of
      the list is understood, both panics can follow. */
  lemma UnreadListPanics(n: VolName, k: SnapName) returns (s: State, r: Req)
    ensures var of := NamesOf(n);
            TameReachable(s, of) && Ready(s, r) && Unread(s.reqs[r], Lost) && CanPanicTwice(Advance(s, r, Lost), of)
  {
    var of := NamesOf(n);
    var s1 := SnapshotTaken(n, k);
    var s0 :| Initial(s0) && TameLeads(s0, s1, of);
    s := s1;
    r, s := LookupHit(s0, s1, DeleteVolume(n, true), 0, of);
    assert k in s.sHash && SnapAt(s, s.sHash[k]).source == n;
    BlindDeletionPanicsExactly(s, r, of);
  }

  // ---- A snapshot is deleted ----

  lemma ToDeletion(s0: State, s: State, r: Req, op: Op, x: nat, o: nat, names: Names) returns (s': State)
    requires TameLeads(s0, s, names) && Quiet(s) && !s.panicked && op.DeleteSnapshot?
    requires r in s.reqs && s.reqs[r] == InHandOf(op, o).(pc := SBolt, snap := Held(x))
    requires x < |s.snaps| && s.snaps[x].life.Created? && s.snaps[x].owner.None?
    requires KeyOf(op) in s.appSnaps && NoClones(s, KeyOf(op))
    ensures TameLeads(s0, s', names) && Quiet(s') && Ready(s', r) && s'.reqs[r].pc.SDelGo? && s'.reqs[r].op == op
    ensures s'.appVols == s.appVols && s'.appSnaps == s.appSnaps
  {
    var l := s.reqs[r];
    var l1 := l.(pc := SDelInfo, snap := Mine(x));
    var s1 := Put(s, r, l1).(snaps := s.snaps[x := s.snaps[x].(owner := Some(r))]);
    AtSBolt(s0, s, r, x, s1, names);
    s' := Put(s, r, l1.(pc := SDelGo)).(snaps := s1.snaps);
    AtSDelInfo(s0, s1, r, s', names) by { Again(s, r, l1, l1.(pc := SDelGo)); }
  }

  lemma GetToDeletion(s0: State, s: State, k: SnapName, n: VolName, names: Names) returns (r: Req, s': State)
    requires TameLeads(s0, s, names) && Taken(s, k, n) && names((n, k))
    ensures TameLeads(s0, s', names) && Quiet(s') && Ready(s', r) && s'.reqs[r].pc.SDelGo?
    ensures s'.reqs[r].op == DeleteSnapshot(n, k) && s'.appSnaps == {(n, k)}
  {
    var s1, op := s, DeleteSnapshot(n, k);
    r, s1 := LookupHit(s0, s, op, 0, names);
    var s2 := JoinSnapshot(s0, s1, r, 0, names);
    s' := ToDeletion(s0, s2, r, op, 0, 0, names);
  }

  /** A snapshot is deleted, as far as the call to the appliance. If this call takes effect and its answer
      is lost, both panics can follow. */
  lemma LostDeletionPanics(n: VolName, k: SnapName) returns (s: State, r: Req)
    ensures var of := NamesOf(n);
            TameReachable(s, of) && Ready(s, r) && s.reqs[r].pc.SDelGo? && CanPanicTwice(Advance(s, r, Lost), of)
  {
    var of := NamesOf(n);
    var s1 := SnapshotTaken(n, k);
    var s0 :| Initial(s0) && TameLeads(s0, s1, of);
    s := s1;
    r, s := GetToDeletion(s0, s1, k, n, of);
    DriftPanicsExactly(s, r, Lost, of);
  }

  // ---- A list is fetched, and a snapshot in it deleted ----

  lemma RefreshArrives(s0: State, s: State, k: SnapName, n: VolName, names: Names) returns (r: Req, s': State)
    requires TameLeads(s0, s, names) && Taken(s, k, n) && names((n, k))
    ensures TameLeads(s0, s', names) && r !in s.reqs && s' == Put(s, r, InitLocal(RefreshSnapshot(n, k)))
  {
    s' := s;
    r, s' := ArriveNew(s0, s, RefreshSnapshot(n, k), names);
  }

  lemma RefreshGoesOn(s0: State, s: State, r: Req, k: SnapName, n: VolName, names: Names) returns (s': State)
    requires TameLeads(s0, s, names) && Quiet(s) && !s.panicked && s.appSnaps == {} && k !in s.sHash
    requires r in s.reqs && s.reqs[r] == InitLocal(RefreshSnapshot(n, k))
    requires n in s.vHash && s.vHash[n] == 0 && |s.vols| > 0 && s.vols[0].life.Created? && s.vols[0].owner.None?
    ensures TameLeads(s0, s', names) && Quiet(s') && Ready(s', r) && s'.appSnaps == {}
    ensures s'.reqs[r].pc.SRefresh? && s'.reqs[r].op == RefreshSnapshot(n, k)
  {
    var s1 := HitVolume(s0, s, r, 0, names);
    var s2 := CacheNew(s0, s1, r, k, n, 0, names);
    var x := |s.snaps|;
    s' := Put(s2, r, s2.reqs[r].(pc := SRefresh, snap := Fresh(x))).(
      snaps := s2.snaps[x := s2.snaps[x].(owner := Some(r))]);
    AtSBoltFresh(s0, s2, r, x, s', names);
  }

  lemma RefreshOvertaken(s0: State, s: State, k: SnapName, n: VolName, names: Names) returns (r: Req, s': State)
    requires TameLeads(s0, s, names) && Taken(s, k, n) && names((n, k))
    ensures TameLeads(s0, s', names) && Quiet(s') && Ready(s', r) && s'.appSnaps == {}
    ensures s'.reqs[r].pc.SRefresh? && s'.reqs[r].op == RefreshSnapshot(n, k)
  {
    var s1 := s;
    r, s1 := RefreshArrives(s0, s, k, n, names);
    var q, s2 := DeleteKnown(s0, s1, k, n, 0, 0, names);
    s' := RefreshGoesOn(s0, s2, r, k, n, names);
  }

  /** A snapshot is listed, deleted, and then taken up from that list, as far as putting it into stateCreated.
      If it is put into stateCreated, both panics can follow, although no call fails and no answer is lost. */
  lemma LateRefreshPanics(n: VolName, k: SnapName) returns (s: State, r: Req)
    ensures var of := NamesOf(n);
            TameReachable(s, of) && Ready(s, r) && s.reqs[r].pc.SRefresh? && CanPanicTwice(Advance(s, r, Reply), of)
  {
    var of := NamesOf(n);
    var s1 := SnapshotTaken(n, k);
    var s0 :| Initial(s0) && TameLeads(s0, s1, of);
    s := s1;
    r, s := RefreshOvertaken(s0, s1, k, n, of);
    DriftPanicsExactly(s, r, Reply, of);
  }
}
