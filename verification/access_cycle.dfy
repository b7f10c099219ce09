/** Any cycle of clones, however long, has a run that gets all of them stuck. */
module AccessCycle {
  import opened Common
  import opened AccessModel
  import opened AccessRuns
  import opened AccessDeadlock

  // Request i clones names[i] from a snapshot of names[i + 1], the last one from names[0].
  function Next(k: nat, i: nat): nat
    requires k > 0
  {
    if i + 1 < k then i + 1 else 0
  }

  ghost predicate Distinct(names: seq<VolName>) { forall i, j | 0 <= i < j < |names| :: names[i] != names[j] }

  function CloneOp(names: seq<VolName>, snap: SnapName, i: nat): Op
    requires i < |names|
  {
    CloneVolume(names[i], names[Next(|names|, i)], snap)
  }

  // The request owns the placeholder of its target and is about to look up its source.
  function Started(names: seq<VolName>, snap: SnapName, i: nat): Local
    requires i < |names|
  {
    Local(CloneOp(names, snap, i), LkRLock, Free, Free, Source, Fresh(i), Empty, Empty, First, None)
  }

  // The request waits for the bolt of its source, which is the target of the next request.
  function Waiting(names: seq<VolName>, snap: SnapName, i: nat): Local
    requires i < |names|
  {
    Started(names, snap, i).(pc := VBolt, src := Held(Next(|names|, i)))
  }

  // The first a requests have started and the first b of them wait.
  function Stage(names: seq<VolName>, snap: SnapName, a: nat, b: nat): State
    requires a <= |names|
  {
    State(HashOf(names, a), {}, None, VolsOf(names, a, b), map[], {}, None, [], map[], {},
          ReqsOf(names, snap, a, b), false)
  }

  function HashOf(names: seq<VolName>, a: nat): map<VolName, nat>
    requires a <= |names|
  {
    map n | n in names[..a] :: IndexOf(names, n)
  }

  function VolsOf(names: seq<VolName>, a: nat, b: nat): seq<Vol>
    requires a <= |names|
  {
    seq(a, (o: nat) requires o < a => Vol(names[o], Creating, if Awaited(|names|, o, b) then 2 else 1, Some(o)))
  }

  function ReqsOf(names: seq<VolName>, snap: SnapName, a: nat, b: nat): map<Req, Local>
    requires a <= |names|
  {
    map i: nat | 0 <= i < a :: if i < b then Waiting(names, snap, i) else Started(names, snap, i)
  }

  function IndexOf(names: seq<VolName>, n: VolName): (i: nat)
    requires n in names
    ensures i < |names| && names[i] == n
  {
    if names[0] == n then 0 else 1 + IndexOf(names[1..], n)
  }

  // Some request i < b waits for object o.
  predicate Awaited(k: nat, o: nat, b: nat) { k > 0 && exists i | 0 <= i < b :: Next(k, i) == o }

  lemma {:induction false} IndexOfDistinct(names: seq<VolName>, i: nat)
    requires Distinct(names) && i < |names|
    ensures IndexOf(names, names[i]) == i
  {
    if i > 0 { IndexOfDistinct(names[1..], i - 1); }
  }

  // ---- Single steps ----

  lemma GoOnce(s: State, r: Req)
    requires Reachable(s) && Ready(s, r)
    ensures Reachable(Advance(s, r, Reply))
  {
    ReachableStep(s, Event(r, Go(Reply)), Advance(s, r, Reply));
  }

  lemma GoNwLock(s: State, r: Req)
    requires Reachable(s) && !s.panicked && s.vWriter.None? && s.vReaders == {}
    requires r in s.reqs && s.reqs[r].pc.NwLock?
    ensures Reachable(s.(reqs := s.reqs[r := s.reqs[r].(pc := NwIn, vm := Writes)], vWriter := Some(r)))
  {
    GoOnce(s, r);
  }

  lemma GoNwIn(s: State, r: Req)
    requires Reachable(s) && !s.panicked && r in s.reqs && s.reqs[r].pc.NwIn? && s.reqs[r].which.Target?
    requires CurName(s.reqs[r]) !in s.vHash
    ensures Reachable(s.(reqs := s.reqs[r := s.reqs[r].(pc := NwFresh, tgt := Fresh(|s.vols|))],
                         vHash := s.vHash[CurName(s.reqs[r]) := |s.vols|],
                         vols := s.vols + [Vol(CurName(s.reqs[r]), Creating, 1, Some(r))]))
  {
    GoOnce(s, r);
  }

  lemma GoNwFresh(s: State, r: Req)
    requires Reachable(s) && !s.panicked && r in s.reqs && s.reqs[r].pc.NwFresh? && s.reqs[r].which.Target?
    requires s.reqs[r].op.CloneVolume?
    ensures Reachable(s.(reqs := s.reqs[r := s.reqs[r].(pc := LkRLock, vm := Free, which := Source)], vWriter := None))
  {
    GoOnce(s, r);
  }

  lemma GoLkRLock(s: State, r: Req)
    requires Reachable(s) && !s.panicked && s.vWriter.None? && r in s.reqs && s.reqs[r].pc.LkRLock?
    ensures Reachable(s.(reqs := s.reqs[r := s.reqs[r].(pc := LkIn, vm := Reads)], vReaders := s.vReaders + {r}))
  {
    GoOnce(s, r);
  }

  lemma GoLkIn(s: State, r: Req, o: nat)
    requires Reachable(s) && !s.panicked && r in s.reqs && s.reqs[r].pc.LkIn? && s.reqs[r].which.Source?
    requires CurName(s.reqs[r]) in s.vHash && s.vHash[CurName(s.reqs[r])] == o && o < |s.vols|
    ensures Reachable(s.(reqs := s.reqs[r := s.reqs[r].(pc := LkHit, src := Held(o))],
                         vols := s.vols[o := s.vols[o].(refcount := s.vols[o].refcount + 1)]))
  {
    GoOnce(s, r);
  }

  lemma GoLkHit(s: State, r: Req)
    requires Reachable(s) && !s.panicked && r in s.reqs && s.reqs[r].pc.LkHit?
    ensures Reachable(s.(reqs := s.reqs[r := s.reqs[r].(pc := VBolt, vm := Free)], vReaders := s.vReaders - {r}))
  {
    GoOnce(s, r);
  }

  // ---- A clone starts ----

  lemma EnterNewVolume(s: State, r: Req, op: Op)
    requires Reachable(s) && !s.panicked && s.vWriter.None? && s.vReaders == {} && r !in s.reqs && op.CloneVolume?
    ensures Reachable(s.(reqs := s.reqs[r := InitLocal(op).(pc := NwIn, vm := Writes)], vWriter := Some(r)))
  {
    var l := InitLocal(op);
    var s1 := s.(reqs := s.reqs[r := l]);
    ReachableStep(s, Event(r, Arrive(op)), s1);
    GoNwLock(s1, r);
    assert s1.reqs[r := l.(pc := NwIn, vm := Writes)] == s.reqs[r := l.(pc := NwIn, vm := Writes)];
  }

  // Request a owns the placeholder and holds the cache mutex.
  function Placing(names: seq<VolName>, snap: SnapName, a: nat): Local
    requires a < |names|
  {
    InitLocal(CloneOp(names, snap, a)).(pc := NwFresh, vm := Writes, tgt := Fresh(a))
  }

  function PlacedStage(names: seq<VolName>, snap: SnapName, a: nat): State
    requires a < |names|
  {
    Stage(names, snap, a, 0).(
      reqs := ReqsOf(names, snap, a, 0)[a := Placing(names, snap, a)], vWriter := Some(a),
      vHash := HashOf(names, a)[names[a] := a], vols := VolsOf(names, a, 0) + [Vol(names[a], Creating, 1, Some(a))])
  }

  lemma Place(names: seq<VolName>, snap: SnapName, a: nat)
    requires Distinct(names) && a < |names| && Reachable(Stage(names, snap, a, 0))
    ensures Reachable(PlacedStage(names, snap, a))
  {
    EnterAndAdd(Stage(names, snap, a, 0), a, CloneOp(names, snap, a));
  }

  lemma EnterAndAdd(s: State, r: Req, op: Op)
    requires Reachable(s) && !s.panicked && s.vWriter.None? && s.vReaders == {} && r !in s.reqs
    requires op.CloneVolume? && VolNameOf(op, Target) !in s.vHash
    ensures var l := InitLocal(op).(pc := NwFresh, vm := Writes, tgt := Fresh(|s.vols|));
            Reachable(s.(reqs := s.reqs[r := l], vWriter := Some(r),
                         vHash := s.vHash[VolNameOf(op, Target) := |s.vols|],
                         vols := s.vols + [Vol(VolNameOf(op, Target), Creating, 1, Some(r))]))
  {
    var l := InitLocal(op).(pc := NwIn, vm := Writes);
    EnterNewVolume(s, r, op);
    var s1 := s.(reqs := s.reqs[r := l], vWriter := Some(r));
    GoNwIn(s1, r);
    var placed := l.(pc := NwFresh, tgt := Fresh(|s.vols|));
    assert s1.reqs[r := placed] == s.reqs[r := placed];
  }

  lemma Start(names: seq<VolName>, snap: SnapName, a: nat)
    requires Distinct(names) && a < |names| && Reachable(Stage(names, snap, a, 0))
    ensures Reachable(Stage(names, snap, a + 1, 0))
  {
    Place(names, snap, a);
    GoNwFresh(PlacedStage(names, snap, a), a);
    StartedHash(names, a);
    StartedVols(names, a);
    StartedReqs(names, snap, a, Placing(names, snap, a));
    assert Placing(names, snap, a).(pc := LkRLock, vm := Free, which := Source) == Started(names, snap, a);
  }

  lemma StartedHash(names: seq<VolName>, a: nat)
    requires Distinct(names) && a < |names|
    ensures HashOf(names, a)[names[a] := a] == HashOf(names, a + 1)
  {
    IndexOfDistinct(names, a);
    assert names[..a + 1] == names[..a] + [names[a]];
  }

  lemma StartedVols(names: seq<VolName>, a: nat)
    requires a < |names|
    ensures VolsOf(names, a, 0) + [Vol(names[a], Creating, 1, Some(a))] == VolsOf(names, a + 1, 0)
  {
  }

  lemma StartedReqs(names: seq<VolName>, snap: SnapName, a: nat, l: Local)
    requires a < |names|
    ensures ReqsOf(names, snap, a, 0)[a := l][a := Started(names, snap, a)] == ReqsOf(names, snap, a + 1, 0)
  {
  }

  // ---- A clone comes to wait ----

  lemma HashFinds(names: seq<VolName>, o: nat)
    requires Distinct(names) && o < |names|
    ensures names[o] in HashOf(names, |names|) && HashOf(names, |names|)[names[o]] == o
  {
    IndexOfDistinct(names, o);
    assert names[..|names|] == names;
  }

  lemma Wait(names: seq<VolName>, snap: SnapName, b: nat)
    requires Distinct(names) && b < |names| && Reachable(Stage(names, snap, |names|, b))
    ensures Reachable(Stage(names, snap, |names|, b + 1))
  {
    var s, o := Stage(names, snap, |names|, b), Next(|names|, b);
    HashFinds(names, o);
    FindAndWait(s, b, o);
    WaitingVols(names, b);
    WaitingReqs(names, snap, b);
  }

  // A request looks up its source in the cache and comes to wait for its bolt.
  lemma FindAndWait(s: State, r: Req, o: nat)
    requires Reachable(s) && !s.panicked && s.vWriter.None? && s.vReaders == {} && r in s.reqs
    requires s.reqs[r].pc.LkRLock? && s.reqs[r].which.Source? && s.reqs[r].vm.Free?
    requires CurName(s.reqs[r]) in s.vHash && s.vHash[CurName(s.reqs[r])] == o && o < |s.vols|
    ensures Reachable(s.(reqs := s.reqs[r := s.reqs[r].(pc := VBolt, src := Held(o))],
                         vols := s.vols[o := s.vols[o].(refcount := s.vols[o].refcount + 1)]))
  {
    var l := s.reqs[r];
    GoLkRLock(s, r);
    var s1 := s.(reqs := s.reqs[r := l.(pc := LkIn, vm := Reads)], vReaders := {r});
    assert s.vReaders + {r} == {r};
    GoLkIn(s1, r, o);
    var s2 := s1.(reqs := s1.reqs[r := l.(pc := LkHit, vm := Reads, src := Held(o))],
                  vols := s1.vols[o := s1.vols[o].(refcount := s1.vols[o].refcount + 1)]);
    GoLkHit(s2, r);
    assert s2.vReaders - {r} == s.vReaders;
    assert s2.reqs[r := l.(pc := VBolt, src := Held(o))] == s.reqs[r := l.(pc := VBolt, src := Held(o))];
  }

  lemma WaitingVols(names: seq<VolName>, b: nat)
    requires b < |names|
    ensures var k, o := |names|, Next(|names|, b);
            var vols := VolsOf(names, k, b);
            vols[o := vols[o].(refcount := vols[o].refcount + 1)] == VolsOf(names, k, b + 1)
  {
    var k, o := |names|, Next(|names|, b);
    forall p: nat | p < k ensures Awaited(k, p, b + 1) <==> Awaited(k, p, b) || p == o {
      if p == o { assert Next(k, b) == p; }
    }
    assert !Awaited(k, o, b);
  }

  lemma WaitingReqs(names: seq<VolName>, snap: SnapName, b: nat)
    requires b < |names|
    ensures ReqsOf(names, snap, |names|, b)[b := Waiting(names, snap, b)] == ReqsOf(names, snap, |names|, b + 1)
  {
  }

  lemma {:induction false} StartAll(names: seq<VolName>, snap: SnapName, a: nat)
    requires Distinct(names) && a <= |names|
    ensures Reachable(Stage(names, snap, a, 0))
  {
    if a == 0 {
      var s := Stage(names, snap, 0, 0);
      assert names[..0] == [];
      assert Initial(s);
      var events: seq<Event> := [];
      assert Run([s], events) && [s][|events|] == s;
    } else {
      StartAll(names, snap, a - 1);
      Start(names, snap, a - 1);
    }
  }

  lemma {:induction false} WaitAll(names: seq<VolName>, snap: SnapName, b: nat)
    requires Distinct(names) && b <= |names|
    ensures Reachable(Stage(names, snap, |names|, b))
  {
    if b == 0 {
      StartAll(names, snap, |names|);
    } else {
      WaitAll(names, snap, b - 1);
      Wait(names, snap, b - 1);
    }
  }

  /** For any cycle of volumes, each to be cloned from a snapshot of the next, a reachable state has
      all the clones of the cycle stuck. A volume cloned from a snapshot of itself is the shortest one. */
  lemma CycleDeadlocks(names: seq<VolName>, snap: SnapName)
    requires Distinct(names) && |names| > 0
    ensures exists s ::
              && Reachable(s) && Stuck(s, s.reqs.Keys)
              && (forall i: nat :: i in s.reqs <==> i < |names|)
              && (forall i: nat | i < |names| :: s.reqs[i].op == CloneOp(names, snap, i))
  {
    var s := Stage(names, snap, |names|, |names|);
    WaitAll(names, snap, |names|);
    StageStuck(names, snap);
  }

  lemma StageStuck(names: seq<VolName>, snap: SnapName)
    requires |names| > 0
    ensures var s := Stage(names, snap, |names|, |names|); Stuck(s, s.reqs.Keys)
  {
    var s := Stage(names, snap, |names|, |names|);
    forall r | r in s.reqs
      ensures VolAt(s, ObjOf(Cur(s.reqs[r]))).owner == Some(Next(|names|, r)) && Next(|names|, r) in s.reqs
    {
    }
  }
}
