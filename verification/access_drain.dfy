/** Continuations of a run: requests inside the cache mutexes can always be made to leave them. */
module AccessDrain {
  import opened Common
  import opened AccessModel
  import opened AccessProgram
  import opened AccessRuns
  import opened AccessBeliefs

  // ---- Tame continuations ----

  lemma LeadsRefl(s: State, names: Names)
    ensures TameLeads(s, s, names)
  {
    var events: seq<Event> := [];
    assert TamePath([s], events, names) && [s][0] == s && [s][|events|] == s;
  }

  lemma LeadsKeepsInv(s0: State, s: State, names: Names)
    requires Inv(s0) && TameLeads(s0, s, names)
    ensures Inv(s)
  {
    var states, events :| TamePath(states, events, names) && states[0] == s0 && states[|events|] == s;
    PathInv(states, events, |events|);
  }

  lemma LeadsKeepsSources(s0: State, s: State, names: Names)
    requires Inv(s0) && SourcesKnown(s0, names) && TameLeads(s0, s, names)
    ensures SourcesKnown(s, names)
  {
    var states, events :| TamePath(states, events, names) && states[0] == s0 && states[|events|] == s;
    PathSources(states, events, |events|, names);
  }

  lemma {:induction false} PathSources(states: seq<State>, events: seq<Event>, i: nat, names: Names)
    requires TamePath(states, events, names) && Inv(states[0]) && SourcesKnown(states[0], names) && i < |states|
    ensures SourcesKnown(states[i], names)
  {
    if i > 0 {
      PathSources(states, events, i - 1, names);
      PathInv(states, events, i - 1);
      PathStepSources(states, events, i, names);
    }
  }

  lemma PathStepSources(states: seq<State>, events: seq<Event>, i: nat, names: Names)
    requires TamePath(states, events, names) && 0 < i < |states|
    requires Inv(states[i - 1]) && SourcesKnown(states[i - 1], names)
    ensures SourcesKnown(states[i], names)
  {
    assert StepAt(states, events, i - 1) && TameAt(states, events, i - 1, names);
    StepKeepsSources(states[i - 1], events[i - 1], states[i], names);
  }

  lemma StepKeepsSources(s: State, e: Event, s': State, names: Names)
    requires Inv(s) && SourcesKnown(s, names) && Step(s, e.req, e.action, s') && TameStep(s, e, names)
    ensures SourcesKnown(s', names)
  {
    if e.action.Go? {
      MoveOk(s, e.req, e.action.ans);
      StepSources(s, e.req, Act(s, e.req, s.reqs[e.req], e.action.ans), names);
    }
  }

  lemma LeadsMore(s0: State, s: State, e: Event, s': State, names: Names)
    requires TameLeads(s0, s, names) && Step(s, e.req, e.action, s') && TameStep(s, e, names)
    ensures TameLeads(s0, s', names)
  {
    var states, events :| TamePath(states, events, names) && states[0] == s0 && states[|events|] == s;
    var states', events' := states + [s'], events + [e];
    forall i | 0 <= i < |events'| ensures StepAt(states', events', i) && TameAt(states', events', i, names) {
      if i < |events| { assert StepAt(states, events, i) && TameAt(states, events, i, names); }
    }
    assert TamePath(states', events', names) && states'[0] == s0 && states'[|events'|] == s';
  }

  lemma Tick(s0: State, s: State, r: Req, s': State, names: Names)
    requires TameLeads(s0, s, names) && Ready(s, r)
    requires TameAnswer(s, s.reqs[r], Reply, names) && s' == Advance(s, r, Reply)
    ensures TameLeads(s0, s', names)
  {
    LeadsMore(s0, s, Event(r, Go(Reply)), s', names);
  }

  // ---- Leaving the mutexes ----

  predicate Inside(l: Local) { !l.vm.Free? || !l.sm.Free? }

  // Steps to the end of the section.
  function Weight(pc: Pc): nat {
    if pc.VRlIn? || pc.VRlUnbolt? || pc.SRlIn? || pc.SRlUnbolt? then 3
    else if pc.LkIn? || pc.NwIn? || pc.SLkIn? || pc.SNwIn? || pc.VRlFastBolt? || pc.VRlDel? || pc.SRlDel? then 2
    else 1
  }

  lemma InsideRuns(s: State, r: Req, l: Local, names: Names)
    requires LocalOk(l) && Inside(l) && r in s.reqs && s.reqs[r] == l && !s.panicked
    ensures Ready(s, r) && TameAnswer(s, l, Reply, names)
  {
  }

  lemma InsideLookup(s: State, l: Local)
    requires LocalOk(l) && !l.vm.Free? && InLookupVolume(l.pc) && !LookupVolumeAct(s, l, Reply).eff.Panic?
    ensures var n := LookupVolumeAct(s, l, Reply).next; Inside(n) ==> Weight(n.pc) < Weight(l.pc)
  {
  }

  lemma InsideNew(s: State, l: Local)
    requires LocalOk(l) && !l.vm.Free? && InNewVolume(l.pc) && !NewVolumeAct(s, l).eff.Panic?
    ensures var n := NewVolumeAct(s, l).next; Inside(n) ==> Weight(n.pc) < Weight(l.pc)
  {
  }

  lemma InsideRelease(s: State, r: Req, l: Local)
    requires LocalOk(l) && !l.vm.Free? && InReleaseVolume(l.pc) && !ReleaseVolumeAct(s, r, l).eff.Panic?
    ensures var n := ReleaseVolumeAct(s, r, l).next; Inside(n) ==> Weight(n.pc) < Weight(l.pc)
  {
  }

  lemma InsideSnapLookup(s: State, l: Local)
    requires LocalOk(l) && !l.sm.Free? && InLookupSnapshot(l.pc) && !LookupSnapshotAct(s, l, Reply).eff.Panic?
    ensures var n := LookupSnapshotAct(s, l, Reply).next; Inside(n) ==> Weight(n.pc) < Weight(l.pc)
  {
  }

  lemma InsideSnapNew(s: State, l: Local)
    requires LocalOk(l) && !l.sm.Free? && InNewSnapshot(l.pc) && !NewSnapshotAct(s, l).eff.Panic?
    ensures var n := NewSnapshotAct(s, l).next; Inside(n) ==> Weight(n.pc) < Weight(l.pc)
  {
  }

  lemma InsideSnapRelease(s: State, r: Req, l: Local)
    requires LocalOk(l) && !l.sm.Free? && InReleaseSnapshot(l.pc) && !ReleaseSnapshotAct(s, r, l).eff.Panic?
    ensures var n := ReleaseSnapshotAct(s, r, l).next; Inside(n) ==> Weight(n.pc) < Weight(l.pc)
  {
  }

  lemma InsidePoints(l: Local)
    requires LocalOk(l)
    ensures !l.vm.Free? ==> InLookupVolume(l.pc) || InNewVolume(l.pc) || InReleaseVolume(l.pc)
    ensures !l.sm.Free? ==> InLookupSnapshot(l.pc) || InNewSnapshot(l.pc) || InReleaseSnapshot(l.pc)
  {
  }

  lemma InsideDescends(s: State, r: Req, l: Local)
    requires LocalOk(l) && Inside(l) && !Act(s, r, l, Reply).eff.Panic?
    ensures var n := Act(s, r, l, Reply).next; Inside(n) ==> Weight(n.pc) < Weight(l.pc)
  {
    InsidePoints(l);
    if !l.vm.Free? {
      if InLookupVolume(l.pc) { InsideLookup(s, l); }
      else if InNewVolume(l.pc) { InsideNew(s, l); }
      else { InsideRelease(s, r, l); }
    } else {
      if InLookupSnapshot(l.pc) { InsideSnapLookup(s, l); }
      else if InNewSnapshot(l.pc) { InsideSnapNew(s, l); }
      else { InsideSnapRelease(s, r, l); }
    }
  }

  lemma PanickedBy(s: State, r: Req)
    requires r in s.reqs && Act(s, r, s.reqs[r], Reply).eff.Panic?
    ensures Advance(s, r, Reply).panicked
  {
  }

  // What is to be kept survives every step of a request other than h inside a mutex.
  ghost predicate Lasting(keep: State -> bool, h: Req) {
    forall s, q :: Inv(s) && keep(s) && q != h && Ready(s, q) && Inside(s.reqs[q]) ==> Survives(s, keep, q)
  }

  predicate Survives(s: State, keep: State -> bool, q: Req)
    requires q in s.reqs
  {
    var s' := Advance(s, q, Reply);
    s'.panicked || keep(s')
  }

  /** A request inside a mutex leaves it, or the driver panics on the way. */
  lemma {:induction false} LeaveMutex(s0: State, s: State, keep: State -> bool, h: Req, q: Req, names: Names)
    returns (s': State)
    requires Lasting(keep, h) && Inv(s0) && TameLeads(s0, s, names) && keep(s) && !s.panicked
    requires q != h && q in s.reqs
    ensures TameLeads(s0, s', names)
    ensures s'.panicked || (keep(s') && q in s'.reqs && !Inside(s'.reqs[q]) && s'.reqs == s.reqs[q := s'.reqs[q]])
    decreases if Inside(s.reqs[q]) then Weight(s.reqs[q].pc) + 1 else 0
  {
    if !Inside(s.reqs[q]) {
      s' := s;
    } else {
      s' := LeaveStep(s0, s, keep, h, q, names);
      if !s'.panicked { s' := LeaveMutex(s0, s', keep, h, q, names); }
    }
  }

  lemma LeaveStep(s0: State, s: State, keep: State -> bool, h: Req, q: Req, names: Names)
    returns (s': State)
    requires Lasting(keep, h) && Inv(s0) && TameLeads(s0, s, names) && keep(s) && !s.panicked
    requires q != h && q in s.reqs && Inside(s.reqs[q])
    ensures TameLeads(s0, s', names)
    ensures s'.panicked || (keep(s') && q in s'.reqs && s'.reqs == s.reqs[q := s'.reqs[q]]
                            && (Inside(s'.reqs[q]) ==> Weight(s'.reqs[q].pc) < Weight(s.reqs[q].pc)))
  {
    var l := s.reqs[q];
    LeadsKeepsInv(s0, s, names);
    InvLocal(s, q);
    InsideRuns(s, q, l, names);
    s' := Advance(s, q, Reply);
    Tick(s0, s, q, s', names);
    assert Survives(s, keep, q);
    if Act(s, q, l, Reply).eff.Panic? { PanickedBy(s, q); } else { InsideDescends(s, q, l); }
  }

  ghost function Insiders(s: State): set<Req> { set q | q in s.reqs && Inside(s.reqs[q]) }

  // Nobody is inside a mutex.
  predicate Quiet(s: State) { s.vReaders == {} && s.vWriter.None? && s.sReaders == {} && s.sWriter.None? }

  lemma QuietWhenEmpty(s: State)
    requires Inv(s) && Insiders(s) == {}
    ensures Quiet(s)
  {
    forall q ensures q !in s.vReaders && s.vWriter != Some(q) && q !in s.sReaders && s.sWriter != Some(q) {
      assert q !in Insiders(s);
    }
  }

  /** Everybody leaves the mutexes, or the driver panics on the way. */
  lemma {:induction false} Drain(s0: State, s: State, keep: State -> bool, h: Req, names: Names)
    returns (s': State)
    requires Lasting(keep, h) && Inv(s0) && TameLeads(s0, s, names) && keep(s) && !s.panicked
    requires h in s.reqs && !Inside(s.reqs[h])
    ensures TameLeads(s0, s', names) && (s'.panicked || (keep(s') && Quiet(s')))
    decreases |Insiders(s)|
  {
    if Insiders(s) == {} {
      LeadsKeepsInv(s0, s, names);
      QuietWhenEmpty(s);
      s' := s;
    } else {
      var q :| q in Insiders(s);
      s' := LeaveMutex(s0, s, keep, h, q, names);
      if !s'.panicked {
        assert Insiders(s') == Insiders(s) - {q};
        s' := Drain(s0, s', keep, h, names);
      }
    }
  }
}
