/**
  Deadlock: if the clones in flight can be ordered so that every source comes before its target, no
  request waits for ever; if they form a cycle, a run exists in which the whole cycle is stuck.
 */
module AccessDeadlock {
  import opened Common
  import opened AccessModel
  import opened AccessProgram
  import opened AccessVolumes
  import opened AccessRuns
  import opened AccessTheorems
  import opened AccessHistories

  /** Ready, with readers giving way to writers that already wait, as sync.RWMutex has it. */
  predicate StrictReady(s: State, r: Req) {
    && Ready(s, r)
    && (WantsVRead(s.reqs[r].pc) ==> forall q <- s.reqs :: !WantsVWrite(s.reqs[q].pc))
    && (WantsSRead(s.reqs[r].pc) ==> forall q <- s.reqs :: !WantsSWrite(s.reqs[q].pc))
  }

  /** r cannot go on before q does. */
  predicate WaitsFor(s: State, r: Req, q: Req)
    requires r in s.reqs
  {
    var pc := s.reqs[r].pc;
    && q in s.reqs
    && ((pc.VBolt? && VolAt(s, ObjOf(Cur(s.reqs[r]))).owner == Some(q))
        || (WantsVRead(pc) && (s.vWriter == Some(q) || WantsVWrite(s.reqs[q].pc)))
        || (WantsVWrite(pc) && (s.vWriter == Some(q) || q in s.vReaders))
        || (WantsSRead(pc) && (s.sWriter == Some(q) || WantsSWrite(s.reqs[q].pc)))
        || (WantsSWrite(pc) && (s.sWriter == Some(q) || q in s.sReaders)))
  }

  /** The clones in flight respect an order in which sources come before targets, and no request has
      leaked its bolts. */
  ghost predicate Ordered(s: State, order: VolName -> nat) {
    forall r <- s.reqs ::
      && !s.reqs[r].pc.Leaked?
      && (s.reqs[r].op.CloneVolume? && !s.reqs[r].pc.Done? ==> order(s.reqs[r].op.source) < order(s.reqs[r].op.name))
  }

  function Level(l: Local, order: VolName -> nat): nat {
    if l.pc.VBolt? then 3 + order(CurName(l))
    else if WantsVRead(l.pc) || WantsSRead(l.pc) then 2
    else if WantsVWrite(l.pc) || WantsSWrite(l.pc) then 1
    else 0
  }

  /** No request waits for anything while it holds a cache mutex. */
  lemma MutexHoldersRun(l: Local, order: VolName -> nat)
    requires LocalOk(l) && (!l.vm.Free? || !l.sm.Free?)
    ensures Level(l, order) == 0 && !Finished(l.pc)
  {
  }

  lemma ReachableOwner(s: State, o: nat)
    requires Reachable(s) && o < |s.vols| && s.vols[o].owner.Some?
    ensures s.vols[o].owner.value in s.reqs && OwnsVol(s.reqs[s.vols[o].owner.value], o)
  {
    ReachableInv(s);
  }

  lemma ReachableMutexes(s: State, q: Req)
    requires Reachable(s)
    ensures s.vWriter == Some(q) || q in s.vReaders ==> q in s.reqs && !s.reqs[q].vm.Free?
    ensures s.sWriter == Some(q) || q in s.sReaders ==> q in s.reqs && !s.reqs[q].sm.Free?
    ensures s.vWriter.Some? ==> s.vWriter.value in s.reqs
    ensures s.sWriter.Some? ==> s.sWriter.value in s.reqs
  {
    ReachableInv(s);
  }

  lemma FinishedOwnsNothing(l: Local, o: nat)
    requires LocalOk(l) && l.pc.Done?
    ensures !OwnsVol(l, o)
  {
  }

  /** A bolt's owner that waits for a bolt itself is a clone that owns its target and waits for its source. */
  lemma WaitingOwner(l: Local, o: nat)
    requires LocalOk(l) && OwnsVol(l, o) && l.pc.VBolt?
    ensures l.op.CloneVolume? && l.which.Source? && l.tgt.o == o && Owning(l.tgt)
  {
  }

  lemma AwaitedObject(s: State, r: Req)
    requires Reachable(s) && r in s.reqs && s.reqs[r].pc.VBolt?
    ensures ObjOf(Cur(s.reqs[r])) < |s.vols| && s.vols[ObjOf(Cur(s.reqs[r]))].name == CurName(s.reqs[r])
  {
    ReachableLocal(s, r);
    ReachableSlot(s, r, s.reqs[r].which);
  }

  lemma BoltWaitDescends(s: State, r: Req, q: Req, order: VolName -> nat)
    requires Reachable(s) && Ordered(s, order) && r in s.reqs && q in s.reqs && s.reqs[r].pc.VBolt?
    requires VolAt(s, ObjOf(Cur(s.reqs[r]))).owner == Some(q)
    ensures Level(s.reqs[q], order) < Level(s.reqs[r], order) && !Finished(s.reqs[q].pc)
  {
    var o := ObjOf(Cur(s.reqs[r]));
    AwaitedObject(s, r);
    ReachableLocal(s, q);
    ReachableOwner(s, o);
    if s.reqs[q].pc.Done? { FinishedOwnsNothing(s.reqs[q], o); }
    if s.reqs[q].pc.VBolt? {
      WaitingOwner(s.reqs[q], o);
      ReachableSlot(s, q, Target);
    }
  }

  /** The waits-for relation over bolts and cache mutexes is acyclic: every wait leads to a request of
      a lower level, which is not finished. */
  lemma WaitsDescend(s: State, r: Req, q: Req, order: VolName -> nat)
    requires Reachable(s) && Ordered(s, order) && r in s.reqs && WaitsFor(s, r, q)
    ensures Level(s.reqs[q], order) < Level(s.reqs[r], order) && !Finished(s.reqs[q].pc)
  {
    ReachableMutexes(s, q);
    ReachableLocal(s, q);
    if !s.reqs[q].vm.Free? || !s.reqs[q].sm.Free? { MutexHoldersRun(s.reqs[q], order); }
    if s.reqs[r].pc.VBolt? { BoltWaitDescends(s, r, q, order); }
  }

  /** A request that can neither go on nor has finished waits for another request. */
  lemma BlockedWaits(s: State, r: Req) returns (q: Req)
    requires Reachable(s) && !s.panicked && r in s.reqs && !Finished(s.reqs[r].pc) && !StrictReady(s, r)
    ensures WaitsFor(s, r, q)
  {
    var pc := s.reqs[r].pc;
    if pc.SBolt? || pc.SBoltFresh? { SnapshotBoltFree(s, r); }
    if pc.VBolt? {
      var o := ObjOf(Cur(s.reqs[r]));
      AwaitedObject(s, r);
      ReachableOwner(s, o);
      q := s.vols[o].owner.value;
    } else if s.vWriter.Some? && (WantsVRead(pc) || WantsVWrite(pc)) {
      q := s.vWriter.value;
      ReachableMutexes(s, q);
    } else if s.sWriter.Some? && (WantsSRead(pc) || WantsSWrite(pc)) {
      q := s.sWriter.value;
      ReachableMutexes(s, q);
    } else if WantsVWrite(pc) {
      q :| q in s.vReaders;
      ReachableMutexes(s, q);
    } else if WantsSWrite(pc) {
      q :| q in s.sReaders;
      ReachableMutexes(s, q);
    } else if WantsVRead(pc) {
      q :| q in s.reqs && WantsVWrite(s.reqs[q].pc);
    } else {
      q :| q in s.reqs && WantsSWrite(s.reqs[q].pc);
    }
  }

  /** path leads from r along waits to a request that can go on. */
  ghost predicate LeadsToRunner(s: State, path: seq<Req>, r: Req) {
    && |path| > 0 && path[0] == r
    && (forall i | 0 <= i < |path| :: path[i] in s.reqs)
    && (forall i | 0 <= i < |path| - 1 :: WaitsFor(s, path[i], path[i + 1]))
    && StrictReady(s, path[|path| - 1])
  }

  /** Deadlock freedom: in every reachable state, every unfinished request either can go on or waits,
      directly or through others, for a request that can. */
  lemma {:induction false} NoDeadlock(s: State, r: Req, order: VolName -> nat) returns (path: seq<Req>)
    requires Reachable(s) && !s.panicked && Ordered(s, order)
    requires r in s.reqs && !Finished(s.reqs[r].pc)
    ensures LeadsToRunner(s, path, r)
    decreases Level(s.reqs[r], order)
  {
    if StrictReady(s, r) {
      path := [r];
    } else {
      var q := BlockedWaits(s, r);
      WaitsDescend(s, r, q, order);
      var rest := NoDeadlock(s, q, order);
      path := [r] + rest;
      forall i | 0 <= i < |path| - 1 ensures WaitsFor(s, path[i], path[i + 1]) {
        if i > 0 { assert WaitsFor(s, rest[i - 1], rest[i]); }
      }
    }
  }

  // ---- Cycles of clones ----

  /** Every request of the group waits for a volume bolt owned by a request of the group. */
  ghost predicate Stuck(s: State, group: set<Req>) {
    group <= s.reqs.Keys && forall r {:trigger StuckIn(s, r, group)} | r in group :: StuckIn(s, r, group)
  }

  predicate StuckIn(s: State, r: Req, group: set<Req>) {
    && r in s.reqs && s.reqs[r].pc.VBolt?
    && VolAt(s, ObjOf(Cur(s.reqs[r]))).owner.Some?
    && VolAt(s, ObjOf(Cur(s.reqs[r]))).owner.value in group
  }

  lemma OthersStay(s: State, e: Event, s': State, r: Req)
    requires Step(s, e.req, e.action, s') && r in s.reqs && !Ready(s, r)
    ensures r in s'.reqs && s'.reqs[r] == s.reqs[r]
  {
    if e.action.Go? { assert s'.reqs == s.reqs[e.req := s'.reqs[e.req]]; }
  }

  lemma StuckStep(s: State, e: Event, s': State, group: set<Req>)
    requires Reachable(s) && Reachable(s') && Step(s, e.req, e.action, s') && Stuck(s, group)
    ensures Stuck(s', group) && forall r <- group :: s'.reqs[r] == s.reqs[r]
  {
    forall r | r in group ensures r in s'.reqs && s'.reqs[r] == s.reqs[r] {
      assert StuckIn(s, r, group);
      OthersStay(s, e, s', r);
    }
    forall r | r in group ensures VolAt(s', ObjOf(Cur(s'.reqs[r]))).owner == VolAt(s, ObjOf(Cur(s.reqs[r]))).owner {
      var o := ObjOf(Cur(s.reqs[r]));
      assert StuckIn(s, r, group);
      AwaitedObject(s, r);
      StuckOwner(s, s', o, VolAt(s, o).owner.value);
    }
    forall r | r in group ensures StuckIn(s', r, group) {
      assert StuckIn(s, r, group);
    }
  }

  lemma StuckOwner(s: State, s': State, o: nat, q: Req)
    requires Reachable(s) && Reachable(s') && o < |s.vols| && s.vols[o].owner == Some(q)
    requires q in s.reqs && q in s'.reqs && s'.reqs[q] == s.reqs[q]
    ensures VolAt(s', o).owner == Some(q)
  {
    ReachableOwner(s, o);
    ReachableSlot(s', q, Target);
    ReachableSlot(s', q, Source);
  }

  ghost predicate StuckAt(states: seq<State>, i: nat, group: set<Req>) {
    i < |states| && Stuck(states[i], group)
  }

  lemma RunStuck(states: seq<State>, events: seq<Event>, i: nat, group: set<Req>)
    requires Run(states, events) && 0 < i < |states| && StuckAt(states, i - 1, group)
    ensures StuckAt(states, i, group)
  {
    RunStep(states, events, i - 1);
    RunReachable(states, events, i);
    StuckStep(states[i - 1], events[i - 1], states[i], group);
  }

  /** A stuck group stays stuck whatever happens: it is deadlocked. */
  lemma {:induction false} StuckForever(states: seq<State>, events: seq<Event>, i: nat, j: nat, group: set<Req>)
    requires Run(states, events) && i <= j < |states| && StuckAt(states, i, group)
    ensures StuckAt(states, j, group)
    decreases j
  {
    if i < j {
      StuckForever(states, events, i, j - 1, group);
      RunStuck(states, events, j, group);
    }
  }
}
