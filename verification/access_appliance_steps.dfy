/** Every operation keeps the checks made before a call valid, and the content of the appliance consistent. */
module AccessApplianceSteps {
  import opened AccessModel
  import opened AccessProgram
  import opened AccessVolumes
  import opened AccessSnapshots
  import opened AccessSnapshotSteps

  ghost predicate AppReady(s: State, r: Req, m: Move) {
    && r in s.reqs
    && TidyInv(s) && SlotsInv(s)
    && Contract(s, s.reqs[r], m) && AppContract(s, s.reqs[r], m)
  }

  // ---- What a step does to the appliance ----

  predicate VolsChange(s: State, l: Local, app: map<VolName, Share>) {
    app == s.appVols || Grows(s, l, app) || (l.src.Mine? && (SetsGroup(s, l, app) || Drops(s, l, app)))
  }

  predicate SnapsChange(s: State, l: Local, app: set<SnapKey>) {
    || app == s.appSnaps
    || (l.src.Mine? && KeyOf(l.op).0 in s.appVols && app == s.appSnaps + {KeyOf(l.op)})
    || (l.src.Mine? && l.pc.SDelGo? && app == s.appSnaps - {KeyOf(l.op)})
  }

  lemma ActChanges(s: State, r: Req, m: Move)
    requires r in s.reqs && Tidy(s.reqs[r]) && Contract(s, s.reqs[r], m) && AppContract(s, s.reqs[r], m)
    requires m.eff.VAct? || m.eff.AppAct? || m.eff.SAct? || m.eff.AppSnapAct?
    ensures var s', l := Perform(s, r, m), s.reqs[r];
            && VolsChange(s, l, s'.appVols) && SnapsChange(s, l, s'.appSnaps)
            && (s'.appVols == s.appVols || s'.appSnaps == s.appSnaps)
            && (l.pc.Clone? && s'.appVols != s.appVols ==> l.src.Mine?)
  {
  }

  lemma OutsideApp(s: State, r: Req, e: Effect)
    requires !e.VAct? && !e.AppAct? && !e.SAct? && !e.AppSnapAct?
    ensures Apply(s, r, e).appVols == s.appVols && Apply(s, r, e).appSnaps == s.appSnaps
  {
  }

  /** A step changes the shares or the snapshots of the appliance, if anything, and only where the
      request works. */
  lemma StepChanges(s: State, r: Req, m: Move)
    requires r in s.reqs && Tidy(s.reqs[r]) && Contract(s, s.reqs[r], m) && AppContract(s, s.reqs[r], m)
    ensures var s', l := Perform(s, r, m), s.reqs[r];
            && VolsChange(s, l, s'.appVols) && SnapsChange(s, l, s'.appSnaps)
            && (s'.appVols == s.appVols || s'.appSnaps == s.appSnaps)
            && (l.pc.Clone? && s'.appVols != s.appVols ==> l.src.Mine?)
  {
    if m.eff.VAct? || m.eff.AppAct? || m.eff.SAct? || m.eff.AppSnapAct? { ActChanges(s, r, m); }
    else { OutsideApp(s, r, m.eff); }
  }

  // ---- Integrity ----

  lemma VolsIntegrity(s: State, s': State, l: Local)
    requires Integrity(s) && s'.appSnaps == s.appSnaps && VolsChange(s, l, s'.appVols)
    requires l.pc.DelGo? ==> NoSnapshots(s, VolNameOf(l.op, Source))
    ensures Integrity(s')
  {
  }

  lemma SnapsIntegrity(s: State, s': State, l: Local)
    requires Integrity(s) && s'.appVols == s.appVols && SnapsChange(s, l, s'.appSnaps)
    requires l.pc.SDelGo? ==> NoClones(s, KeyOf(l.op))
    ensures Integrity(s')
  {
  }

  lemma StepIntegrity(s: State, r: Req, m: Move)
    requires AppReady(s, r, m) && Integrity(s) && GuardsHold(s, s.reqs[r]) && ListHolds(s, s.reqs[r])
    ensures Integrity(Perform(s, r, m))
  {
    var s' := Perform(s, r, m);
    StepChanges(s, r, m);
    if s'.appSnaps == s.appSnaps { VolsIntegrity(s, s', s.reqs[r]); } else { SnapsIntegrity(s, s', s.reqs[r]); }
  }

  // ---- Checks ----

  predicate Checking(pc: Pc) { pc.DelGo? || pc.SDelGo? || pc.PubSet? }

  /** A request that made a check has its source volume in hand, so r works on another one. */
  lemma OtherSource(s: State, r: Req, q: Req)
    requires r in s.reqs && q in s.reqs && q != r && TidyInv(s) && SlotsInv(s)
    requires Checking(s.reqs[q].pc) && s.reqs[r].src.Mine?
    ensures VolNameOf(s.reqs[q].op, Source) != VolNameOf(s.reqs[r].op, Source)
  {
    assert Tidy(s.reqs[q]);
    if VolNameOf(s.reqs[q].op, Source) == VolNameOf(s.reqs[r].op, Source) { SameSource(s, r, q); }
  }

  lemma ChangesKeepChecks(s: State, s': State, l: Local, k: Local)
    requires VolsChange(s, l, s'.appVols) && SnapsChange(s, l, s'.appSnaps)
    requires l.pc.Clone? && s'.appVols != s.appVols ==> l.src.Mine?
    requires Checking(k.pc) && l.src.Mine? ==> VolNameOf(k.op, Source) != VolNameOf(l.op, Source)
    ensures GuardsHold(s, k) ==> GuardsHold(s', k)
    ensures ListHolds(s, k) ==> ListHolds(s', k)
  {
  }

  /** What another request has checked stays true. */
  lemma OthersChecked(s: State, r: Req, m: Move, q: Req)
    requires AppReady(s, r, m) && q in s.reqs && q != r
    ensures GuardsHold(s, s.reqs[q]) ==> GuardsHold(Perform(s, r, m), s.reqs[q])
    ensures ListHolds(s, s.reqs[q]) ==> ListHolds(Perform(s, r, m), s.reqs[q])
  {
    StepChanges(s, r, m);
    if Checking(s.reqs[q].pc) && s.reqs[r].src.Mine? { OtherSource(s, r, q); }
    ChangesKeepChecks(s, Perform(s, r, m), s.reqs[r], s.reqs[q]);
  }

  lemma SelfChecked(s: State, r: Req, m: Move)
    requires r in s.reqs && AppContract(s, s.reqs[r], m) && m.next.op == s.reqs[r].op
    ensures GuardsHold(Perform(s, r, m), m.next)
    ensures ListHolds(s, m.next) ==> ListHolds(Perform(s, r, m), m.next)
  {
  }

  lemma StepGuards(s: State, r: Req, m: Move)
    requires AppReady(s, r, m) && GuardsInv(s)
    ensures GuardsInv(Perform(s, r, m))
  {
    SelfChecked(s, r, m);
    forall q | q in s.reqs && q != r ensures GuardsHold(Perform(s, r, m), s.reqs[q]) {
      assert GuardsHold(s, s.reqs[q]);
      OthersChecked(s, r, m, q);
    }
  }

  lemma StepLists(s: State, r: Req, m: Move)
    requires AppReady(s, r, m) && ListsInv(s) && ListHolds(s, m.next)
    ensures ListsInv(Perform(s, r, m))
  {
    SelfChecked(s, r, m);
    forall q | q in s.reqs && q != r ensures ListHolds(Perform(s, r, m), s.reqs[q]) {
      assert ListHolds(s, s.reqs[q]);
      OthersChecked(s, r, m, q);
    }
  }
}
