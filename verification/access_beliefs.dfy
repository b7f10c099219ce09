/** What the driver believes about the appliance, and the runs in which it is right. */
module AccessBeliefs {
  import opened Common
  import opened AccessModel
  import opened AccessProgram
  import opened AccessVolumes
  import opened AccessSnapshots
  import opened AccessVolumeSteps
  import opened AccessSnapshotSteps
  import opened AccessRuns
  import opened AccessTheorems
  import opened AccessHistories

  predicate OnAppliance(e: Effect) { e.VAct? || e.AppAct? || e.SAct? || e.AppSnapAct? }

  // ---- Volumes that are gone ----

  // The driver caches volume n in stateCreated, and the appliance does not have it.
  predicate Phantom(s: State, n: VolName) {
    n in s.vHash && VolAt(s, s.vHash[n]).life.Created? && n !in s.appVols
  }

  /** A deletion of volume n takes effect without the driver learning of it, or a refresh takes up n from
      a list fetched before n was deleted. */
  predicate Loses(s: State, e: Event, n: VolName) {
    && e.action.Go? && e.req in s.reqs
    && var l := s.reqs[e.req];
    || (l.pc.DelGo? && e.action.ans.Lost? && VolNameOf(l.op, Source) == n && n in s.appVols)
    || (l.pc.Refresh? && VolNameOf(l.op, Target) == n && n !in s.appVols)
  }

  /** A creation of volume n comes to an end, a clone becomes volume n, or n is deleted successfully. */
  predicate Finds(s: State, e: Event, n: VolName) {
    && e.action.Go? && e.req in s.reqs
    && var l, ans := s.reqs[e.req], e.action.ans;
    || (l.pc.Create? && VolNameOf(l.op, Target) == n)
    || (l.pc.Clone? && VolNameOf(l.op, Target) == n && !ans.Fail? && KeyOf(l.op) in s.appSnaps)
    || (l.pc.DelGo? && VolNameOf(l.op, Source) == n && ans.Reply?)
  }

  // Objects keep their state, and new cache entries are placeholders.
  lemma OutsideVols(s: State, r: Req, e: Effect, n: VolName)
    requires !e.VAct? && !e.AppAct? && CacheInv(s)
    requires e.VAdd? ==> e.name !in s.vHash
    requires e.VRemove? ==> e.o < |s.vols| && s.vols[e.o].name in s.vHash && s.vHash[s.vols[e.o].name] == e.o
    requires e.VRemove? ==> !s.vols[e.o].life.Created?
    ensures Phantom(Apply(s, r, e), n) <==> Phantom(s, n)
  {
    if !VolEffect(e) && !VolLock(e) { ApplyOutside(s, r, e); OutsideShares(s, r, e); }
  }

  lemma OutsideShares(s: State, r: Req, e: Effect)
    requires !e.VAct? && !e.AppAct?
    ensures Apply(s, r, e).appVols == s.appVols
  {
  }

  // An answer of the appliance about a volume changes nothing for other names.
  lemma ActElsewhere(s: State, r: Req, m: Move, n: VolName)
    requires r in s.reqs && SlotsInv(s) && CacheInv(s) && n != VolNameOf(s.reqs[r].op, Touched(s.reqs[r]))
    requires VolContract(s, s.reqs[r], m) && AppContract(s, s.reqs[r], m) && (m.eff.VAct? || m.eff.AppAct?)
    ensures Phantom(Perform(s, r, m), n) <==> Phantom(s, n)
  {
    if m.eff.VAct? {
      var l, k := s.reqs[r], Touched(s.reqs[r]);
      assert SlotInv(s, r, SlotOf(l, k), VolNameOf(l.op, k));
    } else {
      DropsAtSource(s, s.reqs[r], m);
    }
  }

  lemma DropsAtSource(s: State, l: Local, m: Move)
    requires AppContract(s, l, m) && m.eff.AppAct?
    ensures forall n | n != VolNameOf(l.op, Touched(l)) :: n in m.eff.appVols <==> n in s.appVols
  {
  }

  lemma NamesElsewhere(s: State, r: Req, ans: Answer, n: VolName)
    requires r in s.reqs && LocalOk(s.reqs[r]) && n != VolNameOf(s.reqs[r].op, Touched(s.reqs[r]))
    ensures !Loses(s, Event(r, Go(ans)), n) && !Finds(s, Event(r, Go(ans)), n)
  {
    SidesOfVolumes(s.reqs[r]);
  }

  lemma SidesOfVolumes(l: Local)
    requires LocalOk(l)
    ensures l.pc.Create? || l.pc.Refresh? ==> l.which.Target? && InHand(l.tgt)
    ensures l.pc.DelList? || l.pc.DelGo? ==> l.which.Source? && l.src.Mine?
    ensures l.pc.DelGo? || l.pc.Clone? || l.pc.Details? ==> l.which.Source?
  {
  }

  lemma ActionHere(s: State, r: Req, ans: Answer, n: VolName)
    requires r in s.reqs && LocalOk(s.reqs[r]) && InVolumeAction(s.reqs[r].pc) && n == CurName(s.reqs[r])
    requires SlotInv(s, r, Cur(s.reqs[r]), n)
    ensures var e := Event(r, Go(ans));
            Phantom(Advance(s, r, ans), n) <==> Loses(s, e, n) || (Phantom(s, n) && !Finds(s, e, n))
  {
    SidesOfVolumes(s.reqs[r]);
    var pc := s.reqs[r].pc;
    if pc.Create? || pc.Refresh? { CreationHere(s, r, ans, n); }
    else if pc.DelList? || pc.DelGo? { DeletionHere(s, r, ans, n); }
    else { PublishingHere(s, r, ans, n); }
  }

  lemma CreationHere(s: State, r: Req, ans: Answer, n: VolName)
    requires r in s.reqs && (s.reqs[r].pc.Create? || s.reqs[r].pc.Refresh?) && s.reqs[r].which.Target?
    requires InHand(s.reqs[r].tgt) && n == CurName(s.reqs[r]) && SlotInv(s, r, s.reqs[r].tgt, n)
    ensures var e := Event(r, Go(ans));
            Phantom(Advance(s, r, ans), n) <==> Loses(s, e, n) || (Phantom(s, n) && !Finds(s, e, n))
  {
  }

  lemma DeletionHere(s: State, r: Req, ans: Answer, n: VolName)
    requires r in s.reqs && (s.reqs[r].pc.DelList? || s.reqs[r].pc.DelGo?) && s.reqs[r].which.Source?
    requires s.reqs[r].src.Mine? && n == CurName(s.reqs[r]) && SlotInv(s, r, s.reqs[r].src, n)
    ensures var e := Event(r, Go(ans));
            Phantom(Advance(s, r, ans), n) <==> Loses(s, e, n) || (Phantom(s, n) && !Finds(s, e, n))
  {
  }

  lemma PublishingHere(s: State, r: Req, ans: Answer, n: VolName)
    requires r in s.reqs && InVolumeAction(s.reqs[r].pc)
    requires !s.reqs[r].pc.Create? && !s.reqs[r].pc.Refresh? && !s.reqs[r].pc.DelList? && !s.reqs[r].pc.DelGo?
    ensures Phantom(Advance(s, r, ans), n) <==> Phantom(s, n)
  {
  }

  lemma CloneHere(s: State, r: Req, ans: Answer, n: VolName)
    requires r in s.reqs && s.reqs[r].pc.Clone? && InHand(s.reqs[r].tgt) && n == VolNameOf(s.reqs[r].op, Target)
    requires SlotInv(s, r, s.reqs[r].tgt, n)
    ensures Phantom(Advance(s, r, ans), n) <==> Phantom(s, n) && !Finds(s, Event(r, Go(ans)), n)
  {
  }

  lemma DetailsHere(s: State, r: Req, ans: Answer, n: VolName)
    requires r in s.reqs && s.reqs[r].pc.Details? && s.reqs[r].which.Source? && s.reqs[r].src.Fresh?
    requires n == CurName(s.reqs[r]) && SlotInv(s, r, s.reqs[r].src, n)
    ensures Phantom(Advance(s, r, ans), n) <==> Phantom(s, n)
  {
  }

  lemma AnswerHere(s: State, r: Req, ans: Answer, n: VolName)
    requires r in s.reqs && SlotsInv(s) && LocalOk(s.reqs[r]) && n == VolNameOf(s.reqs[r].op, Touched(s.reqs[r]))
    requires var l := s.reqs[r]; l.pc.Details? || InVolumeAction(l.pc) || l.pc.Clone?
    ensures var e := Event(r, Go(ans));
            Phantom(Advance(s, r, ans), n) <==> Loses(s, e, n) || (Phantom(s, n) && !Finds(s, e, n))
  {
    var l, k := s.reqs[r], Touched(s.reqs[r]);
    assert SlotInv(s, r, SlotOf(l, k), VolNameOf(l.op, k));
    AnswersInHand(l);
    if InVolumeAction(l.pc) { ActionHere(s, r, ans, n); }
    else if l.pc.Clone? { CloneHere(s, r, ans, n); }
    else { DetailsHere(s, r, ans, n); }
  }

  lemma AnswersInHand(l: Local)
    requires LocalOk(l)
    ensures l.pc.Clone? ==> InHand(l.tgt)
    ensures l.pc.Details? ==> l.which.Source? && l.src.Fresh?
  {
  }

  lemma SkipPhantom(s: State, r: Req, ans: Answer, n: VolName)
    requires r in s.reqs && LocalOk(s.reqs[r])
    requires var e := Act(s, r, s.reqs[r], ans).eff; !e.VAct? && !e.AppAct?
    ensures var e := Event(r, Go(ans)); !Loses(s, e, n) && (Finds(s, e, n) ==> n in s.appVols)
  {
    var l := s.reqs[r];
    SidesOfVolumes(l);
    if InVolumeAction(l.pc) { assert Act(s, r, l, ans) == VolumeActionAct(s, l, ans); }
  }

  lemma AdvancePhantom(s: State, r: Req, ans: Answer, n: VolName)
    requires Inv(s) && r in s.reqs
    ensures var e := Event(r, Go(ans));
            Phantom(Advance(s, r, ans), n) <==> Loses(s, e, n) || (Phantom(s, n) && !Finds(s, e, n))
  {
    MoveOk(s, r, ans);
    MovePhantom(s, r, ans, n);
  }

  lemma MovePhantom(s: State, r: Req, ans: Answer, n: VolName)
    requires r in s.reqs && SlotsInv(s) && CacheInv(s) && LocalOk(s.reqs[r])
    requires var m := Act(s, r, s.reqs[r], ans); VolContract(s, s.reqs[r], m) && AppContract(s, s.reqs[r], m)
    ensures var e := Event(r, Go(ans));
            Phantom(Advance(s, r, ans), n) <==> Loses(s, e, n) || (Phantom(s, n) && !Finds(s, e, n))
  {
    var l, m := s.reqs[r], Act(s, r, s.reqs[r], ans);
    if !TouchesShares(m.eff) {
      SkipPhantom(s, r, ans, n);
      QuietPhantom(s, r, m, n);
    } else if n == VolNameOf(l.op, Touched(l)) {
      SharesChangeAt(s, r, l, ans);
      AnswerHere(s, r, ans, n);
    } else {
      ActElsewhere(s, r, m, n);
      NamesElsewhere(s, r, ans, n);
    }
  }

  lemma QuietPhantom(s: State, r: Req, m: Move, n: VolName)
    requires r in s.reqs && SlotsInv(s) && CacheInv(s) && VolContract(s, s.reqs[r], m) && !TouchesShares(m.eff)
    ensures Phantom(Perform(s, r, m), n) <==> Phantom(s, n)
  {
    assert SlotInv(s, r, Cur(s.reqs[r]), CurName(s.reqs[r]));
    OutsideVols(s, r, m.eff, n);
  }

  // Event m makes the driver lose volume n, and none up to the i-th makes up for it.
  predicate LostSince(states: seq<State>, events: seq<Event>, m: nat, i: nat, n: VolName)
    requires i <= |events| < |states|
  {
    m < i && Loses(states[m], events[m], n) && forall q | m < q < i :: !Finds(states[q], events[q], n)
  }

  ghost predicate EverLost(states: seq<State>, events: seq<Event>, i: nat, n: VolName)
    requires i <= |events| < |states|
  {
    exists m: nat :: LostSince(states, events, m, i, n)
  }

  /** In every state of every run, a volume is cached in stateCreated and not on the appliance if and only
      if a deletion of it took effect with the answer lost, or a refresh took it up after it was deleted, and
      since then no creation of it came to an end, no clone became it, and no deletion of it succeeded. */
  lemma {:induction false} PhantomsExactly(states: seq<State>, events: seq<Event>, i: nat, n: VolName)
    requires Run(states, events) && i < |states|
    ensures Phantom(states[i], n) <==> EverLost(states, events, i, n)
  {
    if i > 0 {
      PhantomsExactly(states, events, i - 1, n);
      RunPhantom(states, events, i, n);
      LostStep(states, events, i, n);
    }
  }

  lemma RunPhantom(states: seq<State>, events: seq<Event>, i: nat, n: VolName)
    requires Run(states, events) && 0 < i < |states|
    ensures Phantom(states[i], n) <==>
              || Loses(states[i - 1], events[i - 1], n)
              || (Phantom(states[i - 1], n) && !Finds(states[i - 1], events[i - 1], n))
  {
    RunInv(states, events, i - 1);
    assert StepAt(states, events, i - 1);
    StepPhantom(states[i - 1], events[i - 1], states[i], n);
  }

  lemma StepPhantom(s: State, e: Event, s': State, n: VolName)
    requires Inv(s) && Step(s, e.req, e.action, s')
    ensures Phantom(s', n) <==> Loses(s, e, n) || (Phantom(s, n) && !Finds(s, e, n))
  {
    if e.action.Go? { AdvancePhantom(s, e.req, e.action.ans, n); }
  }

  lemma LostStep(states: seq<State>, events: seq<Event>, i: nat, n: VolName)
    requires 0 < i <= |events| < |states|
    ensures EverLost(states, events, i, n) <==>
              || Loses(states[i - 1], events[i - 1], n)
              || (EverLost(states, events, i - 1, n) && !Finds(states[i - 1], events[i - 1], n))
  {
    if EverLost(states, events, i, n) {
      var m: nat :| LostSince(states, events, m, i, n);
      if m < i - 1 { assert LostSince(states, events, m, i - 1, n); }
    }
    if Loses(states[i - 1], events[i - 1], n) { assert LostSince(states, events, i - 1, i, n); }
    if EverLost(states, events, i - 1, n) && !Finds(states[i - 1], events[i - 1], n) {
      var m: nat :| LostSince(states, events, m, i - 1, n);
      assert LostSince(states, events, m, i, n);
    }
  }

  // ---- Tame runs ----

  // The snapshots that requests may name.
  type Names = SnapKey -> bool

  // No two of them differ in the source only.
  ghost predicate Functional(names: Names) { forall p, q | names(p) && names(q) && p.1 == q.1 :: p == q }

  // Volume n has a snapshot that no request names, so that the list of its snapshots will never be empty.
  predicate Shielded(s: State, n: VolName, names: Names) { exists p <- s.appSnaps :: p.0 == n && !names(p) }

  predicate NoCachedSnapshots(s: State, name: VolName) { forall k <- s.sHash :: SnapAt(s, s.sHash[k]).source != name }

  /** A step without the events that can leave a cached snapshot to a deleted volume: no deletion of a
      snapshot takes effect with its answer lost, no refresh takes up a snapshot that was deleted since its
      list was fetched, no deletion of a LUN with cached snapshots goes ahead on a list that was not
      understood, and no creation fails for a volume that exists in the cache and has cached snapshots. The
      first two are harmless for a volume that cannot be deleted. Requests name the given snapshots only. */
  predicate TameStep(s: State, e: Event, names: Names) {
    match e.action
    case Arrive(op) => NeedsSnap(op) ==> names(KeyOf(op))
    case Go(ans) => e.req in s.reqs ==> TameAnswer(s, s.reqs[e.req], ans, names)
  }

  predicate TameAnswer(s: State, l: Local, ans: Answer, names: Names) {
    && (DriftsApart(s, l, ans) ==> Shielded(s, VolNameOf(l.op, Source), names))
    && (Unread(l, ans) && VolNameOf(l.op, Source) in s.appVols ==> NoCachedSnapshots(s, VolNameOf(l.op, Source)))
    && (l.pc.Create? && l.tgt.Mine? && !ans.Reply? ==> NoCachedSnapshots(s, VolNameOf(l.op, Target)))
  }

  // The driver goes on to believe in a snapshot that is gone.
  predicate DriftsApart(s: State, l: Local, ans: Answer) {
    (l.pc.SDelGo? && ans.Lost?) || (l.pc.SRefresh? && !ans.Lost? && KeyOf(l.op) !in s.appSnaps)
  }

  /** A cached snapshot points at the volume object cached for its source, which is in stateCreated. */
  predicate PointsAtSource(s: State, k: SnapName)
    requires k in s.sHash
  {
    var x := SnapAt(s, s.sHash[k]);
    x.source in s.vHash && s.vHash[x.source] == x.volume && VolAt(s, x.volume).life.Created?
  }

  ghost predicate PointersInv(s: State) { forall k <- s.sHash :: PointsAtSource(s, k) }

  /** A snapshot cached in stateCreated exists, unless its source cannot be deleted. */
  ghost predicate SnapBelief(s: State, names: Names) {
    forall k <- s.sHash :: SnapAt(s, s.sHash[k]).life.Created? ==> Founded(s, (SnapAt(s, s.sHash[k]).source, k), names)
  }

  predicate Founded(s: State, key: SnapKey, names: Names) { key in s.appSnaps || Shielded(s, key.0, names) }

  ghost predicate SourcesKnown(s: State, names: Names) {
    && (forall r <- s.reqs :: NeedsSnap(s.reqs[r].op) ==> names(KeyOf(s.reqs[r].op)))
    && (forall x | 0 <= x < |s.snaps| :: names((s.snaps[x].source, s.snaps[x].name)))
  }

  /** A volume about to be deleted has no cached snapshot. */
  ghost predicate BareInv(s: State) { forall r <- s.reqs :: BareHolds(s, s.reqs[r]) }

  predicate BareHolds(s: State, l: Local) { l.pc.DelGo? ==> NoCachedSnapshots(s, VolNameOf(l.op, Source)) }

  ghost predicate NoStray(s: State) { forall r <- s.reqs :: s.reqs[r].stray.None? }

  ghost predicate TameInv(s: State, names: Names) {
    Inv(s) && PointersInv(s) && SnapBelief(s, names) && BareInv(s) && SourcesKnown(s, names) && NoStray(s)
  }

  // ---- Pointers ----

  // Entries, pointers and the volumes they lead to survive.
  lemma PointersStay(s: State, s': State)
    requires PointersInv(s)
    requires forall k <- s'.sHash :: EntryStays(s, s', k)
    requires forall k <- s.sHash :: VolumeStays(s, s', SnapAt(s, s.sHash[k]).source)
    ensures PointersInv(s')
  {
    forall k | k in s'.sHash ensures PointsAtSource(s', k) {
      assert EntryStays(s, s', k) && PointsAtSource(s, k);
    }
  }

  predicate EntryStays(s: State, s': State, k: SnapName)
    requires k in s'.sHash
  {
    && k in s.sHash
    && SnapAt(s', s'.sHash[k]).source == SnapAt(s, s.sHash[k]).source
    && SnapAt(s', s'.sHash[k]).volume == SnapAt(s, s.sHash[k]).volume
  }

  predicate VolumeStays(s: State, s': State, n: VolName) {
    n in s.vHash && VolAt(s, s.vHash[n]).life.Created? ==>
      n in s'.vHash && s'.vHash[n] == s.vHash[n] && VolAt(s', s.vHash[n]).life.Created?
  }

  /** A call that ends the created state of a volume finds no cached snapshot of it. */
  lemma NoneForLost(s: State, r: Req, m: Move, ans: Answer, k: SnapName, names: Names)
    requires Inv(s) && PointersInv(s) && BareInv(s) && r in s.reqs
    requires m == Act(s, r, s.reqs[r], ans) && TameAnswer(s, s.reqs[r], ans, names)
    requires Contract(s, s.reqs[r], m) && AppContract(s, s.reqs[r], m) && m.eff.VAct? && m.eff.life.Deleted?
    requires k in s.sHash
    ensures SnapAt(s, s.sHash[k]).source != VolNameOf(s.reqs[r].op, Touched(s.reqs[r]))
  {
    var l := s.reqs[r];
    assert LocalOk(l);
    if l.pc.DelGo? {
      assert BareHolds(s, l);
    } else {
      CreationTouchesTarget(s, r, l, ans);
      assert SlotInv(s, r, l.tgt, VolNameOf(l.op, Target));
      assert PointsAtSource(s, k);
    }
  }

  lemma CreationTouchesTarget(s: State, r: Req, l: Local, ans: Answer)
    requires LocalOk(l) && l.pc.Create? && Act(s, r, l, ans).eff.VAct? && Act(s, r, l, ans).eff.life.Deleted?
    ensures Touched(l) == Target && InHand(l.tgt) && !ans.Reply?
  {
  }

  lemma ActPointers(s: State, r: Req, m: Move)
    requires r in s.reqs && SlotsInv(s) && CacheInv(s) && PointersInv(s)
    requires VolContract(s, s.reqs[r], m) && m.eff.VAct?
    requires m.eff.life.Deleted? ==> NoCachedSnapshots(s, VolNameOf(s.reqs[r].op, Touched(s.reqs[r])))
    ensures PointersInv(Perform(s, r, m))
  {
    var s', l := Perform(s, r, m), s.reqs[r];
    var k := Touched(l);
    assert SlotInv(s, r, SlotOf(l, k), VolNameOf(l.op, k));
    VolWorkKeepsSnaps(s, r, m.eff);
    forall j | j in s.sHash ensures VolumeStays(s, s', SnapAt(s, s.sHash[j]).source) {
      if m.eff.life.Deleted? { CachedElsewhere(s, SnapAt(s, s.sHash[j]).source, m.eff.o); }
    }
    PointersStay(s, s');
  }

  lemma CachedElsewhere(s: State, n: VolName, o: nat)
    requires CacheInv(s) && CachedVol(s, o) && n != s.vols[o].name
    ensures n in s.vHash ==> s.vHash[n] != o
  {
  }

  lemma AddPointers(s: State, r: Req, m: Move)
    requires r in s.reqs && SlotsInv(s) && PointersInv(s)
    requires SnapCacheInv(s) && SnapContract(s, s.reqs[r], m) && m.eff.SAdd?
    ensures PointersInv(Perform(s, r, m))
  {
    var s', l := Perform(s, r, m), s.reqs[r];
    assert SlotInv(s, r, l.src, VolNameOf(l.op, Source));
    forall k | k in s'.sHash ensures PointsAtSource(s', k) {
      if k in s.sHash { assert PointsAtSource(s, k); }
    }
  }

  lemma RemovePointers(s: State, r: Req, m: Move)
    requires r in s.reqs && SlotsInv(s) && PointersInv(s) && VolContract(s, s.reqs[r], m) && m.eff.VRemove?
    ensures PointersInv(Perform(s, r, m))
  {
    assert SlotInv(s, r, Cur(s.reqs[r]), CurName(s.reqs[r]));
    PointersStay(s, Perform(s, r, m));
  }

  lemma VolWorkPointers(s: State, r: Req, m: Move)
    requires r in s.reqs && PointersInv(s) && CacheInv(s) && VolContract(s, s.reqs[r], m)
    requires VolEffect(m.eff) && !m.eff.VAct? && !m.eff.VRemove?
    ensures PointersInv(Perform(s, r, m))
  {
    var s' := Perform(s, r, m);
    VolWorkKeepsSnaps(s, r, m.eff);
    forall k | k in s.sHash ensures VolumeStays(s, s', SnapAt(s, s.sHash[k]).source) {
      VolWorkKeepsVolume(s, r, m.eff, SnapAt(s, s.sHash[k]).source);
    }
    PointersStay(s, s');
  }

  lemma VolWorkKeepsSnaps(s: State, r: Req, e: Effect)
    requires VolEffect(e)
    ensures Apply(s, r, e).snaps == s.snaps && Apply(s, r, e).sHash == s.sHash
  {
  }

  lemma VolWorkKeepsAppSnaps(s: State, r: Req, e: Effect)
    requires VolEffect(e)
    ensures Apply(s, r, e).appSnaps == s.appSnaps
  {
  }

  lemma VolWorkKeepsVolume(s: State, r: Req, e: Effect, n: VolName)
    requires VolEffect(e) && !e.VAct? && !e.VRemove? && (e.VAdd? ==> e.name !in s.vHash)
    ensures VolumeStays(s, Apply(s, r, e), n)
  {
  }

  lemma SnapWorkPointers(s: State, r: Req, m: Move)
    requires r in s.reqs && PointersInv(s) && SnapCacheInv(s) && SnapContract(s, s.reqs[r], m)
    requires SnapEffect(m.eff) && !m.eff.SAdd?
    ensures PointersInv(Perform(s, r, m))
  {
    var s' := Perform(s, r, m);
    SnapWorkKeepsVols(s, r, m.eff);
    forall k | k in s'.sHash ensures EntryStays(s, s', k) {
      SnapWorkKeepsEntry(s, r, m.eff, k);
    }
    PointersStay(s, s');
  }

  lemma SnapWorkKeepsVols(s: State, r: Req, e: Effect)
    requires SnapEffect(e)
    ensures Apply(s, r, e).vols == s.vols && Apply(s, r, e).vHash == s.vHash
  {
  }

  lemma SnapWorkKeepsEntry(s: State, r: Req, e: Effect, k: SnapName)
    requires SnapEffect(e) && !e.SAdd? && k in Apply(s, r, e).sHash
    ensures EntryStays(s, Apply(s, r, e), k)
  {
  }

  lemma StepPointers(s: State, r: Req, m: Move, ans: Answer, names: Names)
    requires Inv(s) && PointersInv(s) && BareInv(s) && r in s.reqs
    requires m == Act(s, r, s.reqs[r], ans) && TameAnswer(s, s.reqs[r], ans, names)
    requires Contract(s, s.reqs[r], m) && AppContract(s, s.reqs[r], m)
    ensures PointersInv(Perform(s, r, m))
  {
    if m.eff.VAct? {
      if m.eff.life.Deleted? {
        forall k | k in s.sHash ensures SnapAt(s, s.sHash[k]).source != VolNameOf(s.reqs[r].op, Touched(s.reqs[r])) {
          NoneForLost(s, r, m, ans, k, names);
        }
      }
      ActPointers(s, r, m);
    }
    else if m.eff.SAdd? { AddPointers(s, r, m); }
    else if m.eff.VRemove? { RemovePointers(s, r, m); }
    else if VolEffect(m.eff) { VolWorkPointers(s, r, m); }
    else if SnapEffect(m.eff) { SnapWorkPointers(s, r, m); }
    else { QuietPointers(s, r, m); }
  }

  lemma QuietPointers(s: State, r: Req, m: Move)
    requires r in s.reqs && PointersInv(s) && !VolEffect(m.eff) && !SnapEffect(m.eff)
    ensures PointersInv(Perform(s, r, m))
  {
    ApplyOutsideBoth(s, r, m.eff);
    PointersStay(s, Perform(s, r, m));
  }

  // ---- Deletions of volumes without snapshots ----

  /** If the appliance has no snapshot of a volume, its owner finds none of them cached. */
  lemma NoneListedNoneCached(s: State, r: Req, name: VolName, names: Names)
    requires SlotsInv(s) && SnapInv(s) && SnapBelief(s, names) && NoSnapshots(s, name)
    requires r in s.reqs && s.reqs[r].src.Mine? && s.reqs[r].snap.Empty? && VolNameOf(s.reqs[r].op, Source) == name
    ensures NoCachedSnapshots(s, name)
  {
    assert SlotInv(s, r, SlotOf(s.reqs[r], Source), name);
    forall k | k in s.sHash ensures SnapAt(s, s.sHash[k]).source != name {
      var x := s.sHash[k];
      assert Cached(s, x);
      assert s.snaps[x].source == name ==> !InUse(s, x);
      assert s.snaps[x].life.Created? ==> Founded(s, (s.snaps[x].source, k), names);
    }
  }

  lemma DeletionDecided(s: State, r: Req, l: Local, ans: Answer)
    requires LocalOk(l) && Act(s, r, l, ans).next.pc.DelGo?
    ensures l.pc.DelList? && l.src.Mine? && l.snap.Empty? && VolNameOf(l.op, Source) in s.appVols
    ensures NoSnapshots(s, VolNameOf(l.op, Source)) || Unread(l, ans)
    ensures Act(s, r, l, ans).eff.Skip? && Act(s, r, l, ans).next.op == l.op
  {
    DelGoComesFromDelList(s, r, l, ans);
  }

  lemma DelGoComesFromDelList(s: State, r: Req, l: Local, ans: Answer)
    requires LocalOk(l) && Act(s, r, l, ans).next.pc.DelGo?
    ensures l.pc.DelList?
  {
    if !InVolumeAction(l.pc) { NoOtherWayToDelGo(s, r, l, ans); }
  }

  lemma NoOtherWayToDelGo(s: State, r: Req, l: Local, ans: Answer)
    requires !InVolumeAction(l.pc)
    ensures !Act(s, r, l, ans).next.pc.DelGo?
  {
  }

  lemma StepBare(s: State, r: Req, m: Move, ans: Answer, names: Names)
    requires Inv(s) && SnapBelief(s, names) && BareInv(s) && r in s.reqs
    requires m == Act(s, r, s.reqs[r], ans) && TameAnswer(s, s.reqs[r], ans, names) && SnapContract(s, s.reqs[r], m)
    ensures BareInv(Perform(s, r, m))
  {
    var s' := Perform(s, r, m);
    forall q | q in s'.reqs && s'.reqs[q].pc.DelGo? ensures BareHolds(s', s'.reqs[q]) {
      InvLocal(s, r);
      if q == r {
        DeletionDecided(s, r, s.reqs[r], ans);
        if !Unread(s.reqs[r], ans) { NoneListedNoneCached(s, r, VolNameOf(s.reqs[r].op, Source), names); }
      } else {
        InvLocal(s, q);
        assert BareHolds(s, s.reqs[q]);
        DeletingOwner(s.reqs[q]);
        StaysBare(s, r, m, q);
      }
    }
  }

  lemma DeletingOwner(l: Local)
    requires LocalOk(l) && l.pc.DelGo?
    ensures l.src.Mine?
  {
  }

  // Nobody else caches a snapshot of the volume that request q owns.
  lemma StaysBare(s: State, r: Req, m: Move, q: Req)
    requires r in s.reqs && q in s.reqs && q != r && SlotsInv(s) && SnapCacheInv(s) && SnapContract(s, s.reqs[r], m)
    requires s.reqs[q].src.Mine? && NoCachedSnapshots(s, VolNameOf(s.reqs[q].op, Source))
    ensures NoCachedSnapshots(Perform(s, r, m), VolNameOf(s.reqs[q].op, Source))
  {
    var s' := Perform(s, r, m);
    if m.eff.SAdd? { OnlyOwnerAdds(s, r, m, q); }
    else {
      forall k | k in s'.sHash ensures EntryStays(s, s', k) {
        if SnapEffect(m.eff) { SnapWorkKeepsEntry(s, r, m.eff, k); }
        else if !m.eff.AppSnapAct? { OutsideSnapCache(s, r, m.eff); }
      }
    }
  }

  lemma OnlyOwnerAdds(s: State, r: Req, m: Move, q: Req)
    requires r in s.reqs && q in s.reqs && q != r && SlotsInv(s) && SnapCacheInv(s)
    requires SnapContract(s, s.reqs[r], m) && m.eff.SAdd?
    requires s.reqs[q].src.Mine? && NoCachedSnapshots(s, VolNameOf(s.reqs[q].op, Source))
    ensures NoCachedSnapshots(Perform(s, r, m), VolNameOf(s.reqs[q].op, Source))
  {
    if m.eff.source == VolNameOf(s.reqs[q].op, Source) { SameSource(s, r, q); }
  }

  // ---- Snapshots exist ----

  // A key that requests name is taken away or added: the shields of volumes stay.
  lemma ShieldStays(s: State, app: set<SnapKey>, key: SnapKey, n: VolName, names: Names)
    requires Shielded(s, n, names) && s.appSnaps - {key} <= app && names(key)
    ensures Shielded(s.(appSnaps := app), n, names)
  {
    var p :| p in s.appSnaps && p.0 == n && !names(p);
    assert p in app;
  }

  lemma FoundationStays(s: State, s': State, key: SnapKey, p: SnapKey, names: Names)
    requires Founded(s, p, names) && p != key && s.appSnaps - {key} <= s'.appSnaps && names(key)
    ensures Founded(s', p, names)
  {
    if p !in s.appSnaps { ShieldStays(s, s'.appSnaps, key, p.0, names); }
  }

  lemma SnapCallKeepsBelief(s: State, s': State, key: SnapKey, names: Names)
    requires SnapCacheInv(s) && SnapBelief(s, names) && names(key)
    requires s'.sHash == s.sHash && s.appSnaps - {key} <= s'.appSnaps
    requires forall k <- s.sHash :: SnapAt(s', s.sHash[k]).source == SnapAt(s, s.sHash[k]).source
    requires forall k <- s.sHash :: k != key.1 || SnapAt(s, s.sHash[k]).source != key.0 ==>
               SnapAt(s', s.sHash[k]).life == SnapAt(s, s.sHash[k]).life
    requires key.1 in s.sHash && SnapAt(s', s.sHash[key.1]).life.Created? ==>
               SnapAt(s, s.sHash[key.1]).source == key.0 ==> Founded(s', key, names)
    ensures SnapBelief(s', names)
  {
    forall k | k in s'.sHash && SnapAt(s', s'.sHash[k]).life.Created?
      ensures Founded(s', (SnapAt(s', s'.sHash[k]).source, k), names)
    {
      var p := (SnapAt(s, s.sHash[k]).source, k);
      if p != key { FoundationStays(s, s', key, p, names); }
    }
  }

  // What the calls about snapshots do to the appliance, and to the object the request works on.
  lemma SnapCalls(s: State, r: Req, l: Local, ans: Answer, names: Names)
    requires LocalOk(l) && SnapSlotInv(s, r, l) && TameAnswer(s, l, ans, names)
    requires var e := Act(s, r, l, ans).eff; e.SAct? || e.AppSnapAct?
    ensures NeedsSnap(l.op)
    ensures var e := Act(s, r, l, ans).eff; s.appSnaps - {KeyOf(l.op)} <= e.appSnaps
    ensures var e := Act(s, r, l, ans).eff;
            e.SAct? ==> e.o == ObjOf(l.snap) && !l.snap.Empty?
                        && (e.life.Created? ==> KeyOf(l.op) in e.appSnaps || Shielded(s, KeyOf(l.op).0, names))
    ensures Act(s, r, l, ans).eff.AppSnapAct? ==> Shielded(s, KeyOf(l.op).0, names)
  {
    SnapCallPoints(s, r, l, ans);
    if l.pc.SDetails? { DetailsCall(s, r, l, ans); } else { ActionCall(s, r, l, ans, names); }
  }

  lemma SnapCallPoints(s: State, r: Req, l: Local, ans: Answer)
    requires var e := Act(s, r, l, ans).eff; e.SAct? || e.AppSnapAct?
    ensures l.pc.SDetails? || InSnapshotAction(l.pc)
  {
    if InLookupVolume(l.pc) || InNewVolume(l.pc) || InVolumeAction(l.pc) { NoSnapCall(s, r, l, ans); }
    else if InNewSnapshot(l.pc) || InReleaseSnapshot(l.pc) || InReleaseVolume(l.pc) { NoCallAtAll(s, r, l, ans); }
  }

  lemma NoSnapCall(s: State, r: Req, l: Local, ans: Answer)
    requires InLookupVolume(l.pc) || InNewVolume(l.pc) || InVolumeAction(l.pc)
    ensures var e := Act(s, r, l, ans).eff; !e.AppSnapAct? && !e.SAct?
  {
  }

  lemma NoCallAtAll(s: State, r: Req, l: Local, ans: Answer)
    requires InNewSnapshot(l.pc) || InReleaseSnapshot(l.pc) || InReleaseVolume(l.pc)
    ensures var e := Act(s, r, l, ans).eff; !e.AppSnapAct? && !e.SAct?
  {
  }

  lemma DetailsCall(s: State, r: Req, l: Local, ans: Answer)
    requires LocalOk(l) && l.pc.SDetails? && Act(s, r, l, ans).eff.SAct?
    ensures NeedsSnap(l.op) && !l.snap.Empty?
    ensures var e := Act(s, r, l, ans).eff;
            e.o == ObjOf(l.snap) && e.appSnaps == s.appSnaps && KeyOf(l.op) in s.appSnaps
  {
  }

  lemma ActionCall(s: State, r: Req, l: Local, ans: Answer, names: Names)
    requires LocalOk(l) && InSnapshotAction(l.pc) && TameAnswer(s, l, ans, names)
    requires var e := SnapshotActionAct(s, l, ans).eff; e.SAct? || e.AppSnapAct?
    ensures NeedsSnap(l.op) && !l.snap.Empty?
    ensures var e := SnapshotActionAct(s, l, ans).eff; s.appSnaps - {KeyOf(l.op)} <= e.appSnaps
    ensures var e := SnapshotActionAct(s, l, ans).eff;
            e.SAct? ==> e.o == ObjOf(l.snap)
                        && (e.life.Created? ==> KeyOf(l.op) in e.appSnaps || Shielded(s, KeyOf(l.op).0, names))
    ensures SnapshotActionAct(s, l, ans).eff.AppSnapAct? ==> Shielded(s, KeyOf(l.op).0, names)
  {
  }

  lemma OutsideSnaps(s: State, r: Req, e: Effect, names: Names)
    requires !e.SAct? && !e.AppSnapAct? && SnapCacheInv(s) && SnapBelief(s, names)
    ensures SnapBelief(Apply(s, r, e), names)
  {
    var s' := Apply(s, r, e);
    OutsideAppSnaps(s, r, e);
    if !SnapEffect(e) { OutsideSnapCache(s, r, e); }
    forall k | k in s'.sHash && SnapAt(s', s'.sHash[k]).life.Created?
      ensures Founded(s', (SnapAt(s', s'.sHash[k]).source, k), names)
    {
      OldEntry(s, r, e, k);
      assert Founded(s, (SnapAt(s, s.sHash[k]).source, k), names);
    }
  }

  lemma OldEntry(s: State, r: Req, e: Effect, k: SnapName)
    requires !e.SAct? && k in Apply(s, r, e).sHash && SnapCacheInv(s)
    requires var s' := Apply(s, r, e); SnapAt(s', s'.sHash[k]).life.Created?
    ensures var s' := Apply(s, r, e);
            k in s.sHash && SnapAt(s', s'.sHash[k]).source == SnapAt(s, s.sHash[k]).source
            && SnapAt(s, s.sHash[k]).life.Created?
  {
    if SnapEffect(e) { OldWorkEntry(s, r, e, k); } else if !e.AppSnapAct? { OutsideSnapCache(s, r, e); }
  }

  lemma OldWorkEntry(s: State, r: Req, e: Effect, k: SnapName)
    requires SnapEffect(e) && !e.SAct? && k in Apply(s, r, e).sHash && SnapCacheInv(s)
    requires var s' := Apply(s, r, e); SnapAt(s', s'.sHash[k]).life.Created?
    ensures var s' := Apply(s, r, e);
            k in s.sHash && SnapAt(s', s'.sHash[k]).source == SnapAt(s, s.sHash[k]).source
            && SnapAt(s, s.sHash[k]).life.Created?
  {
  }

  lemma OutsideAppSnaps(s: State, r: Req, e: Effect)
    requires !e.SAct? && !e.AppSnapAct?
    ensures Apply(s, r, e).appSnaps == s.appSnaps
  {
  }

  lemma OutsideSnapCache(s: State, r: Req, e: Effect)
    requires !SnapEffect(e) && !e.AppSnapAct?
    ensures var s' := Apply(s, r, e); s'.snaps == s.snaps && s'.sHash == s.sHash && s'.appSnaps == s.appSnaps
  {
    if VolEffect(e) { VolWorkKeepsSnaps(s, r, e); VolWorkKeepsAppSnaps(s, r, e); }
  }

  lemma StepSnapBelief(s: State, r: Req, m: Move, ans: Answer, names: Names)
    requires r in s.reqs && SnapCacheInv(s) && SnapSlotInv(s, r, s.reqs[r]) && LocalOk(s.reqs[r])
    requires SnapBelief(s, names) && SourcesKnown(s, names)
    requires m == Act(s, r, s.reqs[r], ans) && TameAnswer(s, s.reqs[r], ans, names)
    ensures SnapBelief(Perform(s, r, m), names)
  {
    if m.eff.SAct? || m.eff.AppSnapAct? {
      SnapCalls(s, r, s.reqs[r], ans, names);
      CallBelief(s, r, s.reqs[r], m.eff, names);
    } else { OutsideSnaps(s, r, m.eff, names); }
  }

  lemma CallBelief(s: State, r: Req, l: Local, e: Effect, names: Names)
    requires SnapCacheInv(s) && SnapSlotInv(s, r, l) && SnapBelief(s, names) && names(KeyOf(l.op))
    requires (e.SAct? && !l.snap.Empty? && e.o == l.snap.o) || e.AppSnapAct?
    requires s.appSnaps - {KeyOf(l.op)} <= e.appSnaps
    requires e.SAct? && e.life.Created? ==> KeyOf(l.op) in e.appSnaps || Shielded(s, KeyOf(l.op).0, names)
    requires e.AppSnapAct? ==> Shielded(s, KeyOf(l.op).0, names)
    ensures SnapBelief(Apply(s, r, e), names)
  {
    var s', key := Apply(s, r, e), KeyOf(l.op);
    if Shielded(s, key.0, names) { ShieldStays(s, s'.appSnaps, key, key.0, names); }
    SnapCallKeepsBelief(s, s', key, names);
  }

  // ---- Sources ----

  lemma StepSources(s: State, r: Req, m: Move, names: Names)
    requires r in s.reqs && SourcesKnown(s, names) && SnapContract(s, s.reqs[r], m) && m.next.op == s.reqs[r].op
    ensures SourcesKnown(Perform(s, r, m), names)
  {
    var s' := Perform(s, r, m);
    forall x | 0 <= x < |s'.snaps| ensures names((s'.snaps[x].source, s'.snaps[x].name)) {
      SourcesKept(s, r, m, x, names);
    }
  }

  lemma SourcesKept(s: State, r: Req, m: Move, x: nat, names: Names)
    requires r in s.reqs && SourcesKnown(s, names) && SnapContract(s, s.reqs[r], m) && x < |Perform(s, r, m).snaps|
    ensures var y := Perform(s, r, m).snaps[x]; names((y.source, y.name))
  {
    if m.eff.SAdd? { AddedSource(s, s.reqs[r], m, names); } else { SourcesUnchanged(s, r, m.eff, x); }
  }

  lemma AddedSource(s: State, l: Local, m: Move, names: Names)
    requires SnapContract(s, l, m) && m.eff.SAdd?
    requires NeedsSnap(l.op) ==> names(KeyOf(l.op))
    ensures names((m.eff.source, m.eff.snap))
  {
  }

  lemma SourcesUnchanged(s: State, r: Req, e: Effect, x: nat)
    requires !e.SAdd? && x < |Apply(s, r, e).snaps|
    ensures x < |s.snaps|
    ensures var y := Apply(s, r, e).snaps[x]; y.source == s.snaps[x].source && y.name == s.snaps[x].name
  {
    if SnapEffect(e) { SnapWorkKeepsSource(s, r, e, x); }
    else if !e.AppSnapAct? { OutsideSnapCache(s, r, e); }
  }

  lemma SnapWorkKeepsSource(s: State, r: Req, e: Effect, x: nat)
    requires SnapEffect(e) && !e.SAdd? && x < |Apply(s, r, e).snaps|
    ensures x < |s.snaps|
    ensures var y := Apply(s, r, e).snaps[x]; y.source == s.snaps[x].source && y.name == s.snaps[x].name
  {
  }

  lemma StepNoStray(s: State, r: Req, m: Move)
    requires r in s.reqs && SlotsInv(s) && SnapSlotInv(s, r, s.reqs[r]) && PointersInv(s) && NoStray(s)
    requires StrayContract(s, s.reqs[r], m)
    ensures NoStray(Perform(s, r, m))
  {
    var l := s.reqs[r];
    if !l.snap.Empty? {
      assert PointsAtSource(s, SnapNameOf(l.op));
      assert SlotInv(s, r, l.src, VolNameOf(l.op, Source));
    }
  }

  // ---- Tame runs panic on disagreeing sources only ----

  lemma PointerStable(s: State, r: Req)
    requires Inv(s) && PointersInv(s) && r in s.reqs && s.reqs[r].pc.SLkIn? && SnapNameOf(s.reqs[r].op) in s.sHash
    ensures var l := s.reqs[r];
            var x := SnapAt(s, s.sHash[SnapNameOf(l.op)]);
            x.volume == ObjOf(l.src) <==> x.source == VolNameOf(l.op, Source)
  {
    InvLocal(s, r);
    LooksUpSnapshot(s.reqs[r]);
    InvSlot(s, r, Source);
    InvCachedSnap(s, SnapNameOf(s.reqs[r].op));
    PointerFacts(s, r, s.reqs[r]);
  }

  lemma PointerFacts(s: State, r: Req, l: Local)
    requires l.src.Mine? && SlotInv(s, r, l.src, VolNameOf(l.op, Source))
    requires SnapNameOf(l.op) in s.sHash
    requires NamesSource(s, s.sHash[SnapNameOf(l.op)]) && PointsAtSource(s, SnapNameOf(l.op))
    ensures var x := SnapAt(s, s.sHash[SnapNameOf(l.op)]);
            x.volume == ObjOf(l.src) <==> x.source == VolNameOf(l.op, Source)
  {
  }

  lemma TameAdvance(s: State, r: Req, ans: Answer, names: Names)
    requires TameInv(s, names) && Ready(s, r) && TameAnswer(s, s.reqs[r], ans, names)
    ensures TameInv(Advance(s, r, ans), names)
  {
    var m := Act(s, r, s.reqs[r], ans);
    AdvanceKeepsInv(s, r, ans);
    MoveOk(s, r, ans);
    StepBare(s, r, m, ans, names);
    StepPointers(s, r, m, ans, names);
    InvSnapSlot(s, r);
    StepSnapBelief(s, r, m, ans, names);
    StepSources(s, r, m, names);
    StepNoStray(s, r, m);
  }

  // A request looks for a snapshot that is cached with another source.
  predicate Disagrees(s: State, l: Local) {
    l.pc.SLkIn? && SnapNameOf(l.op) in s.sHash && SnapAt(s, s.sHash[SnapNameOf(l.op)]).source != VolNameOf(l.op, Source)
  }

  lemma TamePanic(s: State, r: Req, ans: Answer, names: Names)
    requires TameInv(s, names) && Ready(s, r)
    ensures Advance(s, r, ans).panicked <==> Disagrees(s, s.reqs[r])
  {
    InvPanicExactly(s, r, ans);
    if s.reqs[r].pc.SLkIn? && SnapNameOf(s.reqs[r].op) in s.sHash { PointerStable(s, r); }
  }

  lemma AgreedSources(s: State, r: Req, names: Names)
    requires LocalInv(s) && SnapCacheInv(s) && SourcesKnown(s, names) && r in s.reqs && Functional(names)
    ensures !Disagrees(s, s.reqs[r])
  {
    if s.reqs[r].pc.SLkIn? { LooksUpSnapshot(s.reqs[r]); }
  }

  lemma LooksUpSnapshot(l: Local)
    requires LocalOk(l) && l.pc.SLkIn?
    ensures NeedsSnap(l.op) && l.src.Mine?
  {
  }

  lemma TameArrival(s: State, r: Req, op: Op, names: Names)
    requires TameInv(s, names) && r !in s.reqs && TameStep(s, Event(r, Arrive(op)), names)
    ensures TameInv(s.(reqs := s.reqs[r := InitLocal(op)]), names)
  {
    var s' := s.(reqs := s.reqs[r := InitLocal(op)]);
    ArriveKeepsInv(s, r, op);
    NewcomerOk(op);
    ArrivalPointers(s, s', names);
    ArrivalBare(s, r, op);
    ArrivalSources(s, r, op, names);
  }

  lemma ArrivalSources(s: State, r: Req, op: Op, names: Names)
    requires SourcesKnown(s, names) && NoStray(s) && r !in s.reqs && (NeedsSnap(op) ==> names(KeyOf(op)))
    ensures var s' := s.(reqs := s.reqs[r := InitLocal(op)]); SourcesKnown(s', names) && NoStray(s')
  {
  }

  lemma ArrivalBare(s: State, r: Req, op: Op)
    requires BareInv(s) && r !in s.reqs
    ensures BareInv(s.(reqs := s.reqs[r := InitLocal(op)]))
  {
    var s' := s.(reqs := s.reqs[r := InitLocal(op)]);
    forall q | q in s'.reqs ensures BareHolds(s', s'.reqs[q]) {
      if q != r { assert BareHolds(s, s.reqs[q]); }
    }
  }

  lemma ArrivalPointers(s: State, s': State, names: Names)
    requires PointersInv(s) && SnapBelief(s, names) && s' == s.(reqs := s'.reqs)
    ensures PointersInv(s') && SnapBelief(s', names)
  {
    PointersStay(s, s');
    forall k | k in s'.sHash && SnapAt(s', s'.sHash[k]).life.Created?
      ensures Founded(s', (SnapAt(s', s'.sHash[k]).source, k), names)
    {
      assert Founded(s, (SnapAt(s, s.sHash[k]).source, k), names);
    }
  }

  lemma TameStepKeeps(s: State, e: Event, s': State, names: Names)
    requires TameInv(s, names) && Step(s, e.req, e.action, s') && TameStep(s, e, names)
    ensures TameInv(s', names)
  {
    match e.action
    case Arrive(op) => TameArrival(s, e.req, op, names);
    case Go(ans) => TameAdvance(s, e.req, ans, names);
  }

  predicate TameAt(states: seq<State>, events: seq<Event>, i: nat, names: Names)
    requires i < |events| < |states|
  {
    TameStep(states[i], events[i], names)
  }

  ghost predicate TamePath(states: seq<State>, events: seq<Event>, names: Names) {
    Path(states, events) && forall i | 0 <= i < |events| :: TameAt(states, events, i, names)
  }

  lemma {:induction false} TamePathInv(states: seq<State>, events: seq<Event>, i: nat, names: Names)
    requires TamePath(states, events, names) && TameInv(states[0], names) && i < |states|
    ensures TameInv(states[i], names)
  {
    if i > 0 {
      TamePathInv(states, events, i - 1, names);
      TamePathStep(states, events, i, names);
    }
  }

  lemma TamePathStep(states: seq<State>, events: seq<Event>, i: nat, names: Names)
    requires TamePath(states, events, names) && 0 < i < |states| && TameInv(states[i - 1], names)
    ensures TameInv(states[i], names)
  {
    assert StepAt(states, events, i - 1) && TameAt(states, events, i - 1, names);
    TameStepKeeps(states[i - 1], events[i - 1], states[i], names);
  }

  /** States that tame steps lead to from s. */
  ghost predicate TameLeads(s: State, s': State, names: Names) {
    exists states, events :: TamePath(states, events, names) && states[0] == s && states[|events|] == s'
  }

  ghost predicate TameReachable(s: State, names: Names) {
    exists s0 :: Initial(s0) && TameLeads(s0, s, names)
  }

  lemma TameLeadsInv(s: State, s': State, names: Names)
    requires TameInv(s, names) && TameLeads(s, s', names)
    ensures TameInv(s', names)
  {
    var states, events :| TamePath(states, events, names) && states[0] == s && states[|events|] == s';
    TamePathInv(states, events, |events|, names);
  }

  lemma TameReachableInv(s: State, names: Names)
    requires TameReachable(s, names)
    ensures TameInv(s, names)
  {
    var s0 :| Initial(s0) && TameLeads(s0, s, names);
    InitialInv(s0);
    TameLeadsInv(s0, s, names);
  }

  /** In every state of a tame run cached snapshots point at cached volumes in stateCreated, and a snapshot
      cached in stateCreated exists on the appliance, unless its source has a snapshot that no request
      names. A step panics if and only if a request looks for a snapshot that is cached with another source,
      whatever the appliance answers. */
  lemma PanicsOnSourceExactly(s: State, r: Req, ans: Answer, names: Names)
    requires TameReachable(s, names) && Ready(s, r)
    ensures PointersInv(s) && SnapBelief(s, names)
    ensures Advance(s, r, ans).panicked <==>
              var l := s.reqs[r];
              && l.pc.SLkIn? && SnapNameOf(l.op) in s.sHash
              && SnapAt(s, s.sHash[SnapNameOf(l.op)]).source != VolNameOf(l.op, Source)
  {
    TameReachableInv(s, names);
    TamePanic(s, r, ans, names);
  }

  /** If requests name one source for each snapshot name, no tame run panics. */
  lemma NoPanic(s: State, names: Names)
    requires TameReachable(s, names) && Functional(names)
    ensures !s.panicked && TameInv(s, names)
  {
    var s0 :| Initial(s0) && TameLeads(s0, s, names);
    InitialInv(s0);
    AgreeingLeads(s0, s, names);
  }

  lemma AgreeingLeads(s: State, s': State, names: Names)
    requires TameInv(s, names) && !s.panicked && Functional(names) && TameLeads(s, s', names)
    ensures TameInv(s', names) && !s'.panicked
  {
    var states, events :| TamePath(states, events, names) && states[0] == s && states[|events|] == s';
    AgreeingPath(states, events, |events|, names);
  }

  lemma {:induction false} AgreeingPath(states: seq<State>, events: seq<Event>, i: nat, names: Names)
    requires TamePath(states, events, names) && TameInv(states[0], names) && !states[0].panicked && Functional(names)
    requires i < |states|
    ensures TameInv(states[i], names) && !states[i].panicked
  {
    if i > 0 {
      AgreeingPath(states, events, i - 1, names);
      AgreeingPathStep(states, events, i, names);
    }
  }

  lemma AgreeingPathStep(states: seq<State>, events: seq<Event>, i: nat, names: Names)
    requires TamePath(states, events, names) && Functional(names) && 0 < i < |states|
    requires TameInv(states[i - 1], names) && !states[i - 1].panicked
    ensures TameInv(states[i], names) && !states[i].panicked
  {
    assert StepAt(states, events, i - 1) && TameAt(states, events, i - 1, names);
    AgreeingStep(states[i - 1], events[i - 1], states[i], names);
  }

  lemma AgreeingStep(s: State, e: Event, s': State, names: Names)
    requires TameInv(s, names) && Functional(names) && Step(s, e.req, e.action, s') && TameStep(s, e, names)
    ensures TameInv(s', names) && !s'.panicked
  {
    TameStepKeeps(s, e, s', names);
    if e.action.Go? {
      TamePanic(s, e.req, e.action.ans, names);
      AgreedSources(s, e.req, names);
    }
  }
}
