/** Every operation keeps the invariant of the volume objects. */
module AccessVolumeSteps {
  import opened Common
  import opened AccessModel
  import opened AccessProgram
  import opened AccessVolumes

  /** Only object o and request r's own variables change. */
  ghost predicate Touches(s: State, s': State, r: Req, n: Local, o: nat) {
    && r in s.reqs
    && n.op == s.reqs[r].op
    && s'.reqs == s.reqs[r := n]
    && s'.vHash == s.vHash
    && |s'.vols| == |s.vols|
    && o < |s.vols|
    && s'.vols[o].name == s.vols[o].name
    && (forall p | 0 <= p < |s.vols| && p != o :: s'.vols[p] == s.vols[p])
    && (forall p | p != o :: LeftBehind(s', p) == LeftBehind(s, p))
  }

  /** Slot k of request r owns the bolt of o, or holds o while nobody owns its bolt. */
  ghost predicate Entitled(s: State, r: Req, k: Which, o: nat)
    requires r in s.reqs
  {
    var sl := SlotOf(s.reqs[r], k);
    o < |s.vols| && !sl.Empty? && sl.o == o && (Owning(sl) || (s.vols[o].owner.None? && sl.Held?))
  }

  lemma OthersDoNotOwn(s: State, r: Req, k: Which, o: nat, q: Req, j: Which)
    requires SlotsInv(s) && OwnsOnceInv(s) && r in s.reqs && q in s.reqs
    requires Entitled(s, r, k, o) && (q != r || j != k)
    ensures Owning(SlotOf(s.reqs[q], j)) ==> SlotOf(s.reqs[q], j).o != o
  {
    assert SlotInv(s, r, SlotOf(s.reqs[r], k), VolNameOf(s.reqs[r].op, k));
    assert SlotInv(s, q, SlotOf(s.reqs[q], j), VolNameOf(s.reqs[q].op, j));
    assert OwnsOnce(s.reqs[r]);
  }

  /** An operation by the owner of a bolt, or one taking a free bolt, leaves all other slots valid. */
  lemma OwnerKeepsSlots(s: State, s': State, r: Req, n: Local, k: Which, o: nat)
    requires VolInv(s) && Touches(s, s', r, n, o) && Entitled(s, r, k, o)
    requires OnlyVol(s.reqs[r], n, k, SlotOf(n, k)) && SlotInv(s', r, SlotOf(n, k), VolNameOf(n.op, k))
    ensures SlotsInv(s')
  {
    forall q, j: Which | q in s'.reqs ensures SlotInv(s', q, SlotOf(s'.reqs[q], j), VolNameOf(s'.reqs[q].op, j)) {
      if q != r || j != k {
        OthersDoNotOwn(s, r, k, o, q, j);
        assert SlotOf(s'.reqs[q], j) == SlotOf(s.reqs[q], j);
        assert SlotInv(s, q, SlotOf(s.reqs[q], j), VolNameOf(s.reqs[q].op, j));
      }
    }
  }

  lemma OwnerKeepsOwners(s: State, s': State, r: Req, n: Local, k: Which, o: nat)
    requires VolInv(s) && Touches(s, s', r, n, o) && Entitled(s, r, k, o)
    requires OnlyVol(s.reqs[r], n, k, SlotOf(n, k)) && (SlotOf(n, k).Empty? || SlotOf(n, k).o == o)
    requires s'.vols[o].owner == if Owning(SlotOf(n, k)) then Some(r) else None
    ensures OwnersInv(s') && OwnsOnceInv(s')
  {
    var j := if k.Target? then Source else Target;
    OthersDoNotOwn(s, r, k, o, r, j);
    assert OwnsOnce(s.reqs[r]);
    forall p | 0 <= p < |s'.vols| && s'.vols[p].owner.Some?
      ensures s'.vols[p].owner.value in s'.reqs && OwnsVol(s'.reqs[s'.vols[p].owner.value], p)
    {
      if p != o { assert OwnsVol(s.reqs[s.vols[p].owner.value], p); }
    }
  }

  lemma OwnerKeepsCache(s: State, s': State, r: Req, n: Local, o: nat)
    requires CacheInv(s) && Touches(s, s', r, n, o)
    requires s'.vols[o].life.Created? || s'.vols[o].refcount > 0 || s'.vols[o].owner.Some? || LeftBehind(s', o)
    ensures CacheInv(s')
  {
  }

  ghost predicate VolReady(s: State, r: Req, m: Move) {
    && r in s.reqs
    && TidyInv(s) && VMutexInv(s) && VolInv(s) && RefInv(s) && DeadInv(s) && StrayInv(s)
    && VolContract(s, s.reqs[r], m) && m.next.op == s.reqs[r].op
    && Guarded(s, m.eff) && Tidy(m.next)
  }

  // A request that works on its current slot is not the writer that left another object behind.
  lemma CurrentSlot(s: State, r: Req, o: nat)
    requires r in s.reqs && TidyInv(s) && VMutexInv(s) && SlotsInv(s)
    requires !Cur(s.reqs[r]).Empty? && Cur(s.reqs[r]).o == o
    ensures SlotInv(s, r, Cur(s.reqs[r]), CurName(s.reqs[r]))
    ensures Cur(s.reqs[r]).Leaving? ==> LeftBehind(s, o)
    ensures forall p | p != o && LeftBehind(s, p) :: s.vWriter != Some(r)
  {
  }

  lemma Positive(s: State, r: Req, k: Which)
    requires RefInv(s) && r in s.reqs && Counted(SlotOf(s.reqs[r], k)) && CachedVol(s, SlotOf(s.reqs[r], k).o)
    ensures s.vols[SlotOf(s.reqs[r], k).o].refcount > 0
  {
    var o := SlotOf(s.reqs[r], k).o;
    assert Counts(s.reqs[r], k, o);
    assert (r, k) in Holders(s.reqs, o);
  }

  lemma TakeVol(s: State, r: Req, m: Move)
    requires VolReady(s, r, m) && m.eff.VTake?
    ensures VolInv(Perform(s, r, m))
  {
    var s', l, o := Perform(s, r, m), s.reqs[r], m.eff.o;
    CurrentSlot(s, r, o);
    OwnerKeepsSlots(s, s', r, m.next, l.which, o);
    OwnerKeepsOwners(s, s', r, m.next, l.which, o);
    OwnerKeepsCache(s, s', r, m.next, o);
  }

  lemma CountVol(s: State, r: Req, m: Move)
    requires VolReady(s, r, m) && m.eff.VCount? && s.reqs[r].stray.None?
    ensures VolInv(Perform(s, r, m))
  {
    var s', l, o := Perform(s, r, m), s.reqs[r], m.eff.o;
    CurrentSlot(s, r, o);
    Positive(s, r, l.which);
    OwnerKeepsSlots(s, s', r, m.next, l.which, o);
    OwnerKeepsOwners(s, s', r, m.next, l.which, o);
    OwnerKeepsCache(s, s', r, m.next, o);
  }

  // Counting down a stray volume changes an object that nobody refers to.
  lemma CountStrayVol(s: State, r: Req, m: Move)
    requires VolReady(s, r, m) && m.eff.VCount? && s.reqs[r].stray.Some?
    ensures VolInv(Perform(s, r, m))
  {
    var s', l, o := Perform(s, r, m), s.reqs[r], m.eff.o;
    assert GoneAstray(s, l);
    SameLeftBehind(s, s', r, m.next);
    assert s'.vols == s.vols[o := s.vols[o].(refcount := s.vols[o].refcount - 1)];
    forall q, j: Which | q in s'.reqs ensures SlotInv(s', q, SlotOf(s'.reqs[q], j), VolNameOf(s'.reqs[q].op, j)) {
      assert SlotOf(s'.reqs[q], j) == SlotOf(s.reqs[q], j);
      assert SlotInv(s, q, SlotOf(s.reqs[q], j), VolNameOf(s.reqs[q].op, j));
    }
    SameOwners(s, s', r, m.next);
  }

  lemma FreeVol(s: State, r: Req, m: Move)
    requires VolReady(s, r, m) && m.eff.VFree?
    ensures VolInv(Perform(s, r, m))
  {
    var s', l, o := Perform(s, r, m), s.reqs[r], m.eff.o;
    CurrentSlot(s, r, o);
    OwnerKeepsSlots(s, s', r, m.next, l.which, o);
    OwnerKeepsOwners(s, s', r, m.next, l.which, o);
    OwnerKeepsCache(s, s', r, m.next, o);
  }

  lemma ActVolTouches(s: State, r: Req, m: Move)
    requires r in s.reqs && Tidy(s.reqs[r]) && Tidy(m.next) && VMutexInv(s) && VolContract(s, s.reqs[r], m)
    requires m.next.op == s.reqs[r].op && m.eff.VAct? && m.eff.o < |s.vols|
    ensures Touches(s, Perform(s, r, m), r, m.next, m.eff.o)
  {
    SameLeftBehind(s, Perform(s, r, m), r, m.next);
  }

  lemma ActVol(s: State, r: Req, m: Move)
    requires VolReady(s, r, m) && m.eff.VAct?
    ensures VolInv(Perform(s, r, m))
  {
    var s', l, o := Perform(s, r, m), s.reqs[r], m.eff.o;
    var k := Touched(l);
    assert SlotInv(s, r, SlotOf(l, k), VolNameOf(l.op, k));
    ActVolTouches(s, r, m);
    OwnerKeepsSlots(s, s', r, m.next, k, o);
    OwnerKeepsOwners(s, s', r, m.next, k, o);
    OwnerKeepsCache(s, s', r, m.next, o);
  }

  lemma SameOwners(s: State, s': State, r: Req, n: Local)
    requires r in s.reqs && OwnersInv(s) && OwnsOnceInv(s) && s'.reqs == s.reqs[r := n]
    requires |s'.vols| == |s.vols| && forall p | 0 <= p < |s.vols| :: s'.vols[p].owner == s.vols[p].owner
    requires forall p :: OwnsVol(n, p) == OwnsVol(s.reqs[r], p)
    requires OwnsOnce(n)
    ensures OwnersInv(s') && OwnsOnceInv(s')
  {
    forall p | 0 <= p < |s'.vols| && s'.vols[p].owner.Some?
      ensures s'.vols[p].owner.value in s'.reqs && OwnsVol(s'.reqs[s'.vols[p].owner.value], p)
    {
      assert OwnsVol(s.reqs[s.vols[p].owner.value], p);
    }
  }

  lemma HoldVolSlots(s: State, r: Req, m: Move)
    requires r in s.reqs && SlotsInv(s) && CacheInv(s) && RefInv(s) && Tidy(s.reqs[r]) && Tidy(m.next)
    requires VolContract(s, s.reqs[r], m) && m.next.op == s.reqs[r].op && m.eff.VHold?
    ensures SlotsInv(Perform(s, r, m))
  {
    var s', l, o := Perform(s, r, m), s.reqs[r], m.eff.o;
    assert s'.vols == s.vols[o := s.vols[o].(refcount := s.vols[o].refcount + 1)];
    SameLeftBehind(s, s', r, m.next);
    forall q, j: Which | q in s'.reqs ensures SlotInv(s', q, SlotOf(s'.reqs[q], j), VolNameOf(s'.reqs[q].op, j)) {
      if q != r || j != l.which {
        assert SlotOf(s'.reqs[q], j) == SlotOf(s.reqs[q], j);
        assert SlotInv(s, q, SlotOf(s.reqs[q], j), VolNameOf(s.reqs[q].op, j));
      }
    }
  }

  lemma HoldVol(s: State, r: Req, m: Move)
    requires VolReady(s, r, m) && m.eff.VHold?
    ensures VolInv(Perform(s, r, m))
  {
    var s', o := Perform(s, r, m), m.eff.o;
    HoldVolSlots(s, r, m);
    SameLeftBehind(s, s', r, m.next);
    assert CachedVol(s, o) && s.vols[o].refcount == |Holders(s.reqs, o)|;
    SameOwners(s, s', r, m.next);
  }

  lemma AddVol(s: State, r: Req, m: Move)
    requires VolReady(s, r, m) && m.eff.VAdd?
    ensures VolInv(Perform(s, r, m))
  {
    var s', l := Perform(s, r, m), s.reqs[r];
    SameLeftBehind(s, s', r, m.next);
    forall q, j: Which | q in s'.reqs ensures SlotInv(s', q, SlotOf(s'.reqs[q], j), VolNameOf(s'.reqs[q].op, j)) {
      if q != r || j != l.which {
        assert SlotOf(s'.reqs[q], j) == SlotOf(s.reqs[q], j);
        assert SlotInv(s, q, SlotOf(s.reqs[q], j), VolNameOf(s.reqs[q].op, j));
      }
    }
    var j := if l.which.Target? then Source else Target;
    assert SlotInv(s, r, SlotOf(l, j), VolNameOf(l.op, j));
    forall p | 0 <= p < |s'.vols| && s'.vols[p].owner.Some?
      ensures s'.vols[p].owner.value in s'.reqs && OwnsVol(s'.reqs[s'.vols[p].owner.value], p)
    {
      if p < |s.vols| { assert OwnsVol(s.reqs[s.vols[p].owner.value], p); }
    }
  }

  // Unless an operation gives up an object, the writer's slot does not start or stop leaving.
  lemma SameLeftBehind(s: State, s': State, r: Req, n: Local)
    requires r in s.reqs && Tidy(s.reqs[r]) && Tidy(n)
    requires s'.vWriter == s.vWriter && s'.reqs == s.reqs[r := n]
    requires forall o :: n.tgt == Leaving(o) <==> s.reqs[r].tgt == Leaving(o)
    requires forall o :: n.src == Leaving(o) <==> s.reqs[r].src == Leaving(o)
    ensures forall p :: LeftBehind(s', p) == LeftBehind(s, p)
  {
  }

  /** When a writer finds its object unreferenced, no other request refers to the object at all. */
  lemma NobodyElse(s: State, r: Req, o: nat, q: Req, j: Which)
    requires TidyInv(s) && VMutexInv(s) && SlotsInv(s) && RefInv(s)
    requires r in s.reqs && Cur(s.reqs[r]) == Leaving(o) && o < |s.vols| && s.vols[o].refcount == 0
    requires q in s.reqs && (q != r || j != s.reqs[r].which)
    ensures SlotOf(s.reqs[q], j).Empty? || SlotOf(s.reqs[q], j).o != o
  {
    var sl := SlotOf(s.reqs[q], j);
    assert Tidy(s.reqs[r]) && Tidy(s.reqs[q]);
    assert SlotInv(s, q, sl, VolNameOf(s.reqs[q].op, j));
    if Counted(sl) && sl.o == o { Positive(s, q, j); }
  }

  lemma RemoveVol(s: State, r: Req, m: Move)
    requires VolReady(s, r, m) && m.eff.VRemove?
    ensures VolInv(Perform(s, r, m))
  {
    var s', l, o := Perform(s, r, m), s.reqs[r], m.eff.o;
    CurrentSlot(s, r, o);
    assert s'.vHash == HashDelete(s.vHash, s.vols[o].name);
    assert forall p :: !LeftBehind(s', p) by { assert Tidy(m.next) && Tidy(l); }
    forall q, j: Which | q in s'.reqs ensures SlotInv(s', q, SlotOf(s'.reqs[q], j), VolNameOf(s'.reqs[q].op, j)) {
      if q != r || j != l.which {
        NobodyElse(s, r, o, q, j);
        assert SlotOf(s'.reqs[q], j) == SlotOf(s.reqs[q], j);
        assert SlotInv(s, q, SlotOf(s.reqs[q], j), VolNameOf(s.reqs[q].op, j));
      }
    }
    SameOwners(s, s', r, m.next);
    forall n | n in s'.vHash ensures s'.vols[s'.vHash[n]].life.Created? || s'.vols[s'.vHash[n]].refcount > 0
                                     || s'.vols[s'.vHash[n]].owner.Some?
    {
      assert n in s.vHash && s.vHash[n] != o;
    }
  }

  /** Operations that change neither objects nor slots. */
  lemma FrameVol(s: State, s': State, r: Req, n: Local)
    requires r in s.reqs && VolInv(s)
    requires s'.vols == s.vols && s'.vHash == s.vHash && s'.reqs == s.reqs[r := n]
    requires SameVols(s.reqs[r], n) && n.op == s.reqs[r].op
    requires forall p :: LeftBehind(s', p) == LeftBehind(s, p)
    ensures VolInv(s')
  {
    forall q, j: Which | q in s'.reqs ensures SlotInv(s', q, SlotOf(s'.reqs[q], j), VolNameOf(s'.reqs[q].op, j)) {
      assert SlotOf(s'.reqs[q], j) == SlotOf(s.reqs[q], j);
      assert SlotInv(s, q, SlotOf(s.reqs[q], j), VolNameOf(s.reqs[q].op, j));
    }
    SameOwners(s, s', r, n);
  }

  lemma LockVol(s: State, r: Req, m: Move)
    requires VolReady(s, r, m)
    requires m.eff.VRLock? || m.eff.VRUnlock? || m.eff.VLock? || m.eff.VUnlock?
    ensures VolInv(Perform(s, r, m))
  {
    assert Tidy(s.reqs[r]);
    FrameVol(s, Perform(s, r, m), r, m.next);
  }

  lemma SkipVol(s: State, r: Req, m: Move)
    requires VolReady(s, r, m) && m.eff.Skip? && Cur(s.reqs[r]).Leaving?
    ensures VolInv(Perform(s, r, m))
  {
    var s', o := Perform(s, r, m), Cur(s.reqs[r]).o;
    CurrentSlot(s, r, o);
    if SameVols(s.reqs[r], m.next) {
      SameLeftBehind(s, s', r, m.next);
      FrameVol(s, s', r, m.next);
    } else {
      SkipKeepsVol(s, r, m, o);
    }
  }

  // The writer keeps an object that is in use again or in stateCreated.
  lemma SkipKeepsVol(s: State, r: Req, m: Move, o: nat)
    requires VolReady(s, r, m) && m.eff.Skip? && Cur(s.reqs[r]) == Leaving(o) && LeftBehind(s, o)
    requires OnlyVol(s.reqs[r], m.next, s.reqs[r].which, Empty)
    requires o < |s.vols| && (s.vols[o].refcount > 0 || s.vols[o].life.Created?)
    ensures VolInv(Perform(s, r, m))
  {
    var s', l := Perform(s, r, m), s.reqs[r];
    assert forall p :: !LeftBehind(s', p) by { assert Tidy(m.next) && Tidy(l); }
    forall q, j: Which | q in s'.reqs ensures SlotInv(s', q, SlotOf(s'.reqs[q], j), VolNameOf(s'.reqs[q].op, j)) {
      if q != r || j != l.which {
        assert SlotOf(s'.reqs[q], j) == SlotOf(s.reqs[q], j);
        assert SlotInv(s, q, SlotOf(s.reqs[q], j), VolNameOf(s.reqs[q].op, j));
      }
    }
    SameOwners(s, s', r, m.next);
  }

  // ---- The reference count ----

  lemma SameCounts(s: State, s': State, r: Req, n: Local)
    requires r in s.reqs && RefInv(s) && s'.reqs == s.reqs[r := n] && |s'.vols| == |s.vols|
    requires forall p | 0 <= p < |s.vols| && CachedVol(s', p) ::
               CachedVol(s, p) && s'.vols[p].refcount == s.vols[p].refcount
    requires forall k: Which, p :: Counts(n, k, p) == Counts(s.reqs[r], k, p)
    ensures RefInv(s')
  {
    forall p | 0 <= p < |s.vols| && CachedVol(s', p) ensures s'.vols[p].refcount == |Holders(s'.reqs, p)| {
      HoldersSame(s.reqs, r, n, p);
    }
  }

  lemma HoldRef(s: State, r: Req, m: Move)
    requires VolReady(s, r, m) && m.eff.VHold?
    ensures RefInv(Perform(s, r, m))
  {
    var s', l, o := Perform(s, r, m), s.reqs[r], m.eff.o;
    forall p | 0 <= p < |s'.vols| && CachedVol(s', p) ensures s'.vols[p].refcount == |Holders(s'.reqs, p)| {
      assert CachedVol(s, p);
      if p == o { HoldersMore(s.reqs, r, m.next, l.which, o); } else { HoldersSame(s.reqs, r, m.next, p); }
    }
  }

  lemma AddRef(s: State, r: Req, m: Move)
    requires VolReady(s, r, m) && m.eff.VAdd?
    ensures RefInv(Perform(s, r, m))
  {
    var s', l, o := Perform(s, r, m), s.reqs[r], |s.vols|;
    forall q, k: Which | q in s.reqs ensures !Counts(s.reqs[q], k, o) {
      assert SlotInv(s, q, SlotOf(s.reqs[q], k), VolNameOf(s.reqs[q].op, k));
    }
    assert Holders(s.reqs, o) == {};
    forall p | 0 <= p < |s'.vols| && CachedVol(s', p) ensures s'.vols[p].refcount == |Holders(s'.reqs, p)| {
      if p == o { HoldersMore(s.reqs, r, m.next, l.which, o); }
      else { assert CachedVol(s, p); HoldersSame(s.reqs, r, m.next, p); }
    }
  }

  lemma CountRef(s: State, r: Req, m: Move)
    requires VolReady(s, r, m) && m.eff.VCount?
    ensures RefInv(Perform(s, r, m))
  {
    var s', l, o := Perform(s, r, m), s.reqs[r], m.eff.o;
    if l.stray.Some? {
      assert GoneAstray(s, l);
      SameCounts(s, s', r, m.next);
    } else {
      CurrentSlot(s, r, o);
      forall p | 0 <= p < |s'.vols| && CachedVol(s', p) ensures s'.vols[p].refcount == |Holders(s'.reqs, p)| {
        assert CachedVol(s, p);
        if p == o { HoldersFewer(s.reqs, r, m.next, l.which, o); } else { HoldersSame(s.reqs, r, m.next, p); }
      }
    }
  }

  lemma TakeRef(s: State, r: Req, m: Move)
    requires r in s.reqs && RefInv(s) && VolContract(s, s.reqs[r], m) && m.eff.VTake?
    ensures RefInv(Perform(s, r, m))
  {
    SameCounts(s, Perform(s, r, m), r, m.next);
  }

  lemma FreeRef(s: State, r: Req, m: Move)
    requires r in s.reqs && RefInv(s) && VolContract(s, s.reqs[r], m) && m.eff.VFree?
    ensures RefInv(Perform(s, r, m))
  {
    SameCounts(s, Perform(s, r, m), r, m.next);
  }

  lemma RemoveRef(s: State, r: Req, m: Move)
    requires r in s.reqs && RefInv(s) && VolContract(s, s.reqs[r], m) && m.eff.VRemove?
    ensures RefInv(Perform(s, r, m))
  {
    SameCounts(s, Perform(s, r, m), r, m.next);
  }

  lemma ActRef(s: State, r: Req, m: Move)
    requires r in s.reqs && RefInv(s) && VolContract(s, s.reqs[r], m) && m.eff.VAct?
    ensures RefInv(Perform(s, r, m))
  {
    SameCounts(s, Perform(s, r, m), r, m.next);
  }

  lemma SkipRef(s: State, r: Req, m: Move)
    requires VolReady(s, r, m) && m.eff.Skip? && Cur(s.reqs[r]).Leaving?
    ensures RefInv(Perform(s, r, m))
  {
    SameCounts(s, Perform(s, r, m), r, m.next);
  }

  // ---- Objects that have left the cache ----

  // No object leaves or enters the cache, and only object o changes, which is cached or stays gone.
  lemma SameDead(s: State, s': State, o: nat)
    requires DeadInv(s) && s'.vHash == s.vHash && |s'.vols| == |s.vols|
    requires forall p | 0 <= p < |s.vols| :: s'.vols[p].name == s.vols[p].name
    requires forall p | 0 <= p < |s.vols| && p != o :: s'.vols[p] == s.vols[p]
    requires o < |s.vols| && !CachedVol(s, o) ==>
               s'.vols[o].refcount <= 0 && s'.vols[o].owner.None? && !s'.vols[o].life.Created?
    ensures DeadInv(s')
  {
  }

  lemma WorkDead(s: State, r: Req, m: Move)
    requires VolReady(s, r, m)
    requires m.eff.VHold? || m.eff.VTake? || m.eff.VFree?
    ensures DeadInv(Perform(s, r, m))
  {
    assert SlotInv(s, r, Cur(s.reqs[r]), CurName(s.reqs[r]));
    SameDead(s, Perform(s, r, m), m.eff.o);
  }

  lemma CountDead(s: State, r: Req, m: Move)
    requires r in s.reqs && SlotsInv(s) && StrayInv(s) && DeadInv(s)
    requires VolContract(s, s.reqs[r], m) && m.eff.VCount?
    ensures DeadInv(Perform(s, r, m))
  {
    assert SlotInv(s, r, Cur(s.reqs[r]), CurName(s.reqs[r]));
    assert GoneAstray(s, s.reqs[r]);
    SameDead(s, Perform(s, r, m), m.eff.o);
  }

  lemma ActDead(s: State, r: Req, m: Move)
    requires r in s.reqs && SlotsInv(s) && DeadInv(s) && VolContract(s, s.reqs[r], m) && m.eff.VAct?
    ensures DeadInv(Perform(s, r, m))
  {
    var l, k := s.reqs[r], Touched(s.reqs[r]);
    assert SlotInv(s, r, SlotOf(l, k), VolNameOf(l.op, k));
    SameDead(s, Perform(s, r, m), m.eff.o);
  }

  lemma AddDead(s: State, r: Req, m: Move)
    requires VolReady(s, r, m) && m.eff.VAdd?
    ensures DeadInv(Perform(s, r, m))
  {
    var s' := Perform(s, r, m);
    forall p | 0 <= p < |s'.vols| && !CachedVol(s', p)
      ensures s'.vols[p].refcount <= 0 && s'.vols[p].owner.None? && !s'.vols[p].life.Created?
    {
      assert p < |s.vols| && !CachedVol(s, p);
    }
  }

  lemma RemoveDead(s: State, r: Req, m: Move)
    requires VolReady(s, r, m) && m.eff.VRemove?
    ensures DeadInv(Perform(s, r, m))
  {
    var s', o := Perform(s, r, m), m.eff.o;
    CurrentSlot(s, r, o);
    RemovedIsFree(s, r, o);
    forall p | 0 <= p < |s'.vols| && !CachedVol(s', p)
      ensures s'.vols[p].refcount <= 0 && s'.vols[p].owner.None? && !s'.vols[p].life.Created?
    {
      if p != o { assert !CachedVol(s, p); }
    }
  }

  lemma RemovedIsFree(s: State, r: Req, o: nat)
    requires TidyInv(s) && VMutexInv(s) && SlotsInv(s) && OwnersInv(s) && RefInv(s)
    requires r in s.reqs && Cur(s.reqs[r]) == Leaving(o) && o < |s.vols| && s.vols[o].refcount == 0
    ensures s.vols[o].owner.None?
  {
    forall q | q in s.reqs ensures !OwnsVol(s.reqs[q], o) {
      forall j: Which ensures !(Owning(SlotOf(s.reqs[q], j)) && SlotOf(s.reqs[q], j).o == o) {
        if q != r || j != s.reqs[r].which { NobodyElse(s, r, o, q, j); }
      }
      assert !(Owning(SlotOf(s.reqs[q], Target)) && SlotOf(s.reqs[q], Target).o == o);
      assert !(Owning(SlotOf(s.reqs[q], Source)) && SlotOf(s.reqs[q], Source).o == o);
    }
  }

  // Stray volumes stay out of the cache.
  lemma StrayStays(s: State, s': State, r: Req, n: Local)
    requires StrayInv(s) && r in s.reqs && s'.reqs == s.reqs[r := n] && GoneAstray(s, n)
    requires |s'.vols| >= |s.vols|
    requires forall p | 0 <= p < |s.vols| && !CachedVol(s, p) :: !CachedVol(s', p)
    ensures StrayInv(s')
  {
    forall q | q in s'.reqs ensures GoneAstray(s', s'.reqs[q]) {
      if q != r { assert GoneAstray(s, s.reqs[q]); }
    }
  }

  lemma NoReturn(s: State, r: Req, m: Move, p: nat)
    requires r in s.reqs && VolContract(s, s.reqs[r], m) && p < |s.vols| && !CachedVol(s, p)
    ensures p < |Perform(s, r, m).vols| && !CachedVol(Perform(s, r, m), p)
  {
    if m.eff.VAdd? { assert Perform(s, r, m).vHash == s.vHash[m.eff.name := |s.vols|]; }
    else if !VolEffect(m.eff) && !VolLock(m.eff) { ApplyOutside(s, r, m.eff); }
  }

  // ---- All operations ----

  predicate VolEffect(e: Effect) {
    || e.VHold? || e.VAdd? || e.VTake? || e.VCount? || e.VFree? || e.VRemove? || e.VAct?
  }

  predicate VolLock(e: Effect) { e.VRLock? || e.VRUnlock? || e.VLock? || e.VUnlock? }

  lemma EffectVol(s: State, r: Req, m: Move)
    requires VolReady(s, r, m) && VolEffect(m.eff)
    ensures VolInv(Perform(s, r, m)) && RefInv(Perform(s, r, m)) && DeadInv(Perform(s, r, m))
  {
    match m.eff
    case VHold(_) => HoldVol(s, r, m); HoldRef(s, r, m); WorkDead(s, r, m);
    case VAdd(_) => AddVol(s, r, m); AddRef(s, r, m); AddDead(s, r, m);
    case VTake(_) => TakeVol(s, r, m); TakeRef(s, r, m); WorkDead(s, r, m);
    case VCount(_) =>
      if s.reqs[r].stray.Some? { CountStrayVol(s, r, m); } else { CountVol(s, r, m); }
      CountRef(s, r, m);
      CountDead(s, r, m);
    case VFree(_) => FreeVol(s, r, m); FreeRef(s, r, m); WorkDead(s, r, m);
    case VRemove(_) => RemoveVol(s, r, m); RemoveRef(s, r, m); RemoveDead(s, r, m);
    case VAct(_, _, _) => ActVol(s, r, m); ActRef(s, r, m); ActDead(s, r, m);
  }

  lemma ApplyOutside(s: State, r: Req, e: Effect)
    requires !VolEffect(e) && !VolLock(e)
    ensures Apply(s, r, e).vols == s.vols && Apply(s, r, e).vHash == s.vHash && Apply(s, r, e).vWriter == s.vWriter
  {
  }

  // An operation outside the volume cache that leaves the request's volume slots alone.
  lemma QuietVol(s: State, s': State, r: Req, n: Local)
    requires r in s.reqs && TidyInv(s) && Tidy(n) && VolInv(s) && RefInv(s)
    requires s'.vols == s.vols && s'.vHash == s.vHash && s'.vWriter == s.vWriter && s'.reqs == s.reqs[r := n]
    requires SameVols(s.reqs[r], n) && n.op == s.reqs[r].op
    ensures VolInv(s') && RefInv(s')
  {
    SameLeftBehind(s, s', r, n);
    FrameVol(s, s', r, n);
    SameCounts(s, s', r, n);
  }

  lemma QuietContract(s: State, l: Local, m: Move)
    requires VolContract(s, l, m) && !VolEffect(m.eff) && !VolLock(m.eff)
    requires m.eff.Skip? ==> !Cur(l).Leaving?
    ensures SameVols(l, m.next)
  {
  }

  lemma LockVMutex(s: State, r: Req, m: Move)
    requires VolReady(s, r, m) && VolLock(m.eff)
    ensures VMutexInv(Perform(s, r, m))
  {
  }

  lemma SameMode(s: State, l: Local, m: Move)
    requires VolContract(s, l, m) && !VolLock(m.eff)
    ensures m.next.vm == l.vm
  {
  }

  lemma QuietVMutex(s: State, s': State, r: Req, n: Local)
    requires r in s.reqs && VMutexInv(s) && n.vm == s.reqs[r].vm
    requires s'.reqs == s.reqs[r := n] && s'.vReaders == s.vReaders && s'.vWriter == s.vWriter
    ensures VMutexInv(s')
  {
  }

  lemma ApplyKeepsVMutex(s: State, r: Req, e: Effect)
    requires !VolLock(e)
    ensures Apply(s, r, e).vReaders == s.vReaders && Apply(s, r, e).vWriter == s.vWriter
  {
  }

  /** Every step that honours its contract keeps the volume objects, their cache and its mutex
      consistent, and no stray volume is ever in the cache. */
  lemma StepVol(s: State, r: Req, m: Move)
    requires VolReady(s, r, m) && GoneAstray(s, m.next)
    ensures VMutexInv(Perform(s, r, m)) && VolInv(Perform(s, r, m)) && RefInv(Perform(s, r, m))
    ensures DeadInv(Perform(s, r, m)) && StrayInv(Perform(s, r, m))
  {
    StepStray(s, r, m);
    if VolLock(m.eff) {
      StepVolLock(s, r, m);
    } else {
      SameMode(s, s.reqs[r], m);
      ApplyKeepsVMutex(s, r, m.eff);
      QuietVMutex(s, Perform(s, r, m), r, m.next);
      StepVolObjects(s, r, m);
    }
  }

  lemma StepStray(s: State, r: Req, m: Move)
    requires r in s.reqs && StrayInv(s) && VolContract(s, s.reqs[r], m) && GoneAstray(s, m.next)
    ensures StrayInv(Perform(s, r, m))
  {
    var s' := Perform(s, r, m);
    forall p | 0 <= p < |s.vols| && !CachedVol(s, p) ensures p < |s'.vols| && !CachedVol(s', p) {
      NoReturn(s, r, m, p);
    }
    VolsNeverFewer(s, r, m.eff);
    StrayStays(s, s', r, m.next);
  }

  lemma StepVolLock(s: State, r: Req, m: Move)
    requires VolReady(s, r, m) && VolLock(m.eff)
    ensures VMutexInv(Perform(s, r, m)) && VolInv(Perform(s, r, m))
    ensures RefInv(Perform(s, r, m)) && DeadInv(Perform(s, r, m))
  {
    LockVMutex(s, r, m);
    LockVol(s, r, m);
    LockRef(s, r, m);
    LockKeepsVols(s, r, m.eff);
  }

  lemma LockKeepsVols(s: State, r: Req, e: Effect)
    requires VolLock(e)
    ensures Apply(s, r, e).vols == s.vols && Apply(s, r, e).vHash == s.vHash
  {
  }

  lemma VolsNeverFewer(s: State, r: Req, e: Effect)
    ensures |Apply(s, r, e).vols| >= |s.vols|
  {
  }

  lemma StepVolObjects(s: State, r: Req, m: Move)
    requires VolReady(s, r, m) && !VolLock(m.eff)
    ensures VolInv(Perform(s, r, m)) && RefInv(Perform(s, r, m)) && DeadInv(Perform(s, r, m))
  {
    if VolEffect(m.eff) {
      EffectVol(s, r, m);
    } else {
      ApplyOutside(s, r, m.eff);
      SameDead(s, Perform(s, r, m), 0);
      if m.eff.Skip? && Cur(s.reqs[r]).Leaving? {
        SkipVol(s, r, m);
        SkipRef(s, r, m);
      } else {
        QuietContract(s, s.reqs[r], m);
        QuietVol(s, Perform(s, r, m), r, m.next);
      }
    }
  }

  lemma LockRef(s: State, r: Req, m: Move)
    requires VolReady(s, r, m) && VolLock(m.eff)
    ensures RefInv(Perform(s, r, m))
  {
    SameCounts(s, Perform(s, r, m), r, m.next);
  }
}
