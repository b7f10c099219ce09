/**
  Bolt, the lock of every volume and snapshot object: a context guarded by a mutex and a condition
  variable. One step is one stretch of code under the mutex: a pass of Lock's loop, which takes the
  bolt or goes to sleep, or an Unlock, which signals one sleeper. A signalled thread competes for the
  mutex with newcomers, and may find the bolt taken again.
 */
module Bolts {
  import opened Common

  type Thread = nat

  datatype Context = Nil | Ctx(id: nat)

  /** The threads asleep in Wait, those signalled but not yet running, and those between the return of
      their Lock and the return of their Unlock; all other threads are outside. */
  datatype BoltState = BoltState(context: Context, asleep: set<Thread>, woken: set<Thread>,
                                 inside: set<Thread>, panicked: bool)

  const NEW_BOLT := BoltState(Nil, {}, {}, {}, false)

  // Signal wakes the sleeper pick, if anyone sleeps.
  datatype Call = Lock(t: Thread) | Resume(t: Thread) | Unlock(t: Thread, pick: Option<Thread>)

  predicate Outside(s: BoltState, t: Thread) { t !in s.asleep && t !in s.woken && t !in s.inside }

  // One pass of the loop in Lock.
  function Pass(s: BoltState, t: Thread, c: Context): BoltState {
    if s.context.Nil? then s.(context := c, woken := s.woken - {t}, inside := s.inside + {t})
    else s.(woken := s.woken - {t}, asleep := s.asleep + {t})
  }

  predicate CanSignal(s: BoltState, pick: Option<Thread>) {
    if pick.Some? then pick.value in s.asleep else s.asleep == {}
  }

  function Signal(s: BoltState, pick: Option<Thread>): BoltState {
    if pick.Some? then s.(asleep := s.asleep - {pick.value}, woken := s.woken + {pick.value}) else s
  }

  function Unlocked(s: BoltState, t: Thread, c: Context, pick: Option<Thread>): BoltState {
    if s.context != c then s.(panicked := true)
    else Signal(s.(context := Nil, inside := s.inside - {t}), pick)
  }

  // ctx gives the context each thread passes to Lock and Unlock. Any thread that is not blocked may
  // call Unlock, whether or not it holds the bolt.
  predicate Step(ctx: Thread -> Context, s: BoltState, call: Call, s': BoltState) {
    && !s.panicked
    && match call
       case Lock(t) => Outside(s, t) && s' == Pass(s, t, ctx(t))
       case Resume(t) => t in s.woken && s' == Pass(s, t, ctx(t))
       case Unlock(t, pick) =>
         t !in s.asleep && t !in s.woken && CanSignal(s, pick) && s' == Unlocked(s, t, ctx(t), pick)
  }

  predicate StepAt(ctx: Thread -> Context, states: seq<BoltState>, calls: seq<Call>, i: nat)
    requires i < |calls| < |states|
  {
    Step(ctx, states[i], calls[i], states[i + 1])
  }

  ghost predicate Run(ctx: Thread -> Context, states: seq<BoltState>, calls: seq<Call>) {
    && |states| == |calls| + 1
    && states[0] == NEW_BOLT
    && forall i | 0 <= i < |calls| :: StepAt(ctx, states, calls, i)
  }

  ghost predicate Reachable(ctx: Thread -> Context, s: BoltState) {
    exists states, calls :: Run(ctx, states, calls) && states[|calls|] == s
  }

  // ---- The hypothesis on contexts ----

  ghost predicate NonNil(ctx: Thread -> Context) { forall t :: ctx(t) != Nil }

  ghost predicate DistinctContexts(ctx: Thread -> Context) { forall t, u :: t != u ==> ctx(t) != ctx(u) }

  // ---- Every reachable state ----

  /** The context is that of the one thread inside, and a free bolt has nobody asleep unless somebody
      is awake to take it. */
  ghost predicate Inv(ctx: Thread -> Context, s: BoltState) {
    && (forall t :: t in s.inside ==> s.context == ctx(t))
    && (s.inside == {} ==> s.context == Nil)
    && s.asleep !! s.woken !! s.inside
    && (s.context == Nil && s.asleep != {} ==> s.woken != {})
  }

  lemma StepKeepsInv(ctx: Thread -> Context, s: BoltState, call: Call, s': BoltState)
    requires NonNil(ctx) && DistinctContexts(ctx) && Inv(ctx, s) && Step(ctx, s, call, s')
    ensures Inv(ctx, s')
  {
    match call
    case Lock(t) =>
    case Resume(t) =>
    case Unlock(t, pick) =>
      if s.context == ctx(t) {
        assert forall u | u in s.inside :: u == t;
        assert s.inside - {t} == {};
      }
  }

  lemma {:induction false} RunInv(ctx: Thread -> Context, states: seq<BoltState>, calls: seq<Call>, i: nat)
    requires NonNil(ctx) && DistinctContexts(ctx) && Run(ctx, states, calls) && i < |states|
    ensures Inv(ctx, states[i])
  {
    if i > 0 {
      RunInv(ctx, states, calls, i - 1);
      assert StepAt(ctx, states, calls, i - 1);
      StepKeepsInv(ctx, states[i - 1], calls[i - 1], states[i]);
    }
  }

  lemma ReachableInv(ctx: Thread -> Context, s: BoltState)
    requires NonNil(ctx) && DistinctContexts(ctx) && Reachable(ctx, s)
    ensures Inv(ctx, s)
  {
    var states, calls :| Run(ctx, states, calls) && states[|calls|] == s;
    RunInv(ctx, states, calls, |calls|);
  }

  /** No wake-up is lost: although Unlock signals one sleeper only and newcomers may overtake it, a free
      bolt with sleepers always has a thread on its way to take it. */
  lemma NoLostWakeUp(ctx: Thread -> Context, s: BoltState)
    requires NonNil(ctx) && DistinctContexts(ctx) && Reachable(ctx, s)
    requires s.context == Nil && s.asleep != {}
    ensures exists t :: t in s.woken && t !in s.asleep && t !in s.inside
  {
    ReachableInv(ctx, s);
    var t :| t in s.woken;
  }

  /** Unlock panics exactly when its caller does not hold the bolt. */
  lemma PanicExactly(ctx: Thread -> Context, s: BoltState, t: Thread, pick: Option<Thread>)
    requires NonNil(ctx) && DistinctContexts(ctx) && Reachable(ctx, s) && !s.panicked
    ensures Unlocked(s, t, ctx(t), pick).panicked <==> t !in s.inside
  {
    ReachableInv(ctx, s);
  }

  // ---- Mutual exclusion ----

  ghost predicate Exclusive(s: BoltState) { forall t, u | t in s.inside && u in s.inside :: t == u }

  ghost predicate AlwaysExclusive(ctx: Thread -> Context) { forall s | Reachable(ctx, s) :: Exclusive(s) }

  lemma NewReachable(ctx: Thread -> Context)
    ensures Reachable(ctx, NEW_BOLT)
  {
    var calls: seq<Call> := [];
    assert Run(ctx, [NEW_BOLT], calls) && [NEW_BOLT][|calls|] == NEW_BOLT;
  }

  lemma ReachableStep(ctx: Thread -> Context, s: BoltState, call: Call, s': BoltState)
    requires Reachable(ctx, s) && Step(ctx, s, call, s')
    ensures Reachable(ctx, s')
  {
    var states, calls :| Run(ctx, states, calls) && states[|calls|] == s;
    var states', calls' := states + [s'], calls + [call];
    forall i | 0 <= i < |calls'| ensures StepAt(ctx, states', calls', i) {
      if i < |calls| { assert StepAt(ctx, states, calls, i); }
    }
    assert Run(ctx, states', calls') && states'[|calls'|] == s';
  }

  /** A nil context leaves the bolt looking free to the next thread. */
  lemma NilBreaksExclusion(ctx: Thread -> Context, t: Thread, u: Thread) returns (s: BoltState)
    requires t != u && ctx(t) == Nil
    ensures Reachable(ctx, s) && s.inside == {t, u}
  {
    var s1 := Pass(NEW_BOLT, t, Nil);
    s := Pass(s1, u, ctx(u));
    NewReachable(ctx);
    ReachableStep(ctx, NEW_BOLT, Lock(t), s1);
    ReachableStep(ctx, s1, Lock(u), s);
  }

  /** A shared context lets one thread unlock the bolt of another unnoticed. */
  lemma SharedContextBreaksExclusion(ctx: Thread -> Context, t: Thread, u: Thread) returns (s: BoltState)
    requires t != u && ctx(t) == ctx(u) && ctx(t) != Nil
    ensures Reachable(ctx, s) && s.inside == {t, u}
  {
    var s1 := Pass(NEW_BOLT, t, ctx(t));
    var s2 := Unlocked(s1, u, ctx(u), None);
    s := Pass(s2, u, ctx(u));
    NewReachable(ctx);
    ReachableStep(ctx, NEW_BOLT, Lock(t), s1);
    ReachableStep(ctx, s1, Unlock(u, None), s2);
    ReachableStep(ctx, s2, Lock(u), s);
  }

  /** Whatever sequence of calls the threads make, right or wrong, at most one thread is inside at any
      time, exactly when every context is non-nil and no two threads share one. */
  lemma ExclusionExactly(ctx: Thread -> Context)
    ensures AlwaysExclusive(ctx) <==> NonNil(ctx) && DistinctContexts(ctx)
  {
    if NonNil(ctx) && DistinctContexts(ctx) {
      forall s | Reachable(ctx, s) ensures Exclusive(s) {
        ReachableInv(ctx, s);
      }
    } else if !NonNil(ctx) {
      var t: Thread :| ctx(t) == Nil;
      var s := NilBreaksExclusion(ctx, t, t + 1);
      assert t in s.inside && t + 1 in s.inside;
    } else {
      var t: Thread, u: Thread :| t != u && ctx(t) == ctx(u);
      var s := SharedContextBreaksExclusion(ctx, t, u);
      assert t in s.inside && u in s.inside;
    }
  }

  // ---- The bolt as the protocol sees it ----

  // The owner in the atomic view: the thread inside, if any.
  ghost function Owner(s: BoltState): Option<Thread> {
    if s.inside == {} then None else var t :| t in s.inside; Some(t)
  }

  /** Seen from the outside, a step does nothing, gives the free bolt to the calling thread, or takes it
      from the thread inside: the condition variable implements an atomic acquire that waits until the
      bolt has no owner, and an atomic release. */
  lemma RefinesAtomicLock(ctx: Thread -> Context, s: BoltState, call: Call, s': BoltState)
    requires NonNil(ctx) && DistinctContexts(ctx) && Reachable(ctx, s) && Step(ctx, s, call, s')
    ensures match call
            case Unlock(t, _) => if Owner(s) == Some(t) then Owner(s') == None && !s'.panicked
                                 else Owner(s') == Owner(s) && s'.panicked
            case _ => if Owner(s) == None then Owner(s') == Some(call.t) else Owner(s') == Owner(s)
    ensures call.Lock? || call.Resume? ==> (Owner(s') == Some(call.t) <==> call.t !in s'.asleep)
  {
    ReachableInv(ctx, s);
    ReachableStep(ctx, s, call, s');
    ReachableInv(ctx, s');
  }

  // ---- The bolt in memory ----

  class Bolt {
    var context: Context
    var asleep: set<Thread>  // the notify list of the condition variable
    var woken: set<Thread>
    ghost var inside: set<Thread>
    var panicked: bool

    ghost function View(): BoltState
      reads this
    {
      BoltState(context, asleep, woken, inside, panicked)
    }

    constructor ()
      ensures View() == NEW_BOLT
    {
      context, asleep, woken, inside, panicked := Nil, {}, {}, {}, false;
    }

    /** Thread t runs Lock from its start, or from the return of Wait, until it has the bolt or sleeps. */
    method Lock(t: Thread, c: Context) returns (acquired: bool)
      requires !panicked && t !in asleep && t !in inside
      modifies this
      ensures View() == Pass(old(View()), t, c)
      ensures acquired == (t in inside) && acquired != (t in asleep)
    {
      woken := woken - {t};
      if context != Nil {
        asleep := asleep + {t};
        acquired := false;
      } else {
        context := c;
        inside := inside + {t};
        acquired := true;
      }
    }

    method Unlock(t: Thread, c: Context)
      requires !panicked
      modifies this
      ensures exists pick :: CanSignal(old(View()), pick) && View() == Unlocked(old(View()), t, c, pick)
    {
      ghost var pick: Option<Thread> := None;
      if context != c {
        panicked := true;
        if asleep != {} { ghost var u :| u in asleep; pick := Some(u); }
      } else {
        context := Nil;
        inside := inside - {t};
        if asleep != {} {
          var u :| u in asleep;
          asleep, woken := asleep - {u}, woken + {u};
          pick := Some(u);
        }
      }
      assert CanSignal(old(View()), pick) && View() == Unlocked(old(View()), t, c, pick);
    }
  }
}
