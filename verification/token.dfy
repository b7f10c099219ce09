/**
  The session token shared by all requests to the appliance, as a transition system. One step is one
  stretch of code under the token's mutex, one access to the session fields outside it, or one call to
  the appliance. A request that is refused with status 401 reports the session it carried and is made
  once more.
 */
module Tokens {
  import opened Common

  type Thread = nat
  type Session = nat

  // The empty string, left in the session field by a failed creation.
  const NO_SESSION: Session := 0

  datatype TokenState = Invalid | Creating | Valid

  /** Where a request stands. prev is the session it reports to getToken. */
  datatype Phase =
    | Want(prev: Option<Session>)                              // at the head of getToken's loop
    | Asleep(prev: Option<Session>)                            // in Wait
    | Dialing(prev: Option<Session>)                           // asking the appliance for a session
    | Dialed(prev: Option<Session>, ok: bool)                  // the session fields are written
    | Landing(prev: Option<Session>, ok: bool, got: Session)   // and read back
    | Armed(session: Session)                                  // getToken returned a session to send
    | Done

  // attempt: how often MakeRequest has called makeRequest; sent: the sessions of the requests sent;
  // refused: which of these the appliance refused; failed: a session was asked for in vain
  datatype Local = Local(phase: Phase, attempt: nat, sent: seq<Session>, refused: seq<bool>, failed: bool)

  const NEW_REQUEST := Local(Want(None), 1, [], [], false)

  /** issued: every session the appliance created; reported: every session refused with status 401;
      retired: every session that getToken dropped. */
  datatype State = State(state: TokenState, session: Session, threads: map<Thread, Local>,
                         issued: set<Session>, reported: set<Session>, retired: set<Session>)

  const NEW_TOKEN := State(Invalid, NO_SESSION, map[], {}, {}, {})

  datatype Call =
    | Arrive(t: Thread)
    | Pass(t: Thread)
    | Dial(t: Thread, answer: Option<Session>)
    | ReadBack(t: Thread)
    | Land(t: Thread)
    | Send(t: Thread, refused: bool)

  function Waking(l: Local): Local {
    if l.phase.Asleep? then l.(phase := Want(l.phase.prev)) else l
  }

  function Broadcast(threads: map<Thread, Local>): map<Thread, Local> {
    map t | t in threads :: Waking(threads[t])
  }

  // getToken returned: makeRequest sends a request, or gives up, or reports to MakeRequest.
  function Returned(l: Local, prev: Option<Session>, ok: bool, session: Session): Local {
    if prev.None? then l.(phase := if ok then Armed(session) else Done)
    else if ok && l.attempt == 1 then l.(phase := Want(None), attempt := 2)
    else l.(phase := Done)
  }

  /** getToken under the mutex, from the head of its loop until it waits, dials or returns. */
  function Passed(s: State, t: Thread, l: Local, prev: Option<Session>): State {
    match s.state
    case Creating => s.(threads := s.threads[t := l.(phase := Asleep(prev))])
    case Invalid => s.(state := Creating, threads := s.threads[t := l.(phase := Dialing(prev))])
    case Valid =>
      if prev != Some(s.session) then s.(threads := s.threads[t := Returned(l, prev, true, s.session)])
      else s.(state := Creating, retired := s.retired + {s.session},
              threads := s.threads[t := l.(phase := Dialing(prev))])
  }

  predicate Step(s: State, c: Call, s': State) {
    match c
    case Arrive(t) => t !in s.threads && s' == s.(threads := s.threads[t := NEW_REQUEST])
    case Pass(t) =>
      && t in s.threads && s.threads[t].phase.Want?
      && s' == Passed(s, t, s.threads[t], s.threads[t].phase.prev)
    case Dial(t, answer) =>
      && t in s.threads && s.threads[t].phase.Dialing?
      && var l := s.threads[t];
      (match answer
       case Some(x) =>  // the appliance issues fresh sessions
         && x !in s.issued && x != NO_SESSION
         && s' == s.(session := x, issued := s.issued + {x},
                     threads := s.threads[t := l.(phase := Dialed(l.phase.prev, true))])
       case None =>
         s' == s.(session := NO_SESSION,
                  threads := s.threads[t := l.(phase := Dialed(l.phase.prev, false), failed := true)]))
    case ReadBack(t) =>
      && t in s.threads && s.threads[t].phase.Dialed?
      && var l := s.threads[t];
      s' == s.(threads := s.threads[t := l.(phase := Landing(l.phase.prev, l.phase.ok, s.session))])
    case Land(t) =>
      && t in s.threads && s.threads[t].phase.Landing?
      && var l := s.threads[t];
      s' == s.(state := if l.phase.ok then Valid else Invalid,
               threads := Broadcast(s.threads)[t := Returned(l, l.phase.prev, l.phase.ok, l.phase.got)])
    case Send(t, refused) =>
      && t in s.threads && s.threads[t].phase.Armed?
      && var l := s.threads[t].(sent := s.threads[t].sent + [s.threads[t].phase.session],
                                refused := s.threads[t].refused + [refused]);
      s' == if refused
            then s.(reported := s.reported + {l.phase.session},
                    threads := s.threads[t := l.(phase := Want(Some(l.phase.session)))])
            else s.(threads := s.threads[t := l.(phase := Done)])
  }

  predicate StepAt(states: seq<State>, calls: seq<Call>, i: nat)
    requires i < |calls| < |states|
  {
    Step(states[i], calls[i], states[i + 1])
  }

  /** A run from any state. */
  ghost predicate Run(states: seq<State>, calls: seq<Call>) {
    |states| == |calls| + 1 && forall i | 0 <= i < |calls| :: StepAt(states, calls, i)
  }

  ghost predicate Leads(s: State, s': State) {
    exists states, calls :: Run(states, calls) && states[0] == s && states[|calls|] == s'
  }

  ghost predicate Reachable(s: State) { Leads(NEW_TOKEN, s) }

  // ---- Single flight ----

  predicate InFlight(p: Phase) { p.Dialing? || p.Dialed? || p.Landing? }

  /** At most one thread is creating a session, and one is exactly while the token says so; threads wait
      only while one is. */
  ghost predicate FlightInv(s: State) {
    && (forall t, u | t in s.threads && u in s.threads ::
          InFlight(s.threads[t].phase) && InFlight(s.threads[u].phase) ==> t == u)
    && (forall t <- s.threads :: InFlight(s.threads[t].phase) ==> s.state.Creating?)
    && (s.state.Creating? ==> exists t :: t in s.threads && InFlight(s.threads[t].phase))
    && (forall t <- s.threads :: s.threads[t].phase.Asleep? ==> s.state.Creating?)
  }

  lemma StepKeepsFlight(s: State, c: Call, s': State)
    requires FlightInv(s) && Step(s, c, s')
    ensures FlightInv(s')
  {
    if s'.state.Creating? { StepKeepsCreator(s, c, s'); }
  }

  lemma StepKeepsCreator(s: State, c: Call, s': State)
    requires FlightInv(s) && Step(s, c, s') && s'.state.Creating?
    ensures exists t :: t in s'.threads && InFlight(s'.threads[t].phase)
  {
    if c.Pass? && !s.state.Creating? {
      assert InFlight(s'.threads[c.t].phase);
    } else {
      var t :| t in s.threads && InFlight(s.threads[t].phase);
      assert InFlight(s'.threads[t].phase);
    }
  }

  // ---- The sessions ----

  // The session that is good as far as the token knows.
  ghost predicate Live(s: State) {
    s.state.Valid? || exists t :: t in s.threads && Landed(s.threads[t].phase)
  }

  predicate Failing(p: Phase) { (p.Dialed? || p.Landing?) && !p.ok }

  predicate Landed(p: Phase) { (p.Dialed? || p.Landing?) && p.ok }

  /** Every session issued was dropped after having been reported, except the current one. */
  ghost predicate SessionInv(s: State) {
    && NO_SESSION !in s.issued
    && s.retired <= s.reported
    && s.issued == s.retired + (if Live(s) then {s.session} else {})
    && (Live(s) ==> s.session !in s.retired)
    && (forall t <- s.threads :: s.threads[t].phase.Landing? ==> s.threads[t].phase.got == s.session)
    && (forall t <- s.threads :: Failing(s.threads[t].phase) ==> s.session == NO_SESSION)
    && (s.state.Invalid? ==> s.session == NO_SESSION)
  }

  predicate InGetToken(p: Phase) { p.Want? || p.Asleep? || InFlight(p) }

  // The appliance answered the last request sent.
  predicate Answered(l: Local) { |l.refused| > 0 && !l.refused[|l.refused| - 1] }

  predicate RefusedTwice(l: Local) { |l.refused| == 2 && l.refused[0] && l.refused[1] }

  /** How a request comes to its end. */
  predicate EndOk(l: Local) {
    && |l.refused| == |l.sent|
    && (forall i | 0 <= i < |l.refused| - 1 :: l.refused[i])
    && (l.phase.Done? ==> Answered(l) || RefusedTwice(l) || l.failed)
    && (!l.phase.Done? ==> forall i | 0 <= i < |l.refused| :: l.refused[i])
    && (!l.phase.Done? ==> (l.failed <==> (l.phase.Dialed? || l.phase.Landing?) && !l.phase.ok))
  }

  predicate Reports(p: Phase) { (p.Want? || p.Asleep? || InFlight(p)) && p.prev.Some? }

  /** What one request has sent so far. */
  predicate ThreadOk(s: State, l: Local) {
    && 1 <= l.attempt <= 2 && EndOk(l)
    && (forall x <- l.sent :: x in s.issued)
    && (l.phase.Armed? ==> l.phase.session in s.issued)
    && (if l.phase.Done? then |l.sent| <= l.attempt
        else if Reports(l.phase) then |l.sent| == l.attempt && l.sent[l.attempt - 1] == l.phase.prev.value
        else |l.sent| == l.attempt - 1)
    && (Reports(l.phase) ==> l.phase.prev.value in s.reported)
    && (InFlight(l.phase) && l.phase.prev.Some? ==> l.phase.prev.value in s.retired)
    && (l.attempt == 2 ==> |l.sent| >= 1 && l.sent[0] in s.retired)
    && (l.attempt == 2 && l.phase.Armed? ==> l.phase.session != l.sent[0])
    && (|l.sent| == 2 ==> l.sent[1] != l.sent[0])
  }

  ghost predicate ThreadsInv(s: State) { forall t <- s.threads :: ThreadOk(s, s.threads[t]) }

  ghost predicate Inv(s: State) { FlightInv(s) && SessionInv(s) && ThreadsInv(s) }

  lemma PassKeepsSession(s: State, t: Thread, s': State)
    requires FlightInv(s) && SessionInv(s) && ThreadsInv(s) && Step(s, Pass(t), s')
    ensures SessionInv(s')
  {
    assert ThreadOk(s, s.threads[t]);
    if s.state.Valid? && s.threads[t].phase.prev == Some(s.session) {
      assert !Live(s');
    } else if s.state.Invalid? {
      assert !Live(s) && !Live(s');
    } else {
      assert Live(s) == Live(s') by {
        if u :| u in s.threads && Landed(s.threads[u].phase) { assert Landed(s'.threads[u].phase); }
      }
    }
  }

  lemma PassKeepsThreads(s: State, t: Thread, s': State)
    requires FlightInv(s) && SessionInv(s) && ThreadsInv(s) && Step(s, Pass(t), s')
    ensures ThreadsInv(s')
  {
    assert s.state.Invalid? ==> !Live(s);
    forall u | u in s'.threads ensures ThreadOk(s', s'.threads[u]) {
      assert u in s.threads && ThreadOk(s, s.threads[u]);
      if u == t { PassedOk(s, t, s.threads[t].phase.prev); }
    }
  }

  lemma PassedOk(s: State, t: Thread, prev: Option<Session>)
    requires t in s.threads && s.threads[t].phase == Want(prev) && ThreadOk(s, s.threads[t])
    requires s.state.Valid? ==> s.session in s.issued && s.session !in s.retired
    requires s.issued <= s.retired + (if s.state.Invalid? then {} else {s.session})
    ensures var s' := Passed(s, t, s.threads[t], prev); ThreadOk(s', s'.threads[t])
  {
  }

  lemma DialKeepsSession(s: State, t: Thread, answer: Option<Session>, s': State)
    requires FlightInv(s) && SessionInv(s) && Step(s, Dial(t, answer), s')
    ensures SessionInv(s')
  {
    assert !Live(s);
    assert answer.Some? ==> Landed(s'.threads[t].phase);
  }

  lemma DialKeepsThreads(s: State, t: Thread, answer: Option<Session>, s': State)
    requires ThreadsInv(s) && Step(s, Dial(t, answer), s')
    ensures ThreadsInv(s')
  {
    forall u | u in s'.threads ensures ThreadOk(s', s'.threads[u]) {
      assert ThreadOk(s, s.threads[u]);
    }
  }

  lemma ReadBackKeepsSession(s: State, t: Thread, s': State)
    requires FlightInv(s) && SessionInv(s) && Step(s, ReadBack(t), s')
    ensures SessionInv(s')
  {
    assert Live(s) == s.threads[t].phase.ok && Landed(s'.threads[t].phase) == s.threads[t].phase.ok;
  }

  lemma ReadBackKeepsThreads(s: State, t: Thread, s': State)
    requires ThreadsInv(s) && Step(s, ReadBack(t), s')
    ensures ThreadsInv(s')
  {
    forall u | u in s'.threads ensures ThreadOk(s', s'.threads[u]) {
      assert ThreadOk(s, s.threads[u]);
    }
  }

  lemma LandKeepsSession(s: State, t: Thread, s': State)
    requires FlightInv(s) && SessionInv(s) && Step(s, Land(t), s')
    ensures SessionInv(s')
  {
    assert Live(s) == s.threads[t].phase.ok;
    assert !exists u :: u in s'.threads && Landed(s'.threads[u].phase);
  }

  lemma LandKeepsThreads(s: State, t: Thread, s': State)
    requires FlightInv(s) && SessionInv(s) && ThreadsInv(s) && Step(s, Land(t), s')
    ensures ThreadsInv(s')
  {
    assert Live(s) == s.threads[t].phase.ok;
    forall u | u in s'.threads ensures ThreadOk(s', s'.threads[u]) {
      assert ThreadOk(s, s.threads[u]);
      if u == t { ReturnedOk(s, s', s.threads[t]); } else { WakingOk(s, s', s.threads[u]); }
    }
  }

  lemma WakingOk(s: State, s': State, l: Local)
    requires ThreadOk(s, l) && s'.issued == s.issued && s'.reported == s.reported && s'.retired == s.retired
    ensures ThreadOk(s', Waking(l))
  {
  }

  lemma ReturnedOk(s: State, s': State, l: Local)
    requires ThreadOk(s, l) && s'.issued == s.issued && s'.reported == s.reported && s'.retired == s.retired
    requires l.phase.Landing? && (l.phase.ok ==> l.phase.got in s.issued && l.phase.got !in s.retired)
    ensures ThreadOk(s', Returned(l, l.phase.prev, l.phase.ok, l.phase.got))
  {
  }

  lemma OtherKeepsSession(s: State, c: Call, s': State)
    requires FlightInv(s) && SessionInv(s) && Step(s, c, s') && (c.Arrive? || c.Send?)
    ensures SessionInv(s')
  {
    assert Live(s) == Live(s') by {
      if u :| u in s.threads && Landed(s.threads[u].phase) { assert Landed(s'.threads[u].phase); }
    }
  }

  lemma OtherKeepsThreads(s: State, c: Call, s': State)
    requires ThreadsInv(s) && Step(s, c, s') && (c.Arrive? || c.Send?)
    ensures ThreadsInv(s')
  {
    forall u | u in s'.threads ensures ThreadOk(s', s'.threads[u]) {
      if u in s.threads { assert ThreadOk(s, s.threads[u]); }
    }
  }

  lemma StepKeepsInv(s: State, c: Call, s': State)
    requires Inv(s) && Step(s, c, s')
    ensures Inv(s')
  {
    StepKeepsFlight(s, c, s');
    match c
    case Pass(t) => PassKeepsSession(s, t, s'); PassKeepsThreads(s, t, s');
    case Dial(t, answer) => DialKeepsSession(s, t, answer, s'); DialKeepsThreads(s, t, answer, s');
    case ReadBack(t) => ReadBackKeepsSession(s, t, s'); ReadBackKeepsThreads(s, t, s');
    case Land(t) => LandKeepsSession(s, t, s'); LandKeepsThreads(s, t, s');
    case _ => OtherKeepsSession(s, c, s'); OtherKeepsThreads(s, c, s');
  }

  lemma {:induction false} RunKeepsInv(states: seq<State>, calls: seq<Call>, i: nat)
    requires Run(states, calls) && i < |states| && Inv(states[0])
    ensures Inv(states[i])
  {
    if i > 0 {
      RunKeepsInv(states, calls, i - 1);
      assert StepAt(states, calls, i - 1);
      StepKeepsInv(states[i - 1], calls[i - 1], states[i]);
    }
  }

  lemma ReachableInv(s: State)
    requires Reachable(s)
    ensures Inv(s)
  {
    var states, calls :| Run(states, calls) && states[0] == NEW_TOKEN && states[|calls|] == s;
    assert !Live(NEW_TOKEN);
    RunKeepsInv(states, calls, |calls|);
  }

  // ---- What the protocol guarantees ----

  /** At most one thread is creating a session at any time, and no thread waits unless one is. */
  lemma SingleFlight(s: State, t: Thread, u: Thread)
    requires Reachable(s) && t in s.threads && u in s.threads && InFlight(s.threads[t].phase)
    ensures InFlight(s.threads[u].phase) ==> u == t
    ensures s.state.Creating?
  {
    ReachableInv(s);
  }

  lemma WaitersHaveACreator(s: State, t: Thread)
    requires Reachable(s) && t in s.threads && s.threads[t].phase.Asleep?
    ensures exists u :: u in s.threads && u != t && InFlight(s.threads[u].phase)
  {
    ReachableInv(s);
    var u :| u in s.threads && InFlight(s.threads[u].phase);
  }

  /** While a thread is creating a session, no step of another thread touches the session fields, which
      are written and read outside the mutex. */
  lemma OnlyCreatorTouchesSession(s: State, c: Call, s': State, t: Thread)
    requires Reachable(s) && Step(s, c, s') && t in s.threads && InFlight(s.threads[t].phase) && c.t != t
    ensures s'.session == s.session && !c.Dial? && !c.ReadBack? && !c.Land?
  {
    ReachableInv(s);
  }

  /** The thread that created a session returns that session. */
  lemma CreatorReturnsItsSession(s: State, t: Thread)
    requires Reachable(s) && t in s.threads && s.threads[t].phase.Landing? && s.threads[t].phase.ok
    ensures s.threads[t].phase.got == s.session && s.session in s.issued && s.session !in s.retired
  {
    ReachableInv(s);
    assert Live(s);
  }

  lemma {:induction false} SubsetSize(a: set<Session>, b: set<Session>)
    requires a <= b
    ensures |a| <= |b|
  {
    if a != {} {
      var x :| x in a;
      SubsetSize(a - {x}, b - {x});
    }
  }

  /** Over any run the number of sessions created is at most one more than the number of distinct
      sessions reported as expired. */
  lemma CreationsAreBounded(s: State)
    requires Reachable(s)
    ensures |s.issued| <= 1 + |s.reported|
    ensures s.issued <= s.reported + {s.session}
  {
    ReachableInv(s);
    SubsetSize(s.retired, s.reported);
    if Live(s) { assert |s.issued| == |s.retired| + 1; }
  }

  /** With this step getToken successfully returns session x to thread t. */
  predicate Returns(s: State, c: Call, t: Thread, x: Session)
    requires t in s.threads
  {
    var p := s.threads[t].phase;
    c.t == t
    && ((c.Pass? && p.Want? && s.state.Valid? && p.prev != Some(s.session) && x == s.session)
        || (c.Land? && p.Landing? && p.ok && x == p.got))
  }

  /** getToken given a previous session never successfully returns that session: what it returns was
      issued by the appliance, has not been dropped, and differs from everything reported to it. */
  lemma NeverReturnsPrevious(s: State, c: Call, s': State, t: Thread, x: Session)
    requires Reachable(s) && Step(s, c, s') && t in s.threads && Returns(s, c, t, x)
    ensures x in s.issued && x !in s.retired && s.threads[t].phase.prev != Some(x)
    ensures s'.state.Valid? && s'.session == x
    ensures s.threads[t].phase.prev.Some? ==> s.threads[t].phase.prev.value in s.retired
  {
    ReachableInv(s);
    assert ThreadOk(s, s.threads[t]);
    if c.Land? { assert Live(s); }
  }

  /** MakeRequest sends at most two requests, and the second never carries the session with which the
      first was refused. */
  lemma RetryMakesProgress(s: State, t: Thread)
    requires Reachable(s) && t in s.threads
    ensures var sent := s.threads[t].sent; |sent| <= 2 && (|sent| == 2 ==> sent[0] != sent[1])
    ensures var l := s.threads[t]; l.attempt == 2 ==> |l.sent| >= 1 && l.sent[0] in s.reported
  {
    ReachableInv(s);
    assert ThreadOk(s, s.threads[t]);
  }

  /** What getToken's successful return leads to. A request that was refused for the first time is made
      again; a request that has not been sent is sent with the session returned; a request that was refused
      twice is given up. */
  lemma RefusedRequestIsRepeated(s: State, c: Call, s': State, t: Thread, x: Session)
    requires Reachable(s) && Step(s, c, s') && t in s.threads && Returns(s, c, t, x)
    ensures var l, l' := s.threads[t], s'.threads[t];
            && l'.sent == l.sent && l'.refused == l.refused && l'.failed == l.failed
            && (l.phase.prev.None? ==> l'.phase == Armed(x) && l'.attempt == l.attempt)
            && (l.phase.prev.Some? && |l.sent| == 1 ==> l'.phase == Want(None) && l'.attempt == 2)
            && (l.phase.prev.Some? && |l.sent| == 2 ==> l'.phase.Done?)
            && (l.phase.prev.Some? ==> 1 <= |l.sent| <= 2)
  {
    ReachableInv(s);
    assert ThreadOk(s, s.threads[t]);
  }

  /** What getToken does under the mutex: it waits exactly while a session is being created; it asks for one
      exactly if there is none, or the one there is was reported by the caller, who drops it. */
  lemma GetTokenStep(s: State, t: Thread, s': State)
    requires Reachable(s) && Step(s, Pass(t), s')
    ensures var l, l', prev := s.threads[t], s'.threads[t], s.threads[t].phase.prev;
            && (l'.phase == Asleep(prev) <==> s.state.Creating?)
            && (l'.phase == Dialing(prev) <==> s.state.Invalid? || (s.state.Valid? && prev == Some(s.session)))
            && (s'.state.Creating? <==> l'.phase == Asleep(prev) || l'.phase == Dialing(prev))
            && s'.retired == s.retired + (if s.state.Valid? && prev == Some(s.session) then {s.session} else {})
            && s'.session == s.session && s'.issued == s.issued && s'.reported == s.reported
            && s'.threads == s.threads[t := l']
  {
  }

  /** A creation that fails leaves no session behind: getToken returns none, and there is none as long as the
      token is invalid. */
  lemma NoSessionOnFailure(s: State)
    requires Reachable(s)
    ensures s.state.Invalid? ==> s.session == NO_SESSION
    ensures forall t <- s.threads :: s.threads[t].phase.Landing? && !s.threads[t].phase.ok ==>
              s.threads[t].phase.got == NO_SESSION
  {
    ReachableInv(s);
  }

  /** A request is finished exactly when it is not inside getToken, and either the appliance answered the
      last request sent, or refused both of them, or failed to create a session for it. */
  lemma FinishedExactly(s: State, t: Thread)
    requires Reachable(s) && t in s.threads
    ensures var l := s.threads[t];
            l.phase.Done? <==> !InGetToken(l.phase) && (Answered(l) || RefusedTwice(l) || l.failed)
    ensures Answered(s.threads[t]) ==> s.threads[t].phase.Done?
  {
    ReachableInv(s);
    assert ThreadOk(s, s.threads[t]);
  }

  /** The appliance's answers are on record: a request that is sent carries the session getToken returned,
      and its refusal is reported to getToken before anything else is done. */
  lemma SendingIsRecorded(s: State, t: Thread, refused: bool, s': State)
    requires Reachable(s) && Step(s, Send(t, refused), s')
    ensures var l, l' := s.threads[t], s'.threads[t];
            && l'.sent == l.sent + [l.phase.session] && l'.refused == l.refused + [refused]
            && l'.attempt == l.attempt == |l'.sent| && l.phase.session in s.issued
            && (if refused then l'.phase == Want(Some(l.phase.session)) && l.phase.session in s'.reported
                else l'.phase.Done? && s'.reported == s.reported)
    ensures s'.state == s.state && s'.session == s.session && s'.issued == s.issued
  {
    ReachableInv(s);
    assert ThreadOk(s, s.threads[t]);
  }

  // ---- Requests served by themselves ----

  lemma LeadsRefl(s: State)
    ensures Leads(s, s)
  {
    var calls: seq<Call> := [];
    assert Run([s], calls) && [s][0] == s && [s][|calls|] == s;
  }

  lemma LeadsMore(s0: State, s: State, c: Call, s': State)
    requires Leads(s0, s) && Step(s, c, s')
    ensures Leads(s0, s')
  {
    var states, calls :| Run(states, calls) && states[0] == s0 && states[|calls|] == s;
    var states', calls' := states + [s'], calls + [c];
    forall i | 0 <= i < |calls'| ensures StepAt(states', calls', i) {
      if i < |calls| { assert StepAt(states, calls, i); }
    }
    assert Run(states', calls') && states'[0] == s0 && states'[|calls'|] == s';
  }

  /** With a valid token a new request is sent with its session, and finished if the appliance answers. */
  lemma ServedAtOnce(s: State, t: Thread) returns (s': State)
    requires s.state.Valid? && t !in s.threads
    ensures Leads(s, s') && t in s'.threads && s'.threads == s.threads[t := s'.threads[t]] && s'.session == s.session
    ensures s'.threads[t].phase.Done? && s'.threads[t].sent == [s.session] && Answered(s'.threads[t])
  {
    var l := NEW_REQUEST;
    var s1 := s.(threads := s.threads[t := l]);
    var s2 := s.(threads := s.threads[t := l.(phase := Armed(s.session))]);
    s' := s.(threads := s.threads[t := Local(Done, 1, [s.session], [false], false)]);
    LeadsRefl(s);
    LeadsMore(s, s, Arrive(t), s1);
    LeadsMore(s, s1, Pass(t), s2) by { assert s1.threads[t := s2.threads[t]] == s2.threads; }
    LeadsMore(s, s2, Send(t, false), s') by {
      assert l.sent + [s.session] == [s.session] && l.refused + [false] == [false];
      assert s2.threads[t := s'.threads[t]] == s'.threads;
    }
  }

  // Request t has been refused with session y, which the token still holds, and is alone.
  predicate RefusedAlone(s: State, t: Thread, y: Session) {
    && s.state.Valid? && s.session == y && s.threads == map[t := Local(Want(Some(y)), 1, [y], [true], false)]
  }

  /** A refused request renews the session and is made again with the new one. */
  lemma RenewedAndServed(s: State, t: Thread, y: Session, x: Session) returns (s': State)
    requires RefusedAlone(s, t, y) && x !in s.issued && x != NO_SESSION && x != y
    ensures Leads(s, s') && t in s'.threads && s'.threads[t].phase.Done? && s'.threads[t].sent == [y, x]
    ensures s'.state.Valid? && s'.session == x && Answered(s'.threads[t])
  {
    var s3 := Renewed(s, t, y, x);
    var l3 := s3.threads[t];
    var s4 := s3.(threads := map[t := l3.(phase := Armed(x))]);
    LeadsMore(s, s3, Pass(t), s4) by { assert s3.threads[t := s4.threads[t]] == s4.threads; }
    s' := s3.(threads := map[t := Local(Done, 2, [y, x], [true, false], false)]);
    LeadsMore(s, s4, Send(t, false), s') by {
      assert [y] + [x] == [y, x] && [true] + [false] == [true, false];
      assert s4.threads[t := s'.threads[t]] == s'.threads;
    }
  }

  lemma Renewed(s: State, t: Thread, y: Session, x: Session) returns (s': State)
    requires RefusedAlone(s, t, y) && x !in s.issued && x != NO_SESSION && x != y
    ensures Leads(s, s') && s'.state.Valid? && s'.session == x
    ensures s'.threads == map[t := Local(Want(None), 2, [y], [true], false)]
  {
    var l := s.threads[t];
    var s1 := s.(state := Creating, retired := s.retired + {y}, threads := map[t := l.(phase := Dialing(Some(y)))]);
    LeadsRefl(s);
    LeadsMore(s, s, Pass(t), s1) by { assert s.threads[t := s1.threads[t]] == s1.threads; }
    var s2 := s1.(session := x, issued := s.issued + {x}, threads := map[t := l.(phase := Dialed(Some(y), true))]);
    LeadsMore(s, s1, Dial(t, Some(x)), s2) by { assert s1.threads[t := s2.threads[t]] == s2.threads; }
    var s3 := s2.(threads := map[t := l.(phase := Landing(Some(y), true, x))]);
    LeadsMore(s, s2, ReadBack(t), s3) by { assert s2.threads[t := s3.threads[t]] == s3.threads; }
    s' := s3.(state := Valid, threads := map[t := Local(Want(None), 2, [y], [true], false)]);
    LeadsMore(s, s3, Land(t), s') by { assert Broadcast(s3.threads)[t := s'.threads[t]] == s'.threads; }
  }

  // ---- Resetting the token without its mutex ----

  // A failed certificate check sets the state of the token without taking its mutex.
  function Reset(s: State): State { s.(state := Invalid) }

  ghost predicate TwoInFlight(s: State) {
    exists t, u :: t in s.threads && u in s.threads && t != u
      && InFlight(s.threads[t].phase) && InFlight(s.threads[u].phase)
  }

  lemma {:induction false} RunKeepsFlight(states: seq<State>, calls: seq<Call>, i: nat)
    requires Run(states, calls) && i < |states| && FlightInv(states[0])
    ensures FlightInv(states[i])
  {
    if i > 0 {
      RunKeepsFlight(states, calls, i - 1);
      assert StepAt(states, calls, i - 1);
      StepKeepsFlight(states[i - 1], calls[i - 1], states[i]);
    }
  }

  /** Single flight survives a reset outside the mutex exactly when no session is being created at
      that moment. */
  lemma ResetBreaksExactly(s: State)
    requires Reachable(s)
    ensures (exists s' :: Leads(Reset(s), s') && TwoInFlight(s')) <==> s.state.Creating?
  {
    ReachableInv(s);
    if s.state.Creating? {
      var t :| t in s.threads && InFlight(s.threads[t].phase);
      var u := Unused(s.threads.Keys);
      var s0 := Reset(s);
      var s1 := s0.(threads := s0.threads[u := NEW_REQUEST]);
      var s2 := Passed(s1, u, s1.threads[u], None);
      var states, calls := [s0, s1, s2], [Arrive(u), Pass(u)];
      assert StepAt(states, calls, 0) && StepAt(states, calls, 1);
      assert Run(states, calls) && states[0] == s0 && states[|calls|] == s2;
      assert Leads(s0, s2);
      assert u != t && InFlight(s2.threads[u].phase) && InFlight(s2.threads[t].phase);
    } else {
      assert FlightInv(Reset(s));
      forall s' | Leads(Reset(s), s') ensures !TwoInFlight(s') {
        var states, calls :| Run(states, calls) && states[0] == Reset(s) && states[|calls|] == s';
        RunKeepsFlight(states, calls, |calls|);
      }
    }
  }

  // ---- The token in memory ----

  class Token {
    const user: string
    var password: string
    var state: TokenState
    var session: Session
    var threads: map<Thread, Local>
    ghost var issued: set<Session>
    ghost var reported: set<Session>
    ghost var retired: set<Session>

    ghost function View(): State
      reads this
    {
      State(state, session, threads, issued, reported, retired)
    }

    constructor (user: string, password: string)
      ensures this.user == user && this.password == password && View() == NEW_TOKEN
    {
      this.user, this.password := user, password;
      state, session, threads := Invalid, NO_SESSION, map[];
      issued, reported, retired := {}, {}, {};
    }

    /** getToken's loop under the mutex. */
    method GetToken(t: Thread)
      requires t in threads && threads[t].phase.Want?
      modifies this`state, this`threads, this`retired
      ensures Step(old(View()), Pass(t), View())
    {
      var l := threads[t];
      var prev := l.phase.prev;
      var looping := true;
      while looping
        invariant looping ==> threads == old(threads)
        invariant looping && !state.Invalid? ==> View() == old(View())
        invariant looping && state.Invalid? ==> Passed(View(), t, l, prev) == Passed(old(View()), t, l, prev)
        invariant !looping ==> View() == Passed(old(View()), t, l, prev)
        decreases looping, state.Valid?
      {
        match state {
          case Invalid =>
            state := Creating;
            threads := threads[t := l.(phase := Dialing(prev))];
            looping := false;
          case Creating =>
            threads := threads[t := l.(phase := Asleep(prev))];
            looping := false;
          case Valid =>
            if prev == None || prev.value != session {
              threads := threads[t := Returned(l, prev, true, session)];
              looping := false;
            } else {
              state := Invalid;
              retired := retired + {session};
            }
        }
      }
    }

    /** createZfssaSession answers, and its answer is written to the token without the mutex. */
    method CreateSession(t: Thread, answer: Option<Session>)
      requires t in threads && threads[t].phase.Dialing?
      requires answer.Some? ==> answer.value !in issued && answer.value != NO_SESSION
      modifies this`session, this`threads, this`issued
      ensures Step(old(View()), Dial(t, answer), View())
    {
      var l := threads[t];
      if answer.Some? {
        session := answer.value;
        issued := issued + {session};
      } else {
        session := NO_SESSION;
      }
      threads := threads[t := l.(phase := Dialed(l.phase.prev, answer.Some?), failed := l.failed || answer.None?)];
    }

    /** The creator reads the session fields back, still without the mutex. */
    method ReadSession(t: Thread)
      requires t in threads && threads[t].phase.Dialed?
      modifies this`threads
      ensures Step(old(View()), ReadBack(t), View())
    {
      var l := threads[t];
      threads := threads[t := l.(phase := Landing(l.phase.prev, l.phase.ok, session))];
    }

    /** The creator takes the mutex again, sets the state and wakes everyone. */
    method FinishCreation(t: Thread)
      requires t in threads && threads[t].phase.Landing?
      modifies this`state, this`threads
      ensures Step(old(View()), Land(t), View())
    {
      var l := threads[t];
      state := if l.phase.ok then Valid else Invalid;
      threads := Broadcast(threads);
      threads := threads[t := Returned(l, l.phase.prev, l.phase.ok, l.phase.got)];
    }

    /** makeRequest sends its request; the appliance refuses the session or does not. */
    method SendRequest(t: Thread, refused: bool)
      requires t in threads && threads[t].phase.Armed?
      modifies this`threads, this`reported
      ensures Step(old(View()), Send(t, refused), View())
    {
      var l := threads[t];
      l := l.(sent := l.sent + [l.phase.session], refused := l.refused + [refused]);
      if refused {
        reported := reported + {l.phase.session};
        l := l.(phase := Want(Some(l.phase.session)));
      } else {
        l := l.(phase := Done);
      }
      threads := threads[t := l];
    }
  }

  class TokenList {
    var list: map<string, Token>

    constructor ()
      ensures list == map[]
    {
      list := map[];
    }

    ghost predicate Valid()
      reads this
    {
      forall user <- list :: list[user].user == user
    }

    /** One token per user for ever: a known user gets the same token, whose password follows the last
        non-empty one given; an unknown user gets a new token without a session. */
    method LookUpToken(user: string, password: string) returns (token: Token)
      requires Valid()
      modifies this, if user in list then {list[user]} else {}
      ensures Valid() && user in list && list[user] == token
      ensures user in old(list) ==>
                && list == old(list)
                && token.View() == old(list[user].View())
                && token.password == if password != "" then password else old(list[user].password)
      ensures user !in old(list) ==>
                && fresh(token) && list == old(list)[user := token]
                && token.View() == NEW_TOKEN && token.password == password
    {
      if user in list {
        token := list[user];
        if password != "" && password != token.password {
          token.password := password;
        }
        return;
      }
      token := new Token(user, password);
      list := list[user := token];
    }
  }
}
