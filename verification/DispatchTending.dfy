/**
 Who looks after the queue of a session: the invariant that somebody does, the only steps
 that break it, and what a prompt in the queue may wait for.
 */
module DispatchTending {
  import opened Options
  import opened SessionState
  import opened Dispatch
  import opened DispatchInvariant
  import opened DispatchSteps
  import opened DispatchTheorems

  /** A turn of the session is under way: it will release activeRequests and hand off. */
  predicate Runs(t: Thread, sid: string) {
    t.call.sessionID == sid && (t.phase == Entered || t.phase == Streaming)
  }

  /** The goroutine will come to a handoff of the session: its turn is under way or ended
      well, or it holds a handed-off call that no recorded cancel covers. */
  predicate Tends(t: Thread, sid: string, mark: nat) {
    t.call.sessionID == sid
    && (Runs(t, sid) || t.phase == Finishing
        || (t.phase == Dispatched && !t.top && t.call.accepted.Some? && t.call.accepted.value > mark))
  }

  predicate Running(s: Sys, sid: string) {
    exists t <- s.threads :: Runs(t, sid)
  }

  predicate Tended(s: Sys, sid: string) {
    exists t <- s.threads :: Tends(t, sid, s.agent.Mark(sid))
  }

  /** A session that looks busy is, and a queue that holds a prompt has somebody to take it. */
  predicate Watched(s: Sys, sid: string) {
    && (sid in s.agent.activeRequests ==> Running(s, sid))
    && (s.agent.Queue(sid) != [] ==> Tended(s, sid))
  }

  /** No goroutine but the i-th has a turn of the session under way. */
  predicate RunsAlone(s: Sys, i: nat, sid: string) {
    forall j :: 0 <= j < |s.threads| && j != i ==> !Runs(s.threads[j], sid)
  }

  predicate TendsAlone(s: Sys, i: nat, sid: string) {
    forall j :: 0 <= j < |s.threads| && j != i ==> !Tends(s.threads[j], sid, s.agent.Mark(sid))
  }

  /** A turn of the session fails: with its message streaming, or before. */
  predicate FailsTurn(s: Sys, step: Step, sid: string) {
    (step.StreamError? || step.EarlyFail?) && Enabled(s, step) && Sid(s, step.i) == sid
  }

  /** A failing turn leaves the session unattended: it was the only one that kept the session
      busy, or the only goroutine that would have taken the queue. */
  predicate Abandons(s: Sys, step: Step, sid: string) {
    FailsTurn(s, step, sid)
    && ((sid in s.agent.activeRequests && RunsAlone(s, step.i, sid))
        || (s.agent.Queue(sid) != [] && TendsAlone(s, step.i, sid)))
  }

  // ------------------------------------------------------------------ moving one goroutine

  /** What a step may change of the session while goroutine t becomes t'. */
  predicate Keeps(a: AgentState, a': AgentState, t: Thread, t': Thread, sid: string) {
    && (sid in a'.activeRequests ==> (sid in a.activeRequests && (Runs(t, sid) ==> Runs(t', sid))) || Runs(t', sid))
    && (a'.Queue(sid) != [] ==>
          && a'.Mark(sid) <= a.Mark(sid)
          && (Tends(t, sid, a.Mark(sid)) ==> Tends(t', sid, a'.Mark(sid)))
          && (a.Queue(sid) != [] || sid in a.activeRequests))
  }

  lemma RunsTends(s: Sys, sid: string)
    requires Running(s, sid)
    ensures Tended(s, sid)
  {
    var t :| t in s.threads && Runs(t, sid);
    assert Tends(t, sid, s.agent.Mark(sid));
  }

  lemma MoveWatched(s: Sys, s': Sys, i: nat, sid: string)
    requires Watched(s, sid) && i < |s.threads| && |s'.threads| == |s.threads|
    requires s'.threads == s.threads[i := s'.threads[i]]
    requires Keeps(s.agent, s'.agent, s.threads[i], s'.threads[i], sid)
    ensures Watched(s', sid)
  {
    var t' := s'.threads[i];
    assert t' in s'.threads;
    if sid in s'.agent.activeRequests && !Runs(t', sid) {
      var j :| 0 <= j < |s.threads| && Runs(s.threads[j], sid);
      assert s'.threads[j] == s.threads[j] && s'.threads[j] in s'.threads;
    }
    if s'.agent.Queue(sid) != [] && !Tends(t', sid, s'.agent.Mark(sid)) {
      if s.agent.Queue(sid) == [] { RunsTends(s, sid); }
      var j :| 0 <= j < |s.threads| && Tends(s.threads[j], sid, s.agent.Mark(sid));
      assert s'.threads[j] == s.threads[j] && s'.threads[j] in s'.threads;
    }
  }

  /** The goroutines stay, the session's queue may be emptied. */
  lemma SameThreadsWatched(s: Sys, s': Sys, sid: string)
    requires Watched(s, sid) && |s'.threads| == |s.threads|
    requires forall i :: 0 <= i < |s.threads| ==> s'.threads[i] == s.threads[i].(hit := s'.threads[i].hit)
    requires s'.agent.activeRequests == s.agent.activeRequests
    requires s'.agent.Queue(sid) != [] ==> s.agent.Queue(sid) != [] && s'.agent.Mark(sid) == s.agent.Mark(sid)
    ensures Watched(s', sid)
  {
    if sid in s.agent.activeRequests {
      var j :| 0 <= j < |s.threads| && Runs(s.threads[j], sid);
      assert s'.threads[j] in s'.threads;
    }
    if s'.agent.Queue(sid) != [] {
      var j :| 0 <= j < |s.threads| && Tends(s.threads[j], sid, s.agent.Mark(sid));
      assert s'.threads[j] in s'.threads;
    }
  }

  lemma JoinWatched(s: Sys, s': Sys, sid: string)
    requires Watched(s, sid) && s.threads <= s'.threads
    requires s'.agent.activeRequests == s.agent.activeRequests && s'.agent.messageQueue == s.agent.messageQueue
    requires s'.agent.cancelMark == s.agent.cancelMark
    ensures Watched(s', sid)
  {
    assert forall t :: t in s.threads ==> t in s'.threads;
  }

  // ------------------------------------------------------------------------ single steps

  lemma LowerMark(a: AgentState, sid: string, x: string)
    ensures a.EndAccepted(sid).Mark(x) <= a.Mark(x)
    ensures a.EndAccepted(sid).Queue(x) == a.Queue(x) && a.EndAccepted(sid).activeRequests == a.activeRequests
  {
  }

  lemma GateWatched(s: Sys, i: nat, sid: string)
    requires Watched(s, sid) && At(s, i, Reserved) && s.threads[i].top
    ensures Watched(DoGate(s, i), sid)
  {
    LowerMark(s.agent, Sid(s, i), sid);
    MoveWatched(s, DoGate(s, i), i, sid);
  }

  lemma PreRunFailWatched(s: Sys, i: nat, err: Outcome, sid: string)
    requires Watched(s, sid) && At(s, i, Dispatched) && s.threads[i].top
    ensures Watched(DoFail(s, i, err), sid)
  {
    MoveWatched(s, DoFail(s, i, err), i, sid);
  }

  /** The dispatch section on the agent: only a busy session's queue grows. */
  lemma EnterAgent(a: AgentState, call: Call, x: string)
    requires call.accepted.Some?
    ensures var sid := call.sessionID; var a' := a.Enter(call); var entry := a.EntryOf(sid, call.accepted.value);
            && a'.Mark(x) <= a.Mark(x)
            && (x in a'.activeRequests <==> x in a.activeRequests || (x == sid && entry == Active))
            && (a'.Queue(x) == a.Queue(x) || (x == sid && entry == Enqueued && sid in a.activeRequests))
  {
  }

  lemma EnterWatched(s: Sys, i: nat, persist: Outcome, sid: string)
    requires ThreadsOk(s) && Watched(s, sid) && Enabled(s, Enter(i, persist))
    ensures Watched(DoEnter(s, i, persist), sid)
  {
    var t := s.threads[i];
    var entry := s.agent.EntryOf(t.call.sessionID, t.call.accepted.value);
    EnterAgent(s.agent, t.call, sid);
    EnterThreads(s, i, persist);
    EnterRest(s, i, persist);
    hide DoEnter;
    var s' := DoEnter(s, i, persist);
    if Tends(t, sid, s.agent.Mark(sid)) && entry == Enqueued {
      EnqueuedBehind(s, s', i, sid);
    } else {
      MoveWatched(s, s', i, sid);
    }
  }

  /** A handed-off call that finds the session busy goes back to the queue, behind the turn
      that keeps it busy. */
  lemma EnqueuedBehind(s: Sys, s': Sys, i: nat, sid: string)
    requires Watched(s, sid) && i < |s.threads| && |s'.threads| == |s.threads|
    requires s'.threads == s.threads[i := s'.threads[i]]
    requires !Runs(s.threads[i], sid) && sid in s.agent.activeRequests
    ensures Watched(s', sid)
  {
    var j :| 0 <= j < |s.threads| && Runs(s.threads[j], sid);
    assert s'.threads[j] == s.threads[j] && s'.threads[j] in s'.threads;
  }

  lemma EnterLocalWatched(s: Sys, i: nat, sid: string)
    requires ThreadsOk(s) && Watched(s, sid) && At(s, i, Dispatched) && s.threads[i].call.accepted.None?
    ensures Watched(DoEnterLocal(s, i), sid)
  {
    MoveWatched(s, DoEnterLocal(s, i), i, sid);
  }

  lemma InstallWatched(s: Sys, i: nat, sid: string)
    requires Watched(s, sid) && At(s, i, Entered)
    ensures Watched(DoInstall(s, i), sid)
  {
    MoveWatched(s, DoInstall(s, i), i, sid);
  }

  lemma ReleaseWatched(s: Sys, i: nat, sid: string)
    requires Watched(s, sid) && At(s, i, Streaming)
    ensures Watched(DoRelease(s, i), sid)
  {
    MoveWatched(s, DoRelease(s, i), i, sid);
  }

  lemma UnwindWatched(s: Sys, i: nat, sid: string)
    requires Watched(s, sid) && At(s, i, Unwinding) && s.threads[i].frames > 0
    ensures Watched(DoUnwind(s, i), sid)
  {
    MoveWatched(s, DoUnwind(s, i), i, sid);
  }

  lemma ReturnWatched(s: Sys, i: nat, sid: string)
    requires Watched(s, sid) && At(s, i, Unwinding)
    ensures Watched(DoReturn(s, i), sid)
  {
    LowerMark(s.agent, Sid(s, i), sid);
    MoveWatched(s, DoReturn(s, i), i, sid);
  }

  lemma HandoffAgent(a: AgentState, sid: string, x: string)
    ensures var a' := a.Handoff(sid);
            && a'.activeRequests == a.activeRequests && a'.Mark(x) <= a.Mark(x)
            && (x != sid ==> a'.Queue(x) == a.Queue(x))
            && (a'.Queue(sid) != [] ==> a.HandoffQueue(sid) != [])
            && (a.HandoffQueue(sid) != [] ==> a.Queue(sid) != [] && a'.acceptSeqGen == a.acceptSeqGen + 1)
  {
    hide Covered;
  }

  lemma HandoffThread(s: Sys, i: nat, ctxDone: bool)
    requires i < |s.threads|
    ensures var s' := DoHandoff(s, i, ctxDone); var t, t' := s.threads[i], s'.threads[i]; var sid := Sid(s, i);
            && |s'.threads| == |s.threads| && s'.threads == s.threads[i := t'] && s'.agent == s.agent.Handoff(sid)
            && (if s.agent.HandoffQueue(sid) == [] then t'.phase == Unwinding && t'.call == t.call
                else t'.phase == Dispatched && !t'.top
                     && t'.call == s.agent.HandoffQueue(sid)[0].(accepted := Some(s'.agent.acceptSeqGen)))
  {
    hide CancelledEvents, Select, OwesRunComplete, Uncovered, Broker;
  }

  lemma UncoveredFirst(s: Sys, sid: string)
    requires Inv(s) && s.agent.HandoffQueue(sid) != []
    ensures s.agent.HandoffQueue(sid)[0].sessionID == sid
  {
    hide Conserved, CountsOk, HitsOk;
    var q := s.agent.Queue(sid);
    UncoveredMembers(q, s.agent.Mark(sid));
    var c := s.agent.HandoffQueue(sid)[0];
    assert c in q;
    var j :| 0 <= j < |q| && q[j] == c;
    assert QueuedOk(q[j], sid, s.agent.Mark(sid), s.agent.acceptSeqGen);
  }

  lemma HandoffWatched(s: Sys, i: nat, ctxDone: bool, sid: string)
    requires Inv(s) && Watched(s, sid) && At(s, i, Finishing)
    ensures Watched(DoHandoff(s, i, ctxDone), sid)
  {
    HandoffAgent(s.agent, Sid(s, i), sid);
    HandoffThread(s, i, ctxDone);
    if s.agent.HandoffQueue(Sid(s, i)) != [] { UncoveredFirst(s, Sid(s, i)); }
    assert s.agent.Mark(sid) <= s.agent.acceptSeqGen;
    hide DoHandoff, Inv;
    MoveWatched(s, DoHandoff(s, i, ctxDone), i, sid);
  }

  lemma QueueStepsWatched(s: Sys, sid: string, x: string, mark: nat)
    requires Watched(s, sid)
    ensures Watched(s.(agent := s.agent.Drain(x)), sid) && Watched(s.(agent := s.agent.SetQueue(x, [])), sid)
    ensures Watched(s.(agent := s.agent.CancelRecord(x, mark)), sid)
  {
    SameThreadsWatched(s, s.(agent := s.agent.Drain(x)), sid);
    SameThreadsWatched(s, s.(agent := s.agent.SetQueue(x, [])), sid);
    SameThreadsWatched(s, s.(agent := s.agent.CancelRecord(x, mark)), sid);
  }

  lemma OnlyAgent(s: Sys, s': Sys, sid: string)
    requires Watched(s.(agent := s'.agent), sid) && s'.threads == s.threads
    ensures Watched(s', sid)
  {
  }

  /** The steps outside any goroutine's turn, and DrainStep: the goroutines stay. */
  lemma AgentStepWatched(s: Sys, step: Step, sid: string)
    requires Watched(s, sid) && Enabled(s, step)
    requires step.DrainStep? || step.CancelRecord? || step.ClearQueue? || step.Shutdown? || step.CancelSnapshot?
    ensures Watched(Do(s, step), sid)
  {
    hide Watched, CancelledEvents, Select;
    match step
    case DrainStep(i) =>
      QueueStepsWatched(s, sid, Sid(s, i), 0);
      OnlyAgent(s, DoDrainStep(s, i), sid);
    case CancelRecord(x) =>
      QueueStepsWatched(s, sid, x, s.cancelling[x]);
      OnlyAgent(s, DoCancelRecord(s, x), sid);
    case ClearQueue(x) =>
      QueueStepsWatched(s, sid, x, 0);
      OnlyAgent(s, DoClearQueue(s, x), sid);
    case Shutdown => OnlyAgent(s, s.(closing := true), sid);
    case CancelSnapshot(x) => SameThreadsWatched(s, DoCancelSnapshot(s, x), sid);
  }

  /** Failing turns of other sessions change nothing here. */
  lemma ForeignFailWatched(s: Sys, step: Step, sid: string)
    requires Watched(s, sid) && Enabled(s, step) && (step.StreamError? || step.EarlyFail?) && Sid(s, step.i) != sid
    ensures Watched(Do(s, step), sid)
  {
    hide Hooked, Broker;
    FailThread(s, step);
    MoveWatched(s, Do(s, step), step.i, sid);
  }

  lemma FailThread(s: Sys, step: Step)
    requires Enabled(s, step) && (step.StreamError? || step.EarlyFail?)
    ensures var s' := Do(s, step); var t' := s'.threads[step.i];
            && |s'.threads| == |s.threads| && s'.threads == s.threads[step.i := t'] && s'.agent == s.agent
            && t'.phase == Unwinding && t'.call == s.threads[step.i].call
  {
  }

  /** Every step but a failing turn of the session keeps it watched. */
  lemma StepWatched(s: Sys, step: Step, sid: string)
    requires Inv(s) && Watched(s, sid) && !FailsTurn(s, step, sid)
    ensures Watched(Next(s, step), sid)
  {
    hide Watched, Inv, DoEnter, DoHandoff, DoCancelSnapshot, DoCancelRecord, DoDrainStep, DoReturn, DoGate, DoFail,
         DoInstall, DoRelease, DoUnwind, DoEnterLocal, DoStreamError, DoClearQueue;
    InvThreads(s);
    if Enabled(s, step) {
      match step
      case SendMessage(x, runID) => JoinWatched(s, DoSendMessage(s, x, runID), sid);
      case LocalCall(x, runID) => JoinWatched(s, DoLocalCall(s, x, runID), sid);
      case Gate(i) =>
        assert ThreadOk(s.threads[i], s.agent.acceptSeqGen);
        GateWatched(s, i, sid);
      case PreRunFail(i, err) => PreRunFailWatched(s, i, err, sid);
      case Enter(i, persist) => EnterWatched(s, i, persist, sid);
      case EnterLocal(i) => EnterLocalWatched(s, i, sid);
      case EarlyFail(i, err) => ForeignFailWatched(s, step, sid);
      case StreamError(i, err) => ForeignFailWatched(s, step, sid);
      case Install(i) => InstallWatched(s, i, sid);
      case Release(i) => ReleaseWatched(s, i, sid);
      case Handoff(i, ctxDone) => HandoffWatched(s, i, ctxDone, sid);
      case Unwind(i) => UnwindWatched(s, i, sid);
      case Return(i) => ReturnWatched(s, i, sid);
      case _ => AgentStepWatched(s, step, sid);
    }
  }

  /** A failing turn of the session leaves it unattended exactly when it abandons it. */
  lemma FailWatched(s: Sys, step: Step, sid: string)
    requires Watched(s, sid) && FailsTurn(s, step, sid)
    ensures Watched(Do(s, step), sid) <==> !Abandons(s, step, sid)
  {
    FailThread(s, step);
    hide Do;
    var i, s' := step.i, Do(s, step);
    if !RunsAlone(s, i, sid) {
      var j :| 0 <= j < |s.threads| && j != i && Runs(s.threads[j], sid);
      assert s'.threads[j] == s.threads[j];
    }
    if !TendsAlone(s, i, sid) {
      var j :| 0 <= j < |s.threads| && j != i && Tends(s.threads[j], sid, s.agent.Mark(sid));
      assert s'.threads[j] == s.threads[j];
    }
  }

  // ------------------------------------------------------------------------------ theorems

  /** From a watched state exactly one kind of step leads to an unwatched one: an error of the
      only turn that keeps the session busy, or of the only goroutine that would take its
      queue. */
  lemma UnwatchedExactlyBy(states: seq<Sys>, steps: seq<Step>, n: nat, sid: string)
    requires Run(states, steps) && n < |steps| && Watched(states[n], sid)
    ensures Watched(states[n + 1], sid) <==> !Abandons(states[n], steps[n], sid)
  {
    hide Watched, Inv, Do;
    assert Follows(states, steps, n);
    RunInv(states, steps, n);
    if FailsTurn(states[n], steps[n], sid) {
      FailWatched(states[n], steps[n], sid);
    } else {
      StepWatched(states[n], steps[n], sid);
    }
  }

  /** As long as no failing turn has abandoned the session, somebody looks after it. */
  lemma {:induction false} WatchedUnlessAbandoned(states: seq<Sys>, steps: seq<Step>, n: nat, sid: string)
    requires Run(states, steps) && n < |states|
    requires forall m :: 0 <= m < n ==> !Abandons(states[m], steps[m], sid)
    ensures Watched(states[n], sid)
  {
    hide Next, Abandons;
    if n > 0 {
      WatchedUnlessAbandoned(states, steps, n - 1, sid);
      UnwatchedExactlyBy(states, steps, n - 1, sid);
    }
  }

  lemma NobodyTends(s: Sys, sid: string)
    requires AllGone(s) && Watched(s, sid)
    ensures s.agent.Queue(sid) == [] && sid !in s.agent.activeRequests
  {
    assert forall t :: t in s.threads ==> t.phase == Gone;
  }

  /** So when every goroutine has ended, no prompt is left in the queue of such a session, and
      a prompt that was neither refused nor lost has had its one terminal event. */
  lemma {:induction false} QuiescentUnlessAbandoned(states: seq<Sys>, steps: seq<Step>, n: nat, k: Key)
    requires Run(states, steps) && n < |states| && AllGone(states[n])
    requires k.runID != "" && states[n].accepted[k] > 0
    requires forall m :: 0 <= m < n ==> !Abandons(states[m], steps[m], k.sessionID)
    ensures states[n].agent.Queue(k.sessionID) == [] && k.sessionID !in states[n].agent.activeRequests
    ensures Published(states[n].log, k) == 1
            <==> states[n].rejected[k] == 0 && !exists m :: 0 <= m < n && Loses(states[m], steps[m], k)
  {
    hide Next, Abandons, Watched, AllGone, Loses, Published;
    WatchedUnlessAbandoned(states, steps, n, k.sessionID);
    NobodyTends(states[n], k.sessionID);
    QuiescentAccount(states, steps, n, k);
  }

  /** A prompt that is left in the queue was abandoned there: an earlier step of the run was an
      error of the last goroutine that would have taken it. */
  lemma {:induction false} LeftByAbandoning(states: seq<Sys>, steps: seq<Step>, n: nat, sid: string)
    requires Run(states, steps) && n < |states| && AllGone(states[n]) && states[n].agent.Queue(sid) != []
    ensures exists m :: 0 <= m < n && Abandons(states[m], steps[m], sid)
  {
    hide Next, Abandons, Watched, AllGone;
    if forall m :: 0 <= m < n ==> !Abandons(states[m], steps[m], sid) {
      WatchedUnlessAbandoned(states, steps, n, sid);
      NobodyTends(states[n], sid);
    }
  }

  // ------------------------------------------------------------------- leaving the queue

  /** The steps that take calls out of the session's queue. */
  predicate TakesQueue(s: Sys, step: Step, sid: string) {
    Enabled(s, step)
    && match step
       case Handoff(i, _) => Sid(s, i) == sid
       case DrainStep(i) => Sid(s, i) == sid
       case CancelRecord(x) => x == sid
       case ClearQueue(x) => x == sid
       case _ => false
  }

  /** The queue is as it was, or one call longer. */
  predicate AtMostGrows(q: seq<Call>, q': seq<Call>) {
    q' == q || (|q'| == |q| + 1 && q'[..|q|] == q)
  }

  lemma EnterGrows(a: AgentState, call: Call, x: string)
    requires call.accepted.Some?
    ensures AtMostGrows(a.Queue(x), a.Enter(call).Queue(x))
  {
  }

  lemma QueueGrows(s: Sys, step: Step, sid: string)
    requires !TakesQueue(s, step, sid)
    ensures AtMostGrows(s.agent.Queue(sid), Next(s, step).agent.Queue(sid))
  {
    hide Do;
    if Enabled(s, step) {
      match step
      case Enter(i, persist) =>
        EnterThreads(s, i, persist);
        EnterRest(s, i, persist);
        EnterGrows(s.agent, s.threads[i].call, sid);
        EnterIs(s, i, persist);
      case Handoff(i, ctxDone) => HandoffQueues(s, i, ctxDone, sid);
      case EnterLocal(i) => EnterLocalGrows(s, i, sid);
      case _ => OtherQueues(s, step, sid);
    }
  }

  lemma EnterIs(s: Sys, i: nat, persist: Outcome)
    requires Enabled(s, Enter(i, persist))
    ensures Do(s, Enter(i, persist)) == DoEnter(s, i, persist)
  {
  }

  lemma HandoffQueues(s: Sys, i: nat, ctxDone: bool, sid: string)
    requires Enabled(s, Handoff(i, ctxDone)) && Sid(s, i) != sid
    ensures Do(s, Handoff(i, ctxDone)).agent.Queue(sid) == s.agent.Queue(sid)
  {
    HandoffThread(s, i, ctxDone);
    HandoffAgent(s.agent, Sid(s, i), sid);
    hide DoHandoff;
  }

  lemma EnterLocalGrows(s: Sys, i: nat, sid: string)
    requires Enabled(s, EnterLocal(i))
    ensures AtMostGrows(s.agent.Queue(sid), Do(s, EnterLocal(i)).agent.Queue(sid))
  {
  }

  lemma OtherQueues(s: Sys, step: Step, sid: string)
    requires Enabled(s, step) && !TakesQueue(s, step, sid) && !step.Enter? && !step.Handoff? && !step.EnterLocal?
    ensures Do(s, step).agent.Queue(sid) == s.agent.Queue(sid)
  {
    hide DoEnter, DoHandoff, CancelledEvents, Select, Hooked, Broker, FallsBack;
  }

  /** A waiting prompt leaves its queue by a handoff, a drain, a cancel or a clearing of its own
      session only, however many turns end otherwise. */
  lemma {:induction false} WaitsInQueue(states: seq<Sys>, steps: seq<Step>, m: nat, n: nat, k: Key)
    requires Run(states, steps) && m <= n < |states|
    requires forall i :: m <= i < n ==> !TakesQueue(states[i], steps[i], k.sessionID)
    ensures QueuedFor(states[n], k) >= QueuedFor(states[m], k)
    decreases n
  {
    hide Next, TakesQueue;
    if m < n {
      WaitsInQueue(states, steps, m, n - 1, k);
      assert Follows(states, steps, n - 1);
      QueueGrows(states[n - 1], steps[n - 1], k.sessionID);
    }
  }
}
