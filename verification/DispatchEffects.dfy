/**
 What each step of the protocol comes to for the calls it is about, in the fields of the state:
 who is queued, who runs, who is told what.
 */
module DispatchEffects {
  import opened Options
  import opened SessionState
  import opened Dispatch
  import opened DispatchInvariant
  import opened DispatchSteps
  import opened DispatchTheorems
  import opened DispatchTending

  /** A turn's own event, after the log it finds: kept by its hook, or published at once. */
  predicate Tells(log: seq<RunComplete>, t: Thread, s': Sys, i: nat, cancelled: bool)
    requires i < |s'.threads|
  {
    var event := RunComplete(t.call.sessionID, t.call.runID, cancelled);
    if t.call.hook then s'.threads[i].buffer == Some(event) && s'.log == log
    else s'.threads[i].buffer == t.buffer && s'.log == log + [event]
  }

  /** The gate lets every prompt through that comes before the workspace closes, and gives the
      reservation of any other back. */
  lemma GateDecides(s: Sys, i: nat)
    requires Enabled(s, Gate(i)) && CountsOk(s) && ThreadsOk(s)
    ensures var s' := Next(s, Gate(i)); var sid := Sid(s, i);
            if s.closing then
              s'.threads[i].phase == Gone && !s'.threads[i].open && s'.agent.Count(sid) == s.agent.Count(sid) - 1
              && s'.runWG == s.runWG
            else
              s'.threads[i].phase == Dispatched && s'.threads[i].open && s'.agent == s.agent
              && s'.runWG == s.runWG + 1
  {
    assert ThreadOk(s.threads[i], s.agent.acceptSeqGen);
    OpenCounts(s, i);
  }

  // ------------------------------------------------------------------ the dispatch section

  /** Which branch, and what it leaves: a cancelled call is told so and goes, a call to a busy
      session waits at the end of the queue under its own number, any other becomes active. */
  lemma EnterDecides(s: Sys, i: nat, persist: Outcome)
    requires Enabled(s, Enter(i, persist)) && ThreadsOk(s)
    ensures var s' := Next(s, Enter(i, persist)); var t' := s'.threads[i];
            var c := s.threads[i].call; var sid := c.sessionID;
            && !t'.open
            && if s.agent.Mark(sid) >= c.accepted.value then
                 t'.phase == Unwinding && t'.result == persist && s'.agent.Queue(sid) == s.agent.Queue(sid)
                 && s'.agent.activeRequests == s.agent.activeRequests && Tells(s.log, s.threads[i], s', i, true)
               else if sid in s.agent.activeRequests then
                 t'.phase == Unwinding && t'.result == Ok && s'.agent.activeRequests == s.agent.activeRequests
                 && s'.agent.Queue(sid) == s.agent.Queue(sid) + [Call(sid, c.runID, c.accepted.value, None, false)]
                 && s'.log == s.log
               else
                 t'.phase == Entered && s'.agent.activeRequests == s.agent.activeRequests + {sid}
                 && s'.agent.Queue(sid) == s.agent.Queue(sid) && s'.log == s.log
  {
    assert ThreadOk(s.threads[i], s.agent.acceptSeqGen);
  }

  lemma EnterLocalDecides(s: Sys, i: nat)
    requires Enabled(s, EnterLocal(i)) && ThreadsOk(s)
    ensures var s' := Next(s, EnterLocal(i)); var t' := s'.threads[i];
            var c := s.threads[i].call; var sid := c.sessionID;
            if sid in s.agent.activeRequests then
              t'.phase == Unwinding && t'.result == Ok
              && s'.agent.Queue(sid) == s.agent.Queue(sid) + [Call(sid, c.runID, 0, None, false)]
            else
              t'.phase == Entered && s'.agent == s.agent
  {
    assert ThreadOk(s.threads[i], s.agent.acceptSeqGen);
  }

  // ------------------------------------------------------------------- what leaves a queue

  /** After a streaming step only uncovered calls that somebody waits for are queued, and every
      such call still is. */
  lemma DrainTakesFollowUps(s: Sys, i: nat, c: Call)
    requires Enabled(s, DrainStep(i))
    ensures var sid := Sid(s, i); var q, m := s.agent.Queue(sid), s.agent.Mark(sid);
            c in Next(s, DrainStep(i)).agent.Queue(sid)
            <==> c in q && c.runID != "" && !(m > 0 && (c.acceptSeq == 0 || c.acceptSeq <= m))
  {
    DrainMembers(s.agent.Queue(Sid(s, i)), s.agent.Mark(Sid(s, i)), Keep);
  }

  /** In every run no call without a RunID is queued right after a streaming step. */
  lemma {:induction false} NoFollowUpAfterDrain(states: seq<Sys>, steps: seq<Step>, n: nat, c: Call)
    requires Run(states, steps) && n < |steps| && steps[n].DrainStep? && Enabled(states[n], steps[n])
    requires c in states[n + 1].agent.Queue(Sid(states[n], steps[n].i))
    ensures c.runID != "" && c in states[n].agent.Queue(Sid(states[n], steps[n].i))
  {
    hide Next;
    assert Follows(states, steps, n);
    DrainTakesFollowUps(states[n], steps[n].i, c);
  }

  /** A cancel or a clearing leaves the session's queue empty. */
  lemma CancelEmptiesQueue(s: Sys, sid: string)
    ensures sid in s.cancelling ==> Next(s, CancelRecord(sid)).agent.Queue(sid) == []
    ensures Next(s, ClearQueue(sid)).agent.Queue(sid) == []
  {
  }

  lemma {:induction false} FirstUncovered(q: seq<Call>, mark: nat) returns (k: nat)
    requires Uncovered(q, mark) != []
    ensures k < |q| && !Belongs(mark, q[k], Drop) && forall j :: 0 <= j < k ==> Belongs(mark, q[j], Drop)
    ensures Uncovered(q, mark) == [q[k]] + Uncovered(q[k + 1..], mark)
  {
    var n := |q| - 1;
    if Uncovered(q[..n], mark) == [] {
      NoneUncovered(q[..n], mark);
      k := n;
      assert q[k + 1..] == [];
    } else {
      k := FirstUncovered(q[..n], mark);
      assert q[..n][k + 1..] == q[k + 1..][..|q[k + 1..]| - 1];
    }
  }

  lemma NoneUncovered(q: seq<Call>, mark: nat)
    ensures Uncovered(q, mark) == [] <==> forall c <- q :: Belongs(mark, c, Drop)
  {
    UncoveredMembers(q, mark);
    assert forall c: Call :: Covered(mark, c.acceptSeq) <==> Belongs(mark, c, Drop);
    if Uncovered(q, mark) != [] {
      assert Uncovered(q, mark)[0] in q;
    }
  }

  lemma HandoffQueueIs(a: AgentState, sid: string)
    ensures a.HandoffQueue(sid) == Uncovered(a.Queue(sid), a.Mark(sid))
  {
    if a.Mark(sid) == 0 { NothingCoveredNothingDropped(a.Queue(sid), 0); }
  }

  /** A handoff that finds no uncovered call ends the turn with its own event, cancelled exactly if
      its context is, and leaves nothing queued, and no mark unless a reservation is open. */
  lemma HandoffEnds(s: Sys, i: nat, ctxDone: bool)
    requires Enabled(s, Handoff(i, ctxDone))
    requires forall c <- s.agent.Queue(Sid(s, i)) :: Belongs(s.agent.Mark(Sid(s, i)), c, Drop)
    ensures var s' := Next(s, Handoff(i, ctxDone)); var sid := Sid(s, i);
            && s'.threads[i].phase == Unwinding && s'.threads[i].result == Ok
            && s'.threads[i].call == s.threads[i].call
            && s'.agent.Queue(sid) == []
            && (s.agent.Count(sid) == 0 ==> sid !in s'.agent.cancelMark)
            && Tells(s.log + CancelledEvents(Select(s.agent.Queue(sid), s.agent.Mark(sid), Drop)),
                     s.threads[i], s', i, ctxDone)
  {
    hide CancelledEvents, Select, OwesRunComplete, Uncovered, Belongs;
    HandoffQueueIs(s.agent, Sid(s, i));
    NoneUncovered(s.agent.Queue(Sid(s, i)), s.agent.Mark(Sid(s, i)));
  }

  /** Otherwise it takes the oldest call that no recorded cancel covers, under a new number, and
      leaves queued what comes after it in order, less what is covered. */
  lemma HandoffTakesOldest(s: Sys, i: nat, ctxDone: bool) returns (k: nat)
    requires Enabled(s, Handoff(i, ctxDone))
    requires exists c <- s.agent.Queue(Sid(s, i)) :: !Belongs(s.agent.Mark(Sid(s, i)), c, Drop)
    ensures var q, m := s.agent.Queue(Sid(s, i)), s.agent.Mark(Sid(s, i));
            && k < |q| && !Belongs(m, q[k], Drop) && forall j :: 0 <= j < k ==> Belongs(m, q[j], Drop)
    ensures var s' := Next(s, Handoff(i, ctxDone)); var sid := Sid(s, i);
            var q, m := s.agent.Queue(sid), s.agent.Mark(sid);
            && s'.threads[i].phase == Dispatched && s'.threads[i].open && !s'.threads[i].top
            && s'.threads[i].call == q[k].(accepted := Some(s.agent.acceptSeqGen + 1))
            && s'.agent.Count(sid) == s.agent.Count(sid) + 1
            && SplitInOrder(q[k + 1..], s'.agent.Queue(sid), Select(q[k + 1..], m, Drop), [])
            && (forall c <- s'.agent.Queue(sid) :: !Belongs(m, c, Drop))
  {
    hide CancelledEvents, Select, OwesRunComplete, Uncovered, Belongs, SplitInOrder, Do, DoHandoff;
    var sid := Sid(s, i);
    var q, m := s.agent.Queue(sid), s.agent.Mark(sid);
    HandoffQueueIs(s.agent, sid);
    NoneUncovered(q, m);
    k := FirstUncovered(q, m);
    HandoffSplitsQueue(q[k + 1..], m);
    assert s.agent.HandoffQueue(sid)[1..] == Uncovered(q[k + 1..], m);
    HandoffThread(s, i, ctxDone);
    HandoffOpens(s, i, ctxDone);
    HandoffAgentNext(s.agent, sid);
    HandoffIs(s, i, ctxDone);
  }

  lemma HandoffOpens(s: Sys, i: nat, ctxDone: bool)
    requires i < |s.threads| && s.agent.HandoffQueue(Sid(s, i)) != []
    ensures DoHandoff(s, i, ctxDone).threads[i].open
  {
    hide CancelledEvents, Select, OwesRunComplete, Uncovered, Broker, Hooked;
  }

  lemma HandoffAgentNext(a: AgentState, sid: string)
    requires a.HandoffQueue(sid) != []
    ensures var a' := a.Handoff(sid);
            && a'.Queue(sid) == a.HandoffQueue(sid)[1..] && a'.Count(sid) == a.Count(sid) + 1
            && a'.acceptSeqGen == a.acceptSeqGen + 1
  {
    hide Uncovered;
  }

  /** The finished turn's own event at such a handoff: due exactly if somebody waits for the turn
      and its RunID is not queued to run on. */
  lemma HandoffTellsOwn(s: Sys, i: nat, ctxDone: bool)
    requires Enabled(s, Handoff(i, ctxDone)) && s.agent.HandoffQueue(Sid(s, i)) != []
    ensures var s' := Next(s, Handoff(i, ctxDone)); var t := s.threads[i]; var sid := Sid(s, i);
            var log := s.log + CancelledEvents(Select(s.agent.Queue(sid), s.agent.Mark(sid), Drop));
            if t.call.runID != "" && forall c <- s.agent.HandoffQueue(sid) :: c.runID != t.call.runID then
              Tells(log, t, s', i, ctxDone)
            else s'.log == log && s'.threads[i].buffer == t.buffer
  {
    hide CancelledEvents, Select, Uncovered;
  }

  // ---------------------------------------------------------------------- a turn's own event

  /** A turn that ends in an error tells so itself, cancelled exactly if the error says so, and
      the waiter of an outer call gets what was kept for it when the call returns. */
  lemma StreamErrorTells(s: Sys, i: nat, err: Outcome)
    requires Enabled(s, StreamError(i, err))
    ensures Tells(s.log, s.threads[i], Next(s, StreamError(i, err)), i, err == Canceled)
    ensures Next(s, StreamError(i, err)).threads[i].result == err
  {
  }

  /** An error before a turn's own event can be told is what the call returns. */
  lemma EarlyErrorIsReturned(s: Sys, i: nat, step: Step, err: Outcome)
    requires step in {PreRunFail(i, err), EarlyFail(i, err)} && Enabled(s, step)
    ensures var s' := Next(s, step);
            s'.threads[i].phase == Unwinding && s'.threads[i].result == err && s'.log == s.log && s'.agent == s.agent
  {
  }

  lemma ReturnTells(s: Sys, i: nat)
    requires Enabled(s, Return(i))
    ensures var s' := Next(s, Return(i)); var t := s.threads[i];
            s'.log == s.log + match t.buffer
                              case Some(event) => [event]
                              case None =>
                                if t.origin == Backend && t.result == Failed && t.msgRunID != ""
                                then [RunComplete(t.call.sessionID, t.msgRunID, false)] else []
  {
  }

  // -------------------------------------------------------------- an accepted prompt in its queue

  /** A call queued with a RunID and an accept sequence, in every run: drains leave it alone. */
  lemma DrainSpares(s: Sys, i: nat, sid: string, c: Call)
    requires Inv(s) && Enabled(s, DrainStep(i)) && c in s.agent.Queue(sid) && c.runID != "" && c.acceptSeq > 0
    ensures c in Next(s, DrainStep(i)).agent.Queue(sid)
  {
    hide Conserved, CountsOk, HitsOk;
    var j :| 0 <= j < |s.agent.Queue(sid)| && s.agent.Queue(sid)[j] == c;
    assert QueuedOk(s.agent.Queue(sid)[j], sid, s.agent.Mark(sid), s.agent.acceptSeqGen);
    if Sid(s, i) == sid { DrainTakesFollowUps(s, i, c); }
  }

  /** A prompt accepted into a busy session stays queued, under its own number, until a handoff, a
      cancel or a clearing of the session. */
  lemma {:induction false} AcceptedPromptStays(states: seq<Sys>, steps: seq<Step>, m: nat, n: nat, sid: string, c: Call)
    requires Run(states, steps) && m <= n < |states|
    requires c in states[m].agent.Queue(sid) && c.runID != "" && c.acceptSeq > 0
    requires forall j :: m <= j < n ==> !TakesQueue(states[j], steps[j], sid) || steps[j].DrainStep?
    ensures c in states[n].agent.Queue(sid)
    decreases n
  {
    hide Next, TakesQueue, Inv;
    if m < n {
      AcceptedPromptStays(states, steps, m, n - 1, sid, c);
      assert Follows(states, steps, n - 1);
      RunInv(states, steps, n - 1);
      StaysOneStep(states[n - 1], steps[n - 1], sid, c);
    }
  }

  lemma StaysOneStep(s: Sys, step: Step, sid: string, c: Call)
    requires Inv(s) && c in s.agent.Queue(sid) && c.runID != "" && c.acceptSeq > 0
    requires !TakesQueue(s, step, sid) || step.DrainStep?
    ensures c in Next(s, step).agent.Queue(sid)
  {
    hide Next, Inv;
    if TakesQueue(s, step, sid) {
      DrainSpares(s, step.i, sid, c);
    } else {
      QueueGrows(s, step, sid);
      GrowsKeeps(s.agent.Queue(sid), Next(s, step).agent.Queue(sid), c);
    }
  }

  lemma GrowsKeeps(q: seq<Call>, q': seq<Call>, c: Call)
    requires AtMostGrows(q, q') && c in q
    ensures c in q'
  {
    var j :| 0 <= j < |q| && q[j] == c;
    assert q'[j] == c by { if q' != q { assert q'[..|q|][j] == c; } }
  }

  // ------------------------------------------------------------------------- a busy session

  predicate Framed(t: Thread, sid: string) {
    t.call.sessionID == sid && t.frames > 0
  }

  /** Somebody is still to clear the busy flag of the session. */
  predicate Clears(s: Sys, sid: string) {
    sid in s.agent.activeRequests ==> exists t <- s.threads :: Framed(t, sid)
  }

  lemma MoveClears(s: Sys, s': Sys, i: nat, sid: string)
    requires Clears(s, sid) && i < |s.threads| && |s'.threads| == |s.threads|
    requires s'.threads == s.threads[i := s'.threads[i]]
    requires sid in s'.agent.activeRequests ==>
               Framed(s'.threads[i], sid) || (sid in s.agent.activeRequests && !Framed(s.threads[i], sid))
    ensures Clears(s', sid)
  {
    assert s'.threads[i] in s'.threads;
    if sid in s'.agent.activeRequests && !Framed(s'.threads[i], sid) {
      var j :| 0 <= j < |s.threads| && Framed(s.threads[j], sid);
      assert s'.threads[j] == s.threads[j] && s'.threads[j] in s'.threads;
    }
  }

  lemma SameClears(s: Sys, s': Sys, sid: string)
    requires Clears(s, sid) && |s'.threads| >= |s.threads|
    requires forall i :: 0 <= i < |s.threads| ==> s'.threads[i] == s.threads[i].(hit := s'.threads[i].hit)
    requires sid in s'.agent.activeRequests ==> sid in s.agent.activeRequests
    ensures Clears(s', sid)
  {
    if sid in s'.agent.activeRequests {
      var j :| 0 <= j < |s.threads| && Framed(s.threads[j], sid);
      assert s'.threads[j] in s'.threads;
    }
  }

  lemma StepClears(s: Sys, step: Step, sid: string)
    requires Inv(s) && Clears(s, sid)
    ensures Clears(Next(s, step), sid)
  {
    hide Do, Inv, Clears;
    InvThreads(s);
    if Enabled(s, step) {
      match step
      case Enter(i, persist) => EnterClears(s, i, persist, sid);
      case Handoff(i, ctxDone) => HandoffClears(s, i, ctxDone, sid);
      case StreamError(i, err) => FailClears(s, step, sid);
      case EarlyFail(i, err) => FailClears(s, step, sid);
      case DrainStep(i) => AgentClears(s, step, sid);
      case CancelSnapshot(x) => AgentClears(s, step, sid);
      case CancelRecord(x) => AgentClears(s, step, sid);
      case ClearQueue(x) => AgentClears(s, step, sid);
      case SendMessage(x, r) => AgentClears(s, step, sid);
      case LocalCall(x, r) => AgentClears(s, step, sid);
      case Shutdown => AgentClears(s, step, sid);
      case _ => ThreadClears(s, step, sid);
    }
  }

  lemma EnterClears(s: Sys, i: nat, persist: Outcome, sid: string)
    requires Clears(s, sid) && Enabled(s, Enter(i, persist))
    ensures Clears(Do(s, Enter(i, persist)), sid)
  {
    EnterAgent(s.agent, s.threads[i].call, sid);
    EnterThreads(s, i, persist);
    EnterRest(s, i, persist);
    EnterFrames(s, i, persist);
    hide DoEnter, Clears;
    MoveClears(s, DoEnter(s, i, persist), i, sid);
  }

  lemma EnterFrames(s: Sys, i: nat, persist: Outcome)
    requires i < |s.threads| && s.threads[i].call.accepted.Some?
    ensures DoEnter(s, i, persist).threads[i].frames
            == s.threads[i].frames
               + if s.agent.EntryOf(Sid(s, i), s.threads[i].call.accepted.value) == Active then 1 else 0
  {
    hide Broker;
  }

  lemma HandoffClears(s: Sys, i: nat, ctxDone: bool, sid: string)
    requires Inv(s) && Clears(s, sid) && Enabled(s, Handoff(i, ctxDone))
    ensures Clears(Do(s, Handoff(i, ctxDone)), sid)
  {
    HandoffAgent(s.agent, Sid(s, i), sid);
    HandoffThread(s, i, ctxDone);
    HandoffFrames(s, i, ctxDone);
    if s.agent.HandoffQueue(Sid(s, i)) != [] { UncoveredFirst(s, Sid(s, i)); }
    hide DoHandoff, Clears;
    MoveClears(s, DoHandoff(s, i, ctxDone), i, sid);
  }

  lemma HandoffFrames(s: Sys, i: nat, ctxDone: bool)
    requires i < |s.threads|
    ensures DoHandoff(s, i, ctxDone).threads[i].frames == s.threads[i].frames
  {
    hide CancelledEvents, Select, OwesRunComplete, Uncovered, Broker;
  }

  lemma FailClears(s: Sys, step: Step, sid: string)
    requires Clears(s, sid) && Enabled(s, step) && (step.StreamError? || step.EarlyFail?)
    ensures Clears(Do(s, step), sid)
  {
    FailThread(s, step);
    hide Clears;
    MoveClears(s, Do(s, step), step.i, sid);
  }

  lemma AgentClears(s: Sys, step: Step, sid: string)
    requires Clears(s, sid) && Enabled(s, step)
    requires step.DrainStep? || step.CancelSnapshot? || step.CancelRecord? || step.ClearQueue? || step.SendMessage?
             || step.LocalCall? || step.Shutdown?
    ensures Clears(Do(s, step), sid)
  {
    hide CancelledEvents, Select, Clears;
    SameClears(s, Do(s, step), sid);
  }

  lemma ThreadClears(s: Sys, step: Step, sid: string)
    requires ThreadsOk(s) && Clears(s, sid) && Enabled(s, step)
    requires step.Gate? || step.PreRunFail? || step.EnterLocal? || step.Install? || step.Release? || step.Unwind?
             || step.Return?
    ensures Clears(Do(s, step), sid)
  {
    hide CancelledEvents, Select, Clears, FallsBack;
    assert ThreadOk(s.threads[step.i], s.agent.acceptSeqGen);
    MoveClears(s, Do(s, step), step.i, sid);
  }

  /** A session that looks busy has a goroutine that will still clear the flag, in every run and
      whatever failed, so none looks busy once all goroutines have ended. */
  lemma {:induction false} BusyFlagIsCleared(states: seq<Sys>, steps: seq<Step>, n: nat, sid: string)
    requires Run(states, steps) && n < |states|
    ensures Clears(states[n], sid)
    ensures AllGone(states[n]) ==> sid !in states[n].agent.activeRequests
  {
    hide Next, Inv;
    if n > 0 {
      BusyFlagIsCleared(states, steps, n - 1, sid);
      assert Follows(states, steps, n - 1);
      RunInv(states, steps, n - 1);
      StepClears(states[n - 1], steps[n - 1], sid);
    }
    GoneHasNoFrames(states, steps, n);
  }

  /** Frames are there only while a goroutine is under way. */
  predicate FramesOk(t: Thread) {
    t.phase == Reserved || t.phase == Gone ==> t.frames == 0
  }

  lemma {:induction false} GoneHasNoFrames(states: seq<Sys>, steps: seq<Step>, n: nat)
    requires Run(states, steps) && n < |states|
    ensures forall t <- states[n].threads :: FramesOk(t)
  {
    hide Next;
    if n > 0 {
      GoneHasNoFrames(states, steps, n - 1);
      assert Follows(states, steps, n - 1);
      StepFrames(states[n - 1], steps[n - 1]);
    }
  }

  lemma StepFrames(s: Sys, step: Step)
    requires forall t <- s.threads :: FramesOk(t)
    ensures forall t <- Next(s, step).threads :: FramesOk(t)
  {
    hide Do;
    if Enabled(s, step) {
      match step
      case Enter(i, persist) =>
        EnterThreads(s, i, persist);
        EnterIs(s, i, persist);
      case Handoff(i, ctxDone) =>
        HandoffThread(s, i, ctxDone);
        HandoffIs(s, i, ctxDone);
      case _ => OtherFrames(s, step);
    }
  }

  lemma HandoffIs(s: Sys, i: nat, ctxDone: bool)
    requires Enabled(s, Handoff(i, ctxDone))
    ensures Do(s, Handoff(i, ctxDone)) == DoHandoff(s, i, ctxDone)
  {
  }

  lemma OtherFrames(s: Sys, step: Step)
    requires Enabled(s, step) && !step.Enter? && !step.Handoff? && forall t <- s.threads :: FramesOk(t)
    ensures forall t <- Do(s, step).threads :: FramesOk(t)
  {
    hide Do, FramesOk;
    match step
    case SendMessage(x, r) => NewFrames(s, Do(s, step), step);
    case LocalCall(x, r) => NewFrames(s, Do(s, step), step);
    case DrainStep(i) => KeptFrames(s, step);
    case CancelSnapshot(x) => KeptFrames(s, step);
    case CancelRecord(x) => KeptFrames(s, step);
    case ClearQueue(x) => KeptFrames(s, step);
    case Shutdown => KeptFrames(s, step);
    case _ => ThreadFrames(s, step);
  }

  lemma ThreadFrames(s: Sys, step: Step)
    requires Enabled(s, step) && forall t <- s.threads :: FramesOk(t)
    requires step.Gate? || step.PreRunFail? || step.EnterLocal? || step.Install? || step.Release? || step.Unwind?
             || step.Return? || step.StreamError? || step.EarlyFail?
    ensures forall t <- Do(s, step).threads :: FramesOk(t)
  {
    OneThread(s, step);
    hide Do, FramesOk;
    var s' := Do(s, step);
    forall t | t in s'.threads
      ensures FramesOk(t)
    {
      var j :| 0 <= j < |s'.threads| && s'.threads[j] == t;
      if j != step.i { assert s'.threads[j] == s.threads[j]; }
    }
  }

  lemma OneThread(s: Sys, step: Step)
    requires Enabled(s, step) && forall t <- s.threads :: FramesOk(t)
    requires step.Gate? || step.PreRunFail? || step.EnterLocal? || step.Install? || step.Release? || step.Unwind?
             || step.Return? || step.StreamError? || step.EarlyFail?
    ensures var s' := Do(s, step);
            && |s'.threads| == |s.threads| && s'.threads == s.threads[step.i := s'.threads[step.i]]
            && FramesOk(s'.threads[step.i])
  {
    assert s.threads[step.i] in s.threads;
    if step.Gate? || step.EnterLocal? || step.Install? || step.Release? || step.Unwind? {
      OneThreadGoes(s, step);
    } else {
      OneThreadEnds(s, step);
    }
    hide Do;
  }

  lemma OneThreadGoes(s: Sys, step: Step)
    requires step.Gate? || step.EnterLocal? || step.Install? || step.Release? || step.Unwind?
    requires Enabled(s, step) && FramesOk(s.threads[step.i])
    ensures var s' := Do(s, step);
            && |s'.threads| == |s.threads| && s'.threads == s.threads[step.i := s'.threads[step.i]]
            && FramesOk(s'.threads[step.i])
  {
  }

  lemma OneThreadEnds(s: Sys, step: Step)
    requires step.PreRunFail? || step.EarlyFail? || step.StreamError? || step.Return?
    requires Enabled(s, step) && FramesOk(s.threads[step.i])
    ensures var s' := Do(s, step);
            && |s'.threads| == |s.threads| && s'.threads == s.threads[step.i := s'.threads[step.i]]
            && FramesOk(s'.threads[step.i])
  {
    hide Broker, FallsBack, Recovered, KeyOf;
  }

  lemma NewFrames(s: Sys, s': Sys, step: Step)
    requires Enabled(s, step) && (step.SendMessage? || step.LocalCall?) && s' == Do(s, step)
    requires forall t <- s.threads :: FramesOk(t)
    ensures forall t <- s'.threads :: FramesOk(t)
  {
  }

  lemma KeptFrames(s: Sys, step: Step)
    requires Enabled(s, step) && forall t <- s.threads :: FramesOk(t)
    requires step.DrainStep? || step.CancelSnapshot? || step.CancelRecord? || step.ClearQueue? || step.Shutdown?
    ensures forall t <- Do(s, step).threads :: FramesOk(t)
  {
    hide CancelledEvents, Select;
    var s' := Do(s, step);
    forall t | t in s'.threads
      ensures FramesOk(t)
    {
      var j :| 0 <= j < |s'.threads| && s'.threads[j] == t;
      assert s.threads[j] in s.threads;
    }
  }
}
