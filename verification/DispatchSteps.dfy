/**
 One step of the accept / cancel / queue / handoff protocol: what it may do to a
 reservation's history, to the marks, to the lost prompts and to the shutdown gate.
 */
module DispatchSteps {
  import opened Options
  import opened SessionState
  import opened Dispatch
  import opened DispatchInvariant

  /** The steps that end a prompt without a terminal event: an error before the deferred
      publish is installed that runAgent does not make up for. */
  predicate Loses(s: Sys, step: Step, k: Key) {
    && Enabled(s, step)
    && (step.PreRunFail? || step.EarlyFail?)
    && !Recovered(s.threads[step.i], step.err)
    && KeyOf(s.threads[step.i].call) == k
  }

  // ------------------------------------------------------- what one step may change

  /** An open reservation was open before with the same history, or is new. */
  predicate History(s: Sys, s': Sys, step: Step, i: nat)
    requires i < |s'.threads|
  {
    var t' := s'.threads[i];
    if i < |s.threads| && s.threads[i].open && s.threads[i].call.accepted == t'.call.accepted then
      && t'.call.sessionID == Sid(s, i)
      && (t'.hit <==> s.threads[i].hit || step == CancelSnapshot(Sid(s, i)))
    else
      !t'.hit && t'.call.accepted == Some(s.agent.acceptSeqGen + 1)
  }

  predicate NoTickets(s: Sys) {
    forall i :: 0 <= i < |s.threads| ==> !HasTicket(s.threads[i])
  }

  predicate Histories(s: Sys, s': Sys, step: Step) {
    && s'.agent.acceptSeqGen >= s.agent.acceptSeqGen && |s'.threads| >= |s.threads|
    && forall i :: 0 <= i < |s'.threads| && s'.threads[i].open ==> History(s, s', step, i)
  }

  predicate StaysShut(s: Sys, s': Sys) {
    s.closing ==> s'.closing && (s.runWG == 0 && NoTickets(s) ==> s'.runWG == 0)
  }

  lemma PutLater(s: Sys, s': Sys, step: Step, i: nat)
    requires ThreadsOk(s) && i < |s.threads| && |s'.threads| == |s.threads|
    requires s'.threads == s.threads[i := s'.threads[i]]
    requires !step.CancelSnapshot? && s'.agent.acceptSeqGen >= s.agent.acceptSeqGen && s'.closing == s.closing
    requires s'.runWG + Ticket()(s.threads[i]) == s.runWG + Ticket()(s'.threads[i])
    requires s.closing && !HasTicket(s.threads[i]) ==> !HasTicket(s'.threads[i])
    requires var t, t' := s.threads[i], s'.threads[i];
             t'.open ==> (t.open && t'.call == t.call && t'.hit == t.hit)
                         || (!t'.hit && t'.call.accepted == Some(s.agent.acceptSeqGen + 1))
    ensures Histories(s, s', step) && StaysShut(s, s')
  {
    assert ThreadOk(s.threads[i], s.agent.acceptSeqGen);
  }

  lemma StepLater(s: Sys, step: Step)
    requires ThreadsOk(s)
    ensures Histories(s, Next(s, step), if Enabled(s, step) then step else Shutdown) && StaysShut(s, Next(s, step))
  {
    hide DoEnter, DoHandoff, DoCancelSnapshot, DoGate, DoEnterLocal, DoReturn, DoFail, DoInstall, DoStreamError,
         DoRelease, DoUnwind, DoDrainStep, Histories, StaysShut, ThreadsOk;
    if Enabled(s, step) {
      match step
      case SendMessage(sid, runID) => JoinLater(s, DoSendMessage(s, sid, runID), step);
      case LocalCall(sid, runID) => JoinLater(s, DoLocalCall(s, sid, runID), step);
      case Enter(i, persist) => EnterLater(s, i, persist);
      case Handoff(i, ctxDone) => HandoffLater(s, i, ctxDone);
      case Gate(i) => GateLater(s, i);
      case EnterLocal(i) => EnterLocalLater(s, i);
      case Return(i) => ReturnLater(s, i);
      case CancelSnapshot(sid) => SnapshotLater(s, sid);
      case CancelRecord(sid) => SameThreadsLater(s, DoCancelRecord(s, sid), step);
      case ClearQueue(sid) => SameThreadsLater(s, DoClearQueue(s, sid), step);
      case Shutdown => SameThreadsLater(s, s.(closing := true), step);
      case _ => MoveLater(s, step, step.i);
    } else {
      SameThreadsLater(s, s, Shutdown);
    }
  }

  lemma GateLater(s: Sys, i: nat)
    requires ThreadsOk(s) && At(s, i, Reserved)
    ensures Histories(s, DoGate(s, i), Gate(i)) && StaysShut(s, DoGate(s, i))
  {
    hide Histories, StaysShut;
    assert ThreadOk(s.threads[i], s.agent.acceptSeqGen);
    PutLater(s, DoGate(s, i), Gate(i), i);
  }

  lemma EnterLocalLater(s: Sys, i: nat)
    requires ThreadsOk(s) && At(s, i, Dispatched) && s.threads[i].call.accepted.None?
    ensures Histories(s, DoEnterLocal(s, i), EnterLocal(i)) && StaysShut(s, DoEnterLocal(s, i))
  {
    hide Histories, StaysShut;
    PutLater(s, DoEnterLocal(s, i), EnterLocal(i), i);
  }

  lemma ReturnLater(s: Sys, i: nat)
    requires ThreadsOk(s) && At(s, i, Unwinding)
    ensures Histories(s, DoReturn(s, i), Return(i)) && StaysShut(s, DoReturn(s, i))
  {
    hide Histories, StaysShut, FallsBack;
    PutLater(s, DoReturn(s, i), Return(i), i);
  }

  lemma MoveLater(s: Sys, step: Step, i: nat)
    requires ThreadsOk(s) && Enabled(s, step)
    requires step.PreRunFail? || step.EarlyFail? || step.Install? || step.DrainStep? || step.StreamError?
             || step.Release? || step.Unwind?
    requires step.i == i
    ensures Histories(s, Do(s, step), step) && StaysShut(s, Do(s, step))
  {
    hide DoEnter, DoHandoff, DoCancelSnapshot, DoSendMessage, DoLocalCall, DoCancelRecord, DoClearQueue, DoGate,
         DoReturn, CancelledEvents, Select;
    assert ThreadOk(s.threads[i], s.agent.acceptSeqGen);
    PutLater(s, Do(s, step), step, i);
  }

  lemma EnterThreads(s: Sys, i: nat, persist: Outcome)
    requires i < |s.threads| && s.threads[i].call.accepted.Some?
    ensures var s' := DoEnter(s, i, persist);
            && |s'.threads| == |s.threads| && s'.threads == s.threads[i := s'.threads[i]]
            && !s'.threads[i].open && s'.threads[i].origin == s.threads[i].origin
            && s'.threads[i].call == s.threads[i].call
            && s'.threads[i].phase
               == if s.agent.EntryOf(Sid(s, i), s.threads[i].call.accepted.value) == Active then Entered else Unwinding
  {
    hide Broker;
    match s.agent.EntryOf(Sid(s, i), s.threads[i].call.accepted.value)
    case CanceledOnEntry =>
    case Enqueued =>
    case Active =>
  }

  lemma EnterRest(s: Sys, i: nat, persist: Outcome)
    requires i < |s.threads| && s.threads[i].call.accepted.Some?
    ensures var s' := DoEnter(s, i, persist);
            && s'.agent == s.agent.Enter(s.threads[i].call)
            && s'.cancelling == s.cancelling && s'.runWG == s.runWG && s'.closing == s.closing
  {
    hide Hooked, Broker;
  }

  lemma EnterLater(s: Sys, i: nat, persist: Outcome)
    requires ThreadsOk(s) && Enabled(s, Enter(i, persist))
    ensures Histories(s, DoEnter(s, i, persist), Enter(i, persist)) && StaysShut(s, DoEnter(s, i, persist))
  {
    hide DoEnter;
    EnterThreads(s, i, persist);
    EnterRest(s, i, persist);
    PutLater(s, DoEnter(s, i, persist), Enter(i, persist), i);
  }

  lemma HandoffThreads(s: Sys, i: nat, ctxDone: bool)
    requires i < |s.threads|
    ensures var s' := DoHandoff(s, i, ctxDone); var t, t' := s.threads[i], s'.threads[i];
            && |s'.threads| == |s.threads| && s'.threads == s.threads[i := t']
            && (if t'.phase == Unwinding then t'.open == t.open && t'.hit == t.hit && t'.call == t.call
                else t'.phase == Dispatched && !t'.hit && t'.call.accepted == Some(s.agent.acceptSeqGen + 1))
            && t'.origin == t.origin
            && s'.agent.acceptSeqGen >= s.agent.acceptSeqGen
            && s'.runWG == s.runWG && s'.closing == s.closing
  {
    hide CancelledEvents, Select, OwesRunComplete, Uncovered, Broker;
  }

  lemma HandoffLater(s: Sys, i: nat, ctxDone: bool)
    requires ThreadsOk(s) && Enabled(s, Handoff(i, ctxDone))
    ensures Histories(s, DoHandoff(s, i, ctxDone), Handoff(i, ctxDone)) && StaysShut(s, DoHandoff(s, i, ctxDone))
  {
    hide DoHandoff;
    HandoffThreads(s, i, ctxDone);
    PutLater(s, DoHandoff(s, i, ctxDone), Handoff(i, ctxDone), i);
  }

  lemma SameThreadsLater(s: Sys, s': Sys, step: Step)
    requires s'.threads == s.threads && s'.agent.acceptSeqGen == s.agent.acceptSeqGen
    requires !step.CancelSnapshot? && s'.runWG == s.runWG && (s.closing ==> s'.closing)
    ensures Histories(s, s', step) && StaysShut(s, s')
  {
  }

  lemma JoinLater(s: Sys, s': Sys, step: Step)
    requires !step.CancelSnapshot? && s'.agent.acceptSeqGen >= s.agent.acceptSeqGen
    requires |s'.threads| == |s.threads| + 1 && s'.threads[..|s.threads|] == s.threads
    requires var t := s'.threads[|s.threads|];
             t.open ==> !t.hit && t.call.accepted == Some(s.agent.acceptSeqGen + 1)
    requires s'.runWG == s.runWG && s'.closing == s.closing
    ensures Histories(s, s', step) && StaysShut(s, s')
  {
    assert forall i :: 0 <= i < |s.threads| ==> s'.threads[i] == s'.threads[..|s.threads|][i];
  }

  lemma SnapshotLater(s: Sys, sid: string)
    ensures Histories(s, DoCancelSnapshot(s, sid), CancelSnapshot(sid)) && StaysShut(s, DoCancelSnapshot(s, sid))
  {
  }

  lemma StepLost(s: Sys, step: Step, k: Key)
    ensures Next(s, step).lost[k] > 0 <==> s.lost[k] > 0 || Loses(s, step, k)
  {
    hide Do, DoFail;
    if Enabled(s, step) {
      match step
      case PreRunFail(i, err) => FailLost(s, step, i, err, k);
      case EarlyFail(i, err) => FailLost(s, step, i, err, k);
      case Enter(i, persist) => EnterLost(s, i, persist);
      case Handoff(i, ctxDone) => HandoffLost(s, i, ctxDone);
      case _ => OtherLost(s, step);
    }
  }

  lemma FailLost(s: Sys, step: Step, i: nat, err: Outcome, k: Key)
    requires Enabled(s, step) && (step == PreRunFail(i, err) || step == EarlyFail(i, err))
    ensures Do(s, step).lost[k] > 0 <==> s.lost[k] > 0 || Loses(s, step, k)
  {
    assert Do(s, step) == DoFail(s, i, err);
  }

  lemma EnterLost(s: Sys, i: nat, persist: Outcome)
    requires Enabled(s, Enter(i, persist))
    ensures Do(s, Enter(i, persist)).lost == s.lost
  {
    hide Hooked, Broker;
    assert Do(s, Enter(i, persist)) == DoEnter(s, i, persist);
  }

  lemma HandoffLost(s: Sys, i: nat, ctxDone: bool)
    requires Enabled(s, Handoff(i, ctxDone))
    ensures Do(s, Handoff(i, ctxDone)).lost == s.lost
  {
    hide CancelledEvents, Select, OwesRunComplete, Hooked, Broker, Uncovered;
    assert Do(s, Handoff(i, ctxDone)) == DoHandoff(s, i, ctxDone);
  }

  lemma OtherLost(s: Sys, step: Step)
    requires Enabled(s, step) && !step.PreRunFail? && !step.EarlyFail? && !step.Enter? && !step.Handoff?
    ensures Do(s, step).lost == s.lost
  {
    hide CancelledEvents, Select, Hooked, Broker, DoEnter, DoHandoff, DoFail, FallsBack;
  }

  /** A mark is there only while some reservation of the session is open. */
  ghost predicate NoStaleMark(s: Sys) {
    && (forall sid :: sid in s.agent.cancelMark ==> sid in s.agent.acceptedRuns)
    && (forall sid :: sid in s.cancelling && s.cancelling[sid] > 0 ==> sid in s.agent.acceptedRuns)
  }

  /** The step takes the last reservation of a session away between the two sections of a
      Cancel of that session that is about to record a mark. */
  predicate OvertakesCancel(s: Sys, step: Step) {
    && (step.Gate? || step.Return?) && Enabled(s, step)
    && s.threads[step.i].open && s.agent.Count(Sid(s, step.i)) <= 1
    && (step.Gate? ==> s.closing)
    && Sid(s, step.i) in s.cancelling && s.cancelling[Sid(s, step.i)] > 0
  }

  lemma SameMarks(s: Sys, s': Sys)
    requires s'.agent.cancelMark == s.agent.cancelMark && s'.cancelling == s.cancelling
    requires s'.agent.acceptedRuns.Keys >= s.agent.acceptedRuns.Keys && NoStaleMark(s)
    ensures NoStaleMark(s')
  {
  }

  /** Releasing reservation i: stale only if a Cancel of its session is half way. */
  lemma ReleaseMarks(s: Sys, s': Sys, i: nat)
    requires ThreadsOk(s) && CountsOk(s) && NoStaleMark(s) && i < |s.threads| && s.threads[i].open
    requires s'.cancelling == s.cancelling
    requires var a := s.agent.EndAccepted(Sid(s, i));
             s'.agent.cancelMark == a.cancelMark && s'.agent.acceptedRuns == a.acceptedRuns
    ensures NoStaleMark(s') <==> !(s.agent.Count(Sid(s, i)) <= 1 && Pending(s, Sid(s, i)) > 0)
  {
    OpenCounts(s, i);
    if Pending(s, Sid(s, i)) > 0 && s.agent.Count(Sid(s, i)) <= 1 {
      assert Sid(s, i) in s'.cancelling && Sid(s, i) !in s'.agent.acceptedRuns;
    }
  }

  lemma StepNoStaleMark(s: Sys, step: Step)
    requires ThreadsOk(s) && CountsOk(s) && NoStaleMark(s)
    ensures NoStaleMark(Next(s, step)) <==> !OvertakesCancel(s, step)
  {
    hide DoEnter, DoHandoff, DoCancelSnapshot, DoCancelRecord, DoGate, DoReturn, NoStaleMark, ThreadsOk, CountsOk,
         DoFail, DoEnterLocal, DoInstall, DoStreamError, DoRelease, DoUnwind, DoDrainStep, DoClearQueue;
    if Enabled(s, step) {
      match step
      case SendMessage(sid, runID) => SameMarks(s, DoSendMessage(s, sid, runID));
      case Gate(i) => GateMarks(s, i);
      case Return(i) => ReturnMarks(s, i);
      case Enter(i, persist) => EnterMarks(s, i, persist);
      case Handoff(i, ctxDone) => HandoffMarks(s, i, ctxDone);
      case CancelSnapshot(sid) => SnapshotMarks(s, sid);
      case CancelRecord(sid) => RecordMarks(s, sid);
      case _ => OtherMarks(s, step);
    }
  }

  lemma GateMarks(s: Sys, i: nat)
    requires ThreadsOk(s) && CountsOk(s) && NoStaleMark(s) && At(s, i, Reserved)
    ensures NoStaleMark(DoGate(s, i)) <==> !OvertakesCancel(s, Gate(i))
  {
    hide NoStaleMark;
    assert ThreadOk(s.threads[i], s.agent.acceptSeqGen);
    if s.closing { ReleaseMarks(s, DoGate(s, i), i); } else { SameMarks(s, DoGate(s, i)); }
  }

  lemma ReturnMarks(s: Sys, i: nat)
    requires ThreadsOk(s) && CountsOk(s) && NoStaleMark(s) && At(s, i, Unwinding) && s.threads[i].frames == 0
    ensures NoStaleMark(DoReturn(s, i)) <==> !OvertakesCancel(s, Return(i))
  {
    hide NoStaleMark, FallsBack;
    if s.threads[i].open { ReleaseMarks(s, DoReturn(s, i), i); } else { SameMarks(s, DoReturn(s, i)); }
  }

  lemma OtherMarks(s: Sys, step: Step)
    requires Enabled(s, step) && NoStaleMark(s)
    requires !step.Gate? && !step.Return? && !step.Enter? && !step.Handoff?
    requires !step.CancelSnapshot? && !step.CancelRecord? && !step.SendMessage?
    ensures NoStaleMark(Do(s, step))
  {
    hide NoStaleMark, DoFail, DoEnterLocal, DoInstall, DoStreamError, DoRelease, DoUnwind, DoDrainStep, DoClearQueue;
    match step
    case LocalCall(sid, runID) => SameMarks(s, DoLocalCall(s, sid, runID));
    case PreRunFail(i, err) => FailMarks(s, i, err);
    case EarlyFail(i, err) => FailMarks(s, i, err);
    case EnterLocal(i) => LocalMarks(s, i);
    case Install(i) => InstallMarks(s, i);
    case StreamError(i, err) => StreamMarks(s, i, err);
    case Release(i) => StreamMarks(s, i, Ok);
    case Unwind(i) => UnwindMarks(s, i);
    case DrainStep(i) => QueueMarks(s, i, Sid(s, i));
    case ClearQueue(sid) => QueueMarks(s, 0, sid);
    case Shutdown => SameMarks(s, s.(closing := true));
  }

  lemma FailMarks(s: Sys, i: nat, err: Outcome)
    requires NoStaleMark(s) && i < |s.threads|
    ensures NoStaleMark(DoFail(s, i, err))
  {
    SameMarks(s, DoFail(s, i, err));
  }

  lemma LocalMarks(s: Sys, i: nat)
    requires NoStaleMark(s) && i < |s.threads|
    ensures NoStaleMark(DoEnterLocal(s, i))
  {
    SameMarks(s, DoEnterLocal(s, i));
  }

  lemma InstallMarks(s: Sys, i: nat)
    requires NoStaleMark(s) && i < |s.threads|
    ensures NoStaleMark(DoInstall(s, i))
  {
    SameMarks(s, DoInstall(s, i));
  }

  lemma StreamMarks(s: Sys, i: nat, err: Outcome)
    requires NoStaleMark(s) && i < |s.threads|
    ensures NoStaleMark(DoStreamError(s, i, err)) && NoStaleMark(DoRelease(s, i))
  {
    hide Hooked, Broker;
    SameMarks(s, DoStreamError(s, i, err));
    SameMarks(s, DoRelease(s, i));
  }

  lemma UnwindMarks(s: Sys, i: nat)
    requires NoStaleMark(s) && i < |s.threads| && s.threads[i].frames > 0
    ensures NoStaleMark(DoUnwind(s, i))
  {
    SameMarks(s, DoUnwind(s, i));
  }

  lemma QueueMarks(s: Sys, i: nat, sid: string)
    requires NoStaleMark(s)
    ensures NoStaleMark(DoClearQueue(s, sid)) && (i < |s.threads| ==> NoStaleMark(DoDrainStep(s, i)))
  {
    hide CancelledEvents, Select;
    SameMarks(s, DoClearQueue(s, sid));
    if i < |s.threads| { SameMarks(s, DoDrainStep(s, i)); }
  }

  lemma EnterMarks(s: Sys, i: nat, persist: Outcome)
    requires ThreadsOk(s) && CountsOk(s) && NoStaleMark(s) && Enabled(s, Enter(i, persist))
    requires Pending(s, Sid(s, i)) == 0
    ensures NoStaleMark(DoEnter(s, i, persist))
  {
    hide DoEnter;
    assert ThreadOk(s.threads[i], s.agent.acceptSeqGen);
    EnterRest(s, i, persist);
    ReleaseMarks(s, DoEnter(s, i, persist), i);
  }

  lemma HandoffMarks(s: Sys, i: nat, ctxDone: bool)
    requires NoStaleMark(s) && i < |s.threads|
    ensures NoStaleMark(DoHandoff(s, i, ctxDone))
  {
  }

  lemma SnapshotMarks(s: Sys, sid: string)
    requires NoStaleMark(s)
    ensures NoStaleMark(DoCancelSnapshot(s, sid))
  {
  }

  lemma RecordMarks(s: Sys, sid: string)
    requires NoStaleMark(s) && sid in s.cancelling
    ensures NoStaleMark(DoCancelRecord(s, sid))
  {
  }

  lemma CancelEffect(s: Sys, sid: string)
    requires Free(s, sid)
    ensures var s' := Next(Next(s, CancelSnapshot(sid)), CancelRecord(sid));
            && s' == DoCancelRecord(DoCancelSnapshot(s, sid), sid)
            && Free(s', sid)
            && forall i :: 0 <= i < |s'.threads| && s'.threads[i].open && Sid(s', i) == sid ==> s'.threads[i].hit
  {
  }

  lemma HistoryStep(s: Sys, s': Sys, step: Step, i: nat)
    requires Histories(s, s', if Enabled(s, step) then step else Shutdown)
    requires i < |s'.threads| && s'.threads[i].open
    ensures History(s, s', if Enabled(s, step) then step else Shutdown, i)
    ensures step.CancelSnapshot? ==> (Enabled(s, step) <==> Free(s, step.sid))
  {
  }

  /** The step takes away the last reservation and leaves the Cancel half way. */
  lemma Overtaken(s: Sys, step: Step)
    requires Inv(s) && OvertakesCancel(s, step)
    ensures var sid := Sid(s, step.i);
            && sid in s.cancelling && s.cancelling[sid] > 0
            && sid !in Next(s, step).agent.acceptedRuns
  {
    OpenCounts(s, step.i);
    assert ThreadOk(s.threads[step.i], s.agent.acceptSeqGen);
  }

  lemma RecordsMark(s: Sys, sid: string)
    requires sid in s.cancelling && s.cancelling[sid] > 0
    ensures var a := Next(s, CancelRecord(sid)).agent;
            sid in a.cancelMark && a.cancelMark[sid] > 0 && a.acceptedRuns == s.agent.acceptedRuns
  {
  }

  lemma StepPending(s: Sys, step: Step, sid: string)
    requires sid in s.cancelling && step != CancelRecord(sid)
    ensures sid in Next(s, step).cancelling && Next(s, step).cancelling[sid] == s.cancelling[sid]
  {
    hide DoEnter, DoHandoff;
    if Enabled(s, step) {
      match step
      case Enter(i, persist) => EnterRest(s, i, persist);
      case Handoff(i, ctxDone) => HandoffPending(s, i, ctxDone);
      case _ => OtherPending(s, step, sid);
    }
  }

  lemma HandoffPending(s: Sys, i: nat, ctxDone: bool)
    requires i < |s.threads|
    ensures DoHandoff(s, i, ctxDone).cancelling == s.cancelling
  {
    hide CancelledEvents, Select, OwesRunComplete, Uncovered, Broker, Hooked;
  }

  lemma OtherPending(s: Sys, step: Step, sid: string)
    requires Enabled(s, step) && sid in s.cancelling && step != CancelRecord(sid) && !step.Enter? && !step.Handoff?
    ensures sid in Do(s, step).cancelling && Do(s, step).cancelling[sid] == s.cancelling[sid]
  {
    hide CancelledEvents, Select, Broker, Hooked, FallsBack, DoEnter, DoHandoff;
  }
}
