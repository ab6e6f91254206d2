/**
 internal/agent/agent.go: the session agent's fields and the methods that update them
 under acceptedMu and the per-session dispatch mutex.  Each method is proved against the
 section it is in `SessionState.AgentState`.
 */
module SessionAgents {
  import opened Options
  import opened SessionState

  class SessionAgent {
    var messageQueue: map<string, seq<Call>>
    var activeRequests: set<string>
    var acceptedRuns: map<string, nat>
    var cancelMark: map<string, nat>
    var acceptSeqGen: nat
    /** What the RunComplete broker has published. */
    var runComplete: seq<RunComplete>

    function View(): AgentState
      reads this
    {
      AgentState(messageQueue, activeRequests, acceptedRuns, cancelMark, acceptSeqGen)
    }

    constructor ()
      ensures View() == AgentState(map[], {}, map[], map[], 0) && runComplete == []
    {
      messageQueue, activeRequests, acceptedRuns, cancelMark, acceptSeqGen := map[], {}, map[], map[], 0;
      runComplete := [];
    }

    method BeginAccepted(sessionID: string) returns (handle: AcceptedRun)
      modifies this
      ensures View() == old(View()).BeginAccepted(sessionID) && runComplete == old(runComplete)
      ensures fresh(handle) && !handle.done && handle.agent == this
      ensures handle.sessionID == sessionID && handle.seqNo == acceptSeqGen
    {
      var count := if sessionID in acceptedRuns then acceptedRuns[sessionID] else 0;
      acceptedRuns := acceptedRuns[sessionID := count + 1];
      acceptSeqGen := acceptSeqGen + 1;
      handle := new AcceptedRun(this, sessionID, acceptSeqGen);
    }

    method EndAccepted(sessionID: string)
      modifies this
      ensures View() == old(View()).EndAccepted(sessionID) && runComplete == old(runComplete)
    {
      if sessionID !in acceptedRuns || acceptedRuns[sessionID] <= 1 {
        acceptedRuns := acceptedRuns - {sessionID};
        cancelMark := cancelMark - {sessionID};
        return;
      }
      acceptedRuns := acceptedRuns[sessionID := acceptedRuns[sessionID] - 1];
    }

    predicate CanceledBySeq(sessionID: string, seqNo: nat)
      reads this
    {
      sessionID in cancelMark && cancelMark[sessionID] != 0
      && (seqNo == 0 || seqNo <= cancelMark[sessionID])
    }

    predicate IsSessionBusy(sessionID: string)
      reads this
    {
      sessionID in activeRequests
    }

    method EnqueueCall(call: Call)
      modifies this
      ensures View() == old(View()).Enqueue(call) && runComplete == old(runComplete)
    {
      var existing: seq<Call> := if call.sessionID in messageQueue then messageQueue[call.sessionID] else [];
      var queued := call;
      if call.accepted.Some? {
        queued := queued.(acceptSeq := call.accepted.value);
      }
      queued := queued.(hook := false, accepted := None);
      messageQueue := messageQueue[call.sessionID := existing + [queued]];
    }

    /** The dispatch section of Run for an accepted call.  The second attempt after a 401 comes
        with its handle closed, and then there is no reservation to release. */
    method Dispatch(call: Call, handle: AcceptedRun) returns (entry: Entry)
      requires handle.agent == this && handle.sessionID == call.sessionID
      requires call.accepted == Some(handle.seqNo)
      modifies this, handle
      ensures entry == old(View()).EntryOf(call.sessionID, handle.seqNo)
      ensures View() == if old(handle.done) then old(View()).Entering(call) else old(View()).Enter(call)
      ensures handle.done && runComplete == old(runComplete)
    {
      if CanceledBySeq(call.sessionID, handle.seqNo) {
        handle.Close();
        return CanceledOnEntry;
      }
      if IsSessionBusy(call.sessionID) {
        EnqueueCall(call);
        handle.Close();
        return Enqueued;
      }
      activeRequests := activeRequests + {call.sessionID};
      handle.Close();
      return Active;
    }

    method DrainQueueForStep(sessionID: string) returns (fold: seq<Call>, canceledWithRunID: seq<Call>)
      modifies this
      ensures View() == old(View()).Drain(sessionID) && runComplete == old(runComplete)
      ensures var q, m := old(View()).Queue(sessionID), old(View()).Mark(sessionID);
              fold == Select(q, m, Fold) && canceledWithRunID == WithRunID(Select(q, m, Drop))
      ensures var q, m := old(View()).Queue(sessionID), old(View()).Mark(sessionID);
              && (forall c :: c in View().Queue(sessionID) <==> c in q && Belongs(m, c, Keep))
              && (forall c :: c in fold <==> c in q && Belongs(m, c, Fold))
    {
      var queuedCalls: seq<Call> := if sessionID in messageQueue then messageQueue[sessionID] else [];
      var keep: seq<Call> := [];
      fold, canceledWithRunID := [], [];
      ghost var m := View().Mark(sessionID);
      for i := 0 to |queuedCalls|
        invariant View() == old(View()) && runComplete == old(runComplete)
        invariant keep == Select(queuedCalls[..i], m, Keep)
        invariant fold == Select(queuedCalls[..i], m, Fold)
        invariant canceledWithRunID == WithRunID(Select(queuedCalls[..i], m, Drop))
      {
        var queued := queuedCalls[i];
        assert queuedCalls[..i + 1][..i] == queuedCalls[..i];
        if CanceledBySeq(sessionID, queued.acceptSeq) {
          ghost var dropped := Select(queuedCalls[..i], m, Drop);
          assert (dropped + [queued])[..|dropped|] == dropped;
          if queued.runID != "" {
            canceledWithRunID := canceledWithRunID + [queued];
          }
        } else if queued.runID != "" {
          keep := keep + [queued];
        } else {
          fold := fold + [queued];
        }
      }
      assert queuedCalls[..|queuedCalls|] == queuedCalls;
      DrainMembers(queuedCalls, m, Keep);
      DrainMembers(queuedCalls, m, Fold);
      if |keep| == 0 {
        messageQueue := messageQueue - {sessionID};
      } else {
        messageQueue := messageQueue[sessionID := keep];
      }
    }

    /** publishRunComplete: the hook, when there is one, gets the event instead. */
    method PublishRunComplete(call: Call, complete: RunComplete) returns (hooked: Option<RunComplete>)
      modifies this`runComplete
      ensures hooked == if call.hook then Some(complete) else None
      ensures runComplete == old(runComplete) + (if call.hook then [] else [complete])
    {
      if call.hook {
        return Some(complete);
      }
      runComplete := runComplete + [complete];
      return None;
    }

    method PublishCanceledQueueDrops(drops: seq<Call>)
      modifies this`runComplete
      ensures runComplete == old(runComplete) + CancelledEvents(drops)
    {
      for i := 0 to |drops|
        invariant runComplete == old(runComplete) + CancelledEvents(drops[..i])
      {
        var d := drops[i];
        assert drops[..i + 1][..i] == drops[..i];
        if d.runID != "" {
          var _ := PublishRunComplete(d, RunComplete(d.sessionID, d.runID, true));
        }
      }
      assert drops[..|drops|] == drops;
    }

    method ClearQueueAndNotify(sessionID: string)
      modifies this`messageQueue, this`runComplete
      ensures View() == old(View()).SetQueue(sessionID, [])
      ensures runComplete == old(runComplete) + CancelledEvents(old(View()).Queue(sessionID))
    {
      var queued: seq<Call> := if sessionID in messageQueue then messageQueue[sessionID] else [];
      messageQueue := messageQueue - {sessionID};
      PublishCanceledQueueDrops(queued);
    }

    /** Cancel's section under acceptedMu: the mark to record, 0 for none. */
    method CancelSnapshot(sessionID: string) returns (mark: nat)
      ensures mark == View().CancelSnapshot(sessionID)
    {
      var count := if sessionID in acceptedRuns then acceptedRuns[sessionID] else 0;
      mark := if count > 0 then acceptSeqGen else 0;
    }

    /** The rest of Cancel.  The cancel functions it calls act on contexts outside the agent. */
    method CancelRecord(sessionID: string, mark: nat)
      modifies this`cancelMark, this`messageQueue, this`runComplete
      ensures View() == old(View()).CancelRecord(sessionID, mark)
      ensures runComplete == old(runComplete) + CancelledEvents(old(View()).Queue(sessionID))
    {
      if mark > 0 {
        var existing := if sessionID in cancelMark then cancelMark[sessionID] else 0;
        cancelMark := cancelMark[sessionID := if existing > mark then existing else mark];
      }
      if sessionID in messageQueue && |messageQueue[sessionID]| > 0 {
        ClearQueueAndNotify(sessionID);
      } else {
        // The source leaves an empty entry in the map, which reads the same.
        messageQueue := messageQueue - {sessionID};
      }
    }

    method Cancel(sessionID: string)
      modifies this`cancelMark, this`messageQueue, this`runComplete
      ensures View() == old(View()).CancelRecord(sessionID, old(View()).CancelSnapshot(sessionID))
      ensures runComplete == old(runComplete) + CancelledEvents(old(View()).Queue(sessionID))
    {
      var mark := CancelSnapshot(sessionID);
      CancelRecord(sessionID, mark);
    }

    /** The first half of the handoff: drop the queued calls a recorded cancel covers. */
    method DropCovered(sessionID: string) returns (queuedMessages: seq<Call>)
      modifies this`messageQueue, this`runComplete
      ensures queuedMessages == old(View()).HandoffQueue(sessionID)
      ensures View() == old(View()).(messageQueue := messageQueue)
      ensures messageQueue == old(messageQueue) || messageQueue == old(messageQueue)[sessionID := queuedMessages]
      ensures runComplete == old(runComplete) +
                CancelledEvents(Select(old(View()).Queue(sessionID), old(View()).Mark(sessionID), Drop))
    {
      queuedMessages := if sessionID in messageQueue then messageQueue[sessionID] else [];
      var mark := if sessionID in cancelMark then cancelMark[sessionID] else 0;
      if mark > 0 && |queuedMessages| > 0 {
        var kept, dropped := FilterCovered(queuedMessages, mark);
        queuedMessages := kept;
        messageQueue := messageQueue[sessionID := kept];
        PublishCanceledQueueDrops(dropped);
      } else if mark == 0 {
        NothingCoveredNothingDropped(queuedMessages, 0);
      }
    }

    /** The handoff at the end of Run.  `next` is the call to run next, under `handle`;
        `owes` says whether the finished turn publishes its own event now. */
    method Handoff(sessionID: string, runID: string) returns (next: Option<Call>, handle: AcceptedRun?, owes: bool)
      modifies this
      ensures View() == old(View()).Handoff(sessionID)
      ensures runComplete == old(runComplete) +
                CancelledEvents(Select(old(View()).Queue(sessionID), old(View()).Mark(sessionID), Drop))
      ensures var q := old(View()).HandoffQueue(sessionID);
              if q == [] then next == None && handle == null && owes
              else && next == Some(q[0].(accepted := Some(acceptSeqGen)))
                   && owes == OwesRunComplete(runID, q)
                   && handle != null && fresh(handle) && !handle.done && handle.agent == this
                   && handle.seqNo == acceptSeqGen && handle.sessionID == sessionID
    {
      hide Select, CancelledEvents, Uncovered, OwesRunComplete;
      var queuedMessages := DropCovered(sessionID);
      if |queuedMessages| == 0 {
        LeaveIdle(sessionID);
        return None, null, true;
      }
      owes := OwesOwn(runID, queuedMessages);
      messageQueue := messageQueue[sessionID := queuedMessages[1..]];
      handle := BeginAccepted(sessionID);
      next := Some(queuedMessages[0].(accepted := Some(handle.seqNo)));
    }

    /** The handoff with nothing to run: the mark goes too when nobody waits to enter. */
    method LeaveIdle(sessionID: string)
      modifies this`messageQueue, this`cancelMark
      ensures View() == old(View()).HandoffIdle(sessionID)
    {
      messageQueue := messageQueue - {sessionID};
      var inFlight := if sessionID in acceptedRuns then acceptedRuns[sessionID] else 0;
      if inFlight == 0 {
        cancelMark := cancelMark - {sessionID};
      }
    }

    /** The loop of the handoff that looks for the finished turn's own RunID. */
    static method OwesOwn(runID: string, queue: seq<Call>) returns (owes: bool)
      ensures owes == OwesRunComplete(runID, queue)
    {
      owes := runID != "";
      if owes {
        for i := 0 to |queue|
          invariant forall j :: 0 <= j < i ==> queue[j].runID != runID
        {
          if queue[i].runID == runID {
            return false;
          }
        }
      }
    }

    /** The loop of the handoff that splits off what the mark covers. */
    static method FilterCovered(queue: seq<Call>, mark: nat) returns (kept: seq<Call>, dropped: seq<Call>)
      requires mark > 0
      ensures kept == Uncovered(queue, mark) && dropped == Select(queue, mark, Drop)
    {
      kept, dropped := [], [];
      for i := 0 to |queue|
        invariant kept == Uncovered(queue[..i], mark) && dropped == Select(queue[..i], mark, Drop)
      {
        var c := queue[i];
        assert queue[..i + 1][..i] == queue[..i];
        if c.acceptSeq == 0 || c.acceptSeq <= mark {
          dropped := dropped + [c];
        } else {
          kept := kept + [c];
        }
      }
      assert queue[..|queue|] == queue;
    }
  }

  /** One accept reservation.  Close is the only way to release it, and works once. */
  class AcceptedRun {
    const agent: SessionAgent
    const sessionID: string
    const seqNo: nat
    var done: bool

    constructor (agent: SessionAgent, sessionID: string, seqNo: nat)
      ensures this.agent == agent && this.sessionID == sessionID && this.seqNo == seqNo && !done
    {
      this.agent, this.sessionID, this.seqNo, this.done := agent, sessionID, seqNo, false;
    }

    method Close()
      modifies this, agent
      ensures done && agent.runComplete == old(agent.runComplete)
      ensures agent.View() == if old(done) then old(agent.View()) else old(agent.View()).EndAccepted(sessionID)
    {
      if done {
        return;
      }
      done := true;
      agent.EndAccepted(sessionID);
    }
  }
}
