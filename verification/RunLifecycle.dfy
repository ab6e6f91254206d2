/**
 internal/agent/coordinator.go, internal/agent/run_marker.go, internal/backend/agent.go: who
 publishes the terminal event of a dispatched run, once all its attempts are over.
 */
module RunLifecycle {
  import opened Options
  import opened SessionState
  import opened SessionAgents
  import opened Claims
  import opened Dispatch

  /** One call of sessionAgent.Run: the events it gave to the hook, the error it returned, and
      whether that was a 401. */
  datatype Attempt = Attempt(told: seq<RunComplete>, err: Outcome, unauthorized: bool)

  /** What a run comes to: an error before the first attempt, or one attempt, and a second one
      when the first was refused and the credentials could be refreshed. */
  datatype Course = Course(before: Outcome, first: Attempt, refreshed: bool, second: Attempt)
  {
    predicate Retries() {
      first.err != Ok && first.unauthorized && refreshed
    }

    function Told(): seq<RunComplete> {
      if before != Ok then [] else first.told + if Retries() then second.told else []
    }

    function Err(): Outcome {
      if before != Ok then before else if Retries() then second.err else first.err
    }
  }

  class RunCompleteMarker {
    var published: bool

    constructor ()
      ensures !published
    {
      published := false;
    }

    method MarkRunCompletePublished()
      modifies this
      ensures published
    {
      published := true;
    }
  }

  /** The two variables that the OnComplete hook of coordinator.run writes. */
  class Coalescer {
    var latest: RunComplete
    var hasLatest: bool

    constructor (zero: RunComplete)
      ensures View() == None
    {
      latest, hasLatest := zero, false;
    }

    function View(): Option<RunComplete>
      reads this
    {
      if hasLatest then Some(latest) else None
    }

    method OnComplete(rc: RunComplete)
      modifies this
      ensures View() == Some(rc)
    {
      latest := rc;
      hasLatest := true;
    }

    /** The hook as one attempt calls it. */
    method Hear(told: seq<RunComplete>)
      modifies this
      ensures View() == if told == [] then old(View()) else Some(told[|told| - 1])
    {
      for i := 0 to |told|
        invariant View() == if i == 0 then old(View()) else Some(told[i - 1])
      {
        OnComplete(told[i]);
      }
    }
  }

  function LastOf(told: seq<RunComplete>): seq<RunComplete> {
    if told == [] then [] else [told[|told| - 1]]
  }

  /** coordinator.run: the attempts write over one another, and one event is published. */
  method CoordinatorRun(course: Course, agent: SessionAgent, marker: RunCompleteMarker) returns (err: Outcome)
    modifies agent`runComplete, marker
    ensures err == course.Err()
    ensures agent.runComplete == old(agent.runComplete) + LastOf(course.Told())
    ensures marker.published <==> old(marker.published) || course.Told() != []
  {
    if course.before != Ok {
      return course.before;
    }
    var hook := new Coalescer(RunComplete("", "", false));
    hook.Hear(course.first.told);
    err := course.first.err;
    if err != Ok && course.first.unauthorized && course.refreshed {
      hook.Hear(course.second.told);
      err := course.second.err;
    }
    if hook.hasLatest {
      agent.runComplete := agent.runComplete + [hook.latest];
      marker.MarkRunCompletePublished();
    }
  }

  /** The terminal events that a dispatched run sends on its return. */
  function Terminal(course: Course, sessionID: string, runID: string): seq<RunComplete> {
    if course.Told() != [] then LastOf(course.Told())
    else if course.Err() == Failed && runID != "" then [RunComplete(sessionID, runID, false)]
    else []
  }

  /** Whose word it is: the last event of the second attempt if there was one and it spoke, else
      that of the first; and only when neither spoke, that of the goroutine, for a failure. */
  lemma OneVoice(course: Course, sessionID: string, runID: string)
    ensures var first, second, sent := course.first, course.second, Terminal(course, sessionID, runID);
            var again := first.err != Ok && first.unauthorized && course.refreshed;
            var failed := if course.before != Ok then course.before == Failed
                          else if again then second.err == Failed else first.err == Failed;
            if course.before == Ok && again && second.told != [] then sent == [second.told[|second.told| - 1]]
            else if course.before == Ok && first.told != [] then sent == [first.told[|first.told| - 1]]
            else if failed && runID != "" then sent == [RunComplete(sessionID, runID, false)]
            else sent == []
  {
    var told := course.first.told;
    assert told + [] == told;
  }

  /** backend.runAgent: run, fall back, and give back the reservation and the ticket.  It never
      sends two events, however many attempts there were, and none exactly when no attempt told
      of one and either the run did not fail or nobody waits. */
  method RunAgent(course: Course, agent: SessionAgent, accept: AcceptedRun, ws: Workspace,
                  sessionID: string, runID: string)
    requires accept.agent == agent && ws.runWG > 0
    modifies agent, accept, ws`runWG
    ensures agent.runComplete == old(agent.runComplete) + Terminal(course, sessionID, runID)
    ensures |agent.runComplete| <= |old(agent.runComplete)| + 1
    ensures agent.runComplete == old(agent.runComplete)
            <==> course.Told() == [] && (course.Err() != Failed || runID == "")
    ensures agent.View()
            == if old(accept.done) then old(agent.View()) else old(agent.View()).EndAccepted(accept.sessionID)
    ensures accept.done && ws.runWG == old(ws.runWG) - 1
  {
    var marker := new RunCompleteMarker();
    var err := CoordinatorRun(course, agent, marker);
    if err == Failed && runID != "" && !marker.published {
      agent.runComplete := agent.runComplete + [RunComplete(sessionID, runID, false)];
    }
    accept.Close();
    ws.runWG := ws.runWG - 1;
  }

  /** The Return step of `Dispatch` sends what runAgent sends for a run of one attempt whose
      hook was given what the step has buffered. */
  lemma ReturnSendsTerminal(s: Sys, i: nat, second: Attempt)
    requires At(s, i, Unwinding) && s.threads[i].origin == Backend
    ensures var t := s.threads[i];
            var told := if t.buffer.Some? then [t.buffer.value] else [];
            DoReturn(s, i).log
            == s.log + Terminal(Course(Ok, Attempt(told, t.result, false), false, second), t.call.sessionID, t.msgRunID)
  {
  }
}
