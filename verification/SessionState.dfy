/**
 The state a session agent keeps under its locks, and each lock-held section of
 internal/agent/agent.go as a function on that state.  `SessionAgent` (in
 SessionAgent.dfy) updates its fields in place and is proved against these
 functions; `Dispatch` runs them under every interleaving.
 */
module SessionState {
  import opened Options

  /** What matters here of a SessionAgentCall.  `accepted` is the sequence number of
      the reservation the call carries, `hook` says whether OnComplete is set. */
  datatype Call = Call(
    sessionID: string,
    runID: string,
    acceptSeq: nat,
    accepted: Option<nat>,
    hook: bool)
  {
    /** enqueueCall keeps the accept sequence and strips the handle and the hook. */
    function Queued(): Call {
      this.(acceptSeq := if accepted.Some? then accepted.value else acceptSeq,
            accepted := None,
            hook := false)
    }
  }

  datatype RunComplete = RunComplete(sessionID: string, runID: string, cancelled: bool)

  /** canceledBySeq: a mark of 0 covers nothing, an untracked call (0) is covered by
      any mark, a tracked one only when it is at or below the mark. */
  predicate Covered(mark: nat, seqNo: nat) {
    mark > 0 && (seqNo == 0 || seqNo <= mark)
  }

  /** What a streaming step does with one queued call. */
  datatype Fate = Keep | Fold | Drop

  function FateOf(mark: nat, c: Call): Fate {
    if Covered(mark, c.acceptSeq) then Drop else if c.runID != "" then Keep else Fold
  }

  /** The calls of `q` with the given fate, in queue order. */
  function Select(q: seq<Call>, mark: nat, f: Fate): seq<Call> {
    if q == [] then []
    else
      var rest := Select(q[..|q| - 1], mark, f);
      var last := q[|q| - 1];
      if FateOf(mark, last) == f then rest + [last] else rest
  }

  /** The calls a handoff leaves queued: those the mark does not cover. */
  function Uncovered(q: seq<Call>, mark: nat): seq<Call> {
    if q == [] then []
    else
      var rest := Uncovered(q[..|q| - 1], mark);
      var last := q[|q| - 1];
      if Covered(mark, last.acceptSeq) then rest else rest + [last]
  }

  function WithRunID(q: seq<Call>): seq<Call> {
    if q == [] then []
    else
      var rest := WithRunID(q[..|q| - 1]);
      var last := q[|q| - 1];
      if last.runID != "" then rest + [last] else rest
  }

  /** The cancelled terminal events the broker gets for the calls in `q` that somebody waits
      for; a call with a hook would hand its event to the hook. */
  function CancelledEvents(q: seq<Call>): seq<RunComplete> {
    if q == [] then []
    else
      var rest := CancelledEvents(q[..|q| - 1]);
      var last := q[|q| - 1];
      if last.runID != "" && !last.hook then rest + [RunComplete(last.sessionID, last.runID, true)] else rest
  }

  /** How an accepted call leaves the dispatch section of Run. */
  datatype Entry = CanceledOnEntry | Enqueued | Active

  datatype AgentState = AgentState(
    messageQueue: map<string, seq<Call>>,
    activeRequests: set<string>,
    acceptedRuns: map<string, nat>,
    cancelMark: map<string, nat>,
    acceptSeqGen: nat)
  {
    function Queue(sid: string): seq<Call> {
      if sid in messageQueue then messageQueue[sid] else []
    }

    function Count(sid: string): nat {
      if sid in acceptedRuns then acceptedRuns[sid] else 0
    }

    function Mark(sid: string): nat {
      if sid in cancelMark then cancelMark[sid] else 0
    }

    function BeginAccepted(sid: string): AgentState {
      this.(acceptedRuns := acceptedRuns[sid := Count(sid) + 1], acceptSeqGen := acceptSeqGen + 1)
    }

    function EndAccepted(sid: string): AgentState {
      if Count(sid) <= 1 then
        this.(acceptedRuns := acceptedRuns - {sid}, cancelMark := cancelMark - {sid})
      else
        this.(acceptedRuns := acceptedRuns[sid := Count(sid) - 1])
    }

    function Enqueue(call: Call): AgentState {
      this.(messageQueue := messageQueue[call.sessionID := Queue(call.sessionID) + [call.Queued()]])
    }

    function Activate(sid: string): AgentState {
      this.(activeRequests := activeRequests + {sid})
    }

    function Deactivate(sid: string): AgentState {
      this.(activeRequests := activeRequests - {sid})
    }

    function SetQueue(sid: string, q: seq<Call>): AgentState {
      this.(messageQueue := if q == [] then messageQueue - {sid} else messageQueue[sid := q])
    }

    /** The branch the dispatch section takes for an accepted call. */
    function EntryOf(sid: string, seqNo: nat): Entry {
      if Covered(Mark(sid), seqNo) then CanceledOnEntry
      else if sid in activeRequests then Enqueued
      else Active
    }

    /** The branch of the dispatch section, without the release of the reservation. */
    function Entering(call: Call): AgentState
      requires call.accepted.Some?
    {
      match EntryOf(call.sessionID, call.accepted.value)
      case CanceledOnEntry => this
      case Enqueued => Enqueue(call)
      case Active => Activate(call.sessionID)
    }

    /** The dispatch section: decide, act, and in every branch release the reservation. */
    function Enter(call: Call): (a: AgentState)
      requires call.accepted.Some?
      ensures a.cancelMark == EndAccepted(call.sessionID).cancelMark
      ensures a.acceptedRuns == EndAccepted(call.sessionID).acceptedRuns
      ensures a.acceptSeqGen == acceptSeqGen
    {
      Entering(call).EndAccepted(call.sessionID)
    }

    /** drainQueueForStep: only the calls that keep their own turn stay queued. */
    function Drain(sid: string): AgentState {
      SetQueue(sid, Select(Queue(sid), Mark(sid), Keep))
    }

    /** What Cancel reads under acceptedMu: the mark to record, 0 for none. */
    function CancelSnapshot(sid: string): nat {
      if Count(sid) > 0 then acceptSeqGen else 0
    }

    /** The rest of Cancel: raise the mark, then drop the queue. */
    function CancelRecord(sid: string, mark: nat): AgentState {
      var marked := if mark > 0 then cancelMark[sid := if Mark(sid) > mark then Mark(sid) else mark] else cancelMark;
      this.(cancelMark := marked).SetQueue(sid, [])
    }

    /** The queue a handoff works on. */
    function HandoffQueue(sid: string): seq<Call> {
      if Mark(sid) > 0 then Uncovered(Queue(sid), Mark(sid)) else Queue(sid)
    }

    /** Handoff with nothing queued: forget the queue, and the mark if nobody waits to enter. */
    function HandoffIdle(sid: string): AgentState {
      var a := SetQueue(sid, []);
      if Count(sid) == 0 then a.(cancelMark := cancelMark - {sid}) else a
    }

    /** Handoff to the queue head, under a fresh reservation. */
    function HandoffNext(sid: string): AgentState
      requires HandoffQueue(sid) != []
    {
      this.(messageQueue := messageQueue[sid := HandoffQueue(sid)[1..]]).BeginAccepted(sid)
    }

    function Handoff(sid: string): AgentState {
      if HandoffQueue(sid) == [] then HandoffIdle(sid) else HandoffNext(sid)
    }
  }

  /** A finished turn publishes its own terminal event at a handoff unless the same
      RunID is still queued. */
  predicate OwesRunComplete(runID: string, q: seq<Call>) {
    runID != "" && forall i :: 0 <= i < |q| ==> q[i].runID != runID
  }

  // ---------------------------------------------------------------- queue lemmas

  /** The number of queued calls with a given RunID. */
  function CountRun(q: seq<Call>, runID: string): nat {
    if q == [] then 0
    else CountRun(q[..|q| - 1], runID) + (if q[|q| - 1].runID == runID then 1 else 0)
  }

  lemma {:induction false} CountRunAppend(q: seq<Call>, c: Call, runID: string)
    ensures CountRun(q + [c], runID) == CountRun(q, runID) + (if c.runID == runID then 1 else 0)
  {
    assert (q + [c])[..|q|] == q;
  }

  lemma {:induction false} CountRunHead(q: seq<Call>, runID: string)
    requires q != []
    ensures CountRun(q, runID) == (if q[0].runID == runID then 1 else 0) + CountRun(q[1..], runID)
  {
    if |q| > 1 {
      CountRunHead(q[..|q| - 1], runID);
      assert q[..|q| - 1][1..] == q[1..][..|q| - 2];
    }
  }

  lemma {:induction false} CountRunMember(q: seq<Call>, i: nat)
    requires i < |q|
    ensures CountRun(q, q[i].runID) >= 1
  {
    if i < |q| - 1 {
      CountRunMember(q[..|q| - 1], i);
    }
  }

  lemma {:induction false} CountRunZero(q: seq<Call>, runID: string)
    requires CountRun(q, runID) == 0
    ensures forall i :: 0 <= i < |q| ==> q[i].runID != runID
  {
    forall i | 0 <= i < |q|
      ensures q[i].runID != runID
    {
      CountRunMember(q, i);
    }
  }

  /** A run of `q` split in queue order over three lists: every call of `q` goes to the
      end of exactly one of them. */
  predicate SplitInOrder(q: seq<Call>, a: seq<Call>, b: seq<Call>, c: seq<Call>) {
    if q == [] then a == [] && b == [] && c == []
    else
      var init, last := q[..|q| - 1], q[|q| - 1];
      || (a != [] && a[|a| - 1] == last && SplitInOrder(init, a[..|a| - 1], b, c))
      || (b != [] && b[|b| - 1] == last && SplitInOrder(init, a, b[..|b| - 1], c))
      || (c != [] && c[|c| - 1] == last && SplitInOrder(init, a, b, c[..|c| - 1]))
  }

  /** The drain loop splits the queue: nothing lost, nothing duplicated, order kept. */
  lemma {:induction false} DrainSplitsQueue(q: seq<Call>, mark: nat)
    ensures SplitInOrder(q, Select(q, mark, Keep), Select(q, mark, Fold), Select(q, mark, Drop))
  {
    if q != [] {
      var last := q[|q| - 1];
      DrainSplitsQueue(q[..|q| - 1], mark);
      var f := FateOf(mark, last);
      var part := Select(q[..|q| - 1], mark, f);
      assert (part + [last])[..|part|] == part;
    }
  }

  /** The rule of a streaming step: what a recorded cancel covers goes, what somebody waits for
      keeps its own turn, the rest joins the running turn. */
  predicate Belongs(mark: nat, c: Call, f: Fate) {
    var covered := mark > 0 && (c.acceptSeq == 0 || c.acceptSeq <= mark);
    match f
    case Keep => !covered && c.runID != ""
    case Fold => !covered && c.runID == ""
    case Drop => covered
  }

  /** A streaming step goes by that rule, for every call and as often as it is queued. */
  lemma {:induction false} DrainDecides(q: seq<Call>, mark: nat, f: Fate, c: Call)
    ensures multiset(Select(q, mark, f))[c] == if Belongs(mark, c, f) then multiset(q)[c] else 0
  {
    if q != [] {
      var init, last := q[..|q| - 1], q[|q| - 1];
      DrainDecides(init, mark, f, c);
      assert q == init + [last];
      assert FateOf(mark, last) == f <==> Belongs(mark, last, f);
    }
  }

  lemma DrainMembers(q: seq<Call>, mark: nat, f: Fate)
    ensures forall c :: c in Select(q, mark, f) <==> c in q && Belongs(mark, c, f)
  {
    hide Select, Belongs;
    forall c
      ensures c in Select(q, mark, f) <==> c in q && Belongs(mark, c, f)
    {
      DrainDecides(q, mark, f, c);
      assert c in Select(q, mark, f) <==> c in multiset(Select(q, mark, f));
      assert c in q <==> c in multiset(q);
    }
  }

  /** A handoff splits the queue in order too: the uncovered calls stay, the covered ones go. */
  lemma {:induction false} HandoffSplitsQueue(q: seq<Call>, mark: nat)
    ensures SplitInOrder(q, Uncovered(q, mark), Select(q, mark, Drop), [])
    ensures forall c <- Uncovered(q, mark) :: !Belongs(mark, c, Drop)
    ensures forall c <- Select(q, mark, Drop) :: Belongs(mark, c, Drop)
  {
    if q != [] {
      HandoffSplitsQueue(q[..|q| - 1], mark);
      var kept, dropped := Uncovered(q[..|q| - 1], mark), Select(q[..|q| - 1], mark, Drop);
      assert (kept + [q[|q| - 1]])[..|kept|] == kept && (dropped + [q[|q| - 1]])[..|dropped|] == dropped;
    }
  }

  lemma {:induction false} SelectMembers(q: seq<Call>, mark: nat, f: Fate)
    ensures forall c :: c in Select(q, mark, f) <==> c in q && FateOf(mark, c) == f
  {
    if q != [] {
      SelectMembers(q[..|q| - 1], mark, f);
      assert q == q[..|q| - 1] + [q[|q| - 1]];
    }
  }

  lemma {:induction false} UncoveredMembers(q: seq<Call>, mark: nat)
    ensures forall c :: c in Uncovered(q, mark) <==> c in q && !Covered(mark, c.acceptSeq)
  {
    if q != [] {
      UncoveredMembers(q[..|q| - 1], mark);
      assert q == q[..|q| - 1] + [q[|q| - 1]];
    }
  }

  /** Keeping and dropping together account for every waiting RunID. */
  lemma {:induction false} DrainCounts(q: seq<Call>, mark: nat, runID: string)
    requires runID != ""
    ensures CountRun(Select(q, mark, Keep), runID) + CountRun(Select(q, mark, Drop), runID) == CountRun(q, runID)
  {
    if q != [] {
      var init, last := q[..|q| - 1], q[|q| - 1];
      DrainCounts(init, mark, runID);
      CountRunAppend(Select(init, mark, Keep), last, runID);
      CountRunAppend(Select(init, mark, Drop), last, runID);
    }
  }

  /** With nothing covered, a step drops nothing. */
  lemma {:induction false} NothingCoveredNothingDropped(q: seq<Call>, mark: nat)
    requires forall c :: c in q ==> !Covered(mark, c.acceptSeq)
    ensures Select(q, mark, Drop) == []
    ensures Uncovered(q, mark) == q
  {
    if q != [] {
      NothingCoveredNothingDropped(q[..|q| - 1], mark);
      assert q == q[..|q| - 1] + [q[|q| - 1]];
    }
  }

  /** What a handoff filters out is exactly what a drain would drop. */
  lemma {:induction false} HandoffCounts(q: seq<Call>, mark: nat, runID: string)
    ensures CountRun(Uncovered(q, mark), runID) + CountRun(Select(q, mark, Drop), runID) == CountRun(q, runID)
  {
    if q != [] {
      var init, last := q[..|q| - 1], q[|q| - 1];
      HandoffCounts(init, mark, runID);
      CountRunAppend(Uncovered(init, mark), last, runID);
      CountRunAppend(Select(init, mark, Drop), last, runID);
    }
  }

  lemma {:induction false} CancelledSplit(a: seq<Call>, b: seq<Call>)
    ensures CancelledEvents(a + b) == CancelledEvents(a) + CancelledEvents(b)
  {
    if b == [] {
      assert a + b == a;
    } else {
      CancelledSplit(a, b[..|b| - 1]);
      assert (a + b)[..|a + b| - 1] == a + b[..|b| - 1];
    }
  }

  /** Each dropped call that somebody waits for, and that has no hook, is told once that it was
      cancelled, under its own IDs and in queue order; the others are told nothing. */
  lemma {:induction false} DroppedCallsAreTold(a: seq<Call>, c: Call, b: seq<Call>)
    ensures CancelledEvents([]) == []
    ensures CancelledEvents(a + [c] + b)
            == CancelledEvents(a)
               + (if c.runID == "" || c.hook then [] else [RunComplete(c.sessionID, c.runID, true)])
               + CancelledEvents(b)
  {
    CancelledSplit(a + [c], b);
    CancelledSplit(a, [c]);
    assert [c][..0] == [];
  }
}
