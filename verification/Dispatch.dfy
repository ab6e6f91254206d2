/**
 Every interleaving of the goroutines that drive a session agent.  One `Step` is one
 lock-held section, or one action outside any lock, of internal/agent/agent.go,
 internal/agent/coordinator.go and internal/backend/agent.go.  A `Run` takes any list of
 steps in any order; a step that is not enabled changes nothing.
 */
module Dispatch {
  import opened Options
  import opened SessionState

  /** Who called coordinator.run: backend.runAgent, or an in-process caller. */
  datatype Origin = Backend | Local

  /** Where a goroutine is.
      - Reserved: SendMessage has taken the reservation, not yet passed the closing gate
      - Dispatched: the next thing the innermost Run does is its dispatch section
      - Entered: past the dispatch section, the deferred RunComplete not yet installed
      - Streaming: the deferred RunComplete is installed
      - Finishing: the turn ended well and released activeRequests; handoff is next
      - Unwinding: the innermost Run has ended; deferred functions and callers remain
      - Gone: nothing left to do */
  datatype Phase = Reserved | Dispatched | Entered | Streaming | Finishing | Unwinding | Gone

  /** The error a Run call returns. */
  datatype Outcome = Ok | Failed | Canceled

  /**
   - call: the call of the innermost Run; call.accepted is the reservation it carries
   - top: the innermost Run is the one the coordinator called
   - open: the reservation in call.accepted is not closed
   - hit: history variable, some Cancel of this session read the accept counter while
     this reservation was open
   - buffer: the coordinator's `latest`, None while hasLatest is false
   - frames: activeRequests entries the deferred functions have still to delete */
  datatype Thread = Thread(
    origin: Origin,
    msgRunID: string,
    call: Call,
    top: bool,
    phase: Phase,
    open: bool,
    hit: bool,
    buffer: Option<RunComplete>,
    frames: nat,
    result: Outcome)

  datatype Key = Key(sessionID: string, runID: string)

  /**
   - cancelling: the sessions whose dispatch lock a Cancel holds between its two
     sections, with the mark it is about to record (0 for none)
   - log: the events the RunComplete broker has published
   - accepted, rejected, lost: histories of the prompts taken in, of those refused with
     ErrWorkspaceClosing, and of those that ended without any terminal event */
  datatype Sys = Sys(
    agent: AgentState,
    threads: seq<Thread>,
    cancelling: map<string, nat>,
    closing: bool,
    runWG: int,
    log: seq<RunComplete>,
    accepted: multiset<Key>,
    rejected: multiset<Key>,
    lost: multiset<Key>)

  datatype Step =
    | SendMessage(sid: string, runID: string)
    | Gate(i: nat)
    | LocalCall(sid: string, runID: string)
    | PreRunFail(i: nat, err: Outcome)
    | Enter(i: nat, persist: Outcome)
    | EnterLocal(i: nat)
    | EarlyFail(i: nat, err: Outcome)
    | Install(i: nat)
    | DrainStep(i: nat)
    | StreamError(i: nat, err: Outcome)
    | Release(i: nat)
    | Handoff(i: nat, ctxDone: bool)
    | Unwind(i: nat)
    | Return(i: nat)
    | CancelSnapshot(sid: string)
    | CancelRecord(sid: string)
    | ClearQueue(sid: string)
    | Shutdown

  function Init(): Sys {
    Sys(AgentState(map[], {}, map[], map[], 0), [], map[], false, 0, [],
        multiset{}, multiset{}, multiset{})
  }

  function KeyOf(c: Call): Key {
    Key(c.sessionID, c.runID)
  }

  // ------------------------------------------------------------- what each step does

  predicate At(s: Sys, i: nat, ph: Phase) {
    i < |s.threads| && s.threads[i].phase == ph
  }

  /** Nobody holds the dispatch lock of the session. */
  predicate Free(s: Sys, sid: string) {
    sid !in s.cancelling
  }

  function Sid(s: Sys, i: nat): string
    requires i < |s.threads|
  {
    s.threads[i].call.sessionID
  }

  /** A RunID is used for one prompt of a session only. */
  predicate Unused(s: Sys, k: Key) {
    k.runID == "" || s.accepted[k] == 0
  }

  predicate Enabled(s: Sys, step: Step) {
    match step
    case SendMessage(sid, runID) => Unused(s, Key(sid, runID))
    case Gate(i) => At(s, i, Reserved)
    case LocalCall(sid, runID) => Unused(s, Key(sid, runID))
    case PreRunFail(i, err) => At(s, i, Dispatched) && s.threads[i].top && err != Ok
    case Enter(i, _) => At(s, i, Dispatched) && s.threads[i].call.accepted.Some? && Free(s, Sid(s, i))
    case EnterLocal(i) => At(s, i, Dispatched) && s.threads[i].call.accepted.None?
    case EarlyFail(i, err) => At(s, i, Entered) && err != Ok
    case Install(i) => At(s, i, Entered)
    case DrainStep(i) => At(s, i, Streaming) && Free(s, Sid(s, i))
    case StreamError(i, err) => At(s, i, Streaming) && err != Ok
    case Release(i) => At(s, i, Streaming)
    case Handoff(i, _) => At(s, i, Finishing) && Free(s, Sid(s, i))
    case Unwind(i) => At(s, i, Unwinding) && s.threads[i].frames > 0
    case Return(i) => At(s, i, Unwinding) && s.threads[i].frames == 0
    case CancelSnapshot(sid) => Free(s, sid)
    case CancelRecord(sid) => sid in s.cancelling
    case ClearQueue(_) => true
    case Shutdown => true
  }

  /** publishRunComplete: a hook takes the event instead of the broker. */
  function Complete(t: Thread, cancelled: bool): RunComplete {
    RunComplete(t.call.sessionID, t.call.runID, cancelled)
  }

  function Hooked(t: Thread, cancelled: bool): Thread {
    if t.call.hook then t.(buffer := Some(Complete(t, cancelled))) else t
  }

  function Broker(t: Thread, cancelled: bool): seq<RunComplete> {
    if t.call.hook then [] else [Complete(t, cancelled)]
  }

  function Put(s: Sys, i: nat, t: Thread): Sys
    requires i < |s.threads|
  {
    s.(threads := s.threads[i := t])
  }

  /** BeginAccepted, then the closing gate decides later. */
  function DoSendMessage(s: Sys, sid: string, runID: string): Sys {
    var a := s.agent.BeginAccepted(sid);
    var call := Call(sid, runID, 0, Some(a.acceptSeqGen), true);
    s.(agent := a,
       threads := s.threads + [Thread(Backend, runID, call, true, Reserved, true, false, None, 0, Ok)],
       accepted := s.accepted + multiset{Key(sid, runID)})
  }

  function DoGate(s: Sys, i: nat): Sys
    requires i < |s.threads|
  {
    var t := s.threads[i];
    if s.closing then
      Put(s, i, t.(phase := Gone, open := false))
      .(agent := s.agent.EndAccepted(t.call.sessionID), rejected := s.rejected + multiset{KeyOf(t.call)})
    else
      Put(s, i, t.(phase := Dispatched)).(runWG := s.runWG + 1)
  }

  function DoLocalCall(s: Sys, sid: string, runID: string): Sys {
    var call := Call(sid, runID, 0, None, true);
    s.(threads := s.threads + [Thread(Local, runID, call, true, Dispatched, false, false, None, 0, Ok)],
       accepted := s.accepted + multiset{Key(sid, runID)})
  }

  /** An error return before the deferred RunComplete exists.  Only backend.runAgent
      makes up for it, only for its own call, and not for context.Canceled. */
  predicate Recovered(t: Thread, err: Outcome) {
    t.origin == Backend && t.top && err == Failed
  }

  function DoFail(s: Sys, i: nat, err: Outcome): Sys
    requires i < |s.threads|
  {
    var t := s.threads[i];
    Put(s, i, t.(phase := Unwinding, result := err))
    .(lost := if Recovered(t, err) then s.lost else s.lost + multiset{KeyOf(t.call)})
  }

  /** The dispatch section; `persist` is what persistCanceledTurn returns. */
  function DoEnter(s: Sys, i: nat, persist: Outcome): Sys
    requires i < |s.threads| && s.threads[i].call.accepted.Some?
  {
    var t := s.threads[i];
    var closed := t.(open := false);
    var s1 := s.(agent := s.agent.Enter(t.call));
    match s.agent.EntryOf(t.call.sessionID, t.call.accepted.value)
    case CanceledOnEntry =>
      Put(s1, i, Hooked(closed, true).(phase := Unwinding, result := persist)).(log := s.log + Broker(t, true))
    case Enqueued => Put(s1, i, closed.(phase := Unwinding, result := Ok))
    case Active => Put(s1, i, closed.(phase := Entered, frames := t.frames + 1))
  }

  function DoEnterLocal(s: Sys, i: nat): Sys
    requires i < |s.threads|
  {
    var t := s.threads[i];
    if t.call.sessionID in s.agent.activeRequests then
      Put(s, i, t.(phase := Unwinding, result := Ok)).(agent := s.agent.Enqueue(t.call))
    else
      Put(s, i, t.(phase := Entered))
  }

  /** An accepted run is registered already; an in-process one registers here. */
  function DoInstall(s: Sys, i: nat): Sys
    requires i < |s.threads|
  {
    var t := s.threads[i];
    if t.call.accepted.Some? then Put(s, i, t.(phase := Streaming))
    else
      Put(s, i, t.(phase := Streaming, frames := t.frames + 1)).(agent := s.agent.Activate(t.call.sessionID))
  }

  function DoDrainStep(s: Sys, i: nat): Sys
    requires i < |s.threads|
  {
    var sid := s.threads[i].call.sessionID;
    s.(agent := s.agent.Drain(sid),
       log := s.log + CancelledEvents(Select(s.agent.Queue(sid), s.agent.Mark(sid), Drop)))
  }

  /** The deferred publish of a turn that ended. */
  function DoStreamError(s: Sys, i: nat, err: Outcome): Sys
    requires i < |s.threads|
  {
    var t := s.threads[i];
    var cancelled := err == Canceled;
    Put(s, i, Hooked(t, cancelled).(phase := Unwinding, result := err)).(log := s.log + Broker(t, cancelled))
  }

  function DoRelease(s: Sys, i: nat): Sys
    requires i < |s.threads|
  {
    Put(s, i, s.threads[i].(phase := Finishing)).(agent := s.agent.Deactivate(s.threads[i].call.sessionID))
  }

  function DoHandoff(s: Sys, i: nat, ctxDone: bool): Sys
    requires i < |s.threads|
  {
    var t := s.threads[i];
    var sid := t.call.sessionID;
    var a := s.agent.Handoff(sid);
    var q := s.agent.HandoffQueue(sid);
    var s1 := s.(agent := a, log := s.log + CancelledEvents(Select(s.agent.Queue(sid), s.agent.Mark(sid), Drop)));
    if q == [] then
      Put(s1, i, Hooked(t, ctxDone).(phase := Unwinding, result := Ok)).(log := s1.log + Broker(t, ctxDone))
    else
      var owes := OwesRunComplete(t.call.runID, q);
      var told := if owes then Hooked(t, ctxDone) else t;
      Put(s1, i, told.(call := q[0].(accepted := Some(a.acceptSeqGen)),
                       top := false, phase := Dispatched, open := true, hit := false))
      .(log := if owes then s1.log + Broker(t, ctxDone) else s1.log)
  }

  function DoUnwind(s: Sys, i: nat): Sys
    requires i < |s.threads| && s.threads[i].frames > 0
  {
    var t := s.threads[i];
    Put(s, i, t.(frames := t.frames - 1)).(agent := s.agent.Deactivate(t.call.sessionID))
  }

  /** runAgent publishes for the prompt it was given when nobody else did. */
  predicate FallsBack(t: Thread) {
    t.origin == Backend && t.result == Failed && t.msgRunID != "" && t.buffer.None?
  }

  /** The coordinator publishes what the hook left; runAgent falls back, closes the
      reservation if it is still open, and gives its ticket back. */
  function DoReturn(s: Sys, i: nat): Sys
    requires i < |s.threads|
  {
    var t := s.threads[i];
    var sid := t.call.sessionID;
    var told :=
      if t.buffer.Some? then [t.buffer.value]
      else if FallsBack(t) then [RunComplete(sid, t.msgRunID, false)]
      else [];
    Put(s, i, t.(phase := Gone, open := false, buffer := None))
    .(agent := if t.open then s.agent.EndAccepted(sid) else s.agent,
      runWG := if t.origin == Backend then s.runWG - 1 else s.runWG,
      log := s.log + told)
  }

  /** Cancel, up to the release of acceptedMu. */
  function DoCancelSnapshot(s: Sys, sid: string): Sys {
    s.(cancelling := s.cancelling[sid := s.agent.CancelSnapshot(sid)],
       threads := seq(|s.threads|, i requires 0 <= i < |s.threads| =>
                    s.threads[i].(hit := s.threads[i].hit
                                         || (s.threads[i].open && s.threads[i].call.sessionID == sid))))
  }

  /** Cancel, from there to the end. */
  function DoCancelRecord(s: Sys, sid: string): Sys
    requires sid in s.cancelling
  {
    s.(agent := s.agent.CancelRecord(sid, s.cancelling[sid]),
       cancelling := s.cancelling - {sid},
       log := s.log + CancelledEvents(s.agent.Queue(sid)))
  }

  function DoClearQueue(s: Sys, sid: string): Sys {
    s.(agent := s.agent.SetQueue(sid, []), log := s.log + CancelledEvents(s.agent.Queue(sid)))
  }

  function Do(s: Sys, step: Step): Sys
    requires Enabled(s, step)
  {
    match step
    case SendMessage(sid, runID) => DoSendMessage(s, sid, runID)
    case Gate(i) => DoGate(s, i)
    case LocalCall(sid, runID) => DoLocalCall(s, sid, runID)
    case PreRunFail(i, err) => DoFail(s, i, err)
    case Enter(i, persist) => DoEnter(s, i, persist)
    case EnterLocal(i) => DoEnterLocal(s, i)
    case EarlyFail(i, err) => DoFail(s, i, err)
    case Install(i) => DoInstall(s, i)
    case DrainStep(i) => DoDrainStep(s, i)
    case StreamError(i, err) => DoStreamError(s, i, err)
    case Release(i) => DoRelease(s, i)
    case Handoff(i, ctxDone) => DoHandoff(s, i, ctxDone)
    case Unwind(i) => DoUnwind(s, i)
    case Return(i) => DoReturn(s, i)
    case CancelSnapshot(sid) => DoCancelSnapshot(s, sid)
    case CancelRecord(sid) => DoCancelRecord(s, sid)
    case ClearQueue(sid) => DoClearQueue(s, sid)
    case Shutdown => s.(closing := true)
  }

  function Next(s: Sys, step: Step): Sys {
    if Enabled(s, step) then Do(s, step) else s
  }

  /** A run: the states between the steps. */
  predicate Run(states: seq<Sys>, steps: seq<Step>) {
    && |states| == |steps| + 1
    && states[0] == Init()
    && forall n :: 0 <= n < |steps| ==> Follows(states, steps, n)
  }

  predicate Follows(states: seq<Sys>, steps: seq<Step>, n: nat)
    requires |states| == |steps| + 1 && n < |steps|
  {
    states[n + 1] == Next(states[n], steps[n])
  }

  // --------------------------------------------------------------- where a RunID is

  function Total(ts: seq<Thread>, w: Thread -> nat): nat {
    if ts == [] then 0 else Total(ts[..|ts| - 1], w) + w(ts[|ts| - 1])
  }

  predicate InFlight(t: Thread) {
    t.phase != Unwinding && t.phase != Gone
  }

  /** How many terminal events for `k` the thread has still to see to. */
  function OwedBy(t: Thread, k: Key): nat {
    (if InFlight(t) && KeyOf(t.call) == k then 1 else 0)
    + (if t.buffer.Some? && t.buffer.value.sessionID == k.sessionID && t.buffer.value.runID == k.runID then 1 else 0)
    + (if t.phase == Unwinding && FallsBack(t) && Key(t.call.sessionID, t.msgRunID) == k then 1 else 0)
  }

  function Owing(k: Key): Thread -> nat {
    (t: Thread) => OwedBy(t, k)
  }

  /** Held by a goroutine: reserved, running, or buffered for publication. */
  function Held(s: Sys, k: Key): nat {
    Total(s.threads, Owing(k))
  }

  function QueuedFor(s: Sys, k: Key): nat {
    CountRun(s.agent.Queue(k.sessionID), k.runID)
  }

  function Published(log: seq<RunComplete>, k: Key): nat {
    if log == [] then 0
    else
      var last := log[|log| - 1];
      Published(log[..|log| - 1], k) + (if last.sessionID == k.sessionID && last.runID == k.runID then 1 else 0)
  }

  function Elsewhere(s: Sys, k: Key): nat {
    QueuedFor(s, k) + Published(s.log, k) + s.rejected[k] + s.lost[k]
  }

  function Bit(b: bool): nat {
    if b then 1 else 0
  }

  function OpenIn(sid: string): Thread -> nat {
    (t: Thread) => Bit(t.open && t.call.sessionID == sid)
  }

  /** The goroutine holds a runWG ticket: from the gate until runAgent returns. */
  predicate HasTicket(t: Thread) {
    t.origin == Backend && t.phase != Reserved && t.phase != Gone
  }

  function Ticket(): Thread -> nat {
    (t: Thread) => Bit(HasTicket(t))
  }
}
