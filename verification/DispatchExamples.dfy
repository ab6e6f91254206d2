/**
 Two short runs in which a RunID never gets its terminal event: a turn handed off and then
 failing early, and a prompt left queued behind a turn that failed.
 */
module DispatchExamples {
  import opened Options
  import opened SessionState
  import opened Dispatch
  import opened DispatchTheorems

  const FIRST := Key("s", "r1")
  const SECOND := Key("s", "r2")

  /** The first goroutine's thread, as it goes. */
  function One(phase: Phase, open: bool, frames: nat, result: Outcome): Thread {
    Thread(Backend, "r1", Call("s", "r1", 0, Some(1), true), true, phase, open, false, None, frames, result)
  }

  function Two(phase: Phase, open: bool, result: Outcome): Thread {
    Thread(Backend, "r2", Call("s", "r2", 0, Some(2), true), true, phase, open, false, None, 0, result)
  }

  const WAITING := Call("s", "r2", 2, None, false)

  /** A state without cancels, refusals or events. */
  function Plain(a: AgentState, threads: seq<Thread>, runWG: int, accepted: multiset<Key>, lost: multiset<Key>): Sys {
    Sys(a, threads, map[], false, runWG, [], accepted, multiset{}, lost)
  }

  function Alone(phase: Phase, open: bool, frames: nat): Sys {
    Plain(AgentState(map[], if frames > 0 then {"s"} else {}, if open then map["s" := 1] else map[], map[], 1),
          [One(phase, open, frames, Ok)], if phase == Reserved then 0 else 1, multiset{FIRST}, multiset{})
  }

  function Joined(phase: Phase): Sys {
    Plain(AgentState(map[], {"s"}, map["s" := 1], map[], 2),
          [One(Streaming, false, 1, Ok), Two(phase, true, Ok)], if phase == Reserved then 1 else 2,
          multiset{FIRST, SECOND}, multiset{})
  }

  /** The first prompt streams; the second has been accepted behind it and queued. */
  function Busy(): Sys {
    Plain(AgentState(map["s" := [WAITING]], {"s"}, map[], map[], 2),
          [One(Streaming, false, 1, Ok), Two(Unwinding, false, Ok)], 2, multiset{FIRST, SECOND}, multiset{})
  }

  lemma First()
    ensures Next(Init(), SendMessage("s", "r1")) == Alone(Reserved, true, 0)
    ensures Next(Alone(Reserved, true, 0), Gate(0)) == Alone(Dispatched, true, 0)
  {
  }

  lemma FirstEnters()
    ensures Next(Alone(Dispatched, true, 0), Enter(0, Ok)) == Alone(Entered, false, 1)
  {
    assert map["s" := 1] - {"s"} == map[];
  }

  lemma FirstStreams()
    ensures Next(Alone(Entered, false, 1), Install(0)) == Alone(Streaming, false, 1)
  {
  }

  lemma SecondJoins()
    ensures Next(Alone(Streaming, false, 1), SendMessage("s", "r2")) == Joined(Reserved)
  {
  }

  lemma SecondPasses()
    ensures Next(Joined(Reserved), Gate(1)) == Joined(Dispatched)
  {
  }

  lemma SecondQueues()
    ensures Next(Joined(Dispatched), Enter(1, Ok)) == Busy()
  {
    assert map["s" := 1] - {"s"} == map[];
    assert [] + [WAITING] == [WAITING];
  }

  function ToBusy(): seq<Step> {
    [SendMessage("s", "r1"), Gate(0), Enter(0, Ok), Install(0), SendMessage("s", "r2"), Gate(1), Enter(1, Ok)]
  }

  function BusyRun(): seq<Sys> {
    [Init(), Alone(Reserved, true, 0), Alone(Dispatched, true, 0), Alone(Entered, false, 1), Alone(Streaming, false, 1),
     Joined(Reserved), Joined(Dispatched), Busy()]
  }

  lemma ReachesBusy()
    ensures Run(BusyRun(), ToBusy())
  {
    hide Next, Alone, Joined, Busy, Init;
    First();
    FirstEnters();
    FirstStreams();
    SecondJoins();
    SecondPasses();
    SecondQueues();
  }

  function Prior(last: Sys, more: seq<Sys>, n: nat): Sys
    requires n <= |more|
  {
    if n == 0 then last else more[n - 1]
  }

  lemma RunAppend(states: seq<Sys>, steps: seq<Step>, more: seq<Sys>, next: seq<Step>)
    requires Run(states, steps) && |more| == |next|
    requires forall n :: 0 <= n < |next| ==> more[n] == Next(Prior(states[|states| - 1], more, n), next[n])
    ensures Run(states + more, steps + next)
  {
    hide Next;
    forall n | 0 <= n < |steps + next|
      ensures Follows(states + more, steps + next, n)
    {
      if n < |steps| {
        assert Follows(states, steps, n);
      } else {
        assert more[n - |steps|] == Next(Prior(states[|states| - 1], more, n - |steps|), next[n - |steps|]);
      }
    }
  }

  // --------------------------------------------------- handed off, then failing early

  /** The first goroutine once it has taken the second prompt over; its own event is buffered. */
  function Taken(phase: Phase, open: bool, frames: nat, result: Outcome): Thread {
    Thread(Backend, "r1", WAITING.(accepted := Some(3)), false, phase, open, false,
           Some(RunComplete("s", "r1", false)), frames, result)
  }

  function HandedOff(phase: Phase, open: bool, frames: nat, lost: multiset<Key>): Sys {
    Plain(AgentState(map["s" := []], if open then {} else {"s"}, if open then map["s" := 1] else map[], map[], 3),
          [Taken(phase, open, frames, if phase == Unwinding then Failed else Ok), Two(Unwinding, false, Ok)], 2,
          multiset{FIRST, SECOND}, lost)
  }

  function Released(): Sys {
    Plain(AgentState(map["s" := [WAITING]], {}, map[], map[], 2),
          [One(Finishing, false, 1, Ok), Two(Unwinding, false, Ok)], 2, multiset{FIRST, SECOND}, multiset{})
  }

  lemma Releases()
    ensures Next(Busy(), Release(0)) == Released()
  {
  }

  lemma HandsOff()
    ensures Next(Released(), Handoff(0, false)) == HandedOff(Dispatched, true, 1, multiset{})
  {
    assert [WAITING][1..] == [];
    assert [WAITING][..0] == [];
  }

  lemma SecondEnters()
    ensures Next(HandedOff(Dispatched, true, 1, multiset{}), Enter(0, Ok)) == HandedOff(Entered, false, 2, multiset{})
  {
    assert map["s" := 1] - {"s"} == map[];
  }

  lemma SecondFails()
    ensures Next(HandedOff(Entered, false, 2, multiset{}), EarlyFail(0, Failed))
            == HandedOff(Unwinding, false, 2, multiset{SECOND})
  {
  }

  /** A prompt whose turn starts by handoff and fails before its deferred publish is installed
      has no terminal event: the fallback of runAgent is for the first prompt only. */
  lemma HandedOffPromptCanBeLost() returns (states: seq<Sys>, steps: seq<Step>)
    ensures Run(states, steps)
    ensures var s := states[|states| - 1]; s.lost[SECOND] == 1 && Published(s.log, SECOND) == 0
  {
    ReachesBusy();
    Releases();
    HandsOff();
    SecondEnters();
    SecondFails();
    var more := [Released(), HandedOff(Dispatched, true, 1, multiset{}), HandedOff(Entered, false, 2, multiset{}),
                 HandedOff(Unwinding, false, 2, multiset{SECOND})];
    var next := [Release(0), Handoff(0, false), Enter(0, Ok), EarlyFail(0, Failed)];
    Appended(more, next);
    states, steps := BusyRun() + more, ToBusy() + next;
  }

  lemma Appended(more: seq<Sys>, next: seq<Step>)
    requires |more| == |next| && forall n :: 0 <= n < |next| ==> more[n] == Next(Prior(Busy(), more, n), next[n])
    ensures Run(BusyRun() + more, ToBusy() + next)
  {
    hide Next, Run;
    ReachesBusy();
    RunAppend(BusyRun(), ToBusy(), more, next);
  }

  // ------------------------------------------------- queued behind a turn that fails

  function Stranded(first: Phase, frames: nat, second: Phase, log: seq<RunComplete>): Sys {
    Plain(AgentState(map["s" := [WAITING]], if frames > 0 then {"s"} else {}, map[], map[], 2),
          [One(first, false, frames, Failed)
           .(buffer := if log == [] then Some(RunComplete("s", "r1", false)) else None),
           Two(second, false, Ok)],
          if first != Gone then 2 else if second != Gone then 1 else 0, multiset{FIRST, SECOND}, multiset{})
    .(log := log)
  }

  lemma Strands()
    ensures Next(Busy(), StreamError(0, Failed)) == Stranded(Unwinding, 1, Unwinding, [])
  {
  }

  lemma Unwinds()
    ensures Next(Stranded(Unwinding, 1, Unwinding, []), Unwind(0)) == Stranded(Unwinding, 0, Unwinding, [])
  {
  }

  const TOLD := [RunComplete("s", "r1", false)]

  lemma FirstReturns()
    ensures Next(Stranded(Unwinding, 0, Unwinding, []), Return(0)) == Stranded(Gone, 0, Unwinding, TOLD)
  {
    var s := Stranded(Unwinding, 0, Unwinding, []);
    var t := s.threads[0];
    assert t.buffer == Some(TOLD[0]) && !t.open && t.origin == Backend;
    assert s.log + TOLD == TOLD;
    hide FallsBack;
    var s' := DoReturn(s, 0);
    assert s'.log == TOLD && s'.agent == s.agent && s'.runWG == 1;
    assert s'.threads == [t.(phase := Gone, buffer := None), s.threads[1]];
  }

  lemma SecondReturns()
    ensures Next(Stranded(Gone, 0, Unwinding, TOLD), Return(1)) == Stranded(Gone, 0, Gone, TOLD)
  {
    assert TOLD + [] == TOLD;
  }

  /** A turn that ends in an error does not look at the queue: a prompt waiting behind it stays
      there when every goroutine has ended. */
  lemma QueuedPromptCanBeStranded() returns (states: seq<Sys>, steps: seq<Step>)
    ensures Run(states, steps)
    ensures var s := states[|states| - 1]; AllGone(s) && QueuedFor(s, SECOND) == 1 && Published(s.log, SECOND) == 0
  {
    Strands();
    Unwinds();
    FirstReturns();
    SecondReturns();
    var more := [Stranded(Unwinding, 1, Unwinding, []), Stranded(Unwinding, 0, Unwinding, []),
                 Stranded(Gone, 0, Unwinding, TOLD), Stranded(Gone, 0, Gone, TOLD)];
    var next := [StreamError(0, Failed), Unwind(0), Return(0), Return(1)];
    Appended(more, next);
    states, steps := BusyRun() + more, ToBusy() + next;
    assert [WAITING][..0] == [] && TOLD[..0] == [];
  }
}
