/**
 A run in which a reservation is given back inside a Cancel: the mark that stays behind, and an
 in-process prompt, queued long after the Cancel, that it takes.
 */
module MarkExamples {
  import opened Options
  import opened SessionState
  import opened Dispatch
  import opened DispatchSteps

  const GIVEN := Key("s", "r")
  const FIRST := Key("s", "r1")
  const SECOND := Key("s", "r2")

  const FAILED := RunComplete("s", "r", false)
  const DROPPED := RunComplete("s", "r2", true)

  /** The dispatched goroutine, whose run fails before it starts. */
  function Given(phase: Phase, hit: bool): Thread {
    Thread(Backend, "r", Call("s", "r", 0, Some(1), true), true, phase, phase != Gone, hit, None, 0,
      if phase == Unwinding || phase == Gone then Failed else Ok)
  }

  /** An in-process caller. */
  function Caller(runID: string, phase: Phase, frames: nat): Thread {
    Thread(Local, runID, Call("s", runID, 0, None, true), true, phase, false, false, None, frames, Ok)
  }

  /** Up to the Cancel's first section. */
  function Alone(phase: Phase, cancelled: bool): Sys {
    Sys(AgentState(map[], {}, map["s" := 1], map[], 1), [Given(phase, cancelled)],
      if cancelled then map["s" := 1] else map[],
      false, if phase == Reserved then 0 else 1, [], multiset{GIVEN}, multiset{}, multiset{})
  }

  /** After it: the reservation is back, the mark recorded or about to be. */
  function Marked(recorded: bool, queue: seq<Call>, active: set<string>, callers: seq<Thread>, log: seq<RunComplete>,
                  accepted: multiset<Key>): Sys {
    Sys(AgentState(if queue == [] then map[] else map["s" := queue], active, map[],
                   if recorded then map["s" := 1] else map[], 1),
      [Given(Gone, true)] + callers, if recorded then map[] else map["s" := 1], false, 0, log,
      accepted, multiset{}, multiset{})
  }

  function Overtaken(): Sys {
    Marked(false, [], {}, [], [FAILED], multiset{GIVEN})
  }

  function Stale(): Sys {
    Marked(true, [], {}, [], [FAILED], multiset{GIVEN})
  }

  function OneCaller(phase: Phase, frames: nat): Sys {
    Marked(true, [], if frames > 0 then {"s"} else {}, [Caller("r1", phase, frames)], [FAILED], multiset{GIVEN, FIRST})
  }

  const WAITING := Call("s", "r2", 0, None, false)

  function TwoCallers(phase: Phase, queue: seq<Call>, log: seq<RunComplete>): Sys {
    Marked(true, queue, {"s"}, [Caller("r1", Streaming, 1), Caller("r2", phase, 0)], log,
           multiset{GIVEN, FIRST, SECOND})
  }

  // ------------------------------------------------------------------------- the steps

  lemma Accepts()
    ensures Next(Init(), SendMessage("s", "r")) == Alone(Reserved, false)
    ensures Next(Alone(Reserved, false), Gate(0)) == Alone(Dispatched, false)
  {
  }

  lemma Fails()
    ensures Next(Alone(Dispatched, false), PreRunFail(0, Failed)) == Alone(Unwinding, false)
  {
  }

  lemma CancelReads()
    ensures Next(Alone(Unwinding, false), CancelSnapshot("s")) == Alone(Unwinding, true)
  {
  }

  lemma GivesBack()
    ensures OvertakesCancel(Alone(Unwinding, true), Return(0))
    ensures Next(Alone(Unwinding, true), Return(0)) == Overtaken()
  {
    assert map["s" := 1] - {"s"} == map[];
    assert [] + [FAILED] == [FAILED];
  }

  lemma CancelRecords()
    ensures Next(Overtaken(), CancelRecord("s")) == Stale()
  {
    assert map["s" := 1] - {"s"} == map[];
    assert [FAILED] + [] == [FAILED];
  }

  lemma CallerComes()
    ensures Next(Stale(), LocalCall("s", "r1")) == OneCaller(Dispatched, 0)
    ensures Next(OneCaller(Dispatched, 0), EnterLocal(1)) == OneCaller(Entered, 0)
  {
  }

  lemma CallerRuns()
    ensures Next(OneCaller(Entered, 0), Install(1)) == OneCaller(Streaming, 1)
  {
  }

  lemma AnotherComes()
    ensures Next(OneCaller(Streaming, 1), LocalCall("s", "r2")) == TwoCallers(Dispatched, [], [FAILED])
  {
  }

  lemma AnotherQueues()
    ensures Next(TwoCallers(Dispatched, [], [FAILED]), EnterLocal(2)) == TwoCallers(Unwinding, [WAITING], [FAILED])
  {
    assert [] + [WAITING] == [WAITING];
  }

  lemma WaitingIsDropped()
    ensures Select([WAITING], 1, Keep) == [] && CancelledEvents(Select([WAITING], 1, Drop)) == [DROPPED]
  {
    var q := [WAITING];
    assert q[..0] == [];
    assert Select(q, 1, Drop) == [WAITING] && CancelledEvents(q) == [DROPPED];
  }

  lemma StepDrops()
    ensures Next(TwoCallers(Unwinding, [WAITING], [FAILED]), DrainStep(1))
            == TwoCallers(Unwinding, [], [FAILED, DROPPED])
  {
    hide Select, CancelledEvents;
    WaitingIsDropped();
    assert [FAILED] + [DROPPED] == [FAILED, DROPPED];
    assert map["s" := [WAITING]] - {"s"} == map[];
  }

  // --------------------------------------------------------------------------- the run

  function Steps(): seq<Step> {
    [SendMessage("s", "r"), Gate(0), PreRunFail(0, Failed), CancelSnapshot("s"), Return(0), CancelRecord("s"),
     LocalCall("s", "r1"), EnterLocal(1), Install(1), LocalCall("s", "r2"), EnterLocal(2), DrainStep(1)]
  }

  function States(): seq<Sys> {
    [Init(), Alone(Reserved, false), Alone(Dispatched, false), Alone(Unwinding, false), Alone(Unwinding, true),
     Overtaken(), Stale(), OneCaller(Dispatched, 0), OneCaller(Entered, 0), OneCaller(Streaming, 1),
     TwoCallers(Dispatched, [], [FAILED]), TwoCallers(Unwinding, [WAITING], [FAILED]),
     TwoCallers(Unwinding, [], [FAILED, DROPPED])]
  }

  lemma IsRun()
    ensures Run(States(), Steps())
  {
    hide Next, Alone, Marked, Overtaken, Stale, OneCaller, TwoCallers, Init;
    Accepts();
    Fails();
    CancelReads();
    GivesBack();
    CancelRecords();
    CallerComes();
    CallerRuns();
    AnotherComes();
    AnotherQueues();
    StepDrops();
  }

  /** The reservation can be given back inside the Cancel, and the mark then stays: one step
      later no reservation of the session is left and its mark is. */
  lemma MarkCanStay() returns (states: seq<Sys>, steps: seq<Step>)
    ensures Run(states, steps) && |steps| > 5 && OvertakesCancel(states[4], steps[4])
    ensures "s" in states[6].agent.cancelMark && "s" !in states[6].agent.acceptedRuns
  {
    IsRun();
    GivesBack();
    states, steps := States(), Steps();
  }

  /** In the same run an in-process prompt, queued with no Cancel since, is dropped as cancelled
      by the mark that stayed. */
  lemma StaleMarkTakesALaterPrompt() returns (states: seq<Sys>, steps: seq<Step>)
    ensures Run(states, steps) && |steps| == 12
    ensures forall i :: 6 <= i < 12 ==> !steps[i].CancelSnapshot? && !steps[i].CancelRecord?
    ensures states[6].accepted[SECOND] == 0 && QueuedFor(states[11], SECOND) == 1
    ensures QueuedFor(states[12], SECOND) == 0 && states[12].log == states[11].log + [DROPPED]
  {
    IsRun();
    states, steps := States(), Steps();
    assert states[11] == TwoCallers(Unwinding, [WAITING], [FAILED]) && states[11].agent.Queue("s") == [WAITING];
    assert [WAITING][..0] == [] && CountRun([WAITING], "r2") == 1;
  }
}
