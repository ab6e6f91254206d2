/**
 What the accept / cancel / queue / handoff protocol guarantees in every run.
 */
module DispatchTheorems {
  import opened Options
  import opened SessionState
  import opened Dispatch
  import opened DispatchInvariant
  import opened DispatchSteps

  // ---------------------------------------------------------- one place for a RunID

  /** Every accepted RunID is, at every moment of every run, in exactly one place and there
      once: with a goroutine, in its session's queue, in the published log, refused, or lost. */
  lemma {:induction false} RunIDConserved(states: seq<Sys>, steps: seq<Step>, n: nat, k: Key)
    requires Run(states, steps) && n < |states| && k.runID != ""
    ensures var s := states[n];
            && s.accepted[k] <= 1
            && Held(s, k) + QueuedFor(s, k) + Published(s.log, k) + s.rejected[k] + s.lost[k] == s.accepted[k]
  {
    RunInv(states, steps, n);
  }

  lemma {:induction false} TotalOneWitness(ts: seq<Thread>, w: Thread -> nat) returns (i: nat)
    requires Total(ts, w) == 1
    ensures i < |ts| && w(ts[i]) == 1
    ensures forall j :: 0 <= j < |ts| && j != i ==> w(ts[j]) == 0
  {
    var n := |ts| - 1;
    if w(ts[n]) == 1 {
      i := n;
      forall j | 0 <= j < n
        ensures w(ts[j]) == 0
      {
        TotalAtLeast(ts[..n], j, w);
      }
    } else {
      i := TotalOneWitness(ts[..n], w);
    }
  }

  /** "With a goroutine" means with one goroutine, and then nowhere else. */
  lemma {:induction false} HeldByExactlyOne(states: seq<Sys>, steps: seq<Step>, n: nat, k: Key) returns (i: nat)
    requires Run(states, steps) && n < |states| && k.runID != "" && Held(states[n], k) > 0
    ensures i < |states[n].threads| && OwedBy(states[n].threads[i], k) == 1
    ensures forall j :: 0 <= j < |states[n].threads| && j != i ==> OwedBy(states[n].threads[j], k) == 0
    ensures QueuedFor(states[n], k) == 0 && Published(states[n].log, k) == 0
  {
    RunIDConserved(states, steps, n, k);
    i := TotalOneWitness(states[n].threads, Owing(k));
  }

  /** A RunID is lost exactly by an error return before the deferred publish that runAgent
      does not make up for. */
  lemma {:induction false} LostExactlyBy(states: seq<Sys>, steps: seq<Step>, n: nat, k: Key)
    requires Run(states, steps) && n < |states|
    ensures states[n].lost[k] > 0 <==> exists m :: 0 <= m < n && Loses(states[m], steps[m], k)
  {
    hide Next, Loses;
    if n > 0 {
      LostExactlyBy(states, steps, n - 1, k);
      assert Follows(states, steps, n - 1);
      StepLost(states[n - 1], steps[n - 1], k);
    }
  }

  predicate AllGone(s: Sys) {
    forall i :: 0 <= i < |s.threads| ==> s.threads[i].phase == Gone
  }

  lemma {:induction false} TotalZero(ts: seq<Thread>, w: Thread -> nat)
    requires forall i :: 0 <= i < |ts| ==> w(ts[i]) == 0
    ensures Total(ts, w) == 0
  {
    if ts != [] {
      TotalZero(ts[..|ts| - 1], w);
    }
  }

  lemma QuietState(s: Sys, k: Key)
    requires Inv(s) && AllGone(s)
    ensures Held(s, k) == 0 && s.runWG == 0 && s.agent.acceptedRuns == map[]
  {
    forall i | 0 <= i < |s.threads|
      ensures OwedBy(s.threads[i], k) == 0 && !s.threads[i].open
    {
      assert ThreadOk(s.threads[i], s.agent.acceptSeqGen);
    }
    TotalZero(s.threads, Owing(k));
    TotalZero(s.threads, Ticket());
    forall sid
      ensures sid !in s.agent.acceptedRuns
    {
      TotalZero(s.threads, OpenIn(sid));
      assert s.agent.Count(sid) == 0;
    }
  }

  /** When every goroutine has ended, no reservation is left, and a prompt that was neither
      refused nor lost and is not waiting in the queue has had its one terminal event. */
  lemma {:induction false} QuiescentAccount(states: seq<Sys>, steps: seq<Step>, n: nat, k: Key)
    requires Run(states, steps) && n < |states| && AllGone(states[n])
    requires k.runID != "" && states[n].accepted[k] > 0
    ensures states[n].agent.acceptedRuns == map[] && states[n].runWG == 0
    ensures Published(states[n].log, k) == 1
            <==> states[n].rejected[k] == 0 && QueuedFor(states[n], k) == 0
                 && !exists m :: 0 <= m < n && Loses(states[m], steps[m], k)
  {
    hide Next, Loses, Inv, AllGone, Published, QueuedFor, Held;
    RunInv(states, steps, n);
    RunIDConserved(states, steps, n, k);
    LostExactlyBy(states, steps, n, k);
    QuietState(states[n], k);
  }

  // ----------------------------------------------------------------- cancel is exact

  /** The m-th step is a Cancel of session `sid` reading the accept counter while goroutine
      i holds the reservation `seqNo` open. */
  predicate SeenByCancel(s: Sys, step: Step, i: nat, sid: string, seqNo: nat) {
    && step == CancelSnapshot(sid) && Free(s, sid)
    && i < |s.threads| && s.threads[i].open && s.threads[i].call.accepted == Some(seqNo)
    && s.threads[i].call.sessionID == sid
  }

  /** No goroutine held a reservation number before it was given out. */
  lemma {:induction false} NumbersAreNew(states: seq<Sys>, steps: seq<Step>, m: nat, n: nat, i: nat)
    requires Run(states, steps) && m <= n < |states| && i < |states[m].threads|
    requires states[m].threads[i].call.accepted.Some?
    ensures states[m].threads[i].call.accepted.value <= states[n].agent.acceptSeqGen
    decreases n
  {
    hide Next;
    if m == n {
      RunInv(states, steps, n);
      assert ThreadOk(states[n].threads[i], states[n].agent.acceptSeqGen);
    } else {
      NumbersAreNew(states, steps, m, n - 1, i);
      assert Follows(states, steps, n - 1);
      RunInv(states, steps, n - 1);
      StepLater(states[n - 1], steps[n - 1]);
    }
  }

  /** The history variable `hit` says what it is meant to say. */
  lemma {:induction false} HitMeansSeen(states: seq<Sys>, steps: seq<Step>, n: nat, i: nat)
    requires Run(states, steps) && n < |states|
    requires i < |states[n].threads| && states[n].threads[i].open && states[n].threads[i].call.accepted.Some?
    ensures var t := states[n].threads[i];
            t.hit <==> exists m :: 0 <= m < n
                         && SeenByCancel(states[m], steps[m], i, t.call.sessionID, t.call.accepted.value)
  {
    hide Next, Inv, Enabled;
    if n > 0 {
      var s, step, t := states[n - 1], steps[n - 1], states[n].threads[i];
      assert Follows(states, steps, n - 1);
      var sid, v := t.call.sessionID, t.call.accepted.value;
      RunInv(states, steps, n - 1);
      InvThreads(s);
      StepLater(s, step);
      HistoryStep(s, states[n], step, i);
      if i < |s.threads| && s.threads[i].open && s.threads[i].call.accepted == t.call.accepted {
        HitMeansSeen(states, steps, n - 1, i);
      } else {
        forall m | 0 <= m < n
          ensures !SeenByCancel(states[m], steps[m], i, sid, v)
        {
          if SeenByCancel(states[m], steps[m], i, sid, v) {
            NumbersAreNew(states, steps, m, n - 1, i);
          }
        }
      }
    }
  }

  /** Cancel is exact.  A reservation that enters Run is cancelled on entry if and only if
      some Cancel of its session read the accept counter while it was open. */
  lemma {:induction false} CancelIsExact(states: seq<Sys>, steps: seq<Step>, n: nat, i: nat, persist: Outcome)
    requires Run(states, steps) && n < |states| && Enabled(states[n], Enter(i, persist))
    ensures var c := states[n].threads[i].call;
            states[n].agent.EntryOf(c.sessionID, c.accepted.value) == CanceledOnEntry
            <==> exists m :: 0 <= m < n && SeenByCancel(states[m], steps[m], i, c.sessionID, c.accepted.value)
  {
    var s := states[n];
    RunInv(states, steps, n);
    assert ThreadOk(s.threads[i], s.agent.acceptSeqGen) && HitOk(s, s.threads[i]);
    HitMeansSeen(states, steps, n, i);
  }

  /** One Cancel covers every sibling still waiting to enter, and does not touch a prompt
      accepted after it. */
  lemma {:induction false} OneCancelCoversSiblings(states: seq<Sys>, steps: seq<Step>, n: nat, sid: string, i: nat)
    requires Run(states, steps) && n < |states| && Free(states[n], sid)
    ensures var s := Next(Next(states[n], CancelSnapshot(sid)), CancelRecord(sid));
            && (i < |s.threads| && s.threads[i].open && Sid(s, i) == sid ==>
                  s.threads[i].call.accepted.Some?
                  && s.agent.EntryOf(sid, s.threads[i].call.accepted.value) == CanceledOnEntry)
            && s.agent.EntryOf(sid, s.agent.BeginAccepted(sid).acceptSeqGen) != CanceledOnEntry
  {
    var s0 := states[n];
    RunInv(states, steps, n);
    StepInv(s0, CancelSnapshot(sid));
    StepInv(Next(s0, CancelSnapshot(sid)), CancelRecord(sid));
    CancelEffect(s0, sid);
    hide DoCancelSnapshot, DoCancelRecord, Next;
    var s := Next(Next(s0, CancelSnapshot(sid)), CancelRecord(sid));
    if i < |s.threads| && s.threads[i].open && Sid(s, i) == sid {
      assert ThreadOk(s.threads[i], s.agent.acceptSeqGen) && HitOk(s, s.threads[i]);
    }
    assert s.agent.Mark(sid) <= s.agent.acceptSeqGen;
  }

  // --------------------------------------------------------------- the mark invariant

  /** The mark never runs ahead of the generator, every tracked queued call was accepted
      after all recorded cancels, so neither filter ever drops an accepted prompt. */
  lemma {:induction false} FiltersSpareAcceptedPrompts(states: seq<Sys>, steps: seq<Step>, n: nat, sid: string)
    requires Run(states, steps) && n < |states|
    ensures var s := states[n]; var q := s.agent.Queue(sid); var m := s.agent.Mark(sid);
            && m <= s.agent.acceptSeqGen
            && (forall j :: 0 <= j < |q| && q[j].acceptSeq > 0 ==> q[j].acceptSeq > m)
            && (forall c :: c in Select(q, m, Drop) ==> c.acceptSeq == 0)
            && (forall c :: c in q && c !in s.agent.HandoffQueue(sid) ==> c.acceptSeq == 0)
  {
    RunInv(states, steps, n);
    var s := states[n];
    var q, m := s.agent.Queue(sid), s.agent.Mark(sid);
    forall j | 0 <= j < |q|
      ensures q[j].acceptSeq > 0 ==> q[j].acceptSeq > m
    {
      assert QueuedOk(q[j], sid, m, s.agent.acceptSeqGen);
    }
    SelectMembers(q, m, Drop);
    UncoveredMembers(q, m);
  }

  // ------------------------------------------------------- counting the reservations

  /** acceptedRuns counts the unclosed reservations of the session, whatever was closed
      twice, refused, or taken afresh at a handoff. */
  lemma {:induction false} CountsReservations(states: seq<Sys>, steps: seq<Step>, n: nat, sid: string)
    requires Run(states, steps) && n < |states|
    ensures states[n].agent.Count(sid) == Total(states[n].threads, OpenIn(sid))
    ensures sid in states[n].agent.acceptedRuns
            <==> exists i :: 0 <= i < |states[n].threads| && states[n].threads[i].open && Sid(states[n], i) == sid
  {
    RunInv(states, steps, n);
    var s := states[n];
    if forall i :: 0 <= i < |s.threads| ==> !(s.threads[i].open && Sid(s, i) == sid) {
      TotalZero(s.threads, OpenIn(sid));
    } else {
      var i :| 0 <= i < |s.threads| && s.threads[i].open && Sid(s, i) == sid;
      OpenCounts(s, i);
    }
  }

  /** Unless a reservation is given back inside another goroutine's Cancel, closing the last
      reservation of a session leaves no mark behind. */
  lemma {:induction false} MarkGoneWithLastReservation(states: seq<Sys>, steps: seq<Step>, n: nat)
    requires Run(states, steps) && n < |states|
    requires forall m :: 0 <= m < n ==> !OvertakesCancel(states[m], steps[m])
    ensures NoStaleMark(states[n])
  {
    hide Next, OvertakesCancel;
    if n > 0 {
      MarkGoneWithLastReservation(states, steps, n - 1);
      assert Follows(states, steps, n - 1);
      RunInv(states, steps, n - 1);
      StepNoStaleMark(states[n - 1], steps[n - 1]);
    }
  }

  predicate NoneOpen(s: Sys, sid: string) {
    forall i :: 0 <= i < |s.threads| ==> !(s.threads[i].open && Sid(s, i) == sid)
  }

  /** Between its two sections a Cancel keeps the dispatch lock and the mark it read. */
  lemma {:induction false} PendingStays(states: seq<Sys>, steps: seq<Step>, m: nat, n: nat, sid: string)
    requires Run(states, steps) && m <= n < |states| && sid in states[m].cancelling
    requires forall i :: m <= i < n ==> steps[i] != CancelRecord(sid)
    ensures sid in states[n].cancelling && states[n].cancelling[sid] == states[m].cancelling[sid]
    decreases n
  {
    hide Next;
    if m < n {
      PendingStays(states, steps, m, n - 1, sid);
      assert Follows(states, steps, n - 1);
      StepPending(states[n - 1], steps[n - 1], sid);
    }
  }

  /** And giving one back there does leave one behind, whenever the second section comes: the
      overtaken Cancel records its mark, with no reservation for it to cover unless a new one
      has been taken meanwhile. */
  lemma {:induction false} OvertakingLeavesMark(states: seq<Sys>, steps: seq<Step>, m: nat, n: nat)
    requires Run(states, steps) && m < n < |steps| && OvertakesCancel(states[m], steps[m])
    requires steps[n] == CancelRecord(Sid(states[m], steps[m].i))
    requires forall i :: m <= i < n ==> steps[i] != steps[n]
    ensures var sid := steps[n].sid; var s := states[n + 1].agent;
            && sid !in states[m + 1].agent.acceptedRuns
            && sid in s.cancelMark && s.cancelMark[sid] > 0
            && (sid !in s.acceptedRuns <==> NoneOpen(states[n], sid))
  {
    hide Next, OvertakesCancel, Inv, Total;
    var sid := steps[n].sid;
    RunInv(states, steps, m);
    assert Follows(states, steps, m) && Follows(states, steps, n);
    Overtaken(states[m], steps[m]);
    PendingStays(states, steps, m, n, sid);
    RecordsMark(states[n], sid);
    CountsReservations(states, steps, n, sid);
  }

  /** An untracked call, one queued by an in-process caller, is dropped from a queue by any mark
      at all, however old: a drain or a handoff drops it exactly if the session has one. */
  lemma UntrackedFallToAnyMark(a: AgentState, sid: string, c: Call)
    requires c in a.Queue(sid) && c.acceptSeq == 0
    ensures c in Select(a.Queue(sid), a.Mark(sid), Drop) <==> a.Mark(sid) > 0
    ensures c !in a.HandoffQueue(sid) <==> a.Mark(sid) > 0
  {
    SelectMembers(a.Queue(sid), a.Mark(sid), Drop);
    UncoveredMembers(a.Queue(sid), a.Mark(sid));
  }

  // --------------------------------------------------------------- the shutdown gate

  /** Once a closing workspace has no ticket out, none is ever taken again. */
  lemma {:induction false} GateStaysShut(states: seq<Sys>, steps: seq<Step>, m: nat, n: nat)
    requires Run(states, steps) && m <= n < |states|
    requires states[m].closing && states[m].runWG == 0
    ensures states[n].closing && states[n].runWG == 0 && NoTickets(states[n])
    decreases n
  {
    hide Next, Inv;
    if m < n {
      GateStaysShut(states, steps, m, n - 1);
      assert Follows(states, steps, n - 1);
      RunInv(states, steps, n - 1);
      InvThreads(states[n - 1]);
      StepLater(states[n - 1], steps[n - 1]);
    }
    NoTicketOut(states, steps, n);
  }

  lemma {:induction false} NoTicketOut(states: seq<Sys>, steps: seq<Step>, n: nat)
    requires Run(states, steps) && n < |states|
    ensures states[n].runWG == 0 <==> NoTickets(states[n])
  {
    RunInv(states, steps, n);
    var s := states[n];
    if s.runWG == 0 {
      forall i | 0 <= i < |s.threads|
        ensures !HasTicket(s.threads[i])
      {
        TotalAtLeast(s.threads, i, Ticket());
      }
    } else if NoTickets(s) {
      TotalZero(s.threads, Ticket());
    }
  }
}
