/**
 What every reachable state of `Dispatch` satisfies.  One lemma about sums, one about
 a step that moves a single goroutine, then one small lemma a step.
 */
module DispatchInvariant {
  import opened Options
  import opened SessionState
  import opened Dispatch

  // ---------------------------------------------------------------------- sums

  lemma {:induction false} TotalUpdate(ts: seq<Thread>, i: nat, t: Thread, w: Thread -> nat)
    requires i < |ts|
    ensures Total(ts[i := t], w) + w(ts[i]) == Total(ts, w) + w(t)
  {
    var n := |ts| - 1;
    if i < n {
      TotalUpdate(ts[..n], i, t, w);
      assert ts[i := t][..n] == ts[..n][i := t];
    } else {
      assert ts[i := t][..n] == ts[..n];
    }
  }

  lemma TotalAppend(ts: seq<Thread>, t: Thread, w: Thread -> nat)
    ensures Total(ts + [t], w) == Total(ts, w) + w(t)
  {
    assert (ts + [t])[..|ts|] == ts;
  }

  lemma {:induction false} TotalSame(ts: seq<Thread>, us: seq<Thread>, w: Thread -> nat)
    requires |ts| == |us|
    requires forall i :: 0 <= i < |ts| ==> w(ts[i]) == w(us[i])
    ensures Total(ts, w) == Total(us, w)
  {
    if ts != [] {
      TotalSame(ts[..|ts| - 1], us[..|us| - 1], w);
    }
  }

  lemma {:induction false} TotalAtLeast(ts: seq<Thread>, i: nat, w: Thread -> nat)
    requires i < |ts|
    ensures Total(ts, w) >= w(ts[i])
  {
    if i < |ts| - 1 {
      TotalAtLeast(ts[..|ts| - 1], i, w);
    }
  }

  lemma {:induction false} TotalPair(ts: seq<Thread>, i: nat, j: nat, w: Thread -> nat)
    requires i < j < |ts|
    ensures Total(ts, w) >= w(ts[i]) + w(ts[j])
  {
    if j < |ts| - 1 {
      TotalPair(ts[..|ts| - 1], i, j, w);
    } else {
      TotalAtLeast(ts[..|ts| - 1], i, w);
    }
  }

  lemma {:induction false} PublishedConcat(a: seq<RunComplete>, b: seq<RunComplete>, k: Key)
    ensures Published(a + b, k) == Published(a, k) + Published(b, k)
  {
    if b == [] {
      assert a + b == a;
    } else {
      var n := |b| - 1;
      assert (a + b)[..|a + b| - 1] == a + b[..n];
      PublishedConcat(a, b[..n], k);
    }
  }

  lemma PublishedOne(e: RunComplete, k: Key)
    ensures Published([e], k) == Bit(e.sessionID == k.sessionID && e.runID == k.runID)
  {
    assert [e][..0] == [];
  }

  /** The cancelled events for a list of dropped calls are one per waiting RunID. */
  lemma {:induction false} DropsPublished(q: seq<Call>, k: Key)
    requires forall i :: 0 <= i < |q| ==> q[i].sessionID == k.sessionID && !q[i].hook
    requires k.runID != ""
    ensures Published(CancelledEvents(q), k) == CountRun(q, k.runID)
  {
    if q != [] {
      var init, last := q[..|q| - 1], q[|q| - 1];
      DropsPublished(init, k);
      PublishedConcat(CancelledEvents(init), [RunComplete(last.sessionID, last.runID, true)], k);
      PublishedOne(RunComplete(last.sessionID, last.runID, true), k);
    }
  }

  // ------------------------------------------------------------------ invariants

  ghost predicate ThreadOk(t: Thread, gen: nat) {
    && (t.top ==> t.call.hook && t.call.runID == t.msgRunID)
    && (t.top && InFlight(t) ==> t.buffer.None?)
    && (!t.top ==> !t.call.hook && (t.msgRunID != "" && t.phase != Gone ==> t.buffer.Some?))
    && (t.call.accepted.Some? ==> 1 <= t.call.accepted.value <= gen)
    && (t.open ==> t.call.accepted.Some? && t.phase in {Reserved, Dispatched, Unwinding})
    && (t.phase == Reserved ==> t.origin == Backend && t.open && t.top)
    && (t.phase == Dispatched ==> (t.open <==> t.call.accepted.Some?))
    && (t.call.accepted.None? ==> t.top && t.call.acceptSeq == 0)
    && (t.phase == Gone ==> t.buffer.None?)
    && t.call.acceptSeq <= gen
  }

  ghost predicate ThreadsOk(s: Sys) {
    forall i :: 0 <= i < |s.threads| ==> ThreadOk(s.threads[i], s.agent.acceptSeqGen)
  }

  /** Queued calls are stripped, belong to their session, and a tracked one was accepted
      after every cancel the mark records. */
  ghost predicate QueuedOk(c: Call, sid: string, mark: nat, gen: nat) {
    && c.sessionID == sid && c.accepted.None? && !c.hook
    && c.acceptSeq <= gen
    && (c.acceptSeq > 0 ==> c.acceptSeq > mark)
  }

  ghost predicate QueuesOk(a: AgentState) {
    forall sid, j :: 0 <= j < |a.Queue(sid)| ==>
      QueuedOk(a.Queue(sid)[j], sid, a.Mark(sid), a.acceptSeqGen)
  }

  ghost predicate MarksOk(s: Sys) {
    && (forall sid :: s.agent.Mark(sid) <= s.agent.acceptSeqGen)
    && (forall sid :: sid in s.cancelling ==> s.cancelling[sid] <= s.agent.acceptSeqGen)
  }

  function Pending(s: Sys, sid: string): nat {
    if sid in s.cancelling then s.cancelling[sid] else 0
  }

  /** An open reservation is at or below a recorded or about-to-be-recorded mark exactly
      when a Cancel of its session has seen it open. */
  ghost predicate HitOk(s: Sys, t: Thread) {
    t.open && t.call.accepted.Some? ==>
      var sid, n := t.call.sessionID, t.call.accepted.value;
      t.hit <==> n <= s.agent.Mark(sid) || n <= Pending(s, sid)
  }

  ghost predicate HitsOk(s: Sys) {
    forall i :: 0 <= i < |s.threads| ==> HitOk(s, s.threads[i])
  }

  ghost predicate CountsOk(s: Sys) {
    && (forall sid :: s.agent.Count(sid) == Total(s.threads, OpenIn(sid)))
    && (forall sid :: sid in s.agent.acceptedRuns ==> s.agent.acceptedRuns[sid] > 0)
    && s.runWG == Total(s.threads, Ticket())
  }

  ghost predicate Conserved(s: Sys) {
    forall k: Key :: k.runID != "" ==>
      s.accepted[k] <= 1 && s.accepted[k] == Held(s, k) + Elsewhere(s, k)
  }

  ghost predicate Inv(s: Sys) {
    && ThreadsOk(s)
    && QueuesOk(s.agent)
    && MarksOk(s)
    && HitsOk(s)
    && CountsOk(s)
    && Conserved(s)
  }

  // --------------------------------------------------------- a step of one goroutine

  ghost predicate CountsMove(s: Sys, s': Sys, t: Thread, t': Thread) {
    && (forall sid :: s'.agent.Count(sid) + OpenIn(sid)(t) == s.agent.Count(sid) + OpenIn(sid)(t'))
    && (forall sid :: sid in s'.agent.acceptedRuns ==> s'.agent.acceptedRuns[sid] > 0)
    && s'.runWG + Ticket()(t) == s.runWG + Ticket()(t')
  }

  ghost predicate KeysMove(s: Sys, s': Sys, t: Thread, t': Thread) {
    forall k: Key :: k.runID != "" ==>
      s'.accepted[k] == s.accepted[k] && OwedBy(t', k) + Elsewhere(s', k) == OwedBy(t, k) + Elsewhere(s, k)
  }

  /** The other goroutines' reservations keep their side of every mark. */
  ghost predicate HitsMove(s: Sys, s': Sys, i: nat) {
    forall j :: 0 <= j < |s.threads| && j != i && s.threads[j].open ==> HitOk(s', s.threads[j])
  }

  lemma MoveOne(s: Sys, s': Sys, i: nat, t': Thread)
    requires Inv(s) && i < |s.threads| && s'.threads == s.threads[i := t']
    requires s'.agent.acceptSeqGen >= s.agent.acceptSeqGen
    requires ThreadOk(t', s'.agent.acceptSeqGen) && HitOk(s', t')
    requires QueuesOk(s'.agent) && MarksOk(s')
    requires CountsMove(s, s', s.threads[i], t')
    requires KeysMove(s, s', s.threads[i], t')
    requires HitsMove(s, s', i)
    ensures Inv(s')
  {
    var t := s.threads[i];
    forall sid
      ensures s'.agent.Count(sid) == Total(s'.threads, OpenIn(sid))
    {
      TotalUpdate(s.threads, i, t', OpenIn(sid));
    }
    TotalUpdate(s.threads, i, t', Ticket());
    forall k: Key | k.runID != ""
      ensures s'.accepted[k] <= 1 && s'.accepted[k] == Held(s', k) + Elsewhere(s', k)
    {
      TotalUpdate(s.threads, i, t', Owing(k));
    }
  }

  /** Reservations other than the i-th are closed when the count of the session is at most one. */
  lemma OnlyOpen(s: Sys, i: nat, j: nat)
    requires CountsOk(s) && i < |s.threads| && j < |s.threads| && i != j
    requires s.threads[i].open && s.threads[j].open
    requires Sid(s, i) == Sid(s, j)
    ensures s.agent.Count(Sid(s, i)) >= 2
  {
    TotalPair(s.threads, if i < j then i else j, if i < j then j else i, OpenIn(Sid(s, i)));
  }

  lemma OpenCounts(s: Sys, i: nat)
    requires CountsOk(s) && i < |s.threads| && s.threads[i].open
    ensures s.agent.Count(Sid(s, i)) >= 1
  {
    TotalAtLeast(s.threads, i, OpenIn(Sid(s, i)));
  }

  /** Closing one open reservation leaves the others on their side of every mark. */
  lemma EndAcceptedKeepsHits(s: Sys, s': Sys, i: nat)
    requires Inv(s) && i < |s.threads| && s.threads[i].open
    requires s'.agent.cancelMark == s.agent.EndAccepted(Sid(s, i)).cancelMark
    requires s'.cancelling == s.cancelling
    ensures HitsMove(s, s', i)
  {
    forall j | 0 <= j < |s.threads| && j != i && s.threads[j].open
      ensures HitOk(s', s.threads[j])
    {
      assert HitOk(s, s.threads[j]);
      if Sid(s, i) == Sid(s, j) {
        OnlyOpen(s, i, j);
      }
    }
  }

  // ------------------------------------------------------------------ single steps

  lemma SendMessageInv(s: Sys, sid: string, runID: string)
    requires Inv(s) && Unused(s, Key(sid, runID))
    ensures Inv(DoSendMessage(s, sid, runID))
  {
    var s' := DoSendMessage(s, sid, runID);
    var t := s'.threads[|s.threads|];
    JoinInv(s, s', t);
  }

  /** A goroutine joins: it owes its own RunID, and holds its own reservation if any. */
  ghost predicate Joins(s: Sys, s': Sys, t: Thread) {
    && InFlight(t) && t.buffer.None? && !HasTicket(t) && Unused(s, KeyOf(t.call))
    && s' == s.(agent := s'.agent, threads := s.threads + [t], accepted := s.accepted + multiset{KeyOf(t.call)})
    && (if t.open
        then s'.agent == s.agent.BeginAccepted(t.call.sessionID)
             && t.call.accepted == Some(s'.agent.acceptSeqGen) && !t.hit
        else s'.agent == s.agent)
    && ThreadOk(t, s'.agent.acceptSeqGen)
  }

  lemma JoinCounts(s: Sys, s': Sys, t: Thread)
    requires CountsOk(s) && Joins(s, s', t)
    ensures CountsOk(s')
  {
    forall x
      ensures s'.agent.Count(x) == Total(s'.threads, OpenIn(x))
    {
      TotalAppend(s.threads, t, OpenIn(x));
    }
    TotalAppend(s.threads, t, Ticket());
  }

  lemma JoinKeys(s: Sys, s': Sys, t: Thread)
    requires Conserved(s) && Joins(s, s', t)
    ensures Conserved(s')
  {
    forall k: Key | k.runID != ""
      ensures s'.accepted[k] <= 1 && s'.accepted[k] == Held(s', k) + Elsewhere(s', k)
    {
      TotalAppend(s.threads, t, Owing(k));
    }
  }

  lemma JoinHits(s: Sys, s': Sys, t: Thread)
    requires HitsOk(s) && MarksOk(s) && Joins(s, s', t)
    ensures HitsOk(s')
  {
    var sid := t.call.sessionID;
    assert s'.agent.Mark(sid) == s.agent.Mark(sid) <= s.agent.acceptSeqGen;
    assert Pending(s', sid) == Pending(s, sid) <= s.agent.acceptSeqGen;
    forall j | 0 <= j < |s.threads|
      ensures HitOk(s', s'.threads[j])
    {
      assert HitOk(s, s.threads[j]);
    }
  }

  lemma JoinInv(s: Sys, s': Sys, t: Thread)
    requires Inv(s) && Joins(s, s', t)
    ensures Inv(s')
  {
    JoinCounts(s, s', t);
    JoinKeys(s, s', t);
    JoinHits(s, s', t);
    assert forall x :: s'.agent.Queue(x) == s.agent.Queue(x) && s'.agent.Mark(x) == s.agent.Mark(x);
  }

  lemma LocalCallInv(s: Sys, sid: string, runID: string)
    requires Inv(s) && Unused(s, Key(sid, runID))
    ensures Inv(DoLocalCall(s, sid, runID))
  {
    var s' := DoLocalCall(s, sid, runID);
    JoinInv(s, s', s'.threads[|s.threads|]);
  }

  /** Steps that leave the agent, the dispatch locks and the reservations alone. */
  lemma QuietMove(s: Sys, s': Sys, i: nat, t': Thread)
    requires Inv(s) && i < |s.threads| && s'.threads == s.threads[i := t']
    requires s'.agent.(activeRequests := s.agent.activeRequests) == s.agent && s'.cancelling == s.cancelling
    requires ThreadOk(t', s.agent.acceptSeqGen)
    requires var t := s.threads[i]; t'.open == t.open && t'.hit == t.hit && t'.call == t.call
    requires s'.runWG + Ticket()(s.threads[i]) == s.runWG + Ticket()(t')
    requires KeysMove(s, s', s.threads[i], t')
    ensures Inv(s')
  {
    var t := s.threads[i];
    assert HitOk(s, t);
    forall j | 0 <= j < |s.threads| && j != i && s.threads[j].open
      ensures HitOk(s', s.threads[j])
    {
      assert HitOk(s, s.threads[j]);
    }
    assert forall x :: s'.agent.Queue(x) == s.agent.Queue(x) && s'.agent.Mark(x) == s.agent.Mark(x);
    assert forall x :: s'.agent.Count(x) == s.agent.Count(x);
    MoveOne(s, s', i, t');
  }

  /** Releasing a reservation only lowers a mark and a count. */
  lemma EndAcceptedOk(s: Sys, i: nat, a: AgentState)
    requires Inv(s) && i < |s.threads| && s.threads[i].open
    requires a.acceptSeqGen == s.agent.acceptSeqGen && a.cancelMark == s.agent.cancelMark
    requires a.acceptedRuns == s.agent.acceptedRuns
    requires QueuesOk(a)
    ensures var b := a.EndAccepted(Sid(s, i)); QueuesOk(b) && b.acceptSeqGen == a.acceptSeqGen
    ensures var b := a.EndAccepted(Sid(s, i));
            forall x :: b.Mark(x) <= a.Mark(x) && b.Queue(x) == a.Queue(x)
                        && b.Count(x) + Bit(x == Sid(s, i)) == a.Count(x)
    ensures var b := a.EndAccepted(Sid(s, i)); forall x :: x in b.acceptedRuns ==> b.acceptedRuns[x] > 0
  {
    OpenCounts(s, i);
    var b := a.EndAccepted(Sid(s, i));
    assert forall x :: b.Mark(x) <= a.Mark(x) && b.Queue(x) == a.Queue(x);
  }

  /** A step that releases the reservation of goroutine i and does nothing else to the agent
      but perhaps change the queues and the active requests. */
  lemma ReleaseMove(s: Sys, s': Sys, i: nat, t': Thread, a: AgentState)
    requires Inv(s) && i < |s.threads| && s.threads[i].open && s'.threads == s.threads[i := t']
    requires a.acceptSeqGen == s.agent.acceptSeqGen && a.cancelMark == s.agent.cancelMark
    requires a.acceptedRuns == s.agent.acceptedRuns
    requires QueuesOk(a) && s'.agent == a.EndAccepted(Sid(s, i)) && s'.cancelling == s.cancelling
    requires ThreadOk(t', s.agent.acceptSeqGen) && !t'.open && t'.call.sessionID == Sid(s, i)
    requires s'.runWG + Ticket()(s.threads[i]) == s.runWG + Ticket()(t')
    requires KeysMove(s, s', s.threads[i], t')
    ensures Inv(s')
  {
    EndAcceptedOk(s, i, a);
    EndAcceptedKeepsHits(s, s', i);
    assert forall x :: a.Count(x) == s.agent.Count(x) && a.Mark(x) == s.agent.Mark(x);
    MoveOne(s, s', i, t');
  }

  lemma GateInv(s: Sys, i: nat)
    requires Inv(s) && At(s, i, Reserved)
    ensures Inv(DoGate(s, i))
  {
    var t := s.threads[i];
    var s' := DoGate(s, i);
    assert ThreadOk(t, s.agent.acceptSeqGen);
    if s.closing {
      assert forall x :: s'.agent.Queue(x) == s.agent.Queue(x);
      ReleaseMove(s, s', i, s'.threads[i], s.agent);
    } else {
      QuietMove(s, s', i, s'.threads[i]);
    }
  }

  lemma FailKeys(s: Sys, i: nat, err: Outcome)
    requires Inv(s) && err != Ok
    requires (At(s, i, Dispatched) && s.threads[i].top) || At(s, i, Entered)
    ensures KeysMove(s, DoFail(s, i, err), s.threads[i], DoFail(s, i, err).threads[i])
  {
    assert ThreadOk(s.threads[i], s.agent.acceptSeqGen);
    hide Inv, ThreadOk, Conserved;
  }

  lemma FailInv(s: Sys, i: nat, err: Outcome)
    requires Inv(s) && err != Ok
    requires (At(s, i, Dispatched) && s.threads[i].top) || At(s, i, Entered)
    ensures Inv(DoFail(s, i, err))
  {
    hide KeysMove;
    var s' := DoFail(s, i, err);
    FailKeys(s, i, err);
    assert ThreadOk(s.threads[i], s.agent.acceptSeqGen);
    QuietMove(s, s', i, s'.threads[i]);
  }

  lemma InstallInv(s: Sys, i: nat)
    requires Inv(s) && At(s, i, Entered)
    ensures Inv(DoInstall(s, i))
  {
    var s' := DoInstall(s, i);
    assert ThreadOk(s.threads[i], s.agent.acceptSeqGen);
    QuietMove(s, s', i, s'.threads[i]);
  }

  lemma ReleaseInv(s: Sys, i: nat)
    requires Inv(s) && At(s, i, Streaming)
    ensures Inv(DoRelease(s, i))
  {
    var s' := DoRelease(s, i);
    assert ThreadOk(s.threads[i], s.agent.acceptSeqGen);
    QuietMove(s, s', i, s'.threads[i]);
  }

  lemma UnwindInv(s: Sys, i: nat)
    requires Inv(s) && At(s, i, Unwinding) && s.threads[i].frames > 0
    ensures Inv(DoUnwind(s, i))
  {
    var s' := DoUnwind(s, i);
    assert ThreadOk(s.threads[i], s.agent.acceptSeqGen);
    QuietMove(s, s', i, s'.threads[i]);
  }

  /** Publishing one's own event moves it from the call to the buffer or to the log. */
  lemma OwnPublished(t: Thread, t': Thread, cancelled: bool, k: Key)
    requires k.runID != "" && InFlight(t)
    requires if t.call.hook then t.buffer.None? else t.msgRunID == "" || t.buffer.Some?
    requires t' == Hooked(t, cancelled).(open := t'.open, phase := Unwinding, result := t'.result)
    ensures OwedBy(t', k) + Published(Broker(t, cancelled), k) == OwedBy(t, k)
  {
    PublishedOne(Complete(t, cancelled), k);
  }

  lemma OwnPublishedKeys(s: Sys, s': Sys, i: nat, t': Thread, cancelled: bool)
    requires i < |s.threads| && InFlight(s.threads[i]) && ThreadOk(s.threads[i], s.agent.acceptSeqGen)
    requires t' == Hooked(s.threads[i], cancelled).(open := t'.open, phase := Unwinding, result := t'.result)
    requires s'.agent.messageQueue == s.agent.messageQueue && s'.log == s.log + Broker(s.threads[i], cancelled)
    requires s'.accepted == s.accepted && s'.rejected == s.rejected && s'.lost == s.lost
    ensures KeysMove(s, s', s.threads[i], t')
  {
    var t := s.threads[i];
    forall k: Key | k.runID != ""
      ensures OwedBy(t', k) + Elsewhere(s', k) == OwedBy(t, k) + Elsewhere(s, k)
    {
      OwnPublished(t, t', cancelled, k);
      PublishedConcat(s.log, Broker(t, cancelled), k);
    }
  }

  lemma EnqueueOk(s: Sys, i: nat)
    requires Inv(s) && i < |s.threads|
    requires var t := s.threads[i];
             t.call.accepted.Some? ==> t.call.accepted.value > s.agent.Mark(Sid(s, i))
    ensures QueuesOk(s.agent.Enqueue(s.threads[i].call))
  {
    var c := s.threads[i].call;
    var a := s.agent.Enqueue(c);
    assert ThreadOk(s.threads[i], s.agent.acceptSeqGen);
    assert forall x :: a.Mark(x) == s.agent.Mark(x);
    forall sid, j | 0 <= j < |a.Queue(sid)|
      ensures QueuedOk(a.Queue(sid)[j], sid, a.Mark(sid), a.acceptSeqGen)
    {
      if j < |s.agent.Queue(sid)| {
        assert a.Queue(sid)[j] == s.agent.Queue(sid)[j];
      }
    }
  }

  lemma EnqueuedFor(a: AgentState, c: Call, k: Key)
    ensures CountRun(a.Enqueue(c).Queue(k.sessionID), k.runID)
            == CountRun(a.Queue(k.sessionID), k.runID) + Bit(KeyOf(c) == k)
  {
    CountRunAppend(a.Queue(c.sessionID), c.Queued(), k.runID);
  }

  lemma EnqueueKeys(s: Sys, s': Sys, i: nat, t': Thread)
    requires i < |s.threads| && InFlight(s.threads[i])
    requires s'.agent.messageQueue == s.agent.Enqueue(s.threads[i].call).messageQueue
    requires s'.log == s.log && s'.accepted == s.accepted && s'.rejected == s.rejected && s'.lost == s.lost
    requires t' == s.threads[i].(open := t'.open, phase := Unwinding, result := Ok)
    ensures KeysMove(s, s', s.threads[i], t')
  {
    var t := s.threads[i];
    forall k: Key | k.runID != ""
      ensures OwedBy(t', k) + Elsewhere(s', k) == OwedBy(t, k) + Elsewhere(s, k)
    {
      EnqueuedFor(s.agent, t.call, k);
      assert QueuedFor(s', k) == QueuedFor(s, k) + Bit(KeyOf(t.call) == k);
      assert OwedBy(t, k) == OwedBy(t', k) + Bit(KeyOf(t.call) == k);
    }
  }

  lemma EnterCanceledInv(s: Sys, i: nat, persist: Outcome)
    requires Inv(s) && At(s, i, Dispatched) && s.threads[i].call.accepted.Some?
    requires s.agent.EntryOf(Sid(s, i), s.threads[i].call.accepted.value) == CanceledOnEntry
    ensures Inv(DoEnter(s, i, persist))
  {
    var s' := DoEnter(s, i, persist);
    assert ThreadOk(s.threads[i], s.agent.acceptSeqGen);
    OwnPublishedKeys(s, s', i, s'.threads[i], true);
    ReleaseMove(s, s', i, s'.threads[i], s.agent);
  }

  lemma EnterQueuedInv(s: Sys, i: nat, persist: Outcome)
    requires Inv(s) && At(s, i, Dispatched) && s.threads[i].call.accepted.Some?
    requires s.agent.EntryOf(Sid(s, i), s.threads[i].call.accepted.value) == Enqueued
    ensures Inv(DoEnter(s, i, persist))
  {
    var s' := DoEnter(s, i, persist);
    assert ThreadOk(s.threads[i], s.agent.acceptSeqGen);
    EnqueueOk(s, i);
    EnqueueKeys(s, s', i, s'.threads[i]);
    ReleaseMove(s, s', i, s'.threads[i], s.agent.Enqueue(s.threads[i].call));
  }

  lemma EnterActiveInv(s: Sys, i: nat, persist: Outcome)
    requires Inv(s) && At(s, i, Dispatched) && s.threads[i].call.accepted.Some?
    requires s.agent.EntryOf(Sid(s, i), s.threads[i].call.accepted.value) == Active
    ensures Inv(DoEnter(s, i, persist))
  {
    var s' := DoEnter(s, i, persist);
    assert ThreadOk(s.threads[i], s.agent.acceptSeqGen);
    var a := s.agent.Activate(Sid(s, i));
    assert forall x :: a.Queue(x) == s.agent.Queue(x) && a.Mark(x) == s.agent.Mark(x);
    ReleaseMove(s, s', i, s'.threads[i], a);
  }

  lemma EnterInv(s: Sys, i: nat, persist: Outcome)
    requires Inv(s) && At(s, i, Dispatched) && s.threads[i].call.accepted.Some?
    ensures Inv(DoEnter(s, i, persist))
  {
    match s.agent.EntryOf(Sid(s, i), s.threads[i].call.accepted.value)
    case CanceledOnEntry => EnterCanceledInv(s, i, persist);
    case Enqueued => EnterQueuedInv(s, i, persist);
    case Active => EnterActiveInv(s, i, persist);
  }

  lemma EnterLocalInv(s: Sys, i: nat)
    requires Inv(s) && At(s, i, Dispatched) && s.threads[i].call.accepted.None?
    ensures Inv(DoEnterLocal(s, i))
  {
    var t := s.threads[i];
    var s' := DoEnterLocal(s, i);
    assert ThreadOk(t, s.agent.acceptSeqGen);
    if Sid(s, i) in s.agent.activeRequests {
      EnqueueOk(s, i);
      EnqueueKeys(s, s', i, s'.threads[i]);
      assert forall x :: s'.agent.Mark(x) == s.agent.Mark(x) && s'.agent.Count(x) == s.agent.Count(x);
      forall j | 0 <= j < |s.threads| && j != i && s.threads[j].open
        ensures HitOk(s', s.threads[j])
      {
        assert HitOk(s, s.threads[j]);
      }
      MoveOne(s, s', i, s'.threads[i]);
    } else {
      QuietMove(s, s', i, s'.threads[i]);
    }
  }

  lemma StreamErrorInv(s: Sys, i: nat, err: Outcome)
    requires Inv(s) && At(s, i, Streaming) && err != Ok
    ensures Inv(DoStreamError(s, i, err))
  {
    var t := s.threads[i];
    var s' := DoStreamError(s, i, err);
    assert ThreadOk(t, s.agent.acceptSeqGen);
    OwnPublishedKeys(s, s', i, s'.threads[i], err == Canceled);
    QuietMove(s, s', i, s'.threads[i]);
  }

  lemma ReturnKeys(s: Sys, i: nat)
    requires Inv(s) && At(s, i, Unwinding) && s.threads[i].frames == 0
    ensures KeysMove(s, DoReturn(s, i), s.threads[i], DoReturn(s, i).threads[i])
  {
    var t := s.threads[i];
    var s' := DoReturn(s, i);
    var told := s'.log[|s.log|..];
    assert s'.log == s.log + told;
    assert ThreadOk(t, s.agent.acceptSeqGen);
    forall k: Key | k.runID != ""
      ensures OwedBy(s'.threads[i], k) + Elsewhere(s', k) == OwedBy(t, k) + Elsewhere(s, k)
    {
      PublishedConcat(s.log, told, k);
      if told != [] { PublishedOne(told[0], k); }
    }
  }

  lemma ReturnInv(s: Sys, i: nat)
    requires Inv(s) && At(s, i, Unwinding) && s.threads[i].frames == 0
    ensures Inv(DoReturn(s, i))
  {
    hide KeysMove, FallsBack;
    var t := s.threads[i];
    var s' := DoReturn(s, i);
    ReturnKeys(s, i);
    assert ThreadOk(t, s.agent.acceptSeqGen);
    if t.open {
      ReleaseMove(s, s', i, s'.threads[i], s.agent);
    } else {
      QuietMove(s, s', i, s'.threads[i]);
    }
  }

  // ------------------------------------------------ steps on a whole session's queue

  /** A queue replaced by part of itself, the rest of its RunIDs published. */
  ghost predicate QueueTrimmed(s: Sys, s': Sys, sid: string, kept: seq<Call>, dropped: seq<Call>) {
    && (forall x :: s'.agent.Queue(x) == if x == sid then kept else s.agent.Queue(x))
    && s'.log == s.log + CancelledEvents(dropped)
    && (forall runID :: runID != "" ==>
          CountRun(kept, runID) + CountRun(dropped, runID) == CountRun(s.agent.Queue(sid), runID))
    && (forall j :: 0 <= j < |dropped| ==> dropped[j].sessionID == sid && !dropped[j].hook)
    && (forall j :: 0 <= j < |kept| ==> kept[j] in s.agent.Queue(sid))
  }

  lemma DropsElsewhere(q: seq<Call>, sid: string, k: Key)
    requires forall j :: 0 <= j < |q| ==> q[j].sessionID == sid && !q[j].hook
    requires k.runID != ""
    ensures Published(CancelledEvents(q), k) == if k.sessionID == sid then CountRun(q, k.runID) else 0
  {
    if k.sessionID == sid {
      DropsPublished(q, k);
    } else {
      DropsForeign(q, sid, k);
    }
  }

  lemma {:induction false} DropsForeign(q: seq<Call>, sid: string, k: Key)
    requires forall j :: 0 <= j < |q| ==> q[j].sessionID == sid
    requires k.sessionID != sid
    ensures Published(CancelledEvents(q), k) == 0
  {
    if q != [] {
      var init, last := q[..|q| - 1], q[|q| - 1];
      DropsForeign(init, sid, k);
      PublishedConcat(CancelledEvents(init), [RunComplete(last.sessionID, last.runID, true)], k);
      PublishedOne(RunComplete(last.sessionID, last.runID, true), k);
    }
  }

  lemma TrimKeys(s: Sys, s': Sys, sid: string, kept: seq<Call>, dropped: seq<Call>)
    requires QueueTrimmed(s, s', sid, kept, dropped)
    ensures forall k: Key :: k.runID != "" ==>
              QueuedFor(s', k) + Published(s'.log, k) == QueuedFor(s, k) + Published(s.log, k)
  {
    forall k: Key | k.runID != ""
      ensures QueuedFor(s', k) + Published(s'.log, k) == QueuedFor(s, k) + Published(s.log, k)
    {
      PublishedConcat(s.log, CancelledEvents(dropped), k);
      DropsElsewhere(dropped, sid, k);
    }
  }

  /** Trimming a queue, with the marks and reservations as they were. */
  lemma TrimInv(s: Sys, s': Sys, sid: string, kept: seq<Call>, dropped: seq<Call>)
    requires Inv(s) && QueueTrimmed(s, s', sid, kept, dropped)
    requires s' == s.(agent := s'.agent, log := s'.log)
    requires s'.agent == s.agent.(messageQueue := s'.agent.messageQueue)
    ensures Inv(s')
  {
    TrimKeys(s, s', sid, kept, dropped);
    assert forall x :: s'.agent.Mark(x) == s.agent.Mark(x) && s'.agent.Count(x) == s.agent.Count(x);
    forall j | 0 <= j < |s.threads|
      ensures HitOk(s', s'.threads[j])
    {
      assert HitOk(s, s.threads[j]);
    }
  }

  lemma DrainTrims(s: Sys, sid: string, s': Sys)
    requires QueuesOk(s.agent)
    requires s'.agent == s.agent.Drain(sid)
    requires s'.log == s.log + CancelledEvents(Select(s.agent.Queue(sid), s.agent.Mark(sid), Drop))
    ensures QueueTrimmed(s, s', sid, Select(s.agent.Queue(sid), s.agent.Mark(sid), Keep),
                         Select(s.agent.Queue(sid), s.agent.Mark(sid), Drop))
  {
    var q, m := s.agent.Queue(sid), s.agent.Mark(sid);
    SelectMembers(q, m, Keep);
    SelectMembers(q, m, Drop);
    forall runID | runID != ""
      ensures CountRun(Select(q, m, Keep), runID) + CountRun(Select(q, m, Drop), runID) == CountRun(q, runID)
    {
      DrainCounts(q, m, runID);
    }
    forall j | 0 <= j < |Select(q, m, Drop)|
      ensures Select(q, m, Drop)[j].sessionID == sid && !Select(q, m, Drop)[j].hook
    {
      assert Select(q, m, Drop)[j] in q;
    }
  }

  lemma DrainStepInv(s: Sys, i: nat)
    requires Inv(s) && At(s, i, Streaming)
    ensures Inv(DoDrainStep(s, i))
  {
    var sid := Sid(s, i);
    var q, m := s.agent.Queue(sid), s.agent.Mark(sid);
    var s' := DoDrainStep(s, i);
    DrainTrims(s, sid, s');
    TrimInv(s, s', sid, Select(q, m, Keep), Select(q, m, Drop));
  }

  lemma ClearTrims(s: Sys, sid: string, s': Sys)
    requires QueuesOk(s.agent)
    requires forall x :: s'.agent.Queue(x) == s.agent.SetQueue(sid, []).Queue(x)
    requires s'.log == s.log + CancelledEvents(s.agent.Queue(sid))
    ensures QueueTrimmed(s, s', sid, [], s.agent.Queue(sid))
  {
  }

  lemma ClearQueueInv(s: Sys, sid: string)
    requires Inv(s)
    ensures Inv(DoClearQueue(s, sid))
  {
    var s' := DoClearQueue(s, sid);
    ClearTrims(s, sid, s');
    TrimInv(s, s', sid, [], s.agent.Queue(sid));
  }

  lemma CancelRecordInv(s: Sys, sid: string)
    requires Inv(s) && sid in s.cancelling
    ensures Inv(DoCancelRecord(s, sid))
  {
    var s' := DoCancelRecord(s, sid);
    ClearTrims(s, sid, s');
    TrimKeys(s, s', sid, [], s.agent.Queue(sid));
    assert forall x :: x != sid ==> s'.agent.Mark(x) == s.agent.Mark(x) && Pending(s', x) == Pending(s, x);
    assert forall x :: s'.agent.Count(x) == s.agent.Count(x);
    forall x
      ensures s'.agent.Mark(x) <= s'.agent.acceptSeqGen
    {
      assert s.agent.Mark(x) <= s.agent.acceptSeqGen && s.cancelling[sid] <= s.agent.acceptSeqGen;
      if x == sid { assert s'.agent.Mark(x) == s.agent.Mark(x) || s'.agent.Mark(x) == s.cancelling[sid]; }
    }
    forall j | 0 <= j < |s.threads|
      ensures HitOk(s', s'.threads[j])
    {
      assert HitOk(s, s.threads[j]);
    }
  }

  lemma CancelSnapshotHits(s: Sys, sid: string)
    requires ThreadsOk(s) && MarksOk(s) && HitsOk(s) && CountsOk(s) && Free(s, sid)
    ensures HitsOk(DoCancelSnapshot(s, sid)) && ThreadsOk(DoCancelSnapshot(s, sid))
  {
    var s' := DoCancelSnapshot(s, sid);
    forall j | 0 <= j < |s.threads|
      ensures HitOk(s', s'.threads[j]) && ThreadOk(s'.threads[j], s'.agent.acceptSeqGen)
    {
      assert HitOk(s, s.threads[j]) && ThreadOk(s.threads[j], s.agent.acceptSeqGen);
      if s.threads[j].open && Sid(s, j) == sid {
        OpenCounts(s, j);
      }
    }
  }

  lemma CancelSnapshotInv(s: Sys, sid: string)
    requires Inv(s) && Free(s, sid)
    ensures Inv(DoCancelSnapshot(s, sid))
  {
    var s' := DoCancelSnapshot(s, sid);
    CancelSnapshotHits(s, sid);
    forall x
      ensures s'.agent.Count(x) == Total(s'.threads, OpenIn(x))
    {
      TotalSame(s.threads, s'.threads, OpenIn(x));
    }
    TotalSame(s.threads, s'.threads, Ticket());
    forall k: Key | k.runID != ""
      ensures s'.accepted[k] <= 1 && s'.accepted[k] == Held(s', k) + Elsewhere(s', k)
    {
      TotalSame(s.threads, s'.threads, Owing(k));
    }
  }

  // --------------------------------------------------------------------- handoff

  lemma HandoffTrims(s: Sys, sid: string, s1: Sys)
    requires QueuesOk(s.agent)
    requires s1.agent == s.agent.SetQueue(sid, s.agent.HandoffQueue(sid))
    requires s1.log == s.log + CancelledEvents(Select(s.agent.Queue(sid), s.agent.Mark(sid), Drop))
    ensures QueueTrimmed(s, s1, sid, s.agent.HandoffQueue(sid), Select(s.agent.Queue(sid), s.agent.Mark(sid), Drop))
  {
    var q, m := s.agent.Queue(sid), s.agent.Mark(sid);
    if m == 0 {
      NothingCoveredNothingDropped(q, m);
    } else {
      UncoveredMembers(q, m);
    }
    SelectMembers(q, m, Drop);
    forall runID | runID != ""
      ensures CountRun(s.agent.HandoffQueue(sid), runID) + CountRun(Select(q, m, Drop), runID) == CountRun(q, runID)
    {
      HandoffCounts(q, m, runID);
    }
    forall j | 0 <= j < |Select(q, m, Drop)|
      ensures Select(q, m, Drop)[j].sessionID == sid && !Select(q, m, Drop)[j].hook
    {
      assert Select(q, m, Drop)[j] in q;
    }
  }

  /** The state after the filter of a handoff. */
  function Filtered(s: Sys, sid: string): Sys {
    s.(agent := s.agent.SetQueue(sid, s.agent.HandoffQueue(sid)),
       log := s.log + CancelledEvents(Select(s.agent.Queue(sid), s.agent.Mark(sid), Drop)))
  }

  lemma FilteredInv(s: Sys, sid: string)
    requires Inv(s)
    ensures Inv(Filtered(s, sid))
    ensures Filtered(s, sid).agent.Queue(sid) == s.agent.HandoffQueue(sid)
  {
    HandoffTrims(s, sid, Filtered(s, sid));
    TrimInv(s, Filtered(s, sid), sid, s.agent.HandoffQueue(sid), Select(s.agent.Queue(sid), s.agent.Mark(sid), Drop));
  }

  /** With no reservation open nobody is left for a mark to cover. */
  lemma DropMarkInv(s: Sys, sid: string)
    requires Inv(s) && s.agent.Count(sid) == 0
    ensures Inv(s.(agent := s.agent.(cancelMark := s.agent.cancelMark - {sid})))
  {
    var s' := s.(agent := s.agent.(cancelMark := s.agent.cancelMark - {sid}));
    assert forall x :: s'.agent.Queue(x) == s.agent.Queue(x) && s'.agent.Mark(x) <= s.agent.Mark(x);
    assert forall x :: s'.agent.Count(x) == s.agent.Count(x);
    forall j | 0 <= j < |s.threads|
      ensures HitOk(s', s'.threads[j])
    {
      assert HitOk(s, s.threads[j]);
      if s.threads[j].open {
        OpenCounts(s, j);
      }
    }
  }

  lemma HandoffIdleInv(s: Sys, i: nat, ctxDone: bool)
    requires Inv(s) && At(s, i, Finishing) && s.agent.HandoffQueue(Sid(s, i)) == []
    ensures Inv(DoHandoff(s, i, ctxDone))
  {
    var sid := Sid(s, i);
    FilteredInv(s, sid);
    var s1 := Filtered(s, sid);
    var s2 := s1.(agent := s.agent.HandoffIdle(sid));
    if s.agent.Count(sid) == 0 {
      DropMarkInv(s1, sid);
    }
    var s' := DoHandoff(s, i, ctxDone);
    assert ThreadOk(s2.threads[i], s2.agent.acceptSeqGen);
    OwnPublishedKeys(s2, s', i, s'.threads[i], ctxDone);
    QuietMove(s2, s', i, s'.threads[i]);
  }

  /** A RunID is in one place only, so a turn that hands off always owes its own event. */
  lemma HandoffOwes(s: Sys, i: nat)
    requires Inv(s) && At(s, i, Finishing) && s.threads[i].call.runID != ""
    ensures OwesRunComplete(s.threads[i].call.runID, s.agent.Queue(Sid(s, i)))
  {
    var k := KeyOf(s.threads[i].call);
    TotalAtLeast(s.threads, i, Owing(k));
    assert OwedBy(s.threads[i], k) >= 1;
    CountRunZero(s.agent.Queue(Sid(s, i)), k.runID);
  }

  lemma HandoffNextKeys(s1: Sys, s': Sys, i: nat, t': Thread, ctxDone: bool)
    requires Inv(s1) && At(s1, i, Finishing)
    requires var t := s1.threads[i]; var q := s1.agent.Queue(Sid(s1, i)); var owes := OwesRunComplete(t.call.runID, q);
             && q != []
             && (forall x :: s'.agent.Queue(x) == if x == Sid(s1, i) then q[1..] else s1.agent.Queue(x))
             && t' == (if owes then Hooked(t, ctxDone) else t)
                      .(call := t'.call, top := false, phase := Dispatched, open := true, hit := false)
             && KeyOf(t'.call) == KeyOf(q[0])
             && s'.log == s1.log + (if owes then Broker(t, ctxDone) else [])
    requires s'.accepted == s1.accepted && s'.rejected == s1.rejected && s'.lost == s1.lost
    ensures KeysMove(s1, s', s1.threads[i], t')
  {
    var t := s1.threads[i];
    var q := s1.agent.Queue(Sid(s1, i));
    if t.call.runID != "" {
      HandoffOwes(s1, i);
    }
    var owes := OwesRunComplete(t.call.runID, q);
    var told := if owes then Broker(t, ctxDone) else [];
    assert ThreadOk(t, s1.agent.acceptSeqGen);
    assert QueuedOk(q[0], Sid(s1, i), s1.agent.Mark(Sid(s1, i)), s1.agent.acceptSeqGen);
    forall k: Key | k.runID != ""
      ensures OwedBy(t', k) + Elsewhere(s', k) == OwedBy(t, k) + Elsewhere(s1, k)
    {
      CountRunHead(q, k.runID);
      assert QueuedFor(s1, k) == QueuedFor(s', k) + Bit(KeyOf(q[0]) == k);
      PublishedConcat(s1.log, told, k);
      PublishedOne(Complete(t, ctxDone), k);
      assert OwedBy(t', k) + Published(told, k) == OwedBy(t, k) + Bit(KeyOf(q[0]) == k);
    }
  }

  /** The goroutine after a handoff: the popped call under a fresh reservation. */
  function Popped(s1: Sys, i: nat, ctxDone: bool): Thread
    requires i < |s1.threads| && s1.agent.Queue(Sid(s1, i)) != []
  {
    var t := s1.threads[i];
    var q := s1.agent.Queue(Sid(s1, i));
    (if OwesRunComplete(t.call.runID, q) then Hooked(t, ctxDone) else t)
    .(call := q[0].(accepted := Some(s1.agent.acceptSeqGen + 1)),
      top := false, phase := Dispatched, open := true, hit := false)
  }

  lemma PoppedOk(s1: Sys, i: nat, ctxDone: bool)
    requires Inv(s1) && At(s1, i, Finishing) && s1.agent.Queue(Sid(s1, i)) != []
    ensures ThreadOk(Popped(s1, i, ctxDone), s1.agent.acceptSeqGen + 1)
    ensures Popped(s1, i, ctxDone).call.sessionID == Sid(s1, i)
  {
    hide Conserved, CountsOk, HitsOk, MarksOk;
    var q := s1.agent.Queue(Sid(s1, i));
    assert ThreadOk(s1.threads[i], s1.agent.acceptSeqGen);
    assert QueuedOk(q[0], Sid(s1, i), s1.agent.Mark(Sid(s1, i)), s1.agent.acceptSeqGen);
    if s1.threads[i].call.runID != "" {
      HandoffOwes(s1, i);
    }
  }

  lemma HandoffNextInv(s: Sys, i: nat, ctxDone: bool)
    requires Inv(s) && At(s, i, Finishing) && s.agent.HandoffQueue(Sid(s, i)) != []
    ensures Inv(DoHandoff(s, i, ctxDone))
  {
    var sid := Sid(s, i);
    FilteredInv(s, sid);
    var s1 := Filtered(s, sid);
    PoppedOk(s1, i, ctxDone);
    HandoffIsPop(s, i, ctxDone);
    hide DoHandoff, Filtered, Popped, Inv, ThreadOk;
    HandoffFrom(s1, DoHandoff(s, i, ctxDone), i, ctxDone);
  }

  /** A handoff with something to run is the filter, then the pop. */
  lemma HandoffIsPop(s: Sys, i: nat, ctxDone: bool)
    requires i < |s.threads| && s.agent.HandoffQueue(Sid(s, i)) != []
    requires Filtered(s, Sid(s, i)).agent.Queue(Sid(s, i)) == s.agent.HandoffQueue(Sid(s, i))
    ensures var sid := Sid(s, i); var s1 := Filtered(s, sid); var s' := DoHandoff(s, i, ctxDone);
            var q := s1.agent.Queue(sid); var t := s1.threads[i];
            && s'.agent == s1.agent.(messageQueue := s1.agent.messageQueue[sid := q[1..]]).BeginAccepted(sid)
            && s'.threads == s1.threads[i := Popped(s1, i, ctxDone)]
            && s'.log == s1.log + (if OwesRunComplete(t.call.runID, q) then Broker(t, ctxDone) else [])
            && s' == s1.(agent := s'.agent, threads := s'.threads, log := s'.log)
  {
    hide OwesRunComplete, CancelledEvents, Select, Hooked, Broker, Uncovered;
  }

  lemma PopQueuesOk(s1: Sys, s': Sys, sid: string)
    requires QueuesOk(s1.agent) && MarksOk(s1) && s1.agent.Queue(sid) != [] && s'.cancelling == s1.cancelling
    requires s'.agent
             == s1.agent.(messageQueue := s1.agent.messageQueue[sid := s1.agent.Queue(sid)[1..]]).BeginAccepted(sid)
    ensures QueuesOk(s'.agent) && MarksOk(s')
  {
    assert forall x :: s'.agent.Queue(x) == if x == sid then s1.agent.Queue(sid)[1..] else s1.agent.Queue(x);
    assert forall x :: s'.agent.Mark(x) == s1.agent.Mark(x);
  }

  lemma HandoffFrom(s1: Sys, s': Sys, i: nat, ctxDone: bool)
    requires Inv(s1) && At(s1, i, Finishing) && s1.agent.Queue(Sid(s1, i)) != []
    requires ThreadOk(Popped(s1, i, ctxDone), s1.agent.acceptSeqGen + 1)
    requires Popped(s1, i, ctxDone).call.sessionID == Sid(s1, i)
    requires var sid := Sid(s1, i); var q := s1.agent.Queue(sid); var t := s1.threads[i];
             && s'.agent == s1.agent.(messageQueue := s1.agent.messageQueue[sid := q[1..]]).BeginAccepted(sid)
             && s'.threads == s1.threads[i := Popped(s1, i, ctxDone)]
             && s'.log == s1.log + (if OwesRunComplete(t.call.runID, q) then Broker(t, ctxDone) else [])
             && s' == s1.(agent := s'.agent, threads := s'.threads, log := s'.log)
    ensures Inv(s')
  {
    hide KeysMove, HitsMove, CountsMove;
    var sid := Sid(s1, i);
    var q := s1.agent.Queue(sid);
    assert forall x :: s'.agent.Queue(x) == if x == sid then q[1..] else s1.agent.Queue(x);
    HandoffNextKeys(s1, s', i, s'.threads[i], ctxDone);
    PopQueuesOk(s1, s', sid);
    PopHits(s1, s', i, ctxDone);
    PopCounts(s1, s', i, ctxDone);
    hide Inv, QueuesOk, MarksOk, HitOk, ThreadOk, Popped;
    MoveOne(s1, s', i, s'.threads[i]);
  }

  lemma PopHits(s1: Sys, s': Sys, i: nat, ctxDone: bool)
    requires Inv(s1) && i < |s1.threads| && s1.agent.Queue(Sid(s1, i)) != []
    requires s'.threads == s1.threads[i := Popped(s1, i, ctxDone)] && s'.cancelling == s1.cancelling
    requires s'.agent.cancelMark == s1.agent.cancelMark
    ensures HitsMove(s1, s', i) && HitOk(s', s'.threads[i])
  {
    hide Conserved, CountsOk, QueuesOk, OwesRunComplete, Hooked;
    var sid := Popped(s1, i, ctxDone).call.sessionID;
    assert Pending(s', sid) == Pending(s1, sid) <= s1.agent.acceptSeqGen;
    assert s1.agent.Mark(sid) <= s1.agent.acceptSeqGen;
    forall j | 0 <= j < |s1.threads| && j != i && s1.threads[j].open
      ensures HitOk(s', s1.threads[j])
    {
      assert HitOk(s1, s1.threads[j]);
    }
  }

  lemma PopCounts(s1: Sys, s': Sys, i: nat, ctxDone: bool)
    requires Inv(s1) && At(s1, i, Finishing) && s1.agent.Queue(Sid(s1, i)) != []
    requires s'.threads == s1.threads[i := Popped(s1, i, ctxDone)] && s'.runWG == s1.runWG
    requires s'.agent.acceptedRuns == s1.agent.BeginAccepted(Sid(s1, i)).acceptedRuns
    requires Popped(s1, i, ctxDone).call.sessionID == Sid(s1, i)
    ensures CountsMove(s1, s', s1.threads[i], s'.threads[i])
  {
    hide Conserved, HitsOk, QueuesOk, OwesRunComplete;
    assert ThreadOk(s1.threads[i], s1.agent.acceptSeqGen);
    assert forall x :: s'.agent.Count(x) == s1.agent.Count(x) + Bit(x == Sid(s1, i));
  }

  // ------------------------------------------------------------------ all steps, all runs

  lemma StepInv(s: Sys, step: Step)
    requires Inv(s)
    ensures Inv(Next(s, step))
  {
    if Enabled(s, step) {
      match step
      case SendMessage(sid, runID) => SendMessageInv(s, sid, runID);
      case Gate(i) => GateInv(s, i);
      case LocalCall(sid, runID) => LocalCallInv(s, sid, runID);
      case PreRunFail(i, err) => FailInv(s, i, err);
      case Enter(i, persist) => EnterInv(s, i, persist);
      case EnterLocal(i) => EnterLocalInv(s, i);
      case EarlyFail(i, err) => FailInv(s, i, err);
      case Install(i) => InstallInv(s, i);
      case DrainStep(i) => DrainStepInv(s, i);
      case StreamError(i, err) => StreamErrorInv(s, i, err);
      case Release(i) => ReleaseInv(s, i);
      case Handoff(i, ctxDone) =>
        if s.agent.HandoffQueue(Sid(s, i)) == [] {
          HandoffIdleInv(s, i, ctxDone);
        } else {
          HandoffNextInv(s, i, ctxDone);
        }
      case Unwind(i) => UnwindInv(s, i);
      case Return(i) => ReturnInv(s, i);
      case CancelSnapshot(sid) => CancelSnapshotInv(s, sid);
      case CancelRecord(sid) => CancelRecordInv(s, sid);
      case ClearQueue(sid) => ClearQueueInv(s, sid);
      case Shutdown => ShutdownInv(s);
    }
  }

  lemma ShutdownInv(s: Sys)
    requires Inv(s)
    ensures Inv(s.(closing := true))
  {
    var s' := s.(closing := true);
    forall j | 0 <= j < |s.threads|
      ensures HitOk(s', s'.threads[j])
    {
      assert HitOk(s, s.threads[j]);
    }
    forall k: Key | k.runID != ""
      ensures s'.accepted[k] <= 1 && s'.accepted[k] == Held(s', k) + Elsewhere(s', k)
    {
      assert Held(s', k) == Held(s, k) && Elsewhere(s', k) == Elsewhere(s, k);
    }
  }

  /** The invariant holds in every state of every run. */
  lemma {:induction false} RunInv(states: seq<Sys>, steps: seq<Step>, n: nat)
    requires Run(states, steps) && n < |states|
    ensures Inv(states[n])
  {
    hide Next, Inv;
    if n == 0 {
      InitInv();
    } else {
      RunInv(states, steps, n - 1);
      assert Follows(states, steps, n - 1);
      StepInv(states[n - 1], steps[n - 1]);
    }
  }

  lemma InitInv()
    ensures Inv(Init())
  {
  }

  lemma InvThreads(s: Sys)
    requires Inv(s)
    ensures ThreadsOk(s)
  {
  }
}
