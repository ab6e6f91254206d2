/**
 What becomes of updates and writes: who flushes at once and who waits for a timer, what a flusher
 leaves behind, and that every write is published once.
 */
module StoreEffects {
  import opened Options
  import opened Content
  import opened Pending
  import opened Store
  import opened StoreInvariant
  import opened StoreTheorems

  // ------------------------------------------------------------------------- an update

  /** An update changes the structure of the message against what was last written. */
  predicate Structural(e: Entry, msg: Message) {
    !SameStructure(e.LastFlushed(), Snap(msg, |e.updates| + 1))
  }

  /** Every update is buffered as the newest; without debouncing, or when it is structural, its
      caller goes on to flush it, else nobody does now, and unless a flush is under way a timer
      will. */
  lemma UpdateDecides(s: Sys, msg: Message)
    ensures var s' := Next(s, Update(msg)); var e, e' := Get(s, msg.id), Get(s', msg.id); var n := |e.updates| + 1;
            && e'.updates == e.updates + [msg] && e'.writes == e.writes
            && e'.buf.Some? && e'.buf.value.latest == Snap(msg, n) && e'.buf.value.dirty
            && if !s.debounce || Structural(e, msg) then
                 s'.callers == s.callers + [Caller(true, [msg.id], map[msg.id := n], Looking, false)]
               else
                 s'.callers == s.callers
                 && (e.buf.None? || !e.buf.value.flushing ==> e'.buf.value.timer)
  {
    var e := Get(s, msg.id);
    NotTerminalSameStructure(e.LastFlushed(), Snap(msg, |e.updates| + 1));
    hide ShouldFlushNow, SameStructure;
    assert |e.Accept(msg, s.debounce).updates| == |e.updates| + 1;
  }

  /** So in every run an update that is structural, or not debounced, is durable when it returns. */
  lemma {:induction false} StructuralUpdateIsDurable(states: seq<Sys>, steps: seq<Step>, m: nat, n: nat, msg: Message)
    requires Run(states, steps) && m < n < |states| && steps[m] == Update(msg)
    requires !states[m].debounce || Structural(Get(states[m], msg.id), msg)
    requires ReturnedOk(states[n], |states[m].callers|)
    ensures Get(states[n], msg.id).RowVer() >= |Get(states[m], msg.id).updates| + 1
  {
    hide SameStructure, ShouldFlushNow;
    NotTerminalSameStructure(Get(states[m], msg.id).LastFlushed(), Snap(msg, |Get(states[m], msg.id).updates| + 1));
    TerminalUpdateIsDurable(states, steps, m, n, msg);
  }

  // ------------------------------------------------------------------------- timers

  /** A buffer that waits, with nobody flushing, has its timer running. */
  predicate Timed(e: Entry) {
    e.buf.Some? && !e.buf.value.flushing && e.buf.value.dirty ==> e.buf.value.timer
  }

  predicate NoTimerInFlush(e: Entry) {
    e.buf.Some? && e.buf.value.flushing ==> !e.buf.value.timer
  }

  /** The update whose caller flushes itself. */
  predicate FlushedByCaller(s: Sys, step: Step, id: string) {
    step.Update? && step.msg.id == id && !(Get(s, id).buf.Some? && Get(s, id).buf.value.flushing)
    && (!s.debounce || Structural(Get(s, id), step.msg))
  }

  /** The end of a flush that failed, or that an update overtook. */
  predicate FlushedTooEarly(s: Sys, step: Step, id: string) {
    step.EndFlush? && Enabled(s, step) && Cur(s, step.c) == id && Get(s, id).buf.value.flushing
    && (!s.callers[step.c].pc.ok || Get(s, id).buf.value.dirty)
  }

  lemma AcceptTimed(s: Sys, msg: Message)
    requires var e := Get(s, msg.id); Timed(e) && NoTimerInFlush(e)
    ensures var e' := Get(DoUpdate(s, msg), msg.id);
            && NoTimerInFlush(e')
            && (FlushedByCaller(s, Update(msg), msg.id) && s.debounce ==> !Timed(e'))
            && (!FlushedByCaller(s, Update(msg), msg.id) ==> Timed(e'))
  {
    var e := Get(s, msg.id);
    NotTerminalSameStructure(e.LastFlushed(), Snap(msg, |e.updates| + 1));
    hide ShouldFlushNow, SameStructure;
  }

  /** A waiting buffer loses its timer in two ways only: to an update whose own caller flushes, or at
      the end of a flush that failed or was overtaken by an update. */
  lemma {:induction false} TimerLostOnlyBy(states: seq<Sys>, steps: seq<Step>, n: nat, id: string)
    requires Run(states, steps) && n < |steps| && Timed(Get(states[n], id)) && !Timed(Get(states[n + 1], id))
    ensures FlushedByCaller(states[n], steps[n], id) || FlushedTooEarly(states[n], steps[n], id)
  {
    hide ShouldFlushNow, SameStructure;
    assert Follows(states, steps, n);
    NoTimers(states, steps, n, id);
    RunInv(states, steps, n);
    if steps[n].Update? && steps[n].msg.id == id {
      AcceptTimed(states[n], steps[n].msg);
    } else if !FlushedTooEarly(states[n], steps[n], id) {
      OtherTimed(states[n], steps[n], id);
    }
  }

  lemma OtherTimed(s: Sys, step: Step, id: string)
    requires Inv(s) && Timed(Get(s, id)) && !(step.Update? && step.msg.id == id) && !FlushedTooEarly(s, step, id)
    ensures Timed(Get(Next(s, step), id))
  {
    hide ShouldFlushNow, DoEndFlush, Inv;
    if step.EndFlush? && Enabled(s, step) { EndTimed(s, step.c, id); }
  }

  lemma EndTimed(s: Sys, c: nat, id: string)
    requires Inv(s) && Timed(Get(s, id)) && !FlushedTooEarly(s, EndFlush(c), id) && Enabled(s, EndFlush(c))
    ensures Timed(Get(DoEndFlush(s, c), id))
  {
    OnlyWriter(s, c);
    hide Inv, ShouldFlushNow;
  }

  lemma StepNoTimer(s: Sys, step: Step, id: string)
    requires Inv(s) && NoTimerInFlush(Get(s, id))
    ensures NoTimerInFlush(Get(Next(s, step), id))
  {
    hide ShouldFlushNow, Inv;
  }

  lemma {:induction false} NoTimers(states: seq<Sys>, steps: seq<Step>, n: nat, id: string)
    requires Run(states, steps) && n < |states|
    ensures NoTimerInFlush(Get(states[n], id))
  {
    hide Next, Inv;
    if n > 0 {
      NoTimers(states, steps, n - 1, id);
      assert Follows(states, steps, n - 1);
      RunInv(states, steps, n - 1);
      StepNoTimer(states[n - 1], steps[n - 1], id);
    }
  }

  // ------------------------------------------------------------------- what a flusher leaves

  /** A flusher that waits looks again until the buffer is free; a timer gives up. */
  lemma BusyMeansWait(s: Sys, c: nat)
    requires Enabled(s, Look(c)) && Get(s, Cur(s, c)).buf.Some? && Get(s, Cur(s, c)).buf.value.flushing
    ensures var s' := Next(s, Look(c));
            if s.callers[c].sync then s' == s
            else s' == s.(callers := s.callers[c := s.callers[c].(ids := s.callers[c].ids[1..], pc := Looking)])
  {
  }

  /** A flusher takes the newest state out of a dirty buffer that is free. */
  lemma LookTakesNewest(states: seq<Sys>, steps: seq<Step>, n: nat, c: nat)
    requires Run(states, steps) && n < |steps| && steps[n] == Look(c) && Enabled(states[n], Look(c))
    requires var e := Get(states[n], Cur(states[n], c)); e.buf.Some? && !e.buf.value.flushing && e.buf.value.dirty
    ensures c < |states[n + 1].callers| && Get(states[n], Cur(states[n], c)).updates != []
    ensures var e := Get(states[n], Cur(states[n], c)); var k := states[n + 1].callers[c];
            && k.pc.Writing? && k.ids == states[n].callers[c].ids
            && k.pc.w.snap == Snap(e.updates[|e.updates| - 1], |e.updates|)
            && (k.pc.w.must <==> !SameStructure(e.Row(), k.pc.w.snap))
  {
    hide ShouldFlushNow, SameStructure, WritesOk;
    assert Follows(states, steps, n);
    RunInv(states, steps, n);
    var e := Get(states[n], Cur(states[n], c));
    assert IdOk(Cur(states[n], c), e, states[n].callers);
    NotTerminalSameStructure(e.Row(), e.buf.value.latest);
  }

  /** A timer that fires on a waiting buffer takes the newest state to the row: its look, write and
      end, when nothing else comes between, leave the row the newest update and the buffer clean. */
  lemma {:induction false} TimerStoresNewest(states: seq<Sys>, steps: seq<Step>, n: nat, id: string)
    requires Run(states, steps) && n + 4 <= |steps| && steps[n] == TimerFires(id)
    requires var c := |states[n].callers|;
             steps[n + 1] == Look(c) && steps[n + 2] == SqlWrite(c, true) && steps[n + 3] == EndFlush(c)
    requires var e := Get(states[n], id); e.buf.Some? && e.buf.value.dirty && !e.buf.value.flushing
    ensures var e, e' := Get(states[n], id), Get(states[n + 4], id);
            && e'.updates == e.updates && e'.RowVer() == |e'.updates| && !e'.Outstanding()
            && |states[n + 4].callers| == |states[n].callers| + 1
            && states[n + 4].callers[|states[n].callers|].pc.Publishing?
  {
    hide ShouldFlushNow, Inv;
    assert Follows(states, steps, n) && Follows(states, steps, n + 1);
    assert Follows(states, steps, n + 2) && Follows(states, steps, n + 3);
    RunInv(states, steps, n);
    NewestIsBuffered(states[n], id);
  }

  lemma NewestIsBuffered(s: Sys, id: string)
    requires Inv(s) && Get(s, id).buf.Some?
    ensures Get(s, id).buf.value.latest.ver == |Get(s, id).updates|
  {
    assert IdOk(id, Get(s, id), s.callers);
  }

  /** A caller that waits is done with an ID only when, at that moment, the row is the newest update
      or its own write failed: it goes on as long as updates arrive while it writes. */
  lemma {:induction false} FlusherLeavesRowNewest(states: seq<Sys>, steps: seq<Step>, n: nat, c: nat)
    requires Run(states, steps) && n < |steps| && (steps[n] == Look(c) || steps[n] == EndFlush(c))
    requires Enabled(states[n], steps[n]) && states[n].callers[c].sync
    ensures c < |states[n + 1].callers|
    ensures var e' := Get(states[n + 1], Cur(states[n], c));
            var k, k' := states[n].callers[c], states[n + 1].callers[c];
            && (steps[n].Look? && k'.ids != k.ids ==> e'.RowVer() == |e'.updates|)
            && (steps[n].EndFlush? && k.pc.ok ==> k'.pc.Publishing? && (k'.pc.again <==> e'.RowVer() < |e'.updates|))
            && (steps[n].EndFlush? && !k.pc.ok ==> k'.err && k'.ids == k.ids[1..])
  {
    hide ShouldFlushNow, WritesOk;
    assert Follows(states, steps, n);
    RunInv(states, steps, n);
    var id := Cur(states[n], c);
    assert IdOk(id, Get(states[n], id), states[n].callers);
    RowBehind(Get(states[n], id), WriterPc(Get(states[n], id), states[n].callers));
    if steps[n].EndFlush? { OnlyWriter(states[n], c); }
    hide Inv;
  }

  // ------------------------------------------------------------------------- publishing

  /** The caller has still to publish this write. */
  function Due(k: Caller, w: Write): nat {
    if (k.pc.Publishing? || (k.pc.Written? && k.pc.ok)) && k.pc.w == w then 1 else 0
  }

  function DueOf(callers: seq<Caller>, w: Write): nat {
    if callers == [] then 0 else DueOf(callers[..|callers| - 1], w) + Due(callers[|callers| - 1], w)
  }

  lemma {:induction false} DueUpdate(callers: seq<Caller>, c: nat, k: Caller, w: Write)
    requires c < |callers|
    ensures DueOf(callers[c := k], w) + Due(callers[c], w) == DueOf(callers, w) + Due(k, w)
  {
    var n := |callers| - 1;
    if c < n {
      DueUpdate(callers[..n], c, k, w);
      assert callers[c := k][..n] == callers[..n][c := k];
    } else {
      assert callers[c := k][..n] == callers[..n];
    }
  }

  lemma DueAppend(callers: seq<Caller>, k: Caller, w: Write)
    ensures DueOf(callers + [k], w) == DueOf(callers, w) + Due(k, w)
  {
    assert (callers + [k])[..|callers|] == callers;
  }

  predicate Accounted(s: Sys, w: Write) {
    multiset(s.log)[w] + DueOf(s.callers, w) == multiset(Get(s, w.snap.msg.id).writes)[w]
  }

  /** Updates are kept under their own IDs. */
  predicate OwnID(s: Sys, id: string) {
    forall m <- Get(s, id).updates :: m.id == id
  }

  lemma StepOwnID(s: Sys, step: Step, id: string)
    requires OwnID(s, id)
    ensures OwnID(Next(s, step), id)
  {
    hide ShouldFlushNow;
  }

  lemma {:induction false} RunOwnID(states: seq<Sys>, steps: seq<Step>, n: nat, id: string)
    requires Run(states, steps) && n < |states|
    ensures OwnID(states[n], id)
  {
    hide Next;
    if n > 0 {
      RunOwnID(states, steps, n - 1, id);
      assert Follows(states, steps, n - 1);
      StepOwnID(states[n - 1], steps[n - 1], id);
    }
  }

  lemma SpawnAccounted(s: Sys, sync: bool, ids: seq<string>, targets: map<string, nat>, w: Write)
    requires Accounted(s, w)
    ensures Accounted(Spawn(s, sync, ids, targets), w)
  {
    DueAppend(s.callers, Caller(sync, ids, targets, Looking, false), w);
  }

  lemma UpdateAccounted(s: Sys, msg: Message, w: Write)
    requires Accounted(s, w)
    ensures Accounted(DoUpdate(s, msg), w)
  {
    UpdateKeeps(s, msg, w.snap.msg.id);
    hide DoUpdate, DueOf;
    var s' := DoUpdate(s, msg);
    if s'.callers != s.callers {
      DueAppend(s.callers, s'.callers[|s.callers|], w);
      assert s'.callers == s.callers + [s'.callers[|s.callers|]];
    }
  }

  lemma UpdateKeeps(s: Sys, msg: Message, id: string)
    ensures var s' := DoUpdate(s, msg);
            && Get(s', id).writes == Get(s, id).writes && s'.log == s.log
            && (s'.callers == s.callers
                || (|s'.callers| == |s.callers| + 1 && s'.callers[..|s.callers|] == s.callers
                    && s'.callers[|s.callers|].pc.Looking?))
  {
    hide ShouldFlushNow, Fresh;
  }

  lemma LookAccounted(s: Sys, c: nat, w: Write)
    requires Accounted(s, w) && Enabled(s, Look(c))
    ensures Accounted(DoLook(s, c), w)
  {
    LookKeeps(s, c, w.snap.msg.id);
    hide DoLook, DueOf;
    var s' := DoLook(s, c);
    DueUpdate(s.callers, c, s'.callers[c], w);
    assert Due(s.callers[c], w) == 0 == Due(s'.callers[c], w);
  }

  lemma LookKeeps(s: Sys, c: nat, id: string)
    requires Enabled(s, Look(c))
    ensures var s' := DoLook(s, c);
            && |s'.callers| == |s.callers| && s'.callers == s.callers[c := s'.callers[c]]
            && (s'.callers[c].pc.Looking? || s'.callers[c].pc.Writing?)
            && Get(s', id).writes == Get(s, id).writes && s'.log == s.log
  {
    hide ShouldFlushNow;
  }

  lemma WriteAccounted(s: Sys, c: nat, ok: bool, w: Write)
    requires Inv(s) && Accounted(s, w) && Enabled(s, SqlWrite(c, ok)) && OwnID(s, Cur(s, c))
    ensures Accounted(DoSqlWrite(s, c, ok), w)
  {
    hide ShouldFlushNow, WritesOk;
    var s' := DoSqlWrite(s, c, ok);
    var id, v := Cur(s, c), s.callers[c].pc.w;
    OnlyWriter(s, c);
    assert v.snap.msg in Get(s, id).updates;
    assert v.snap.msg.id == id;
    hide Inv, EntryOk;
    DueUpdate(s.callers, c, s'.callers[c], w);
    WritesGrow(s, c, ok, w.snap.msg.id);
  }

  lemma WritesGrow(s: Sys, c: nat, ok: bool, id: string)
    requires Enabled(s, SqlWrite(c, ok))
    ensures Get(DoSqlWrite(s, c, ok), id).writes
            == Get(s, id).writes + if ok && id == Cur(s, c) then [s.callers[c].pc.w] else []
  {
  }

  lemma EndAccounted(s: Sys, c: nat, w: Write)
    requires Accounted(s, w) && (Enabled(s, EndFlush(c)) || Enabled(s, Publish(c)))
    ensures Enabled(s, EndFlush(c)) ==> Accounted(DoEndFlush(s, c), w)
    ensures Enabled(s, Publish(c)) ==> Accounted(DoPublish(s, c), w)
  {
    hide DueOf;
    if Enabled(s, EndFlush(c)) {
      var s' := DoEndFlush(s, c);
      DueUpdate(s.callers, c, s'.callers[c], w);
      assert Due(s'.callers[c], w) == Due(s.callers[c], w);
    } else {
      var s' := DoPublish(s, c);
      DueUpdate(s.callers, c, s'.callers[c], w);
      assert multiset(s'.log) == multiset(s.log) + multiset{s.callers[c].pc.w};
    }
  }

  lemma StepAccounted(s: Sys, step: Step, w: Write)
    requires Inv(s) && Accounted(s, w)
    requires step.SqlWrite? && At(s, step.c) ==> OwnID(s, Cur(s, step.c))
    ensures Accounted(Next(s, step), w)
  {
    hide Inv, Accounted, OwnID, DoUpdate, DoLook, DoSqlWrite, DoEndFlush, DoPublish, Spawn;
    if Enabled(s, step) {
      match step
      case Update(msg) => UpdateAccounted(s, msg, w);
      case TimerFires(id) => SpawnAccounted(s, false, [id], map[], w);
      case Flush(id) => SpawnAccounted(s, true, [id], map[id := |Get(s, id).updates|], w);
      case FlushAll(ids) => SpawnAccounted(s, true, ids, Everything(s), w);
      case Look(c) => LookAccounted(s, c, w);
      case SqlWrite(c, ok) => WriteAccounted(s, c, ok, w);
      case EndFlush(c) => EndAccounted(s, c, w);
      case Publish(c) => EndAccounted(s, c, w);
    }
  }

  /** In every run each successful write has been published as often as it was made, or a caller is
      still to publish it: none is dropped, none published twice or without a write. */
  lemma {:induction false} EveryWriteIsPublishedOnce(states: seq<Sys>, steps: seq<Step>, n: nat, w: Write)
    requires Run(states, steps) && n < |states|
    ensures multiset(states[n].log)[w] + DueOf(states[n].callers, w)
            == multiset(Get(states[n], w.snap.msg.id).writes)[w]
  {
    hide Next, Inv;
    if n > 0 {
      EveryWriteIsPublishedOnce(states, steps, n - 1, w);
      assert Follows(states, steps, n - 1);
      RunInv(states, steps, n - 1);
      if steps[n - 1].SqlWrite? && At(states[n - 1], steps[n - 1].c) {
        RunOwnID(states, steps, n - 1, Cur(states[n - 1], steps[n - 1].c));
      }
      StepAccounted(states[n - 1], steps[n - 1], w);
    }
  }
}
