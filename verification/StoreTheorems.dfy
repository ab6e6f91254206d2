/**
 What the write-behind store guarantees in every run.
 */
module StoreTheorems {
  import opened Options
  import opened Content
  import opened Pending
  import opened Store
  import opened StoreInvariant

  // ------------------------------------------------------------------- durability

  /** A call keeps its identity and its promises. */
  lemma StepKeepsTargets(s: Sys, step: Step, c: nat)
    requires c < |s.callers|
    ensures c < |Next(s, step).callers| && Next(s, step).callers[c].targets == s.callers[c].targets
  {
    hide DoLook, DoUpdate, DoEndFlush;
    if Enabled(s, step) {
      match step
      case Update(msg) => UpdateKeepsCallers(s, msg, c);
      case Look(d) => LookKeepsTargets(s, d, c);
      case EndFlush(d) => EndFlushKeepsTargets(s, d, c);
      case _ =>
    }
  }

  lemma UpdateKeepsCallers(s: Sys, msg: Message, c: nat)
    requires c < |s.callers|
    ensures c < |DoUpdate(s, msg).callers| && DoUpdate(s, msg).callers[c] == s.callers[c]
  {
    hide ShouldFlushNow;
  }

  lemma LookKeepsTargets(s: Sys, d: nat, c: nat)
    requires At(s, d) && c < |s.callers|
    ensures c < |DoLook(s, d).callers| && DoLook(s, d).callers[c].targets == s.callers[c].targets
  {
    hide ShouldFlushNow;
  }

  lemma EndFlushKeepsTargets(s: Sys, d: nat, c: nat)
    requires Enabled(s, EndFlush(d)) && c < |s.callers|
    ensures c < |DoEndFlush(s, d).callers| && DoEndFlush(s, d).callers[c].targets == s.callers[c].targets
  {
  }

  lemma {:induction false} TargetsStay(states: seq<Sys>, steps: seq<Step>, m: nat, n: nat, c: nat)
    requires Run(states, steps) && m <= n < |states| && c < |states[m].callers|
    ensures c < |states[n].callers| && states[n].callers[c].targets == states[m].callers[c].targets
    decreases n
  {
    hide Next;
    if m < n {
      TargetsStay(states, steps, m, n - 1, c);
      assert Follows(states, steps, n - 1);
      StepKeepsTargets(states[n - 1], steps[n - 1], c);
    }
  }

  /** The call has returned without an error. */
  predicate ReturnedOk(s: Sys, c: nat) {
    c < |s.callers| && s.callers[c].ids == [] && !s.callers[c].err
  }

  lemma {:induction false} PromiseKept(states: seq<Sys>, steps: seq<Step>, m: nat, n: nat, c: nat, id: string)
    requires Run(states, steps) && m <= n < |states| && c < |states[m].callers|
    requires id in states[m].callers[c].targets && ReturnedOk(states[n], c)
    ensures Get(states[n], id).RowVer() >= states[m].callers[c].targets[id]
  {
    TargetsStay(states, steps, m, n, c);
    RunInv(states, steps, n);
    var k := states[n].callers[c];
    assert CallerOk(states[n], k, c);
    assert Promise(Get(states[n], id), k, id, k.targets[id]);
  }

  /** When Flush returns nil, the row is at least as new as every Update of the ID that was
      complete when Flush was called. */
  lemma {:induction false} FlushIsDurable(states: seq<Sys>, steps: seq<Step>, m: nat, n: nat, id: string)
    requires Run(states, steps) && m < n < |states| && steps[m] == Flush(id)
    requires ReturnedOk(states[n], |states[m].callers|)
    ensures Get(states[n], id).RowVer() >= |Get(states[m], id).updates|
  {
    assert Follows(states, steps, m);
    PromiseKept(states, steps, m + 1, n, |states[m].callers|, id);
  }

  /** The same of FlushAll, for every ID at once. */
  lemma {:induction false} FlushAllIsDurable(states: seq<Sys>, steps: seq<Step>, m: nat, n: nat,
                                             ids: seq<string>, id: string)
    requires Run(states, steps) && m < n < |states| && steps[m] == FlushAll(ids) && Enabled(states[m], steps[m])
    requires ReturnedOk(states[n], |states[m].callers|)
    ensures Get(states[n], id).RowVer() >= |Get(states[m], id).updates|
  {
    assert Follows(states, steps, m);
    if id in states[m].entries {
      PromiseKept(states, steps, m + 1, n, |states[m].callers|, id);
    }
  }

  /** The same of an Update that flushes at once, counting the Update itself. */
  lemma {:induction false} TerminalUpdateIsDurable(states: seq<Sys>, steps: seq<Step>, m: nat, n: nat, msg: Message)
    requires Run(states, steps) && m < n < |states| && steps[m] == Update(msg) && FlushesNow(states[m], msg)
    requires ReturnedOk(states[n], |states[m].callers|)
    ensures Get(states[n], msg.id).RowVer() >= |Get(states[m], msg.id).updates| + 1
  {
    assert Follows(states, steps, m);
    PromiseKept(states, steps, m + 1, n, |states[m].callers|, msg.id);
  }

  lemma RestIsStored(e: Entry, pc: Pc)
    requires EntryOk(e, pc)
    ensures e.Row().Some? ==> 1 <= e.RowVer() <= |e.updates| && e.Row().value.msg == e.updates[e.RowVer() - 1]
    ensures e.buf.Some? && !e.Outstanding() ==> e.Row() == Some(e.buf.value.latest)
    ensures e.buf.Some? ==> e.updates != [] && e.buf.value.latest == Snap(e.updates[|e.updates| - 1], |e.updates|)
  {
    hide ShouldFlushNow, Rising, Marked;
    if e.writes != [] {
      assert Genuine(e, e.writes[|e.writes| - 1].snap);
    }
  }

  /** The stored row always is one of the updates, and a buffer that is neither dirty nor
      being flushed agrees with it. */
  lemma {:induction false} CleanMeansStored(states: seq<Sys>, steps: seq<Step>, n: nat, id: string)
    requires Run(states, steps) && n < |states|
    ensures var e := Get(states[n], id);
            && (e.Row().Some? ==> 1 <= e.RowVer() <= |e.updates| && e.Row().value.msg == e.updates[e.RowVer() - 1])
            && (e.buf.Some? && !e.Outstanding() ==> e.Row() == Some(e.buf.value.latest))
            && (e.buf.Some? ==> e.updates != [] && e.buf.value.latest == Snap(e.updates[|e.updates| - 1], |e.updates|))
  {
    RunInv(states, steps, n);
    assert IdOk(id, Get(states[n], id), states[n].callers);
    RestIsStored(Get(states[n], id), WriterPc(Get(states[n], id), states[n].callers));
  }

  // ------------------------------------------------------------------------- order

  predicate WritesNow(s: Sys, c: nat, id: string) {
    At(s, c) && Cur(s, c) == id && s.callers[c].pc.Writing?
  }

  /** One SQL write of an ID at a time, and every successful one newer than the last. */
  lemma {:induction false} WritesNeverReorder(states: seq<Sys>, steps: seq<Step>, n: nat, id: string)
    requires Run(states, steps) && n < |states|
    ensures var ws := Get(states[n], id).writes; forall i, j :: 0 <= i < j < |ws| ==> ws[i].snap.ver < ws[j].snap.ver
    ensures forall c: nat, d: nat :: WritesNow(states[n], c, id) && WritesNow(states[n], d, id) ==> c == d
  {
    RunInv(states, steps, n);
    var s := states[n];
    assert IdOk(id, Get(s, id), s.callers);
    forall c: nat, d: nat | WritesNow(s, c, id) && WritesNow(s, d, id)
      ensures c == d
    {
      OnlyWriter(s, c);
      OnlyWriter(s, d);
    }
  }

  /** A write that failed leaves the newest update buffered and marked for the next flush. */
  lemma {:induction false} FailedWriteKeepsNewest(states: seq<Sys>, steps: seq<Step>, n: nat, c: nat)
    requires Run(states, steps) && n < |steps| && steps[n] == EndFlush(c)
    requires At(states[n], c) && states[n].callers[c].pc.Written? && !states[n].callers[c].pc.ok
    ensures var id := Cur(states[n], c); var e, e' := Get(states[n], id), Get(states[n + 1], id);
            && e'.buf.Some? && e'.buf.value.dirty && !e'.buf.value.flushing
            && e'.updates == e.updates && e'.writes == e.writes && e.updates != []
            && e'.buf.value.latest.msg == e.updates[|e.updates| - 1]
  {
    RunInv(states, steps, n);
    OnlyWriter(states[n], c);
    assert Follows(states, steps, n);
  }

  // ------------------------------------------------------------- lossy publications

  /** What a lossy publication must not change. */
  function Flags(calls: seq<ToolCall>): seq<bool> {
    seq(|calls|, i requires 0 <= i < |calls| => calls[i].finished)
  }

  predicate SameStructure(prev: Option<Snap>, next: Snap) {
    && Flags(CallsBefore(prev)) == Flags(Calls(next.msg.parts))
    && !IsFinished(next.msg.parts)
    && (ReasoningOf(next.msg.parts).finishedAt > 0 ==> ReasoningEndBefore(prev) != 0)
  }

  lemma NotTerminalSameStructure(prev: Option<Snap>, next: Snap)
    ensures !ShouldFlushNow(prev, next) <==> SameStructure(prev, next)
  {
    var before, after := CallsBefore(prev), Calls(next.msg.parts);
    if Flags(before) == Flags(after) {
      assert |before| == |Flags(before)| && |after| == |Flags(after)|;
      forall i | 0 <= i < |after|
        ensures after[i].finished == before[i].finished
      {
        assert Flags(after)[i] == Flags(before)[i];
      }
    }
  }

  lemma {:induction false} LossyStretch(ws: seq<Write>, i: nat, j: nat)
    requires i < j <= |ws|
    requires forall k :: i <= k < j ==> SameStructure(Last(ws[..k]), ws[k].snap)
    ensures SameStructure(Last(ws[..i]), ws[j - 1].snap)
    decreases j
  {
    if i < j - 1 {
      LossyStretch(ws, i, j - 1);
      assert Last(ws[..j - 1]) == Some(ws[j - 2].snap);
      assert SameStructure(Last(ws[..j - 1]), ws[j - 1].snap);
    }
  }

  /** Over any stretch of writes that were all published the lossy way, however long, the
      tool calls, their finished flags and the end of reasoning are those of the write
      before it, and the message is not finished. */
  lemma {:induction false} LossyKeepsStructure(states: seq<Sys>, steps: seq<Step>, n: nat, id: string, i: nat, j: nat)
    requires Run(states, steps) && n < |states|
    requires i < j <= |Get(states[n], id).writes|
    requires forall k :: i <= k < j ==> !Get(states[n], id).writes[k].must
    ensures var ws := Get(states[n], id).writes; SameStructure(Last(ws[..i]), ws[j - 1].snap)
  {
    RunInv(states, steps, n);
    var e := Get(states[n], id);
    assert IdOk(id, e, states[n].callers);
    var ws := e.writes;
    hide ShouldFlushNow, SameStructure, Inv;
    forall k | i <= k < j
      ensures SameStructure(Last(ws[..k]), ws[k].snap)
    {
      assert MarkedAt(ws, k);
      NotTerminalSameStructure(Last(ws[..k]), ws[k].snap);
    }
    LossyStretch(ws, i, j);
  }

  /** What is published has been written, with the delivery its structure calls for. */
  lemma {:induction false} PublishedWasWritten(states: seq<Sys>, steps: seq<Step>, n: nat, c: nat)
    requires Run(states, steps) && n < |states| && At(states[n], c) && states[n].callers[c].pc.Publishing?
    ensures var e := Get(states[n], Cur(states[n], c)); var w := states[n].callers[c].pc.w;
            exists i :: 0 <= i < |e.writes| && e.writes[i] == w
                        && (w.must <==> !SameStructure(Last(e.writes[..i]), w.snap))
  {
    RunInv(states, steps, n);
    var s := states[n];
    var e, w := Get(s, Cur(s, c)), s.callers[c].pc.w;
    assert CallerOk(s, s.callers[c], c) && IdOk(Cur(s, c), e, s.callers);
    hide ShouldFlushNow, SameStructure;
    var i :| 0 <= i < |e.writes| && e.writes[i] == w;
    assert MarkedAt(e.writes, i);
    NotTerminalSameStructure(Last(e.writes[..i]), w.snap);
  }
}
