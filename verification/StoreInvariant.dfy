/**
 What every reachable state of the write-behind store satisfies.
 */
module StoreInvariant {
  import opened Options
  import opened Content
  import opened Pending
  import opened Store

  // ------------------------------------------------------------------ one message ID

  /** The snapshot is the update it says it is. */
  predicate Genuine(e: Entry, snap: Snap) {
    1 <= snap.ver <= |e.updates| && snap.msg == e.updates[snap.ver - 1]
  }

  /** Successful writes: newer and newer updates, each marked against the one before. */
  predicate WritesOk(e: Entry) {
    AllGenuine(e) && Rising(e.writes) && Marked(e.writes)
  }

  predicate AllGenuine(e: Entry) {
    forall i :: 0 <= i < |e.writes| ==> Genuine(e, e.writes[i].snap)
  }

  predicate Rising(ws: seq<Write>) {
    forall i, j :: 0 <= i < j < |ws| ==> ws[i].snap.ver < ws[j].snap.ver
  }

  predicate Marked(ws: seq<Write>) {
    forall i :: 0 <= i < |ws| ==> MarkedAt(ws, i)
  }

  predicate MarkedAt(ws: seq<Write>, i: nat)
    requires i < |ws|
  {
    ws[i].must <==> ShouldFlushNow(Last(ws[..i]), ws[i].snap)
  }

  /** Nobody is flushing: clean exactly when the row is up to date. */
  predicate RestOk(e: Entry, b: Buf) {
    && e.writer.None?
    && (b.dirty <==> e.RowVer() < |e.updates|)
    && b.lastFlushed == e.Row()
  }

  /** A caller at `pc` is flushing: dirty exactly when an update arrived after its snapshot. */
  predicate FlushOk(e: Entry, b: Buf, pc: Pc) {
    && e.writer.Some?
    && (pc.Writing? || pc.Written?)
    && Genuine(e, pc.w.snap)
    && (b.dirty <==> pc.w.snap.ver < |e.updates|)
    && if pc.Written? && pc.ok then
         e.writes != [] && e.writes[|e.writes| - 1] == pc.w && b.lastFlushed == Last(e.writes[..|e.writes| - 1])
       else
         && e.RowVer() < pc.w.snap.ver && b.lastFlushed == e.Row()
         && (pc.w.must <==> ShouldFlushNow(b.lastFlushed, pc.w.snap))
  }

  predicate EntryOk(e: Entry, pc: Pc) {
    && WritesOk(e)
    && if e.buf.None? then e == NO_ENTRY
       else
         && e.updates != []
         && e.buf.value.latest == Snap(e.updates[|e.updates| - 1], |e.updates|)
         && if e.buf.value.flushing then FlushOk(e, e.buf.value, pc) else RestOk(e, e.buf.value)
  }

  lemma RowBehind(e: Entry, pc: Pc)
    requires EntryOk(e, pc)
    ensures e.RowVer() <= |e.updates|
  {
  }

  /** The writes stay, the updates may grow. */
  lemma WritesKept(e: Entry, e': Entry)
    requires WritesOk(e) && e'.writes == e.writes && e.updates <= e'.updates
    ensures WritesOk(e')
  {
    hide Rising, Marked;
    forall i | 0 <= i < |e'.writes|
      ensures Genuine(e', e'.writes[i].snap)
    {
      assert Genuine(e, e.writes[i].snap);
    }
  }

  lemma AcceptOk(e: Entry, pc: Pc, msg: Message, debounce: bool)
    requires EntryOk(e, pc)
    ensures EntryOk(e.Accept(msg, debounce), pc)
  {
    hide ShouldFlushNow, WritesOk;
    WritesKept(e, e.Accept(msg, debounce));
    RowBehind(e, pc);
    if e.buf.Some? && e.buf.value.flushing {
      assert Genuine(e, pc.w.snap);
    }
  }

  lemma StartOk(e: Entry, pc: Pc, c: nat)
    requires EntryOk(e, pc) && e.buf.Some? && LookAt(e.buf.value).Taken?
    ensures var l := LookAt(e.buf.value);
            EntryOk(e.Start(c), Writing(Write(l.snap, l.terminal)))
  {
    hide ShouldFlushNow, WritesOk;
    WritesKept(e, e.Start(c));
  }

  lemma AppendRising(ws: seq<Write>, w: Write)
    requires Rising(ws) && (ws != [] ==> ws[|ws| - 1].snap.ver < w.snap.ver)
    ensures Rising(ws + [w])
  {
  }

  lemma AppendMarked(ws: seq<Write>, w: Write)
    requires Marked(ws) && (w.must <==> ShouldFlushNow(Last(ws), w.snap))
    ensures Marked(ws + [w])
  {
    hide ShouldFlushNow;
    forall i | 0 <= i < |ws + [w]|
      ensures MarkedAt(ws + [w], i)
    {
      assert (ws + [w])[..i] == ws[..i];
      if i < |ws| {
        assert MarkedAt(ws, i);
      } else {
        assert ws[..i] == ws;
      }
    }
  }

  lemma AppendWriteOk(e: Entry, w: Write, e': Entry)
    requires WritesOk(e) && Genuine(e, w.snap) && e.RowVer() < w.snap.ver
    requires w.must <==> ShouldFlushNow(e.Row(), w.snap)
    requires e' == e.(writes := e.writes + [w])
    ensures WritesOk(e')
  {
    hide ShouldFlushNow, Rising, Marked;
    AppendRising(e.writes, w);
    AppendMarked(e.writes, w);
    forall i | 0 <= i < |e'.writes|
      ensures Genuine(e', e'.writes[i].snap)
    {
      if i < |e.writes| { assert Genuine(e, e.writes[i].snap); }
    }
  }

  lemma WroteOk(e: Entry, w: Write, ok: bool)
    requires EntryOk(e, Writing(w)) && e.buf.Some? && e.buf.value.flushing
    ensures EntryOk(e.Wrote(w, ok), Written(w, ok))
    ensures e.RowVer() <= e.Wrote(w, ok).RowVer()
  {
    hide ShouldFlushNow, WritesOk;
    var e' := e.Wrote(w, ok);
    if ok {
      AppendWriteOk(e, w, e');
      assert e'.writes[..|e.writes|] == e.writes;
    }
    assert Genuine(e', w.snap);
  }

  lemma EndOk(e: Entry, w: Write, ok: bool, pc: Pc)
    requires EntryOk(e, Written(w, ok)) && e.buf.Some? && e.buf.value.flushing
    ensures EntryOk(e.End(w, ok), pc)
  {
    hide ShouldFlushNow, WritesOk;
    WritesKept(e, e.End(w, ok));
  }

  // ---------------------------------------------------------------------- the store

  function WriterPc(e: Entry, callers: seq<Caller>): Pc {
    if e.writer.Some? && e.writer.value < |callers| then callers[e.writer.value].pc else Looking
  }

  /** The writer of an ID has it as its current one. */
  predicate IdOk(id: string, e: Entry, callers: seq<Caller>) {
    && EntryOk(e, WriterPc(e, callers))
    && (e.writer.Some? ==> e.writer.value < |callers| && callers[e.writer.value].ids != []
                           && callers[e.writer.value].ids[0] == id)
  }

  /** A promise is kept, failed, or still ahead. */
  predicate Promise(e: Entry, k: Caller, id: string, target: nat) {
    k.err || e.RowVer() >= target || (id in k.ids && target <= |e.updates|)
  }

  predicate CallerOk(s: Sys, k: Caller, c: nat) {
    && (forall id :: id in k.targets ==> Promise(Get(s, id), k, id, k.targets[id]))
    && (!k.sync ==> k.targets == map[])
    && (k.pc.Writing? || k.pc.Written? ==> k.ids != [] && Get(s, k.ids[0]).writer == Some(c))
    && (k.pc.Publishing? ==>
          k.ids != [] && k.pc.w in Get(s, k.ids[0]).writes
          && (!k.pc.again && k.ids[0] in k.targets ==> k.err || Get(s, k.ids[0]).RowVer() >= k.targets[k.ids[0]]))
  }

  ghost predicate Inv(s: Sys) {
    && (forall id :: IdOk(id, Get(s, id), s.callers))
    && (forall c :: 0 <= c < |s.callers| ==> CallerOk(s, s.callers[c], c))
  }

  /** Updates and rows of an ID only go forward. */
  predicate Forward(e: Entry, e': Entry) {
    && |e.updates| <= |e'.updates| && e.RowVer() <= e'.RowVer() && e.writes <= e'.writes
  }

  lemma OtherCaller(s: Sys, s': Sys, x: string, d: nat, k: Caller)
    requires CallerOk(s, k, d)
    requires forall y :: y != x ==> Get(s', y) == Get(s, y)
    requires Forward(Get(s, x), Get(s', x))
    requires Get(s, x).writer == Some(d) ==> Get(s', x).writer == Some(d)
    ensures CallerOk(s', k, d)
  {
    forall id | id in k.targets
      ensures Promise(Get(s', id), k, id, k.targets[id])
    {
      assert Promise(Get(s, id), k, id, k.targets[id]);
    }
    var e, e' := Get(s, x), Get(s', x);
    assert forall w :: w in e.writes ==> w in e'.writes by {
      assert e'.writes[..|e.writes|] == e.writes;
    }
  }

  /** A step on ID x by caller c, who becomes k'. */
  lemma StepOn(s: Sys, s': Sys, x: string, c: nat, k': Caller)
    requires Inv(s) && c < |s.callers| && s'.callers == s.callers[c := k']
    requires forall y :: y != x ==> Get(s', y) == Get(s, y)
    requires forall y :: y != x ==> Get(s, y).writer != Some(c)
    requires IdOk(x, Get(s', x), s'.callers) && CallerOk(s', k', c)
    requires Forward(Get(s, x), Get(s', x))
    requires Get(s, x).writer.Some? && Get(s, x).writer != Some(c) ==> Get(s', x).writer == Get(s, x).writer
    ensures Inv(s')
  {
    hide EntryOk, CallerOk;
    forall y
      ensures IdOk(y, Get(s', y), s'.callers)
    {
      assert IdOk(y, Get(s, y), s.callers);
    }
    forall d | 0 <= d < |s.callers|
      ensures CallerOk(s', s'.callers[d], d)
    {
      if d != c { OtherCaller(s, s', x, d, s.callers[d]); }
    }
  }

  lemma SpawnInv(s: Sys, sync: bool, ids: seq<string>, targets: map<string, nat>)
    requires Inv(s) && (!sync ==> targets == map[])
    requires forall id :: id in targets ==>
               Get(s, id).RowVer() >= targets[id] || (id in ids && targets[id] <= |Get(s, id).updates|)
    ensures Inv(Spawn(s, sync, ids, targets))
  {
    var s' := Spawn(s, sync, ids, targets);
    forall y
      ensures IdOk(y, Get(s', y), s'.callers)
    {
      assert IdOk(y, Get(s, y), s.callers);
    }
    forall d | 0 <= d < |s.callers|
      ensures CallerOk(s', s'.callers[d], d)
    {
      OtherCaller(s, s', "", d, s.callers[d]);
    }
  }

  /** The caller a writer field names is in its write. */
  lemma NotWriting(s: Sys, c: nat)
    requires Inv(s) && c < |s.callers| && !s.callers[c].pc.Writing? && !s.callers[c].pc.Written?
    ensures forall y :: Get(s, y).writer != Some(c)
  {
    forall y
      ensures Get(s, y).writer != Some(c)
    {
      assert IdOk(y, Get(s, y), s.callers);
    }
  }

  lemma OnlyWriter(s: Sys, c: nat)
    requires Inv(s) && At(s, c) && (s.callers[c].pc.Writing? || s.callers[c].pc.Written?)
    ensures var e := Get(s, Cur(s, c));
            e.writer == Some(c) && e.buf.Some? && e.buf.value.flushing && EntryOk(e, s.callers[c].pc)
    ensures forall y :: y != Cur(s, c) ==> Get(s, y).writer != Some(c)
  {
    assert CallerOk(s, s.callers[c], c);
    assert IdOk(Cur(s, c), Get(s, Cur(s, c)), s.callers);
    forall y | y != Cur(s, c)
      ensures Get(s, y).writer != Some(c)
    {
      assert IdOk(y, Get(s, y), s.callers);
    }
  }

  // --------------------------------------------------------------------- the steps

  lemma AcceptInv(s: Sys, msg: Message)
    requires Inv(s)
    ensures Inv(Set(s, msg.id, Get(s, msg.id).Accept(msg, s.debounce)))
  {
    hide EntryOk, Fresh;
    var x, e := msg.id, Get(s, msg.id);
    var s' := Set(s, x, e.Accept(msg, s.debounce));
    assert IdOk(x, e, s.callers);
    AcceptOk(e, WriterPc(e, s.callers), msg, s.debounce);
    forall y
      ensures IdOk(y, Get(s', y), s'.callers)
    {
      assert IdOk(y, Get(s, y), s.callers);
    }
    forall d | 0 <= d < |s.callers|
      ensures CallerOk(s', s'.callers[d], d)
    {
      OtherCaller(s, s', x, d, s.callers[d]);
    }
  }

  lemma UpdateInv(s: Sys, msg: Message)
    requires Inv(s)
    ensures Inv(DoUpdate(s, msg))
  {
    hide Inv, Fresh;
    AcceptInv(s, msg);
    if FlushesNow(s, msg) {
      SpawnInv(Set(s, msg.id, Get(s, msg.id).Accept(msg, s.debounce)), true, [msg.id],
               map[msg.id := |Get(s, msg.id).updates| + 1]);
    }
  }

  lemma FlushAllInv(s: Sys, ids: seq<string>)
    requires Inv(s) && Lists(s, ids)
    ensures Inv(Spawn(s, true, ids, Everything(s)))
  {
    var targets := Everything(s);
    forall id | id in targets
      ensures Get(s, id).RowVer() >= targets[id] || (id in ids && targets[id] <= |Get(s, id).updates|)
    {
      assert IdOk(id, Get(s, id), s.callers);
    }
    SpawnInv(s, true, ids, targets);
  }

  /** Leaving an ID whose promise is kept or failed. */
  lemma DoneOk(s: Sys, k: Caller, c: nat, failed: bool)
    requires CallerOk(s, k, c) && k.ids != []
    requires failed || (k.ids[0] in k.targets ==> k.err || Get(s, k.ids[0]).RowVer() >= k.targets[k.ids[0]])
    ensures CallerOk(s, Done(k, failed), c)
  {
    forall id | id in k.targets
      ensures Promise(Get(s, id), Done(k, failed), id, k.targets[id])
    {
      assert Promise(Get(s, id), k, id, k.targets[id]);
      assert id in k.ids ==> id == k.ids[0] || id in k.ids[1..];
    }
  }

  lemma LeaveInv(s: Sys, c: nat)
    requires Inv(s) && At(s, c) && s.callers[c].pc.Looking?
    requires var e := Get(s, Cur(s, c)); e.Outstanding() ==> !s.callers[c].sync
    ensures Inv(Put(s, c, Done(s.callers[c], false)))
  {
    var x, e, k := Cur(s, c), Get(s, Cur(s, c)), s.callers[c];
    var s' := Put(s, c, Done(k, false));
    NotWriting(s, c);
    assert IdOk(x, e, s.callers) && CallerOk(s, k, c);
    assert x in k.targets ==> Promise(e, k, x, k.targets[x]);
    DoneOk(s, k, c, false);
    OtherCaller(s, s', x, c, Done(k, false));
    StepOn(s, s', x, c, Done(k, false));
  }

  lemma TakeInv(s: Sys, c: nat)
    requires Inv(s) && At(s, c) && s.callers[c].pc.Looking?
    requires var e := Get(s, Cur(s, c)); e.buf.Some? && LookAt(e.buf.value).Taken?
    ensures Inv(DoLook(s, c))
  {
    var x, e, k, s' := Cur(s, c), Get(s, Cur(s, c)), s.callers[c], DoLook(s, c);
    NotWriting(s, c);
    assert IdOk(x, e, s.callers) && CallerOk(s, k, c);
    StartOk(e, WriterPc(e, s.callers), c);
    forall id | id in k.targets
      ensures Promise(Get(s', id), s'.callers[c], id, k.targets[id])
    {
      assert Promise(Get(s, id), k, id, k.targets[id]);
    }
    StepOn(s, s', x, c, s'.callers[c]);
  }

  lemma LookInv(s: Sys, c: nat)
    requires Inv(s) && At(s, c) && s.callers[c].pc.Looking?
    ensures Inv(DoLook(s, c))
  {
    var e := Get(s, Cur(s, c));
    if e.buf.Some? && LookAt(e.buf.value).Taken? {
      TakeInv(s, c);
    } else if !(e.buf.Some? && LookAt(e.buf.value).Busy? && s.callers[c].sync) {
      LeaveInv(s, c);
    }
  }

  lemma SqlWriteInv(s: Sys, c: nat, ok: bool)
    requires Inv(s) && At(s, c) && s.callers[c].pc.Writing?
    ensures Inv(DoSqlWrite(s, c, ok))
  {
    hide EntryOk;
    var x, e, k, s' := Cur(s, c), Get(s, Cur(s, c)), s.callers[c], DoSqlWrite(s, c, ok);
    OnlyWriter(s, c);
    WroteOk(e, k.pc.w, ok);
    assert CallerOk(s, k, c);
    forall id | id in k.targets
      ensures Promise(Get(s', id), s'.callers[c], id, k.targets[id])
    {
      assert Promise(Get(s, id), k, id, k.targets[id]);
    }
    StepOn(s, s', x, c, s'.callers[c]);
  }

  lemma EndFlushInv(s: Sys, c: nat)
    requires Inv(s) && At(s, c) && s.callers[c].pc.Written?
    ensures Get(s, Cur(s, c)).buf.Some? && Inv(DoEndFlush(s, c))
  {
    var x, e, k := Cur(s, c), Get(s, Cur(s, c)), s.callers[c];
    OnlyWriter(s, c);
    var s' := DoEndFlush(s, c);
    EndOk(e, k.pc.w, k.pc.ok, WriterPc(Get(s', x), s'.callers));
    EndFlushCallerOk(s, c);
    StepOn(s, s', x, c, s'.callers[c]);
  }

  /** Right after a good write that nothing overtook, the row is as new as any promise. */
  lemma WrittenKeeps(e: Entry, w: Write)
    requires EntryOk(e, Written(w, true)) && e.buf.Some? && e.buf.value.flushing
    ensures w in e.writes && e.RowVer() == w.snap.ver
    ensures !e.buf.value.dirty ==> e.RowVer() == |e.updates|
  {
    assert e.writes[|e.writes| - 1] == w;
  }

  lemma EndFlushCallerOk(s: Sys, c: nat)
    requires Inv(s) && At(s, c) && s.callers[c].pc.Written? && Get(s, Cur(s, c)).buf.Some?
    requires EntryOk(Get(s, Cur(s, c)), s.callers[c].pc) && Get(s, Cur(s, c)).buf.value.flushing
    ensures CallerOk(DoEndFlush(s, c), DoEndFlush(s, c).callers[c], c)
  {
    hide EntryOk;
    var x, k, s' := Cur(s, c), s.callers[c], DoEndFlush(s, c);
    var e := Get(s, x);
    if k.pc.ok { WrittenKeeps(e, k.pc.w); }
    assert CallerOk(s, k, c);
    assert IdOk(x, e, s.callers);
    assert forall y :: Get(s', y).RowVer() == Get(s, y).RowVer() && Get(s', y).updates == Get(s, y).updates;
    forall id | id in k.targets
      ensures Promise(Get(s', id), s'.callers[c], id, k.targets[id])
    {
      assert Promise(Get(s, id), k, id, k.targets[id]);
      assert id in k.ids ==> id == x || id in k.ids[1..];
    }
    assert x in k.targets ==> Promise(e, k, x, k.targets[x]);
  }

  lemma PublishInv(s: Sys, c: nat)
    requires Inv(s) && At(s, c) && s.callers[c].pc.Publishing?
    ensures Inv(DoPublish(s, c))
  {
    var x, k, s' := Cur(s, c), s.callers[c], DoPublish(s, c);
    NotWriting(s, c);
    assert IdOk(x, Get(s, x), s.callers) && CallerOk(s, k, c);
    if !k.pc.again {
      DoneOk(s, k, c, false);
    } else {
      forall id | id in k.targets
        ensures Promise(Get(s, id), s'.callers[c], id, k.targets[id])
      {
        assert Promise(Get(s, id), k, id, k.targets[id]);
      }
    }
    OtherCaller(s, s', x, c, s'.callers[c]);
    StepOn(s, s', x, c, s'.callers[c]);
  }

  lemma StepInv(s: Sys, step: Step)
    requires Inv(s)
    ensures Inv(Next(s, step))
  {
    if Enabled(s, step) {
      match step
      case Update(msg) => UpdateInv(s, msg);
      case TimerFires(id) => SpawnInv(s, false, [id], map[]);
      case Flush(id) => SpawnInv(s, true, [id], map[id := |Get(s, id).updates|]);
      case FlushAll(ids) => FlushAllInv(s, ids);
      case Look(c) => LookInv(s, c);
      case SqlWrite(c, ok) => SqlWriteInv(s, c, ok);
      case EndFlush(c) => EndFlushInv(s, c);
      case Publish(c) => PublishInv(s, c);
    }
  }

  lemma {:induction false} RunInv(states: seq<Sys>, steps: seq<Step>, n: nat)
    requires Run(states, steps) && n < |states|
    ensures Inv(states[n])
  {
    if n > 0 {
      hide Next, Inv;
      RunInv(states, steps, n - 1);
      assert Follows(states, steps, n - 1);
      StepInv(states[n - 1], steps[n - 1]);
    }
  }
}
