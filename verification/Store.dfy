/**
 internal/message/message.go: the debounced write-behind store under every interleaving
 of Update, timer flushes, Flush, FlushAll and failing SQL writes.
 */
module Store {
  import opened Options
  import opened Content
  import opened Pending

  /** A write of a snapshot, and whether its event goes out by the must-deliver path. */
  datatype Write = Write(snap: Snap, must: bool)

  /** Where a call of flushOne is: at its first look, in the SQL write, after it, or about
      to publish (and then perhaps to look again). */
  datatype Pc = Looking | Writing(w: Write) | Written(w: Write, ok: bool) | Publishing(w: Write, again: bool)

  /** A call of Flush, FlushAll, a terminal Update or a timer.
      - ids: the IDs it has still to flush, the current one first
      - targets: for every ID the call promises, how many Updates of it were complete when
        the call began */
  datatype Caller = Caller(sync: bool, ids: seq<string>, targets: map<string, nat>, pc: Pc, err: bool)

  /** One message ID.
      - buf: its pendingState, None before the first Update
      - writes: its successful SQL writes, so the row holds the last of them
      - updates: every message passed to Update
      - writer: the caller in its SQL write */
  datatype Entry = Entry(buf: Option<Buf>, writes: seq<Write>, updates: seq<Message>, writer: Option<nat>)
  {
    function Row(): Option<Snap> {
      Last(writes)
    }

    /** How new the stored row is: 0 while no Update has reached it. */
    function RowVer(): nat {
      if writes == [] then 0 else writes[|writes| - 1].snap.ver
    }

    function LastFlushed(): Option<Snap> {
      if buf.Some? then buf.value.lastFlushed else None
    }

    predicate Outstanding() {
      buf.Some? && (buf.value.dirty || buf.value.flushing)
    }

    function Accept(msg: Message, debounce: bool): Entry {
      var next := Snap(msg, |updates| + 1);
      this.(buf := Some(if buf.Some? then buf.value.Accept(next, debounce) else Fresh(next, debounce)),
            updates := updates + [msg])
    }

    function Start(c: nat): Entry
      requires buf.Some?
    {
      this.(buf := Some(buf.value.StartFlush()), writer := Some(c))
    }

    function Wrote(w: Write, ok: bool): Entry {
      if ok then this.(writes := writes + [w]) else this
    }

    function End(w: Write, ok: bool): Entry
      requires buf.Some?
    {
      this.(buf := Some(buf.value.EndFlush(w.snap, ok)), writer := None)
    }
  }

  const NO_ENTRY := Entry(None, [], [], None)

  datatype Sys = Sys(debounce: bool, entries: map<string, Entry>, callers: seq<Caller>, log: seq<Write>)

  datatype Step =
    | Update(msg: Message)
    | TimerFires(id: string)
    | Flush(id: string)
    | FlushAll(ids: seq<string>)
    | Look(c: nat)
    | SqlWrite(c: nat, ok: bool)
    | EndFlush(c: nat)
    | Publish(c: nat)

  function Init(debounce: bool): Sys {
    Sys(debounce, map[], [], [])
  }

  // ------------------------------------------------------------------------ reading

  function Last(ws: seq<Write>): Option<Snap> {
    if ws == [] then None else Some(ws[|ws| - 1].snap)
  }

  function Get(s: Sys, id: string): Entry {
    if id in s.entries then s.entries[id] else NO_ENTRY
  }

  predicate At(s: Sys, c: nat) {
    c < |s.callers| && s.callers[c].ids != []
  }

  function Cur(s: Sys, c: nat): string
    requires At(s, c)
  {
    s.callers[c].ids[0]
  }

  /** FlushAll walks the outstanding IDs in some order. */
  predicate Lists(s: Sys, ids: seq<string>) {
    && (forall i :: 0 <= i < |ids| ==> Get(s, ids[i]).Outstanding())
    && (forall id :: id in s.entries && Get(s, id).Outstanding() ==> id in ids)
  }

  predicate Enabled(s: Sys, step: Step) {
    match step
    case Update(_) => true
    case TimerFires(_) => true
    case Flush(_) => true
    case FlushAll(ids) => Lists(s, ids)
    case Look(c) => At(s, c) && s.callers[c].pc.Looking?
    case SqlWrite(c, _) => At(s, c) && s.callers[c].pc.Writing?
    case EndFlush(c) => At(s, c) && s.callers[c].pc.Written? && Get(s, Cur(s, c)).buf.Some?
    case Publish(c) => At(s, c) && s.callers[c].pc.Publishing?
  }

  // ----------------------------------------------------------------------- changing

  function Spawn(s: Sys, sync: bool, ids: seq<string>, targets: map<string, nat>): Sys {
    s.(callers := s.callers + [Caller(sync, ids, targets, Looking, false)])
  }

  function Put(s: Sys, c: nat, k: Caller): Sys
    requires c < |s.callers|
  {
    s.(callers := s.callers[c := k])
  }

  /** The current ID is dealt with. */
  function Done(k: Caller, failed: bool): Caller
    requires k.ids != []
  {
    k.(ids := k.ids[1..], pc := Looking, err := k.err || failed)
  }

  function Set(s: Sys, id: string, e: Entry): Sys {
    s.(entries := s.entries[id := e])
  }

  predicate FlushesNow(s: Sys, msg: Message) {
    var e := Get(s, msg.id);
    !s.debounce || ShouldFlushNow(e.LastFlushed(), Snap(msg, |e.updates| + 1))
  }

  function DoUpdate(s: Sys, msg: Message): Sys {
    var e := Get(s, msg.id);
    var s1 := Set(s, msg.id, e.Accept(msg, s.debounce));
    if FlushesNow(s, msg) then Spawn(s1, true, [msg.id], map[msg.id := |e.updates| + 1]) else s1
  }

  function DoLook(s: Sys, c: nat): Sys
    requires At(s, c)
  {
    var k, e := s.callers[c], Get(s, Cur(s, c));
    if e.buf.None? then Put(s, c, Done(k, false))
    else
      match LookAt(e.buf.value)
      case Busy => if k.sync then s else Put(s, c, Done(k, false))
      case Clean => Put(s, c, Done(k, false))
      case Taken(snap, terminal) => Set(Put(s, c, k.(pc := Writing(Write(snap, terminal)))), Cur(s, c), e.Start(c))
  }

  function DoSqlWrite(s: Sys, c: nat, ok: bool): Sys
    requires At(s, c) && s.callers[c].pc.Writing?
  {
    var k := s.callers[c];
    Set(Put(s, c, k.(pc := Written(k.pc.w, ok))), Cur(s, c), Get(s, Cur(s, c)).Wrote(k.pc.w, ok))
  }

  function DoEndFlush(s: Sys, c: nat): Sys
    requires At(s, c) && s.callers[c].pc.Written? && Get(s, Cur(s, c)).buf.Some?
  {
    var k := s.callers[c];
    var e := Get(s, Cur(s, c)).End(k.pc.w, k.pc.ok);
    Set(Put(s, c, if k.pc.ok then k.(pc := Publishing(k.pc.w, e.buf.value.dirty && k.sync)) else Done(k, true)),
        Cur(s, c), e)
  }

  function DoPublish(s: Sys, c: nat): Sys
    requires At(s, c) && s.callers[c].pc.Publishing?
  {
    var k := s.callers[c];
    Put(s, c, if k.pc.again then k.(pc := Looking) else Done(k, false)).(log := s.log + [k.pc.w])
  }

  /** How many Updates of each ID are complete. */
  function Everything(s: Sys): map<string, nat> {
    map id | id in s.entries :: |s.entries[id].updates|
  }

  function Do(s: Sys, step: Step): Sys
    requires Enabled(s, step)
  {
    match step
    case Update(msg) => DoUpdate(s, msg)
    case TimerFires(id) => Spawn(s, false, [id], map[])
    case Flush(id) => Spawn(s, true, [id], map[id := |Get(s, id).updates|])
    case FlushAll(ids) => Spawn(s, true, ids, Everything(s))
    case Look(c) => DoLook(s, c)
    case SqlWrite(c, ok) => DoSqlWrite(s, c, ok)
    case EndFlush(c) => DoEndFlush(s, c)
    case Publish(c) => DoPublish(s, c)
  }

  function Next(s: Sys, step: Step): Sys {
    if Enabled(s, step) then Do(s, step) else s
  }

  predicate Run(states: seq<Sys>, steps: seq<Step>) {
    && |states| == |steps| + 1
    && states[0] == Init(states[0].debounce)
    && forall n :: 0 <= n < |steps| ==> Follows(states, steps, n)
  }

  predicate Follows(states: seq<Sys>, steps: seq<Step>, n: nat)
    requires |states| == |steps| + 1 && n < |steps|
  {
    states[n + 1] == Next(states[n], steps[n])
  }
}
