/**
 internal/message/message.go: the coalescing buffer of one message ID.  `Buf` holds the
 fields of a pendingState as a value with each lock-held section as a function;
 `PendingState` is the struct itself, updated in place and proved against them.
 */
module Pending {
  import opened Options
  import opened Content

  /** A buffered state of the message; `ver` says it is the ver-th Update of its ID. */
  datatype Snap = Snap(msg: Message, ver: nat)

  // ------------------------------------------------------------ terminal snapshots

  function CallsBefore(prev: Option<Snap>): seq<ToolCall> {
    if prev.Some? then Calls(prev.value.msg.parts) else []
  }

  function ReasoningEndBefore(prev: Option<Snap>): nat {
    if prev.Some? then ReasoningOf(prev.value.msg.parts).finishedAt else 0
  }

  /** The structural changes that must not be coalesced away. */
  predicate ShouldFlushNow(prev: Option<Snap>, next: Snap) {
    var before, after := CallsBefore(prev), Calls(next.msg.parts);
    || IsFinished(next.msg.parts)
    || |after| != |before|
    || (exists i :: 0 <= i < |after| && after[i].finished != before[i].finished)
    || (ReasoningOf(next.msg.parts).finishedAt > 0 && ReasoningEndBefore(prev) == 0)
  }

  // ------------------------------------------------------------------- the buffer

  datatype Buf = Buf(latest: Snap, dirty: bool, flushing: bool, timer: bool, lastFlushed: Option<Snap>)
  {
    /** The section in Update that buffers; with debouncing the caller either flushes at
        once or leaves the work to a timer. */
    function Accept(next: Snap, debounce: bool): Buf {
      if !debounce then this.(latest := next, dirty := true)
      else if ShouldFlushNow(lastFlushed, next) then this.(latest := next, dirty := true, timer := false)
      else this.(latest := next, dirty := true, timer := timer || !flushing)
    }

    /** flushOne takes the newest state out to be written. */
    function StartFlush(): Buf {
      this.(flushing := true, dirty := false, timer := false)
    }

    /** flushOne after the write of `snap`. */
    function EndFlush(snap: Snap, ok: bool): Buf {
      if ok then this.(flushing := false, lastFlushed := Some(snap))
      else this.(flushing := false, dirty := true)
    }
  }

  /** A pendingState that Update has just created. */
  function Fresh(next: Snap, debounce: bool): Buf {
    Buf(next, false, false, false, None).Accept(next, debounce)
  }

  /** What the first look of flushOne finds. */
  datatype Look = Busy | Clean | Taken(snap: Snap, terminal: bool)

  function LookAt(b: Buf): Look {
    if b.flushing then Busy
    else if !b.dirty then Clean
    else Taken(b.latest, ShouldFlushNow(b.lastFlushed, b.latest))
  }

  class PendingState {
    var latest: Snap
    var dirty: bool
    var flushing: bool
    var timer: bool
    var lastFlushed: Snap
    var hasFlushed: bool

    function View(): Buf
      reads this
    {
      Buf(latest, dirty, flushing, timer, if hasFlushed then Some(lastFlushed) else None)
    }

    constructor (zero: Snap)
      ensures View() == Buf(zero, false, false, false, None)
    {
      latest, lastFlushed := zero, zero;
      dirty, flushing, timer, hasFlushed := false, false, false, false;
    }

    method Accept(next: Snap, debounce: bool) returns (flush: bool)
      modifies this
      ensures View() == old(View()).Accept(next, debounce)
      ensures flush <==> !debounce || ShouldFlushNow(old(View()).lastFlushed, next)
    {
      latest, dirty := next, true;
      if !debounce {
        return true;
      }
      var prev := if hasFlushed then Some(lastFlushed) else None;
      flush := Terminal(prev, next);
      if flush {
        timer := false;
      } else if !timer && !flushing {
        timer := true;
      }
    }

    method Look() returns (look: Look)
      modifies this
      ensures look == LookAt(old(View()))
      ensures View() == if look.Taken? then old(View()).StartFlush() else old(View())
    {
      if flushing {
        return Busy;
      }
      if !dirty {
        return Clean;
      }
      timer := false;
      var snap := latest;
      var terminal := Terminal(if hasFlushed then Some(lastFlushed) else None, snap);
      flushing, dirty := true, false;
      return Taken(snap, terminal);
    }

    method EndFlush(snap: Snap, ok: bool) returns (wasDirty: bool)
      modifies this
      ensures View() == old(View()).EndFlush(snap, ok) && wasDirty == dirty
    {
      flushing := false;
      if ok {
        lastFlushed, hasFlushed := snap, true;
      } else {
        dirty := true;
      }
      wasDirty := dirty;
    }

    /** shouldFlushNow, with its loop over the tool calls. */
    static method Terminal(prev: Option<Snap>, next: Snap) returns (terminal: bool)
      ensures terminal <==> ShouldFlushNow(prev, next)
    {
      if IsFinished(next.msg.parts) {
        return true;
      }
      var prevCalls, nextCalls := CallsBefore(prev), Calls(next.msg.parts);
      if |nextCalls| != |prevCalls| {
        return true;
      }
      for i := 0 to |nextCalls|
        invariant forall j :: 0 <= j < i ==> nextCalls[j].finished == prevCalls[j].finished
      {
        if nextCalls[i].finished != prevCalls[i].finished {
          return true;
        }
      }
      return ReasoningOf(next.msg.parts).finishedAt > 0 && ReasoningEndBefore(prev) == 0;
    }
  }
}
