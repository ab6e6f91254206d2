/**
 internal/cmd/run.go: the stdout cursor of `trapeze run`.
 */
module RunStreams {
  import opened Options
  import opened Text
  import opened Content

  datatype Event =
    | MessageEvent(id: string, sessionID: string, role: Role, parts: seq<Part>)
    | RunComplete(sessionID: string, runID: string, messageID: string, text: string, error: string, cancelled: bool)
    | AgentEvent(sessionID: string, runID: string, failure: Option<string>)
    | OtherEvent

  datatype RunError =
    | ContentShorter(length: nat, read: nat)
    | AgentRunFailed(error: string)
    | AgentFailed(error: string)

  datatype Outcome = Continue | Done | Failed(done: bool, error: RunError)

  /** One write to stdout, with the message that it shows. */
  datatype Write = Write(id: string, text: string)

  function Joined(writes: seq<Write>): string {
    if writes == [] then "" else Joined(writes[..|writes| - 1]) + writes[|writes| - 1].text
  }

  datatype State = State(sessionID: string, runID: string, read: map<string, nat>, printed: bool, writes: seq<Write>)
  {
    function Read(id: string): nat {
      if id in read then read[id] else 0
    }

    /** The part of a content that is due, as it would be written. */
    function Due(id: string, content: string): string
      requires Read(id) <= |content|
    {
      var part := content[Read(id)..];
      if Read(id) == 0 then TrimLeft(part, {' ', '\t'}) else part
    }

    function Wrote(id: string, part: string): State {
      if printed || TrimSpace(part) != "" then this.(printed := true, writes := writes + [Write(id, part)]) else this
    }

    /** A message event shows on stdout only without a run ID. */
    predicate Live(e: Event) {
      e.MessageEvent? && e.sessionID == sessionID && e.role == Assistant && e.parts != [] && runID == ""
    }

    /** The terminal event of this run. */
    predicate Ends(e: Event) {
      e.RunComplete? && if runID != "" then e.runID == runID else e.sessionID == sessionID
    }

    predicate Fails(e: Event) {
      e.AgentEvent? && e.failure.Some?
      && if e.runID != "" then e.runID == runID else e.sessionID != "" && e.sessionID == sessionID
    }

    function Handle(e: Event): (State, Outcome) {
      if Live(e) then
        var content := TextOf(e.parts);
        if |content| < Read(e.id) then (this, Failed(false, ContentShorter(|content|, Read(e.id))))
        else
          var s := Wrote(e.id, Due(e.id, content));
          (s.(read := s.read[e.id := |content|]), Continue)
      else if Ends(e) then
        if e.error != "" && !e.cancelled then (this, Failed(true, AgentRunFailed(e.error)))
        else if e.messageID != "" && Read(e.messageID) < |e.text| then
          (Wrote(e.messageID, Due(e.messageID, e.text)), Done)
        else (this, Done)
      else if Fails(e) then (this, Failed(true, AgentFailed(e.failure.value)))
      else (this, Continue)
    }
  }

  /** The events of a subscription, until the run ends or the channel closes. */
  function Play(s: State, events: seq<Event>): (State, Outcome)
    decreases events
  {
    if events == [] then (s, Continue)
    else
      var (t, o) := s.Handle(events[0]);
      if o.Continue? then Play(t, events[1..]) else (t, o)
  }

  class RunStream {
    const sessionID: string
    const runID: string
    var read: map<string, nat>
    var printed: bool
    var out: string
    /** Which message each write shows; the writer itself sees only the text. */
    ghost var writes: seq<Write>

    ghost predicate Valid()
      reads this
    {
      out == Joined(writes)
    }

    ghost function View(): State
      reads this
    {
      State(sessionID, runID, read, printed, writes)
    }

    constructor (sessionID: string, runID: string)
      ensures Valid() && View() == State(sessionID, runID, map[], false, [])
    {
      this.sessionID, this.runID := sessionID, runID;
      read, printed, out, writes := map[], false, "", [];
    }

    method Print(id: string, part: string)
      requires Valid()
      modifies this
      ensures Valid() && View() == old(View()).Wrote(id, part)
    {
      if printed || TrimSpace(part) != "" {
        printed := true;
        out := out + part;
        writes := writes + [Write(id, part)];
      }
    }

    /** One event.  An error ends the loop of the caller whatever `done` says. */
    method Handle(e: Event) returns (done: bool, err: Option<RunError>)
      requires Valid()
      modifies this
      ensures Valid() && View() == old(View()).Handle(e).0
      ensures (done, err) ==
              match old(View()).Handle(e).1
              case Continue => (false, None)
              case Done => (true, None)
              case Failed(d, error) => (d, Some(error))
    {
      done, err := false, None;
      match e
      case MessageEvent(id, sid, role, parts) =>
        if sid != sessionID || role != Assistant || |parts| == 0 { return; }
        if runID != "" { return; }
        var content := TextOf(parts);
        var readBytes := if id in read then read[id] else 0;
        if |content| < readBytes {
          return false, Some(ContentShorter(|content|, readBytes));
        }
        var part := content[readBytes..];
        if readBytes == 0 {
          part := TrimLeft(part, {' ', '\t'});
        }
        Print(id, part);
        read := read[id := |content|];
      case RunComplete(sid, rid, mid, full, error, cancelled) =>
        if runID != "" {
          if rid != runID { return; }
        } else if sid != sessionID {
          return;
        }
        if error != "" && !cancelled {
          return true, Some(AgentRunFailed(error));
        }
        if mid != "" {
          var readBytes := if mid in read then read[mid] else 0;
          if readBytes < |full| {
            var tail := full[readBytes..];
            if readBytes == 0 {
              tail := TrimLeft(tail, {' ', '\t'});
            }
            Print(mid, tail);
          }
        }
        done := true;
      case AgentEvent(sid, rid, failure) =>
        if failure.None? { return; }
        if rid != "" {
          if rid != runID { return; }
        } else if sid == "" || sid != sessionID {
          return;
        }
        return true, Some(AgentFailed(failure.value));
      case OtherEvent =>
    }

    /** The loop of the caller over the event channel, which closes after these events. */
    method Follow(events: seq<Event>) returns (err: Option<RunError>)
      requires Valid()
      modifies this
      ensures Valid() && View() == Play(old(View()), events).0
      ensures var o := Play(old(View()), events).1;
              err == if o.Failed? then Some(o.error) else None
    {
      err := None;
      for i := 0 to |events|
        invariant Valid() && err.None?
        invariant Play(old(View()), events) == Play(View(), events[i..])
      {
        assert events[i..][0] == events[i] && events[i..][1..] == events[i + 1..];
        var done;
        done, err := Handle(events[i]);
        if err.Some? || done { return; }
      }
    }
  }
}
