/**
 internal/cmd/run.go: what stdout holds after any run of events.
 */
module RunStreamTheorems {
  import opened Options
  import opened Text
  import opened Content
  import opened RunStreams

  /** All that was written for one message, in order. */
  function Written(writes: seq<Write>, id: string): string {
    if writes == [] then ""
    else
      var w := writes[|writes| - 1];
      Written(writes[..|writes| - 1], id) + if w.id == id then w.text else ""
  }

  /** The last content of a message that the stream was shown. */
  function Seen(s: State, events: seq<Event>, id: string): string {
    if events == [] then ""
    else
      var e := events[|events| - 1];
      if s.Live(e) && e.id == id then TextOf(e.parts) else Seen(s, events[..|events| - 1], id)
  }

  /** Each content extends the one before it, message by message. */
  predicate Growing(s: State, events: seq<Event>) {
    forall k :: 0 <= k < |events| && s.Live(events[k]) ==> Seen(s, events[..k], events[k].id) <= TextOf(events[k].parts)
  }

  /** No event ends the run or fails it. */
  predicate Quiet(s: State, events: seq<Event>) {
    forall e <- events :: !s.Ends(e) && !s.Fails(e)
  }

  predicate Fresh(s: State) {
    s.read == map[] && !s.printed && s.writes == []
  }

  predicate Cut(written: string, full: string, k: nat) {
    k <= |full| && written == full[k..] && Blank(full[..k])
  }

  /** The full text but for a prefix of white space. */
  ghost predicate MinusBlank(written: string, full: string) {
    exists k: nat :: Cut(written, full, k)
  }

  // ----------------------------------------------------------------- one write

  lemma BlankConcat(a: string, b: string)
    ensures Blank(a + b) <==> Blank(a) && Blank(b)
  {
    assert forall i :: 0 <= i < |b| ==> (a + b)[|a| + i] == b[i];
    assert forall i :: 0 <= i < |a| ==> (a + b)[i] == a[i];
  }

  lemma WrittenSnoc(writes: seq<Write>, w: Write, id: string)
    ensures Written(writes + [w], id) == Written(writes, id) + if w.id == id then w.text else ""
  {
    assert (writes + [w])[..|writes|] == writes;
  }

  /** What is due of a content that extends the content seen, joined to what was written, is
      again the content but for blanks; and nothing is lost when it is blank itself. */
  lemma DueCompletes(s: State, id: string, seen: string, content: string, written: string)
    requires seen <= content && s.Read(id) == |seen| && MinusBlank(written, seen)
    ensures MinusBlank(written + s.Due(id, content), content)
    ensures Blank(s.Due(id, content)) && written == "" ==> Blank(content)
  {
    var k: nat :| Cut(written, seen, k);
    assert content == seen + content[|seen|..];
    if |seen| == 0 {
      var j := TrimLeftCuts(content[0..], {' ', '\t'});
      assert Cut(written + s.Due(id, content), content, j);
      assert content == content[..j] + content[j..];
      BlankConcat(content[..j], content[j..]);
    } else {
      assert content[..k] == seen[..k];
      assert Cut(written + s.Due(id, content), content, k);
      if written == "" {
        assert seen[..k] == seen;
        BlankConcat(seen, content[|seen|..]);
      }
    }
  }

  // ----------------------------------------------------------------- whole runs

  /** What the cursor knows, for one message. */
  ghost predicate Tracks(t: State, seen: string, id: string) {
    && t.Read(id) == |seen|
    && MinusBlank(Written(t.writes, id), seen)
    && (!t.printed ==> t.writes == [])
  }

  /** After the due part of a content was written, that content is there but for blanks. */
  lemma WroteDue(t: State, id: string, seen: string, content: string)
    requires Tracks(t, seen, id) && seen <= content
    ensures var t' := t.Wrote(id, t.Due(id, content));
            && MinusBlank(Written(t'.writes, id), content)
            && (!t'.printed ==> t'.writes == [])
  {
    var part := t.Due(id, content);
    DueCompletes(t, id, seen, content, Written(t.writes, id));
    hide MinusBlank;
    TrimSpaceEmpty(part);
    if t.printed || !Blank(part) {
      WrittenSnoc(t.writes, Write(id, part), id);
    } else {
      AllBlank(content);
    }
  }

  lemma AllBlank(content: string)
    requires Blank(content)
    ensures MinusBlank("", content)
  {
    assert content[|content|..] == "" && content[..|content|] == content;
    assert Cut("", content, |content|);
  }

  lemma WroteOther(t: State, id: string, part: string, other: string)
    requires id != other
    ensures Written(t.Wrote(id, part).writes, other) == Written(t.writes, other)
  {
    hide TrimSpace;
    WrittenSnoc(t.writes, Write(id, part), other);
    assert Written(t.writes, other) + "" == Written(t.writes, other);
  }

  lemma LiveStep(t: State, e: Event, seen: string)
    requires t.Live(e) && Tracks(t, seen, e.id) && seen <= TextOf(e.parts)
    ensures t.Handle(e).1.Continue? && Tracks(t.Handle(e).0, TextOf(e.parts), e.id)
  {
    WroteDue(t, e.id, seen, TextOf(e.parts));
    hide MinusBlank, Written, Blank, TrimSpace, TrimLeft;
  }

  lemma OtherStep(t: State, e: Event, seen: string, id: string)
    requires !t.Ends(e) && !t.Fails(e) && Tracks(t, seen, id)
    requires t.Live(e) ==> e.id != id && t.Read(e.id) <= |TextOf(e.parts)|
    ensures t.Handle(e).1.Continue? && Tracks(t.Handle(e).0, seen, id)
  {
    if t.Live(e) {
      WroteOther(t, e.id, t.Due(e.id, TextOf(e.parts)), id);
    }
  }

  /** Handling is one event after the other. */
  lemma {:induction false} PlaySnoc(s: State, events: seq<Event>, e: Event)
    requires Play(s, events).1.Continue?
    ensures Play(s, events + [e]) == Play(s, events).0.Handle(e)
    decreases events
  {
    if events == [] {
      assert ([e])[1..] == [];
    } else {
      assert (events + [e])[1..] == events[1..] + [e];
      PlaySnoc(s.Handle(events[0]).0, events[1..], e);
    }
  }

  /** Quiet, growing events never stop the stream, and for every message stdout holds what was
      seen of it but for leading blanks. */
  lemma {:induction false} QuietRun(s: State, events: seq<Event>)
    requires Fresh(s) && Quiet(s, events) && Growing(s, events)
    ensures Play(s, events).1.Continue?
    ensures Play(s, events).0.sessionID == s.sessionID && Play(s, events).0.runID == s.runID
    ensures forall id :: Tracks(Play(s, events).0, Seen(s, events, id), id)
  {
    if events == [] {
      assert Cut("", "", 0);
      assert forall id :: Written(s.writes, id) == "";
    } else {
      hide Tracks, Seen, Growing, Play;
      var n := |events| - 1;
      var e := events[n];
      GrowingFront(s, events);
      QuietRun(s, events[..n]);
      assert events[..n] + [e] == events;
      var t := Play(s, events[..n]).0;
      PlaySnoc(s, events[..n], e);
      SameEvents(s, t, e);
      forall id
        ensures t.Handle(e).1.Continue? && Tracks(t.Handle(e).0, Seen(s, events, id), id)
      {
        OneMoreSeen(s, events, t, id);
      }
    }
  }

  lemma GrowingFront(s: State, events: seq<Event>)
    requires events != [] && Growing(s, events)
    ensures Growing(s, events[..|events| - 1])
    ensures var e := events[|events| - 1];
            s.Live(e) ==> Seen(s, events[..|events| - 1], e.id) <= TextOf(e.parts)
  {
    var n := |events| - 1;
    assert forall k :: 0 <= k < n ==> events[..n][..k] == events[..k];
  }

  lemma SameEvents(s: State, t: State, e: Event)
    requires s.sessionID == t.sessionID && s.runID == t.runID
    ensures s.Live(e) == t.Live(e) && s.Ends(e) == t.Ends(e) && s.Fails(e) == t.Fails(e)
    ensures t.Handle(e).0.sessionID == s.sessionID && t.Handle(e).0.runID == s.runID
  {
  }

  lemma OneMoreSeen(s: State, events: seq<Event>, t: State, id: string)
    requires events != []
    requires var e := events[|events| - 1];
             var front := events[..|events| - 1];
             && s.sessionID == t.sessionID && s.runID == t.runID
             && !t.Ends(e) && !t.Fails(e)
             && Tracks(t, Seen(s, front, id), id)
             && (t.Live(e) ==> Tracks(t, Seen(s, front, e.id), e.id) && Seen(s, front, e.id) <= TextOf(e.parts))
    ensures var e := events[|events| - 1];
            t.Handle(e).1.Continue? && Tracks(t.Handle(e).0, Seen(s, events, id), id)
  {
    var e := events[|events| - 1];
    var front := events[..|events| - 1];
    SameEvents(s, t, e);
    if t.Live(e) && e.id == id {
      LiveStep(t, e, Seen(s, front, id));
    } else {
      OtherStep(t, e, Seen(s, front, id), id);
    }
  }

  /** Whatever the chunks, and whether or not the last message event came: when the run ends in
      an event whose text extends what was seen, stdout holds that text but for leading blanks,
      and every other message as far as it was seen. */
  lemma StdoutIsTheFinalText(s: State, events: seq<Event>, e: Event, id: string)
    requires Fresh(s) && Quiet(s, events) && Growing(s, events)
    requires s.Ends(e) && !(e.error != "" && !e.cancelled)
    requires e.messageID != "" ==> Seen(s, events, e.messageID) <= e.text
    ensures var (t, o) := Play(s, events + [e]);
            && o.Done?
            && MinusBlank(Written(t.writes, id),
                          if e.messageID != "" && id == e.messageID then e.text else Seen(s, events, id))
  {
    hide Growing, Play, Seen, Written;
    QuietRun(s, events);
    PlaySnoc(s, events, e);
    var t := Play(s, events).0;
    SameEvents(s, t, e);
    assert Tracks(t, Seen(s, events, id), id);
    if e.messageID != "" {
      assert Tracks(t, Seen(s, events, e.messageID), e.messageID);
      EndStep(t, e, Seen(s, events, e.messageID), Seen(s, events, id), id);
    }
  }

  lemma EndStep(t: State, e: Event, last: string, seen: string, id: string)
    requires t.Ends(e) && !(e.error != "" && !e.cancelled) && e.messageID != ""
    requires last <= e.text && Tracks(t, last, e.messageID) && Tracks(t, seen, id)
    ensures t.Handle(e).1.Done?
    ensures MinusBlank(Written(t.Handle(e).0.writes, id), if id == e.messageID then e.text else seen)
  {
    hide MinusBlank, Written, Blank, TrimSpace, TrimLeft;
    if |last| == |e.text| {
      assert last == e.text;
    } else {
      WroteDue(t, e.messageID, last, e.text);
      if id != e.messageID {
        WroteOther(t, e.messageID, t.Due(e.messageID, e.text), id);
      }
    }
  }

  // ------------------------------------------------------------------ foreign events

  predicate Own(s: State, e: Event) {
    s.Live(e) || s.Ends(e) || s.Fails(e)
  }

  function OwnEvents(s: State, events: seq<Event>): seq<Event> {
    if events == [] then []
    else (if Own(s, events[0]) then [events[0]] else []) + OwnEvents(s, events[1..])
  }

  /** Events of other sessions, runs, roles and kinds can be dropped from any run: stdout, cursor
      and outcome are the same. */
  lemma {:induction false} ForeignEventsChangeNothing(s: State, events: seq<Event>)
    ensures Play(s, events) == Play(s, OwnEvents(s, events))
    decreases events
  {
    if events != [] {
      var e := events[0];
      var t := s.Handle(e).0;
      SameEvents(s, s, e);
      if s.Handle(e).1.Continue? {
        ForeignEventsChangeNothing(t, events[1..]);
        SameOwn(s, t, events[1..]);
      }
      if Own(s, e) {
        var rest := OwnEvents(s, events[1..]);
        assert ([e] + rest)[1..] == rest;
      } else {
        assert [] + OwnEvents(s, events[1..]) == OwnEvents(s, events[1..]);
      }
    }
  }

  lemma {:induction false} SameOwn(s: State, t: State, events: seq<Event>)
    requires s.sessionID == t.sessionID && s.runID == t.runID
    ensures OwnEvents(s, events) == OwnEvents(t, events)
  {
    if events != [] {
      SameEvents(s, t, events[0]);
      SameOwn(s, t, events[1..]);
    }
  }

  // ------------------------------------------------------------- event by event, in its fields

  /** The terminal event of this run: by the run ID if there is one, else by the session. */
  predicate OurEnd(s: State, e: Event) {
    e.RunComplete? && (if s.runID == "" then e.sessionID == s.sessionID else e.runID == s.runID)
  }

  /** A failure of the agent that concerns this run: by the event's run ID if it has one, else by
      its session, which it must name. */
  predicate OurFailure(s: State, e: Event) {
    e.AgentEvent? && e.failure != None
    && (if e.runID == "" then e.sessionID == s.sessionID && s.sessionID != "" else e.runID == s.runID)
  }

  /** What a terminal event does: nothing unless it is ours, and ours fails the run exactly when it
      carries an error and is not cancelled. */
  lemma RunCompleteDecides(s: State, e: Event)
    requires e.RunComplete?
    ensures var (t, o) := s.Handle(e);
            if !OurEnd(s, e) then t == s && o == Continue
            else if e.error != "" && !e.cancelled then t == s && o == Failed(true, AgentRunFailed(e.error))
            else o == Done
  {
  }

  /** What the end adds to stdout: of the text it carries, what was not seen of its message yet. */
  lemma RunCompleteShows(s: State, e: Event) returns (k: nat)
    requires OurEnd(s, e) && !(e.error != "" && !e.cancelled)
    ensures var t := s.Handle(e).0; var seen := if e.messageID in s.read then s.read[e.messageID] else 0;
            if e.messageID == "" || |e.text| <= seen then t == s
            else
              && seen <= k <= |e.text| && (seen > 0 ==> k == seen)
              && (forall i :: seen <= i < k ==> e.text[i] in {' ', '\t'})
              && (seen == 0 && k < |e.text| ==> e.text[k] !in {' ', '\t'})
              && t.read == s.read && Wrote(s, t, e.messageID, e.text[k..])
  {
    k := 0;
    if e.messageID != "" && s.Read(e.messageID) < |e.text| {
      k := DueFrom(s, e.messageID, e.text);
      TrimSpaceEmpty(e.text[k..]);
    }
  }

  lemma AgentEventDecides(s: State, e: Event)
    requires e.AgentEvent?
    ensures s.Handle(e) == (s, if OurFailure(s, e) then Failed(true, AgentFailed(e.failure.value)) else Continue)
  {
  }

  /** Which message events are shown, and what is written of them: without a run ID, those of the
      assistant in this session that have parts.  What is new since the last one is written, at the
      start less the spaces and tabs before it, but nothing blank before the first thing printed. */
  lemma MessageEventDecides(s: State, e: Event) returns (k: nat)
    requires e.MessageEvent?
    ensures var (t, o) := s.Handle(e);
            var content, seen := TextOf(e.parts), if e.id in s.read then s.read[e.id] else 0;
            if s.runID != "" || e.sessionID != s.sessionID || e.role != Assistant || e.parts == [] then
              t == s && o == Continue
            else if |content| < seen then
              t == s && o == Failed(false, ContentShorter(|content|, seen))
            else
              && seen <= k <= |content| && (seen > 0 ==> k == seen)
              && (forall i :: seen <= i < k ==> content[i] in {' ', '\t'})
              && (seen == 0 && k < |content| ==> content[k] !in {' ', '\t'})
              && o == Continue && t.read == s.read[e.id := |content|]
              && Wrote(s, t, e.id, content[k..])
  {
    k := 0;
    var content := TextOf(e.parts);
    if s.Live(e) && s.Read(e.id) <= |content| {
      k := DueFrom(s, e.id, content);
      TrimSpaceEmpty(content[k..]);
    }
  }

  /** The text is written for the message, unless it is blank and nothing was printed yet. */
  predicate Wrote(s: State, t: State, id: string, text: string) {
    if s.printed || !Blank(text) then t.printed && t.writes == s.writes + [Write(id, text)]
    else t.printed == s.printed && t.writes == s.writes
  }

  lemma DueFrom(s: State, id: string, content: string) returns (k: nat)
    requires s.Read(id) <= |content|
    ensures s.Read(id) <= k <= |content| && s.Due(id, content) == content[k..] && (s.Read(id) > 0 ==> k == s.Read(id))
    ensures forall i :: s.Read(id) <= i < k ==> content[i] in {' ', '\t'}
    ensures s.Read(id) == 0 && k < |content| ==> content[k] !in {' ', '\t'}
  {
    k := s.Read(id);
    if k == 0 {
      assert content[0..] == content;
      k := TrimLeftCuts(content, {' ', '\t'});
    }
  }

  /** With a run ID, what other runs end in does not show: dropping their terminal events leaves
      output, cursor and outcome the same. */
  lemma {:induction false} OtherRunsDoNotShow(s: State, events: seq<Event>)
    requires s.runID != ""
    ensures Play(s, events) == Play(s, WithoutOtherRuns(s.runID, events))
    decreases events
  {
    if events != [] {
      var e := events[0];
      var t := s.Handle(e).0;
      var rest := WithoutOtherRuns(s.runID, events[1..]);
      if e.RunComplete? { RunCompleteDecides(s, e); }
      if s.Handle(e).1.Continue? { OtherRunsDoNotShow(t, events[1..]); }
      if e.RunComplete? && e.runID != s.runID {
        assert [] + rest == rest;
      } else {
        assert ([e] + rest)[1..] == rest;
      }
    }
  }

  function WithoutOtherRuns(runID: string, events: seq<Event>): seq<Event> {
    if events == [] then []
    else
      (if events[0].RunComplete? && events[0].runID != runID then [] else [events[0]])
      + WithoutOtherRuns(runID, events[1..])
  }

  /** With a run ID stdout stays empty until this run's terminal event, and is then its text from
      the first character that is no space or tab, or nothing if the text is blank. */
  lemma RunIDShowsOnlyTheEnd(s: State, events: seq<Event>, e: Event) returns (k: nat)
    requires Fresh(s) && s.runID != "" && (forall x <- events :: !OurEnd(s, x) && !OurFailure(s, x))
    requires OurEnd(s, e) && !(e.error != "" && !e.cancelled) && e.messageID != ""
    ensures Play(s, events).0.writes == [] && Play(s, events + [e]).1.Done?
    ensures k <= |e.text| && (forall i :: 0 <= i < k ==> e.text[i] in {' ', '\t'})
    ensures k < |e.text| ==> e.text[k] !in {' ', '\t'}
    ensures Joined(Play(s, events + [e]).0.writes) == if Blank(e.text) then "" else e.text[k..]
  {
    hide Joined, Blank;
    assert Quiet(s, events);
    NothingLive(s, events);
    PlaySnoc(s, events, e);
    k := FirstEnd(s, e);
  }

  lemma FirstEnd(s: State, e: Event) returns (k: nat)
    requires Fresh(s) && OurEnd(s, e) && !(e.error != "" && !e.cancelled) && e.messageID != ""
    ensures k <= |e.text| && (forall i :: 0 <= i < k ==> e.text[i] in {' ', '\t'})
    ensures k < |e.text| ==> e.text[k] !in {' ', '\t'}
    ensures s.Handle(e).1.Done? && Joined(s.Handle(e).0.writes) == if Blank(e.text) then "" else e.text[k..]
  {
    k := DueFrom(s, e.messageID, e.text);
    var part := e.text[k..];
    TrimSpaceEmpty(part);
    BlankRest(e.text, k);
    OneWrite(Write(e.messageID, part));
    hide Blank, Joined, TrimSpace, TrimLeft;
    assert s.Handle(e).0.writes == if Blank(part) then [] else [Write(e.messageID, part)];
    NoWrites();
  }

  lemma NoWrites()
    ensures Joined([]) == ""
  {
  }

  lemma BlankRest(text: string, k: nat)
    requires k <= |text| && forall i :: 0 <= i < k ==> text[i] in {' ', '\t'}
    ensures Blank(text[k..]) <==> Blank(text)
  {
    assert forall i :: k <= i < |text| ==> text[i] == text[k..][i - k];
  }

  lemma OneWrite(w: Write)
    ensures Joined([w]) == w.text == Written([w], w.id)
  {
    assert [w][..0] == [];
  }

  lemma {:induction false} NothingLive(s: State, events: seq<Event>)
    requires Quiet(s, events) && s.runID != ""
    ensures Play(s, events) == (s, Continue)
    decreases events
  {
    if events != [] { NothingLive(s, events[1..]); }
  }

  // ------------------------------------------------------------------------ failures

  /** Each content is at least as long as the one before it, message by message. */
  predicate NeverShorter(s: State, events: seq<Event>) {
    forall k :: 0 <= k < |events| && s.Live(events[k]) ==>
      |Seen(s, events[..k], events[k].id)| <= |TextOf(events[k].parts)|
  }

  /** Short of an event that ends or fails the run, the stream stops exactly when a content gets
      shorter. */
  lemma {:induction false} OnlyShrinkingStops(s: State, events: seq<Event>)
    requires Fresh(s) && Quiet(s, events)
    ensures Play(s, events).1.Continue? <==> NeverShorter(s, events)
    ensures Play(s, events).1.Continue? ==> Remembers(s, events, Play(s, events).0)
  {
    hide Play, Seen, NeverShorter;
    if events != [] {
      var n := |events| - 1;
      OnlyShrinkingStops(s, events[..n]);
      assert events[..n] + [events[n]] == events;
      NeverShorterSnoc(s, events);
      if Play(s, events[..n]).1.Continue? {
        PlaySnoc(s, events[..n], events[n]);
        SeenUnfolds(s, events);
        MightStop(s, events, Play(s, events[..n]).0);
      } else {
        StoppedStays(s, events[..n], events[n]);
      }
    } else {
      PlayNothing(s);
    }
  }

  /** The cursor holds the length of what was seen of each message. */
  ghost predicate Remembers(s: State, events: seq<Event>, t: State) {
    && t.sessionID == s.sessionID && t.runID == s.runID
    && forall id :: t.Read(id) == |Seen(s, events, id)|
  }

  lemma NeverShorterSnoc(s: State, events: seq<Event>)
    requires events != []
    ensures var n := |events| - 1; var e := events[n];
            NeverShorter(s, events)
            <==> NeverShorter(s, events[..n]) && (s.Live(e) ==> |Seen(s, events[..n], e.id)| <= |TextOf(e.parts)|)
  {
    hide Seen, TextOf;
    var n := |events| - 1;
    assert forall k :: 0 <= k < n ==> events[..n][..k] == events[..k] && events[..n][k] == events[k];
  }

  lemma MightStop(s: State, events: seq<Event>, t: State)
    requires events != [] && Remembers(s, events[..|events| - 1], t)
    requires var e := events[|events| - 1]; !s.Ends(e) && !s.Fails(e)
    ensures var e := events[|events| - 1];
            && (t.Handle(e).1.Continue?
                <==> (s.Live(e) ==> |Seen(s, events[..|events| - 1], e.id)| <= |TextOf(e.parts)|))
            && (t.Handle(e).1.Continue? ==> Remembers(s, events, t.Handle(e).0))
  {
    hide Seen, TextOf, TrimLeft, TrimSpace;
    SeenUnfolds(s, events);
    SameEvents(s, t, events[|events| - 1]);
  }

  lemma PlayNothing(s: State)
    ensures Play(s, []) == (s, Continue) && NeverShorter(s, []) && forall id :: Seen(s, [], id) == ""
  {
  }

  lemma SeenUnfolds(s: State, events: seq<Event>)
    requires events != []
    ensures var e := events[|events| - 1];
            forall id :: Seen(s, events, id)
                         == if s.Live(e) && e.id == id then TextOf(e.parts) else Seen(s, events[..|events| - 1], id)
  {
  }

  lemma {:induction false} StoppedStays(s: State, events: seq<Event>, e: Event)
    requires !Play(s, events).1.Continue?
    ensures Play(s, events + [e]) == Play(s, events)
    decreases events
  {
    assert (events + [e])[1..] == events[1..] + [e];
    if s.Handle(events[0]).1.Continue? {
      StoppedStays(s.Handle(events[0]).0, events[1..], e);
    }
  }
}
