/**
 internal/agent/agent.go: when a call has its result directly after it, in the repaired history
 and after the media workaround.
 */
module AdjacencyTheorems {
  import opened Options
  import opened Content
  import opened History
  import opened HistoryTheorems
  import opened MediaTheorems

  // ------------------------------------------------------------------------- the property

  /** The tool messages that open the history hold a result for the ID. */
  predicate AnsweredNext(h: seq<AIMessage>, id: string) {
    h != [] && h[0].role == ToolRole && (Names(Select(h[0].content, TheResults), id) || AnsweredNext(h[1..], id))
  }

  /** The calls of the i-th message, if it is the assistant's, have their results in the tool
      messages directly after it. */
  predicate AnsweredAt(h: seq<AIMessage>, i: nat)
    requires i < |h|
  {
    h[i].role == AssistantRole ==> forall p <- Select(h[i].content, TheCalls) :: AnsweredNext(h[i + 1..], NameOf(p))
  }

  /** Every call has its result directly after it. */
  predicate Adjacent(h: seq<AIMessage>) {
    forall i :: 0 <= i < |h| ==> AnsweredAt(h, i)
  }

  /** A stored message that adds nothing to the history: skipped, the system's, or a tool message
      whose results all lack a call. */
  predicate AddsNothing(m: Message, known: set<string>) {
    || Skipped(m)
    || m.role == System
    || (m.role == Tool && forall r <- Results(m.parts) :: r.toolCallID !in known)
  }

  /** The stored tool messages directly after this place hold a result for the ID, passing over
      what adds nothing. */
  predicate StoredNext(msgs: seq<Message>, id: string, known: set<string>) {
    msgs != []
    && if AddsNothing(msgs[0], known) then StoredNext(msgs[1..], id, known)
       else msgs[0].role == Tool && (id in IDsOfResults(Results(msgs[0].parts)) || StoredNext(msgs[1..], id, known))
  }

  /** The calls of the i-th message that have a stored result anywhere have one directly after. */
  predicate PlacedAt(msgs: seq<Message>, i: nat, known: set<string>, answered: set<string>)
    requires i < |msgs|
  {
    msgs[i].role == Assistant ==>
      forall tc <- Calls(msgs[i].parts) :: tc.id in answered ==> StoredNext(msgs[i + 1..], tc.id, known)
  }

  predicate WellPlaced(msgs: seq<Message>, known: set<string>, answered: set<string>) {
    forall i :: 0 <= i < |msgs| ==> PlacedAt(msgs, i, known, answered)
  }

  // ------------------------------------------------------------------------- small facts

  lemma AdjacentCons(m: AIMessage, rest: seq<AIMessage>)
    ensures Adjacent([m] + rest) <==>
            (m.role == AssistantRole ==> forall p <- Select(m.content, TheCalls) :: AnsweredNext(rest, NameOf(p)))
            && Adjacent(rest)
  {
    hide AnsweredNext, Select;
    var h := [m] + rest;
    assert h[1..] == rest;
    assert AnsweredAt(h, 0) <==>
           (m.role == AssistantRole ==> forall p <- Select(m.content, TheCalls) :: AnsweredNext(rest, NameOf(p)));
    forall i | 0 <= i < |rest|
      ensures AnsweredAt(rest, i) <==> AnsweredAt(h, i + 1)
    {
      assert h[i + 2..] == rest[i + 1..];
    }
    if Adjacent(rest) && AnsweredAt(h, 0) {
      forall i | 0 <= i < |h|
        ensures AnsweredAt(h, i)
      {
        if i > 0 { assert AnsweredAt(rest, i - 1); }
      }
    }
    if Adjacent(h) {
      forall i | 0 <= i < |rest|
        ensures AnsweredAt(rest, i)
      {
        assert AnsweredAt(h, i + 1);
      }
    }
  }

  lemma WellPlacedCons(msgs: seq<Message>, known: set<string>, answered: set<string>)
    requires msgs != []
    ensures WellPlaced(msgs, known, answered)
            <==> PlacedAt(msgs, 0, known, answered) && WellPlaced(msgs[1..], known, answered)
  {
    hide StoredNext, Calls;
    var rest := msgs[1..];
    forall i | 0 <= i < |rest|
      ensures PlacedAt(rest, i, known, answered) <==> PlacedAt(msgs, i + 1, known, answered)
    {
      assert msgs[i + 2..] == rest[i + 1..];
    }
    if PlacedAt(msgs, 0, known, answered) && WellPlaced(rest, known, answered) {
      forall i | 0 <= i < |msgs|
        ensures PlacedAt(msgs, i, known, answered)
      {
        if i > 0 { assert PlacedAt(rest, i - 1, known, answered); }
      }
    }
    if WellPlaced(msgs, known, answered) {
      forall i | 0 <= i < |rest|
        ensures PlacedAt(rest, i, known, answered)
      {
        assert PlacedAt(msgs, i + 1, known, answered);
      }
    }
  }

  /** The history, message by message from the front. */
  lemma {:induction false} EntriesCons(msgs: seq<Message>, known: set<string>, answered: set<string>, s: Setting)
    requires msgs != []
    ensures Entries(msgs, known, answered, s)
            == Entry(msgs[0], known, answered, s) + Entries(msgs[1..], known, answered, s)
  {
    hide Entry;
    var n := |msgs| - 1;
    if n > 0 {
      EntriesCons(msgs[..n], known, answered, s);
      assert msgs[..n][1..] == msgs[1..][..n - 1];
    } else {
      assert msgs[..0] == [] && msgs[1..] == [];
    }
  }

  lemma KeptNames(m: Message, known: set<string>, codec: Codec, id: string)
    requires m.role == Tool && id in known
    ensures Names(KeepKnown(ResultParts(Results(m.parts), codec), known), id) <==> id in IDsOfResults(Results(m.parts))
  {
    KeptAreResults(ResultParts(Results(m.parts), codec), known);
    NamesResult(m, codec, id);
  }

  lemma KeptNothing(m: Message, known: set<string>, codec: Codec)
    requires m.role == Tool
    ensures KeepKnown(ResultParts(Results(m.parts), codec), known) == []
            <==> forall r <- Results(m.parts) :: r.toolCallID !in known
  {
    var results := Results(m.parts);
    var parts := ResultParts(results, codec);
    var kept := KeepKnown(parts, known);
    KeptAreResults(parts, known);
    if kept != [] {
      assert kept[0] in parts;
      var i :| 0 <= i < |parts| && parts[i] == kept[0];
      assert results[i] in results;
    } else {
      forall r | r in results
        ensures r.toolCallID !in known
      {
        var i :| 0 <= i < |results| && results[i] == r;
        assert parts[i] in parts && parts[i] !in kept;
      }
    }
  }

  /** What a stored message puts at the front of the rest of the history. */
  lemma EntryShape(m: Message, known: set<string>, answered: set<string>, s: Setting)
    ensures var e := Entry(m, known, answered, s);
            && (e == [] <==> AddsNothing(m, known))
            && (e != [] ==> (e[0].role == ToolRole <==> m.role == Tool))
            && (e != [] && m.role != Assistant ==> |e| == 1 && e[0].role != AssistantRole)
            && (e != [] && m.role == Tool ==>
                  e == [AIMessage(ToolRole, KeepKnown(ResultParts(Results(m.parts), s.codec), known))])
  {
    hide KeepKnown, Synthetic, Results, Calls, TextOf, ReasoningOf, WithoutFiles, Attached, Files, Binaries;
    if m.role == Tool { KeptNothing(m, known, s.codec); }
  }

  // -------------------------------------------------------------------- the repaired history

  lemma {:induction false} NextIsStored(msgs: seq<Message>, known: set<string>, answered: set<string>, s: Setting,
                                        id: string)
    requires id in known
    ensures AnsweredNext(Entries(msgs, known, answered, s), id) <==> StoredNext(msgs, id, known)
  {
    hide Entry, Names, Select, AddsNothing;
    if msgs != [] {
      var m, rest := msgs[0], Entries(msgs[1..], known, answered, s);
      var e := Entry(m, known, answered, s);
      EntriesCons(msgs, known, answered, s);
      EntryShape(m, known, answered, s);
      NextIsStored(msgs[1..], known, answered, s, id);
      if AddsNothing(m, known) {
        assert e + rest == rest;
      } else {
        assert (e + rest)[0] == e[0];
        if m.role == Tool {
          assert (e + rest)[1..] == rest;
          EntryNames(m, known, answered, s, id);
        }
      }
    }
  }

  lemma EntryNames(m: Message, known: set<string>, answered: set<string>, s: Setting, id: string)
    requires m.role == Tool && id in known && !AddsNothing(m, known)
    ensures var e := Entry(m, known, answered, s);
            e != [] && (Names(Select(e[0].content, TheResults), id) <==> id in IDsOfResults(Results(m.parts)))
  {
    EntryShape(m, known, answered, s);
    KeptAreResults(ResultParts(Results(m.parts), s.codec), known);
    SelectAll(KeepKnown(ResultParts(Results(m.parts), s.codec), known), TheResults);
    KeptNames(m, known, s.codec, id);
  }

  lemma AssistantShape(m: Message, known: set<string>, answered: set<string>, s: Setting) returns (said: AIMessage)
    requires m.role == Assistant && !Skipped(m)
    ensures said.role == AssistantRole && Select(said.content, TheCalls) == CallParts(Calls(m.parts))
    ensures Entry(m, known, answered, s) == [said] + ToolMessage(Synthetic(Calls(m.parts), answered))
  {
    hide Synthetic, Calls, TextOf, ReasoningOf;
    said := ToAIMessage(m, s.codec)[0];
    AssistantEntry(m, known, answered, s);
    AssistantReads(m, s.codec, TheCalls);
    AllOfOne(said, TheCalls);
  }

  lemma ToolMessageAdjacent(more: seq<AIPart>, rest: seq<AIMessage>)
    ensures Adjacent(ToolMessage(more) + rest) <==> Adjacent(rest)
  {
    hide Adjacent;
    if more == [] {
      assert ToolMessage(more) + rest == rest;
    } else {
      AdjacentCons(AIMessage(ToolRole, more), rest);
    }
  }

  /** The calls of an assistant message against what follows: one without a stored result is
      answered by the synthetic message, any other by what is stored. */
  lemma AssistantAdjacent(m: Message, known: set<string>, answered: set<string>, s: Setting, rest: seq<AIMessage>)
    requires m.role == Assistant && !Skipped(m)
    ensures Adjacent(Entry(m, known, answered, s) + rest) <==>
            (forall tc <- Calls(m.parts) :: tc.id in answered ==> AnsweredNext(rest, tc.id)) && Adjacent(rest)
  {
    hide Adjacent, AnsweredNext, Entry, Synthetic, Calls, Names, ToolMessage, CallParts, NameOf, Skipped;
    var calls := Calls(m.parts);
    var more := Synthetic(calls, answered);
    var said := AssistantShape(m, known, answered, s);
    SyntheticAreResults(calls, answered);
    SyntheticNext(calls, answered, more, rest);
    ToolMessageAdjacent(more, rest);
    AdjacentCons(said, ToolMessage(more) + rest);
    assert [said] + ToolMessage(more) + rest == [said] + (ToolMessage(more) + rest);
  }

  lemma SyntheticNext(calls: seq<ToolCall>, answered: set<string>, more: seq<AIPart>, rest: seq<AIMessage>)
    requires forall p <- more :: p.AIResult?
    requires forall id :: Names(more, id) <==> id !in answered && id in IDsOfCalls(calls)
    ensures (forall p <- CallParts(calls) :: AnsweredNext(ToolMessage(more) + rest, NameOf(p)))
            <==> forall tc <- calls :: tc.id in answered ==> AnsweredNext(rest, tc.id)
  {
    var h := ToolMessage(more) + rest;
    forall tc | tc in calls
      ensures AnsweredNext(h, tc.id) <==> (tc.id in answered ==> AnsweredNext(rest, tc.id))
    {
      if more == [] {
        assert h == rest;
        assert !Names(more, tc.id);
      } else {
        SelectAll(more, TheResults);
        assert h[1..] == rest;
      }
    }
    forall i | 0 <= i < |calls|
      ensures NameOf(CallParts(calls)[i]) == calls[i].id && CallParts(calls)[i] in CallParts(calls) && calls[i] in calls
    {
    }
  }

  lemma EntryAdjacent(m: Message, known: set<string>, answered: set<string>, s: Setting, rest: seq<AIMessage>)
    requires m.role != Assistant
    ensures Adjacent(Entry(m, known, answered, s) + rest) <==> Adjacent(rest)
  {
    hide Adjacent, Entry, AddsNothing;
    var e := Entry(m, known, answered, s);
    EntryShape(m, known, answered, s);
    if e == [] {
      assert e + rest == rest;
    } else {
      assert e == [e[0]];
      AdjacentCons(e[0], rest);
    }
  }

  lemma {:induction false} EntriesAdjacent(msgs: seq<Message>, known: set<string>, answered: set<string>, s: Setting)
    requires forall m <- msgs :: m.role == Assistant ==> IDsOfCalls(Calls(m.parts)) <= known
    ensures Adjacent(Entries(msgs, known, answered, s)) <==> WellPlaced(msgs, known, answered)
  {
    if msgs == [] {
      assert Entries(msgs, known, answered, s) == [];
    } else {
      assert forall m <- msgs[1..] :: m in msgs;
      EntriesAdjacent(msgs[1..], known, answered, s);
      FirstAdjacent(msgs, known, answered, s);
    }
  }

  lemma FirstAdjacent(msgs: seq<Message>, known: set<string>, answered: set<string>, s: Setting)
    requires msgs != [] && (msgs[0].role == Assistant ==> IDsOfCalls(Calls(msgs[0].parts)) <= known)
    requires Adjacent(Entries(msgs[1..], known, answered, s)) <==> WellPlaced(msgs[1..], known, answered)
    ensures Adjacent(Entries(msgs, known, answered, s)) <==> WellPlaced(msgs, known, answered)
  {
    hide Adjacent, WellPlaced, Entry, AnsweredNext, StoredNext, Entries, Calls;
    var m, rest := msgs[0], Entries(msgs[1..], known, answered, s);
    EntriesCons(msgs, known, answered, s);
    WellPlacedCons(msgs, known, answered);
    if m.role != Assistant {
      EntryAdjacent(m, known, answered, s, rest);
    } else if Skipped(m) {
      EntryShape(m, known, answered, s);
      assert Entry(m, known, answered, s) + rest == rest;
      SkippedCalls(m);
    } else {
      AssistantAdjacent(m, known, answered, s, rest);
      forall tc | tc in Calls(m.parts)
        ensures AnsweredNext(rest, tc.id) <==> StoredNext(msgs[1..], tc.id, known)
      {
        assert tc.id in IDsOfCalls(Calls(m.parts));
        NextIsStored(msgs[1..], known, answered, s, tc.id);
      }
    }
  }

  lemma SkippedCalls(m: Message)
    requires m.role == Assistant && Skipped(m)
    ensures Calls(m.parts) == []
  {
  }

  /** A stored history is well placed when each call that has a stored result anywhere has one in
      the tool messages directly after it. */
  predicate WellPlacedHistory(msgs: seq<Message>) {
    WellPlaced(msgs, KnownCalls(msgs), KnownResults(msgs))
  }

  /** The repair puts a result directly after every call exactly when the stored history is well
      placed: calls without any result are always made up for, results elsewhere are not moved. */
  lemma {:induction false} AdjacentExactlyWhenWellPlaced(msgs: seq<Message>, s: Setting)
    ensures Adjacent(Prompt(msgs, s)) <==> WellPlacedHistory(msgs)
  {
    hide Adjacent, WellPlaced, Entries, Calls, Results;
    var known, answered := KnownCalls(msgs), KnownResults(msgs);
    forall m | m in msgs && m.role == Assistant
      ensures IDsOfCalls(Calls(m.parts)) <= known
    {
    }
    EntriesAdjacent(msgs, known, answered, s);
    if s.isSubAgent {
      assert [] + Entries(msgs, known, answered, s) == Entries(msgs, known, answered, s);
    } else {
      AdjacentCons(AIMessage(UserRole, [AIText(s.reminder)]), Entries(msgs, known, answered, s));
    }
  }

  // ------------------------------------------------------------------------ two examples

  function Asking(id: string): Message {
    Message("m", "s", Assistant, [CallPart(ToolCall(id, "tool", "{}", false, true))])
  }

  function Answering(id: string): Message {
    Message("m", "s", Tool, [ResultPart(ToolResult(id, "tool", "done", "", "", "", false))])
  }

  function Saying(text: string): Message {
    Message("m", "s", User, [TextPart(text)])
  }

  lemma ReadsOf(id: string)
    ensures Calls(Asking(id).parts) == [ToolCall(id, "tool", "{}", false, true)]
    ensures Results(Answering(id).parts) == [ToolResult(id, "tool", "done", "", "", "", false)]
  {
  }

  /** A result stored after a user message stays there, although the history is closed. */
  lemma ResultCanStayApart(s: Setting) returns (msgs: seq<Message>)
    ensures msgs == [Asking("c"), Saying("hi"), Answering("c")]
    ensures IsClosed(msgs) && !Adjacent(Prompt(msgs, s))
  {
    msgs := [Asking("c"), Saying("hi"), Answering("c")];
    ReadsOf("c");
    assert msgs[0].role == Assistant && msgs[2].role == Tool;
    assert KnownCalls(msgs) == {"c"} by { OnlyCallID(msgs, "c", 0); }
    assert KnownResults(msgs) == {"c"} by { OnlyResultID(msgs, "c", 2); }
    assert msgs[1..] == [Saying("hi"), Answering("c")];
    assert !StoredNext(msgs[1..], "c", {"c"});
    assert !PlacedAt(msgs, 0, {"c"}, {"c"});
    AdjacentExactlyWhenWellPlaced(msgs, s);
  }

  /** A call that reuses an answered ID gets no result of its own: the first one stands for both. */
  lemma ReusedIDIsLeftOpen(s: Setting) returns (msgs: seq<Message>)
    ensures msgs == [Asking("c"), Answering("c"), Asking("c")]
    ensures IsClosed(msgs) && !Adjacent(Prompt(msgs, s))
  {
    msgs := [Asking("c"), Answering("c"), Asking("c")];
    ReadsOf("c");
    assert KnownCalls(msgs) == {"c"} by { OnlyCallID(msgs, "c", 0); }
    assert KnownResults(msgs) == {"c"} by { OnlyResultID(msgs, "c", 1); }
    assert msgs[3..] == [];
    assert !StoredNext(msgs[3..], "c", {"c"});
    assert !PlacedAt(msgs, 2, {"c"}, {"c"});
    AdjacentExactlyWhenWellPlaced(msgs, s);
  }

  lemma OnlyCallID(msgs: seq<Message>, id: string, i: nat)
    requires i < |msgs| && msgs[i].role == Assistant && exists tc <- Calls(msgs[i].parts) :: tc.id == id
    requires forall m <- msgs :: m.role == Assistant ==> forall tc <- Calls(m.parts) :: tc.id == id
    ensures KnownCalls(msgs) == {id}
  {
    hide Calls;
    assert id in KnownCalls(msgs);
  }

  lemma OnlyResultID(msgs: seq<Message>, id: string, i: nat)
    requires i < |msgs| && msgs[i].role == Tool && exists r <- Results(msgs[i].parts) :: r.toolCallID == id
    requires forall m <- msgs :: m.role == Tool ==> forall r <- Results(m.parts) :: r.toolCallID == id
    ensures KnownResults(msgs) == {id}
  {
    hide Results;
    assert id in KnownResults(msgs);
  }

  // ------------------------------------------------------------------ after the workaround

  /** A result for the ID stands in the tool messages that open the history, no later than the
      first of them from which media are taken. */
  predicate AnsweredBeforeFiles(h: seq<AIMessage>, id: string, codec: Codec) {
    && h != [] && h[0].role == ToolRole
    && (Names(Select(h[0].content, TheResults), id)
        || (MediaFiles(h[0].content, codec) == [] && AnsweredBeforeFiles(h[1..], id, codec)))
  }

  predicate BeforeFilesAt(h: seq<AIMessage>, i: nat, codec: Codec)
    requires i < |h|
  {
    h[i].role == AssistantRole ==>
      forall p <- Select(h[i].content, TheCalls) :: AnsweredBeforeFiles(h[i + 1..], NameOf(p), codec)
  }

  predicate AdjacentBeforeFiles(h: seq<AIMessage>, codec: Codec) {
    forall i :: 0 <= i < |h| ==> BeforeFilesAt(h, i, codec)
  }

  lemma BeforeFilesCons(h: seq<AIMessage>, codec: Codec)
    requires h != []
    ensures AdjacentBeforeFiles(h, codec) <==> BeforeFilesAt(h, 0, codec) && AdjacentBeforeFiles(h[1..], codec)
  {
    hide AnsweredBeforeFiles, Select;
    var rest := h[1..];
    forall i | 0 <= i < |rest|
      ensures BeforeFilesAt(rest, i, codec) <==> BeforeFilesAt(h, i + 1, codec)
    {
      assert h[i + 2..] == rest[i + 1..];
    }
    if BeforeFilesAt(h, 0, codec) && AdjacentBeforeFiles(rest, codec) {
      forall i | 0 <= i < |h|
        ensures BeforeFilesAt(h, i, codec)
      {
        if i > 0 { assert BeforeFilesAt(rest, i - 1, codec); }
      }
    }
    if AdjacentBeforeFiles(h, codec) {
      forall i | 0 <= i < |rest|
        ensures BeforeFilesAt(rest, i, codec)
      {
        assert BeforeFilesAt(h, i + 1, codec);
      }
    }
  }

  lemma WorkaroundCons(h: seq<AIMessage>, codec: Codec)
    requires h != []
    ensures Workaround(h, codec) == Converted(h[0], codec) + Workaround(h[1..], codec)
  {
    hide Converted;
    assert h == [h[0]] + h[1..];
    WorkaroundConcat([h[0]], h[1..], codec);
    WorkaroundOfOne(h[0], codec);
  }

  /** The workaround on a tool message: the same IDs, then perhaps a user message. */
  lemma ConvertedTool(m: AIMessage, codec: Codec, rest: seq<AIMessage>, id: string)
    requires m.role == ToolRole
    ensures var c := Converted(m, codec);
            && c != [] && c[0].role == ToolRole && (forall i :: 0 <= i < |c| ==> c[i].role != AssistantRole)
            && (Names(Select(c[0].content, TheResults), id) <==> Names(Select(m.content, TheResults), id))
            && (if MediaFiles(m.content, codec) == [] then c + rest == [c[0]] + rest
                else (c + rest)[1].role == UserRole)
  {
    ReplacementReads(m.content, codec, TheResults);
    ReplacementNames(Select(m.content, TheResults), codec, id);
  }

  lemma ReplacementNames(parts: seq<AIPart>, codec: Codec, id: string)
    ensures Names(Replacement(parts, codec), id) <==> Names(parts, id)
  {
    var after := Replacement(parts, codec);
    if Names(parts, id) {
      var i :| 0 <= i < |parts| && (parts[i].AICall? || parts[i].AIResult?) && parts[i].id == id;
      assert after[i] in after;
    }
    if Names(after, id) {
      var i :| 0 <= i < |after| && (after[i].AICall? || after[i].AIResult?) && after[i].id == id;
      assert parts[i] in parts;
    }
  }

  lemma {:induction false} NextAfterWorkaround(h: seq<AIMessage>, codec: Codec, id: string)
    ensures AnsweredNext(Workaround(h, codec), id) <==> AnsweredBeforeFiles(h, id, codec)
  {
    hide Converted, Names, Select, MediaFiles;
    if h != [] {
      var rest := Workaround(h[1..], codec);
      var c := Converted(h[0], codec);
      WorkaroundCons(h, codec);
      NextAfterWorkaround(h[1..], codec, id);
      if h[0].role == ToolRole {
        ConvertedTool(h[0], codec, rest, id);
        assert (c + rest)[0] == c[0];
        if MediaFiles(h[0].content, codec) == [] {
          assert (c + rest)[1..] == rest;
        }
      } else {
        ConvertedOther(h[0], codec);
      }
    }
  }

  lemma ConvertedOther(m: AIMessage, codec: Codec)
    requires m.role != ToolRole
    ensures Converted(m, codec) == [m]
  {
  }

  lemma {:induction false} NoAssistantAdjacent(c: seq<AIMessage>, rest: seq<AIMessage>)
    requires forall i :: 0 <= i < |c| ==> c[i].role != AssistantRole
    ensures Adjacent(c + rest) <==> Adjacent(rest)
  {
    hide Adjacent;
    if c == [] {
      assert c + rest == rest;
    } else {
      NoAssistantAdjacent(c[1..], rest);
      AdjacentCons(c[0], c[1..] + rest);
      assert c + rest == [c[0]] + (c[1..] + rest);
    }
  }

  /** After the workaround every call still has its result directly after it exactly when none
      has to be looked for behind a result whose media went into a user message. */
  lemma {:induction false} WorkaroundAdjacency(h: seq<AIMessage>, codec: Codec)
    ensures Adjacent(Workaround(h, codec)) <==> AdjacentBeforeFiles(h, codec)
  {
    if h != [] {
      WorkaroundAdjacency(h[1..], codec);
      FirstAfterWorkaround(h, codec);
    }
  }

  lemma FirstAfterWorkaround(h: seq<AIMessage>, codec: Codec)
    requires h != [] && (Adjacent(Workaround(h[1..], codec)) <==> AdjacentBeforeFiles(h[1..], codec))
    ensures Adjacent(Workaround(h, codec)) <==> AdjacentBeforeFiles(h, codec)
  {
    hide Adjacent, AdjacentBeforeFiles, AnsweredNext, AnsweredBeforeFiles, Converted, Workaround, Select;
    var rest := Workaround(h[1..], codec);
    WorkaroundCons(h, codec);
    BeforeFilesCons(h, codec);
    if h[0].role == ToolRole {
      ConvertedTool(h[0], codec, rest, "");
      NoAssistantAdjacent(Converted(h[0], codec), rest);
    } else {
      ConvertedOther(h[0], codec);
      AdjacentCons(h[0], rest);
      forall p | p in Select(h[0].content, TheCalls)
        ensures AnsweredNext(rest, NameOf(p)) <==> AnsweredBeforeFiles(h[1..], NameOf(p), codec)
      {
        NextAfterWorkaround(h[1..], codec, NameOf(p));
      }
    }
  }

  function ToolAnswer(id: string, output: Output): AIMessage {
    AIMessage(ToolRole, [AIResult(id, output)])
  }

  lemma AnswerNames(id: string, output: Output, other: string)
    ensures Names(Select(ToolAnswer(id, output).content, TheResults), other) <==> id == other
  {
    hide Select, Names;
    var p := AIResult(id, output);
    SelectAll([p], TheResults);
    OneName(p, other);
  }

  lemma OneName(p: AIPart, id: string)
    requires p.AIResult?
    ensures Names([p], id) <==> p.id == id
  {
    assert p in [p];
  }

  lemma MediaAnswer(id: string, data: string, mediaType: string, codec: Codec)
    requires codec.decode(data).Some?
    ensures MediaFiles(ToolAnswer(id, MediaOutput(data, mediaType)).content, codec) != []
  {
    assert Replaceable(AIResult(id, MediaOutput(data, mediaType)), codec);
  }

  /** Two calls whose results stand one message each, as the agent stores them: when the first
      holds media the workaround parts the second call from its result. */
  lemma MediaCanPartACallFromItsResult(codec: Codec, data: string) returns (h: seq<AIMessage>)
    requires codec.decode(data).Some?
    ensures h == [AIMessage(AssistantRole, [AICall("c1", "view", "{}", false), AICall("c2", "view", "{}", false)]),
                  ToolAnswer("c1", MediaOutput(data, "image/png")), ToolAnswer("c2", TextOutput("done"))]
    ensures Adjacent(h) && !Adjacent(Workaround(h, codec))
  {
    var calls := [AICall("c1", "view", "{}", false), AICall("c2", "view", "{}", false)];
    var media, text := ToolAnswer("c1", MediaOutput(data, "image/png")), ToolAnswer("c2", TextOutput("done"));
    h := [AIMessage(AssistantRole, calls), media, text];
    SelectAll(calls, TheCalls);
    assert calls[1] in calls && NameOf(calls[1]) == "c2";
    forall id
      ensures Names(Select(media.content, TheResults), id) <==> id == "c1"
      ensures Names(Select(text.content, TheResults), id) <==> id == "c2"
    {
      AnswerNames("c1", MediaOutput(data, "image/png"), id);
      AnswerNames("c2", TextOutput("done"), id);
    }
    MediaAnswer("c1", data, "image/png", codec);
    TwoAnswers(calls, media, text, codec);
    hide Adjacent, AdjacentBeforeFiles, Workaround;
    WorkaroundAdjacency(h, codec);
  }

  lemma TwoAnswers(calls: seq<AIPart>, media: AIMessage, text: AIMessage, codec: Codec)
    requires Select(calls, TheCalls) == calls && media.role == text.role == ToolRole
    requires forall p <- calls :: NameOf(p) == "c1" || NameOf(p) == "c2"
    requires exists p <- calls :: NameOf(p) == "c2"
    requires forall id :: Names(Select(media.content, TheResults), id) <==> id == "c1"
    requires forall id :: Names(Select(text.content, TheResults), id) <==> id == "c2"
    requires MediaFiles(media.content, codec) != []
    ensures var h := [AIMessage(AssistantRole, calls), media, text];
            Adjacent(h) && !AdjacentBeforeFiles(h, codec)
  {
    hide Select, Names, MediaFiles, NameOf;
    var h := [AIMessage(AssistantRole, calls), media, text];
    assert h[1..] == [media, text] && [media, text][1..] == [text];
    assert AnsweredNext([text], "c2") && AnsweredNext([media, text], "c1") && AnsweredNext([media, text], "c2");
    assert AnsweredAt(h, 0) && AnsweredAt(h, 1) && AnsweredAt(h, 2);
    assert !AnsweredBeforeFiles([media, text], "c2", codec);
    assert !BeforeFilesAt(h, 0, codec);
  }
}
