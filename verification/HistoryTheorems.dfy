/**
 internal/agent/agent.go: the repaired history is closed, a closed history is not touched, and
 the media workaround keeps the results.
 */
module HistoryTheorems {
  import opened Options
  import opened Content
  import opened History
  import opened Streaming
  import opened StreamTheorems

  // ------------------------------------------------------------------ reading a history

  datatype Kind = TheCalls | TheResults | TheFiles

  predicate Is(p: AIPart, kind: Kind) {
    match kind
    case TheCalls => p.AICall?
    case TheResults => p.AIResult?
    case TheFiles => p.AIFile?
  }

  /** The parts of one kind, in order. */
  function Select(parts: seq<AIPart>, kind: Kind): seq<AIPart> {
    if parts == [] then []
    else Select(parts[..|parts| - 1], kind) + if Is(parts[|parts| - 1], kind) then [parts[|parts| - 1]] else []
  }

  function All(h: seq<AIMessage>, kind: Kind): seq<AIPart> {
    if h == [] then [] else All(h[..|h| - 1], kind) + Select(h[|h| - 1].content, kind)
  }

  predicate Names(parts: seq<AIPart>, id: string) {
    exists p <- parts :: (p.AICall? || p.AIResult?) && p.id == id
  }

  /** The calls and the results that are stored, in order. */
  function StoredCalls(msgs: seq<Message>): seq<AIPart> {
    if msgs == [] then [] else StoredCalls(msgs[..|msgs| - 1]) + CallsOf(msgs[|msgs| - 1])
  }

  function StoredResults(msgs: seq<Message>, codec: Codec): seq<AIPart> {
    if msgs == [] then [] else StoredResults(msgs[..|msgs| - 1], codec) + ResultsOf(msgs[|msgs| - 1], codec)
  }

  function CallsOf(m: Message): seq<AIPart> {
    if m.role == Assistant then CallParts(Calls(m.parts)) else []
  }

  function ResultsOf(m: Message, codec: Codec): seq<AIPart> {
    if m.role == Tool then ResultParts(Results(m.parts), codec) else []
  }

  /** What the repair makes of the results at one message. */
  function Repaired(m: Message, known: set<string>, answered: set<string>, codec: Codec): seq<AIPart> {
    if m.role == Tool then KeepKnown(ResultParts(Results(m.parts), codec), known)
    else if m.role == Assistant then Synthetic(Calls(m.parts), answered)
    else []
  }

  // ------------------------------------------------------------------------ small facts

  lemma {:induction false} SelectConcat(a: seq<AIPart>, b: seq<AIPart>, kind: Kind)
    ensures Select(a + b, kind) == Select(a, kind) + Select(b, kind)
  {
    if b == [] {
      assert a + b == a;
    } else {
      hide Is;
      SelectConcat(a, b[..|b| - 1], kind);
      assert (a + b)[..|a + b| - 1] == a + b[..|b| - 1];
    }
  }

  lemma {:induction false} AllConcat(a: seq<AIMessage>, b: seq<AIMessage>, kind: Kind)
    ensures All(a + b, kind) == All(a, kind) + All(b, kind)
  {
    if b == [] {
      assert a + b == a;
    } else {
      hide Select;
      var front, last := All(b[..|b| - 1], kind), Select(b[|b| - 1].content, kind);
      AllConcat(a, b[..|b| - 1], kind);
      assert (a + b)[..|a + b| - 1] == a + b[..|b| - 1] && (a + b)[|a + b| - 1] == b[|b| - 1];
      assert All(a, kind) + front + last == All(a, kind) + (front + last);
    }
  }

  lemma AllOfOne(m: AIMessage, kind: Kind)
    ensures All([m], kind) == Select(m.content, kind)
  {
    assert [m][..0] == [];
  }

  lemma {:induction false} SelectAll(parts: seq<AIPart>, kind: Kind)
    requires forall p <- parts :: Is(p, kind)
    ensures Select(parts, kind) == parts
  {
    if parts != [] { SelectAll(parts[..|parts| - 1], kind); }
  }

  lemma {:induction false} SelectNone(parts: seq<AIPart>, kind: Kind)
    requires forall p <- parts :: !Is(p, kind)
    ensures Select(parts, kind) == []
  {
    if parts != [] { SelectNone(parts[..|parts| - 1], kind); }
  }

  lemma {:induction false} KeptAreResults(parts: seq<AIPart>, known: set<string>)
    requires forall p <- parts :: p.AIResult?
    ensures forall p :: p in KeepKnown(parts, known) <==> p in parts && p.id in known
    ensures KeepKnown(parts, known) == parts <==> forall p <- parts :: p.id in known
    ensures |KeepKnown(parts, known)| <= |parts|
  {
    if parts != [] {
      var n := |parts| - 1;
      KeptAreResults(parts[..n], known);
      assert parts == parts[..n] + [parts[n]];
    }
  }

  lemma {:induction false} SyntheticAreResults(calls: seq<ToolCall>, answered: set<string>)
    ensures forall p <- Synthetic(calls, answered) :: p.AIResult?
    ensures forall id :: Names(Synthetic(calls, answered), id) <==> id !in answered && id in IDsOfCalls(calls)
    ensures Synthetic(calls, answered) == [] <==> IDsOfCalls(calls) <= answered
  {
    if calls != [] {
      var n := |calls| - 1;
      SyntheticAreResults(calls[..n], answered);
      assert calls == calls[..n] + [calls[n]];
      assert IDsOfCalls(calls) == IDsOfCalls(calls[..n]) + {calls[n].id};
    }
  }

  lemma {:induction false} FilesAreFiles(bs: seq<Part>)
    ensures forall p <- Files(bs) :: p.AIFile?
  {
    if bs != [] { FilesAreFiles(bs[1..]); }
  }

  lemma {:induction false} WithoutFilesMembers(parts: seq<AIPart>)
    ensures forall p <- WithoutFiles(parts) :: p in parts
  {
    if parts != [] { WithoutFilesMembers(parts[..|parts| - 1]); }
  }

  // -------------------------------------------------------------------- one stored message

  lemma ToolMessageReads(parts: seq<AIPart>, kind: Kind)
    requires forall p <- parts :: p.AIResult?
    ensures All(ToolMessage(parts), kind) == if kind == TheResults then parts else []
  {
    if parts != [] {
      AllOfOne(AIMessage(ToolRole, parts), kind);
      if kind == TheResults { SelectAll(parts, kind); } else { SelectNone(parts, kind); }
    }
  }

  lemma UserParts(m: Message, s: Setting, p: AIPart)
    requires m.role == User
    requires p in ToAIMessage(m, s.codec)[0].content || p in WithoutFiles(ToAIMessage(m, s.codec)[0].content)
    ensures p.AIText? || p.AIFile?
  {
    FilesAreFiles(Binaries(m.parts));
    WithoutFilesMembers(ToAIMessage(m, s.codec)[0].content);
  }

  lemma AssistantReads(m: Message, codec: Codec, kind: Kind)
    requires m.role == Assistant
    ensures All(ToAIMessage(m, codec), kind) == if kind == TheCalls then CallParts(Calls(m.parts)) else []
  {
    var head := NonEmpty(Text.TrimSpace(TextOf(m.parts))) + ReasoningParts(ReasoningOf(m.parts));
    var calls := CallParts(Calls(m.parts));
    SelectNone(head, kind);
    if kind == TheCalls { SelectAll(calls, kind); } else { SelectNone(calls, kind); }
    SelectConcat(head, calls, kind);
    AllOfOne(ToAIMessage(m, codec)[0], kind);
  }

  lemma EntryReads(m: Message, known: set<string>, answered: set<string>, s: Setting)
    ensures All(Entry(m, known, answered, s), TheCalls) == CallsOf(m)
    ensures All(Entry(m, known, answered, s), TheResults) == Repaired(m, known, answered, s.codec)
  {
    if Skipped(m) {
    } else if m.role == Tool {
      ToolEntryReads(m, known, answered, s);
    } else if m.role == User {
      UserEntryReads(m, known, answered, s);
    } else if m.role == Assistant {
      AssistantEntryReads(m, known, answered, s, TheCalls);
      AssistantEntryReads(m, known, answered, s, TheResults);
    }
  }

  lemma ToolEntryReads(m: Message, known: set<string>, answered: set<string>, s: Setting)
    requires m.role == Tool && !Skipped(m)
    ensures All(Entry(m, known, answered, s), TheCalls) == []
    ensures All(Entry(m, known, answered, s), TheResults) == Repaired(m, known, answered, s.codec)
  {
    var parts := ResultParts(Results(m.parts), s.codec);
    KeptAreResults(parts, known);
    ToolMessageReads(KeepKnown(parts, known), TheCalls);
    ToolMessageReads(KeepKnown(parts, known), TheResults);
  }

  lemma UserEntryReads(m: Message, known: set<string>, answered: set<string>, s: Setting)
    requires m.role == User && !Skipped(m)
    ensures All(Entry(m, known, answered, s), TheCalls) == [] == All(Entry(m, known, answered, s), TheResults)
  {
    var entry := Entry(m, known, answered, s);
    assert |entry| == 1;
    forall p | p in entry[0].content
      ensures p.AIText? || p.AIFile?
    {
      UserParts(m, s, p);
    }
    SelectNone(entry[0].content, TheCalls);
    SelectNone(entry[0].content, TheResults);
    AllOfOne(entry[0], TheCalls);
    AllOfOne(entry[0], TheResults);
    assert entry == [entry[0]];
  }

  lemma AssistantEntry(m: Message, known: set<string>, answered: set<string>, s: Setting)
    requires m.role == Assistant && !Skipped(m)
    ensures Entry(m, known, answered, s) == ToAIMessage(m, s.codec) + ToolMessage(Synthetic(Calls(m.parts), answered))
  {
  }

  lemma AssistantEntryReads(m: Message, known: set<string>, answered: set<string>, s: Setting, kind: Kind)
    requires m.role == Assistant && !Skipped(m)
    ensures All(Entry(m, known, answered, s), kind) ==
            match kind
            case TheCalls => CallParts(Calls(m.parts))
            case TheResults => Synthetic(Calls(m.parts), answered)
            case TheFiles => []
  {
    var more := Synthetic(Calls(m.parts), answered);
    AssistantEntry(m, known, answered, s);
    AssistantReads(m, s.codec, kind);
    hide Entry, ToAIMessage, Calls, Synthetic, All, ToolMessage;
    SyntheticAreResults(Calls(m.parts), answered);
    ToolMessageReads(more, kind);
    AllConcat(ToAIMessage(m, s.codec), ToolMessage(more), kind);
  }

  // ---------------------------------------------------------------------- whole histories

  function RepairedAll(msgs: seq<Message>, known: set<string>, answered: set<string>, codec: Codec): seq<AIPart> {
    if msgs == [] then []
    else
      RepairedAll(msgs[..|msgs| - 1], known, answered, codec)
      + Repaired(msgs[|msgs| - 1], known, answered, codec)
  }

  lemma {:induction false} EntriesRead(msgs: seq<Message>, known: set<string>, answered: set<string>, s: Setting)
    ensures All(Entries(msgs, known, answered, s), TheCalls) == StoredCalls(msgs)
    ensures All(Entries(msgs, known, answered, s), TheResults) == RepairedAll(msgs, known, answered, s.codec)
  {
    if msgs != [] {
      hide Entry, CallsOf, Repaired, All;
      var m := msgs[|msgs| - 1];
      var front := msgs[..|msgs| - 1];
      EntriesRead(front, known, answered, s);
      EntryReads(m, known, answered, s);
      AllConcat(Entries(front, known, answered, s), Entry(m, known, answered, s), TheCalls);
      AllConcat(Entries(front, known, answered, s), Entry(m, known, answered, s), TheResults);
    }
  }

  lemma {:induction false} PromptReads(msgs: seq<Message>, s: Setting)
    ensures All(Prompt(msgs, s), TheCalls) == StoredCalls(msgs)
    ensures All(Prompt(msgs, s), TheResults) == RepairedAll(msgs, KnownCalls(msgs), KnownResults(msgs), s.codec)
  {
    hide KnownCalls, KnownResults, Entries;
    var known, answered := KnownCalls(msgs), KnownResults(msgs);
    EntriesRead(msgs, known, answered, s);
    if s.isSubAgent {
      assert [] + Entries(msgs, known, answered, s) == Entries(msgs, known, answered, s);
    } else {
      var reminder := AIMessage(UserRole, [AIText(s.reminder)]);
      AllOfOne(reminder, TheCalls);
      AllOfOne(reminder, TheResults);
      SelectNone(reminder.content, TheCalls);
      SelectNone(reminder.content, TheResults);
      AllConcat([reminder], Entries(msgs, known, answered, s), TheCalls);
      AllConcat([reminder], Entries(msgs, known, answered, s), TheResults);
    }
  }

  lemma NamesConcat(a: seq<AIPart>, b: seq<AIPart>, id: string)
    ensures Names(a + b, id) <==> Names(a, id) || Names(b, id)
  {
  }

  lemma NamesCall(m: Message, id: string)
    ensures Names(CallsOf(m), id) <==> m.role == Assistant && id in IDsOfCalls(Calls(m.parts))
  {
    if m.role == Assistant {
      var calls := Calls(m.parts);
      var parts := CallParts(calls);
      assert forall i :: 0 <= i < |calls| ==> parts[i].id == calls[i].id && parts[i] in parts;
    }
  }

  lemma NamesResult(m: Message, codec: Codec, id: string)
    ensures Names(ResultsOf(m, codec), id) <==> m.role == Tool && id in IDsOfResults(Results(m.parts))
  {
    if m.role == Tool {
      var results := Results(m.parts);
      var parts := ResultParts(results, codec);
      assert forall i :: 0 <= i < |results| ==> parts[i].id == results[i].toolCallID && parts[i] in parts;
    }
  }

  lemma NamesRepaired(m: Message, known: set<string>, answered: set<string>, codec: Codec, id: string)
    ensures Names(Repaired(m, known, answered, codec), id)
            <==> (id in known && Names(ResultsOf(m, codec), id)) || (id !in answered && Names(CallsOf(m), id))
  {
    NamesCall(m, id);
    if m.role == Tool {
      KeptAreResults(ResultParts(Results(m.parts), codec), known);
    } else if m.role == Assistant {
      SyntheticAreResults(Calls(m.parts), answered);
    }
  }

  lemma {:induction false} StoredNames(msgs: seq<Message>, codec: Codec, id: string)
    ensures Names(StoredCalls(msgs), id) <==> id in KnownCalls(msgs)
    ensures Names(StoredResults(msgs, codec), id) <==> id in KnownResults(msgs)
  {
    if msgs != [] {
      hide Names, Calls, Results, CallsOf, ResultsOf;
      var front, m := msgs[..|msgs| - 1], msgs[|msgs| - 1];
      StoredNames(front, codec, id);
      NamesCall(m, id);
      NamesResult(m, codec, id);
      NamesConcat(StoredCalls(front), CallsOf(m), id);
      NamesConcat(StoredResults(front, codec), ResultsOf(m, codec), id);
      assert msgs == front + [m];
    } else {
      assert !Names([], id);
    }
  }

  lemma {:induction false} RepairedNames(msgs: seq<Message>, known: set<string>, answered: set<string>, codec: Codec,
                                         id: string)
    ensures Names(RepairedAll(msgs, known, answered, codec), id)
            <==> (id in known && Names(StoredResults(msgs, codec), id))
                 || (id !in answered && Names(StoredCalls(msgs), id))
  {
    if msgs != [] {
      hide Names, CallsOf, ResultsOf, Repaired;
      var front, m := msgs[..|msgs| - 1], msgs[|msgs| - 1];
      RepairedNames(front, known, answered, codec, id);
      NamesRepaired(m, known, answered, codec, id);
      NamesConcat(StoredCalls(front), CallsOf(m), id);
      NamesConcat(StoredResults(front, codec), ResultsOf(m, codec), id);
      NamesConcat(RepairedAll(front, known, answered, codec), Repaired(m, known, answered, codec), id);
    }
  }

  /** Whatever is stored, the prompt history is closed: it carries every stored call, in order,
      and names the same IDs in its calls and in its results. */
  lemma {:induction false} HistoryIsClosed(msgs: seq<Message>, s: Setting, id: string)
    ensures All(Prompt(msgs, s), TheCalls) == StoredCalls(msgs)
    ensures Names(All(Prompt(msgs, s), TheCalls), id) <==> Names(All(Prompt(msgs, s), TheResults), id)
  {
    hide Names, Prompt, All, StoredCalls;
    PromptReads(msgs, s);
    StoredNames(msgs, s.codec, id);
    RepairedNames(msgs, KnownCalls(msgs), KnownResults(msgs), s.codec, id);
  }

  lemma {:induction false} NothingToRepair(msgs: seq<Message>, ids: set<string>, codec: Codec)
    requires KnownCalls(msgs) <= ids && KnownResults(msgs) <= ids
    ensures RepairedAll(msgs, ids, ids, codec) == StoredResults(msgs, codec)
  {
    if msgs != [] {
      hide Calls, Results, KeepKnown, Synthetic;
      var front, m := msgs[..|msgs| - 1], msgs[|msgs| - 1];
      assert msgs == front + [m];
      assert KnownCalls(front) <= KnownCalls(msgs) && KnownResults(front) <= KnownResults(msgs);
      NothingToRepair(front, ids, codec);
      if m.role == Tool {
        assert IDsOfResults(Results(m.parts)) <= KnownResults(msgs);
        KeptAreResults(ResultParts(Results(m.parts), codec), ids);
      } else if m.role == Assistant {
        assert IDsOfCalls(Calls(m.parts)) <= KnownCalls(msgs);
        SyntheticAreResults(Calls(m.parts), ids);
      }
    }
  }

  /** The prompt's results are the stored ones. */
  predicate Untouched(msgs: seq<Message>, s: Setting) {
    All(Prompt(msgs, s), TheResults) == StoredResults(msgs, s.codec)
  }

  /** Each stored call has a stored result and each stored result a stored call. */
  predicate IsClosed(msgs: seq<Message>) {
    KnownCalls(msgs) == KnownResults(msgs)
  }

  /** The stored results reach the prompt as they are, none dropped and none made up, exactly
      when the stored history is closed. */
  lemma {:induction false} RepairOnlyWhenOpen(msgs: seq<Message>, s: Setting)
    ensures Untouched(msgs, s) <==> IsClosed(msgs)
  {
    hide Names, Prompt, All, StoredCalls, StoredResults, RepairedAll;
    PromptReads(msgs, s);
    if KnownCalls(msgs) == KnownResults(msgs) {
      NothingToRepair(msgs, KnownCalls(msgs), s.codec);
    } else {
      forall id
        ensures Names(StoredCalls(msgs), id) <==> id in KnownCalls(msgs)
        ensures Names(StoredResults(msgs, s.codec), id) <==> id in KnownResults(msgs)
        ensures Names(StoredCalls(msgs), id) <==> Names(All(Prompt(msgs, s), TheResults), id)
      {
        StoredNames(msgs, s.codec, id);
        HistoryIsClosed(msgs, s, id);
      }
    }
  }

  // ------------------------------------------------------------------------ no images

  lemma {:induction false} NoFilesLeft(parts: seq<AIPart>)
    ensures forall p <- WithoutFiles(parts) :: !p.AIFile?
  {
    if parts != [] { NoFilesLeft(parts[..|parts| - 1]); }
  }

  lemma EntryWithoutFiles(m: Message, known: set<string>, answered: set<string>, s: Setting)
    requires !s.supportsImages
    ensures All(Entry(m, known, answered, s), TheFiles) == []
  {
    if Skipped(m) {
    } else if m.role == Tool {
      var parts := ResultParts(Results(m.parts), s.codec);
      KeptAreResults(parts, known);
      ToolMessageReads(KeepKnown(parts, known), TheFiles);
    } else if m.role == User {
      var parts := ToAIMessage(m, s.codec)[0].content;
      NoFilesLeft(parts);
      SelectNone(WithoutFiles(parts), TheFiles);
      AllOfOne(AIMessage(UserRole, WithoutFiles(parts)), TheFiles);
    } else if m.role == Assistant {
      AssistantEntryReads(m, known, answered, s, TheFiles);
    }
  }

  lemma {:induction false} EntriesWithoutFiles(msgs: seq<Message>, known: set<string>, answered: set<string>,
                                               s: Setting)
    requires !s.supportsImages
    ensures All(Entries(msgs, known, answered, s), TheFiles) == []
  {
    hide Entry, Select;
    if msgs != [] {
      var front, m := msgs[..|msgs| - 1], msgs[|msgs| - 1];
      EntriesWithoutFiles(front, known, answered, s);
      EntryWithoutFiles(m, known, answered, s);
      AllConcat(Entries(front, known, answered, s), Entry(m, known, answered, s), TheFiles);
    }
  }

  /** A model without images is sent no file of the history. */
  lemma {:induction false} NoFilesWithoutImages(msgs: seq<Message>, s: Setting)
    requires !s.supportsImages
    ensures All(Prompt(msgs, s), TheFiles) == []
  {
    hide KnownCalls, KnownResults, Entries;
    var known, answered := KnownCalls(msgs), KnownResults(msgs);
    var reminder := AIMessage(UserRole, [AIText(s.reminder)]);
    EntriesWithoutFiles(msgs, known, answered, s);
    AllOfOne(reminder, TheFiles);
    SelectNone(reminder.content, TheFiles);
    AllConcat([reminder], Entries(msgs, known, answered, s), TheFiles);
    assert [] + Entries(msgs, known, answered, s) == Entries(msgs, known, answered, s);
  }

  // ------------------------------------------------------------- the summary and the cleanup

  /** The cut keeps exactly what follows the first message with the summary's ID, and that
      message as the user's. */
  lemma {:induction false} CutKeepsTheRest(listed: seq<Message>, summaryID: string) returns (k: nat)
    requires Has(listed, summaryID)
    ensures k < |listed| && listed[k].id == summaryID && forall j :: 0 <= j < k ==> listed[j].id != summaryID
    ensures FromSummary(listed, summaryID) == [listed[k].(role := User)] + listed[k + 1..]
  {
    k := 0;
    if listed[0].id != summaryID {
      var j := CutKeepsTheRest(listed[1..], summaryID);
      k := j + 1;
      assert listed[1..][j + 1..] == listed[k + 1..];
    }
  }

  /** A cut history holds no call of the summary message and no call from before it, so results
      of those are dropped, and every call that is left is answered. */
  lemma {:induction false} CutHistoryIsClosed(listed: seq<Message>, summaryID: string, s: Setting, id: string)
    requires Has(listed, summaryID)
    ensures var h := Prompt(FromSummary(listed, summaryID), s);
            && (Names(All(h, TheCalls), id) <==> Names(All(h, TheResults), id))
            && exists k :: 0 <= k < |listed| && listed[k].id == summaryID
                           && (Names(All(h, TheCalls), id) <==> id in KnownCalls(listed[k + 1..]))
  {
    hide Names, Prompt, All, StoredCalls, Entry;
    var msgs := FromSummary(listed, summaryID);
    var k := CutKeepsTheRest(listed, summaryID);
    HistoryIsClosed(msgs, s, id);
    StoredNames(msgs, s.codec, id);
    CallsAfterHead(listed[k].(role := User), listed[k + 1..]);
    assert id in KnownCalls(msgs) <==> id in KnownCalls(listed[k + 1..]);
  }

  lemma CallsAfterHead(m: Message, rest: seq<Message>)
    requires m.role != Assistant
    ensures KnownCalls([m] + rest) == KnownCalls(rest)
  {
    hide Calls;
    assert forall x :: x in [m] + rest <==> x == m || x in rest;
  }

  /** Once error cleanup has stored the message and its error results, the repair finds nothing
      left to make up for any of the message's calls. */
  lemma {:induction false} CleanedUpNeedsNoRepair(cbs: seq<Callback>, times: seq<nat>, now: nat, finish: Part,
                               listed: seq<Message>, cancelled: bool, stored: seq<Message>)
    requires |times| == |cbs| && finish.FinishPart?
    requires forall m <- listed :: m.role == Tool ==> m in stored
    requires var calls := Calls(ApplyEdit(Built(cbs, times), FinishThinking(now)));
             forall r <- Owed(calls, listed, cancelled) ::
               exists m <- stored :: m.role == Tool && r in Results(m.parts)
    ensures Synthetic(Calls(CleanedUp(Built(cbs, times), now, finish)), KnownResults(stored)) == []
  {
    hide Calls, Results, Built, ApplyEdit, CleanedUp, Owed;
    var before := Built(cbs, times);
    var after := Calls(CleanedUp(before, now, finish));
    var owed := Owed(Calls(ApplyEdit(before, FinishThinking(now))), listed, cancelled);
    CleanUpClosesEveryCall(cbs, times, now, finish);
    forall id | id in IDsOfCalls(after)
      ensures id in KnownResults(stored)
    {
      var tc :| tc in after && tc.id == id;
      InIDs(after, tc);
      CleanUpAnswersEveryCallOnce(cbs, times, now, listed, cancelled, id);
      if !Answered(listed, id) {
        assert id in multiset(ResultIDs(owed));
        var i :| 0 <= i < |owed| && ResultIDs(owed)[i] == id;
        assert owed[i] in owed;
      }
    }
    SyntheticAreResults(after, KnownResults(stored));
  }

  lemma InIDs(calls: seq<ToolCall>, tc: ToolCall)
    requires tc in calls
    ensures tc.id in IDs(calls)
  {
    var i :| 0 <= i < |calls| && calls[i] == tc;
    assert IDs(calls)[i] == tc.id;
  }
}
