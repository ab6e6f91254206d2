/**
 internal/agent/agent.go, internal/message/content.go: what the prompt history says.  For every
 stored message, in order, which messages of the history stand for it and what they carry, part by
 part; and the same of the media workaround.
 */
module HistoryContent {
  import opened Options
  import opened Text
  import opened Content
  import opened History
  import opened HistoryTheorems
  import opened MediaTheorems

  function Flatten(pieces: seq<seq<AIMessage>>): seq<AIMessage> {
    if pieces == [] then [] else Flatten(pieces[..|pieces| - 1]) + pieces[|pieces| - 1]
  }

  // ------------------------------------------------------------------------- user messages

  /** The binaries of a message, those of a text type or the others, in order. */
  function BinariesOf(ps: seq<Part>, text: bool): seq<Part> {
    if ps == [] then []
    else if ps[0].BinaryPart? && ("text/" <= ps[0].mimeType <==> text) then [ps[0]] + BinariesOf(ps[1..], text)
    else BinariesOf(ps[1..], text)
  }

  /** A text attachment as it stands in the prompt. */
  function Quoted(b: Part): string
    requires b.BinaryPart?
  {
    (if b.path == "" then "<file>\n" else "<file path='" + b.path + "'>\n") + "\n" + b.data + "\n</file>\n"
  }

  /** The attachments, one after the other. */
  predicate QuotesAll(text: string, bs: seq<Part>) {
    if bs == [] then text == ""
    else bs[0].BinaryPart? && Quoted(bs[0]) <= text && QuotesAll(text[|Quoted(bs[0])|..], bs[1..])
  }

  const ATTACHED :=
    "\n<system_info>The files below have been attached by the user, consider them in your response</system_info>\n"

  /** After the heading, if there is anything to head. */
  predicate Follows(text: string, bs: seq<Part>) {
    if bs == [] then text == "" else ATTACHED <= text && QuotesAll(text[|ATTACHED|..], bs)
  }

  /** What a user message says: its text without the blanks around it, then the text attachments. */
  predicate UserText(m: Message, text: string) {
    var said := TrimSpace(TextOf(m.parts));
    said <= text && Follows(text[|said|..], BinariesOf(m.parts, true))
  }

  predicate IsFile(p: AIPart, b: Part) {
    b.BinaryPart? && p == AIFile(b.path, b.data, b.mimeType)
  }

  predicate UserContent(m: Message, content: seq<AIPart>, images: bool) {
    var bs := if images then BinariesOf(m.parts, false) else [];
    var n := |content| - |bs|;
    && 0 <= n <= 1
    && (n == 1 ==> content[0].AIText? && content[0].text != "" && UserText(m, content[0].text))
    && (n == 0 ==> UserText(m, ""))
    && forall i :: 0 <= i < |bs| ==> IsFile(content[n + i], bs[i])
  }

  // -------------------------------------------------------------------- assistant messages

  predicate IsCall(p: AIPart, tc: ToolCall) {
    p == AICall(tc.id, tc.name, tc.input, tc.providerExecuted)
  }

  predicate IsReasoning(p: AIPart, r: Reasoning) {
    && p.AIReasoning? && p.text == r.thinking && p.responses == r.responsesData
    && (if r.signature == "" then p.signature.None? else p.signature == Some(r.signature))
    && (if r.thoughtSignature == "" then p.thought.None? else p.thought == Some((r.thoughtSignature, r.toolID)))
  }

  predicate AssistantContent(m: Message, content: seq<AIPart>) {
    var said, r, calls := TrimSpace(TextOf(m.parts)), ReasoningOf(m.parts), Calls(m.parts);
    var a := if said == "" then 0 else 1;
    var b := if r.thinking == "" then a else a + 1;
    && |content| == b + |calls|
    && (said != "" ==> content[0] == AIText(said))
    && (r.thinking != "" ==> IsReasoning(content[a], r))
    && forall i :: 0 <= i < |calls| ==> IsCall(content[b + i], calls[i])
  }

  const NO_RESULT :=
    "tool call was interrupted and did not produce a result, you may retry this call if the result is still needed"

  /** The results that are made up, one for each call without an answer, in order. */
  predicate MadeUp(calls: seq<ToolCall>, content: seq<AIPart>, msgs: seq<Message>) {
    if calls == [] then content == []
    else
      var tc := calls[|calls| - 1];
      if HasResult(msgs, tc.id) then MadeUp(calls[..|calls| - 1], content, msgs)
      else
        && content != []
        && content[|content| - 1] == AIResult(tc.id, ErrorOutput(NO_RESULT))
        && MadeUp(calls[..|calls| - 1], content[..|content| - 1], msgs)
  }

  // ------------------------------------------------------------------------- tool messages

  predicate HasCallFor(msgs: seq<Message>, id: string) {
    exists m <- msgs :: m.role == Assistant && exists tc <- Calls(m.parts) :: tc.id == id
  }

  predicate HasResult(msgs: seq<Message>, id: string) {
    exists m <- msgs :: m.role == Tool && exists r <- Results(m.parts) :: r.toolCallID == id
  }

  /** The output of a stored result: an error, media that are sound, or text. */
  predicate IsOutput(o: Output, r: ToolResult, codec: Codec) {
    if r.isError then o == ErrorOutput(r.content)
    else if r.data == "" then o == TextOutput(r.content)
    else if codec.decode(r.data).Some? && codec.encode(codec.decode(r.data).value) == r.data
      then o == MediaOutput(r.data, r.mimeType)
    else o == TextOutput("[Image data could not be loaded]")
  }

  /** The results that have a call, in order. */
  predicate Kept(results: seq<ToolResult>, content: seq<AIPart>, msgs: seq<Message>, codec: Codec) {
    if results == [] then content == []
    else
      var r := results[|results| - 1];
      if !HasCallFor(msgs, r.toolCallID) then Kept(results[..|results| - 1], content, msgs, codec)
      else
        && content != [] && content[|content| - 1].AIResult?
        && content[|content| - 1].id == r.toolCallID && IsOutput(content[|content| - 1].output, r, codec)
        && Kept(results[..|results| - 1], content[..|content| - 1], msgs, codec)
  }

  // ---------------------------------------------------------------------- a stored message

  /** One tool message that is not empty, or none. */
  predicate ToolAtMost(piece: seq<AIMessage>) {
    piece == [] || (|piece| == 1 && piece[0].role == ToolRole && piece[0].content != [])
  }

  function ToolContent(piece: seq<AIMessage>): seq<AIPart> {
    if piece == [] then [] else piece[0].content
  }

  /** What stands for the stored message in the history. */
  predicate Fits(m: Message, piece: seq<AIMessage>, msgs: seq<Message>, s: Setting) {
    if m.parts == [] then piece == []
    else
      match m.role
      case System => piece == []
      case User => |piece| == 1 && piece[0].role == UserRole && UserContent(m, piece[0].content, s.supportsImages)
      case Tool => ToolAtMost(piece) && Kept(Results(m.parts), ToolContent(piece), msgs, s.codec)
      case Assistant =>
        if Calls(m.parts) == [] && TextOf(m.parts) == "" && ReasoningOf(m.parts).thinking == "" then piece == []
        else
          && piece != [] && piece[0].role == AssistantRole && AssistantContent(m, piece[0].content)
          && ToolAtMost(piece[1..]) && MadeUp(Calls(m.parts), ToolContent(piece[1..]), msgs)
  }

  // ------------------------------------------------------------------------- user messages

  lemma KnownMeans(msgs: seq<Message>, id: string)
    ensures id in KnownCalls(msgs) <==> HasCallFor(msgs, id)
    ensures id in KnownResults(msgs) <==> HasResult(msgs, id)
  {
    hide Calls, Results;
  }

  predicate AreFiles(files: seq<AIPart>, bs: seq<Part>) {
    |files| == |bs| && forall i :: 0 <= i < |bs| ==> IsFile(files[i], bs[i])
  }

  lemma MoreFiles(p: AIPart, files: seq<AIPart>, b: Part, bs: seq<Part>)
    requires IsFile(p, b) && AreFiles(files, bs)
    ensures AreFiles([p] + files, [b] + bs)
  {
  }

  lemma {:induction false} FilesAre(ps: seq<Part>)
    ensures AreFiles(Files(Binaries(ps)), BinariesOf(ps, false))
  {
    if ps != [] {
      hide Binaries, AreFiles;
      FilesAre(ps[1..]);
      BinariesHead(ps);
      var b, rest := ps[0], Files(Binaries(ps[1..]));
      if b.BinaryPart? && !IsText(b.mimeType) {
        MoreFiles(AIFile(b.path, b.data, b.mimeType), rest, b, BinariesOf(ps[1..], false));
      } else {
        assert [] + rest == rest;
      }
    }
  }

  lemma QuotesMore(b: Part, text: string, bs: seq<Part>)
    requires b.BinaryPart? && QuotesAll(text, bs)
    ensures QuotesAll(Quoted(b) + text, [b] + bs)
  {
    assert (Quoted(b) + text)[|Quoted(b)|..] == text && ([b] + bs)[1..] == bs;
  }

  lemma AttachedHead(bs: seq<Part>, first: bool)
    requires bs != [] && bs[0].BinaryPart? && IsText(bs[0].mimeType)
    ensures Attached(bs, first) == (if first then ATTACHED else "") + (Quoted(bs[0]) + Attached(bs[1..], false))
  {
  }

  lemma BinariesHead(ps: seq<Part>)
    requires ps != []
    ensures Binaries(ps) == (if ps[0].BinaryPart? then [ps[0]] else []) + Binaries(ps[1..])
    ensures ps[0].BinaryPart? ==>
              Binaries(ps) != [] && Binaries(ps)[0] == ps[0] && Binaries(ps)[1..] == Binaries(ps[1..])
    ensures !ps[0].BinaryPart? ==> Binaries(ps) == Binaries(ps[1..])
  {
  }

  lemma AttachedSkips(ps: seq<Part>, first: bool)
    requires ps != [] && !(ps[0].BinaryPart? && IsText(ps[0].mimeType))
    ensures Attached(Binaries(ps), first) == Attached(Binaries(ps[1..]), first)
  {
    hide Binaries;
    BinariesHead(ps);
  }

  lemma {:induction false} AttachedQuotes(ps: seq<Part>)
    ensures QuotesAll(Attached(Binaries(ps), false), BinariesOf(ps, true))
  {
    hide Quoted, QuotesAll, Binaries;
    if ps != [] {
      AttachedQuotes(ps[1..]);
      BinariesHead(ps);
      if ps[0].BinaryPart? && IsText(ps[0].mimeType) {
        QuotesMore(ps[0], Attached(Binaries(ps[1..]), false), BinariesOf(ps[1..], true));
        AttachedHead(Binaries(ps), false);
        var tail := Quoted(ps[0]) + Attached(Binaries(ps[1..]), false);
        assert "" + tail == tail;
      } else {
        AttachedSkips(ps, false);
        assert BinariesOf(ps, true) == BinariesOf(ps[1..], true);
      }
    } else {
      NoQuotes();
    }
  }

  lemma NoQuotes()
    ensures QuotesAll("", []) && Attached(Binaries([]), false) == "" == Attached(Binaries([]), true)
  {
  }

  /** The heading is there when there is anything to head. */
  lemma {:induction false} AttachedFirst(ps: seq<Part>)
    ensures Attached(Binaries(ps), true)
            == if BinariesOf(ps, true) == [] then "" else ATTACHED + Attached(Binaries(ps), false)
  {
    hide Quoted, Binaries, Attached;
    if ps != [] {
      AttachedFirst(ps[1..]);
      BinariesHead(ps);
      if ps[0].BinaryPart? && IsText(ps[0].mimeType) {
        AttachedHead(Binaries(ps), true);
        AttachedHead(Binaries(ps), false);
      } else {
        AttachedSkips(ps, true);
        AttachedSkips(ps, false);
      }
    } else {
      NoQuotes();
    }
  }

  lemma Splits(a: string, b: string)
    ensures a <= a + b && (a + b)[|a|..] == b
  {
  }

  lemma AttachedFollows(ps: seq<Part>)
    ensures Follows(Attached(Binaries(ps), true), BinariesOf(ps, true))
  {
    AttachedFirst(ps);
    AttachedQuotes(ps);
    Splits(ATTACHED, Attached(Binaries(ps), false));
    hide Attached, Quoted, Binaries, BinariesOf, QuotesAll;
  }

  lemma UserSays(m: Message)
    ensures UserText(m, TrimSpace(TextOf(m.parts)) + Attached(Binaries(m.parts), true))
  {
    AttachedFollows(m.parts);
    Splits(TrimSpace(TextOf(m.parts)), Attached(Binaries(m.parts), true));
  }

  lemma {:induction false} WithoutFilesSplit(a: seq<AIPart>, b: seq<AIPart>)
    ensures WithoutFiles(a + b) == WithoutFiles(a) + WithoutFiles(b)
  {
    if b == [] {
      assert a + b == a;
    } else {
      var n := |b| - 1;
      WithoutFilesSplit(a, b[..n]);
      assert (a + b)[..|a + b| - 1] == a + b[..n];
      var last := if b[n].AIFile? then [] else [b[n]];
      assert WithoutFiles(a) + WithoutFiles(b[..n]) + last == WithoutFiles(a) + (WithoutFiles(b[..n]) + last);
    }
  }

  /** The filter drops the files, keeps every other part as it is, and keeps the order. */
  lemma FilterKeepsTheRest(a: seq<AIPart>, b: seq<AIPart>, p: AIPart)
    ensures WithoutFiles([]) == []
    ensures WithoutFiles(a + [p] + b) == WithoutFiles(a) + (if p.AIFile? then [] else [p]) + WithoutFiles(b)
  {
    WithoutFilesSplit(a + [p], b);
    WithoutFilesSplit(a, [p]);
    assert [p][..0] == [];
    assert [] + [p] == [p];
  }

  lemma {:induction false} OnlyFilesGo(files: seq<AIPart>)
    requires forall i :: 0 <= i < |files| ==> files[i].AIFile?
    ensures WithoutFiles(files) == []
  {
    if files != [] { OnlyFilesGo(files[..|files| - 1]); }
  }

  lemma TextStays(text: string)
    ensures WithoutFiles(NonEmpty(text)) == NonEmpty(text)
  {
    if text != "" {
      FilterKeepsTheRest([], [], AIText(text));
      assert [] + [AIText(text)] + [] == [AIText(text)];
    }
  }

  lemma UserEntry(m: Message, known: set<string>, answered: set<string>, s: Setting)
    requires m.role == User && m.parts != []
    ensures var text := TrimSpace(TextOf(m.parts)) + Attached(Binaries(m.parts), true);
            Entry(m, known, answered, s)
            == [AIMessage(UserRole, NonEmpty(text) + if s.supportsImages then Files(Binaries(m.parts)) else [])]
  {
    var text, files := TrimSpace(TextOf(m.parts)) + Attached(Binaries(m.parts), true), Files(Binaries(m.parts));
    FilesAre(m.parts);
    hide TrimSpace, TextOf, Attached, Binaries, BinariesOf, Files, NonEmpty;
    WithoutFilesSplit(NonEmpty(text), files);
    TextStays(text);
    OnlyFilesGo(files);
  }

  lemma UserFits(m: Message, msgs: seq<Message>, s: Setting)
    requires m.role == User
    ensures Fits(m, Entry(m, KnownCalls(msgs), KnownResults(msgs), s), msgs, s)
  {
    if m.parts != [] {
      UserEntry(m, KnownCalls(msgs), KnownResults(msgs), s);
      UserSays(m);
      FilesAre(m.parts);
      hide Entry, TrimSpace, TextOf, Attached, Binaries, BinariesOf, Files, UserText, KnownCalls, KnownResults;
    }
  }

  // -------------------------------------------------------------------- the other messages

  lemma AssistantSays(m: Message, codec: Codec)
    requires m.role == Assistant
    ensures var h := ToAIMessage(m, codec); |h| == 1 && h[0].role == AssistantRole && AssistantContent(m, h[0].content)
  {
    hide TrimSpace, TextOf, ReasoningOf, Calls;
  }

  lemma {:induction false} SyntheticIsMadeUp(calls: seq<ToolCall>, msgs: seq<Message>)
    ensures MadeUp(calls, Synthetic(calls, KnownResults(msgs)), msgs)
  {
    if calls != [] {
      hide KnownResults, HasResult;
      var n := |calls| - 1;
      SyntheticIsMadeUp(calls[..n], msgs);
      KnownMeans(msgs, calls[n].id);
      var front := Synthetic(calls[..n], KnownResults(msgs));
      assert front + [] == front;
      assert (front + [AIResult(calls[n].id, ErrorOutput(INTERRUPTED))])[..|front|] == front;
    }
  }

  lemma AssistantFits(m: Message, msgs: seq<Message>, s: Setting)
    requires m.role == Assistant && !Skipped(m)
    ensures Fits(m, Entry(m, KnownCalls(msgs), KnownResults(msgs), s), msgs, s)
  {
    var calls, answered := Calls(m.parts), KnownResults(msgs);
    AssistantEntry(m, KnownCalls(msgs), answered, s);
    AssistantSays(m, s.codec);
    SyntheticIsMadeUp(calls, msgs);
    hide Entry, ToAIMessage, AssistantContent, Synthetic, MadeUp, KnownCalls, KnownResults, TextOf, Calls, ReasoningOf;
    var entry := Entry(m, KnownCalls(msgs), answered, s);
    assert entry[1..] == ToolMessage(Synthetic(calls, answered));
  }

  lemma OutputIs(r: ToolResult, codec: Codec)
    ensures IsOutput(OutputOf(r, codec), r, codec)
  {
  }

  lemma {:induction false} KnownAreKept(results: seq<ToolResult>, msgs: seq<Message>, codec: Codec)
    ensures Kept(results, KeepKnown(ResultParts(results, codec), KnownCalls(msgs)), msgs, codec)
  {
    if results != [] {
      hide KnownCalls, HasCallFor, OutputOf, IsOutput;
      var n := |results| - 1;
      var r, parts := results[n], ResultParts(results, codec);
      KnownAreKept(results[..n], msgs, codec);
      KnownMeans(msgs, r.toolCallID);
      OutputIs(r, codec);
      assert parts[..n] == ResultParts(results[..n], codec);
      var front := KeepKnown(parts[..n], KnownCalls(msgs));
      assert front + [] == front;
      assert (front + [parts[n]])[..|front|] == front;
    }
  }

  lemma ToolFits(m: Message, msgs: seq<Message>, s: Setting)
    requires m.role == Tool
    ensures Fits(m, Entry(m, KnownCalls(msgs), KnownResults(msgs), s), msgs, s)
  {
    KnownAreKept(Results(m.parts), msgs, s.codec);
    hide KeepKnown, ResultParts, Kept, KnownCalls, KnownResults, Results;
  }

  lemma EntryFits(m: Message, msgs: seq<Message>, s: Setting)
    ensures Fits(m, Entry(m, KnownCalls(msgs), KnownResults(msgs), s), msgs, s)
  {
    match m.role
    case User => UserFits(m, msgs, s);
    case Tool => ToolFits(m, msgs, s);
    case Assistant => if !Skipped(m) { AssistantFits(m, msgs, s); }
    case System =>
  }

  predicate AllFit(front: seq<Message>, pieces: seq<seq<AIMessage>>, msgs: seq<Message>, s: Setting) {
    |pieces| == |front| && forall i :: 0 <= i < |front| ==> Fits(front[i], pieces[i], msgs, s)
  }

  lemma FitsMore(front: seq<Message>, m: Message, before: seq<seq<AIMessage>>, last: seq<AIMessage>,
                 msgs: seq<Message>, s: Setting)
    requires AllFit(front, before, msgs, s) && Fits(m, last, msgs, s)
    ensures AllFit(front + [m], before + [last], msgs, s)
  {
    hide Fits;
  }

  lemma {:induction false} EntriesSay(front: seq<Message>, msgs: seq<Message>, s: Setting)
    returns (pieces: seq<seq<AIMessage>>)
    ensures Entries(front, KnownCalls(msgs), KnownResults(msgs), s) == Flatten(pieces)
    ensures AllFit(front, pieces, msgs, s)
  {
    hide Entry, KnownCalls, KnownResults, Fits, Flatten, AllFit;
    if front == [] {
      pieces := [];
      NothingFlat(msgs, s);
    } else {
      var n := |front| - 1;
      var before := EntriesSay(front[..n], msgs, s);
      var last := Entry(front[n], KnownCalls(msgs), KnownResults(msgs), s);
      EntryFits(front[n], msgs, s);
      pieces := before + [last];
      FlattenMore(before, last);
      FitsMore(front[..n], front[n], before, last, msgs, s);
      assert front[..n] + [front[n]] == front;
    }
  }

  lemma FlattenMore(pieces: seq<seq<AIMessage>>, last: seq<AIMessage>)
    ensures Flatten(pieces + [last]) == Flatten(pieces) + last
  {
    assert (pieces + [last])[..|pieces|] == pieces;
  }

  lemma NothingFlat(msgs: seq<Message>, s: Setting)
    ensures Flatten([]) == [] && AllFit([], [], msgs, s)
  {
  }

  /** Whatever is stored, the prompt history is, after the reminder, one piece for each stored
      message in order, and each piece carries what its message holds. */
  lemma {:induction false} HistorySays(msgs: seq<Message>, s: Setting) returns (pieces: seq<seq<AIMessage>>)
    ensures Prompt(msgs, s)
            == (if s.isSubAgent then [] else [AIMessage(UserRole, [AIText(s.reminder)])]) + Flatten(pieces)
    ensures |pieces| == |msgs| && forall i :: 0 <= i < |msgs| ==> Fits(msgs[i], pieces[i], msgs, s)
  {
    hide Fits, KnownCalls, KnownResults, Entries;
    pieces := EntriesSay(msgs, msgs, s);
  }

  // ------------------------------------------------------------------ the files of a prompt

  lemma {:induction false} PromptFilesSplit(a: seq<Attachment>, b: seq<Attachment>)
    ensures PromptFiles(a + b) == PromptFiles(a) + PromptFiles(b)
  {
    if b == [] {
      assert a + b == a;
    } else {
      var n := |b| - 1;
      PromptFilesSplit(a, b[..n]);
      assert (a + b)[..|a + b| - 1] == a + b[..n];
      var last := PromptFiles([b[n]]);
      assert [b[n]][..0] == [];
      assert PromptFiles(a) + PromptFiles(b[..n]) + last == PromptFiles(a) + (PromptFiles(b[..n]) + last);
    }
  }

  /** Every attachment but the text ones goes as a file, with its name, its bytes and its type, in
      order. */
  lemma {:induction false} AttachmentsGoAsFiles(a: seq<Attachment>, x: Attachment, b: seq<Attachment>)
    ensures PromptFiles([]) == []
    ensures PromptFiles(a + [x] + b)
            == PromptFiles(a) + (if "text/" <= x.mimeType then [] else [AIFile(x.fileName, x.content, x.mimeType)])
               + PromptFiles(b)
  {
    PromptFilesSplit(a + [x], b);
    PromptFilesSplit(a, [x]);
    assert [x][..0] == [];
  }

  // ------------------------------------------------------------------- the media workaround

  /** The bytes of a result that holds media. */
  function MediaIn(p: AIPart, codec: Codec): Option<string> {
    if p.AIResult? && p.output.MediaOutput? then codec.decode(p.output.data) else None
  }

  function MediaBefore(parts: seq<AIPart>, n: nat, codec: Codec): nat
    requires n <= |parts|
  {
    if n == 0 then 0 else MediaBefore(parts, n - 1, codec) + if MediaIn(parts[n - 1], codec).Some? then 1 else 0
  }

  /** The files, one for each result with media, in order. */
  predicate FilesFor(parts: seq<AIPart>, files: seq<AIPart>, codec: Codec) {
    && |files| == MediaBefore(parts, |parts|, codec)
    && forall i :: 0 <= i < |parts| && MediaIn(parts[i], codec).Some? ==>
         var k := MediaBefore(parts, i, codec);
         && k < |files|
         && files[k] == AIFile("tool-result-" + parts[i].id, MediaIn(parts[i], codec).value, parts[i].output.mediaType)
  }

  /** The results with media are replaced where they stand, the other parts stay. */
  predicate MediaReplaced(parts: seq<AIPart>, after: seq<AIPart>, codec: Codec) {
    && |after| == |parts|
    && forall i :: 0 <= i < |parts| ==>
         after[i] == if MediaIn(parts[i], codec).Some?
           then AIResult(parts[i].id, TextOutput("[Image/media content loaded - see attached file]")) else parts[i]
  }

  predicate FitsConverted(m: AIMessage, piece: seq<AIMessage>, codec: Codec) {
    if m.role != ToolRole then piece == [m]
    else
      && piece != [] && piece[0].role == ToolRole && MediaReplaced(m.content, piece[0].content, codec)
      && if MediaBefore(m.content, |m.content|, codec) == 0 then |piece| == 1
         else
           && |piece| == 2 && piece[1].role == UserRole && piece[1].content != []
           && piece[1].content[0] == AIText("Here is the media content from the tool result:")
           && FilesFor(m.content, piece[1].content[1..], codec)
  }

  lemma {:induction false} MediaBeforeFront(parts: seq<AIPart>, n: nat, k: nat, codec: Codec)
    requires k <= n <= |parts|
    ensures MediaBefore(parts[..n], k, codec) == MediaBefore(parts, k, codec)
  {
    if k > 0 { MediaBeforeFront(parts, n, k - 1, codec); }
  }

  lemma {:induction false} MediaAre(parts: seq<AIPart>, codec: Codec)
    ensures FilesFor(parts, MediaFiles(parts, codec), codec)
  {
    if parts != [] {
      var n := |parts| - 1;
      MediaAre(parts[..n], codec);
      MediaBeforeFront(parts, n, n, codec);
      forall i | 0 <= i < n && MediaIn(parts[i], codec).Some?
        ensures var k := MediaBefore(parts, i, codec);
                && k < |MediaFiles(parts[..n], codec)|
                && MediaFiles(parts[..n], codec)[k]
                   == AIFile("tool-result-" + parts[i].id, MediaIn(parts[i], codec).value, parts[i].output.mediaType)
      {
        MediaBeforeFront(parts, n, i, codec);
        assert parts[..n][i] == parts[i];
      }
    }
  }

  lemma ConvertedFits(m: AIMessage, codec: Codec)
    ensures FitsConverted(m, Converted(m, codec), codec)
  {
    if m.role == ToolRole {
      var files := MediaFiles(m.content, codec);
      MediaAre(m.content, codec);
      assert ([AIText(MEDIA_FOLLOWS)] + files)[1..] == files;
    }
  }

  /** The workaround turns every message into its piece, in order: results with media get a
      placeholder, and one message of the user after them brings the media as files. */
  lemma {:induction false} WorkaroundSays(messages: seq<AIMessage>, codec: Codec) returns (pieces: seq<seq<AIMessage>>)
    ensures Workaround(messages, codec) == Flatten(pieces) && |pieces| == |messages|
    ensures forall i :: 0 <= i < |messages| ==> FitsConverted(messages[i], pieces[i], codec)
  {
    pieces := [];
    if messages != [] {
      hide Converted, FitsConverted;
      var n := |messages| - 1;
      var before := WorkaroundSays(messages[..n], codec);
      ConvertedFits(messages[n], codec);
      pieces := before + [Converted(messages[n], codec)];
      assert pieces[..n] == before;
    }
  }
}
