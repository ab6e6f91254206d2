/**
 internal/agent/agent.go, internal/message/content.go: from stored messages to the prompt
 history: conversion, repair of orphaned tool calls and results, and the media workaround.
 */
module History {
  import opened Options
  import opened Text
  import opened Content

  datatype AIRole = SystemRole | UserRole | AssistantRole | ToolRole

  datatype Output = TextOutput(text: string) | ErrorOutput(error: string) | MediaOutput(data: string, mediaType: string)

  datatype AIPart =
    | AIText(text: string)
    | AIReasoning(text: string, signature: Option<string>, responses: Option<string>, thought: Option<(string, string)>)
    | AICall(id: string, name: string, input: string, providerExecuted: bool)
    | AIResult(id: string, output: Output)
    | AIFile(filename: string, data: string, mediaType: string)

  datatype AIMessage = AIMessage(role: AIRole, content: seq<AIPart>)

  datatype Attachment = Attachment(filePath: string, fileName: string, mimeType: string, content: string)

  /** base64.StdEncoding, whose code is not part of this model. */
  datatype Codec = Codec(decode: string -> Option<string>, encode: string -> string)
  {
    /** stringext.IsValidBase64. */
    predicate IsValid(s: string) {
      s != "" && decode(s).Some? && encode(decode(s).value) == s
    }
  }

  const MEDIA_LOAD_FAILED := "[Image data could not be loaded]"
  const MEDIA_LOADED := "[Image/media content loaded - see attached file]"
  const MEDIA_FOLLOWS := "Here is the media content from the tool result:"
  const INTERRUPTED :=
    "tool call was interrupted and did not produce a result, you may retry this call if the result is still needed"
  // ------------------------------------------------------------- one stored message

  predicate IsText(mimeType: string) {
    "text/" <= mimeType
  }

  function Binaries(ps: seq<Part>): seq<Part> {
    if ps == [] then [] else (if ps[0].BinaryPart? then [ps[0]] else []) + Binaries(ps[1..])
  }

  /** The text attachments, as PromptWithTextAttachments adds them to the prompt. */
  function Attached(bs: seq<Part>, first: bool): string {
    if bs == [] then ""
    else if !bs[0].BinaryPart? || !IsText(bs[0].mimeType) then Attached(bs[1..], first)
    else
      (if first then
        "\n<system_info>The files below have been attached by the user, consider them in your response</system_info>\n"
      else "")
      + (if bs[0].path != "" then "<file path='" + bs[0].path + "'>\n" else "<file>\n")
      + "\n" + bs[0].data + "\n</file>\n"
      + Attached(bs[1..], false)
  }

  function Files(bs: seq<Part>): seq<AIPart> {
    if bs == [] then []
    else
      (if bs[0].BinaryPart? && !IsText(bs[0].mimeType) then [AIFile(bs[0].path, bs[0].data, bs[0].mimeType)] else [])
      + Files(bs[1..])
  }

  function OutputOf(r: ToolResult, codec: Codec): Output {
    if r.isError then ErrorOutput(r.content)
    else if r.data != "" then
      if codec.IsValid(r.data) then MediaOutput(r.data, r.mimeType) else TextOutput(MEDIA_LOAD_FAILED)
    else TextOutput(r.content)
  }

  function NonEmpty(text: string): seq<AIPart> {
    if text != "" then [AIText(text)] else []
  }

  function ReasoningParts(r: Reasoning): seq<AIPart> {
    if r.thinking == "" then []
    else
      [AIReasoning(r.thinking,
         if r.signature != "" then Some(r.signature) else None,
         r.responsesData,
         if r.thoughtSignature != "" then Some((r.thoughtSignature, r.toolID)) else None)]
  }

  function CallParts(calls: seq<ToolCall>): (r: seq<AIPart>)
    ensures |r| == |calls|
  {
    seq(|calls|, i requires 0 <= i < |calls| =>
      AICall(calls[i].id, calls[i].name, calls[i].input, calls[i].providerExecuted))
  }

  function ResultParts(results: seq<ToolResult>, codec: Codec): (r: seq<AIPart>)
    ensures |r| == |results|
  {
    seq(|results|, i requires 0 <= i < |results| => AIResult(results[i].toolCallID, OutputOf(results[i], codec)))
  }

  function ToAIMessage(m: Message, codec: Codec): seq<AIMessage> {
    match m.role
    case User =>
      var bs := Binaries(m.parts);
      [AIMessage(UserRole, NonEmpty(TrimSpace(TextOf(m.parts)) + Attached(bs, true)) + Files(bs))]
    case Assistant =>
      [AIMessage(AssistantRole,
         NonEmpty(TrimSpace(TextOf(m.parts))) + ReasoningParts(ReasoningOf(m.parts)) + CallParts(Calls(m.parts)))]
    case Tool => [AIMessage(ToolRole, ResultParts(Results(m.parts), codec))]
    case System => []
  }

  // -------------------------------------------------------------- repair, message by message

  function KeepKnown(parts: seq<AIPart>, known: set<string>): seq<AIPart> {
    if parts == [] then []
    else
      var p := parts[|parts| - 1];
      KeepKnown(parts[..|parts| - 1], known) + if p.AIResult? && p.id !in known then [] else [p]
  }

  function Synthetic(calls: seq<ToolCall>, known: set<string>): seq<AIPart> {
    if calls == [] then []
    else
      var tc := calls[|calls| - 1];
      Synthetic(calls[..|calls| - 1], known)
      + if tc.id in known then [] else [AIResult(tc.id, ErrorOutput(INTERRUPTED))]
  }

  function WithoutFiles(parts: seq<AIPart>): seq<AIPart> {
    if parts == [] then []
    else
      var p := parts[|parts| - 1];
      WithoutFiles(parts[..|parts| - 1]) + if p.AIFile? then [] else [p]
  }

  /** A tool message, unless no part is left. */
  function ToolMessage(parts: seq<AIPart>): seq<AIMessage> {
    if parts == [] then [] else [AIMessage(ToolRole, parts)]
  }

  predicate Skipped(m: Message) {
    || m.parts == []
    || (m.role == Assistant && Calls(m.parts) == [] && TextOf(m.parts) == "" && ReasoningOf(m.parts).thinking == "")
  }

  /** The model, the agent, and the reminder that opens the history of one that is no sub-agent. */
  datatype Setting = Setting(codec: Codec, supportsImages: bool, isSubAgent: bool, reminder: string)

  /** What one stored message adds to the history. */
  function Entry(m: Message, known: set<string>, answered: set<string>, s: Setting): seq<AIMessage> {
    if Skipped(m) then []
    else if m.role == Tool then ToolMessage(KeepKnown(ResultParts(Results(m.parts), s.codec), known))
    else if m.role == User && !s.supportsImages then
      [AIMessage(UserRole, WithoutFiles(ToAIMessage(m, s.codec)[0].content))]
    else
      ToAIMessage(m, s.codec)
      + if m.role == Assistant then ToolMessage(Synthetic(Calls(m.parts), answered)) else []
  }

  function Entries(msgs: seq<Message>, known: set<string>, answered: set<string>, s: Setting): seq<AIMessage> {
    if msgs == [] then []
    else Entries(msgs[..|msgs| - 1], known, answered, s) + Entry(msgs[|msgs| - 1], known, answered, s)
  }

  function KnownCalls(msgs: seq<Message>): set<string> {
    set m <- msgs, tc <- Calls(m.parts) | m.role == Assistant :: tc.id
  }

  function KnownResults(msgs: seq<Message>): set<string> {
    set m <- msgs, r <- Results(m.parts) | m.role == Tool :: r.toolCallID
  }

  function Prompt(msgs: seq<Message>, s: Setting): seq<AIMessage> {
    (if s.isSubAgent then [] else [AIMessage(UserRole, [AIText(s.reminder)])])
    + Entries(msgs, KnownCalls(msgs), KnownResults(msgs), s)
  }

  /** The attachments of the new prompt that go as files. */
  function PromptFiles(attachments: seq<Attachment>): seq<AIPart> {
    if attachments == [] then []
    else
      var a := attachments[|attachments| - 1];
      PromptFiles(attachments[..|attachments| - 1])
      + if IsText(a.mimeType) then [] else [AIFile(a.fileName, a.content, a.mimeType)]
  }

  // ------------------------------------------------------------------------- the code

  method FilterFileParts(parts: seq<AIPart>) returns (filtered: seq<AIPart>)
    ensures filtered == WithoutFiles(parts)
  {
    filtered := [];
    for i := 0 to |parts|
      invariant filtered == WithoutFiles(parts[..i])
    {
      assert parts[..i + 1][..i] == parts[..i];
      if parts[i].AIFile? { continue; }
      filtered := filtered + [parts[i]];
    }
    assert parts[..|parts|] == parts;
  }

  method FilterOrphanedToolResults(m: Message, known: set<string>, codec: Codec) returns (msg: Option<AIMessage>)
    requires m.role == Tool
    ensures var kept := KeepKnown(ResultParts(Results(m.parts), codec), known);
            msg == if kept == [] then None else Some(AIMessage(ToolRole, kept))
  {
    var aiMsgs := ToAIMessage(m, codec);
    if |aiMsgs| == 0 { return None; }
    var parts := aiMsgs[0].content;
    var valid := [];
    for i := 0 to |parts|
      invariant valid == KeepKnown(parts[..i], known)
    {
      assert parts[..i + 1][..i] == parts[..i];
      if !parts[i].AIResult? || parts[i].id in known {
        valid := valid + [parts[i]];
      }
    }
    assert parts[..|parts|] == parts;
    if |valid| == 0 { return None; }
    msg := Some(aiMsgs[0].(content := valid));
  }

  method SyntheticToolResults(m: Message, answered: set<string>) returns (msg: Option<AIMessage>)
    ensures var parts := Synthetic(Calls(m.parts), answered);
            msg == if parts == [] then None else Some(AIMessage(ToolRole, parts))
  {
    hide Calls;
    var calls := Calls(m.parts);
    var parts := [];
    for i := 0 to |calls|
      invariant parts == Synthetic(calls[..i], answered)
    {
      assert calls[..i + 1][..i] == calls[..i];
      if calls[i].id in answered { continue; }
      parts := parts + [AIResult(calls[i].id, ErrorOutput(INTERRUPTED))];
    }
    assert calls[..|calls|] == calls;
    if |parts| == 0 { return None; }
    msg := Some(AIMessage(ToolRole, parts));
  }

  /** The first pass: the IDs of all calls and of all results. */
  method CollectIDs(msgs: seq<Message>) returns (calls: set<string>, results: set<string>)
    ensures calls == KnownCalls(msgs) && results == KnownResults(msgs)
  {
    calls, results := {}, {};
    for i := 0 to |msgs|
      invariant calls == KnownCalls(msgs[..i]) && results == KnownResults(msgs[..i])
    {
      assert msgs[..i + 1] == msgs[..i] + [msgs[i]];
      match msgs[i].role
      case Assistant => calls := calls + IDsOfCalls(Calls(msgs[i].parts));
      case Tool => results := results + IDsOfResults(Results(msgs[i].parts));
      case _ =>
    }
    assert msgs[..|msgs|] == msgs;
  }

  function IDsOfCalls(calls: seq<ToolCall>): set<string> {
    set tc <- calls :: tc.id
  }

  function IDsOfResults(results: seq<ToolResult>): set<string> {
    set r <- results :: r.toolCallID
  }

  method PreparePrompt(msgs: seq<Message>, s: Setting, attachments: seq<Attachment>)
    returns (history: seq<AIMessage>, files: seq<AIPart>)
    ensures history == Prompt(msgs, s)
    ensures files == PromptFiles(attachments)
  {
    hide Entry, KnownCalls, KnownResults;
    history := [];
    if !s.isSubAgent {
      history := history + [AIMessage(UserRole, [AIText(s.reminder)])];
    }
    ghost var head := history;
    var known, answered := CollectIDs(msgs);
    for i := 0 to |msgs|
      invariant history == head + Entries(msgs[..i], known, answered, s)
    {
      var entry := OneMessage(msgs[i], known, answered, s);
      history := history + entry;
      assert msgs[..i + 1][..i] == msgs[..i];
    }
    assert msgs[..|msgs|] == msgs;
    files := CollectFiles(attachments);
  }

  /** The loop over the attachments of the new prompt. */
  method CollectFiles(attachments: seq<Attachment>) returns (files: seq<AIPart>)
    ensures files == PromptFiles(attachments)
  {
    files := [];
    for i := 0 to |attachments|
      invariant files == PromptFiles(attachments[..i])
    {
      assert attachments[..i + 1][..i] == attachments[..i];
      if IsText(attachments[i].mimeType) { continue; }
      files := files + [AIFile(attachments[i].fileName, attachments[i].content, attachments[i].mimeType)];
    }
    assert attachments[..|attachments|] == attachments;
  }

  function Stripped(m: AIMessage): AIMessage {
    if m.role == UserRole then AIMessage(UserRole, WithoutFiles(m.content)) else m
  }

  /** For a model without images: no files in user messages. */
  method StripFiles(messages: seq<AIMessage>) returns (stripped: seq<AIMessage>)
    ensures |stripped| == |messages| && forall j :: 0 <= j < |messages| ==> stripped[j] == Stripped(messages[j])
  {
    stripped := messages;
    for i := 0 to |stripped|
      invariant |stripped| == |messages|
      invariant forall j :: 0 <= j < i ==> stripped[j] == Stripped(messages[j])
      invariant forall j :: i <= j < |messages| ==> stripped[j] == messages[j]
    {
      if stripped[i].role == UserRole {
        var content := FilterFileParts(stripped[i].content);
        stripped := stripped[i := stripped[i].(content := content)];
      }
    }
  }

  lemma RolesOf(m: Message, known: set<string>, answered: set<string>, s: Setting)
    requires !Skipped(m) && m.role != Tool
    ensures var h := ToAIMessage(m, s.codec); var entry := Entry(m, known, answered, s);
            match m.role
            case User =>
              |h| == 1 && h[0].role == UserRole && entry == if s.supportsImages then h else [Stripped(h[0])]
            case Assistant =>
              |h| == 1 && h[0].role == AssistantRole && entry == h + ToolMessage(Synthetic(Calls(m.parts), answered))
            case _ => h == [] && entry == []
  {
  }

  /** The body of the loop over the stored messages. */
  method OneMessage(m: Message, known: set<string>, answered: set<string>, s: Setting)
    returns (entry: seq<AIMessage>)
    ensures entry == Entry(m, known, answered, s)
  {
    if |m.parts| == 0 { return []; }
    if m.role == Assistant && |Calls(m.parts)| == 0 && TextOf(m.parts) == "" && ReasoningOf(m.parts).thinking == "" {
      return [];
    }
    if m.role == Tool {
      var msg := FilterOrphanedToolResults(m, known, s.codec);
      return if msg.Some? then [msg.value] else [];
    }
    entry := ToAIMessage(m, s.codec);
    RolesOf(m, known, answered, s);
    hide ToAIMessage, Entry, Synthetic, Calls;
    if !s.supportsImages {
      entry := StripFiles(entry);
    }
    if m.role == Assistant {
      var msg := SyntheticToolResults(m, answered);
      if msg.Some? { entry := entry + [msg.value]; }
    }
  }

  // -------------------------------------------------------------------- the summary cut

  /** getSessionMessages on the listed messages: from the summary on, which then speaks as the
      user. */
  function FromSummary(msgs: seq<Message>, summaryID: string): seq<Message> {
    if msgs == [] then []
    else if msgs[0].id == summaryID then [msgs[0].(role := User)] + msgs[1..]
    else FromSummary(msgs[1..], summaryID)
  }

  predicate Has(msgs: seq<Message>, id: string) {
    exists m <- msgs :: m.id == id
  }

  method GetSessionMessages(listed: seq<Message>, summaryID: string) returns (msgs: seq<Message>)
    ensures msgs == if summaryID != "" && Has(listed, summaryID) then FromSummary(listed, summaryID) else listed
  {
    msgs := listed;
    if summaryID != "" {
      var index := -1;
      for i := 0 to |msgs|
        invariant index == -1 && FromSummary(msgs, summaryID) == FromSummary(msgs[i..], summaryID)
        invariant forall j :: 0 <= j < i ==> msgs[j].id != summaryID
      {
        assert msgs[i..][0] == msgs[i] && msgs[i..][1..] == msgs[i + 1..];
        if msgs[i].id == summaryID {
          index := i;
          break;
        }
      }
      if index != -1 {
        msgs := msgs[index..];
        msgs := msgs[0 := msgs[0].(role := User)];
      }
    }
  }

  // --------------------------------------------------------------- the media workaround

  /** A tool result whose media can be decoded. */
  predicate Replaceable(p: AIPart, codec: Codec) {
    p.AIResult? && p.output.MediaOutput? && codec.decode(p.output.data).Some?
  }

  function Replaced(p: AIPart, codec: Codec): AIPart {
    if Replaceable(p, codec) then AIResult(p.id, TextOutput(MEDIA_LOADED)) else p
  }

  function Replacement(parts: seq<AIPart>, codec: Codec): (r: seq<AIPart>)
    ensures |r| == |parts|
  {
    seq(|parts|, i requires 0 <= i < |parts| => Replaced(parts[i], codec))
  }

  function MediaFiles(parts: seq<AIPart>, codec: Codec): seq<AIPart> {
    if parts == [] then []
    else
      var p := parts[|parts| - 1];
      MediaFiles(parts[..|parts| - 1], codec)
      + if Replaceable(p, codec)
        then [AIFile("tool-result-" + p.id, codec.decode(p.output.data).value, p.output.mediaType)] else []
  }

  function Converted(m: AIMessage, codec: Codec): seq<AIMessage> {
    if m.role != ToolRole then [m]
    else
      var files := MediaFiles(m.content, codec);
      [AIMessage(ToolRole, Replacement(m.content, codec))]
      + if files == [] then [] else [AIMessage(UserRole, [AIText(MEDIA_FOLLOWS)] + files)]
  }

  function Workaround(messages: seq<AIMessage>, codec: Codec): seq<AIMessage> {
    if messages == [] then []
    else Workaround(messages[..|messages| - 1], codec) + Converted(messages[|messages| - 1], codec)
  }

  method WorkaroundMediaLimitations(messages: seq<AIMessage>, providerSupportsMedia: bool, codec: Codec)
    returns (converted: seq<AIMessage>)
    ensures converted == if providerSupportsMedia then messages else Workaround(messages, codec)
  {
    if providerSupportsMedia { return messages; }
    converted := [];
    for i := 0 to |messages|
      invariant converted == Workaround(messages[..i], codec)
    {
      assert messages[..i + 1][..i] == messages[..i];
      var next := ConvertMessage(messages[i], codec);
      converted := converted + next;
    }
    assert messages[..|messages|] == messages;
  }

  /** The body of the loop over the messages. */
  method ConvertMessage(msg: AIMessage, codec: Codec) returns (converted: seq<AIMessage>)
    ensures converted == Converted(msg, codec)
  {
    if msg.role != ToolRole { return [msg]; }
    var textParts, mediaFiles := [], [];
    for i := 0 to |msg.content|
      invariant |textParts| == i && forall j :: 0 <= j < i ==> textParts[j] == Replaced(msg.content[j], codec)
      invariant mediaFiles == MediaFiles(msg.content[..i], codec)
    {
      assert msg.content[..i + 1][..i] == msg.content[..i];
      var part := msg.content[i];
      if !part.AIResult? || !part.output.MediaOutput? {
        textParts := textParts + [part];
        continue;
      }
      var decoded := codec.decode(part.output.data);
      if decoded.None? {
        textParts := textParts + [part];
        continue;
      }
      mediaFiles := mediaFiles + [AIFile("tool-result-" + part.id, decoded.value, part.output.mediaType)];
      textParts := textParts + [AIResult(part.id, TextOutput(MEDIA_LOADED))];
    }
    assert msg.content[..|msg.content|] == msg.content;
    assert textParts == Replacement(msg.content, codec);
    converted := [AIMessage(ToolRole, textParts)];
    if |mediaFiles| > 0 {
      converted := converted + [AIMessage(UserRole, [AIText(MEDIA_FOLLOWS)] + mediaFiles)];
    }
  }
}
