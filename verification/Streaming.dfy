/**
 internal/agent/agent.go, internal/message/content.go: the assistant message that the
 stream callbacks build, edited in place, and what error cleanup makes of it.
 */
module Streaming {
  import opened Options
  import opened Text
  import opened Content

  /** The stream callbacks.  The three optional fields of ReasoningEnd are what the
      providers' metadata may carry. */
  datatype Callback =
    | ReasoningStart(text: string)
    | ReasoningDelta(text: string)
    | ReasoningEnd(signature: Option<string>, thought: Option<(string, string)>, data: Option<string>)
    | TextDelta(text: string)
    | ToolInputStart(id: string, name: string)
    | ToolCallDone(id: string, name: string, input: string)
    | StepFinish(reason: string)

  function Edits(cb: Callback, now: nat): seq<ReasoningEdit>
    requires cb.ReasoningEnd?
  {
    (if cb.signature.Some? then [AddSignature(cb.signature.value)] else [])
    + (if cb.thought.Some? then [AddThought(cb.thought.value.0, cb.thought.value.1)] else [])
    + (if cb.data.Some? then [SetData(cb.data.value)] else [])
    + [FinishThinking(now)]
  }

  function ApplyEdits(ps: seq<Part>, es: seq<ReasoningEdit>): seq<Part>
    decreases es
  {
    if es == [] then ps else ApplyEdits(ApplyEdit(ps, es[0]), es[1..])
  }

  /** A leading newline goes only when the message is still empty. */
  function Delta(ps: seq<Part>, text: string): string {
    if ps == [] then TrimPrefix(text, "\n") else text
  }

  function CallOf(cb: Callback): ToolCall
    requires cb.ToolInputStart? || cb.ToolCallDone?
  {
    if cb.ToolInputStart? then ToolCall(cb.id, cb.name, "", false, false)
    else ToolCall(cb.id, cb.name, cb.input, false, true)
  }

  function Apply(ps: seq<Part>, cb: Callback, now: nat): seq<Part> {
    match cb
    case ReasoningStart(text) => AppendReasoningContent(ps, text, now)
    case ReasoningDelta(text) => AppendReasoningContent(ps, text, now)
    case ReasoningEnd(_, _, _) => ApplyEdits(ps, Edits(cb, now))
    case TextDelta(text) => AppendContent(ps, Delta(ps, text))
    case ToolInputStart(_, _) => AddToolCall(ps, CallOf(cb))
    case ToolCallDone(_, _, _) => AddToolCall(ps, CallOf(cb))
    case StepFinish(reason) => AddFinish(ps, FinishPart(reason, now, "", ""))
  }

  /** The message after a stream of callbacks, each at its own clock time. */
  function Built(cbs: seq<Callback>, times: seq<nat>): seq<Part>
    requires |times| == |cbs|
  {
    if cbs == [] then []
    else Apply(Built(cbs[..|cbs| - 1], times[..|cbs| - 1]), cbs[|cbs| - 1], times[|cbs| - 1])
  }

  // ------------------------------------------------------------------ error cleanup

  /** What error cleanup makes of a call: an unfinished one is finished with empty input. */
  function Closed(tc: ToolCall): ToolCall {
    if tc.finished then tc else tc.(finished := true, input := "{}")
  }

  function CloseAll(ps: seq<Part>, calls: seq<ToolCall>): seq<Part> {
    if calls == [] then ps
    else
      var before := CloseAll(ps, calls[..|calls| - 1]);
      var tc := calls[|calls| - 1];
      if tc.finished then before else AddToolCall(before, Closed(tc))
  }

  /** A stored tool message already answers this call. */
  predicate Answered(msgs: seq<Message>, id: string) {
    exists m <- msgs :: Answers(m, id)
  }

  predicate Answers(m: Message, id: string) {
    m.role == Tool && exists r <- Results(m.parts) :: r.toolCallID == id
  }

  function ErrorResult(tc: ToolCall, cancelled: bool): ToolResult {
    ToolResult(tc.id, tc.name,
      if cancelled then "Error: user cancelled assistant tool calling"
      else "There was an error while executing the tool",
      "", "", "", true)
  }

  /** One error result for each call without an answer, in the order of the calls. */
  function Owed(calls: seq<ToolCall>, msgs: seq<Message>, cancelled: bool): seq<ToolResult> {
    if calls == [] then []
    else
      var tc := calls[|calls| - 1];
      Owed(calls[..|calls| - 1], msgs, cancelled)
      + if Answered(msgs, tc.id) then [] else [ErrorResult(tc, cancelled)]
  }

  function CleanedUp(ps: seq<Part>, now: nat, finish: Part): seq<Part> {
    var thought := ApplyEdit(ps, FinishThinking(now));
    AddFinish(CloseAll(thought, Calls(thought)), finish)
  }

  // ------------------------------------------------------------------- the message

  class LiveMessage {
    const role: Role
    var parts: seq<Part>

    constructor (role: Role, parts: seq<Part>)
      ensures this.role == role && this.parts == parts
    {
      this.role, this.parts := role, parts;
    }

    method AppendContent(delta: string)
      modifies this
      ensures parts == Content.AppendContent(old(parts), delta)
    {
      var found := false;
      for i := 0 to |parts|
        invariant |parts| == |old(parts)|
        invariant forall j :: 0 <= j < i ==> parts[j] == PlusText(old(parts)[j], delta)
        invariant forall j :: i <= j < |parts| ==> parts[j] == old(parts)[j]
        invariant found <==> exists j :: 0 <= j < i && old(parts)[j].TextPart?
      {
        if parts[i].TextPart? {
          parts := parts[i := TextPart(parts[i].text + delta)];
          found := true;
        }
      }
      if !found {
        assert parts == old(parts);
        parts := parts + [TextPart(delta)];
      }
    }

    method AppendReasoningContent(delta: string, now: nat)
      modifies this
      ensures parts == Content.AppendReasoningContent(old(parts), delta, now)
    {
      var found := false;
      for i := 0 to |parts|
        invariant |parts| == |old(parts)|
        invariant forall j :: 0 <= j < i ==> parts[j] == PlusThinking(old(parts)[j], delta)
        invariant forall j :: i <= j < |parts| ==> parts[j] == old(parts)[j]
        invariant found <==> exists j :: 0 <= j < i && old(parts)[j].ReasoningPart?
      {
        if parts[i].ReasoningPart? {
          var r := parts[i].reasoning;
          r := Reasoning(r.thinking + delta, r.signature, "", "", None, r.startedAt, r.finishedAt);
          parts := parts[i := ReasoningPart(r)];
          found := true;
        }
      }
      if !found {
        assert parts == old(parts);
        parts := parts + [ReasoningPart(Reasoning(delta, "", "", "", None, now, 0))];
      }
    }

    /** AppendReasoningSignature, AppendThoughtSignature, SetReasoningResponsesData and
        FinishThinking share this loop over the first reasoning part. */
    method EditFirstReasoning(e: ReasoningEdit)
      modifies this
      ensures parts == ApplyEdit(old(parts), e)
    {
      for i := 0 to |parts|
        invariant parts == old(parts)
        invariant !HasReasoning(parts[..i])
      {
        if parts[i].ReasoningPart? {
          EditAt(parts, i, e);
          parts := parts[i := ReasoningPart(EditReasoning(parts[i].reasoning, e))];
          return;
        }
      }
      EditNowhere(parts, e);
      parts := parts + FreshReasoning(e);
    }

    method AddToolCall(tc: ToolCall)
      modifies this
      ensures parts == Content.AddToolCall(old(parts), tc)
    {
      for i := 0 to |parts|
        invariant parts == old(parts)
        invariant !HasCall(parts[..i], tc.id)
      {
        if parts[i].CallPart? && parts[i].call.id == tc.id {
          AddToolCallAt(parts, i, tc);
          parts := parts[i := CallPart(tc)];
          return;
        }
      }
      AddToolCallNew(parts, tc);
      parts := parts + [CallPart(tc)];
    }

    method AddFinish(finish: Part)
      modifies this
      ensures parts == Content.AddFinish(old(parts), finish)
    {
      var i := 0;
      while i < |parts|
        invariant 0 <= i <= |parts| && parts == old(parts)
        invariant forall j :: 0 <= j < i ==> !parts[j].FinishPart?
      {
        if parts[i].FinishPart? {
          break;
        }
        i := i + 1;
      }
      FirstFinish(parts, i);
      if i < |parts| {
        parts := parts[..i] + parts[i + 1..];
      }
      parts := parts + [finish];
    }

    /** One stream callback. */
    method On(cb: Callback, now: nat)
      modifies this
      ensures parts == Apply(old(parts), cb, now)
    {
      match cb
      case ReasoningStart(text) => AppendReasoningContent(text, now);
      case ReasoningDelta(text) => AppendReasoningContent(text, now);
      case ReasoningEnd(signature, thought, data) =>
        if signature.Some? { EditFirstReasoning(AddSignature(signature.value)); }
        if thought.Some? { EditFirstReasoning(AddThought(thought.value.0, thought.value.1)); }
        if data.Some? { EditFirstReasoning(SetData(data.value)); }
        EditFirstReasoning(FinishThinking(now));
        EditsUnfold(old(parts), cb, now);
      case TextDelta(text) =>
        var delta := text;
        if |parts| == 0 {
          delta := TrimPrefix(delta, "\n");
        }
        AppendContent(delta);
      case ToolInputStart(_, _) => AddToolCall(CallOf(cb));
      case ToolCallDone(_, _, _) => AddToolCall(CallOf(cb));
      case StepFinish(reason) => AddFinish(FinishPart(reason, now, "", ""));
    }

    method ToolCalls() returns (calls: seq<ToolCall>)
      ensures calls == Calls(parts)
    {
      calls := [];
      for i := 0 to |parts|
        invariant calls == Calls(parts[..i])
      {
        assert parts[..i + 1] == parts[..i] + [parts[i]];
        CallsConcat(parts[..i], [parts[i]]);
        if parts[i].CallPart? {
          calls := calls + [parts[i].call];
        }
      }
      assert parts[..|parts|] == parts;
    }

    /** Error cleanup: stop the thinking, finish every call, and give each call that no listed
        tool message answers one error result.  `listed` is None when listing fails, and
        `budget` store writes succeed before one fails.  A failure ends the cleanup where it
        is, having dealt with the first `reached` calls and perhaps finished the next. */
    method CleanUp(listed: Option<seq<Message>>, cancelled: bool, now: nat, finish: Part, budget: nat)
      returns (created: seq<ToolResult>, ok: bool, ghost reached: nat)
      modifies this
      ensures listed.None? ==> !ok && created == [] && parts == ApplyEdit(old(parts), FinishThinking(now))
      ensures listed.Some? ==>
                var thought := ApplyEdit(old(parts), FinishThinking(now)); var calls := Calls(thought);
                && reached <= |calls|
                && created == Owed(calls[..reached], listed.value, cancelled)
                && (ok <==> WritesOf(calls, listed.value) < budget)
                && (ok ==> reached == |calls|)
                && (if reached == |calls| then parts == CleanedUp(old(parts), now, finish)
                    else parts == CloseAll(thought, calls[..reached])
                         || parts == CloseAll(thought, calls[..reached + 1]))
    {
      hide CloseAll, Owed, ApplyEdit, Calls, WritesOf, Content.AddToolCall, Content.AddFinish;
      created, ok, reached := [], false, 0;
      EditFirstReasoning(FinishThinking(now));
      ghost var thought := parts;
      var calls := ToolCalls();
      if listed.None? { return; }
      var spent;
      created, spent, ok, reached := CleanUpCalls(calls, listed.value, cancelled, budget);
      assert calls[..|calls|] == calls;
      if !ok { return; }
      AddFinish(finish);
      ok := spent < budget;
    }

    /** The loop over the calls; it ends early, with `ok` false, at a failing write. */
    method CleanUpCalls(calls: seq<ToolCall>, msgs: seq<Message>, cancelled: bool, budget: nat)
      returns (created: seq<ToolResult>, spent: nat, ok: bool, ghost reached: nat)
      modifies this
      ensures reached <= |calls| && created == Owed(calls[..reached], msgs, cancelled)
      ensures ok <==> WritesOf(calls, msgs) <= budget
      ensures if ok then reached == |calls| && spent == WritesOf(calls, msgs) && parts == CloseAll(old(parts), calls)
              else reached < |calls|
                   && (parts == CloseAll(old(parts), calls[..reached])
                       || parts == CloseAll(old(parts), calls[..reached + 1]))
    {
      hide CloseAll, Owed, WritesOf, Answered, Content.AddToolCall;
      ghost var before := parts;
      created, spent, reached := [], 0, 0;
      CleanUpStart(before, msgs, cancelled);
      assert calls[..0] == [];
      for k := 0 to |calls|
        invariant reached == k
        invariant parts == CloseAll(before, calls[..k])
        invariant created == Owed(calls[..k], msgs, cancelled)
        invariant spent == WritesOf(calls[..k], msgs) <= budget
      {
        CleanUpStep(before, calls, k, msgs, cancelled);
        WritesGrow(calls, msgs, k + 1);
        var tc := calls[k];
        if !tc.finished {
          tc := tc.(finished := true, input := "{}");
          AddToolCall(tc);
          if spent == budget { return created, spent, false, reached; }
          spent := spent + 1;
        }
        var found := HasAnswer(msgs, tc.id);
        if !found {
          if spent == budget { return created, spent, false, reached; }
          spent := spent + 1;
          created := created + [ErrorResult(tc, cancelled)];
        }
        reached := k + 1;
      }
      ok := true;
      assert calls[..|calls|] == calls;
    }
  }

  /** How many store writes the loop over the calls needs. */
  function WritesOf(calls: seq<ToolCall>, msgs: seq<Message>): nat {
    if calls == [] then 0
    else
      var tc := calls[|calls| - 1];
      WritesOf(calls[..|calls| - 1], msgs) + (if tc.finished then 0 else 1) + if Answered(msgs, tc.id) then 0 else 1
  }

  lemma {:induction false} WritesGrow(calls: seq<ToolCall>, msgs: seq<Message>, k: nat)
    requires k <= |calls|
    ensures WritesOf(calls[..k], msgs) <= WritesOf(calls, msgs)
    decreases |calls|
  {
    if k < |calls| {
      WritesGrow(calls[..|calls| - 1], msgs, k);
      assert calls[..|calls| - 1][..k] == calls[..k];
    } else {
      assert calls[..k] == calls;
    }
  }

  lemma {:induction false} FirstFinish(ps: seq<Part>, i: nat)
    requires i <= |ps| && (forall j :: 0 <= j < i ==> !ps[j].FinishPart?) && (i < |ps| ==> ps[i].FinishPart?)
    ensures WithoutFinish(ps) == if i < |ps| then ps[..i] + ps[i + 1..] else ps
  {
    if i > 0 {
      FirstFinish(ps[1..], i - 1);
    }
  }

  /** The search through the listed tool messages. */
  method HasAnswer(msgs: seq<Message>, id: string) returns (found: bool)
    ensures found == Answered(msgs, id)
  {
    hide Answers;
    found := false;
    for i := 0 to |msgs|
      invariant !found && !Answered(msgs[..i], id)
    {
      found := HoldsAnswer(msgs[i], id);
      if found {
        return;
      }
    }
    assert msgs[..|msgs|] == msgs;
  }

  method HoldsAnswer(m: Message, id: string) returns (found: bool)
    ensures found == Answers(m, id)
  {
    found := false;
    if m.role == Tool {
      hide Results;
      var results := Results(m.parts);
      for j := 0 to |results|
        invariant !found && forall i :: 0 <= i < j ==> results[i].toolCallID != id
      {
        if results[j].toolCallID == id {
          found := true;
          break;
        }
      }
    }
  }

  lemma CleanUpStart(ps: seq<Part>, msgs: seq<Message>, cancelled: bool)
    ensures CloseAll(ps, []) == ps && Owed([], msgs, cancelled) == [] && WritesOf([], msgs) == 0
  {
  }

  lemma CleanUpStep(ps: seq<Part>, calls: seq<ToolCall>, k: nat, msgs: seq<Message>, cancelled: bool)
    requires k < |calls|
    ensures var before := CloseAll(ps, calls[..k]);
            CloseAll(ps, calls[..k + 1])
            == if calls[k].finished then before else AddToolCall(before, Closed(calls[k]))
    ensures Owed(calls[..k + 1], msgs, cancelled)
            == Owed(calls[..k], msgs, cancelled)
               + if Answered(msgs, calls[k].id) then [] else [ErrorResult(calls[k], cancelled)]
    ensures WritesOf(calls[..k + 1], msgs)
            == WritesOf(calls[..k], msgs)
               + (if calls[k].finished then 0 else 1) + if Answered(msgs, calls[k].id) then 0 else 1
  {
    assert calls[..k + 1][..k] == calls[..k];
  }

  lemma EditsUnfold(ps: seq<Part>, cb: Callback, now: nat)
    requires cb.ReasoningEnd?
    ensures var p1 := if cb.signature.Some? then ApplyEdit(ps, AddSignature(cb.signature.value)) else ps;
            var p2 := if cb.thought.Some?
                      then ApplyEdit(p1, AddThought(cb.thought.value.0, cb.thought.value.1)) else p1;
            var p3 := if cb.data.Some? then ApplyEdit(p2, SetData(cb.data.value)) else p2;
            ApplyEdits(ps, Edits(cb, now)) == ApplyEdit(p3, FinishThinking(now))
  {
    var e1 := if cb.signature.Some? then [AddSignature(cb.signature.value)] else [];
    var e2 := if cb.thought.Some? then [AddThought(cb.thought.value.0, cb.thought.value.1)] else [];
    var e3 := if cb.data.Some? then [SetData(cb.data.value)] else [];
    var e4 := [FinishThinking(now)];
    EditsConcat(ps, e1, e2 + e3 + e4);
    EditsConcat(ApplyEdits(ps, e1), e2, e3 + e4);
    EditsConcat(ApplyEdits(ApplyEdits(ps, e1), e2), e3, e4);
    assert Edits(cb, now) == e1 + (e2 + e3 + e4) && e2 + e3 + e4 == e2 + (e3 + e4);
    OneEdit(ps, e1);
    OneEdit(ApplyEdits(ps, e1), e2);
    OneEdit(ApplyEdits(ApplyEdits(ps, e1), e2), e3);
    OneEdit(ApplyEdits(ApplyEdits(ApplyEdits(ps, e1), e2), e3), e4);
  }

  lemma OneEdit(ps: seq<Part>, es: seq<ReasoningEdit>)
    requires |es| <= 1
    ensures ApplyEdits(ps, es) == if es == [] then ps else ApplyEdit(ps, es[0])
  {
    if es != [] { assert es[1..] == []; }
  }

  lemma {:induction false} EditsConcat(ps: seq<Part>, a: seq<ReasoningEdit>, b: seq<ReasoningEdit>)
    ensures ApplyEdits(ps, a + b) == ApplyEdits(ApplyEdits(ps, a), b)
    decreases a
  {
    if a == [] {
      assert a + b == b;
    } else {
      assert (a + b)[1..] == a[1..] + b;
      EditsConcat(ApplyEdit(ps, a[0]), a[1..], b);
    }
  }
}
