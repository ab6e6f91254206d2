/**
 internal/message/content.go: the parts of a message, as values.
 */
module Content {
  import opened Options
  import opened Text

  datatype Role = Assistant | User | System | Tool

  datatype Part =
    | TextPart(text: string)
    | ReasoningPart(reasoning: Reasoning)
    | ImagePart(url: string, detail: string)
    | BinaryPart(path: string, mimeType: string, data: string)
    | CallPart(call: ToolCall)
    | ResultPart(result: ToolResult)
    | FinishPart(reason: string, time: nat, message: string, details: string)

  /** Times are clock seconds, 0 while not set. */
  datatype Reasoning = Reasoning(
    thinking: string,
    signature: string,
    thoughtSignature: string,
    toolID: string,
    responsesData: Option<string>,
    startedAt: nat,
    finishedAt: nat)

  datatype ToolCall = ToolCall(id: string, name: string, input: string, providerExecuted: bool, finished: bool)

  datatype ToolResult = ToolResult(
    toolCallID: string, name: string, content: string, data: string, mimeType: string, metadata: string, isError: bool)

  datatype Message = Message(id: string, sessionID: string, role: Role, parts: seq<Part>)

  const NO_REASONING := Reasoning("", "", "", "", None, 0, 0)

  // -------------------------------------------------------------------- reading

  function TextOf(ps: seq<Part>): string {
    if ps == [] then "" else if ps[0].TextPart? then ps[0].text else TextOf(ps[1..])
  }

  function ReasoningOf(ps: seq<Part>): Reasoning {
    if ps == [] then NO_REASONING else if ps[0].ReasoningPart? then ps[0].reasoning else ReasoningOf(ps[1..])
  }

  function Calls(ps: seq<Part>): seq<ToolCall> {
    if ps == [] then [] else (if ps[0].CallPart? then [ps[0].call] else []) + Calls(ps[1..])
  }

  function Results(ps: seq<Part>): seq<ToolResult> {
    if ps == [] then [] else (if ps[0].ResultPart? then [ps[0].result] else []) + Results(ps[1..])
  }

  predicate IsFinished(ps: seq<Part>) {
    exists i :: 0 <= i < |ps| && ps[i].FinishPart?
  }

  predicate HasText(ps: seq<Part>) {
    exists i :: 0 <= i < |ps| && ps[i].TextPart?
  }

  predicate HasReasoning(ps: seq<Part>) {
    exists i :: 0 <= i < |ps| && ps[i].ReasoningPart?
  }

  // ------------------------------------------------------------------- changing

  function PlusText(p: Part, delta: string): Part {
    if p.TextPart? then TextPart(p.text + delta) else p
  }

  /** AppendContent: every text part grows; without one, one is added. */
  function AppendContent(ps: seq<Part>, delta: string): seq<Part> {
    if HasText(ps) then seq(|ps|, i requires 0 <= i < |ps| => PlusText(ps[i], delta))
    else ps + [TextPart(delta)]
  }

  /** AppendReasoningContent rebuilds the part from four of its fields. */
  function PlusThinking(p: Part, delta: string): Part {
    if p.ReasoningPart? then
      var r := p.reasoning;
      ReasoningPart(Reasoning(r.thinking + delta, r.signature, "", "", None, r.startedAt, r.finishedAt))
    else p
  }

  function AppendReasoningContent(ps: seq<Part>, delta: string, now: nat): seq<Part> {
    if HasReasoning(ps) then seq(|ps|, i requires 0 <= i < |ps| => PlusThinking(ps[i], delta))
    else ps + [ReasoningPart(Reasoning(delta, "", "", "", None, now, 0))]
  }

  /** The four edits of the first reasoning part; each keeps only the fields it names. */
  datatype ReasoningEdit =
    | AddSignature(signature: string)
    | AddThought(thought: string, toolID: string)
    | SetData(data: string)
    | FinishThinking(now: nat)

  function EditReasoning(r: Reasoning, e: ReasoningEdit): Reasoning {
    match e
    case AddSignature(sig) => Reasoning(r.thinking, r.signature + sig, "", "", None, r.startedAt, r.finishedAt)
    case AddThought(sig, id) =>
      Reasoning(r.thinking, r.signature, r.thoughtSignature + sig, id, None, r.startedAt, r.finishedAt)
    case SetData(d) => Reasoning(r.thinking, "", "", "", Some(d), r.startedAt, r.finishedAt)
    case FinishThinking(now) =>
      if r.finishedAt == 0 then Reasoning(r.thinking, r.signature, "", "", None, r.startedAt, now) else r
  }

  /** What the edit adds when there is no reasoning part. */
  function FreshReasoning(e: ReasoningEdit): seq<Part> {
    match e
    case AddSignature(sig) => [ReasoningPart(NO_REASONING.(signature := sig))]
    case AddThought(sig, _) => [ReasoningPart(NO_REASONING.(thoughtSignature := sig))]
    case SetData(_) => []
    case FinishThinking(_) => []
  }

  function ApplyEdit(ps: seq<Part>, e: ReasoningEdit): seq<Part> {
    if ps == [] then FreshReasoning(e)
    else if ps[0].ReasoningPart? then [ReasoningPart(EditReasoning(ps[0].reasoning, e))] + ps[1..]
    else [ps[0]] + ApplyEdit(ps[1..], e)
  }

  /** AddToolCall: replace the first call with the same ID, or append. */
  function AddToolCall(ps: seq<Part>, tc: ToolCall): seq<Part> {
    if ps == [] then [CallPart(tc)]
    else if ps[0].CallPart? && ps[0].call.id == tc.id then [CallPart(tc)] + ps[1..]
    else [ps[0]] + AddToolCall(ps[1..], tc)
  }

  function WithoutFinish(ps: seq<Part>): seq<Part> {
    if ps == [] then []
    else if ps[0].FinishPart? then ps[1..]
    else [ps[0]] + WithoutFinish(ps[1..])
  }

  /** AddFinish: the first finish part goes, the new one comes last. */
  function AddFinish(ps: seq<Part>, finish: Part): seq<Part> {
    WithoutFinish(ps) + [finish]
  }

  // ------------------------------------------------------------------ small facts

  predicate HasCall(ps: seq<Part>, id: string) {
    exists p <- ps :: p.CallPart? && p.call.id == id
  }

  /** An edit lands on the first reasoning part, in place. */
  lemma {:induction false} EditAt(ps: seq<Part>, i: nat, e: ReasoningEdit)
    requires i < |ps| && ps[i].ReasoningPart? && !HasReasoning(ps[..i])
    ensures ApplyEdit(ps, e) == ps[i := ReasoningPart(EditReasoning(ps[i].reasoning, e))]
  {
    if i > 0 {
      assert ps[..i][0] == ps[0];
      assert ps[1..][..i - 1] == ps[..i][1..];
      EditAt(ps[1..], i - 1, e);
    }
  }

  lemma {:induction false} EditNowhere(ps: seq<Part>, e: ReasoningEdit)
    requires !HasReasoning(ps)
    ensures ApplyEdit(ps, e) == ps + FreshReasoning(e)
  {
    if ps != [] {
      assert forall j :: 0 <= j < |ps| - 1 ==> ps[1..][j] == ps[j + 1];
      EditNowhere(ps[1..], e);
    }
  }

  /** A call is replaced where its ID first stands, in place; a new ID goes last. */
  lemma {:induction false} AddToolCallAt(ps: seq<Part>, i: nat, tc: ToolCall)
    requires i < |ps| && ps[i].CallPart? && ps[i].call.id == tc.id && !HasCall(ps[..i], tc.id)
    ensures AddToolCall(ps, tc) == ps[i := CallPart(tc)]
  {
    if i > 0 {
      assert ps[..i][0] == ps[0];
      assert forall p :: p in ps[1..][..i - 1] ==> p in ps[..i];
      AddToolCallAt(ps[1..], i - 1, tc);
    }
  }

  lemma {:induction false} AddToolCallNew(ps: seq<Part>, tc: ToolCall)
    requires !HasCall(ps, tc.id)
    ensures AddToolCall(ps, tc) == ps + [CallPart(tc)]
  {
    if ps != [] {
      assert forall j :: 0 <= j < |ps| - 1 ==> ps[1..][j] == ps[j + 1];
      AddToolCallNew(ps[1..], tc);
    }
  }

  lemma {:induction false} CallsConcat(a: seq<Part>, b: seq<Part>)
    ensures Calls(a + b) == Calls(a) + Calls(b)
  {
    if a == [] {
      assert a + b == b;
    } else {
      CallsConcat(a[1..], b);
      assert (a + b)[1..] == a[1..] + b;
    }
  }

  lemma {:induction false} ResultsConcat(a: seq<Part>, b: seq<Part>)
    ensures Results(a + b) == Results(a) + Results(b)
  {
    if a == [] {
      assert a + b == b;
    } else {
      ResultsConcat(a[1..], b);
      assert (a + b)[1..] == a[1..] + b;
    }
  }

  lemma {:induction false} CallsMembers(ps: seq<Part>, tc: ToolCall)
    ensures tc in Calls(ps) <==> CallPart(tc) in ps
  {
    if ps != [] {
      CallsMembers(ps[1..], tc);
      assert ps == [ps[0]] + ps[1..];
    }
  }

  lemma {:induction false} ResultsMembers(ps: seq<Part>, r: ToolResult)
    ensures r in Results(ps) <==> ResultPart(r) in ps
  {
    if ps != [] {
      ResultsMembers(ps[1..], r);
      assert ps == [ps[0]] + ps[1..];
    }
  }

  /** The first part of its kind speaks for the message. */
  lemma {:induction false} FirstSpeaks(ps: seq<Part>, i: nat)
    requires i < |ps|
    ensures ps[i].TextPart? && !HasText(ps[..i]) ==> TextOf(ps) == ps[i].text
    ensures ps[i].ReasoningPart? && !HasReasoning(ps[..i]) ==> ReasoningOf(ps) == ps[i].reasoning
  {
    if i > 0 {
      FirstSpeaks(ps[1..], i - 1);
      assert ps[..i][0] == ps[0];
      assert ps[1..][..i - 1] == ps[..i][1..];
    }
  }

  lemma {:induction false} NoTextIsEmpty(ps: seq<Part>)
    requires !HasText(ps)
    ensures TextOf(ps) == ""
  {
    if ps != [] {
      assert !HasText(ps[1..]) by {
        assert forall i :: 0 <= i < |ps[1..]| ==> ps[1..][i] == ps[i + 1];
      }
      NoTextIsEmpty(ps[1..]);
    }
  }

  lemma {:induction false} TextOfConcat(a: seq<Part>, b: seq<Part>)
    ensures TextOf(a + b) == if HasText(a) then TextOf(a) else TextOf(b)
  {
    if a == [] {
      assert a + b == b;
    } else {
      TextOfConcat(a[1..], b);
      assert (a + b)[1..] == a[1..] + b;
      assert forall i :: 0 < i < |a| ==> a[i] == a[1..][i - 1];
    }
  }

  lemma {:induction false} ReasoningOfConcat(a: seq<Part>, b: seq<Part>)
    ensures ReasoningOf(a + b) == if HasReasoning(a) then ReasoningOf(a) else ReasoningOf(b)
  {
    if a == [] {
      assert a + b == b;
    } else {
      ReasoningOfConcat(a[1..], b);
      assert (a + b)[1..] == a[1..] + b;
      assert forall i :: 0 < i < |a| ==> a[i] == a[1..][i - 1];
    }
  }

  /** Rewriting parts one for one leaves what the rewriting leaves. */
  lemma {:induction false} TextOfPointwise(a: seq<Part>, b: seq<Part>, delta: string)
    requires |a| == |b| && forall i :: 0 <= i < |a| ==> b[i] == PlusText(a[i], delta)
    ensures TextOf(b) == if HasText(a) then TextOf(a) + delta else ""
    ensures Calls(b) == Calls(a) && ReasoningOf(b) == ReasoningOf(a)
  {
    if a != [] {
      TextOfPointwise(a[1..], b[1..], delta);
      assert forall i :: 0 < i < |a| ==> a[i] == a[1..][i - 1];
    }
  }

  lemma {:induction false} ThinkingPointwise(a: seq<Part>, b: seq<Part>, delta: string)
    requires |a| == |b| && forall i :: 0 <= i < |a| ==> b[i] == PlusThinking(a[i], delta)
    ensures ReasoningOf(b).thinking == if HasReasoning(a) then ReasoningOf(a).thinking + delta else ""
    ensures Calls(b) == Calls(a) && TextOf(b) == TextOf(a)
  {
    if a != [] {
      ThinkingPointwise(a[1..], b[1..], delta);
      assert forall i :: 0 < i < |a| ==> a[i] == a[1..][i - 1];
    }
  }
}
