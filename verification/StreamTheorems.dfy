/**
 internal/agent/agent.go, internal/message/content.go: what every stream of callbacks, and
 error cleanup after it, makes of the assistant message.
 */
module StreamTheorems {
  import opened Options
  import opened Text
  import opened Content
  import opened Streaming

  // ------------------------------------------------------------------------- shape

  /** Two parts that a message must not hold both of. */
  predicate Clash(p: Part, q: Part) {
    || (p.TextPart? && q.TextPart?)
    || (p.ReasoningPart? && q.ReasoningPart?)
    || (p.FinishPart? && q.FinishPart?)
    || (p.CallPart? && q.CallPart? && p.call.id == q.call.id)
  }

  predicate Streamed(p: Part) {
    p.TextPart? || p.ReasoningPart? || p.FinishPart? || p.CallPart?
  }

  /** At most one text, one reasoning and one finish part, distinct tool-call IDs, and nothing
      of any other kind. */
  predicate Shape(ps: seq<Part>) {
    && (forall p <- ps :: Streamed(p))
    && (forall i, j :: 0 <= i < j < |ps| ==> !Clash(ps[i], ps[j]))
  }

  /** The part that stands at the same place before and after a rewrite in place. */
  predicate SameKind(p: Part, q: Part) {
    p == q || (Streamed(q) && Clash(p, q))
  }

  lemma ShapeInPlace(a: seq<Part>, b: seq<Part>)
    requires Shape(a) && |a| == |b| && forall i :: 0 <= i < |a| ==> SameKind(a[i], b[i])
    ensures Shape(b)
  {
    forall i, j | 0 <= i < j < |b|
      ensures !Clash(b[i], b[j])
    {
      assert SameKind(a[i], b[i]) && SameKind(a[j], b[j]) && !Clash(a[i], a[j]);
    }
    forall p | p in b
      ensures Streamed(p)
    {
      var i :| 0 <= i < |b| && b[i] == p;
      assert SameKind(a[i], b[i]) && a[i] in a;
    }
  }

  lemma ShapeAppend(ps: seq<Part>, p: Part)
    requires Shape(ps) && Streamed(p) && forall q <- ps :: !Clash(q, p)
    ensures Shape(ps + [p])
  {
  }

  lemma EditShape(ps: seq<Part>, e: ReasoningEdit)
    requires Shape(ps)
    ensures Shape(ApplyEdit(ps, e))
  {
    if HasReasoning(ps) {
      var i := FirstReasoning(ps);
      EditAt(ps, i, e);
      ShapeInPlace(ps, ApplyEdit(ps, e));
    } else {
      EditNowhere(ps, e);
      if FreshReasoning(e) != [] {
        ShapeAppend(ps, FreshReasoning(e)[0]);
        assert [FreshReasoning(e)[0]] == FreshReasoning(e);
      }
    }
  }

  lemma {:induction false} FirstReasoning(ps: seq<Part>) returns (i: nat)
    requires HasReasoning(ps)
    ensures i < |ps| && ps[i].ReasoningPart? && !HasReasoning(ps[..i])
  {
    i := 0;
    while !ps[i].ReasoningPart?
      invariant i < |ps| && !HasReasoning(ps[..i]) && exists j :: i <= j < |ps| && ps[j].ReasoningPart?
      decreases |ps| - i
    {
      i := i + 1;
    }
  }

  lemma {:induction false} FirstCall(ps: seq<Part>, id: string) returns (i: nat)
    requires HasCall(ps, id)
    ensures i < |ps| && ps[i].CallPart? && ps[i].call.id == id && !HasCall(ps[..i], id)
  {
    i := 0;
    while !(ps[i].CallPart? && ps[i].call.id == id)
      invariant i < |ps| && !HasCall(ps[..i], id)
      invariant exists j :: i <= j < |ps| && ps[j].CallPart? && ps[j].call.id == id
      decreases |ps| - i
    {
      i := i + 1;
    }
  }

  lemma AddToolCallShape(ps: seq<Part>, tc: ToolCall)
    requires Shape(ps)
    ensures Shape(AddToolCall(ps, tc))
  {
    if HasCall(ps, tc.id) {
      var i := FirstCall(ps, tc.id);
      AddToolCallAt(ps, i, tc);
      ShapeInPlace(ps, AddToolCall(ps, tc));
    } else {
      AddToolCallNew(ps, tc);
      ShapeAppend(ps, CallPart(tc));
    }
  }

  /** Dropping the first finish part of a well-shaped message drops them all. */
  lemma {:induction false} WithoutFinishShape(ps: seq<Part>)
    requires Shape(ps)
    ensures Shape(WithoutFinish(ps)) && !IsFinished(WithoutFinish(ps))
    ensures forall p <- WithoutFinish(ps) :: p in ps
  {
    if ps != [] {
      assert ps == [ps[0]] + ps[1..];
      assert Shape(ps[1..]);
      WithoutFinishShape(ps[1..]);
      if ps[0].FinishPart? {
        forall i | 0 <= i < |ps[1..]|
          ensures !ps[1..][i].FinishPart?
        {
          assert !Clash(ps[0], ps[i + 1]);
        }
      } else {
        var rest := WithoutFinish(ps[1..]);
        forall q | q in rest
          ensures !Clash(ps[0], q)
        {
          var j :| 0 <= j < |ps[1..]| && ps[1..][j] == q;
          assert !Clash(ps[0], ps[j + 1]);
        }
      }
    }
  }

  lemma AddFinishShape(ps: seq<Part>, finish: Part)
    requires Shape(ps) && finish.FinishPart?
    ensures Shape(AddFinish(ps, finish))
  {
    WithoutFinishShape(ps);
    forall q | q in WithoutFinish(ps)
      ensures !Clash(q, finish)
    {
      var j :| 0 <= j < |WithoutFinish(ps)| && WithoutFinish(ps)[j] == q;
    }
    ShapeAppend(WithoutFinish(ps), finish);
  }

  lemma {:induction false} EditsShape(ps: seq<Part>, es: seq<ReasoningEdit>)
    requires Shape(ps)
    ensures Shape(ApplyEdits(ps, es))
    decreases es
  {
    if es != [] {
      EditShape(ps, es[0]);
      EditsShape(ApplyEdit(ps, es[0]), es[1..]);
    }
  }

  lemma AppendShape(ps: seq<Part>, delta: string, now: nat)
    requires Shape(ps)
    ensures Shape(AppendContent(ps, delta)) && Shape(AppendReasoningContent(ps, delta, now))
  {
    if HasText(ps) {
      ShapeInPlace(ps, AppendContent(ps, delta));
    } else {
      ShapeAppend(ps, TextPart(delta));
    }
    if HasReasoning(ps) {
      ShapeInPlace(ps, AppendReasoningContent(ps, delta, now));
    } else {
      ShapeAppend(ps, ReasoningPart(Reasoning(delta, "", "", "", None, now, 0)));
    }
  }

  lemma ApplyShape(ps: seq<Part>, cb: Callback, now: nat)
    requires Shape(ps)
    ensures Shape(Apply(ps, cb, now))
  {
    hide Shape;
    match cb
    case ReasoningStart(text) => AppendShape(ps, text, now);
    case ReasoningDelta(text) => AppendShape(ps, text, now);
    case ReasoningEnd(_, _, _) => EditsShape(ps, Edits(cb, now));
    case TextDelta(text) => AppendShape(ps, Delta(ps, text), now);
    case ToolInputStart(_, _) => AddToolCallShape(ps, CallOf(cb));
    case ToolCallDone(_, _, _) => AddToolCallShape(ps, CallOf(cb));
    case StepFinish(reason) => AddFinishShape(ps, FinishPart(reason, now, "", ""));
  }

  /** Whatever the callbacks and their order, the message keeps its shape. */
  lemma {:induction false} StreamKeepsShape(cbs: seq<Callback>, times: seq<nat>)
    requires |times| == |cbs|
    ensures Shape(Built(cbs, times))
  {
    if cbs != [] {
      var n := |cbs| - 1;
      StreamKeepsShape(cbs[..n], times[..n]);
      ApplyShape(Built(cbs[..n], times[..n]), cbs[n], times[n]);
    }
  }

  // ------------------------------------------------------------ what each step reads as

  function Upsert(calls: seq<ToolCall>, tc: ToolCall): seq<ToolCall> {
    if calls == [] then [tc]
    else if calls[0].id == tc.id then [tc] + calls[1..]
    else [calls[0]] + Upsert(calls[1..], tc)
  }

  lemma {:induction false} AddToolCallReads(ps: seq<Part>, tc: ToolCall)
    ensures Calls(AddToolCall(ps, tc)) == Upsert(Calls(ps), tc)
    ensures TextOf(AddToolCall(ps, tc)) == TextOf(ps) && ReasoningOf(AddToolCall(ps, tc)) == ReasoningOf(ps)
  {
    if ps != [] {
      AddToolCallReads(ps[1..], tc);
      var rest := AddToolCall(ps[1..], tc);
      var head := if ps[0].CallPart? then [ps[0].call] else [];
      assert ([ps[0]] + rest)[1..] == rest && ([CallPart(tc)] + ps[1..])[1..] == ps[1..];
      assert (head + Calls(ps[1..]))[|head|..] == Calls(ps[1..]);
    }
  }

  lemma {:induction false} EditReads(ps: seq<Part>, e: ReasoningEdit)
    ensures Calls(ApplyEdit(ps, e)) == Calls(ps) && TextOf(ApplyEdit(ps, e)) == TextOf(ps)
    ensures ReasoningOf(ApplyEdit(ps, e)).thinking == ReasoningOf(ps).thinking
  {
    if ps != [] {
      EditReads(ps[1..], e);
    }
  }

  lemma {:induction false} EditsRead(ps: seq<Part>, es: seq<ReasoningEdit>)
    ensures Calls(ApplyEdits(ps, es)) == Calls(ps) && TextOf(ApplyEdits(ps, es)) == TextOf(ps)
    ensures ReasoningOf(ApplyEdits(ps, es)).thinking == ReasoningOf(ps).thinking
    decreases es
  {
    if es != [] {
      EditReads(ps, es[0]);
      EditsRead(ApplyEdit(ps, es[0]), es[1..]);
    }
  }

  lemma {:induction false} WithoutFinishReads(ps: seq<Part>)
    ensures Calls(WithoutFinish(ps)) == Calls(ps) && TextOf(WithoutFinish(ps)) == TextOf(ps)
    ensures ReasoningOf(WithoutFinish(ps)) == ReasoningOf(ps)
  {
    if ps != [] {
      WithoutFinishReads(ps[1..]);
    }
  }

  lemma NothingToRead(ps: seq<Part>, p: Part)
    ensures Calls(ps + [p]) == Calls(ps) + Calls([p])
    ensures TextOf(ps + [p]) == if HasText(ps) then TextOf(ps) else TextOf([p])
    ensures ReasoningOf(ps + [p]) == if HasReasoning(ps) then ReasoningOf(ps) else ReasoningOf([p])
  {
    CallsConcat(ps, [p]);
    TextOfConcat(ps, [p]);
    ReasoningOfConcat(ps, [p]);
  }

  lemma {:induction false} NoReasoning(ps: seq<Part>)
    requires !HasReasoning(ps)
    ensures ReasoningOf(ps) == NO_REASONING
  {
    if ps != [] {
      assert forall i :: 0 <= i < |ps[1..]| ==> ps[1..][i] == ps[i + 1];
      NoReasoning(ps[1..]);
    }
  }

  lemma AddFinishReads(ps: seq<Part>, finish: Part)
    requires finish.FinishPart?
    ensures Calls(AddFinish(ps, finish)) == Calls(ps) && TextOf(AddFinish(ps, finish)) == TextOf(ps)
    ensures ReasoningOf(AddFinish(ps, finish)) == ReasoningOf(ps)
  {
    var rest := WithoutFinish(ps);
    WithoutFinishReads(ps);
    NothingToRead(rest, finish);
    if !HasText(rest) { NoTextIsEmpty(rest); }
    if !HasReasoning(rest) { NoReasoning(rest); }
  }

  lemma AppendReads(ps: seq<Part>, delta: string)
    ensures TextOf(AppendContent(ps, delta)) == TextOf(ps) + delta
    ensures Calls(AppendContent(ps, delta)) == Calls(ps) && ReasoningOf(AppendContent(ps, delta)) == ReasoningOf(ps)
  {
    if HasText(ps) {
      TextOfPointwise(ps, AppendContent(ps, delta), delta);
    } else {
      NothingToRead(ps, TextPart(delta));
      NoTextIsEmpty(ps);
      if !HasReasoning(ps) { NoReasoning(ps); }
    }
  }

  lemma AppendReasoningReads(ps: seq<Part>, delta: string, now: nat)
    ensures ReasoningOf(AppendReasoningContent(ps, delta, now)).thinking == ReasoningOf(ps).thinking + delta
    ensures Calls(AppendReasoningContent(ps, delta, now)) == Calls(ps)
    ensures TextOf(AppendReasoningContent(ps, delta, now)) == TextOf(ps)
  {
    if HasReasoning(ps) {
      ThinkingPointwise(ps, AppendReasoningContent(ps, delta, now), delta);
    } else {
      NothingToRead(ps, ReasoningPart(Reasoning(delta, "", "", "", None, now, 0)));
      NoReasoning(ps);
      if !HasText(ps) { NoTextIsEmpty(ps); }
    }
  }

  predicate IsCall(cb: Callback) {
    cb.ToolInputStart? || cb.ToolCallDone?
  }

  /** What a callback adds to the thinking. */
  function Thought(cb: Callback): string {
    match cb
    case ReasoningStart(text) => text
    case ReasoningDelta(text) => text
    case _ => ""
  }

  lemma ApplyReads(ps: seq<Part>, cb: Callback, now: nat)
    ensures TextOf(Apply(ps, cb, now)) == if cb.TextDelta? then TextOf(ps) + Delta(ps, cb.text) else TextOf(ps)
    ensures Calls(Apply(ps, cb, now)) == if IsCall(cb) then Upsert(Calls(ps), CallOf(cb)) else Calls(ps)
    ensures ReasoningOf(Apply(ps, cb, now)).thinking == ReasoningOf(ps).thinking + Thought(cb)
  {
    match cb
    case ReasoningStart(text) => AppendReasoningReads(ps, text, now);
    case ReasoningDelta(text) => AppendReasoningReads(ps, text, now);
    case ReasoningEnd(_, _, _) => EditsRead(ps, Edits(cb, now));
    case TextDelta(text) => AppendReads(ps, Delta(ps, text));
    case ToolInputStart(_, _) => AddToolCallReads(ps, CallOf(cb));
    case ToolCallDone(_, _, _) => AddToolCallReads(ps, CallOf(cb));
    case StepFinish(reason) => AddFinishReads(ps, FinishPart(reason, now, "", ""));
  }

  // ------------------------------------------------------------------------- text

  /** A callback that leaves an empty message empty. */
  predicate Inert(cb: Callback) {
    cb.ReasoningEnd? && cb.signature.None? && cb.thought.None?
  }

  function Said(cb: Callback): string {
    if cb.TextDelta? then cb.text else ""
  }

  function Deltas(cbs: seq<Callback>): string {
    if cbs == [] then "" else Said(cbs[0]) + Deltas(cbs[1..])
  }

  /** The concatenated deltas, less one newline at the front of a message that starts with text. */
  function Spoken(cbs: seq<Callback>): string {
    if cbs == [] then ""
    else if Inert(cbs[0]) then Spoken(cbs[1..])
    else if cbs[0].TextDelta? then TrimPrefix(cbs[0].text, "\n") + Deltas(cbs[1..])
    else Deltas(cbs)
  }

  predicate AllInert(cbs: seq<Callback>) {
    forall cb <- cbs :: Inert(cb)
  }

  lemma {:induction false} DeltasSnoc(cbs: seq<Callback>, cb: Callback)
    ensures Deltas(cbs + [cb]) == Deltas(cbs) + Said(cb)
  {
    hide Said;
    if cbs == [] {
      assert [cb][1..] == [];
    } else {
      assert (cbs + [cb])[1..] == cbs[1..] + [cb];
      DeltasSnoc(cbs[1..], cb);
      assert Said(cbs[0]) + (Deltas(cbs[1..]) + Said(cb)) == Said(cbs[0]) + Deltas(cbs[1..]) + Said(cb);
    }
  }

  lemma {:induction false} SpokenSnoc(cbs: seq<Callback>, cb: Callback)
    ensures Spoken(cbs + [cb]) ==
            Spoken(cbs)
            + if !cb.TextDelta? then "" else if AllInert(cbs) then TrimPrefix(cb.text, "\n") else cb.text
  {
    if cbs == [] {
      assert [cb][1..] == [];
    } else {
      assert (cbs + [cb])[1..] == cbs[1..] + [cb];
      if Inert(cbs[0]) {
        SpokenSnoc(cbs[1..], cb);
        assert cbs == [cbs[0]] + cbs[1..];
      } else {
        assert cbs[0] in cbs;
        if cbs[0].TextDelta? {
          var head := TrimPrefix(cbs[0].text, "\n");
          DeltasSnoc(cbs[1..], cb);
          assert head + (Deltas(cbs[1..]) + Said(cb)) == head + Deltas(cbs[1..]) + Said(cb);
        } else {
          DeltasSnoc(cbs, cb);
        }
      }
    }
  }

  lemma ApplyEmpty(ps: seq<Part>, cb: Callback, now: nat)
    ensures Apply(ps, cb, now) == [] <==> ps == [] && Inert(cb)
  {
    if cb.ReasoningEnd? {
      hide ApplyEdits;
      EditsUnfold(ps, cb, now);
      var p1 := if cb.signature.Some? then ApplyEdit(ps, AddSignature(cb.signature.value)) else ps;
      var p2 := if cb.thought.Some? then ApplyEdit(p1, AddThought(cb.thought.value.0, cb.thought.value.1)) else p1;
      var p3 := if cb.data.Some? then ApplyEdit(p2, SetData(cb.data.value)) else p2;
      assert p1 == [] <==> ps == [] && cb.signature.None?;
      assert p2 == [] <==> p1 == [] && cb.thought.None?;
      assert p3 == [] <==> p2 == [];
    }
  }

  lemma {:induction false} BuiltText(cbs: seq<Callback>, times: seq<nat>)
    requires |times| == |cbs|
    ensures TextOf(Built(cbs, times)) == Spoken(cbs)
    ensures Built(cbs, times) == [] <==> AllInert(cbs)
  {
    if cbs != [] {
      var n := |cbs| - 1;
      BuiltText(cbs[..n], times[..n]);
      TextStep(Built(cbs[..n], times[..n]), cbs[..n], cbs[n], times[n]);
      assert cbs[..n] + [cbs[n]] == cbs;
    }
  }

  lemma TextStep(ps: seq<Part>, before: seq<Callback>, cb: Callback, now: nat)
    requires TextOf(ps) == Spoken(before) && (ps == [] <==> AllInert(before))
    ensures TextOf(Apply(ps, cb, now)) == Spoken(before + [cb])
    ensures Apply(ps, cb, now) == [] <==> AllInert(before + [cb])
  {
    hide Apply, TextOf, Calls, ReasoningOf, Spoken, Inert;
    ApplyEmpty(ps, cb, now);
    ApplyReads(ps, cb, now);
    SpokenSnoc(before, cb);
  }

  /** The text is the concatenation of the deltas up to one leading newline, and the newline
      goes exactly when the stream opens, after inert callbacks, with a delta that has one. */
  lemma {:induction false} TextIsTheDeltas(cbs: seq<Callback>, times: seq<nat>, k: nat)
    requires |times| == |cbs|
    requires k <= |cbs| && AllInert(cbs[..k]) && (k < |cbs| ==> !Inert(cbs[k]))
    ensures var text := TextOf(Built(cbs, times));
            if k < |cbs| && cbs[k].TextDelta? && "\n" <= cbs[k].text
            then Deltas(cbs) == "\n" + text else text == Deltas(cbs)
  {
    hide Built, TextOf;
    BuiltText(cbs, times);
    SkipInert(cbs, k);
    SpokenAt(cbs[k..]);
  }

  lemma SpokenAt(cbs: seq<Callback>)
    requires cbs != [] ==> !Inert(cbs[0])
    ensures if cbs != [] && cbs[0].TextDelta? && "\n" <= cbs[0].text
            then Deltas(cbs) == "\n" + Spoken(cbs) else Spoken(cbs) == Deltas(cbs)
  {
    if cbs != [] && cbs[0].TextDelta? {
      TrimNewline(cbs[0].text, Deltas(cbs[1..]));
    }
  }

  lemma TrimNewline(text: string, rest: string)
    ensures text + rest == (if "\n" <= text then "\n" else "") + (TrimPrefix(text, "\n") + rest)
  {
    if "\n" <= text {
      assert text == "\n" + text[1..];
    }
  }

  lemma {:induction false} SkipInert(cbs: seq<Callback>, k: nat)
    requires k <= |cbs| && AllInert(cbs[..k])
    ensures Spoken(cbs) == Spoken(cbs[k..]) && Deltas(cbs) == Deltas(cbs[k..])
  {
    if k > 0 {
      assert cbs[..k][0] == cbs[0];
      assert forall cb :: cb in cbs[1..][..k - 1] ==> cb in cbs[..k];
      SkipInert(cbs[1..], k - 1);
      assert cbs[1..][k - 1..] == cbs[k..];
    } else {
      assert cbs[0..] == cbs;
    }
  }

  function Thoughts(cbs: seq<Callback>): string {
    if cbs == [] then "" else Thoughts(cbs[..|cbs| - 1]) + Thought(cbs[|cbs| - 1])
  }

  /** The thinking is the concatenation of the reasoning deltas, whatever signatures and finish
      marks come between. */
  lemma {:induction false} ThinkingIsTheDeltas(cbs: seq<Callback>, times: seq<nat>)
    requires |times| == |cbs|
    ensures ReasoningOf(Built(cbs, times)).thinking == Thoughts(cbs)
  {
    if cbs != [] {
      var n := |cbs| - 1;
      ThinkingIsTheDeltas(cbs[..n], times[..n]);
      ApplyReads(Built(cbs[..n], times[..n]), cbs[n], times[n]);
    }
  }

  // ------------------------------------------------------------------------- calls

  function IDs(calls: seq<ToolCall>): (r: seq<string>)
    ensures |r| == |calls|
  {
    seq(|calls|, i requires 0 <= i < |calls| => calls[i].id)
  }

  predicate DistinctIDs(calls: seq<ToolCall>) {
    forall i, j :: 0 <= i < j < |calls| ==> calls[i].id != calls[j].id
  }

  /** The call events of a stream, in order. */
  function Events(cbs: seq<Callback>): seq<ToolCall> {
    if cbs == [] then []
    else Events(cbs[..|cbs| - 1]) + if IsCall(cbs[|cbs| - 1]) then [CallOf(cbs[|cbs| - 1])] else []
  }

  /** Each element once, in the order of first appearance. */
  function FirstSeen(ids: seq<string>): seq<string> {
    if ids == [] then []
    else
      var n := |ids| - 1;
      FirstSeen(ids[..n]) + if ids[n] in ids[..n] then [] else [ids[n]]
  }

  lemma {:induction false} FirstSeenMembers(ids: seq<string>, id: string)
    ensures id in FirstSeen(ids) <==> id in ids
  {
    if ids != [] {
      FirstSeenMembers(ids[..|ids| - 1], id);
      assert ids == ids[..|ids| - 1] + [ids[|ids| - 1]];
    }
  }

  /** The last event with its ID. */
  predicate Latest(events: seq<ToolCall>, tc: ToolCall) {
    exists k :: 0 <= k < |events| && events[k] == tc && forall l :: k < l < |events| ==> events[l].id != tc.id
  }

  predicate Holds(calls: seq<ToolCall>, id: string) {
    exists c <- calls :: c.id == id
  }

  /** Upsert replaces in place the one call with that ID, or appends. */
  lemma {:induction false} UpsertAt(calls: seq<ToolCall>, tc: ToolCall) returns (i: nat)
    ensures if Holds(calls, tc.id) then
              i < |calls| && calls[i].id == tc.id && Upsert(calls, tc) == calls[i := tc]
            else
              Upsert(calls, tc) == calls + [tc]
  {
    i := 0;
    if calls != [] && calls[0].id != tc.id {
      var j := UpsertAt(calls[1..], tc);
      i := j + 1;
      assert Holds(calls, tc.id) ==> Holds(calls[1..], tc.id);
    }
  }

  lemma UpsertIDs(calls: seq<ToolCall>, tc: ToolCall)
    requires DistinctIDs(calls)
    ensures DistinctIDs(Upsert(calls, tc))
    ensures IDs(Upsert(calls, tc)) == if Holds(calls, tc.id) then IDs(calls) else IDs(calls) + [tc.id]
    ensures Holds(calls, tc.id) <==> tc.id in IDs(calls)
  {
    var i := UpsertAt(calls, tc);
    assert forall j :: 0 <= j < |calls| ==> IDs(calls)[j] == calls[j].id && calls[j] in calls;
  }

  lemma UpsertMembers(calls: seq<ToolCall>, tc: ToolCall, c: ToolCall)
    requires DistinctIDs(calls)
    ensures c in Upsert(calls, tc) <==> c == tc || (c in calls && c.id != tc.id)
  {
    var i := UpsertAt(calls, tc);
    if Holds(calls, tc.id) {
      assert calls[i := tc][i] == tc;
      if c in calls && c.id != tc.id {
        var j :| 0 <= j < |calls| && calls[j] == c;
        assert calls[i := tc][j] == c;
      }
    }
  }

  lemma LatestSnoc(events: seq<ToolCall>, tc: ToolCall, c: ToolCall)
    ensures Latest(events + [tc], c) <==> c == tc || (Latest(events, c) && c.id != tc.id)
  {
    var all := events + [tc];
    assert forall l :: 0 <= l < |events| ==> all[l] == events[l];
    if c == tc {
      assert all[|events|] == tc;
    } else if Latest(all, c) {
      var k :| 0 <= k < |all| && all[k] == c && forall l :: k < l < |all| ==> all[l].id != c.id;
      assert all[|events|].id != c.id && events[k] == c;
    } else if Latest(events, c) {
      var k :| 0 <= k < |events| && events[k] == c && forall l :: k < l < |events| ==> events[l].id != c.id;
      assert all[k] == c;
    }
  }

  lemma FirstSeenSnoc(ids: seq<string>, id: string)
    ensures FirstSeen(ids + [id]) == if id in FirstSeen(ids) then FirstSeen(ids) else FirstSeen(ids) + [id]
  {
    assert (ids + [id])[..|ids|] == ids;
    FirstSeenMembers(ids, id);
  }

  /** One more event, on a sequence of calls that is the ordered map of the events so far. */
  lemma OneMoreEvent(calls: seq<ToolCall>, events: seq<ToolCall>, tc: ToolCall)
    requires OrderedMap(calls, events)
    ensures OrderedMap(Upsert(calls, tc), events + [tc])
  {
    hide Upsert, Holds, Latest, FirstSeen;
    UpsertIDs(calls, tc);
    FirstSeenSnoc(IDs(events), tc.id);
    assert IDs(events + [tc]) == IDs(events) + [tc.id];
    forall c
      ensures c in Upsert(calls, tc) <==> Latest(events + [tc], c)
    {
      UpsertMembers(calls, tc, c);
      LatestSnoc(events, tc, c);
    }
  }

  /** An insertion-ordered map: distinct IDs in the order in which they first came, each with
      its last event. */
  ghost predicate OrderedMap(calls: seq<ToolCall>, events: seq<ToolCall>) {
    && DistinctIDs(calls)
    && IDs(calls) == FirstSeen(IDs(events))
    && forall tc :: tc in calls <==> Latest(events, tc)
  }

  /** The tool calls of a streamed message are the ordered map of its call events. */
  lemma {:induction false} CallsAreOrderedMap(cbs: seq<Callback>, times: seq<nat>)
    requires |times| == |cbs|
    ensures OrderedMap(Calls(Built(cbs, times)), Events(cbs))
  {
    if cbs != [] {
      CallsAreOrderedMap(cbs[..|cbs| - 1], times[..|cbs| - 1]);
      CallsStep(cbs, times);
    }
  }

  lemma CallsStep(cbs: seq<Callback>, times: seq<nat>)
    requires |times| == |cbs| && cbs != []
    requires OrderedMap(Calls(Built(cbs[..|cbs| - 1], times[..|cbs| - 1])), Events(cbs[..|cbs| - 1]))
    ensures OrderedMap(Calls(Built(cbs, times)), Events(cbs))
  {
    hide OrderedMap, Apply, Upsert, Calls, TextOf, ReasoningOf, CallOf;
    var n := |cbs| - 1;
    ApplyReads(Built(cbs[..n], times[..n]), cbs[n], times[n]);
    if IsCall(cbs[n]) {
      OneMoreEvent(Calls(Built(cbs[..n], times[..n])), Events(cbs[..n]), CallOf(cbs[n]));
    } else {
      assert Events(cbs[..n]) + [] == Events(cbs[..n]);
    }
  }

  // ------------------------------------------------------------------ error cleanup

  function ClosedUpTo(calls: seq<ToolCall>, k: nat): (r: seq<ToolCall>)
    requires k <= |calls|
    ensures |r| == |calls|
  {
    seq(|calls|, i requires 0 <= i < |calls| => if i < k then Closed(calls[i]) else calls[i])
  }

  lemma CloseNext(calls: seq<ToolCall>, k: nat)
    requires DistinctIDs(calls) && k < |calls|
    ensures Upsert(ClosedUpTo(calls, k), Closed(calls[k])) == ClosedUpTo(calls, k + 1)
  {
    var before := ClosedUpTo(calls, k);
    assert before[k] == calls[k] && calls[k] in before;
    var i := UpsertAt(before, Closed(calls[k]));
    assert i == k;
  }

  lemma {:induction false} CloseAllReads(ps: seq<Part>, k: nat)
    requires DistinctIDs(Calls(ps)) && k <= |Calls(ps)|
    ensures var after := CloseAll(ps, Calls(ps)[..k]);
            && Calls(after) == ClosedUpTo(Calls(ps), k)
            && TextOf(after) == TextOf(ps)
            && ReasoningOf(after) == ReasoningOf(ps)
  {
    var calls := Calls(ps);
    hide Calls, TextOf, ReasoningOf, AddToolCall;
    if k == 0 {
      assert ClosedUpTo(calls, 0) == calls;
    } else {
      var tc := calls[k - 1];
      assert calls[..k][..k - 1] == calls[..k - 1];
      CloseAllReads(ps, k - 1);
      if tc.finished {
        assert ClosedUpTo(calls, k) == ClosedUpTo(calls, k - 1);
      } else {
        AddToolCallReads(CloseAll(ps, calls[..k - 1]), Closed(tc));
        CloseNext(calls, k - 1);
      }
    }
  }

  lemma {:induction false} CloseAllShape(ps: seq<Part>, calls: seq<ToolCall>)
    requires Shape(ps)
    ensures Shape(CloseAll(ps, calls))
  {
    if calls != [] {
      hide Shape;
      CloseAllShape(ps, calls[..|calls| - 1]);
      AddToolCallShape(CloseAll(ps, calls[..|calls| - 1]), Closed(calls[|calls| - 1]));
    }
  }

  /** After error cleanup of a streamed message every call is finished, in its place and under
      its own ID, an open one with empty input; text and shape are as they were. */
  lemma CleanUpClosesEveryCall(cbs: seq<Callback>, times: seq<nat>, now: nat, finish: Part)
    requires |times| == |cbs| && finish.FinishPart?
    ensures var before := Built(cbs, times);
            var after := CleanedUp(before, now, finish);
            && Calls(after) == ClosedUpTo(Calls(before), |Calls(before)|)
            && (forall tc <- Calls(after) :: tc.finished)
            && IDs(Calls(after)) == IDs(Calls(before))
            && TextOf(after) == TextOf(before)
            && ReasoningOf(after).thinking == ReasoningOf(before).thinking
            && Shape(after) && IsFinished(after)
  {
    hide Shape, Built, CloseAll, ApplyEdit, AddFinish, Calls, TextOf, ReasoningOf;
    var before := Built(cbs, times);
    var thought := ApplyEdit(before, FinishThinking(now));
    var calls := Calls(thought);
    StreamKeepsShape(cbs, times);
    CallsAreOrderedMap(cbs, times);
    EditReads(before, FinishThinking(now));
    EditShape(before, FinishThinking(now));
    CloseAllReads(thought, |calls|);
    assert calls[..|calls|] == calls;
    CloseAllShape(thought, calls);
    AddFinishReads(CloseAll(thought, calls), finish);
    AddFinishShape(CloseAll(thought, calls), finish);
    AddFinishFinishes(CloseAll(thought, calls), finish);
  }

  lemma AddFinishFinishes(ps: seq<Part>, finish: Part)
    requires finish.FinishPart?
    ensures IsFinished(AddFinish(ps, finish))
  {
    assert AddFinish(ps, finish)[|WithoutFinish(ps)|] == finish;
  }

  function ResultIDs(results: seq<ToolResult>): (r: seq<string>)
    ensures |r| == |results|
  {
    seq(|results|, i requires 0 <= i < |results| => results[i].toolCallID)
  }

  lemma {:induction false} OwedIDs(calls: seq<ToolCall>, msgs: seq<Message>, cancelled: bool, id: string)
    requires DistinctIDs(calls)
    ensures multiset(ResultIDs(Owed(calls, msgs, cancelled)))[id]
            == if id in IDs(calls) && !Answered(msgs, id) then 1 else 0
    ensures forall r <- Owed(calls, msgs, cancelled) :: r.isError
  {
    if calls != [] {
      hide Answered;
      var n := |calls| - 1;
      var tc := calls[n];
      OwedIDs(calls[..n], msgs, cancelled, id);
      assert IDs(calls) == IDs(calls[..n]) + [tc.id];
      assert forall i :: 0 <= i < n ==> IDs(calls[..n])[i] == calls[i].id;
      var owed := Owed(calls[..n], msgs, cancelled);
      if !Answered(msgs, tc.id) {
        assert ResultIDs(owed + [ErrorResult(tc, cancelled)]) == ResultIDs(owed) + [tc.id];
      } else {
        assert owed + [] == owed;
      }
    }
  }

  /** Error cleanup creates exactly one result, an error, for each call of a streamed message
      that no listed tool message answers, and nothing else. */
  lemma CleanUpAnswersEveryCallOnce(cbs: seq<Callback>, times: seq<nat>, now: nat, msgs: seq<Message>,
                                    cancelled: bool, id: string)
    requires |times| == |cbs|
    ensures var calls := Calls(ApplyEdit(Built(cbs, times), FinishThinking(now)));
            var created := Owed(calls, msgs, cancelled);
            && multiset(ResultIDs(created))[id]
               == (if id in IDs(Calls(Built(cbs, times))) && !Answered(msgs, id) then 1 else 0)
            && forall r <- created :: r.isError
  {
    CallsAreOrderedMap(cbs, times);
    EditReads(Built(cbs, times), FinishThinking(now));
    OwedIDs(Calls(Built(cbs, times)), msgs, cancelled, id);
  }
}
