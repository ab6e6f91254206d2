/**
 internal/agent/agent.go, internal/message/content.go: what the streamed message carries of each
 callback, and what error cleanup puts into calls and results, field by field.
 */
module StreamDetails {
  import opened Options
  import opened Text
  import opened Content
  import opened Streaming
  import opened StreamTheorems

  // ------------------------------------------------------------------------- calls

  /** The callback is about the call with this ID. */
  predicate About(cb: Callback, id: string) {
    (cb.ToolInputStart? && cb.id == id) || (cb.ToolCallDone? && cb.id == id)
  }

  /** The IDs of the call callbacks, in order. */
  function CallIDs(cbs: seq<Callback>): seq<string> {
    if cbs == [] then []
    else
      var cb := cbs[|cbs| - 1];
      CallIDs(cbs[..|cbs| - 1])
      + match cb
        case ToolInputStart(id, _) => [id]
        case ToolCallDone(id, _, _) => [id]
        case _ => []
  }

  lemma {:induction false} EventIDs(cbs: seq<Callback>)
    ensures IDs(Events(cbs)) == CallIDs(cbs)
  {
    if cbs != [] {
      EventIDs(cbs[..|cbs| - 1]);
    }
  }

  lemma EventsMore(cbs: seq<Callback>)
    requires cbs != []
    ensures var n := |cbs| - 1;
            Events(cbs) == if IsCall(cbs[n]) then Events(cbs[..n]) + [CallOf(cbs[n])] else Events(cbs[..n])
  {
    var before := Events(cbs[..|cbs| - 1]);
    assert before + [] == before;
  }

  lemma {:induction false} LastEvent(cbs: seq<Callback>, k: nat)
    requires k < |cbs| && IsCall(cbs[k])
    requires forall j :: k < j < |cbs| ==> !About(cbs[j], cbs[k].id)
    ensures Latest(Events(cbs), CallOf(cbs[k]))
  {
    hide Events, Latest;
    var n := |cbs| - 1;
    var before := Events(cbs[..n]);
    EventsMore(cbs);
    if k < n {
      LastEvent(cbs[..n], k);
      if IsCall(cbs[n]) {
        assert !About(cbs[n], cbs[k].id);
        LatestSnoc(before, CallOf(cbs[n]), CallOf(cbs[k]));
      }
    } else {
      LatestSnoc(before, CallOf(cbs[n]), CallOf(cbs[n]));
    }
  }

  lemma {:induction false} EventOrigin(cbs: seq<Callback>, tc: ToolCall) returns (k: nat)
    requires tc in Events(cbs)
    ensures k < |cbs| && About(cbs[k], tc.id)
  {
    var n := |cbs| - 1;
    k := n;
    if tc in Events(cbs[..n]) {
      k := EventOrigin(cbs[..n], tc);
    }
  }

  /** The one call of that ID, and no other. */
  predicate HoldsOnly(calls: seq<ToolCall>, tc: ToolCall) {
    exists i :: 0 <= i < |calls| && calls[i] == tc && forall j :: 0 <= j < |calls| && j != i ==> calls[j].id != tc.id
  }

  /** The last callback about a call decides it: one that starts its input leaves the call open
      with empty input, one that completes it leaves it finished with that input, under its name. */
  lemma {:induction false} LastCallbackDecides(cbs: seq<Callback>, times: seq<nat>, k: nat)
    requires |times| == |cbs| && k < |cbs|
    ensures cbs[k].ToolInputStart? && (forall j :: k < j < |cbs| ==> !About(cbs[j], cbs[k].id)) ==>
              HoldsOnly(Calls(Built(cbs, times)), ToolCall(cbs[k].id, cbs[k].name, "", false, false))
    ensures cbs[k].ToolCallDone? && (forall j :: k < j < |cbs| ==> !About(cbs[j], cbs[k].id)) ==>
              HoldsOnly(Calls(Built(cbs, times)), ToolCall(cbs[k].id, cbs[k].name, cbs[k].input, false, true))
  {
    CallsAreOrderedMap(cbs, times);
    hide Built, Events, Latest, FirstSeen;
    var calls := Calls(Built(cbs, times));
    if IsCall(cbs[k]) && forall j :: k < j < |cbs| ==> !About(cbs[j], cbs[k].id) {
      LastEvent(cbs, k);
      assert CallOf(cbs[k]) in calls;
      var i :| 0 <= i < |calls| && calls[i] == CallOf(cbs[k]);
    }
  }

  /** There are no other calls, and they stand in the order in which they were first mentioned. */
  lemma {:induction false} CallsStandInOrder(cbs: seq<Callback>, times: seq<nat>)
    requires |times| == |cbs|
    ensures IDs(Calls(Built(cbs, times))) == FirstSeen(CallIDs(cbs))
  {
    CallsAreOrderedMap(cbs, times);
    EventIDs(cbs);
  }

  // ------------------------------------------------------------------------- finish

  lemma {:induction false} EditKeepsFinish(ps: seq<Part>, e: ReasoningEdit, f: Part)
    requires f.FinishPart?
    ensures f in ApplyEdit(ps, e) <==> f in ps
  {
    if ps != [] {
      EditKeepsFinish(ps[1..], e, f);
      assert ps == [ps[0]] + ps[1..];
    }
  }

  lemma {:induction false} EditsKeepFinish(ps: seq<Part>, es: seq<ReasoningEdit>, f: Part)
    requires f.FinishPart?
    ensures f in ApplyEdits(ps, es) <==> f in ps
    decreases es
  {
    if es != [] {
      EditKeepsFinish(ps, es[0], f);
      EditsKeepFinish(ApplyEdit(ps, es[0]), es[1..], f);
    }
  }

  lemma {:induction false} CallKeepsFinish(ps: seq<Part>, tc: ToolCall, f: Part)
    requires f.FinishPart?
    ensures f in AddToolCall(ps, tc) <==> f in ps
  {
    if ps != [] {
      CallKeepsFinish(ps[1..], tc, f);
      assert ps == [ps[0]] + ps[1..];
    }
  }

  lemma AppendKeepsFinish(ps: seq<Part>, delta: string, now: nat, f: Part)
    requires f.FinishPart?
    ensures f in AppendContent(ps, delta) <==> f in ps
    ensures f in AppendReasoningContent(ps, delta, now) <==> f in ps
  {
    var text, thought := AppendContent(ps, delta), AppendReasoningContent(ps, delta, now);
    if f in ps {
      var i :| 0 <= i < |ps| && ps[i] == f;
      assert text[i] == f && thought[i] == f;
    }
  }

  lemma ApplyKeepsFinish(ps: seq<Part>, cb: Callback, now: nat, f: Part)
    requires f.FinishPart? && !cb.StepFinish?
    ensures f in Apply(ps, cb, now) <==> f in ps
  {
    match cb
    case ReasoningStart(text) => AppendKeepsFinish(ps, text, now, f);
    case ReasoningDelta(text) => AppendKeepsFinish(ps, text, now, f);
    case ReasoningEnd(_, _, _) => EditsKeepFinish(ps, Edits(cb, now), f);
    case TextDelta(text) => AppendKeepsFinish(ps, Delta(ps, text), now, f);
    case ToolInputStart(_, _) => CallKeepsFinish(ps, CallOf(cb), f);
    case ToolCallDone(_, _, _) => CallKeepsFinish(ps, CallOf(cb), f);
  }

  /** The finish part that the last finished step makes: its reason and time, no message of its own. */
  predicate LastFinish(cbs: seq<Callback>, times: seq<nat>, f: Part)
    requires |times| == |cbs|
  {
    exists k :: 0 <= k < |cbs| && cbs[k].StepFinish? && f == FinishPart(cbs[k].reason, times[k], "", "")
                && forall j :: k < j < |cbs| ==> !cbs[j].StepFinish?
  }

  /** The message is finished exactly if a step finished, and then by the last one: its reason and
      time. */
  lemma {:induction false} LastFinishStands(cbs: seq<Callback>, times: seq<nat>, f: Part)
    requires |times| == |cbs| && f.FinishPart?
    ensures f in Built(cbs, times) <==> LastFinish(cbs, times, f)
  {
    if cbs != [] {
      var n := |cbs| - 1;
      var ps := Built(cbs[..n], times[..n]);
      LastFinishStands(cbs[..n], times[..n], f);
      if cbs[n].StepFinish? {
        StreamKeepsShape(cbs[..n], times[..n]);
        OnlyFinish(ps, FinishPart(cbs[n].reason, times[n], "", ""), f);
      } else {
        ApplyKeepsFinish(ps, cbs[n], times[n], f);
        FinishBefore(cbs, times, f);
      }
    }
  }

  lemma FinishBefore(cbs: seq<Callback>, times: seq<nat>, f: Part)
    requires |times| == |cbs| && cbs != [] && !cbs[|cbs| - 1].StepFinish? && f.FinishPart?
    ensures var n := |cbs| - 1; LastFinish(cbs[..n], times[..n], f) <==> LastFinish(cbs, times, f)
  {
    var n := |cbs| - 1;
    if LastFinish(cbs[..n], times[..n], f) {
      var k :| 0 <= k < n && cbs[k].StepFinish? && f == FinishPart(cbs[k].reason, times[k], "", "")
               && forall j :: k < j < n ==> !cbs[..n][j].StepFinish?;
      assert forall j :: k < j < |cbs| ==> !cbs[j].StepFinish?;
    }
    if LastFinish(cbs, times, f) {
      var k :| 0 <= k < |cbs| && cbs[k].StepFinish? && f == FinishPart(cbs[k].reason, times[k], "", "")
               && forall j :: k < j < |cbs| ==> !cbs[j].StepFinish?;
      assert cbs[..n][k] == cbs[k] && times[..n][k] == times[k];
    }
  }

  lemma OnlyFinish(ps: seq<Part>, finish: Part, f: Part)
    requires Shape(ps) && finish.FinishPart? && f.FinishPart?
    ensures f in AddFinish(ps, finish) <==> f == finish
    ensures AddFinish(ps, finish)[|AddFinish(ps, finish)| - 1] == finish
  {
    WithoutFinishShape(ps);
    var rest := WithoutFinish(ps);
    assert forall i :: 0 <= i < |rest| ==> !rest[i].FinishPart?;
  }

  // ------------------------------------------------------------------------- reasoning

  /** What the end of reasoning makes of the reasoning, field by field: thinking and start stay, the
      end is set once, the signature grows by the one given unless response data replace it, and
      thought signature and response data outlast only reasoning that had ended before. */
  lemma ReasoningEndDecides(ps: seq<Part>, cb: Callback, now: nat)
    requires cb.ReasoningEnd? && HasReasoning(ps)
    ensures var r, r' := ReasoningOf(ps), ReasoningOf(Apply(ps, cb, now)); var first := r.finishedAt == 0;
            && HasReasoning(Apply(ps, cb, now))
            && r'.thinking == r.thinking && r'.startedAt == r.startedAt
            && r'.finishedAt == (if first then now else r.finishedAt)
            && r'.signature == (if cb.data.Some? then ""
                                else r.signature + if cb.signature.Some? then cb.signature.value else "")
            && r'.responsesData == (if first then None else if cb.data.Some? then cb.data
                                    else if cb.thought.Some? || cb.signature.Some? then None else r.responsesData)
            && r'.thoughtSignature == (if first || cb.data.Some? then ""
                                       else (if cb.signature.Some? then "" else r.thoughtSignature)
                                            + if cb.thought.Some? then cb.thought.value.0 else "")
            && r'.toolID == (if first || cb.data.Some? then "" else if cb.thought.Some? then cb.thought.value.1
                             else if cb.signature.Some? then "" else r.toolID)
  {
    EditsUnfold(ps, cb, now);
    var p1 := if cb.signature.Some? then ApplyEdit(ps, AddSignature(cb.signature.value)) else ps;
    var p2 := if cb.thought.Some? then ApplyEdit(p1, AddThought(cb.thought.value.0, cb.thought.value.1)) else p1;
    var p3 := if cb.data.Some? then ApplyEdit(p2, SetData(cb.data.value)) else p2;
    if cb.signature.Some? { EditFirst(ps, AddSignature(cb.signature.value)); }
    if cb.thought.Some? { EditFirst(p1, AddThought(cb.thought.value.0, cb.thought.value.1)); }
    if cb.data.Some? { EditFirst(p2, SetData(cb.data.value)); }
    EditFirst(p3, FinishThinking(now));
    hide ApplyEdits, ApplyEdit, HasReasoning, ReasoningOf;
  }

  lemma {:induction false} EditFirst(ps: seq<Part>, e: ReasoningEdit)
    requires HasReasoning(ps)
    ensures HasReasoning(ApplyEdit(ps, e)) && ReasoningOf(ApplyEdit(ps, e)) == EditReasoning(ReasoningOf(ps), e)
  {
    if ps[0].ReasoningPart? {
      assert ApplyEdit(ps, e)[0].ReasoningPart?;
    } else {
      assert HasReasoning(ps[1..]) by {
        var i :| 0 <= i < |ps| && ps[i].ReasoningPart?;
        assert ps[1..][i - 1] == ps[i];
      }
      EditFirst(ps[1..], e);
      var rest := ApplyEdit(ps[1..], e);
      assert ([ps[0]] + rest)[1..] == rest;
      var i :| 0 <= i < |rest| && rest[i].ReasoningPart?;
      assert ([ps[0]] + rest)[i + 1].ReasoningPart?;
    }
  }

  /** A callback that opens the reasoning. */
  predicate Opens(cb: Callback) {
    cb.ReasoningStart? || cb.ReasoningDelta? || (cb.ReasoningEnd? && (cb.signature.Some? || cb.thought.Some?))
  }

  /** The time of the first end of reasoning after the k-th callback, 0 without one. */
  function EndTime(cbs: seq<Callback>, times: seq<nat>, k: nat): nat
    requires |times| == |cbs|
  {
    if |cbs| <= k + 1 then 0
    else
      var n := |cbs| - 1;
      var before := EndTime(cbs[..n], times[..n], k);
      if before != 0 then before else if cbs[n].ReasoningEnd? then times[n] else 0
  }

  lemma {:induction false} NothingOpened(cbs: seq<Callback>, times: seq<nat>)
    requires |times| == |cbs| && forall cb <- cbs :: !Opens(cb)
    ensures !HasReasoning(Built(cbs, times))
  {
    if cbs != [] {
      var n := |cbs| - 1;
      NothingOpened(cbs[..n], times[..n]);
      assert cbs[n] in cbs;
      NotOpened(Built(cbs[..n], times[..n]), cbs[n], times[n]);
    }
  }

  lemma NotOpened(ps: seq<Part>, cb: Callback, now: nat)
    requires !HasReasoning(ps) && !Opens(cb)
    ensures !HasReasoning(Apply(ps, cb, now))
  {
    match cb
    case ReasoningEnd(_, _, _) =>
      EditsUnfold(ps, cb, now);
      if cb.data.Some? { EditNowhere(ps, SetData(cb.data.value)); }
      EditNowhere(ps, FinishThinking(now));
      assert ps + [] == ps;
    case TextDelta(text) =>
    case ToolInputStart(_, _) => CallKeepsReasoning(ps, CallOf(cb));
    case ToolCallDone(_, _, _) => CallKeepsReasoning(ps, CallOf(cb));
    case StepFinish(_) => FinishKeepsReasoning(ps);
  }

  lemma CallKeepsReasoning(ps: seq<Part>, tc: ToolCall)
    ensures HasReasoning(AddToolCall(ps, tc)) <==> HasReasoning(ps)
  {
    if HasCall(ps, tc.id) {
      var i := FirstCall(ps, tc.id);
      AddToolCallAt(ps, i, tc);
      if HasReasoning(ps) {
        var j :| 0 <= j < |ps| && ps[j].ReasoningPart?;
        assert AddToolCall(ps, tc)[j] == ps[j];
      }
    } else {
      AddToolCallNew(ps, tc);
      if HasReasoning(ps) {
        var j :| 0 <= j < |ps| && ps[j].ReasoningPart?;
        assert AddToolCall(ps, tc)[j] == ps[j];
      }
    }
  }

  lemma {:induction false} FinishKeepsReasoning(ps: seq<Part>)
    ensures HasReasoning(WithoutFinish(ps)) <==> HasReasoning(ps)
  {
    if ps != [] {
      FinishKeepsReasoning(ps[1..]);
      ReasoningCons(ps);
      if !ps[0].FinishPart? { ReasoningCons([ps[0]] + WithoutFinish(ps[1..])); }
    }
  }

  lemma ReasoningCons(ps: seq<Part>)
    requires ps != []
    ensures HasReasoning(ps) <==> ps[0].ReasoningPart? || HasReasoning(ps[1..])
  {
    if HasReasoning(ps[1..]) {
      var j :| 0 <= j < |ps[1..]| && ps[1..][j].ReasoningPart?;
      assert ps[j + 1].ReasoningPart?;
    }
    if HasReasoning(ps) && !ps[0].ReasoningPart? {
      var j :| 0 <= j < |ps| && ps[j].ReasoningPart?;
      assert ps[1..][j - 1].ReasoningPart?;
    }
  }

  lemma OtherTimes(ps: seq<Part>, cb: Callback, now: nat)
    requires HasReasoning(ps) && !cb.ReasoningEnd?
    ensures var r, r' := ReasoningOf(ps), ReasoningOf(Apply(ps, cb, now));
            HasReasoning(Apply(ps, cb, now)) && r'.startedAt == r.startedAt && r'.finishedAt == r.finishedAt
  {
    match cb
    case ReasoningStart(text) => GrowTimes(ps, text, now);
    case ReasoningDelta(text) => GrowTimes(ps, text, now);
    case TextDelta(text) => AppendReads(ps, Delta(ps, text)); TextKeepsReasoning(ps, Delta(ps, text));
    case ToolInputStart(_, _) => AddToolCallReads(ps, CallOf(cb)); CallKeepsReasoning(ps, CallOf(cb));
    case ToolCallDone(_, _, _) => AddToolCallReads(ps, CallOf(cb)); CallKeepsReasoning(ps, CallOf(cb));
    case StepFinish(reason) =>
      AddFinishReads(ps, FinishPart(reason, now, "", ""));
      FinishKeepsReasoning(ps);
      HasPrefix(WithoutFinish(ps), FinishPart(reason, now, "", ""));
  }

  lemma HasPrefix(ps: seq<Part>, p: Part)
    requires HasReasoning(ps)
    ensures HasReasoning(ps + [p])
  {
    var j :| 0 <= j < |ps| && ps[j].ReasoningPart?;
    assert (ps + [p])[j].ReasoningPart?;
  }

  lemma TextKeepsReasoning(ps: seq<Part>, delta: string)
    requires HasReasoning(ps)
    ensures HasReasoning(AppendContent(ps, delta))
  {
    var j :| 0 <= j < |ps| && ps[j].ReasoningPart?;
    assert AppendContent(ps, delta)[j].ReasoningPart?;
  }

  lemma GrowTimes(ps: seq<Part>, delta: string, now: nat)
    requires HasReasoning(ps)
    ensures var r, r' := ReasoningOf(ps), ReasoningOf(AppendReasoningContent(ps, delta, now));
            && r'.startedAt == r.startedAt && r'.finishedAt == r.finishedAt && r'.signature == r.signature
            && r'.thoughtSignature == "" == r'.toolID && r'.responsesData.None?
    ensures HasReasoning(AppendReasoningContent(ps, delta, now))
  {
    var after := AppendReasoningContent(ps, delta, now);
    TimesPointwise(ps, after, delta);
    var j :| 0 <= j < |ps| && ps[j].ReasoningPart?;
    assert after[j].ReasoningPart?;
  }

  lemma {:induction false} TimesPointwise(a: seq<Part>, b: seq<Part>, delta: string)
    requires |a| == |b| && forall i :: 0 <= i < |a| ==> b[i] == PlusThinking(a[i], delta)
    ensures var r, r' := ReasoningOf(a), ReasoningOf(b);
            && r'.startedAt == r.startedAt && r'.finishedAt == r.finishedAt && r'.signature == r.signature
            && r'.thoughtSignature == "" == r'.toolID && r'.responsesData.None?
  {
    if a != [] { TimesPointwise(a[1..], b[1..], delta); }
  }

  /** A piece of reasoning goes at the end of the thinking, or opens it at this time; response data
      and thought signature do not outlast it. */
  lemma ReasoningGrows(ps: seq<Part>, cb: Callback, now: nat)
    requires cb.ReasoningStart? || cb.ReasoningDelta?
    ensures var r, r' := ReasoningOf(ps), ReasoningOf(Apply(ps, cb, now));
            && HasReasoning(Apply(ps, cb, now))
            && r' == if HasReasoning(ps)
                     then Reasoning(r.thinking + cb.text, r.signature, "", "", None, r.startedAt, r.finishedAt)
                     else Reasoning(cb.text, "", "", "", None, now, 0)
  {
    var after := AppendReasoningContent(ps, cb.text, now);
    if HasReasoning(ps) {
      GrowTimes(ps, cb.text, now);
      ThinkingPointwise(ps, after, cb.text);
    } else {
      NothingToRead(ps, ReasoningPart(Reasoning(cb.text, "", "", "", None, now, 0)));
      assert after[|ps|].ReasoningPart?;
    }
  }

  /** The end of reasoning that never began makes an empty one, ended now, of a signature or a
      thought; without either it changes nothing. */
  lemma ReasoningEndsUnbegun(ps: seq<Part>, cb: Callback, now: nat)
    requires cb.ReasoningEnd? && !HasReasoning(ps)
    ensures var after := Apply(ps, cb, now);
            if cb.signature.None? && cb.thought.None? then after == ps
            else
              var sig := if cb.signature.Some? && cb.data.None? then cb.signature.value else "";
              after == ps + [ReasoningPart(NO_REASONING.(signature := sig, finishedAt := now))]
  {
    EditsUnfold(ps, cb, now);
    var p1 := if cb.signature.Some? then ApplyEdit(ps, AddSignature(cb.signature.value)) else ps;
    var p2 := if cb.thought.Some? then ApplyEdit(p1, AddThought(cb.thought.value.0, cb.thought.value.1)) else p1;
    var p3 := if cb.data.Some? then ApplyEdit(p2, SetData(cb.data.value)) else p2;
    if cb.signature.Some? {
      EditNowhere(ps, AddSignature(cb.signature.value));
      if cb.thought.Some? { EditLast(ps, p1, AddThought(cb.thought.value.0, cb.thought.value.1)); }
    } else if cb.thought.Some? {
      EditNowhere(ps, AddThought(cb.thought.value.0, cb.thought.value.1));
    }
    if cb.signature.Some? || cb.thought.Some? {
      if cb.data.Some? { EditLast(ps, p2, SetData(cb.data.value)); }
      EditLast(ps, p3, FinishThinking(now));
    } else {
      if cb.data.Some? { EditNowhere(ps, SetData(cb.data.value)); }
      EditNowhere(ps, FinishThinking(now));
      assert ps + [] == ps;
    }
  }

  lemma EditLast(ps: seq<Part>, more: seq<Part>, e: ReasoningEdit)
    requires !HasReasoning(ps) && |more| == |ps| + 1 && more[..|ps|] == ps && more[|ps|].ReasoningPart?
    ensures ApplyEdit(more, e) == ps + [ReasoningPart(EditReasoning(more[|ps|].reasoning, e))]
  {
    EditAt(more, |ps|, e);
  }

  /** Reasoning that a start or delta opened began at that callback's time, and ended at that of the
      first end of reasoning after it, if there was one. */
  lemma {:induction false} ReasoningTimes(cbs: seq<Callback>, times: seq<nat>, k: nat)
    requires |times| == |cbs| && k < |cbs| && (forall j :: 0 <= j < k ==> !Opens(cbs[j]))
    requires cbs[k].ReasoningStart? || cbs[k].ReasoningDelta?
    ensures var ps := Built(cbs, times);
            && HasReasoning(ps) && ReasoningOf(ps).startedAt == times[k]
            && ReasoningOf(ps).finishedAt == EndTime(cbs, times, k)
  {
    var n := |cbs| - 1;
    var ps := Built(cbs[..n], times[..n]);
    if k < n {
      ReasoningTimes(cbs[..n], times[..n], k);
      if cbs[n].ReasoningEnd? { ReasoningEndDecides(ps, cbs[n], times[n]); } else { OtherTimes(ps, cbs[n], times[n]); }
    } else {
      NothingOpened(cbs[..n], times[..n]);
      NothingToRead(ps, ReasoningPart(Reasoning(cbs[n].text, "", "", "", None, times[n], 0)));
      assert Built(cbs, times)[|ps|].ReasoningPart?;
    }
  }

  // ------------------------------------------------------------------ error cleanup

  /** What error cleanup makes of the i-th call: its own ID and name, finished, with the input it had
      if it was finished and an empty object otherwise. */
  lemma CleanUpCallByCall(cbs: seq<Callback>, times: seq<nat>, now: nat, finish: Part, i: nat)
    requires |times| == |cbs| && finish.FinishPart? && i < |Calls(Built(cbs, times))|
    ensures var before := Calls(Built(cbs, times)); var after := Calls(CleanedUp(Built(cbs, times), now, finish));
            && |after| == |before|
            && after[i] == ToolCall(before[i].id, before[i].name, if before[i].finished then before[i].input else "{}",
                                    before[i].providerExecuted, true)
  {
    hide Built, CleanedUp;
    CleanUpClosesEveryCall(cbs, times, now, finish);
  }

  /** The finish part given to error cleanup ends the message, and is its only one. */
  lemma CleanUpFinishes(cbs: seq<Callback>, times: seq<nat>, now: nat, finish: Part, f: Part)
    requires |times| == |cbs| && finish.FinishPart? && f.FinishPart?
    ensures var after := CleanedUp(Built(cbs, times), now, finish);
            after != [] && after[|after| - 1] == finish && (f in after <==> f == finish)
  {
    hide Built, Shape;
    var thought := ApplyEdit(Built(cbs, times), FinishThinking(now));
    StreamKeepsShape(cbs, times);
    EditShape(Built(cbs, times), FinishThinking(now));
    CloseAllShape(thought, Calls(thought));
    OnlyFinish(CloseAll(thought, Calls(thought)), finish, f);
  }

  /** The result that error cleanup makes up for a call. */
  predicate MadeUp(r: ToolResult, tc: ToolCall, cancelled: bool) {
    && r.toolCallID == tc.id && r.name == tc.name && r.isError && r.data == "" && r.mimeType == "" && r.metadata == ""
    && r.content == if cancelled then "Error: user cancelled assistant tool calling"
                    else "There was an error while executing the tool"
  }

  /** The created results, one by one: each is made up for an unanswered call, in the order of the
      calls. */
  lemma {:induction false} CreatedInOrder(calls: seq<ToolCall>, msgs: seq<Message>, cancelled: bool)
    returns (at: seq<nat>)
    ensures var created := Owed(calls, msgs, cancelled);
            && |at| == |created|
            && (forall i :: 0 <= i < |at| ==>
                  (at[i] < |calls| && MadeUp(created[i], calls[at[i]], cancelled) && !Answered(msgs, calls[at[i]].id)))
            && (forall i, j :: 0 <= i < j < |at| ==> at[i] < at[j])
            && (forall k :: 0 <= k < |calls| && !Answered(msgs, calls[k].id) ==> k in at)
  {
    hide Answered;
    at := [];
    if calls != [] {
      var n := |calls| - 1;
      at := CreatedInOrder(calls[..n], msgs, cancelled);
      if !Answered(msgs, calls[n].id) {
        at := at + [n];
      } else {
        assert Owed(calls[..n], msgs, cancelled) + [] == Owed(calls[..n], msgs, cancelled);
      }
    }
  }
}
