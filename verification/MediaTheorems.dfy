/**
 internal/agent/agent.go: the media workaround on every history, and on the prompt history.
 */
module MediaTheorems {
  import opened Options
  import opened Content
  import opened History
  import opened HistoryTheorems

  function NameOf(p: AIPart): string {
    if p.AICall? || p.AIResult? then p.id else ""
  }

  function NamesOf(parts: seq<AIPart>): (r: seq<string>)
    ensures |r| == |parts|
  {
    seq(|parts|, i requires 0 <= i < |parts| => NameOf(parts[i]))
  }

  /** At how many places the two differ. */
  function Changes(a: seq<AIPart>, b: seq<AIPart>): nat
    requires |a| == |b|
  {
    if a == [] then 0
    else Changes(a[..|a| - 1], b[..|b| - 1]) + if a[|a| - 1] == b[|b| - 1] then 0 else 1
  }

  lemma {:induction false} ChangesConcat(a: seq<AIPart>, b: seq<AIPart>, c: seq<AIPart>, d: seq<AIPart>)
    requires |a| == |b| && |c| == |d|
    ensures Changes(a + c, b + d) == Changes(a, b) + Changes(c, d)
  {
    if c == [] {
      assert a + c == a && b + d == b;
    } else {
      var n := |a + c| - 1;
      assert (a + c)[..n] == a + c[..|c| - 1] && (b + d)[..n] == b + d[..|d| - 1];
      ChangesConcat(a, b, c[..|c| - 1], d[..|d| - 1]);
    }
  }

  lemma {:induction false} NoChanges(a: seq<AIPart>)
    ensures Changes(a, a) == 0
  {
    if a != [] { NoChanges(a[..|a| - 1]); }
  }

  // ------------------------------------------------------------------------ one message

  lemma {:induction false} ReplacementReads(parts: seq<AIPart>, codec: Codec, kind: Kind)
    ensures Select(Replacement(parts, codec), kind) == Replacement(Select(parts, kind), codec)
  {
    if parts != [] {
      var n := |parts| - 1;
      ReplacementReads(parts[..n], codec, kind);
      assert Replacement(parts, codec)[..n] == Replacement(parts[..n], codec);
      assert Is(Replaced(parts[n], codec), kind) <==> Is(parts[n], kind);
    }
  }

  lemma {:induction false} MediaAreFiles(parts: seq<AIPart>, codec: Codec)
    ensures forall p <- MediaFiles(parts, codec) :: p.AIFile?
    ensures |MediaFiles(parts, codec)|
            == Changes(Select(parts, TheResults), Replacement(Select(parts, TheResults), codec))
  {
    if parts != [] {
      var n := |parts| - 1;
      MediaAreFiles(parts[..n], codec);
      var front := Select(parts[..n], TheResults);
      if parts[n].AIResult? {
        assert Select(parts, TheResults)[..|front|] == front;
        assert Replacement(Select(parts, TheResults), codec)[..|front|] == Replacement(front, codec);
      } else {
        assert Select(parts, TheResults) == front;
      }
    }
  }

  function Injected(m: AIMessage, codec: Codec): seq<AIPart> {
    if m.role == ToolRole then MediaFiles(m.content, codec) else []
  }

  /** The results of one message after the workaround. */
  function Spared(m: AIMessage, codec: Codec): (r: seq<AIPart>)
    ensures |r| == |Select(m.content, TheResults)|
  {
    var results := Select(m.content, TheResults);
    if m.role == ToolRole then Replacement(results, codec) else results
  }

  lemma UnchangedKinds(parts: seq<AIPart>, codec: Codec)
    requires forall p <- parts :: !p.AIResult?
    ensures Replacement(parts, codec) == parts
  {
    assert forall i :: 0 <= i < |parts| ==> parts[i] in parts;
  }

  lemma {:induction false} SelectMembers(parts: seq<AIPart>, kind: Kind)
    ensures forall p :: p in Select(parts, kind) <==> p in parts && Is(p, kind)
  {
    if parts != [] {
      var n := |parts| - 1;
      SelectMembers(parts[..n], kind);
      assert parts == parts[..n] + [parts[n]];
    }
  }

  lemma ConvertedReads(m: AIMessage, codec: Codec)
    ensures All(Converted(m, codec), TheCalls) == Select(m.content, TheCalls)
    ensures All(Converted(m, codec), TheResults) == Spared(m, codec)
    ensures All(Converted(m, codec), TheFiles) == Select(m.content, TheFiles) + Injected(m, codec)
  {
    ConvertedKind(m, codec, TheCalls);
    ConvertedKind(m, codec, TheResults);
    ConvertedKind(m, codec, TheFiles);
    assert Select(m.content, TheCalls) + [] == Select(m.content, TheCalls);
    assert Spared(m, codec) + [] == Spared(m, codec);
  }

  lemma ConvertedKind(m: AIMessage, codec: Codec, kind: Kind)
    ensures All(Converted(m, codec), kind)
            == (if kind == TheResults then Spared(m, codec) else Select(m.content, kind))
               + if kind == TheFiles then Injected(m, codec) else []
  {
    var parts := m.content;
    if m.role != ToolRole {
      AllOfOne(m, kind);
    } else {
      var files := MediaFiles(parts, codec);
      var head := AIMessage(ToolRole, Replacement(parts, codec));
      ReplacementReads(parts, codec, kind);
      SelectMembers(parts, kind);
      if kind != TheResults { UnchangedKinds(Select(parts, kind), codec); }
      AllOfOne(head, kind);
      if files != [] {
        MessageOfFiles(parts, codec, kind);
        AllConcat([head], [AIMessage(UserRole, [AIText(MEDIA_FOLLOWS)] + files)], kind);
      }
    }
  }

  lemma MessageOfFiles(parts: seq<AIPart>, codec: Codec, kind: Kind)
    ensures All([AIMessage(UserRole, [AIText(MEDIA_FOLLOWS)] + MediaFiles(parts, codec))], kind)
            == if kind == TheFiles then MediaFiles(parts, codec) else []
  {
    var files := MediaFiles(parts, codec);
    MediaAreFiles(parts, codec);
    SelectNone([AIText(MEDIA_FOLLOWS)], kind);
    if kind == TheFiles { SelectAll(files, kind); } else { SelectNone(files, kind); }
    SelectConcat([AIText(MEDIA_FOLLOWS)], files, kind);
    AllOfOne(AIMessage(UserRole, [AIText(MEDIA_FOLLOWS)] + files), kind);
  }

  // ---------------------------------------------------------------------- whole histories

  /** The files that the workaround puts in, in order. */
  function AllInjected(h: seq<AIMessage>, codec: Codec): seq<AIPart> {
    if h == [] then [] else AllInjected(h[..|h| - 1], codec) + Injected(h[|h| - 1], codec)
  }

  lemma NamesConcatenate(a: seq<AIPart>, b: seq<AIPart>)
    ensures NamesOf(a + b) == NamesOf(a) + NamesOf(b)
  {
  }

  /** On every history the workaround keeps the calls and the order and IDs of the results, and
      injects one file for each result that it changes. */
  lemma {:induction false} WorkaroundKeepsResults(h: seq<AIMessage>, codec: Codec)
    ensures All(Workaround(h, codec), TheCalls) == All(h, TheCalls)
    ensures NamesOf(All(Workaround(h, codec), TheResults)) == NamesOf(All(h, TheResults))
    ensures |All(Workaround(h, codec), TheFiles)|
            == |All(h, TheFiles)| + Changes(All(h, TheResults), All(Workaround(h, codec), TheResults))
  {
    if h != [] {
      hide Select, NamesOf, Converted, Spared, Injected;
      var front, m := h[..|h| - 1], h[|h| - 1];
      WorkaroundKeepsResults(front, codec);
      ConvertedReads(m, codec);
      SparedNames(m, codec);
      var before, after := All(front, TheResults), All(Workaround(front, codec), TheResults);
      AllConcat(Workaround(front, codec), Converted(m, codec), TheCalls);
      AllConcat(Workaround(front, codec), Converted(m, codec), TheResults);
      AllConcat(Workaround(front, codec), Converted(m, codec), TheFiles);
      NamesConcatenate(after, Spared(m, codec));
      NamesConcatenate(before, Select(m.content, TheResults));
      SameLength(before, after);
      ChangesConcat(before, after, Select(m.content, TheResults), Spared(m, codec));
    }
  }

  lemma SameLength(a: seq<AIPart>, b: seq<AIPart>)
    requires NamesOf(a) == NamesOf(b)
    ensures |a| == |b|
  {
    assert |NamesOf(a)| == |NamesOf(b)|;
  }

  lemma SparedNames(m: AIMessage, codec: Codec)
    ensures NamesOf(Spared(m, codec)) == NamesOf(Select(m.content, TheResults))
    ensures |Injected(m, codec)| == Changes(Select(m.content, TheResults), Spared(m, codec))
  {
    MediaAreFiles(m.content, codec);
    NoChanges(Select(m.content, TheResults));
  }

  /** On a history that it has been through the workaround changes nothing. */
  lemma {:induction false} WorkaroundIsIdempotent(h: seq<AIMessage>, codec: Codec)
    ensures Workaround(Workaround(h, codec), codec) == Workaround(h, codec)
  {
    if h != [] {
      hide Converted;
      var front, m := h[..|h| - 1], h[|h| - 1];
      WorkaroundIsIdempotent(front, codec);
      WorkaroundConcat(Workaround(front, codec), Converted(m, codec), codec);
      ConvertedTwice(m, codec);
    }
  }

  lemma {:induction false} WorkaroundConcat(a: seq<AIMessage>, b: seq<AIMessage>, codec: Codec)
    ensures Workaround(a + b, codec) == Workaround(a, codec) + Workaround(b, codec)
  {
    if b == [] {
      assert a + b == a;
    } else {
      hide Converted;
      var last := Converted(b[|b| - 1], codec);
      var front := Workaround(b[..|b| - 1], codec);
      WorkaroundConcat(a, b[..|b| - 1], codec);
      assert (a + b)[..|a + b| - 1] == a + b[..|b| - 1] && (a + b)[|a + b| - 1] == b[|b| - 1];
      assert Workaround(a, codec) + front + last == Workaround(a, codec) + (front + last);
    }
  }

  lemma WorkaroundOfOne(m: AIMessage, codec: Codec)
    ensures Workaround([m], codec) == Converted(m, codec)
  {
    assert [m][..0] == [];
  }

  lemma {:induction false} NoMediaNoFiles(parts: seq<AIPart>, codec: Codec)
    requires forall p <- parts :: !Replaceable(p, codec)
    ensures MediaFiles(parts, codec) == [] && Replacement(parts, codec) == parts
  {
    if parts != [] {
      NoMediaNoFiles(parts[..|parts| - 1], codec);
    }
    assert forall i :: 0 <= i < |parts| ==> parts[i] in parts;
  }

  lemma ConvertedTwice(m: AIMessage, codec: Codec)
    ensures Workaround(Converted(m, codec), codec) == Converted(m, codec)
  {
    if m.role != ToolRole {
      WorkaroundOfOne(m, codec);
    } else {
      var after := Replacement(m.content, codec);
      var head := AIMessage(ToolRole, after);
      forall p | p in after
        ensures !Replaceable(p, codec)
      {
        var i :| 0 <= i < |after| && after[i] == p;
      }
      NoMediaNoFiles(after, codec);
      WorkaroundOfOne(head, codec);
      var files := MediaFiles(m.content, codec);
      if files != [] {
        var user := AIMessage(UserRole, [AIText(MEDIA_FOLLOWS)] + files);
        WorkaroundOfOne(user, codec);
        WorkaroundConcat([head], [user], codec);
      }
    }
  }

  // --------------------------------------------------------------------- on the prompt history

  /** Results stand in tool messages only, and their media can be decoded. */
  predicate Decodable(m: AIMessage, codec: Codec) {
    forall p <- m.content :: p.AIResult? ==> m.role == ToolRole && (p.output.MediaOutput? ==> Replaceable(p, codec))
  }

  lemma EntryDecodable(m: Message, known: set<string>, answered: set<string>, s: Setting, e: AIMessage)
    requires e in Entry(m, known, answered, s)
    ensures Decodable(e, s.codec)
  {
    hide Calls, Results, KeepKnown, Synthetic, WithoutFiles, ReasoningOf, TextOf, Attached, Files, Binaries;
    if m.role == Tool {
      KeptAreResults(ResultParts(Results(m.parts), s.codec), known);
      forall p | p in e.content
        ensures p.output.MediaOutput? ==> Replaceable(p, s.codec)
      {
        var i :| 0 <= i < |Results(m.parts)| && ResultParts(Results(m.parts), s.codec)[i] == p;
      }
    } else if m.role == User {
      forall p | p in e.content
        ensures !p.AIResult?
      {
        UserParts(m, s, p);
      }
    } else if m.role == Assistant {
      SyntheticDecodable(Calls(m.parts), answered);
    }
  }

  lemma {:induction false} SyntheticDecodable(calls: seq<ToolCall>, answered: set<string>)
    ensures forall p <- Synthetic(calls, answered) :: p.AIResult? && p.output.ErrorOutput?
  {
    if calls != [] { SyntheticDecodable(calls[..|calls| - 1], answered); }
  }

  lemma {:induction false} EntriesDecodable(msgs: seq<Message>, known: set<string>, answered: set<string>, s: Setting,
                                            e: AIMessage)
    requires e in Entries(msgs, known, answered, s)
    ensures Decodable(e, s.codec)
  {
    hide Entry, Decodable;
    var front, m := msgs[..|msgs| - 1], msgs[|msgs| - 1];
    if e in Entry(m, known, answered, s) {
      EntryDecodable(m, known, answered, s, e);
    } else {
      EntriesDecodable(front, known, answered, s, e);
    }
  }

  lemma {:induction false} WorkaroundMembers(h: seq<AIMessage>, codec: Codec, e: AIMessage) returns (m: AIMessage)
    requires e in Workaround(h, codec)
    ensures m in h && e in Converted(m, codec)
  {
    hide Converted;
    m := h[|h| - 1];
    if e !in Converted(m, codec) {
      m := WorkaroundMembers(h[..|h| - 1], codec, e);
    }
  }

  /** On the prompt history decoding never fails: after the workaround no result carries media. */
  lemma NoMediaReachesTheProvider(msgs: seq<Message>, s: Setting, e: AIMessage, p: AIPart)
    requires e in Workaround(Prompt(msgs, s), s.codec) && p in e.content && p.AIResult?
    ensures !p.output.MediaOutput?
  {
    hide Entries;
    var m := WorkaroundMembers(Prompt(msgs, s), s.codec, e);
    if m in Entries(msgs, KnownCalls(msgs), KnownResults(msgs), s) {
      EntriesDecodable(msgs, KnownCalls(msgs), KnownResults(msgs), s, m);
    }
    MediaAreFiles(m.content, s.codec);
    if m.role == ToolRole && e.role == ToolRole {
      var i :| 0 <= i < |m.content| && e.content[i] == p;
      assert m.content[i] in m.content;
    }
  }
}
