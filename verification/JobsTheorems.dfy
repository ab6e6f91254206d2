/** internal/jobs: neither the order of a journal's lines nor that of the directory shows. */
module JobsTheorems {
  import opened Options
  import opened Ordering
  import opened Jobs

  /** The subtraction does not wrap. */
  predicate Close(a: Record, b: Record) {
    -0x8000_0000_0000_0000 <= a.seqNo - b.seqNo < 0x8000_0000_0000_0000
  }

  ghost predicate AllClose(records: seq<Record>) {
    forall a, b :: a in records && b in records ==> Close(a, b)
  }

  predicate DistinctSeqs(records: seq<Record>) {
    forall i, j :: 0 <= i < j < |records| ==> records[i].seqNo != records[j].seqNo
  }

  /** The comparator tells the order of two sequence numbers exactly when their difference fits
      a 64-bit int. */
  lemma ComparesSeqExactly(a: Record, b: Record)
    ensures (SeqCompare(a, b) <= 0 <==> a.seqNo <= b.seqNo) <==> Close(a, b)
  {
  }

  /** Beyond that the fold can report the lower-numbered of two outcomes. */
  lemma WrappedSeqMisleads(s: Record, f: Record, lines: seq<Option<Record>>)
    requires s.v == f.v == SCHEMA_VERSION && s.job == f.job == "j"
    requires s.kind == TYPE_SUCCEEDED && s.seqNo == 0x7fff_ffff_ffff_ffff
    requires f.kind == TYPE_FAILED && f.seqNo == -1
    requires lines == [Some(s), Some(f)]
    ensures Folded(Journal(lines)).Some? && Folded(Journal(lines)).value.state == TYPE_FAILED
  {
    assert lines[..1] == [Some(s)] && lines[..1][..0] == [];
    assert Kept(lines[..1]) == [s];
    assert Kept(lines) == [s, f];
    assert [s, f][1..] == [f] && [f][1..] == [];
    assert StableSort(SeqCompare, [f]) == [f];
    assert Journal(lines) == [s, f];
    assert [s, f][..1] == [s] && [s][..0] == [];
  }

  lemma SeqOrders(records: seq<Record>)
    requires AllClose(records)
    ensures Orders(SeqCompare, records)
    ensures DistinctSeqs(records) ==> Separates(SeqCompare, records)
  {
    forall a, b | a in records && b in records
      ensures SeqCompare(a, b) <= 0 <==> a.seqNo <= b.seqNo
    {
      assert Close(a, b);
      ComparesSeqExactly(a, b);
    }
    if DistinctSeqs(records) {
      forall a, b | a in records && b in records && a.seqNo == b.seqNo
        ensures a == b
      {
        var i :| 0 <= i < |records| && records[i] == a;
        var j :| 0 <= j < |records| && records[j] == b;
      }
    }
  }

  lemma {:induction false} KeptCount(lines: seq<Option<Record>>, r: Record)
    ensures multiset(Kept(lines))[r]
            == if r.v == SCHEMA_VERSION && r.job != "" then multiset(lines)[Some(r)] else 0
  {
    if lines != [] {
      var front, line := lines[..|lines| - 1], lines[|lines| - 1];
      KeptCount(front, r);
      assert lines == front + [line];
      assert multiset(lines) == multiset(front) + multiset{line};
    }
  }

  lemma KeptIgnoresOrder(a: seq<Option<Record>>, b: seq<Option<Record>>)
    requires multiset(a) == multiset(b)
    ensures multiset(Kept(a)) == multiset(Kept(b))
  {
    forall r
      ensures multiset(Kept(a))[r] == multiset(Kept(b))[r]
    {
      KeptCount(a, r);
      KeptCount(b, r);
    }
  }

  /** The same lines in another order. */
  ghost predicate Reorders(a: seq<Option<Record>>, b: seq<Option<Record>>) {
    multiset(a) == multiset(b)
  }

  /** The comparator is a strict total order on the records. */
  ghost predicate Ordered(records: seq<Record>) {
    Orders(SeqCompare, records) && Separates(SeqCompare, records)
  }

  /** Distinct sequence numbers that differ by less than 2^63 are enough. */
  lemma CloseIsOrdered(records: seq<Record>)
    requires DistinctSeqs(records) && AllClose(records)
    ensures Ordered(records)
  {
    SeqOrders(records);
  }

  lemma OrderDoesNotShow(a: seq<Option<Record>>, b: seq<Option<Record>>)
    requires Reorders(a, b) && Ordered(Kept(a))
    ensures Journal(a) == Journal(b)
  {
    KeptIgnoresOrder(a, b);
    SortIgnoresOrder(SeqCompare, Kept(a), Kept(b));
  }

  lemma {:induction false} KeptConcat(a: seq<Option<Record>>, b: seq<Option<Record>>)
    ensures Kept(a + b) == Kept(a) + Kept(b)
  {
    if b == [] {
      assert a + b == a;
    } else {
      var n := |b| - 1;
      KeptConcat(a, b[..n]);
      assert (a + b)[..|a + b| - 1] == a + b[..n] && (a + b)[|a + b| - 1] == b[n];
      assert b[..n] + [b[n]] == b;
    }
  }

  lemma {:induction false} KeptMembers(lines: seq<Option<Record>>, r: Record)
    requires r in Kept(lines)
    ensures Some(r) in lines && Kept([Some(r)]) == [r]
  {
    var n := |lines| - 1;
    if r in Kept(lines[..n]) {
      KeptMembers(lines[..n], r);
    } else {
      assert lines[n] == Some(r);
      assert [Some(r)][..0] == [];
    }
  }

  /** The lines can be put so that the given two or three records come last. */
  lemma PutLast(lines: seq<Option<Record>>, x: Record, y: Record) returns (front: seq<Option<Record>>)
    requires x in Kept(lines) && y in Kept(lines) && x != y
    ensures Reorders(lines, front + [Some(x), Some(y)])
    ensures Kept(front + [Some(x), Some(y)]) == Kept(front) + [x, y]
  {
    KeptMembers(lines, x);
    KeptMembers(lines, y);
    var rest := Pick(lines, Some(y));
    SameMembers(rest + [Some(y)], lines);
    assert Some(x) in rest + [Some(y)];
    front := Pick(rest, Some(x));
    assert front + [Some(x)] + [Some(y)] == front + [Some(x), Some(y)];
    KeptConcat(front + [Some(x)], [Some(y)]);
    KeptConcat(front, [Some(x)]);
    assert Kept(front) + [x] + [y] == Kept(front) + [x, y];
  }

  lemma PutThreeLast(lines: seq<Option<Record>>, x: Record, y: Record, z: Record) returns (front: seq<Option<Record>>)
    requires x in Kept(lines) && y in Kept(lines) && z in Kept(lines) && x != y && y != z && x != z
    ensures Reorders(lines, front + [Some(x), Some(y), Some(z)])
    ensures Kept(front + [Some(x), Some(y), Some(z)]) == Kept(front) + [x, y, z]
  {
    hide Kept;
    var rest := PutOneLast(lines, z);
    assert x in Kept(rest) + [z] && y in Kept(rest) + [z];
    front := PutLast(rest, x, y);
    var two := front + [Some(x), Some(y)];
    assert two + [Some(z)] == front + [Some(x), Some(y), Some(z)];
    KeptConcat(two, [Some(z)]);
    assert Kept(front) + [x, y] + [z] == Kept(front) + [x, y, z];
    ReordersAppend(rest, two, Some(z));
  }

  lemma ReordersAppend(a: seq<Option<Record>>, b: seq<Option<Record>>, line: Option<Record>)
    requires Reorders(a, b)
    ensures Reorders(a + [line], b + [line])
  {
  }

  lemma PutOneLast(lines: seq<Option<Record>>, z: Record) returns (rest: seq<Option<Record>>)
    requires z in Kept(lines)
    ensures Reorders(lines, rest + [Some(z)]) && Kept([Some(z)]) == [z]
    ensures forall r :: r in Kept(lines) <==> r in Kept(rest) + [z]
  {
    KeptMembers(lines, z);
    hide Kept;
    rest := Pick(lines, Some(z));
    KeptIgnoresOrder(rest + [Some(z)], lines);
    KeptConcat(rest, [Some(z)]);
    SameMembers(Kept(rest) + [z], Kept(lines));
  }

  /** Two records in the order of the comparator stay in it, whatever comes before them. */
  lemma PairStays(front: seq<Record>, x: Record, y: Record)
    requires SeqCompare(x, y) <= 0
    ensures EndsIn(StableSort(SeqCompare, front + [x, y]), {x, y}, y)
  {
    var tail := [x, y];
    assert tail[1..] == [y] && [y][1..] == [];
    assert StableSort(SeqCompare, [y]) == [y];
    assert StableSort(SeqCompare, tail) == tail && tail[1] == y && tail[0] == x;
    SortKeepsLast(SeqCompare, front, tail, {x, y}, y);
  }

  lemma TripleStays(front: seq<Record>, x: Record, y: Record, z: Record)
    requires SeqCompare(x, y) <= 0 && SeqCompare(y, z) <= 0
    ensures EndsIn(StableSort(SeqCompare, front + [x, y, z]), {x, y, z}, z)
  {
    var tail := [x, y, z];
    assert tail[1..] == [y, z] && [y, z][1..] == [z] && [z][1..] == [];
    assert StableSort(SeqCompare, [z]) == [z];
    assert StableSort(SeqCompare, [y, z]) == [y, z];
    assert StableSort(SeqCompare, tail) == tail && tail[0] == x && tail[1] == y && tail[2] == z;
    SortKeepsLast(SeqCompare, front, tail, {x, y, z}, z);
  }

  /** Two records that compare both ways, or three in a circle, show the order of the lines. */
  lemma UnorderedShows(lines: seq<Option<Record>>) returns (a: seq<Option<Record>>, b: seq<Option<Record>>)
    requires !Ordered(Kept(lines))
    ensures Reorders(lines, a) && Reorders(lines, b) && Journal(a) != Journal(b)
  {
    var kept := Kept(lines);
    if !Separates(SeqCompare, kept) {
      var x, y :| x in kept && y in kept && SeqCompare(x, y) <= 0 && SeqCompare(y, x) <= 0 && x != y;
      a, b := PairShows(lines, x, y);
    } else {
      assert forall x, y :: x in kept && y in kept ==> SeqCompare(x, y) <= 0 || SeqCompare(y, x) <= 0;
      var x, y, z :| x in kept && y in kept && z in kept
                     && SeqCompare(x, y) <= 0 && SeqCompare(y, z) <= 0 && SeqCompare(x, z) > 0;
      a, b := CircleShows(lines, x, y, z);
    }
  }

  lemma PairShows(lines: seq<Option<Record>>, x: Record, y: Record)
    returns (a: seq<Option<Record>>, b: seq<Option<Record>>)
    requires x in Kept(lines) && y in Kept(lines) && x != y && SeqCompare(x, y) <= 0 && SeqCompare(y, x) <= 0
    ensures Reorders(lines, a) && Reorders(lines, b) && Journal(a) != Journal(b)
  {
    hide Kept, StableSort, EndsIn;
    var front := PutLast(lines, x, y);
    var back := PutLast(lines, y, x);
    a, b := front + [Some(x), Some(y)], back + [Some(y), Some(x)];
    PairStays(Kept(front), x, y);
    PairStays(Kept(back), y, x);
    assert {y, x} == {x, y};
    if Journal(a) == Journal(b) { OneLast(Journal(a), {x, y}, y, x); }
  }

  lemma CircleShows(lines: seq<Option<Record>>, x: Record, y: Record, z: Record)
    returns (a: seq<Option<Record>>, b: seq<Option<Record>>)
    requires x in Kept(lines) && y in Kept(lines) && z in Kept(lines)
    requires SeqCompare(x, y) <= 0 && SeqCompare(y, z) <= 0 && SeqCompare(x, z) > 0
    ensures Reorders(lines, a) && Reorders(lines, b) && Journal(a) != Journal(b)
  {
    hide Kept, StableSort, EndsIn;
    var front := PutThreeLast(lines, x, y, z);
    var back := PutThreeLast(lines, y, z, x);
    a, b := front + [Some(x), Some(y), Some(z)], back + [Some(y), Some(z), Some(x)];
    TripleStays(Kept(front), x, y, z);
    TripleStays(Kept(back), y, z, x);
    assert {y, z, x} == {x, y, z};
    if Journal(a) == Journal(b) { OneLast(Journal(a), {x, y, z}, z, x); }
  }

  /** The order of the lines does not show, in the journal nor in the state it folds to, exactly
      when the comparator strictly orders the records that count. */
  lemma JournalIgnoresOrder(lines: seq<Option<Record>>)
    ensures (forall a :: Reorders(lines, a) ==> Journal(a) == Journal(lines)) <==> Ordered(Kept(lines))
    ensures Ordered(Kept(lines)) ==> forall a :: Reorders(lines, a) ==> Folded(Journal(a)) == Folded(Journal(lines))
  {
    hide Kept, Ordered, Journal, Reorders;
    if Ordered(Kept(lines)) {
      forall a | Reorders(lines, a)
        ensures Journal(a) == Journal(lines)
      {
        OrderDoesNotShow(lines, a);
      }
    } else {
      var a, b := UnorderedShows(lines);
      assert Reorders(lines, a) && Reorders(lines, b);
    }
  }

  // --------------------------------------------------------------- what the fold reports

  /** A record that sets the state. */
  predicate Ending(r: Record) {
    r.kind == TYPE_MESSAGE || IsTerminal(r.kind)
  }

  datatype Class = Endings | Progresses | Terminals

  predicate In(r: Record, c: Class) {
    match c
    case Endings => Ending(r)
    case Progresses => r.kind == TYPE_PROGRESS
    case Terminals => IsTerminal(r.kind)
  }

  ghost predicate Highest(records: seq<Record>, r: Record, c: Class) {
    r in records && In(r, c) && forall q :: q in records && In(q, c) ==> q.seqNo <= r.seqNo
  }

  predicate Reports(s: JobState, r: Record) {
    s.state == r.kind && s.message == r.message && s.resultRef == r.resultRef
  }

  predicate Silent(s: JobState) {
    s.state == STATE_RUNNING && s.message == "" && s.resultRef == ""
  }

  /** The last record that sets the state decides it. */
  lemma {:induction false} LastEnding(s: JobState, records: seq<Record>, k: nat)
    requires k < |records| && Ending(records[k]) && forall j :: k < j < |records| ==> !Ending(records[j])
    ensures Reports(Fold(s, records), records[k])
  {
    var n := |records| - 1;
    if k < n {
      LastEnding(s, records[..n], k);
    }
  }

  lemma {:induction false} NoEnding(s: JobState, records: seq<Record>)
    requires forall r <- records :: !Ending(r)
    ensures Silent(s) ==> Silent(Fold(s, records))
  {
    if records != [] {
      assert records[|records| - 1] in records;
      NoEnding(s, records[..|records| - 1]);
    }
  }

  lemma {:induction false} LastProgress(s: JobState, records: seq<Record>, k: nat)
    requires k < |records| && records[k].kind == TYPE_PROGRESS
    requires forall j :: k < j < |records| ==> records[j].kind != TYPE_PROGRESS
    ensures Fold(s, records).progress == records[k].message
  {
    var n := |records| - 1;
    if k < n {
      LastProgress(s, records[..n], k);
    }
  }

  lemma {:induction false} LastTerminal(s: JobState, records: seq<Record>, k: nat)
    requires k < |records| && IsTerminal(records[k].kind)
    requires forall j :: k < j < |records| ==> !IsTerminal(records[j].kind)
    ensures Fold(s, records).ended == records[k].time
  {
    var n := |records| - 1;
    if k < n {
      LastTerminal(s, records[..n], k);
    }
  }

  /** A record of a journal with distinct sequence numbers is there once. */
  lemma Twice(kept: seq<Record>, journal: seq<Record>, k: nat, j: nat)
    requires multiset(kept) == multiset(journal) && DistinctSeqs(kept)
    requires k < j < |journal|
    ensures journal[k] != journal[j]
  {
    if journal[k] == journal[j] {
      var r := journal[k];
      assert journal == journal[..k] + [r] + journal[k + 1..j] + [r] + journal[j + 1..];
      assert multiset(journal)[r] >= 2;
      OnlyOnce(kept, r);
    }
  }

  lemma {:induction false} OnlyOnce(kept: seq<Record>, r: Record)
    requires DistinctSeqs(kept)
    ensures multiset(kept)[r] <= 1
  {
    if kept != [] {
      var n := |kept| - 1;
      OnlyOnce(kept[..n], r);
      assert kept == kept[..n] + [kept[n]];
    }
  }

  lemma SameSeqSameRecord(records: seq<Record>, a: Record, b: Record)
    requires DistinctSeqs(records) && a in records && b in records && a.seqNo == b.seqNo
    ensures a == b
  {
    var i :| 0 <= i < |records| && records[i] == a;
    var k :| 0 <= k < |records| && records[k] == b;
  }

  predicate Rising(records: seq<Record>) {
    forall i, j :: 0 <= i < j < |records| ==> records[i].seqNo < records[j].seqNo
  }

  lemma JournalRises(lines: seq<Option<Record>>)
    requires DistinctSeqs(Kept(lines)) && AllClose(Kept(lines))
    ensures Rising(Journal(lines))
  {
    forall i, j | 0 <= i < j < |Journal(lines)|
      ensures Journal(lines)[i].seqNo < Journal(lines)[j].seqNo
    {
      JournalRisesAt(lines, i, j);
    }
  }

  lemma JournalRisesAt(lines: seq<Option<Record>>, i: nat, j: nat)
    requires DistinctSeqs(Kept(lines)) && AllClose(Kept(lines)) && i < j < |Journal(lines)|
    ensures Journal(lines)[i].seqNo < Journal(lines)[j].seqNo
  {
    hide Orders, Separates, DistinctSeqs, StableSort, Kept;
    var kept, journal := Kept(lines), Journal(lines);
    SeqOrders(kept);
    SortKeeps(SeqCompare, kept);
    SortSorts(SeqCompare, kept);
    SameMembers(kept, journal);
    assert journal[i] in kept && journal[j] in kept;
    assert SeqCompare(journal[i], journal[j]) <= 0;
    ComparesSeqExactly(journal[i], journal[j]);
    Twice(kept, journal, i, j);
    if journal[i].seqNo == journal[j].seqNo {
      SameSeqSameRecord(kept, journal[i], journal[j]);
    }
  }

  lemma DistinctReordered(a: seq<Record>, b: seq<Record>)
    requires multiset(a) == multiset(b) && DistinctSeqs(a)
    ensures DistinctSeqs(b)
  {
    SameMembers(a, b);
    forall i, j | 0 <= i < j < |b|
      ensures b[i].seqNo != b[j].seqNo
    {
      Twice(a, b, i, j);
      if b[i].seqNo == b[j].seqNo { SameSeqSameRecord(a, b[i], b[j]); }
    }
  }

  /** Two records further apart than the comparator can tell, put last, come out the wrong way
      round. */
  lemma FarApartFalls(lines: seq<Option<Record>>, high: Record, low: Record) returns (a: seq<Option<Record>>)
    requires high in Kept(lines) && low in Kept(lines) && high.seqNo - low.seqNo >= 0x8000_0000_0000_0000
    ensures Reorders(lines, a) && !Rising(Journal(a))
  {
    hide Kept, StableSort;
    var front := PutLast(lines, high, low);
    a := front + [Some(high), Some(low)];
    PairStays(Kept(front), high, low);
    var journal := Journal(a);
    var j :| 0 <= j < |journal| && journal[j] == low && forall i :: j < i < |journal| ==> journal[i] !in {high, low};
    assert high in {high, low};
    var i :| 0 <= i < |journal| && journal[i] == high;
  }

  /** With distinct sequence numbers, every order of the lines gives a journal in rising order
      exactly when all the numbers differ by less than 2^63. */
  lemma RisesExactlyWhenClose(lines: seq<Option<Record>>)
    requires DistinctSeqs(Kept(lines))
    ensures (forall a :: Reorders(lines, a) ==> Rising(Journal(a))) <==> AllClose(Kept(lines))
  {
    hide Kept, Journal, Rising, DistinctSeqs;
    if AllClose(Kept(lines)) {
      forall a | Reorders(lines, a)
        ensures Rising(Journal(a))
      {
        KeptIgnoresOrder(lines, a);
        DistinctReordered(Kept(lines), Kept(a));
        SameMembers(Kept(lines), Kept(a));
        JournalRises(a);
      }
    } else {
      var x, y :| x in Kept(lines) && y in Kept(lines) && !Close(x, y);
      var high, low := if x.seqNo > y.seqNo then x else y, if x.seqNo > y.seqNo then y else x;
      var a := FarApartFalls(lines, high, low);
      assert Reorders(lines, a);
    }
  }

  lemma JournalMembers(lines: seq<Option<Record>>)
    ensures forall r :: r in Journal(lines) <==> r in Kept(lines)
  {
    SortKeeps(SeqCompare, Kept(lines));
    SameMembers(Kept(lines), Journal(lines));
  }

  /** The place of the highest record of a class in the journal: no later one is of the class. */
  lemma PlaceOf(lines: seq<Option<Record>>, r: Record, c: Class) returns (k: nat)
    requires Rising(Journal(lines)) && Highest(Kept(lines), r, c)
    ensures k < |Journal(lines)| && Journal(lines)[k] == r
    ensures forall j :: k < j < |Journal(lines)| ==> !In(Journal(lines)[j], c)
  {
    hide Journal, Kept;
    JournalMembers(lines);
    k :| 0 <= k < |Journal(lines)| && Journal(lines)[k] == r;
    forall j | k < j < |Journal(lines)|
      ensures !In(Journal(lines)[j], c)
    {
      assert Journal(lines)[j] in Kept(lines);
    }
  }

  /** In a journal in rising order the state is the type of the highest-numbered terminal or
      message record, with its message and result, else running; the progress and the end time
      come from the highest-numbered progress and terminal records. */
  lemma StateIsTheHighest(lines: seq<Option<Record>>, r: Record)
    requires Rising(Journal(lines)) && r in Kept(lines)
    ensures var s := Folded(Journal(lines));
            && s.Some?
            && (Highest(Kept(lines), r, Endings) ==> Reports(s.value, r))
            && ((forall q <- Kept(lines) :: !Ending(q)) ==> Silent(s.value))
            && (Highest(Kept(lines), r, Progresses) ==> s.value.progress == r.message)
            && (Highest(Kept(lines), r, Terminals) ==> s.value.ended == r.time)
  {
    hide Rising, Journal, Kept;
    var journal := Journal(lines);
    JournalMembers(lines);
    assert r in journal;
    var start := Start(journal[0].job);
    if Highest(Kept(lines), r, Endings) {
      var k := PlaceOf(lines, r, Endings);
      LastEnding(start, journal, k);
    }
    if forall q <- Kept(lines) :: !Ending(q) {
      NoEnding(start, journal);
    }
    if Highest(Kept(lines), r, Progresses) {
      var k := PlaceOf(lines, r, Progresses);
      LastProgress(start, journal, k);
    }
    if Highest(Kept(lines), r, Terminals) {
      var k := PlaceOf(lines, r, Terminals);
      LastTerminal(start, journal, k);
    }
  }

  // ------------------------------------------------------------------------ the snapshot

  predicate DistinctJobs(states: seq<JobState>) {
    forall i, j :: 0 <= i < j < |states| ==> states[i].id != states[j].id
  }

  /** The display comparator is antisymmetric, zero only between equal IDs, and transitive. */
  lemma DisplayIsStrict(a: JobState, b: JobState, c: JobState)
    ensures DisplayCompare(a, b) == -DisplayCompare(b, a)
    ensures DisplayCompare(a, b) == 0 ==> a.id == b.id
    ensures DisplayCompare(a, b) <= 0 && DisplayCompare(b, c) <= 0 ==> DisplayCompare(a, c) <= 0
  {
    CompareIsStrict(a.id, b.id);
    if Compare(a.id, b.id) <= 0 && Compare(b.id, c.id) <= 0 {
      CompareTransitive(a.id, b.id, c.id);
    }
  }

  lemma DisplayOrders(states: seq<JobState>)
    ensures Orders(DisplayCompare, states)
    ensures DistinctJobs(states) ==> Separates(DisplayCompare, states)
  {
    forall a: JobState, b: JobState, c: JobState
      ensures DisplayCompare(a, b) == -DisplayCompare(b, a)
      ensures DisplayCompare(a, b) <= 0 && DisplayCompare(b, c) <= 0 ==> DisplayCompare(a, c) <= 0
    {
      DisplayIsStrict(a, b, c);
    }
    if DistinctJobs(states) {
      forall a, b | a in states && b in states && DisplayCompare(a, b) <= 0 && DisplayCompare(b, a) <= 0
        ensures a == b
      {
        DisplayIsStrict(a, b, b);
        var i :| 0 <= i < |states| && states[i] == a;
        var j :| 0 <= j < |states| && states[j] == b;
      }
    }
  }

  lemma StatesSnoc(entries: seq<DirEntry>, n: nat)
    requires |entries| == n + 1
    ensures multiset(States(entries)) == multiset(States(entries[..n])) + multiset(StateOf(entries[n]))
  {
    hide StateOf;
  }

  lemma {:induction false} StatesWithout(entries: seq<DirEntry>, k: nat)
    requires k < |entries|
    ensures multiset(States(entries))
            == multiset(States(entries[..k] + entries[k + 1..])) + multiset(StateOf(entries[k]))
  {
    hide StateOf, States;
    var n := |entries| - 1;
    StatesSnoc(entries, n);
    var rest := entries[..k] + entries[k + 1..];
    if k == n {
      assert rest == entries[..n];
    } else {
      StatesWithout(entries[..n], k);
      StatesSnoc(rest, n - 1);
      assert rest[..n - 1] == entries[..n][..k] + entries[..n][k + 1..] && rest[n - 1] == entries[n];
    }
  }

  lemma Without<T>(s: seq<T>, k: nat)
    requires k < |s|
    ensures multiset(s[..k] + s[k + 1..]) == multiset(s) - multiset{s[k]}
  {
    assert s == s[..k] + [s[k]] + s[k + 1..];
  }

  lemma {:induction false} StatesIgnoreOrder(a: seq<DirEntry>, b: seq<DirEntry>)
    requires multiset(a) == multiset(b)
    ensures multiset(States(a)) == multiset(States(b))
    decreases |a|
  {
    assert |multiset(a)| == |a| && |multiset(b)| == |b|;
    if a != [] {
      hide StateOf, States;
      var n := |a| - 1;
      SameMembers(a, b);
      assert a[n] in b;
      var k :| 0 <= k < |b| && b[k] == a[n];
      var rest := b[..k] + b[k + 1..];
      Without(a, n);
      Without(b, k);
      assert a[..n] + a[n + 1..] == a[..n];
      StatesIgnoreOrder(a[..n], rest);
      StatesWithout(a, n);
      StatesWithout(b, k);
    }
  }

  /** The same files, each with its lines in any order. */
  ghost predicate SameLines(a: seq<DirEntry>, b: seq<DirEntry>) {
    |a| == |b|
    && forall k :: 0 <= k < |a| ==>
         a[k].name == b[k].name && a[k].isDir == b[k].isDir && Reorders(a[k].lines, b[k].lines)
  }

  ghost predicate WellNumbered(entries: seq<DirEntry>) {
    forall e <- entries :: Ordered(Kept(e.lines))
  }

  lemma {:induction false} StatesIgnoreLineOrder(a: seq<DirEntry>, b: seq<DirEntry>)
    requires SameLines(a, b) && WellNumbered(a)
    ensures States(a) == States(b)
  {
    hide StateOf, Ordered, Reorders;
    if a != [] {
      var n := |a| - 1;
      StatesIgnoreLineOrder(a[..n], b[..n]);
      assert a[n] in a;
      SameState(a[n], b[n]);
    }
  }

  lemma SameState(a: DirEntry, b: DirEntry)
    requires a.name == b.name && a.isDir == b.isDir && Reorders(a.lines, b.lines) && Ordered(Kept(a.lines))
    ensures StateOf(a) == StateOf(b)
  {
    hide Kept, Journal, Folded, Ordered, Reorders;
    OrderDoesNotShow(a.lines, b.lines);
  }

  /** The snapshot depends neither on the order in which the directory lists the journals nor on
      the order of the lines in them, so a rescan that finds the same records publishes nothing. */
  lemma SnapshotIgnoresOrder(a: seq<DirEntry>, mid: seq<DirEntry>, b: seq<DirEntry>)
    requires SameLines(a, mid) && WellNumbered(a) && multiset(mid) == multiset(b)
    requires DistinctJobs(States(a))
    ensures Snapshot(a) == Snapshot(b)
  {
    StatesIgnoreLineOrder(a, mid);
    StatesIgnoreOrder(mid, b);
    DisplayOrders(States(a));
    SortIgnoresOrder(DisplayCompare, States(a), States(b));
  }

  /** On display running jobs come first, and among those in the same condition the newest. */
  lemma SnapshotOrder(entries: seq<DirEntry>, i: nat, j: nat)
    requires i < j < |Snapshot(entries)|
    ensures var a, b := Snapshot(entries)[i], Snapshot(entries)[j];
            && (b.state == STATE_RUNNING ==> a.state == STATE_RUNNING)
            && ((a.state == STATE_RUNNING <==> b.state == STATE_RUNNING) ==> b.started.instant <= a.started.instant)
    ensures multiset(Snapshot(entries)) == multiset(States(entries))
  {
    DisplayOrders(States(entries));
    SortSorts(DisplayCompare, States(entries));
    SortKeeps(DisplayCompare, States(entries));
    assert DisplayCompare(Snapshot(entries)[i], Snapshot(entries)[j]) <= 0;
  }
}
