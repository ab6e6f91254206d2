/**
 internal/jobs: every field of a job's state read off the records of its journal, which lines are
 records, which files are journals, and how the display breaks ties.
 */
module JobsFields {
  import opened Options
  import opened Ordering
  import opened Jobs
  import opened JobsTheorems

  const ENDINGS := {"succeeded", "failed", "cancelled", "interrupted"}

  /** The last record of one of these kinds. */
  predicate Latest(records: seq<Record>, k: nat, kinds: set<string>) {
    k < |records| && records[k].kind in kinds && forall j :: k < j < |records| ==> records[j].kind !in kinds
  }

  predicate NoneOf(records: seq<Record>, kinds: set<string>) {
    forall j :: 0 <= j < |records| ==> records[j].kind !in kinds
  }

  // ------------------------------------------------------------------------ the fold

  lemma LatestFront(records: seq<Record>, n: nat, k: nat, kinds: set<string>)
    requires k < n < |records| && Latest(records, k, kinds)
    ensures Latest(records[..n], k, kinds) && records[n].kind !in kinds
  {
  }

  lemma {:induction false} LatestDecides(s: JobState, records: seq<Record>, k: nat)
    requires k < |records|
    ensures var r, after := records[k], Fold(s, records);
            && (Latest(records, k, ENDINGS + {"message"}) ==>
                  after.state == r.kind && after.message == r.message && after.resultRef == r.resultRef)
            && (Latest(records, k, ENDINGS) ==> after.ended == r.time)
            && (Latest(records, k, {"started", "message"}) ==> after.source == r.source)
            && (Latest(records, k, {"message"}) ==> after.from == r.from)
            && (Latest(records, k, {"progress"}) ==> after.progress == r.message)
  {
    var n := |records| - 1;
    if k < n { LatestDecides(s, records[..n], k); }
  }

  lemma {:induction false} NoneDecides(s: JobState, records: seq<Record>)
    ensures var after := Fold(s, records);
            && after.id == s.id
            && (NoneOf(records, ENDINGS + {"message"}) ==>
                  after.state == s.state && after.message == s.message && after.resultRef == s.resultRef)
            && (NoneOf(records, ENDINGS) ==> after.ended == s.ended)
            && (NoneOf(records, {"started", "message"}) ==> after.source == s.source)
            && (NoneOf(records, {"message"}) ==> after.from == s.from)
            && (NoneOf(records, {"progress"}) ==> after.progress == s.progress)
  {
    if records != [] {
      var n := |records| - 1;
      NoneDecides(s, records[..n]);
    }
  }

  /** Every field but the start time is that of the last record that bears on it, and the job is
      that of the first record. */
  lemma {:induction false} FieldsAreTheLatest(records: seq<Record>, k: nat)
    requires k < |records|
    ensures Folded(records).Some?
    ensures var r, s := records[k], Folded(records).value;
            && s.id == records[0].job
            && (Latest(records, k, ENDINGS + {"message"}) ==>
                  s.state == r.kind && s.message == r.message && s.resultRef == r.resultRef)
            && (NoneOf(records, ENDINGS + {"message"}) ==> s.state == "running" && s.message == "" == s.resultRef)
            && (Latest(records, k, ENDINGS) ==> s.ended == r.time)
            && (NoneOf(records, ENDINGS) ==> s.ended == ZERO_TIME)
            && (Latest(records, k, {"started", "message"}) ==> s.source == r.source)
            && (NoneOf(records, {"started", "message"}) ==> s.source == "")
            && (Latest(records, k, {"message"}) ==> s.from == r.from)
            && (NoneOf(records, {"message"}) ==> s.from == "")
            && (Latest(records, k, {"progress"}) ==> s.progress == r.message)
            && (NoneOf(records, {"progress"}) ==> s.progress == "")
  {
    var start := Start(records[0].job);
    LatestDecides(start, records, k);
    NoneDecides(start, records);
    hide Latest, NoneOf, Fold;
  }

  // ------------------------------------------------------------------- the start time

  /** From here on nothing starts the job again: its last start, or the beginning. */
  predicate LastStart(records: seq<Record>, lo: nat) {
    Latest(records, lo, {"started"}) || (lo == 0 && NoneOf(records, {"started"}))
  }

  predicate Dated(r: Record) {
    r.kind in {"started", "message"} && r.time.instant != 0
  }

  /** The first record since the last start that says when. */
  predicate FirstDated(records: seq<Record>, lo: nat, k: nat) {
    lo <= k < |records| && Dated(records[k]) && forall i :: lo <= i < k ==> !Dated(records[i])
  }

  lemma {:induction false} StartedFold(s: JobState, records: seq<Record>, lo: nat, k: nat)
    requires s.started.instant == 0 && LastStart(records, lo)
    ensures FirstDated(records, lo, k) ==> Fold(s, records).started == records[k].time
    ensures (forall i :: lo <= i < |records| ==> !Dated(records[i])) ==> Fold(s, records).started.instant == 0
  {
    if records != [] {
      var n := |records| - 1;
      if lo < n || records[n].kind != "started" {
        StartedFold(s, records[..n], lo, k);
        if k == n && FirstDated(records, lo, k) {
          assert forall i :: lo <= i < n ==> !Dated(records[..n][i]);
        }
      }
    }
  }

  /** The start time is that of the last start, or when that tells none, of the first message after
      it that does. */
  lemma {:induction false} StartedIsTheFirstDated(records: seq<Record>, lo: nat, k: nat)
    requires records != [] && LastStart(records, lo)
    ensures Folded(records).Some?
    ensures FirstDated(records, lo, k) ==> Folded(records).value.started == records[k].time
    ensures (forall i :: lo <= i < |records| ==> !Dated(records[i])) ==> Folded(records).value.started.instant == 0
  {
    StartedFold(Start(records[0].job), records, lo, k);
  }

  // ---------------------------------------------------------------- lines and files

  /** A journal holds the lines that parse, are of version 1 and name a job, as often as they
      stand in the file, and no others. */
  lemma JournalHolds(lines: seq<Option<Record>>, r: Record)
    ensures multiset(Journal(lines))[r] == if r.v == 1 && r.job != "" then multiset(lines)[Some(r)] else 0
  {
    SortKeeps(SeqCompare, Kept(lines));
    KeptCount(lines, r);
  }

  /** A file counts when it is a visible one with the ending of a journal. */
  lemma JournalNames(e: DirEntry, stem: string)
    ensures stem != "" && stem[0] != '.' && e.name == stem + ".jsonl" && !e.isDir ==> IsJournal(e)
    ensures var n := |e.name| - 6;
            IsJournal(e) ==> !e.isDir && n > 0 && e.name[0] != '.' && e.name == e.name[..n] + ".jsonl"
  {
    if e.name == stem + ".jsonl" { assert e.name[|e.name| - 6..] == ".jsonl"; }
  }

  ghost predicate StoredState(entries: seq<DirEntry>, s: JobState) {
    exists e <- entries :: IsJournal(e) && Folded(Journal(e.lines)) == Some(s)
  }

  lemma {:induction false} StatesMembers(entries: seq<DirEntry>, s: JobState)
    ensures s in States(entries) <==> StoredState(entries, s)
  {
    if entries != [] {
      hide Folded, Journal, IsJournal;
      var n := |entries| - 1;
      StatesMembers(entries[..n], s);
      assert entries == entries[..n] + [entries[n]];
    }
  }

  /** The snapshot shows the states of the journals and nothing else. */
  lemma SnapshotMembers(entries: seq<DirEntry>, s: JobState)
    ensures s in Snapshot(entries) <==> StoredState(entries, s)
  {
    StatesMembers(entries, s);
    SortKeeps(DisplayCompare, States(entries));
    SameMembers(Snapshot(entries), States(entries));
  }

  // ------------------------------------------------------------------------- ties

  /** a stands before b where they first differ, or is the shorter one. */
  predicate BeforeAt(a: string, b: string, n: nat) {
    && n <= |a| && n < |b| && a[..n] == b[..n]
    && (n == |a| || a[n] < b[n])
  }

  lemma {:induction false} CompareFinds(a: string, b: string) returns (n: nat)
    requires Compare(a, b) < 0
    ensures BeforeAt(a, b, n)
  {
    n := 0;
    if a != [] && b != [] && a[0] == b[0] {
      var k := CompareFinds(a[1..], b[1..]);
      n := k + 1;
      assert a[..n] == [a[0]] + a[1..][..k] && b[..n] == [b[0]] + b[1..][..k];
    }
  }

  /** Jobs in the same condition that started together stand in the order of their IDs. */
  lemma {:induction false} TiesGoByID(entries: seq<DirEntry>, i: nat, j: nat) returns (n: nat)
    requires i < j < |Snapshot(entries)|
    requires var a, b := Snapshot(entries)[i], Snapshot(entries)[j];
             (a.state == "running" <==> b.state == "running") && a.started.instant == b.started.instant
    ensures var a, b := Snapshot(entries)[i].id, Snapshot(entries)[j].id; a == b || BeforeAt(a, b, n)
  {
    DisplayOrders(States(entries));
    SortSorts(DisplayCompare, States(entries));
    var a, b := Snapshot(entries)[i], Snapshot(entries)[j];
    assert DisplayCompare(a, b) <= 0;
    CompareIsStrict(a.id, b.id);
    n := 0;
    if a.id != b.id { n := CompareFinds(a.id, b.id); }
  }
}
