/** internal/jobs: the fold of a job journal and the channel snapshot. */
module Jobs {
  import opened Options
  import opened Ordering

  type Int64 = x: int | -0x8000_0000_0000_0000 <= x < 0x8000_0000_0000_0000

  const SCHEMA_VERSION := 1
  const TYPE_STARTED := "started"
  const TYPE_PROGRESS := "progress"
  const TYPE_SUCCEEDED := "succeeded"
  const TYPE_FAILED := "failed"
  const TYPE_CANCELLED := "cancelled"
  const TYPE_INTERRUPTED := "interrupted"
  const TYPE_MESSAGE := "message"
  const STATE_RUNNING := "running"

  /** A time.Time: its instant, 0 for the zero time, and which location it was parsed in. */
  datatype Time = Time(instant: int, location: nat)
  {
    predicate IsZero() {
      instant == 0
    }
  }

  const ZERO_TIME := Time(0, 0)

  /** One journal line.  Its time is that of the parsed timestamp, zero for a malformed one. */
  datatype Record = Record(
    v: int, job: string, source: string, from: string, kind: string, seqNo: Int64, time: Time,
    message: string, resultRef: string)

  datatype JobState = JobState(
    id: string, source: string, from: string, state: string, started: Time, ended: Time,
    progress: string, message: string, resultRef: string)
  {
    predicate Done() {
      IsTerminal(state)
    }
  }

  predicate IsTerminal(kind: string) {
    kind in {TYPE_SUCCEEDED, TYPE_FAILED, TYPE_CANCELLED, TYPE_INTERRUPTED}
  }

  // ------------------------------------------------------------------- one journal

  /** The lines that count: parsed, of this version, with a job ID. */
  function Kept(lines: seq<Option<Record>>): seq<Record> {
    if lines == [] then []
    else
      var line := lines[|lines| - 1];
      Kept(lines[..|lines| - 1])
      + if line.Some? && line.value.v == SCHEMA_VERSION && line.value.job != "" then [line.value] else []
  }

  /** Subtraction of Go's 64-bit int. */
  function Sub64(a: Int64, b: Int64): Int64 {
    var d := a - b;
    if d >= 0x8000_0000_0000_0000 then d - 0x1_0000_0000_0000_0000
    else if d < -0x8000_0000_0000_0000 then d + 0x1_0000_0000_0000_0000
    else d
  }

  function SeqCompare(a: Record, b: Record): int {
    Sub64(a.seqNo, b.seqNo)
  }

  function Journal(lines: seq<Option<Record>>): seq<Record> {
    StableSort(SeqCompare, Kept(lines))
  }

  method ReadJournal(lines: seq<Option<Record>>) returns (records: seq<Record>)
    ensures records == Journal(lines)
  {
    records := [];
    for i := 0 to |lines|
      invariant records == Kept(lines[..i])
    {
      assert lines[..i + 1][..i] == lines[..i];
      if lines[i].None? { continue; }
      var r := lines[i].value;
      if r.v != SCHEMA_VERSION || r.job == "" { continue; }
      records := records + [r];
    }
    assert lines[..|lines|] == lines;
    records := StableSort(SeqCompare, records);
  }

  // ---------------------------------------------------------------------- the fold

  function Apply(s: JobState, r: Record): JobState {
    if r.kind == TYPE_STARTED then s.(source := r.source, started := r.time)
    else if r.kind == TYPE_PROGRESS then s.(progress := r.message)
    else if r.kind == TYPE_MESSAGE then
      s.(state := TYPE_MESSAGE, source := r.source, from := r.from, message := r.message, resultRef := r.resultRef,
         started := if s.started.IsZero() then r.time else s.started)
    else if IsTerminal(r.kind) then
      s.(state := r.kind, ended := r.time, message := r.message, resultRef := r.resultRef)
    else s
  }

  function Fold(s: JobState, records: seq<Record>): JobState {
    if records == [] then s else Apply(Fold(s, records[..|records| - 1]), records[|records| - 1])
  }

  function Start(job: string): JobState {
    JobState(job, "", "", STATE_RUNNING, ZERO_TIME, ZERO_TIME, "", "", "")
  }

  function Folded(records: seq<Record>): Option<JobState> {
    if records == [] then None else Some(Fold(Start(records[0].job), records))
  }

  method StateFromRecords(records: seq<Record>) returns (state: Option<JobState>)
    ensures state == Folded(records)
  {
    if |records| == 0 { return None; }
    var s := JobState(records[0].job, "", "", STATE_RUNNING, ZERO_TIME, ZERO_TIME, "", "", "");
    for i := 0 to |records|
      invariant s == Fold(Start(records[0].job), records[..i])
    {
      assert records[..i + 1][..i] == records[..i];
      var r := records[i];
      if r.kind == TYPE_STARTED {
        s := s.(source := r.source, started := r.time);
      } else if r.kind == TYPE_PROGRESS {
        s := s.(progress := r.message);
      } else if r.kind == TYPE_MESSAGE {
        s := s.(state := TYPE_MESSAGE, source := r.source, from := r.from, message := r.message,
                resultRef := r.resultRef);
        if s.started.IsZero() {
          s := s.(started := r.time);
        }
      } else if IsTerminal(r.kind) {
        s := s.(state := r.kind, ended := r.time, message := r.message, resultRef := r.resultRef);
      }
    }
    assert records[..|records|] == records;
    state := Some(s);
  }

  // ------------------------------------------------------------------ the snapshot

  /** Running jobs first, then newest start first, then by ID. */
  function DisplayCompare(a: JobState, b: JobState): int {
    var ra, rb := a.state == STATE_RUNNING, b.state == STATE_RUNNING;
    if ra != rb then (if ra then -1 else 1)
    else if b.started.instant < a.started.instant then -1
    else if a.started.instant < b.started.instant then 1
    else Compare(a.id, b.id)
  }

  /** An entry of a channel directory, with the lines of the file. */
  datatype DirEntry = DirEntry(name: string, isDir: bool, lines: seq<Option<Record>>)

  /** A visible file that ends in .jsonl. */
  predicate IsJournal(e: DirEntry) {
    !e.isDir && |e.name| >= 6 && e.name[|e.name| - 6..] == ".jsonl" && e.name[0] != '.'
  }

  function StateOf(e: DirEntry): seq<JobState> {
    var s := if IsJournal(e) then Folded(Journal(e.lines)) else None;
    if s.Some? then [s.value] else []
  }

  function States(entries: seq<DirEntry>): seq<JobState> {
    if entries == [] then [] else States(entries[..|entries| - 1]) + StateOf(entries[|entries| - 1])
  }

  function Snapshot(entries: seq<DirEntry>): seq<JobState> {
    StableSort(DisplayCompare, States(entries))
  }

  /** The snapshot of a channel directory, listed in any order; None when there is none. */
  method ReadChannelStates(dir: Option<seq<DirEntry>>) returns (states: seq<JobState>)
    ensures states == if dir.Some? then Snapshot(dir.value) else []
  {
    if dir.None? { return []; }
    var entries := dir.value;
    states := [];
    for i := 0 to |entries|
      invariant states == States(entries[..i])
    {
      assert entries[..i + 1][..i] == entries[..i];
      if entries[i].isDir || !HasSuffix(entries[i].name, ".jsonl") || "." <= entries[i].name { continue; }
      var records := ReadJournal(entries[i].lines);
      var s := StateFromRecords(records);
      if s.Some? {
        states := states + [s.value];
      }
    }
    assert entries[..|entries|] == entries;
    states := StableSort(DisplayCompare, states);
  }

  predicate HasSuffix(s: string, suffix: string) {
    |s| >= |suffix| && s[|s| - |suffix|..] == suffix
  }

  method EqualStates(a: seq<JobState>, b: seq<JobState>) returns (same: bool)
    ensures same <==> a == b
  {
    if |a| != |b| { return false; }
    for i := 0 to |a|
      invariant a[..i] == b[..i]
    {
      if a[i] != b[i] { return false; }
    }
    same := true;
  }
}
