/**
  The task lineage as a whole: scans, completions and one extraction at a time, where the extraction
  works on what it read before it gave up the writer lock and is checked against what it finds after.
 */
module Engine {
  import opened Results
  import opened Domain
  import opened Store
  import opened MessageLog
  import opened Batching
  import opened Merge
  import opened TaskGraph

  // ---------------------------------------------------------------- completion

  datatype CompletionError = TaskNotFound | TaskChanged

  function Watermarks(files: Files, episodes: seq<Episode>, before: map<string, Cursor>): map<string, Cursor> {
    if episodes == [] then before
    else
      var e := episodes[|episodes| - 1];
      Watermarks(files, episodes[..|episodes| - 1], before)[e.threadId := ScanOf(files, e.threadId).cursor]
  }

  function Completed(files: Files, task: Task, completed: bool): Task {
    task.(
      manualCompletion := completed,
      watermarks := if completed then Watermarks(files, task.episodes, task.watermarks) else task.watermarks,
      revision := task.revision + 1)
  }

  function AfterCompletion(files: Files, id: TaskId, expected: nat, completed: bool): Result<Files, CompletionError> {
    match TaskAt(files, id)
    case None => Err(TaskNotFound)
    case Some(task) =>
      if task.revision != expected then Err(TaskChanged)
      else Ok(files[TaskKey(id) := TaskValue(Completed(files, task, completed))])
  }

  /** `set_completion` against the store. */
  method SetCompletion(store: Handle<Key, Value>, id: TaskId, expected: nat, completed: bool)
    returns (r: Result<Task, CompletionError>)
    requires store.writable
    modifies store
    ensures
      match AfterCompletion(old(store.files), id, expected, completed)
      case Err(error) => r == Err(error) && store.files == old(store.files)
      case Ok(after) => r.Ok? && store.files == after && TaskAt(after, id) == Some(r.value)
  {
    var found := TaskAt(store.files, id);
    if found.None? {
      return Err(TaskNotFound);
    }
    var task := found.value;
    if task.revision != expected {
      return Err(TaskChanged);
    }
    task := task.(manualCompletion := completed);
    if completed {
      for i := 0 to |task.episodes|
        invariant task == found.value.(
          manualCompletion := completed,
          watermarks := Watermarks(store.files, found.value.episodes[..i], found.value.watermarks))
        invariant store.files == old(store.files) && store.writable
      {
        var e := task.episodes[i];
        assert found.value.episodes[..i + 1][..i] == found.value.episodes[..i];
        task := task.(watermarks := task.watermarks[e.threadId := ScanOf(store.files, e.threadId).cursor]);
      }
      assert found.value.episodes[..|task.episodes|] == found.value.episodes;
    }
    task := task.(revision := task.revision + 1);
    var writes := [(File(TaskKey(id)), TaskValue(task))];
    assert DataWrites(writes) == [(TaskKey(id), TaskValue(task))];
    assert DataWrites(writes)[1..] == [];
    var _ := store.Commit(writes);
    return Ok(task);
  }

  lemma {:induction false} WatermarksAre(files: Files, episodes: seq<Episode>, before: map<string, Cursor>, thread: string)
    ensures thread in Watermarks(files, episodes, before) <==> thread in before || exists e :: e in episodes && e.threadId == thread
    ensures thread in Watermarks(files, episodes, before) ==>
              Watermarks(files, episodes, before)[thread]
              == if exists e :: e in episodes && e.threadId == thread then ScanOf(files, thread).cursor else before[thread]
    decreases |episodes|
  {
    if episodes != [] {
      var front, last := episodes[..|episodes| - 1], episodes[|episodes| - 1];
      assert episodes == front + [last];
      WatermarksAre(files, front, before, thread);
    }
  }

  // ---------------------------------------------------------------- the extraction's two halves

  /** What an extraction remembers while the model runs and the writer lock is free. */
  datatype Flight = Flight(
    thread: string, root: string, now: int, scan: ScanState, log: seq<Message>, picked: seq<nat>, end: nat,
    candidates: seq<Task>)

  function CandidatesOf(files: Files, listing: seq<TaskId>, root: string): seq<Task> {
    if listing == [] then []
    else
      var front := CandidatesOf(files, listing[..|listing| - 1], root);
      match TaskAt(files, listing[|listing| - 1])
      case Some(task) => if task.rootThreadId == root then front + [task] else front
      case None => front
  }

  function Supply(log: seq<Message>, picked: seq<nat>): (r: seq<Message>)
    requires forall i :: 0 <= i < |picked| ==> picked[i] < |log|
    ensures |r| == |picked|
  {
    seq(|picked|, i requires 0 <= i < |picked| => Excerpt(log[picked[i]]))
  }

  /** The supplied messages by id; of two with one id the later one counts. */
  function SourceOf(input: seq<Message>): (r: map<string, Message>)
    ensures forall id :: id in r ==> exists i :: 0 <= i < |input| && input[i].evidence.eventId == id && r[id] == input[i]
    ensures forall i :: 0 <= i < |input| ==> input[i].evidence.eventId in r
  {
    if input == [] then map[]
    else SourceOf(input[..|input| - 1])[input[|input| - 1].evidence.eventId := input[|input| - 1]]
  }

  function Incoming(links: seq<Link>): seq<nat> {
    if links == [] then []
    else if links[0].kind == "message" then [links[0].evidence.byteOffset] + Incoming(links[1..])
    else Incoming(links[1..])
  }

  function ContextOf(files: Files, f: Flight): Context
    requires forall i :: 0 <= i < |f.picked| ==> f.picked[i] < |f.log|
  {
    Context(f.thread, f.root, SourceOf(Supply(f.log, f.picked)), f.log, Incoming(LinksAt(files, LinksKey(f.thread))))
  }

  /** The check on the scan: same generation, and nobody else extracted. */
  predicate ScanStillValid(files: Files, f: Flight) {
    var current := ScanOf(files, f.thread);
    current.cursor.generation == f.scan.cursor.generation && current.extractedCount == f.scan.extractedCount
  }

  /** The check on the tasks: every candidate at its revision, and no other task of the root. */
  ghost predicate TasksStillValid(files: Files, f: Flight) {
    && (forall i :: 0 <= i < |f.candidates| ==>
          TaskAt(files, f.candidates[i].id).Some?
          && TaskAt(files, f.candidates[i].id).value.revision == f.candidates[i].revision)
    && (forall id :: TaskAt(files, id).Some? && TaskAt(files, id).value.rootThreadId == f.root ==>
          exists i :: 0 <= i < |f.candidates| && f.candidates[i].id == id)
  }

  ghost predicate AcceptsResult(files: Files, f: Flight, deltas: seq<TaskDelta>)
    requires forall i :: 0 <= i < |f.picked| ==> f.picked[i] < |f.log|
  {
    && ScanStillValid(files, f)
    && TasksStillValid(files, f)
    && ValidExtraction(deltas, SourceOf(Supply(f.log, f.picked)).Keys, set i | 0 <= i < |f.candidates| :: f.candidates[i].id)
  }

  function TaskWrites(tasks: seq<Task>): (r: seq<(Key, Value)>)
    ensures |r| == |tasks| && forall i :: 0 <= i < |tasks| ==> r[i] == (TaskKey(tasks[i].id), TaskValue(tasks[i]))
  {
    seq(|tasks|, i requires 0 <= i < |tasks| => (TaskKey(tasks[i].id), TaskValue(tasks[i])))
  }

  function ScanAfter(current: ScanState, f: Flight): ScanState {
    current.(
      extractedCount := f.end,
      extractedRevision := if f.end >= f.scan.messageCount then f.scan.dirtyRevision else current.extractedRevision,
      lastError := None)
  }

  /** The commit of an accepted result: the merged tasks, the scan, the audit record and the usage record. */
  function FinishWrites(files: Files, f: Flight, merged: seq<Task>, job: string, usage: string): seq<(Key, Value)> {
    TaskWrites(merged)
    + [(ScanKey(f.thread), ScanValue(ScanAfter(ScanOf(files, f.thread), f))),
       (OtherKey("extraction-revisions/" + job), OtherValue(usage)), (OtherKey("latest-extraction.json"), OtherValue(usage))]
  }

  /** The threads the merged tasks speak about. */
  function ThreadsOf(tasks: seq<Task>): set<string> {
    set i, j | 0 <= i < |tasks| && 0 <= j < |tasks[i].episodes| :: tasks[i].episodes[j].threadId
  }

  /** Known offsets: those of the messages in the logs of `threads`. */
  ghost predicate OffsetsFor(files: Files, threads: set<string>, offsets: map<string, nat>) {
    && (forall id :: id in offsets ==>
          exists t, m :: t in threads && m in LogOf(files, t) && m.evidence.eventId == id && m.evidence.byteOffset == offsets[id])
    && (forall t, m :: t in threads && m in LogOf(files, t) ==> m.evidence.eventId in offsets)
  }

  function LogOf(files: Files, thread: string): seq<Message> {
    match Messages(files, thread)
    case Ok(log) => log
    case Err(_) => []
  }

  function Merged(files: Files, f: Flight, deltas: seq<TaskDelta>): seq<Task>
    requires forall i :: 0 <= i < |f.picked| ==> f.picked[i] < |f.log|
    requires forall d :: d in deltas ==> Supplied(ContextOf(files, f), d)
  {
    MergeAll(ContextOf(files, f), f.candidates, deltas)
  }

  // ---------------------------------------------------------------- events

  datatype Event =
    | Scan(thread: Thread, answer: Result<Batch, string>, listing: seq<TaskId>, at: int)
    | Tree(threads: seq<Thread>, links: seq<Link>)
    | Complete(id: TaskId, expected: nat, completed: bool)
    | NothingNew(name: string, at: int)
    | Begin(flight: Flight, listing: seq<TaskId>)
    | Failed(error: string)
    | Finish(deltas: seq<TaskDelta>, offsets: map<string, nat>, job: string, usage: string)
    | Crash

  datatype State = State(files: Files, flight: Option<Flight>)

  /** What a conversation source promises: a reset starts a later generation, anything else stays in its own. */
  ghost predicate Honest(files: Files, thread: Thread, answer: Result<Batch, string>) {
    var scan := ScanOf(files, thread.id);
    answer.Ok? ==>
      var b := answer.value;
      && (b.reset ==> b.cursor.generation > ReadCursor(scan).generation)
      && (!b.reset ==> b.cursor.generation == ReadCursor(scan).generation)
  }

  /** The first half: everything is read under the lock, nothing is written. */
  ghost predicate Begins(files: Files, f: Flight, listing: seq<TaskId>) {
    && IsListing(files, listing)
    && f.scan == ScanOf(files, f.thread)
    && Messages(files, f.thread) == Ok(f.log)
    && f.scan.extractedCount < f.scan.messageCount
    && f.candidates == CandidatesOf(files, listing, f.root)
    && f.scan.extractedCount <= |f.log|
    && IsBatch(f.log, f.scan.extractedCount, f.now, f.picked, f.end)
  }

  ghost predicate LineageStep(s: State, e: Event, s': State) {
    match e
    case Scan(thread, answer, listing, at) =>
      && Honest(s.files, thread, answer) && IsListing(s.files, listing)
      && s' == s.(files :=
           match Scanned(s.files, thread, answer, listing, at)
           case Ok(after) => after
           case Err(_) => s.files)
    case Tree(threads, links) =>
      s' == s.(files := s.files[TreeKey := TreeValue(threads)][LineageKey := LinksValue(links)])
    case Complete(id, expected, completed) =>
      s' == s.(files :=
        match AfterCompletion(s.files, id, expected, completed)
        case Ok(after) => after
        case Err(_) => s.files)
    case NothingNew(name, at) =>
      var scan := ScanOf(s.files, name);
      && s.flight.None?
      && scan.extractedCount < scan.messageCount && Messages(s.files, name).Ok?
      && scan.extractedCount <= |LogOf(s.files, name)|
      && NoneEligible(LogOf(s.files, name), at, scan.extractedCount, |LogOf(s.files, name)|)
      && s' == s.(files := s.files[ScanKey(name) := ScanValue(scan.(
           extractedCount := |LogOf(s.files, name)|, extractedRevision := scan.dirtyRevision, lastError := None))])
    case Begin(flight, listing) =>
      s.flight.None? && Begins(s.files, flight, listing) && s' == s.(flight := Some(flight))
    case Failed(error) =>
      && s.flight.Some?
      && var thread := s.flight.value.thread;
      && s' == State(s.files[ScanKey(thread) := ScanValue(ScanOf(s.files, thread).(lastError := Some(error)))], None)
    case Finish(deltas, offsets, job, usage) =>
      && s.flight.Some? && s'.flight.None?
      && var f := s.flight.value;
      && (forall i :: 0 <= i < |f.picked| ==> f.picked[i] < |f.log|)
      && (!AcceptsResult(s.files, f, deltas) ==> s'.files == s.files)
      && (AcceptsResult(s.files, f, deltas) ==>
            && (forall d :: d in deltas ==> Supplied(ContextOf(s.files, f), d))
            && OffsetsFor(s.files, ThreadsOf(Merged(s.files, f, deltas)), offsets)
            && s'.files == Overlay(s.files, FinishWrites(s.files, f,
                 LinkAll(Merged(s.files, f, deltas), LinksAt(s.files, LineageKey), offsets), job, usage)))
    case Crash => s' == s.(flight := None)
  }
}
