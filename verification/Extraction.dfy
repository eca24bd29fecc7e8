/** One extraction job as the code runs it against the store, shown to be the engine's begin and finish steps. */
module Extraction {
  import opened Results
  import opened Domain
  import opened Store
  import opened MessageLog
  import opened Batching
  import opened Merge
  import opened TaskGraph
  import opened Engine
  import opened EngineSafety

  datatype Outcome =
    | UpToDate                  // nothing left to extract here, try the next thread
    | PassedOver                // only ineligible messages were left
    | Committed
    | Unreadable(log: LogError)
    | Stale                     // the scan or the tasks changed meanwhile
    | Invalid(rejection: Rejection)
    | ModelFailed
    | LockLost

  method ListCandidates(files: Files, listing: seq<TaskId>, root: string) returns (r: seq<Task>)
    ensures r == CandidatesOf(files, listing, root)
  {
    r := [];
    for i := 0 to |listing|
      invariant r == CandidatesOf(files, listing[..i], root)
    {
      assert listing[..i + 1][..i] == listing[..i];
      var task := TaskAt(files, listing[i]);
      if task.Some? && task.value.rootThreadId == root {
        r := r + [task.value];
      }
    }
    assert listing[..|listing|] == listing;
  }

  /** The two checks of the tasks after the lock is back: every candidate current, no new task of the root. */
  method CheckTasks(files: Files, f: Flight, listing: seq<TaskId>) returns (valid: bool)
    requires IsListing(files, listing)
    ensures valid <==> TasksStillValid(files, f)
  {
    for i := 0 to |f.candidates|
      invariant forall j :: 0 <= j < i ==>
        TaskAt(files, f.candidates[j].id).Some?
        && TaskAt(files, f.candidates[j].id).value.revision == f.candidates[j].revision
    {
      var current := TaskAt(files, f.candidates[i].id);
      if current.None? || current.value.revision != f.candidates[i].revision {
        return false;
      }
    }
    for i := 0 to |listing|
      invariant forall j :: 0 <= j < i && TaskAt(files, listing[j]).value.rootThreadId == f.root ==>
        exists c :: 0 <= c < |f.candidates| && f.candidates[c].id == listing[j]
      invariant forall j :: 0 <= j < |listing| ==> TaskAt(files, listing[j]).Some?
    {
      if TaskAt(files, listing[i]).value.rootThreadId == f.root {
        var known := false;
        for c := 0 to |f.candidates|
          invariant known <==> exists k :: 0 <= k < c && f.candidates[k].id == listing[i]
        {
          known := known || f.candidates[c].id == listing[i];
        }
        if !known {
          return false;
        }
      }
    }
    return true;
  }

  method AddOffsets(log: seq<Message>, before: map<string, nat>) returns (offsets: map<string, nat>)
    ensures before.Keys <= offsets.Keys
    ensures forall m :: m in log ==> m.evidence.eventId in offsets
    ensures forall id :: id in offsets ==>
              (id in before && offsets[id] == before[id])
              || exists m :: m in log && m.evidence.eventId == id && m.evidence.byteOffset == offsets[id]
  {
    offsets := before;
    for i := 0 to |log|
      invariant before.Keys <= offsets.Keys
      invariant forall j :: 0 <= j < i ==> log[j].evidence.eventId in offsets
      invariant forall id :: id in offsets ==>
        (id in before && offsets[id] == before[id])
        || exists m :: m in log && m.evidence.eventId == id && m.evidence.byteOffset == offsets[id]
    {
      offsets := offsets[log[i].evidence.eventId := log[i].evidence.byteOffset];
    }
  }

  method CollectOffsets(files: Files, threads: set<string>) returns (r: Result<map<string, nat>, LogError>)
    ensures r.Ok? ==> OffsetsFor(files, threads, r.value)
    ensures r.Err? ==> exists t :: t in threads && Messages(files, t).Err?
  {
    var offsets: map<string, nat> := map[];
    var left, done: set<string> := threads, {};
    while left != {}
      invariant left + done == threads
      invariant OffsetsFor(files, done, offsets)
      decreases left
    {
      var t :| t in left;
      var log := ReadMessages(files, t);
      if log.Err? {
        return Err(log.error);
      }
      var next := AddOffsets(log.value, offsets);
      OffsetsGrow(files, done, offsets, t, next);
      offsets := next;
      left, done := left - {t}, done + {t};
    }
    assert done == threads;
    return Ok(offsets);
  }

  lemma OffsetsGrow(files: Files, done: set<string>, before: map<string, nat>, t: string, after: map<string, nat>)
    requires OffsetsFor(files, done, before) && Messages(files, t).Ok?
    requires before.Keys <= after.Keys
    requires forall m :: m in LogOf(files, t) ==> m.evidence.eventId in after
    requires forall id :: id in after ==>
               (id in before && after[id] == before[id])
               || exists m :: m in LogOf(files, t) && m.evidence.eventId == id && m.evidence.byteOffset == after[id]
    ensures OffsetsFor(files, done + {t}, after)
  {
  }

  /** Every check on an answer, in the order of the code; `Committed` here means that all of them pass. */
  method CheckResult(files: Files, f: Flight, listing: seq<TaskId>, deltas: seq<TaskDelta>) returns (r: Outcome)
    requires IsListing(files, listing)
    requires forall i :: 0 <= i < |f.picked| ==> f.picked[i] < |f.log|
    ensures r.Committed? <==> AcceptsResult(files, f, deltas)
    ensures r.Committed? || r.Stale? || r.Invalid?
    ensures r.Stale? <==> !ScanStillValid(files, f) || !TasksStillValid(files, f)
  {
    var current := ScanOf(files, f.thread);
    if current.cursor.generation != f.scan.cursor.generation || current.extractedCount != f.scan.extractedCount {
      return Stale;
    }
    var tasksValid := CheckTasks(files, f, listing);
    if !tasksValid {
      return Stale;
    }
    var valid := Validate(deltas, SourceOf(Supply(f.log, f.picked)).Keys,
                          set i | 0 <= i < |f.candidates| :: f.candidates[i].id);
    if valid.Err? {
      return Invalid(valid.error);
    }
    return Committed;
  }

  /** The merged and linked candidates of an accepted answer. */
  method MergeResult(files: Files, f: Flight, deltas: seq<TaskDelta>)
    returns (r: Result<seq<Task>, LogError>, ghost offsets: map<string, nat>)
    requires forall i :: 0 <= i < |f.picked| ==> f.picked[i] < |f.log|
    requires forall d :: d in deltas ==> Supplied(ContextOf(files, f), d)
    ensures r.Ok? ==>
              && OffsetsFor(files, ThreadsOf(Merged(files, f, deltas)), offsets)
              && r.value == LinkAll(Merged(files, f, deltas), LinksAt(files, LineageKey), offsets)
    ensures r.Err? ==> exists t :: Messages(files, t).Err?
  {
    offsets := map[];
    var merged := MergeDeltas(ContextOf(files, f), f.candidates, deltas);
    var known := CollectOffsets(files, ThreadsOf(merged));
    if known.Err? {
      return Err(known.error), offsets;
    }
    offsets := known.value;
    var linked := LinkCandidates(merged, LinksAt(files, LineageKey), known.value);
    return Ok(linked), offsets;
  }

  method CommitResult(store: Handle<Key, Value>, f: Flight, tasks: seq<Task>, job: string, usage: string)
    requires store.writable
    modifies store
    ensures store.files == Overlay(old(store.files), FinishWrites(old(store.files), f, tasks, job, usage)) && store.writable
  {
    var writes := FinishWrites(store.files, f, tasks, job, usage);
    var raw := seq(|writes|, i requires 0 <= i < |writes| => (File(writes[i].0), writes[i].1));
    assert DataWrites(raw) == writes;
    var _ := store.Commit(raw);
  }

  /** The second half: checks, validation, merge and the one commit. */
  method FinishExtraction(store: Handle<Key, Value>, f: Flight, listing: seq<TaskId>, deltas: seq<TaskDelta>, job: string, usage: string)
    returns (r: Outcome, ghost offsets: map<string, nat>)
    requires store.writable && IsListing(store.files, listing)
    requires FlightGood(store.files, f)
    modifies store
    ensures r.Committed? ==> AcceptsResult(old(store.files), f, deltas)
    ensures r.Committed? ==>
              LineageStep(State(old(store.files), Some(f)), Finish(deltas, offsets, job, usage), State(store.files, None))
    ensures r.Committed? || r.Stale? || r.Invalid? || r.Unreadable?
    ensures !r.Committed? ==> store.files == old(store.files)
    ensures r.Stale? <==> !ScanStillValid(old(store.files), f) || !TasksStillValid(old(store.files), f)
    ensures r.Invalid? ==> !AcceptsResult(old(store.files), f, deltas)
    ensures r.Unreadable? ==> exists t :: Messages(old(store.files), t).Err?
  {
    offsets := map[];
    r := CheckResult(store.files, f, listing, deltas);
    if !r.Committed? {
      return r, offsets;
    }
    AcceptedDeltas(store.files, f, deltas);
    var tasks: Result<seq<Task>, LogError>;
    tasks, offsets := MergeResult(store.files, f, deltas);
    if tasks.Err? {
      return Unreadable(tasks.error), offsets;
    }
    CommitResult(store, f, tasks.value, job, usage);
  }

  /** The first half: what one job reads before it gives up the lock. */
  method BeginExtraction(files: Files, thread: string, root: string, now: int, listing: seq<TaskId>)
    returns (r: Outcome, f: Option<Flight>)
    requires Inv(files) && IsListing(files, listing)
    ensures f.Some? ==> Begins(files, f.value, listing) && f.value.thread == thread && f.value.root == root && f.value.now == now
    ensures f.None? ==> r.UpToDate? || r.PassedOver?
    ensures r.UpToDate? && f.None? ==> ScanOf(files, thread).extractedCount == ScanOf(files, thread).messageCount
    ensures r.PassedOver? && f.None? ==>
              LineageStep(State(files, None), NothingNew(thread, now), State(files[ScanKey(thread) := ScanValue(
                ScanOf(files, thread).(extractedCount := |LogOf(files, thread)|,
                  extractedRevision := ScanOf(files, thread).dirtyRevision, lastError := None))], None))
  {
    f := None;
    var scan := ScanOf(files, thread);
    assert Readable(files, thread) && ScanGood(scan);
    if scan.extractedCount >= scan.messageCount {
      return UpToDate, f;
    }
    var all := ReadMessages(files, thread);
    var log := all.value;
    var selected := SelectBatch(log, scan.extractedCount, now);
    if selected.None? {
      return PassedOver, f;
    }
    var (picked, end) := selected.value;
    var candidates := ListCandidates(files, listing, root);
    return Committed, Some(Flight(thread, root, now, scan, log, picked, end, candidates));
  }

  /**
    The body of `extract_scoped` for one thread. `meanwhile` is the disk as the scans and completions of
    `others` leave it while the model runs, `answer` what the model says, `relocked` whether the lock
    comes back in time.
   */
  method ExtractThread(
    store: Handle<Key, Value>, thread: string, root: string, now: int, listing: seq<TaskId>,
    meanwhile: Disk<Key, Value>, relocked: bool, later: seq<TaskId>,
    answer: Result<seq<TaskDelta>, string>, job: string, usage: string, ghost states: seq<State>, ghost others: seq<Event>)
    returns (r: Outcome, ghost f: Option<Flight>, ghost offsets: map<string, nat>)
    requires store.writable && Inv(store.files) && IsListing(store.files, listing)
    requires EnvironmentRun(states, others) && states[0].files == store.files && states[|others|].files == Logical(meanwhile)
    requires IsListing(Logical(meanwhile), later)
    modifies store
    ensures f.Some? ==> Begins(old(store.files), f.value, listing)
    ensures f.None? ==> r.UpToDate? || r.PassedOver?
    ensures r.UpToDate? ==> f.None? && store.files == old(store.files)
    ensures r.UpToDate? ==> ScanOf(store.files, thread).extractedCount == ScanOf(store.files, thread).messageCount
    ensures r.PassedOver? ==> f.None?
    ensures f.Some? && relocked ==> (r.ModelFailed? <==> answer.Err?)
    ensures f.Some? && relocked && answer.Ok? ==>
              && (r.Committed? <==> AcceptsResult(Logical(meanwhile), f.value, answer.value))
              && (r.Stale? <==> !ScanStillValid(Logical(meanwhile), f.value) || !TasksStillValid(Logical(meanwhile), f.value))
    ensures f.Some? ==> f.value.thread == thread && f.value.root == root && f.value.now == now
    ensures r.PassedOver? ==>
              LineageStep(State(old(store.files), None), NothingNew(thread, now), State(store.files, None))
    ensures r.ModelFailed? ==>
              && answer.Err? && f.Some?
              && LineageStep(State(Logical(meanwhile), f), Failed(answer.error), State(store.files, None))
    ensures r.Committed? ==>
              && answer.Ok? && f.Some?
              && LineageStep(State(Logical(meanwhile), f), Finish(answer.value, offsets, job, usage), State(store.files, None))
    ensures r.Stale? || r.Invalid? ==> store.files == Logical(meanwhile)
    ensures r.LockLost? <==> f.Some? && !relocked
    ensures r.LockLost? ==> store.State() == meanwhile
    ensures !r.Unreadable?
  {
    offsets := map[];
    var begun: Option<Flight>;
    r, begun := BeginExtraction(store.files, thread, root, now, listing);
    f := begun;
    if begun.None? {
      if r.PassedOver? {
        var log := ReadMessages(store.files, thread);
        var scan := ScanOf(store.files, thread);
        assert Readable(store.files, thread);
        WriteScan(store, thread, scan.(extractedCount := |log.value|, extractedRevision := scan.dirtyRevision, lastError := None));
      }
      return r, f, offsets;
    }
    BeginIsGood(store.files, begun.value, listing);
    EnvironmentRunMoves(states, others, |others|);
    MovesKeepFlight(store.files, Logical(meanwhile), begun.value);
    var back := store.WithoutWriterLock(meanwhile, relocked);
    if back.Err? {
      return LockLost, f, offsets;
    }
    if answer.Err? {
      WriteScan(store, begun.value.thread, ScanOf(store.files, begun.value.thread).(lastError := Some(answer.error)));
      return ModelFailed, f, offsets;
    }
    assert forall t :: Readable(Logical(meanwhile), t);
    r, offsets := FinishExtraction(store, begun.value, later, answer.value, job, usage);
  }

  method WriteScan(store: Handle<Key, Value>, thread: string, scan: ScanState)
    requires store.writable
    modifies store
    ensures store.files == old(store.files)[ScanKey(thread) := ScanValue(scan)] && store.writable
  {
    var writes := [(File(ScanKey(thread)), ScanValue(scan))];
    assert DataWrites(writes) == [(ScanKey(thread), ScanValue(scan))];
    assert DataWrites(writes)[1..] == [];
    var _ := store.Commit(writes);
  }
}
