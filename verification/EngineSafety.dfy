/** What every reachable state of the lineage keeps, and what a committed extraction can and cannot overwrite. */
module EngineSafety {
  import opened Results
  import opened Domain
  import opened Store
  import opened MessageLog
  import opened Batching
  import opened Merge
  import opened TaskGraph
  import opened Engine

  // ---------------------------------------------------------------- the invariant

  ghost predicate Readable(files: Files, thread: string) {
    Messages(files, thread).Ok? && LogIs(files, thread, LogOf(files, thread))
  }

  /** "Extracted up to date" is only ever claimed when every message has been passed. */
  ghost predicate ScanGood(scan: ScanState) {
    && scan.extractedCount <= scan.messageCount
    && scan.extractedRevision <= scan.dirtyRevision
    && (scan.extractedRevision == scan.dirtyRevision ==> scan.extractedCount == scan.messageCount)
  }

  ghost predicate LogsGood(files: Files) {
    forall thread :: Readable(files, thread) && ScanGood(ScanOf(files, thread))
  }

  ghost predicate TaskGood(id: TaskId, t: Task) {
    t.id == id && t.rootThreadId == id.root && WellFormed(t)
  }

  ghost predicate TasksGood(files: Files) {
    forall id :: TaskAt(files, id).Some? ==> TaskGood(id, TaskAt(files, id).value)
  }

  ghost function LogIds(files: Files, thread: string): set<string> {
    set m | m in LogOf(files, thread) :: m.evidence.eventId
  }

  /** Every piece of evidence is a message in the current log of its thread. */
  ghost predicate Anchored(files: Files, t: Task) {
    forall pair :: pair in Pairs(t.episodes) ==> pair.1 in LogIds(files, pair.0)
  }

  ghost predicate EvidenceGood(files: Files) {
    forall id :: TaskAt(files, id).Some? ==> Anchored(files, TaskAt(files, id).value)
  }

  ghost predicate Inv(files: Files) {
    LogsGood(files) && TasksGood(files) && EvidenceGood(files)
  }

  // ---------------------------------------------------------------- frames

  /** The log of a thread depends on its count, its generation and its chunks of that generation only. */
  ghost predicate SameLog(before: Files, after: Files, thread: string) {
    && ScanOf(after, thread).messageCount == ScanOf(before, thread).messageCount
    && ScanOf(after, thread).cursor.generation == ScanOf(before, thread).cursor.generation
    && forall c :: SameAt(before, after, EventKey(thread, ScanOf(before, thread).cursor.generation, c))
  }

  lemma {:induction false} SameChunks(before: Files, after: Files, thread: string, generation: nat, count: nat)
    requires forall c :: SameAt(before, after, EventKey(thread, generation, c))
    ensures ReadChunks(after, thread, generation, count) == ReadChunks(before, thread, generation, count)
  {
    if count > 0 {
      SameChunks(before, after, thread, generation, count - 1);
      assert SameAt(before, after, EventKey(thread, generation, count - 1));
    }
  }

  lemma LogFrame(before: Files, after: Files, thread: string)
    requires SameLog(before, after, thread)
    ensures Messages(after, thread) == Messages(before, thread)
    ensures Readable(before, thread) ==> Readable(after, thread)
    ensures LogIds(after, thread) == LogIds(before, thread)
  {
    var scan := ScanOf(before, thread);
    SameChunks(before, after, thread, scan.cursor.generation, ChunkCount(scan.messageCount));
    if Readable(before, thread) {
      var log := LogOf(before, thread);
      forall c | 0 <= c < ChunkCount(|log|)
        ensures ChunkIs(after, thread, scan.cursor.generation, c, log)
      {
        assert ChunkIs(before, thread, scan.cursor.generation, c, log);
        assert SameAt(before, after, EventKey(thread, scan.cursor.generation, c));
      }
    }
  }

  /** A step that leaves all logs alone keeps whatever was anchored. */
  lemma AnchoredFrame(before: Files, after: Files, t: Task)
    requires Anchored(before, t) && forall thread :: LogIds(before, thread) <= LogIds(after, thread)
    ensures Anchored(after, t)
  {
  }

  // ---------------------------------------------------------------- scans

  lemma ScanShape(files: Files, thread: Thread, answer: Result<Batch, string>)
    requires LogsGood(files) && Honest(files, thread, answer) && answer.Ok?
    ensures
      var scan := ScanOf(files, thread.id);
      var batch := Effective(scan, answer.value);
      && (batch.reset ==> batch.cursor.generation > scan.cursor.generation)
      && (!batch.reset ==> batch.cursor.generation == scan.cursor.generation)
      && Tail(files, thread.id, batch).Some?
  {
    var scan := ScanOf(files, thread.id);
    var batch := Effective(scan, answer.value);
    assert Readable(files, thread.id);
    if !batch.reset {
      TailOfLog(files, thread.id, batch, LogOf(files, thread.id));
    }
  }

  /** What a scan with news leaves of the logs: the scanned one appended or restarted, the others as they were. */
  lemma ScanLogs(files: Files, thread: Thread, batch: Batch, listing: seq<TaskId>, at: int, t: string)
    requires LogsGood(files) && IsListing(files, listing)
    requires !batch.reset ==> batch.cursor.generation == ScanOf(files, thread.id).cursor.generation
    ensures Tail(files, thread.id, batch).Some?
    ensures
      var after := Overlay(files, ScanWrites(files, thread, batch, Tail(files, thread.id, batch).value, listing, at));
      && Readable(after, t)
      && LogOf(after, t) == (if t != thread.id then LogOf(files, t)
                             else (if batch.reset then [] else LogOf(files, t)) + batch.messages)
      && (t != thread.id ==> ScanOf(after, t) == ScanOf(files, t))
  {
    assert Readable(files, thread.id) && Readable(files, t);
    var log := LogOf(files, thread.id);
    if batch.reset {
      ScanResets(files, thread, batch, listing, at);
      assert [] + batch.messages == batch.messages;
    } else {
      ScanAppends(files, thread, batch, listing, at, log);
    }
    var tail := Tail(files, thread.id, batch).value;
    var after := Overlay(files, ScanWrites(files, thread, batch, tail, listing, at));
    if t == thread.id {
      LogIsRead(after, t, (if batch.reset then [] else log) + batch.messages);
    } else {
      ScanKeepsOtherLogs(files, thread, batch, tail, listing, at, t, LogOf(files, t));
      LogIsRead(after, t, LogOf(files, t));
    }
  }

  lemma ScanKeepsScanGood(files: Files, thread: Thread, batch: Batch, listing: seq<TaskId>, at: int)
    requires LogsGood(files) && IsListing(files, listing)
    requires !batch.reset ==> batch.cursor.generation == ScanOf(files, thread.id).cursor.generation
    ensures Tail(files, thread.id, batch).Some?
    ensures
      var after := Overlay(files, ScanWrites(files, thread, batch, Tail(files, thread.id, batch).value, listing, at));
      var scan, scan' := ScanOf(files, thread.id), ScanOf(after, thread.id);
      && ScanGood(scan')
      && scan'.cursor == batch.cursor
      && scan'.dirtyRevision == scan.dirtyRevision + (if batch.reset || batch.messages != [] then 1 else 0)
      && scan'.extractedRevision == scan.extractedRevision
      && scan'.extractedCount == (if batch.reset then 0 else scan.extractedCount)
  {
    ScanLogs(files, thread, batch, listing, at, thread.id);
    var tail := Tail(files, thread.id, batch).value;
    ScanWrote(files, thread, batch, tail, listing, at);
    assert Readable(files, thread.id) && ScanGood(ScanOf(files, thread.id));
  }

  lemma ScanKeepsTasks(files: Files, thread: Thread, batch: Batch, listing: seq<TaskId>, at: int, id: TaskId)
    requires Inv(files) && IsListing(files, listing)
    requires !batch.reset ==> batch.cursor.generation == ScanOf(files, thread.id).cursor.generation
    ensures Tail(files, thread.id, batch).Some?
    ensures
      var after := Overlay(files, ScanWrites(files, thread, batch, Tail(files, thread.id, batch).value, listing, at));
      TaskAt(after, id).Some? ==> TaskGood(id, TaskAt(after, id).value) && Anchored(after, TaskAt(after, id).value)
  {
    ScanLogs(files, thread, batch, listing, at, thread.id);
    var tail := Tail(files, thread.id, batch).value;
    var after := Overlay(files, ScanWrites(files, thread, batch, tail, listing, at));
    ScanTasks(files, thread, batch, tail, listing, at, id);
    if TaskAt(after, id).Some? {
      var t := TaskAt(files, id).value;
      assert TaskGood(id, t) && Anchored(files, t);
      if batch.reset {
        PruneSound(t, thread.id);
      }
      var t' := TaskAt(after, id).value;
      forall pair | pair in Pairs(t'.episodes)
        ensures pair.1 in LogIds(after, pair.0)
      {
        assert pair in Pairs(t.episodes);
        assert pair.1 in LogIds(files, pair.0);
        ScanLogs(files, thread, batch, listing, at, pair.0);
      }
    }
  }

  /** Only the last error of one scan differs. */
  lemma ErrorKeepsInv(files: Files, thread: string, scan: ScanState)
    requires Inv(files)
    requires scan.messageCount == ScanOf(files, thread).messageCount && scan.cursor == ScanOf(files, thread).cursor
    requires ScanGood(scan)
    ensures Inv(files[ScanKey(thread) := ScanValue(scan)])
    ensures forall t :: Messages(files[ScanKey(thread) := ScanValue(scan)], t) == Messages(files, t)
  {
    var after := files[ScanKey(thread) := ScanValue(scan)];
    forall t
      ensures Readable(after, t) && ScanGood(ScanOf(after, t)) && LogIds(after, t) == LogIds(files, t)
      ensures Messages(after, t) == Messages(files, t)
    {
      assert Readable(files, t) && ScanGood(ScanOf(files, t));
      LogFrame(files, after, t);
    }
    TasksFrame(files, after);
  }

  lemma TasksFrame(before: Files, after: Files)
    requires TasksGood(before) && EvidenceGood(before)
    requires forall id :: TaskAt(after, id) == TaskAt(before, id)
    requires forall thread :: LogIds(after, thread) == LogIds(before, thread)
    ensures TasksGood(after) && EvidenceGood(after)
  {
    forall id | TaskAt(after, id).Some?
      ensures TaskGood(id, TaskAt(after, id).value) && Anchored(after, TaskAt(after, id).value)
    {
      assert TaskAt(before, id).Some?;
      AnchoredFrame(before, after, TaskAt(before, id).value);
    }
  }

  lemma ScanKeepsInv(files: Files, thread: Thread, answer: Result<Batch, string>, listing: seq<TaskId>, at: int)
    requires Inv(files) && Honest(files, thread, answer) && IsListing(files, listing)
    ensures Scanned(files, thread, answer, listing, at).Ok?
    ensures Inv(Scanned(files, thread, answer, listing, at).value)
  {
    if answer.Err? {
      assert ScanGood(ScanOf(files, thread.id));
      ErrorKeepsInv(files, thread.id, ScanOf(files, thread.id).(lastError := Some(answer.error)));
    } else {
      var batch := Effective(ScanOf(files, thread.id), answer.value);
      ScanShape(files, thread, answer);
      if !Unchanged(files, thread, batch) {
        var after := Overlay(files, ScanWrites(files, thread, batch, Tail(files, thread.id, batch).value, listing, at));
        ScanKeepsScanGood(files, thread, batch, listing, at);
        forall t
          ensures Readable(after, t) && ScanGood(ScanOf(after, t))
        {
          assert ScanGood(ScanOf(files, t));
          ScanLogs(files, thread, batch, listing, at, t);
        }
        forall id | TaskAt(after, id).Some?
          ensures TaskGood(id, TaskAt(after, id).value) && Anchored(after, TaskAt(after, id).value)
        {
          ScanKeepsTasks(files, thread, batch, listing, at, id);
        }
      }
    }
  }

  // ---------------------------------------------------------------- completions

  lemma CompletionKeepsInv(files: Files, id: TaskId, expected: nat, completed: bool)
    requires Inv(files) && AfterCompletion(files, id, expected, completed).Ok?
    ensures Inv(AfterCompletion(files, id, expected, completed).value)
    ensures forall t :: Messages(AfterCompletion(files, id, expected, completed).value, t) == Messages(files, t)
  {
    var after := AfterCompletion(files, id, expected, completed).value;
    forall t
      ensures Readable(after, t) && ScanGood(ScanOf(after, t)) && LogIds(after, t) == LogIds(files, t)
      ensures Messages(after, t) == Messages(files, t)
    {
      assert Readable(files, t) && ScanGood(ScanOf(files, t));
      LogFrame(files, after, t);
    }
    forall other | TaskAt(after, other).Some?
      ensures TaskGood(other, TaskAt(after, other).value) && Anchored(after, TaskAt(after, other).value)
    {
      assert TaskGood(other, TaskAt(files, other).value) && Anchored(files, TaskAt(files, other).value);
      AnchoredFrame(files, after, TaskAt(after, other).value);
    }
  }

  lemma TreeKeepsInv(files: Files, threads: seq<Thread>, links: seq<Link>)
    requires Inv(files)
    ensures Inv(files[TreeKey := TreeValue(threads)][LineageKey := LinksValue(links)])
    ensures forall t :: Messages(files[TreeKey := TreeValue(threads)][LineageKey := LinksValue(links)], t) == Messages(files, t)
  {
    var after := files[TreeKey := TreeValue(threads)][LineageKey := LinksValue(links)];
    forall t
      ensures Readable(after, t) && ScanGood(ScanOf(after, t)) && LogIds(after, t) == LogIds(files, t)
      ensures Messages(after, t) == Messages(files, t)
    {
      assert Readable(files, t) && ScanGood(ScanOf(files, t));
      LogFrame(files, after, t);
    }
    TasksFrame(files, after);
  }

  // ---------------------------------------------------------------- the extraction in flight

  /** A stored task against the copy an extraction took: later revision, or still the very same value. */
  ghost predicate NotOlder(files: Files, t: Task) {
    && TaskAt(files, t.id).Some?
    && t.revision <= TaskAt(files, t.id).value.revision
    && (t.revision == TaskAt(files, t.id).value.revision ==> TaskAt(files, t.id).value == t)
  }

  ghost predicate Prefix<T>(a: seq<T>, b: seq<T>) {
    a <= b
  }

  /** The current scan and log against what the extraction read. */
  ghost predicate NotRewound(files: Files, f: Flight) {
    var scan := ScanOf(files, f.thread);
    && f.scan.cursor.generation <= scan.cursor.generation
    && f.scan.dirtyRevision <= scan.dirtyRevision
    && (f.scan.cursor.generation == scan.cursor.generation ==>
          && Prefix(f.log, LogOf(files, f.thread))
          && scan.extractedRevision == f.scan.extractedRevision
          && (f.scan.dirtyRevision == scan.dirtyRevision ==> LogOf(files, f.thread) == f.log))
  }

  ghost predicate FlightGood(files: Files, f: Flight) {
    && f.scan.extractedCount < f.scan.messageCount == |f.log|
    && ScanGood(f.scan)
    && IsBatch(f.log, f.scan.extractedCount, f.now, f.picked, f.end)
    && Candidates(f.root, f.candidates)
    && (forall i :: 0 <= i < |f.candidates| ==> NotOlder(files, f.candidates[i]))
    && NotRewound(files, f)
  }

  ghost predicate Good(s: State) {
    Inv(s.files) && (s.flight.Some? ==> FlightGood(s.files, s.flight.value))
  }

  /**
    What the environment may do to the files while an extraction is in flight: a changed task has a
    later revision, and a log is only ever appended to within its generation.
   */
  ghost predicate Moves(before: Files, after: Files) {
    && TasksMove(before, after)
    && (forall t :: LogMoves(before, after, t))
  }

  ghost predicate LogMoves(before: Files, after: Files, t: string) {
    var scan, scan' := ScanOf(before, t), ScanOf(after, t);
    && scan.cursor.generation <= scan'.cursor.generation
    && scan.dirtyRevision <= scan'.dirtyRevision
    && (scan.cursor.generation == scan'.cursor.generation ==>
          && Prefix(LogOf(before, t), LogOf(after, t))
          && scan'.extractedRevision == scan.extractedRevision
          && (scan.dirtyRevision == scan'.dirtyRevision ==> LogOf(after, t) == LogOf(before, t)))
  }

  lemma MovesKeepFlight(before: Files, after: Files, f: Flight)
    requires FlightGood(before, f) && Moves(before, after)
    ensures FlightGood(after, f)
  {
    assert LogMoves(before, after, f.thread);
    forall i | 0 <= i < |f.candidates|
      ensures NotOlder(after, f.candidates[i])
    {
      assert NotOlder(before, f.candidates[i]);
      assert TaskAt(before, f.candidates[i].id).Some?;
    }
  }

  /** The environment steps: every one of them moves the files forward only. */
  lemma EnvironmentMoves(s: State, e: Event, s': State)
    requires Inv(s.files) && LineageStep(s, e, s') && Environment(e)
    ensures Moves(s.files, s'.files)
  {
    match e
    case Scan(thread, answer, listing, at) => ScanMoves(s.files, thread, answer, listing, at);
    case Tree(threads, links) =>
      TreeKeepsInv(s.files, threads, links);
    case Complete(id, expected, completed) =>
      if AfterCompletion(s.files, id, expected, completed).Ok? {
        CompletionMoves(s.files, id, expected, completed);
      }
  }

  ghost predicate Environment(e: Event) {
    e.Scan? || e.Tree? || e.Complete?
  }

  /** What the other processes do between two states while an extraction leaves them the lock. */
  ghost predicate EnvironmentRun(states: seq<State>, events: seq<Event>) {
    && |states| == |events| + 1
    && forall i :: 0 <= i < |events| ==> StepAt(states, events, i) && Environment(events[i])
  }

  ghost predicate StepAt(states: seq<State>, events: seq<Event>, i: nat)
    requires i < |events| < |states|
  {
    LineageStep(states[i], events[i], states[i + 1])
  }

  lemma LogMovesOn(a: Files, b: Files, c: Files, t: string)
    requires LogMoves(a, b, t) && LogMoves(b, c, t)
    ensures LogMoves(a, c, t)
  {
  }

  lemma MovesCompose(a: Files, b: Files, c: Files)
    requires Moves(a, b) && Moves(b, c)
    ensures Moves(a, c)
  {
    forall t
      ensures LogMoves(a, c, t)
    {
      assert LogMoves(a, b, t) && LogMoves(b, c, t);
      LogMovesOn(a, b, c, t);
    }
    forall id | TaskAt(a, id).Some?
      ensures TaskAt(c, id).Some? && TaskAt(a, id).value.revision <= TaskAt(c, id).value.revision
      ensures TaskAt(a, id).value.revision == TaskAt(c, id).value.revision ==> TaskAt(c, id) == TaskAt(a, id)
    {
      assert TaskAt(b, id).Some?;
    }
  }

  lemma EnvironmentKeepsInv(s: State, e: Event, s': State)
    requires Inv(s.files) && LineageStep(s, e, s') && Environment(e)
    ensures Inv(s'.files)
  {
    match e
    case Scan(thread, answer, listing, at) => ScanKeepsInv(s.files, thread, answer, listing, at);
    case Tree(threads, links) => TreeKeepsInv(s.files, threads, links);
    case Complete(id, expected, completed) =>
      if AfterCompletion(s.files, id, expected, completed).Ok? {
        CompletionKeepsInv(s.files, id, expected, completed);
      }
  }

  /** However many scans, tree updates and completions run: they keep the invariant and only move forward. */
  lemma {:induction false} EnvironmentRunMoves(states: seq<State>, events: seq<Event>, n: nat)
    requires EnvironmentRun(states, events) && Inv(states[0].files) && n < |states|
    ensures Inv(states[n].files) && Moves(states[0].files, states[n].files)
    ensures states[n].flight == states[0].flight
  {
    if n > 0 {
      EnvironmentRunMoves(states, events, n - 1);
      assert StepAt(states, events, n - 1);
      EnvironmentKeepsInv(states[n - 1], events[n - 1], states[n]);
      EnvironmentMoves(states[n - 1], events[n - 1], states[n]);
      MovesCompose(states[0].files, states[n - 1].files, states[n].files);
    }
  }

  lemma CompletionMoves(files: Files, id: TaskId, expected: nat, completed: bool)
    requires Inv(files) && AfterCompletion(files, id, expected, completed).Ok?
    ensures Moves(files, AfterCompletion(files, id, expected, completed).value)
  {
    CompletionKeepsInv(files, id, expected, completed);
    assert TaskGood(id, TaskAt(files, id).value);
  }

  lemma ScanMoves(files: Files, thread: Thread, answer: Result<Batch, string>, listing: seq<TaskId>, at: int)
    requires Inv(files) && Honest(files, thread, answer) && IsListing(files, listing)
    ensures Scanned(files, thread, answer, listing, at).Ok?
    ensures Moves(files, Scanned(files, thread, answer, listing, at).value)
  {
    ScanKeepsInv(files, thread, answer, listing, at);
    if answer.Err? {
      ErrorMoves(files, thread.id, answer.error);
    } else {
      var batch := Effective(ScanOf(files, thread.id), answer.value);
      ScanShape(files, thread, answer);
      if !Unchanged(files, thread, batch) {
        var tail := Tail(files, thread.id, batch).value;
        forall t
          ensures LogMoves(files, Overlay(files, ScanWrites(files, thread, batch, tail, listing, at)), t)
        {
          ScanMovesLog(files, thread, batch, listing, at, t);
        }
        ScanMovesTasks(files, thread, batch, tail, listing, at);
      }
    }
  }

  lemma ErrorMoves(files: Files, thread: string, error: string)
    requires Inv(files)
    ensures Moves(files, files[ScanKey(thread) := ScanValue(ScanOf(files, thread).(lastError := Some(error)))])
  {
    assert ScanGood(ScanOf(files, thread));
    ErrorKeepsInv(files, thread, ScanOf(files, thread).(lastError := Some(error)));
  }

  lemma ScanMovesLog(files: Files, thread: Thread, batch: Batch, listing: seq<TaskId>, at: int, t: string)
    requires LogsGood(files) && IsListing(files, listing)
    requires batch.reset ==> batch.cursor.generation > ScanOf(files, thread.id).cursor.generation
    requires !batch.reset ==> batch.cursor.generation == ScanOf(files, thread.id).cursor.generation
    ensures Tail(files, thread.id, batch).Some?
    ensures LogMoves(files, Overlay(files, ScanWrites(files, thread, batch, Tail(files, thread.id, batch).value, listing, at)), t)
  {
    ScanLogs(files, thread, batch, listing, at, t);
    if t == thread.id {
      ScanKeepsScanGood(files, thread, batch, listing, at);
      if batch.messages == [] {
        assert LogOf(files, t) + batch.messages == LogOf(files, t);
      }
    }
  }

  ghost predicate TasksMove(before: Files, after: Files) {
    forall id :: TaskAt(before, id).Some? ==>
      && TaskAt(after, id).Some?
      && TaskAt(before, id).value.revision <= TaskAt(after, id).value.revision
      && (TaskAt(before, id).value.revision == TaskAt(after, id).value.revision ==> TaskAt(after, id) == TaskAt(before, id))
  }

  lemma ScanMovesTasks(files: Files, thread: Thread, batch: Batch, tail: seq<Message>, listing: seq<TaskId>, at: int)
    requires IsListing(files, listing)
    ensures TasksMove(files, Overlay(files, ScanWrites(files, thread, batch, tail, listing, at)))
  {
    var after := Overlay(files, ScanWrites(files, thread, batch, tail, listing, at));
    forall id | TaskAt(files, id).Some?
      ensures TaskAt(after, id).Some?
      ensures TaskAt(after, id) == TaskAt(files, id)
              || TaskAt(after, id).value.revision == TaskAt(files, id).value.revision + 1
    {
      ScanTasks(files, thread, batch, tail, listing, at, id);
      PruneKeepsUnlessShorter(TaskAt(files, id).value, thread.id);
    }
  }

  lemma {:induction false} CandidatesComplete(files: Files, listing: seq<TaskId>, root: string, id: TaskId)
    requires TasksGood(files) && id in listing && TaskAt(files, id).Some? && TaskAt(files, id).value.rootThreadId == root
    ensures exists i :: 0 <= i < |CandidatesOf(files, listing, root)| && CandidatesOf(files, listing, root)[i].id == id
    decreases |listing|
  {
    var front, last := listing[..|listing| - 1], listing[|listing| - 1];
    var cf, c := CandidatesOf(files, front, root), CandidatesOf(files, listing, root);
    if id == last {
      assert TaskGood(last, TaskAt(files, last).value);
      assert c[|c| - 1].id == id;
    } else {
      assert listing == front + [last];
      CandidatesComplete(files, front, root, id);
      var i :| 0 <= i < |cf| && cf[i].id == id;
      assert c[i].id == id;
    }
  }

  lemma {:induction false} CandidatesListed(files: Files, listing: seq<TaskId>, root: string)
    requires TasksGood(files) && forall i, j :: 0 <= i < j < |listing| ==> listing[i] != listing[j]
    ensures Candidates(root, CandidatesOf(files, listing, root))
    ensures forall i :: 0 <= i < |CandidatesOf(files, listing, root)| ==>
              CandidatesOf(files, listing, root)[i].id in listing
              && TaskAt(files, CandidatesOf(files, listing, root)[i].id) == Some(CandidatesOf(files, listing, root)[i])
    decreases |listing|
  {
    if listing != [] {
      var front, last := listing[..|listing| - 1], listing[|listing| - 1];
      assert listing == front + [last];
      CandidatesListed(files, front, root);
      if TaskAt(files, last).Some? {
        assert TaskGood(last, TaskAt(files, last).value);
      }
    }
  }

  lemma CandidatesAre(files: Files, listing: seq<TaskId>, root: string)
    requires TasksGood(files) && forall i, j :: 0 <= i < j < |listing| ==> listing[i] != listing[j]
    ensures Candidates(root, CandidatesOf(files, listing, root))
    ensures forall i :: 0 <= i < |CandidatesOf(files, listing, root)| ==>
              CandidatesOf(files, listing, root)[i].id in listing
              && TaskAt(files, CandidatesOf(files, listing, root)[i].id) == Some(CandidatesOf(files, listing, root)[i])
    ensures forall id :: id in listing && TaskAt(files, id).Some? && TaskAt(files, id).value.rootThreadId == root ==>
              exists i :: 0 <= i < |CandidatesOf(files, listing, root)| && CandidatesOf(files, listing, root)[i].id == id
  {
    CandidatesListed(files, listing, root);
    forall id | id in listing && TaskAt(files, id).Some? && TaskAt(files, id).value.rootThreadId == root
      ensures exists i :: 0 <= i < |CandidatesOf(files, listing, root)| && CandidatesOf(files, listing, root)[i].id == id
    {
      CandidatesComplete(files, listing, root, id);
    }
  }

  lemma BeginIsGood(files: Files, f: Flight, listing: seq<TaskId>)
    requires Inv(files) && Begins(files, f, listing)
    ensures FlightGood(files, f)
  {
    CandidatesAre(files, listing, f.root);
    assert ScanGood(ScanOf(files, f.thread)) && Readable(files, f.thread);
  }

  // ---------------------------------------------------------------- the commit

  lemma SourceIsLogged(files: Files, f: Flight)
    requires FlightGood(files, f) && ScanStillValid(files, f)
    ensures SourceOf(Supply(f.log, f.picked)).Keys <= LogIds(files, f.thread)
  {
    var input := Supply(f.log, f.picked);
    forall id | id in SourceOf(input)
      ensures id in LogIds(files, f.thread)
    {
      var i :| 0 <= i < |input| && input[i].evidence.eventId == id;
      assert f.log[f.picked[i]] in LogOf(files, f.thread);
    }
  }

  lemma AcceptedDeltas(files: Files, f: Flight, deltas: seq<TaskDelta>)
    requires FlightGood(files, f) && AcceptsResult(files, f, deltas)
    ensures forall d :: d in deltas ==> Supplied(ContextOf(files, f), d)
    ensures forall d :: d in deltas ==> ValidFor(ContextOf(files, f), f.candidates, d)
  {
    var ctx := ContextOf(files, f);
    var ids := set i | 0 <= i < |f.candidates| :: f.candidates[i].id;
    forall d | d in deltas
      ensures Supplied(ctx, d) && ValidFor(ctx, f.candidates, d)
    {
      assert ValidDelta(d, ctx.source.Keys, ids);
      ValidIsSupplied(ctx, d, ctx.source.Keys, ids);
    }
  }

  /** The tasks a commit writes. */
  ghost function Written(files: Files, f: Flight, deltas: seq<TaskDelta>, offsets: map<string, nat>): seq<Task>
    requires forall i :: 0 <= i < |f.picked| ==> f.picked[i] < |f.log|
    requires forall d :: d in deltas ==> Supplied(ContextOf(files, f), d)
  {
    LinkAll(Merged(files, f, deltas), LinksAt(files, LineageKey), offsets)
  }

  lemma WrittenAre(files: Files, f: Flight, deltas: seq<TaskDelta>, offsets: map<string, nat>)
    requires FlightGood(files, f) && AcceptsResult(files, f, deltas)
    ensures forall d :: d in deltas ==> Supplied(ContextOf(files, f), d)
    ensures Candidates(f.root, Written(files, f, deltas, offsets))
    ensures Extends(ContextOf(files, f), f.candidates, Written(files, f, deltas, offsets))
  {
    AcceptedDeltas(files, f, deltas);
    MergeAllSound(ContextOf(files, f), f.candidates, deltas);
    LinkAllSound(ContextOf(files, f), f.candidates, Merged(files, f, deltas), LinksAt(files, LineageKey), offsets);
  }

  /** What a commit overwrites: each candidate by a value made from exactly what is stored, new tasks where nothing is. */
  lemma OverwritesOnlyWhatItRead(files: Files, f: Flight, deltas: seq<TaskDelta>, offsets: map<string, nat>)
    requires Inv(files) && FlightGood(files, f) && AcceptsResult(files, f, deltas)
    ensures forall d :: d in deltas ==> Supplied(ContextOf(files, f), d)
    ensures forall i :: 0 <= i < |Written(files, f, deltas, offsets)| ==>
              TaskAt(files, Written(files, f, deltas, offsets)[i].id)
              == if i < |f.candidates| then Some(f.candidates[i]) else None
  {
    WrittenAre(files, f, deltas, offsets);
    var w := Written(files, f, deltas, offsets);
    forall i | 0 <= i < |w|
      ensures TaskAt(files, w[i].id) == if i < |f.candidates| then Some(f.candidates[i]) else None
    {
      if i < |f.candidates| {
        assert NotOlder(files, f.candidates[i]);
      } else {
        assert forall j :: 0 <= j < |f.candidates| ==> f.candidates[j].id == w[j].id && w[j].id != w[i].id;
        assert TaskAt(files, w[i].id).Some? ==> TaskGood(w[i].id, TaskAt(files, w[i].id).value);
      }
    }
  }

  /** The three files a commit writes beside the tasks. */
  function OwnWrites(files: Files, f: Flight, job: string, usage: string): seq<(Key, Value)> {
    [(ScanKey(f.thread), ScanValue(ScanAfter(ScanOf(files, f.thread), f))),
     (OtherKey("extraction-revisions/" + job), OtherValue(usage)), (OtherKey("latest-extraction.json"), OtherValue(usage))]
  }

  lemma OwnKeys(files: Files, f: Flight, job: string, usage: string)
    ensures DistinctKeys(OwnWrites(files, f, job, usage))
    ensures forall k :: k in KeysOf(OwnWrites(files, f, job, usage)) ==> k == ScanKey(f.thread) || k.OtherKey?
  {
    var own := OwnWrites(files, f, job, usage);
    assert own[1].0.name[10] != own[2].0.name[10];
  }

  lemma FinishDistinct(files: Files, f: Flight, tasks: seq<Task>, job: string, usage: string)
    requires Candidates(f.root, tasks)
    ensures FinishWrites(files, f, tasks, job, usage) == TaskWrites(tasks) + OwnWrites(files, f, job, usage)
    ensures DistinctKeys(FinishWrites(files, f, tasks, job, usage))
  {
    OwnKeys(files, f, job, usage);
    var t, own := TaskWrites(tasks), OwnWrites(files, f, job, usage);
    var all := t + own;
    forall i, j | 0 <= i < j < |all|
      ensures all[i].0 != all[j].0
    {
      if i < |t| <= j {
        assert own[j - |t|].0 in KeysOf(own);
      }
    }
  }

  lemma FinishReads(files: Files, f: Flight, tasks: seq<Task>, job: string, usage: string, id: TaskId)
    requires Candidates(f.root, tasks)
    ensures
      var after := Overlay(files, FinishWrites(files, f, tasks, job, usage));
      && ScanOf(after, f.thread) == ScanAfter(ScanOf(files, f.thread), f)
      && (forall i :: 0 <= i < |tasks| && tasks[i].id == id ==> TaskAt(after, id) == Some(tasks[i]))
      && ((forall i :: 0 <= i < |tasks| ==> tasks[i].id != id) ==> TaskAt(after, id) == TaskAt(files, id))
  {
    var w := FinishWrites(files, f, tasks, job, usage);
    FinishDistinct(files, f, tasks, job, usage);
    OverlayPair(files, w, OwnWrites(files, f, job, usage)[0]);
    forall i | 0 <= i < |tasks| && tasks[i].id == id
      ensures TaskAt(Overlay(files, w), id) == Some(tasks[i])
    {
      assert TaskWrites(tasks)[i] == (TaskKey(id), TaskValue(tasks[i]));
      OverlayPair(files, w, (TaskKey(id), TaskValue(tasks[i])));
    }
    if forall i :: 0 <= i < |tasks| ==> tasks[i].id != id {
      FinishSpares(files, f, tasks, job, usage, TaskKey(id));
    }
  }

  lemma FinishSpares(files: Files, f: Flight, tasks: seq<Task>, job: string, usage: string, k: Key)
    requires Candidates(f.root, tasks) && k != ScanKey(f.thread) && !k.OtherKey?
    requires k.TaskKey? ==> forall i :: 0 <= i < |tasks| ==> tasks[i].id != k.task
    ensures SameAt(files, Overlay(files, FinishWrites(files, f, tasks, job, usage)), k)
  {
    FinishDistinct(files, f, tasks, job, usage);
    OverlayDistinct(files, FinishWrites(files, f, tasks, job, usage));
    KeysOfConcat(TaskWrites(tasks), OwnWrites(files, f, job, usage));
    TaskKeys(tasks);
    OwnKeys(files, f, job, usage);
  }

  lemma TaskKeys(tasks: seq<Task>)
    ensures forall k :: k in KeysOf(TaskWrites(tasks)) <==> exists i :: 0 <= i < |tasks| && k == TaskKey(tasks[i].id)
  {
    forall i | 0 <= i < |tasks|
      ensures TaskKey(tasks[i].id) in KeysOf(TaskWrites(tasks))
    {
      assert TaskWrites(tasks)[i].0 == TaskKey(tasks[i].id);
    }
  }

  lemma FinishKeepsInv(files: Files, f: Flight, deltas: seq<TaskDelta>, offsets: map<string, nat>, job: string, usage: string)
    requires Inv(files) && FlightGood(files, f) && AcceptsResult(files, f, deltas)
    ensures forall d :: d in deltas ==> Supplied(ContextOf(files, f), d)
    ensures Inv(Overlay(files, FinishWrites(files, f, Written(files, f, deltas, offsets), job, usage)))
  {
    WrittenAre(files, f, deltas, offsets);
    var w := Written(files, f, deltas, offsets);
    var after := Overlay(files, FinishWrites(files, f, w, job, usage));
    forall t
      ensures Readable(after, t) && ScanGood(ScanOf(after, t)) && LogIds(after, t) == LogIds(files, t)
    {
      FinishKeepsLog(files, f, w, job, usage, t);
    }
    forall id | TaskAt(after, id).Some?
      ensures TaskGood(id, TaskAt(after, id).value) && Anchored(after, TaskAt(after, id).value)
    {
      FinishKeepsTask(files, f, deltas, offsets, job, usage, id);
      AnchoredFrame(files, after, TaskAt(after, id).value);
    }
  }

  lemma FinishKeepsLog(files: Files, f: Flight, w: seq<Task>, job: string, usage: string, t: string)
    requires LogsGood(files) && FlightGood(files, f) && ScanStillValid(files, f) && Candidates(f.root, w)
    ensures var after := Overlay(files, FinishWrites(files, f, w, job, usage));
            Readable(after, t) && ScanGood(ScanOf(after, t)) && LogIds(after, t) == LogIds(files, t)
  {
    var after := Overlay(files, FinishWrites(files, f, w, job, usage));
    assert Readable(files, t) && ScanGood(ScanOf(files, t));
    FinishReads(files, f, w, job, usage, TaskId("", "", ""));
    if t != f.thread {
      FinishSpares(files, f, w, job, usage, ScanKey(t));
    }
    forall c
      ensures SameAt(files, after, EventKey(t, ScanOf(files, t).cursor.generation, c))
    {
      FinishSpares(files, f, w, job, usage, EventKey(t, ScanOf(files, t).cursor.generation, c));
    }
    LogFrame(files, after, t);
  }

  lemma FinishKeepsTask(
    files: Files, f: Flight, deltas: seq<TaskDelta>, offsets: map<string, nat>, job: string, usage: string, id: TaskId)
    requires Inv(files) && FlightGood(files, f) && AcceptsResult(files, f, deltas)
    requires forall d :: d in deltas ==> Supplied(ContextOf(files, f), d)
    ensures var after := Overlay(files, FinishWrites(files, f, Written(files, f, deltas, offsets), job, usage));
            TaskAt(after, id).Some? ==> TaskGood(id, TaskAt(after, id).value) && Anchored(files, TaskAt(after, id).value)
  {
    WrittenAre(files, f, deltas, offsets);
    var w := Written(files, f, deltas, offsets);
    FinishReads(files, f, w, job, usage, id);
    if i :| 0 <= i < |w| && w[i].id == id {
      WrittenAnchored(files, f, deltas, offsets, i);
    } else if TaskAt(files, id).Some? {
      assert TaskGood(id, TaskAt(files, id).value) && Anchored(files, TaskAt(files, id).value);
    }
  }

  lemma WrittenAnchored(files: Files, f: Flight, deltas: seq<TaskDelta>, offsets: map<string, nat>, i: nat)
    requires Inv(files) && FlightGood(files, f) && AcceptsResult(files, f, deltas)
    requires forall d :: d in deltas ==> Supplied(ContextOf(files, f), d)
    requires i < |Written(files, f, deltas, offsets)|
    ensures Anchored(files, Written(files, f, deltas, offsets)[i])
  {
    WrittenAre(files, f, deltas, offsets);
    SourceIsLogged(files, f);
    OverwritesOnlyWhatItRead(files, f, deltas, offsets);
    var w := Written(files, f, deltas, offsets);
    forall pair | pair in Pairs(w[i].episodes)
      ensures pair.1 in LogIds(files, pair.0)
    {
      if i < |f.candidates| && pair in Pairs(f.candidates[i].episodes) {
        assert TaskAt(files, w[i].id) == Some(f.candidates[i]);
        assert Anchored(files, f.candidates[i]);
      }
    }
  }

  // ---------------------------------------------------------------- every step, every run

  lemma NothingNewKeepsInv(files: Files, name: string)
    requires Inv(files)
    ensures Inv(files[ScanKey(name) := ScanValue(ScanOf(files, name).(
              extractedCount := |LogOf(files, name)|, extractedRevision := ScanOf(files, name).dirtyRevision, lastError := None))])
  {
    assert Readable(files, name);
    var scan := ScanOf(files, name);
    ErrorKeepsInv(files, name, scan.(
      extractedCount := |LogOf(files, name)|, extractedRevision := scan.dirtyRevision, lastError := None));
  }

  lemma StepKeepsGood(s: State, e: Event, s': State)
    requires Good(s) && LineageStep(s, e, s')
    ensures Good(s')
  {
    match e
    case Scan(_, _, _, _) => EnvironmentStep(s, e, s');
    case Tree(_, _) => EnvironmentStep(s, e, s');
    case Complete(_, _, _) => EnvironmentStep(s, e, s');
    case NothingNew(name, at) =>
      NothingNewKeepsInv(s.files, name);
    case Begin(flight, listing) =>
      BeginIsGood(s.files, flight, listing);
    case Failed(error) =>
      var thread := s.flight.value.thread;
      assert ScanGood(ScanOf(s.files, thread));
      ErrorKeepsInv(s.files, thread, ScanOf(s.files, thread).(lastError := Some(error)));
    case Finish(deltas, offsets, job, usage) =>
      if AcceptsResult(s.files, s.flight.value, deltas) {
        FinishKeepsInv(s.files, s.flight.value, deltas, offsets, job, usage);
      }
    case Crash =>
  }

  lemma EnvironmentStep(s: State, e: Event, s': State)
    requires Good(s) && LineageStep(s, e, s') && Environment(e)
    ensures Good(s')
  {
    EnvironmentKeepsInv(s, e, s');
    EnvironmentMoves(s, e, s');
    if s.flight.Some? {
      MovesKeepFlight(s.files, s'.files, s.flight.value);
    }
  }

  ghost predicate LineageRun(states: seq<State>, events: seq<Event>) {
    && |states| == |events| + 1
    && states[0] == State(map[], None)
    && forall i :: 0 <= i < |events| ==> StepAt(states, events, i)
  }

  /**
    Safety over whole runs, from the empty store: logs stay readable, tasks well formed, all evidence
    anchored in current logs, and an extraction in flight never newer than what is stored.
   */
  lemma {:induction false} RunsAreGood(states: seq<State>, events: seq<Event>, n: nat)
    requires LineageRun(states, events) && n < |states|
    ensures Good(states[n])
  {
    if n == 0 {
      EmptyIsGood();
    } else {
      RunsAreGood(states, events, n - 1);
      assert StepAt(states, events, n - 1);
      StepKeepsGood(states[n - 1], events[n - 1], states[n]);
    }
  }

  lemma EmptyIsGood()
    ensures Good(State(map[], None))
  {
    var files: Files := map[];
    forall thread
      ensures Readable(files, thread) && ScanGood(ScanOf(files, thread))
    {
    }
  }

  /**
    No lost update: an extraction that commits after any interleaving replaces each stored task only by a
    value computed from that very task, adds tasks only under free ids, and leaves every other task alone.
   */
  lemma CommitLosesNoUpdate(s: State, e: Event, s': State, id: TaskId)
    requires Good(s) && LineageStep(s, e, s') && e.Finish?
    ensures TaskAt(s.files, id).Some? ==> TaskAt(s'.files, id).Some?
    ensures TaskAt(s'.files, id) != TaskAt(s.files, id) && TaskAt(s.files, id).Some? ==>
              exists i :: 0 <= i < |s.flight.value.candidates| && TaskAt(s.files, id) == Some(s.flight.value.candidates[i])
                          && Pairs(s.flight.value.candidates[i].episodes) <= Pairs(TaskAt(s'.files, id).value.episodes)
  {
    if AcceptsResult(s.files, s.flight.value, e.deltas) {
      AcceptedLosesNoUpdate(s.files, s.flight.value, e.deltas, e.offsets, e.job, e.usage, id);
    }
  }

  lemma AcceptedLosesNoUpdate(
    files: Files, f: Flight, deltas: seq<TaskDelta>, offsets: map<string, nat>, job: string, usage: string, id: TaskId)
    requires Inv(files) && FlightGood(files, f) && AcceptsResult(files, f, deltas)
    requires forall d :: d in deltas ==> Supplied(ContextOf(files, f), d)
    ensures
      var after := Overlay(files, FinishWrites(files, f, Written(files, f, deltas, offsets), job, usage));
      TaskAt(files, id).Some? ==>
        && TaskAt(after, id).Some?
        && (TaskAt(after, id) != TaskAt(files, id) ==>
              exists i :: 0 <= i < |f.candidates| && TaskAt(files, id) == Some(f.candidates[i])
                          && Pairs(f.candidates[i].episodes) <= Pairs(TaskAt(after, id).value.episodes))
  {
    OverwritesOnlyWhatItRead(files, f, deltas, offsets);
    WrittenAre(files, f, deltas, offsets);
    var w := Written(files, f, deltas, offsets);
    FinishReads(files, f, w, job, usage, id);
    if i :| 0 <= i < |w| && w[i].id == id {
      if i < |f.candidates| {
        assert TaskAt(files, id) == Some(f.candidates[i]);
      }
    }
  }

  /** A task changed while the model ran makes the result unacceptable, whatever it says. */
  lemma ChangedTaskRejects(files: Files, f: Flight, deltas: seq<TaskDelta>, i: nat)
    requires Inv(files) && FlightGood(files, f) && i < |f.candidates|
    requires TaskAt(files, f.candidates[i].id) != Some(f.candidates[i])
    ensures !AcceptsResult(files, f, deltas)
  {
    assert NotOlder(files, f.candidates[i]);
  }
}
