/**
  The lineage engine on the store: its commits are lists of writes, carried out file by file among other
  processes that read, replay and die at any point. What the engine keeps from commit to commit is what the
  disk stands for after every single file operation.
 */
module EngineOnDisk {
  import opened Results
  import opened Domain
  import opened Store
  import opened MessageLog
  import opened Merge
  import opened Engine
  import opened EngineSafety
  import R = StoreRuns

  // ---------------------------------------------------------------- the lists the engine commits

  /** The one write of a scan state. */
  function ScanList(thread: string, scan: ScanState): seq<(Key, Value)> {
    [(ScanKey(thread), ScanValue(scan))]
  }

  /** `writes` is the list that event `e` commits when it finds the files of `s`. */
  ghost predicate Lists(s: State, e: Event, writes: seq<(Key, Value)>) {
    match e
    case Scan(thread, answer, listing, at) => ScanLists(s.files, thread, answer, listing, at, writes)
    case Tree(threads, links) => writes == [(TreeKey, TreeValue(threads)), (LineageKey, LinksValue(links))]
    case Complete(id, expected, completed) =>
      && AfterCompletion(s.files, id, expected, completed).Ok?
      && writes == [(TaskKey(id), TaskValue(Completed(s.files, TaskAt(s.files, id).value, completed)))]
    case NothingNew(name, at) =>
      writes == ScanList(name, ScanOf(s.files, name).(
        extractedCount := |LogOf(s.files, name)|, extractedRevision := ScanOf(s.files, name).dirtyRevision, lastError := None))
    case Failed(error) =>
      && s.flight.Some?
      && writes == ScanList(s.flight.value.thread, ScanOf(s.files, s.flight.value.thread).(lastError := Some(error)))
    case Finish(deltas, offsets, job, usage) =>
      && s.flight.Some?
      && var f := s.flight.value;
      && (forall i :: 0 <= i < |f.picked| ==> f.picked[i] < |f.log|)
      && AcceptsResult(s.files, f, deltas) && (forall d :: d in deltas ==> Supplied(ContextOf(s.files, f), d))
      && writes == FinishWrites(s.files, f, Written(s.files, f, deltas, offsets), job, usage)
    case _ => false
  }

  ghost predicate ScanLists(
    files: Files, thread: Thread, answer: Result<Batch, string>, listing: seq<TaskId>, at: int, writes: seq<(Key, Value)>)
  {
    match answer
    case Err(text) => writes == ScanList(thread.id, ScanOf(files, thread.id).(lastError := Some(text)))
    case Ok(raw) =>
      var batch := Effective(ScanOf(files, thread.id), raw);
      && !Unchanged(files, thread, batch) && Tail(files, thread.id, batch).Some?
      && writes == ScanWrites(files, thread, batch, Tail(files, thread.id, batch).value, listing, at)
  }

  lemma OverlayOne(files: Files, k: Key, v: Value)
    ensures Overlay(files, [(k, v)]) == files[k := v]
  {
    assert [(k, v)][1..] == [];
  }

  lemma OverlayTwo(files: Files, a: (Key, Value), b: (Key, Value))
    ensures Overlay(files, [a, b]) == files[a.0 := a.1][b.0 := b.1]
  {
    assert [a, b][1..] == [b];
    OverlayOne(files[a.0 := a.1], b.0, b.1);
  }

  /** A committed list is the step of the event. */
  lemma ListIsStep(s: State, e: Event, s': State, writes: seq<(Key, Value)>)
    requires LineageStep(s, e, s') && Lists(s, e, writes)
    ensures s'.files == Overlay(s.files, writes)
  {
    if |writes| == 1 {
      assert writes == [(writes[0].0, writes[0].1)];
      OverlayOne(s.files, writes[0].0, writes[0].1);
    }
    if e.Tree? {
      OverlayTwo(s.files, writes[0], writes[1]);
    }
  }

  // ---------------------------------------------------------------- the engine among the processes

  /** The processes with their files, and the extraction in flight. */
  datatype World = World(store: R.World<Key, Value>, flight: Option<Flight>)

  const START := World(R.World(Disk(map[], None), 0, R.Free, map[], map[]), None)

  /**
    `Other` is an event of the store that is no commit of the engine, `Commit` the commit of a lineage event,
    `Look` a lineage event that writes nothing, `Forget` the end of an extraction with its process.
   */
  datatype Move =
    | Other(operation: R.Event<Key, Value>)
    | Commit(p: nat, event: Event, writes: seq<(Key, Value)>)
    | Look(p: nat, event: Event)
    | Forget

  /** The records of the scheduler and its settings, which the engine does not read. */
  ghost predicate OwnRecords(writes: seq<(Key, Value)>) {
    forall i :: 0 <= i < |writes| ==> writes[i].0.OtherKey?
  }

  /** A process has the writer lock and no commit of its own under way. */
  predicate Writing(w: World, p: nat) {
    w.store.lock == R.Held(p) && p in w.store.handles && w.store.handles[p].Idle?
  }

  /** What the process with the lock sees in the files themselves. */
  function Seen(w: World): State {
    State(w.store.disk.files, w.flight)
  }

  /** What the disk stands for. */
  function Meant(w: World): State {
    State(Logical(w.store.disk), w.flight)
  }

  ghost predicate Moves(rule: set<R.Situation>, w: World, m: Move, w': World) {
    match m
    case Other(e) =>
      R.Keeps(rule, w.store, e) && (e.Commit? ==> OwnRecords(e.writes)) && w' == w.(store := R.Next(w.store, e))
    case Commit(p, e, writes) =>
      && Writing(w, p) && Lists(Seen(w), e, writes)
      && w'.store == R.Next(w.store, R.Commit(p, writes))
      && LineageStep(Seen(w), e, State(Overlay(Seen(w).files, writes), w'.flight))
    case Look(p, e) =>
      Writing(w, p) && w'.store == w.store && LineageStep(Seen(w), e, State(Seen(w).files, w'.flight))
    case Forget => w' == w.(flight := None)
  }

  ghost predicate Sound(w: World) {
    R.Sound(w.store) && Good(Meant(w))
  }

  // ---------------------------------------------------------------- records the engine does not read

  lemma OwnRecordsSpare(files: Files, writes: seq<(Key, Value)>, k: Key)
    requires OwnRecords(writes) && !k.OtherKey?
    ensures SameAt(files, Overlay(files, writes), k)
  {
    OverlayAt(files, writes, k);
    assert k !in KeysOf(writes);
  }

  lemma OwnRecordsKeepLog(files: Files, writes: seq<(Key, Value)>, t: string)
    requires OwnRecords(writes) && Readable(files, t)
    ensures var after := Overlay(files, writes);
            && ScanOf(after, t) == ScanOf(files, t) && Readable(after, t)
            && LogOf(after, t) == LogOf(files, t) && LogIds(after, t) == LogIds(files, t)
  {
    var after := Overlay(files, writes);
    OwnRecordsSpare(files, writes, ScanKey(t));
    forall c
      ensures SameAt(files, after, EventKey(t, ScanOf(files, t).cursor.generation, c))
    {
      OwnRecordsSpare(files, writes, EventKey(t, ScanOf(files, t).cursor.generation, c));
    }
    LogFrame(files, after, t);
  }

  lemma OwnRecordsKeepInv(files: Files, writes: seq<(Key, Value)>)
    requires Inv(files) && OwnRecords(writes)
    ensures Inv(Overlay(files, writes)) && EngineSafety.Moves(files, Overlay(files, writes))
  {
    var after := Overlay(files, writes);
    forall id
      ensures TaskAt(after, id) == TaskAt(files, id)
    {
      OwnRecordsSpare(files, writes, TaskKey(id));
    }
    forall t
      ensures Readable(after, t) && ScanGood(ScanOf(after, t)) && LogIds(after, t) == LogIds(files, t) && LogMoves(files, after, t)
    {
      assert Readable(files, t) && ScanGood(ScanOf(files, t));
      OwnRecordsKeepLog(files, writes, t);
    }
    TasksFrame(files, after);
  }

  lemma OwnRecordsKeepGood(s: State, writes: seq<(Key, Value)>)
    requires Good(s) && OwnRecords(writes)
    ensures Good(s.(files := Overlay(s.files, writes)))
  {
    OwnRecordsKeepInv(s.files, writes);
    if s.flight.Some? {
      MovesKeepFlight(s.files, Overlay(s.files, writes), s.flight.value);
    }
  }

  // ---------------------------------------------------------------- every file operation

  /** What the disk stands for changes only when a record is written. */
  lemma NextMeans(w: R.World<Key, Value>, e: R.Event<Key, Value>)
    requires R.Sound(w) && R.Sound(R.Next(w, e))
    ensures Logical(R.Next(w, e).disk)
            == if e.Commit? && R.Enabled(w, e) then Overlay(Logical(w.disk), e.writes) else Logical(w.disk)
  {
  }

  /** Who holds the lock and has nothing under way reads what the disk stands for. */
  lemma WriterSeesAll(w: World, p: nat)
    requires R.Sound(w.store) && Writing(w, p)
    ensures Seen(w) == Meant(w)
  {
  }

  lemma MoveKeepsSound(rule: set<R.Situation>, w: World, m: Move, w': World)
    requires Sound(w) && R.SafeRule(rule) && Moves(rule, w, m, w')
    ensures Sound(w')
  {
    match m
    case Other(e) =>
      R.NextSound(w.store, e, rule);
      NextMeans(w.store, e);
      if e.Commit? && R.Enabled(w.store, e) {
        OwnRecordsKeepGood(Meant(w), e.writes);
      }
    case Commit(p, e, writes) => CommitKeepsSound(rule, w, p, e, writes, w');
    case Look(p, e) =>
      WriterSeesAll(w, p);
      StepKeepsGood(Seen(w), e, Meant(w'));
    case Forget =>
  }

  lemma CommitKeepsSound(rule: set<R.Situation>, w: World, p: nat, e: Event, writes: seq<(Key, Value)>, w': World)
    requires Sound(w) && R.SafeRule(rule) && Moves(rule, w, Commit(p, e, writes), w')
    ensures Sound(w')
  {
    var event: R.Event<Key, Value> := R.Commit(p, writes);
    WriterSeesAll(w, p);
    R.NextSound(w.store, event, rule);
    NextMeans(w.store, event);
    StepKeepsGood(Seen(w), e, Meant(w'));
  }

  ghost predicate Run(rule: set<R.Situation>, worlds: seq<World>, moves: seq<Move>) {
    && |worlds| == |moves| + 1 && worlds[0] == START
    && forall i :: 0 <= i < |moves| ==> MoveAt(rule, worlds, moves, i)
  }

  ghost predicate MoveAt(rule: set<R.Situation>, worlds: seq<World>, moves: seq<Move>, i: nat)
    requires i < |moves| < |worlds|
  {
    Moves(rule, worlds[i], moves[i], worlds[i + 1])
  }

  lemma StartIsSound()
    ensures Sound(START)
  {
    EmptyIsGood();
  }

  /**
    The engine's invariant at every file operation and every death. Whatever processes open, commit, replay and
    die, the disk always stands for files in which logs are readable, tasks well formed and all evidence
    anchored; and whoever reads under the lock, shared or as an idle writer, finds such files.
   */
  lemma {:induction false} DiskIsGood(rule: set<R.Situation>, worlds: seq<World>, moves: seq<Move>, n: nat)
    requires R.SafeRule(rule) && Run(rule, worlds, moves) && n < |worlds|
    ensures Sound(worlds[n]) && Inv(Logical(worlds[n].store.disk))
    ensures worlds[n].store.lock.Shared? || (exists p :: Writing(worlds[n], p)) ==> Inv(worlds[n].store.disk.files)
    decreases n
  {
    if n == 0 {
      StartIsSound();
    } else {
      DiskIsGood(rule, worlds, moves, n - 1);
      assert MoveAt(rule, worlds, moves, n - 1);
      MoveKeepsSound(rule, worlds[n - 1], moves[n - 1], worlds[n]);
    }
    if p :| Writing(worlds[n], p) {
      WriterSeesAll(worlds[n], p);
    }
  }
}
