/**
  The append-only message log of a thread: chunks of 200 messages per generation, a manifest with
  the count and the cursor, and the scan that appends a source batch or starts a new generation.
 */
module MessageLog {
  import opened Results
  import opened Domain
  import opened Store

  const CHUNK_SIZE := 200
  const NORMALIZATION_VERSION := 3

  datatype LogError = MissingChunk | CountMismatch | MissingTail | SourceFailed(text: string) | Refused(error: StoreError)

  function ChunkCount(n: nat): nat {
    (n + CHUNK_SIZE - 1) / CHUNK_SIZE
  }

  function Min(a: int, b: int): int {
    if a < b then a else b
  }

  /** The messages a chunk of a log holds. */
  function ChunkOf(log: seq<Message>, chunk: nat): (r: seq<Message>)
    requires chunk < ChunkCount(|log|)
    ensures 0 < |r| <= CHUNK_SIZE
  {
    log[chunk * CHUNK_SIZE..Min((chunk + 1) * CHUNK_SIZE, |log|)]
  }

  // ---------------------------------------------------------------- reading

  function ReadChunks(files: Files, thread: string, generation: nat, count: nat): Option<seq<Message>> {
    if count == 0 then Some([])
    else
      var key := EventKey(thread, generation, count - 1);
      match ReadChunks(files, thread, generation, count - 1)
      case None => None
      case Some(before) => if key in files && files[key].ChunkValue? then Some(before + files[key].messages) else None
  }

  function Messages(files: Files, thread: string): Result<seq<Message>, LogError> {
    var scan := ScanOf(files, thread);
    match ReadChunks(files, thread, scan.cursor.generation, ChunkCount(scan.messageCount))
    case None => Err(MissingChunk)
    case Some(all) => if |all| != scan.messageCount then Err(CountMismatch) else Ok(all)
  }

  lemma {:induction false} ReadChunksStopsAtGap(files: Files, thread: string, generation: nat, count: nat, gap: nat)
    requires gap < count
    requires EventKey(thread, generation, gap) !in files || !files[EventKey(thread, generation, gap)].ChunkValue?
    ensures ReadChunks(files, thread, generation, count) == None
  {
    if gap < count - 1 {
      ReadChunksStopsAtGap(files, thread, generation, count - 1, gap);
    }
  }

  method ReadMessages(files: Files, thread: string) returns (r: Result<seq<Message>, LogError>)
    ensures r == Messages(files, thread)
  {
    var scan := ScanOf(files, thread);
    var all: seq<Message> := [];
    for index := 0 to ChunkCount(scan.messageCount)
      invariant ReadChunks(files, thread, scan.cursor.generation, index) == Some(all)
    {
      var key := EventKey(thread, scan.cursor.generation, index);
      if key !in files || !files[key].ChunkValue? {
        ReadChunksStopsAtGap(files, thread, scan.cursor.generation, ChunkCount(scan.messageCount), index);
        return Err(MissingChunk);
      }
      all := all + files[key].messages;
    }
    if |all| != scan.messageCount {
      return Err(CountMismatch);
    }
    return Ok(all);
  }

  /** The files of one generation are exactly the 200-message cuts of `log`, the last one shorter. */
  ghost predicate Holds(files: Files, thread: string, generation: nat, log: seq<Message>) {
    forall c :: 0 <= c < ChunkCount(|log|) ==> ChunkIs(files, thread, generation, c, log)
  }

  /** One chunk file of a log. */
  ghost predicate ChunkIs(files: Files, thread: string, generation: nat, c: nat, log: seq<Message>)
    requires c < ChunkCount(|log|)
  {
    EventKey(thread, generation, c) in files && files[EventKey(thread, generation, c)] == ChunkValue(ChunkOf(log, c))
  }

  /** The log of a thread as its manifest and chunk files record it. */
  ghost predicate LogIs(files: Files, thread: string, log: seq<Message>) {
    && ScanOf(files, thread).messageCount == |log|
    && Holds(files, thread, ScanOf(files, thread).cursor.generation, log)
  }

  lemma {:induction false} ReadChunksHeld(files: Files, thread: string, generation: nat, log: seq<Message>, count: nat)
    requires Holds(files, thread, generation, log) && count <= ChunkCount(|log|)
    ensures ReadChunks(files, thread, generation, count) == Some(log[..Min(count * CHUNK_SIZE, |log|)])
  {
    if count > 0 {
      ReadChunksHeld(files, thread, generation, log, count - 1);
      assert ChunkIs(files, thread, generation, count - 1, log);
      assert log[..(count - 1) * CHUNK_SIZE] + ChunkOf(log, count - 1) == log[..Min(count * CHUNK_SIZE, |log|)];
    }
  }

  lemma LogIsRead(files: Files, thread: string, log: seq<Message>)
    requires LogIs(files, thread, log)
    ensures Messages(files, thread) == Ok(log)
  {
    ReadChunksHeld(files, thread, ScanOf(files, thread).cursor.generation, log, ChunkCount(|log|));
    assert log[..Min(ChunkCount(|log|) * CHUNK_SIZE, |log|)] == log;
  }

  // ---------------------------------------------------------------- writing chunks

  /** `appended.chunks(200)`, numbered from `first`. */
  function ChunkWrites(thread: string, generation: nat, first: nat, appended: seq<Message>): seq<(Key, Value)>
    decreases |appended|
  {
    if appended == [] then []
    else
      var n := Min(CHUNK_SIZE, |appended|);
      [(EventKey(thread, generation, first), ChunkValue(appended[..n]))]
      + ChunkWrites(thread, generation, first + 1, appended[n..])
  }

  lemma {:induction false} ChunkWritesCount(thread: string, generation: nat, first: nat, appended: seq<Message>)
    ensures |ChunkWrites(thread, generation, first, appended)| == ChunkCount(|appended|)
    decreases |appended|
  {
    if appended != [] {
      ChunkWritesCount(thread, generation, first + 1, appended[Min(CHUNK_SIZE, |appended|)..]);
    }
  }

  lemma {:induction false} ChunkWritesAt(thread: string, generation: nat, first: nat, appended: seq<Message>, i: nat)
    requires i < ChunkCount(|appended|)
    ensures i < |ChunkWrites(thread, generation, first, appended)|
    ensures ChunkWrites(thread, generation, first, appended)[i]
            == (EventKey(thread, generation, first + i), ChunkValue(ChunkOf(appended, i)))
    decreases i
  {
    ChunkWritesCount(thread, generation, first, appended);
    if i > 0 {
      ChunkOfShifted(appended, 1, i - 1);
      ChunkWritesAt(thread, generation, first + 1, appended[CHUNK_SIZE..], i - 1);
    }
  }

  lemma ChunkWritesAre(thread: string, generation: nat, first: nat, appended: seq<Message>)
    ensures |ChunkWrites(thread, generation, first, appended)| == ChunkCount(|appended|)
    ensures forall i :: 0 <= i < ChunkCount(|appended|) ==>
              ChunkWrites(thread, generation, first, appended)[i]
              == (EventKey(thread, generation, first + i), ChunkValue(ChunkOf(appended, i)))
  {
    ChunkWritesCount(thread, generation, first, appended);
    forall i | 0 <= i < ChunkCount(|appended|)
      ensures ChunkWrites(thread, generation, first, appended)[i]
              == (EventKey(thread, generation, first + i), ChunkValue(ChunkOf(appended, i)))
    {
      ChunkWritesAt(thread, generation, first, appended, i);
    }
  }

  lemma ChunkKeys(thread: string, generation: nat, first: nat, appended: seq<Message>, k: Key)
    ensures k in KeysOf(ChunkWrites(thread, generation, first, appended)) <==>
            k.EventKey? && k.thread == thread && k.generation == generation
            && first <= k.chunk < first + ChunkCount(|appended|)
  {
    ChunkWritesAre(thread, generation, first, appended);
    if k.EventKey? && k.thread == thread && k.generation == generation && first <= k.chunk < first + ChunkCount(|appended|) {
      assert ChunkWrites(thread, generation, first, appended)[k.chunk - first].0 == k;
    }
  }

  method BuildChunkWrites(thread: string, generation: nat, first: nat, appended: seq<Message>)
    returns (writes: seq<(Key, Value)>)
    ensures writes == ChunkWrites(thread, generation, first, appended)
  {
    writes := [];
    var rest, chunk := appended, first;
    while rest != []
      invariant chunk >= first
      invariant writes + ChunkWrites(thread, generation, chunk, rest) == ChunkWrites(thread, generation, first, appended)
      decreases |rest|
    {
      var n := Min(CHUNK_SIZE, |rest|);
      writes := writes + [(EventKey(thread, generation, chunk), ChunkValue(rest[..n]))];
      rest, chunk := rest[n..], chunk + 1;
    }
  }

  // ---------------------------------------------------------------- pruning tasks on reset

  function KeepEpisodes(episodes: seq<Episode>, thread: string): seq<Episode> {
    if episodes == [] then []
    else if episodes[0].threadId != thread then [episodes[0]] + KeepEpisodes(episodes[1..], thread)
    else KeepEpisodes(episodes[1..], thread)
  }

  function KeepEdges(edges: seq<Edge>, episodes: seq<Episode>): seq<Edge> {
    if edges == [] then []
    else if (exists e :: e in episodes && e.id == edges[0].from) && (exists e :: e in episodes && e.id == edges[0].to)
    then [edges[0]] + KeepEdges(edges[1..], episodes)
    else KeepEdges(edges[1..], episodes)
  }

  /** What a reset of `thread` leaves of a task: untouched, or without its episodes and one revision on. */
  function Prune(task: Task, thread: string): Task {
    var kept := KeepEpisodes(task.episodes, thread);
    if |kept| == |task.episodes| then task
    else task.(episodes := kept, edges := KeepEdges(task.edges, kept), revision := task.revision + 1)
  }

  /** The stored tasks in the order the directory lists them. */
  ghost predicate IsListing(files: Files, listing: seq<TaskId>) {
    && (forall i, j :: 0 <= i < j < |listing| ==> listing[i] != listing[j])
    && (forall id :: id in listing <==> TaskAt(files, id).Some?)
  }

  function PruneWrites(files: Files, listing: seq<TaskId>, thread: string): seq<(Key, Value)> {
    if listing == [] then []
    else
      var before := PruneWrites(files, listing[..|listing| - 1], thread);
      var id := listing[|listing| - 1];
      match TaskAt(files, id)
      case None => before
      case Some(task) =>
        if Prune(task, thread) == task then before else before + [(TaskKey(id), TaskValue(Prune(task, thread)))]
  }

  lemma {:induction false} PruneKeepsUnlessShorter(task: Task, thread: string)
    ensures Prune(task, thread) == task || Prune(task, thread).revision == task.revision + 1
    ensures Prune(task, thread) == task <==> |KeepEpisodes(task.episodes, thread)| == |task.episodes|
  {
  }

  method BuildPruneWrites(files: Files, listing: seq<TaskId>, thread: string) returns (writes: seq<(Key, Value)>)
    ensures writes == PruneWrites(files, listing, thread)
  {
    writes := [];
    for i := 0 to |listing|
      invariant writes == PruneWrites(files, listing[..i], thread)
    {
      assert listing[..i + 1][..i] == listing[..i];
      match TaskAt(files, listing[i])
      case None =>
      case Some(task) =>
        var kept := KeepEpisodes(task.episodes, thread);
        if |kept| != |task.episodes| {
          var pruned := task.(
            episodes := kept, edges := KeepEdges(task.edges, kept), revision := task.revision + 1);
          writes := writes + [(TaskKey(listing[i]), TaskValue(pruned))];
        }
    }
    assert listing[..|listing|] == listing;
  }

  ghost predicate OnlyTaskKeys(writes: seq<(Key, Value)>) {
    forall i :: 0 <= i < |writes| ==> writes[i].0.TaskKey?
  }

  lemma {:induction false} PruneWritesAre(files: Files, listing: seq<TaskId>, thread: string)
    requires forall i, j :: 0 <= i < j < |listing| ==> listing[i] != listing[j]
    ensures var w := PruneWrites(files, listing, thread);
            && OnlyTaskKeys(w) && DistinctKeys(w)
            && (forall i :: 0 <= i < |w| ==>
                  w[i].0.task in listing && TaskAt(files, w[i].0.task).Some?
                  && w[i].1 == TaskValue(Prune(TaskAt(files, w[i].0.task).value, thread)))
            && (forall id :: id in listing && TaskAt(files, id).Some? && Prune(TaskAt(files, id).value, thread) != TaskAt(files, id).value
                  ==> TaskKey(id) in KeysOf(w))
    decreases |listing|
  {
    if listing != [] {
      var front, last := listing[..|listing| - 1], listing[|listing| - 1];
      PruneWritesAre(files, front, thread);
      var w, wf := PruneWrites(files, listing, thread), PruneWrites(files, front, thread);
      assert last !in front;
      assert forall i :: 0 <= i < |wf| ==> w[i] == wf[i];
      forall id | id in listing && TaskAt(files, id).Some? && Prune(TaskAt(files, id).value, thread) != TaskAt(files, id).value
        ensures TaskKey(id) in KeysOf(w)
      {
        if id in front {
          var i :| 0 <= i < |wf| && wf[i].0 == TaskKey(id);
          assert w[i].0 == TaskKey(id);
        } else {
          assert id == last;
          assert w[|w| - 1].0 == TaskKey(id);
        }
      }
    }
  }

  // ---------------------------------------------------------------- one thread of a scan

  function NormalizationChanged(scan: ScanState): bool {
    scan.normalizationVersion != NORMALIZATION_VERSION && scan.cursor.offset > 0
  }

  /** Where the source is asked to read from. */
  function ReadCursor(scan: ScanState): Cursor {
    if NormalizationChanged(scan) then Cursor(0, scan.cursor.generation + 1, "") else scan.cursor
  }

  function Effective(scan: ScanState, batch: Batch): Batch {
    batch.(reset := batch.reset || NormalizationChanged(scan))
  }

  function StoredThread(files: Files, thread: Thread): bool {
    ThreadKey(thread.id) in files && files[ThreadKey(thread.id)] == ThreadValue(thread)
  }

  /** Nothing new: the batch is dropped without a commit. */
  function Unchanged(files: Files, thread: Thread, batch: Batch): bool {
    !batch.reset && batch.cursor == ScanOf(files, thread.id).cursor && StoredThread(files, thread)
  }

  /** The count the batch is appended to. */
  function BaseCount(scan: ScanState, batch: Batch): nat {
    if batch.reset then 0 else scan.messageCount
  }

  /** The partly filled last chunk, read at the generation of the old cursor. */
  function Tail(files: Files, thread: string, batch: Batch): Option<seq<Message>> {
    var scan := ScanOf(files, thread);
    var base := BaseCount(scan, batch);
    var key := EventKey(thread, scan.cursor.generation, base / CHUNK_SIZE);
    if base % CHUNK_SIZE == 0 then Some([])
    else if key in files && files[key].ChunkValue? then Some(files[key].messages)
    else None
  }

  function NewScan(scan: ScanState, batch: Batch, appended: nat, now: int): ScanState {
    var base := BaseCount(scan, batch);
    var changed := batch.reset || batch.messages != [];
    ScanState(
      NORMALIZATION_VERSION, batch.cursor, base + appended - base % CHUNK_SIZE,
      if batch.reset then 0 else scan.extractedCount, None,
      if changed then scan.dirtyRevision + 1 else scan.dirtyRevision, scan.extractedRevision,
      if changed then now else scan.lastChangedAt)
  }

  function NewLinks(files: Files, thread: string, batch: Batch): seq<Link> {
    (if batch.reset then [] else LinksAt(files, LinksKey(thread))) + batch.links
  }

  function LinkWrites(files: Files, thread: string, batch: Batch): seq<(Key, Value)> {
    if batch.reset || batch.links != [] then [(LinksKey(thread), LinksValue(NewLinks(files, thread, batch)))] else []
  }

  /** The list of writes one scanned batch commits; `batch` is already `Effective`. */
  function ScanWrites(files: Files, thread: Thread, batch: Batch, tail: seq<Message>, listing: seq<TaskId>, now: int):
      seq<(Key, Value)>
  {
    var scan := ScanOf(files, thread.id);
    var appended := tail + batch.messages;
    (if batch.reset then PruneWrites(files, listing, thread.id) else [])
    + ChunkWrites(thread.id, batch.cursor.generation, BaseCount(scan, batch) / CHUNK_SIZE, appended)
    + LinkWrites(files, thread.id, batch)
    + [(ScanKey(thread.id), ScanValue(NewScan(scan, batch, |appended|, now))), (ThreadKey(thread.id), ThreadValue(thread))]
  }

  /** The files after scanning one thread whose source answered with `answer`. */
  function Scanned(files: Files, thread: Thread, answer: Result<Batch, string>, listing: seq<TaskId>, now: int):
      Result<Files, LogError>
  {
    var scan := ScanOf(files, thread.id);
    match answer
    case Err(text) => Ok(files[ScanKey(thread.id) := ScanValue(scan.(lastError := Some(text)))])
    case Ok(raw) =>
      var batch := Effective(scan, raw);
      if Unchanged(files, thread, batch) then Ok(files)
      else
        match Tail(files, thread.id, batch)
        case None => Err(MissingTail)
        case Some(tail) => Ok(Overlay(files, ScanWrites(files, thread, batch, tail, listing, now)))
  }

  /** The loop body of `scan`, against the store. */
  method ScanThread(store: Handle<Key, Value>, thread: Thread, answer: Result<Batch, string>, listing: seq<TaskId>, now: int)
    returns (r: Result<(), LogError>)
    requires store.writable
    modifies store
    ensures store.writable
    ensures
      match Scanned(old(store.files), thread, answer, listing, now)
      case Ok(after) => r.Ok? && store.files == after
      case Err(error) => r == Err(error) && store.files == old(store.files)
  {
    var scan := ScanOf(store.files, thread.id);
    if answer.Err? {
      var failed := [(File(ScanKey(thread.id)), ScanValue(scan.(lastError := Some(answer.error))))];
      ghost var data := DataWrites(failed);
      assert data[1..] == [];
      var _ := store.Commit(failed);
      return Ok(());
    }
    var batch := answer.value.(reset := answer.value.reset || NormalizationChanged(scan));
    if !batch.reset && batch.cursor == scan.cursor && StoredThread(store.files, thread) {
      return Ok(());
    }
    var writes: seq<(Key, Value)> := [];
    var base := scan.messageCount;
    if batch.reset {
      writes := BuildPruneWrites(store.files, listing, thread.id);
      base := 0;
    }
    var appended := batch.messages;
    var first := base / CHUNK_SIZE;
    if base % CHUNK_SIZE > 0 {
      var key := EventKey(thread.id, scan.cursor.generation, first);
      if key !in store.files || !store.files[key].ChunkValue? {
        return Err(MissingTail);
      }
      appended := store.files[key].messages + appended;
    } else {
      assert [] + batch.messages == batch.messages;
    }
    var chunks := BuildChunkWrites(thread.id, batch.cursor.generation, first, appended);
    writes := writes + chunks + LinkWrites(store.files, thread.id, batch)
      + [(ScanKey(thread.id), ScanValue(NewScan(scan, batch, |appended|, now))), (ThreadKey(thread.id), ThreadValue(thread))];
    var raw := seq(|writes|, i requires 0 <= i < |writes| => (File(writes[i].0), writes[i].1));
    assert DataWrites(raw) == writes;
    var _ := store.Commit(raw);
    return Ok(());
  }

  // ---------------------------------------------------------------- what a scan does to the files

  /** The writes of a scan have distinct keys, so each of them can be read back. */
  lemma ScanWritesDistinct(files: Files, thread: Thread, batch: Batch, tail: seq<Message>, listing: seq<TaskId>, now: int)
    requires forall i, j :: 0 <= i < j < |listing| ==> listing[i] != listing[j]
    ensures DistinctKeys(ScanWrites(files, thread, batch, tail, listing, now))
  {
    var first := BaseCount(ScanOf(files, thread.id), batch) / CHUNK_SIZE;
    var appended := tail + batch.messages;
    var p := if batch.reset then PruneWrites(files, listing, thread.id) else [];
    var c := ChunkWrites(thread.id, batch.cursor.generation, first, appended);
    var l := LinkWrites(files, thread.id, batch);
    var s := (ScanKey(thread.id), ScanValue(NewScan(ScanOf(files, thread.id), batch, |appended|, now)));
    var t := (ThreadKey(thread.id), ThreadValue(thread));
    PruneWritesAre(files, listing, thread.id);
    ChunkWritesAre(thread.id, batch.cursor.generation, first, appended);
    assert forall i :: 0 <= i < |c| ==> c[i].0.EventKey?;
    DistinctConcat(p, c);
    DistinctConcat(p + c, l);
    DistinctConcat(p + c + l, [s, t]);
  }

  lemma DistinctConcat(a: seq<(Key, Value)>, b: seq<(Key, Value)>)
    requires DistinctKeys(a) && DistinctKeys(b)
    requires forall i, j :: 0 <= i < |a| && 0 <= j < |b| ==> a[i].0 != b[j].0
    ensures DistinctKeys(a + b)
  {
  }

  /** A key of a scan's writes is a task to prune, a new chunk, or one of the thread's own three files. */
  lemma ScanKeys(files: Files, thread: Thread, batch: Batch, tail: seq<Message>, listing: seq<TaskId>, now: int, k: Key)
    requires forall i, j :: 0 <= i < j < |listing| ==> listing[i] != listing[j]
    ensures k in KeysOf(ScanWrites(files, thread, batch, tail, listing, now)) <==>
            var first := BaseCount(ScanOf(files, thread.id), batch) / CHUNK_SIZE;
            || k == ScanKey(thread.id)
            || k == ThreadKey(thread.id)
            || (k == LinksKey(thread.id) && (batch.reset || batch.links != []))
            || (k.TaskKey? && batch.reset && k in KeysOf(PruneWrites(files, listing, thread.id)))
            || (k.EventKey? && k.thread == thread.id && k.generation == batch.cursor.generation
                && first <= k.chunk < first + ChunkCount(|tail + batch.messages|))
  {
    var first := BaseCount(ScanOf(files, thread.id), batch) / CHUNK_SIZE;
    var appended := tail + batch.messages;
    var p := if batch.reset then PruneWrites(files, listing, thread.id) else [];
    var c := ChunkWrites(thread.id, batch.cursor.generation, first, appended);
    var l := LinkWrites(files, thread.id, batch);
    var s := (ScanKey(thread.id), ScanValue(NewScan(ScanOf(files, thread.id), batch, |appended|, now)));
    var t := (ThreadKey(thread.id), ThreadValue(thread));
    PruneKeys(files, listing, thread.id);
    ChunkKeys(thread.id, batch.cursor.generation, first, appended, k);
    LinkKeys(files, thread.id, batch);
    KeysOfFour(p, c, l, [s, t]);
    KeysOfTwo(s, t);
  }

  lemma KeysOfFour(a: seq<(Key, Value)>, b: seq<(Key, Value)>, c: seq<(Key, Value)>, d: seq<(Key, Value)>)
    ensures KeysOf(a + b + c + d) == KeysOf(a) + KeysOf(b) + KeysOf(c) + KeysOf(d)
  {
    KeysOfConcat(a, b);
    KeysOfConcat(a + b, c);
    KeysOfConcat(a + b + c, d);
  }

  lemma KeysOfTwo(a: (Key, Value), b: (Key, Value))
    ensures KeysOf([a, b]) == {a.0, b.0}
  {
    assert [a, b][0].0 in KeysOf([a, b]) && [a, b][1].0 in KeysOf([a, b]);
  }

  lemma PruneKeys(files: Files, listing: seq<TaskId>, thread: string)
    requires forall i, j :: 0 <= i < j < |listing| ==> listing[i] != listing[j]
    ensures forall k :: k in KeysOf(PruneWrites(files, listing, thread)) ==> k.TaskKey?
  {
    PruneWritesAre(files, listing, thread);
  }

  lemma LinkKeys(files: Files, thread: string, batch: Batch)
    ensures KeysOf(LinkWrites(files, thread, batch)) == if batch.reset || batch.links != [] then {LinksKey(thread)} else {}
  {
    var l := LinkWrites(files, thread, batch);
    if l != [] {
      assert l[0].0 in KeysOf(l);
    }
  }

  predicate SameAt(before: Files, after: Files, k: Key) {
    (k in before <==> k in after) && (k in before ==> before[k] == after[k])
  }

  /** `appended` is cut into the chunks numbered from `first`. */
  ghost predicate HoldsFrom(files: Files, thread: string, generation: nat, first: nat, appended: seq<Message>) {
    forall k :: first <= k < first + ChunkCount(|appended|) ==>
      EventKey(thread, generation, k) in files
      && files[EventKey(thread, generation, k)] == ChunkValue(ChunkOf(appended, k - first))
  }

  /** The scan's own writes, read back. */
  lemma ScanWrote(files: Files, thread: Thread, batch: Batch, tail: seq<Message>, listing: seq<TaskId>, now: int)
    requires IsListing(files, listing)
    ensures
      var after := Overlay(files, ScanWrites(files, thread, batch, tail, listing, now));
      && ScanOf(after, thread.id) == NewScan(ScanOf(files, thread.id), batch, |tail + batch.messages|, now)
      && StoredThread(after, thread)
      && LinksAt(after, LinksKey(thread.id))
         == (if batch.reset then [] else LinksAt(files, LinksKey(thread.id))) + batch.links
    ensures
      HoldsFrom(Overlay(files, ScanWrites(files, thread, batch, tail, listing, now)), thread.id, batch.cursor.generation,
                BaseCount(ScanOf(files, thread.id), batch) / CHUNK_SIZE, tail + batch.messages)
  {
    var scan := ScanOf(files, thread.id);
    var w := ScanWrites(files, thread, batch, tail, listing, now);
    var first := BaseCount(scan, batch) / CHUNK_SIZE;
    var appended := tail + batch.messages;
    ScanWritesDistinct(files, thread, batch, tail, listing, now);
    OverlayPair(files, w, (ScanKey(thread.id), ScanValue(NewScan(scan, batch, |appended|, now))));
    OverlayPair(files, w, (ThreadKey(thread.id), ThreadValue(thread)));
    if batch.reset || batch.links != [] {
      OverlayPair(files, w, (LinksKey(thread.id), LinksValue(NewLinks(files, thread.id, batch))));
    } else {
      ScanKeys(files, thread, batch, tail, listing, now, LinksKey(thread.id));
      OverlayDistinct(files, w);
      assert LinksAt(files, LinksKey(thread.id)) + [] == LinksAt(files, LinksKey(thread.id));
    }
    var after := Overlay(files, w);
    assert ScanOf(after, thread.id) == NewScan(scan, batch, |appended|, now);
    assert StoredThread(after, thread);
    assert LinksAt(after, LinksKey(thread.id)) == NewLinks(files, thread.id, batch);
    ChunkWritesAre(thread.id, batch.cursor.generation, first, appended);
    forall k | first <= k < first + ChunkCount(|appended|)
      ensures EventKey(thread.id, batch.cursor.generation, k) in after
      ensures after[EventKey(thread.id, batch.cursor.generation, k)] == ChunkValue(ChunkOf(appended, k - first))
    {
      var pair := (EventKey(thread.id, batch.cursor.generation, k), ChunkValue(ChunkOf(appended, k - first)));
      assert ChunkWrites(thread.id, batch.cursor.generation, first, appended)[k - first] == pair;
      OverlayPair(files, w, pair);
    }
  }

  /** The files a scan leaves alone. */
  lemma ScanSpared(files: Files, thread: Thread, batch: Batch, tail: seq<Message>, listing: seq<TaskId>, now: int, k: Key)
    requires IsListing(files, listing)
    requires !k.TaskKey?
    requires k.ScanKey? || k.ThreadKey? || k.LinksKey? ==> k.thread != thread.id
    requires
      var first := BaseCount(ScanOf(files, thread.id), batch) / CHUNK_SIZE;
      k.EventKey? ==> k.thread != thread.id || k.generation != batch.cursor.generation
                      || !(first <= k.chunk < first + ChunkCount(|tail + batch.messages|))
    ensures SameAt(files, Overlay(files, ScanWrites(files, thread, batch, tail, listing, now)), k)
  {
    ScanWritesDistinct(files, thread, batch, tail, listing, now);
    OverlayDistinct(files, ScanWrites(files, thread, batch, tail, listing, now));
    ScanKeys(files, thread, batch, tail, listing, now, k);
  }

  /** A scan changes a task only by a reset, and then every change of a task bumps its revision. */
  lemma ScanTasks(files: Files, thread: Thread, batch: Batch, tail: seq<Message>, listing: seq<TaskId>, now: int, id: TaskId)
    requires IsListing(files, listing)
    ensures TaskAt(Overlay(files, ScanWrites(files, thread, batch, tail, listing, now)), id) ==
            match TaskAt(files, id)
            case None => None
            case Some(task) => Some(if batch.reset then Prune(task, thread.id) else task)
  {
    var w := ScanWrites(files, thread, batch, tail, listing, now);
    var p := PruneWrites(files, listing, thread.id);
    ScanWritesDistinct(files, thread, batch, tail, listing, now);
    ScanKeys(files, thread, batch, tail, listing, now, TaskKey(id));
    OverlayDistinct(files, w);
    PruneWritesAre(files, listing, thread.id);
    if batch.reset && TaskKey(id) in KeysOf(p) {
      var i :| 0 <= i < |p| && p[i].0 == TaskKey(id);
      OverlayPair(files, w, p[i]);
    }
  }

  // ---------------------------------------------------------------- the log refines a sequence

  lemma TailOfLog(files: Files, thread: string, batch: Batch, log: seq<Message>)
    requires LogIs(files, thread, log) && !batch.reset
    ensures Tail(files, thread, batch) == Some(log[|log| / CHUNK_SIZE * CHUNK_SIZE..])
  {
    var c := |log| / CHUNK_SIZE;
    if |log| % CHUNK_SIZE != 0 {
      assert c < ChunkCount(|log|) && ChunkIs(files, thread, ScanOf(files, thread).cursor.generation, c, log);
      assert ChunkOf(log, c) == log[c * CHUNK_SIZE..];
    } else {
      assert log[c * CHUNK_SIZE..] == [];
    }
  }

  lemma ChunkOfShifted(log: seq<Message>, first: nat, c: nat)
    requires first * CHUNK_SIZE <= |log|
    requires c < ChunkCount(|log| - first * CHUNK_SIZE)
    ensures first + c < ChunkCount(|log|)
    ensures ChunkOf(log[first * CHUNK_SIZE..], c) == ChunkOf(log, first + c)
  {
  }

  lemma ChunkOfExtended(log: seq<Message>, more: seq<Message>, c: nat)
    requires c < |log| / CHUNK_SIZE
    ensures c < ChunkCount(|log|) && c < ChunkCount(|log + more|)
    ensures ChunkOf(log + more, c) == ChunkOf(log, c)
  {
  }

  /** An appended batch extends the log; every chunk but the last stays full. */
  lemma ScanAppends(files: Files, thread: Thread, batch: Batch, listing: seq<TaskId>, now: int, log: seq<Message>)
    requires IsListing(files, listing) && LogIs(files, thread.id, log)
    requires !batch.reset && batch.cursor.generation == ScanOf(files, thread.id).cursor.generation
    ensures Tail(files, thread.id, batch).Some?
    ensures LogIs(Overlay(files, ScanWrites(files, thread, batch, Tail(files, thread.id, batch).value, listing, now)),
                  thread.id, log + batch.messages)
  {
    TailOfLog(files, thread.id, batch, log);
    var tail := Tail(files, thread.id, batch).value;
    var after := Overlay(files, ScanWrites(files, thread, batch, tail, listing, now));
    ScanWrote(files, thread, batch, tail, listing, now);
    AppendedCount(ScanOf(files, thread.id), batch, tail, log, now);
    forall c | 0 <= c < |log| / CHUNK_SIZE
      ensures SameAt(files, after, EventKey(thread.id, batch.cursor.generation, c))
    {
      ScanSpared(files, thread, batch, tail, listing, now, EventKey(thread.id, batch.cursor.generation, c));
    }
    AppendsOver(files, after, thread.id, batch.cursor.generation, log, batch.messages);
  }

  lemma AppendedCount(scan: ScanState, batch: Batch, tail: seq<Message>, log: seq<Message>, now: int)
    requires !batch.reset && scan.messageCount == |log| && tail == log[|log| / CHUNK_SIZE * CHUNK_SIZE..]
    ensures NewScan(scan, batch, |tail + batch.messages|, now).messageCount == |log + batch.messages|
  {
  }

  lemma ChunkCountSplit(n: nat, first: nat)
    requires first * CHUNK_SIZE <= n
    ensures ChunkCount(n) == first + ChunkCount(n - first * CHUNK_SIZE)
  {
  }

  lemma AppendedTail(log: seq<Message>, more: seq<Message>, cut: nat)
    requires cut <= |log|
    ensures log[cut..] + more == (log + more)[cut..]
  {
  }

  /** The new chunk files behind the full ones of the old log make up the longer log. */
  lemma AppendsOver(before: Files, after: Files, thread: string, generation: nat, log: seq<Message>, more: seq<Message>)
    requires ScanOf(after, thread).messageCount == |log + more| && ScanOf(after, thread).cursor.generation == generation
    requires Holds(before, thread, generation, log)
    requires forall c :: 0 <= c < |log| / CHUNK_SIZE ==> SameAt(before, after, EventKey(thread, generation, c))
    requires HoldsFrom(after, thread, generation, |log| / CHUNK_SIZE, log[|log| / CHUNK_SIZE * CHUNK_SIZE..] + more)
    ensures LogIs(after, thread, log + more)
  {
    forall c | 0 <= c < ChunkCount(|log + more|)
      ensures ChunkIs(after, thread, generation, c, log + more)
    {
      if c < |log| / CHUNK_SIZE {
        ChunkOfExtended(log, more, c);
        assert ChunkIs(before, thread, generation, c, log);
        assert SameAt(before, after, EventKey(thread, generation, c));
      } else {
        AppendedChunk(after, thread, generation, log, more, c);
      }
    }
  }

  lemma AppendedChunk(after: Files, thread: string, generation: nat, log: seq<Message>, more: seq<Message>, c: nat)
    requires HoldsFrom(after, thread, generation, |log| / CHUNK_SIZE, log[|log| / CHUNK_SIZE * CHUNK_SIZE..] + more)
    requires |log| / CHUNK_SIZE <= c < ChunkCount(|log + more|)
    ensures ChunkIs(after, thread, generation, c, log + more)
  {
    var first, whole := |log| / CHUNK_SIZE, log + more;
    AppendedTail(log, more, first * CHUNK_SIZE);
    ChunkCountSplit(|whole|, first);
    ChunkOfShifted(whole, first, c - first);
  }

  /** A reset starts the log afresh, whatever the files held before and whatever generation it names. */
  lemma ScanResets(files: Files, thread: Thread, batch: Batch, listing: seq<TaskId>, now: int)
    requires IsListing(files, listing) && batch.reset
    ensures Tail(files, thread.id, batch).Some?
    ensures LogIs(Overlay(files, ScanWrites(files, thread, batch, Tail(files, thread.id, batch).value, listing, now)),
                  thread.id, batch.messages)
  {
    assert Tail(files, thread.id, batch) == Some([]);
    ScanStartsOver(files, thread, batch, [], listing, now);
    assert [] + batch.messages == batch.messages;
  }

  /** Whatever is written from chunk 0 on is the whole log. */
  lemma ScanStartsOver(files: Files, thread: Thread, batch: Batch, tail: seq<Message>, listing: seq<TaskId>, now: int)
    requires IsListing(files, listing) && BaseCount(ScanOf(files, thread.id), batch) == |tail| < CHUNK_SIZE
    ensures LogIs(Overlay(files, ScanWrites(files, thread, batch, tail, listing, now)), thread.id, tail + batch.messages)
  {
    ScanWrote(files, thread, batch, tail, listing, now);
    StartsOver(Overlay(files, ScanWrites(files, thread, batch, tail, listing, now)), thread.id, batch.cursor.generation, tail + batch.messages);
  }

  lemma StartsOver(after: Files, thread: string, generation: nat, log: seq<Message>)
    requires ScanOf(after, thread).messageCount == |log| && ScanOf(after, thread).cursor.generation == generation
    requires HoldsFrom(after, thread, generation, 0, log)
    ensures LogIs(after, thread, log)
  {
  }

  /** The logs of the other threads are untouched. */
  lemma ScanKeepsOtherLogs(
    files: Files, thread: Thread, batch: Batch, tail: seq<Message>, listing: seq<TaskId>, now: int, other: string, log: seq<Message>)
    requires IsListing(files, listing) && other != thread.id && LogIs(files, other, log)
    ensures LogIs(Overlay(files, ScanWrites(files, thread, batch, tail, listing, now)), other, log)
    ensures ScanOf(Overlay(files, ScanWrites(files, thread, batch, tail, listing, now)), other) == ScanOf(files, other)
  {
    var after := Overlay(files, ScanWrites(files, thread, batch, tail, listing, now));
    ScanSpared(files, thread, batch, tail, listing, now, ScanKey(other));
    var gen := ScanOf(files, other).cursor.generation;
    forall c | 0 <= c < ChunkCount(|log|)
      ensures ChunkIs(after, other, gen, c, log)
    {
      assert ChunkIs(files, other, gen, c, log);
      ScanSpared(files, thread, batch, tail, listing, now, EventKey(other, gen, c));
    }
  }

  /** What is read are the chunks before the appended ones, and then those. */
  lemma {:induction false} ReadChunksOver(files: Files, thread: string, generation: nat, first: nat, appended: seq<Message>, count: nat)
    requires HoldsFrom(files, thread, generation, first, appended) && count <= ChunkCount(|appended|)
    ensures var before, r := ReadChunks(files, thread, generation, first), ReadChunks(files, thread, generation, first + count);
            if before.None? then r.None? else r == Some(before.value + appended[..Min(count * CHUNK_SIZE, |appended|)])
  {
    var before := ReadChunks(files, thread, generation, first);
    if count == 0 {
      assert before.Some? ==> before.value + appended[..0] == before.value;
    } else {
      ReadChunksOver(files, thread, generation, first, appended, count - 1);
      var k := first + (count - 1);
      assert first <= k < first + ChunkCount(|appended|) && k - first == count - 1;
      assert files[EventKey(thread, generation, k)] == ChunkValue(ChunkOf(appended, count - 1));
      var so := appended[..(count - 1) * CHUNK_SIZE];
      assert so + ChunkOf(appended, count - 1) == appended[..Min(count * CHUNK_SIZE, |appended|)];
      assert before.Some? ==> before.value + so + ChunkOf(appended, count - 1) == before.value + (so + ChunkOf(appended, count - 1));
    }
  }

  lemma {:induction false} ReadChunksSame(before: Files, after: Files, thread: string, generation: nat, count: nat)
    requires forall c :: 0 <= c < count ==> SameAt(before, after, EventKey(thread, generation, c))
    ensures ReadChunks(after, thread, generation, count) == ReadChunks(before, thread, generation, count)
  {
    if count > 0 {
      ReadChunksSame(before, after, thread, generation, count - 1);
      assert SameAt(before, after, EventKey(thread, generation, count - 1));
    }
  }

  lemma CountOver(log: seq<Message>, batch: seq<Message>)
    ensures var n := |log| / CHUNK_SIZE;
            ChunkCount(|log + batch|) == n + ChunkCount(|log[n * CHUNK_SIZE..] + batch|)
  {
  }

  /** The full chunks are those from before, and the others hold the tail and the batch. */
  lemma AppendWrote(files: Files, thread: Thread, batch: Batch, tail: seq<Message>, listing: seq<TaskId>, now: int, log: seq<Message>)
    requires IsListing(files, listing) && LogIs(files, thread.id, log) && !batch.reset
    requires tail == log[|log| / CHUNK_SIZE * CHUNK_SIZE..]
    ensures
      var after := Overlay(files, ScanWrites(files, thread, batch, tail, listing, now));
      var gen, n := batch.cursor.generation, |log| / CHUNK_SIZE;
      && ScanOf(after, thread.id).cursor.generation == gen && ScanOf(after, thread.id).messageCount == |log + batch.messages|
      && HoldsFrom(after, thread.id, gen, n, tail + batch.messages)
      && forall c :: 0 <= c < n ==> SameAt(files, after, EventKey(thread.id, gen, c))
  {
    ScanWrote(files, thread, batch, tail, listing, now);
    AppendedCount(ScanOf(files, thread.id), batch, tail, log, now);
    forall c | 0 <= c < |log| / CHUNK_SIZE
      ensures SameAt(files, Overlay(files, ScanWrites(files, thread, batch, tail, listing, now)), EventKey(thread.id, batch.cursor.generation, c))
    {
      ScanSpared(files, thread, batch, tail, listing, now, EventKey(thread.id, batch.cursor.generation, c));
    }
  }

  /** What is read then under that generation. */
  lemma ReadAppended(files: Files, after: Files, thread: string, gen: nat, log: seq<Message>, batch: seq<Message>)
    requires var n := |log| / CHUNK_SIZE; HoldsFrom(after, thread, gen, n, log[n * CHUNK_SIZE..] + batch)
    requires forall c :: 0 <= c < |log| / CHUNK_SIZE ==> SameAt(files, after, EventKey(thread, gen, c))
    ensures var n := |log| / CHUNK_SIZE;
            var before, r := ReadChunks(files, thread, gen, n), ReadChunks(after, thread, gen, ChunkCount(|log + batch|));
            if before.None? then r.None? else r == Some(before.value + (log[n * CHUNK_SIZE..] + batch))
  {
    var n := |log| / CHUNK_SIZE;
    var appended := log[n * CHUNK_SIZE..] + batch;
    ReadChunksSame(files, after, thread, gen, n);
    CountOver(log, batch);
    ReadChunksOver(after, thread, gen, n, appended, ChunkCount(|appended|));
    assert appended[..Min(ChunkCount(|appended|) * CHUNK_SIZE, |appended|)] == appended;
  }

  /**
    When an appended batch can be read back at all. The tail chunk is rewritten under the batch's own
    generation and the full chunks before it are not: the log comes back exactly when the store holds the
    messages of the full chunks under that generation already. It does if the generation is the old one or if
    there is no full chunk yet, and does not if the generation is new to the store and there is one.
   */
  lemma ScanReadableIff(files: Files, thread: Thread, batch: Batch, listing: seq<TaskId>, now: int, log: seq<Message>)
    requires IsListing(files, listing) && LogIs(files, thread.id, log) && !batch.reset
    ensures Tail(files, thread.id, batch).Some?
    ensures
      var after := Overlay(files, ScanWrites(files, thread, batch, Tail(files, thread.id, batch).value, listing, now));
      var gen, n := batch.cursor.generation, |log| / CHUNK_SIZE;
      && (Messages(after, thread.id) == Ok(log + batch.messages)
          <==> ReadChunks(files, thread.id, gen, n) == Some(log[..n * CHUNK_SIZE]))
      && (gen == ScanOf(files, thread.id).cursor.generation || n == 0 ==> Messages(after, thread.id) == Ok(log + batch.messages))
      && (n > 0 && EventKey(thread.id, gen, 0) !in files ==> Messages(after, thread.id).Err?)
  {
    TailOfLog(files, thread.id, batch, log);
    var tail := Tail(files, thread.id, batch).value;
    var gen, n := batch.cursor.generation, |log| / CHUNK_SIZE;
    AppendWrote(files, thread, batch, tail, listing, now, log);
    ReadAppended(files, Overlay(files, ScanWrites(files, thread, batch, tail, listing, now)), thread.id, gen, log, batch.messages);
    FullChunksOnly(log, batch.messages, ReadChunks(files, thread.id, gen, n));
    if gen == ScanOf(files, thread.id).cursor.generation {
      ReadChunksHeld(files, thread.id, gen, log, n);
      assert n > 0 ==> ChunkIs(files, thread.id, gen, 0, log);
    } else if n > 0 && EventKey(thread.id, gen, 0) !in files {
      ReadChunksStopsAtGap(files, thread.id, gen, n, 0);
    }
  }

  /** With what was appended behind it, only the full chunks of the log make the log. */
  lemma FullChunksOnly(log: seq<Message>, batch: seq<Message>, read: Option<seq<Message>>)
    ensures var n := |log| / CHUNK_SIZE;
            read.Some? && read.value + (log[n * CHUNK_SIZE..] + batch) == log + batch <==> read == Some(log[..n * CHUNK_SIZE])
  {
    var full := log[..|log| / CHUNK_SIZE * CHUNK_SIZE];
    var rest := log[|log| / CHUNK_SIZE * CHUNK_SIZE..] + batch;
    assert full + rest == log + batch;
    if read.Some? && read.value + rest == log + batch {
      assert |read.value| == |full|;
      assert read.value == (read.value + rest)[..|full|] == (full + rest)[..|full|] == full;
    }
  }
}
