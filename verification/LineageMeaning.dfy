/** What scans, completions and commits leave in the files, key by key, and the links over whole runs. */
module LineageMeaning {
  import opened Results
  import opened Domain
  import opened Store
  import opened MessageLog
  import opened Batching
  import opened Merge
  import opened MergeMeaning
  import opened TaskGraph
  import opened Engine
  import opened EngineSafety

  // ---------------------------------------------------------------- one scan

  /** The batch starts the conversation over: by itself, or because its messages were normalized differently. */
  ghost predicate StartsAgain(scan: ScanState, raw: Batch) {
    raw.reset || (scan.normalizationVersion != NORMALIZATION_VERSION && scan.cursor.offset > 0)
  }

  /** Nothing to store: the same cursor, and the conversation as it is stored. */
  ghost predicate NothingNewIn(files: Files, thread: Thread, raw: Batch) {
    && !StartsAgain(ScanOf(files, thread.id), raw) && raw.cursor == ScanOf(files, thread.id).cursor
    && ThreadKey(thread.id) in files && files[ThreadKey(thread.id)] == ThreadValue(thread)
  }

  /** The scan state behind a batch: a new revision and time exactly when there is something to extract. */
  ghost predicate ScanMoved(before: ScanState, raw: Batch, now: int, after: ScanState) {
    var dirty := StartsAgain(before, raw) || raw.messages != [];
    && after.cursor == raw.cursor && after.normalizationVersion == NORMALIZATION_VERSION && after.lastError == None
    && after.extractedRevision == before.extractedRevision
    && after.extractedCount == (if StartsAgain(before, raw) then 0 else before.extractedCount)
    && after.dirtyRevision == (if dirty then before.dirtyRevision + 1 else before.dirtyRevision)
    && after.lastChangedAt == (if dirty then now else before.lastChangedAt)
  }

  /** The stored links behind a batch: those before it, unless it starts again, and its own behind them. */
  ghost predicate LinksMoved(before: Files, thread: string, again: bool, links: seq<Link>, after: Files) {
    LinksAt(after, LinksKey(thread)) == (if again then [] else LinksAt(before, LinksKey(thread))) + links
  }

  /** A record of another conversation. */
  predicate OfOther(k: Key, thread: string) {
    (k.ScanKey? || k.ThreadKey? || k.LinksKey?) && k.thread != thread
  }

  /** What the answer of a source does to the files; nothing, when the last chunk cannot be read. */
  ghost predicate Stored(files: Files, thread: Thread, answer: Result<Batch, string>, now: int, after: Files) {
    match answer
    case Err(text) =>
      && ScanOf(after, thread.id) == ScanOf(files, thread.id).(lastError := Some(text))
      && forall k :: k != ScanKey(thread.id) ==> SameAt(files, after, k)
    case Ok(raw) =>
      if NothingNewIn(files, thread, raw) then after == files
      else
        && ScanMoved(ScanOf(files, thread.id), raw, now, ScanOf(after, thread.id))
        && LinksMoved(files, thread.id, StartsAgain(ScanOf(files, thread.id), raw), raw.links, after)
        && ThreadKey(thread.id) in after && after[ThreadKey(thread.id)] == ThreadValue(thread)
        && forall k: Key :: OfOther(k, thread.id) ==> SameAt(files, after, k)
  }

  lemma ScanIsStored(files: Files, thread: Thread, answer: Result<Batch, string>, listing: seq<TaskId>, now: int)
    requires IsListing(files, listing)
    ensures var r := Scanned(files, thread, answer, listing, now);
            r.Ok? ==> Stored(files, thread, answer, now, r.value)
  {
    var r := Scanned(files, thread, answer, listing, now);
    if answer.Ok? && r.Ok? {
      var batch := Effective(ScanOf(files, thread.id), answer.value);
      if !Unchanged(files, thread, batch) {
        var tail := Tail(files, thread.id, batch).value;
        ScanWrote(files, thread, batch, tail, listing, now);
        forall k | OfOther(k, thread.id)
          ensures SameAt(files, r.value, k)
        {
          ScanSpared(files, thread, batch, tail, listing, now, k);
        }
      }
    }
  }

  // ---------------------------------------------------------------- the links over a run

  /** Whether an event stores a batch for a conversation: its source answered, with news, and the log can be read. */
  ghost predicate Brings(s: State, e: Event, t: string) {
    && e.Scan? && e.thread.id == t && e.answer.Ok? && !NothingNewIn(s.files, e.thread, e.answer.value)
    && Scanned(s.files, e.thread, e.answer, e.listing, e.at).Ok?
  }

  ghost predicate BringsReset(s: State, e: Event, t: string) {
    Brings(s, e, t) && StartsAgain(ScanOf(s.files, t), e.answer.value)
  }

  lemma LinksStep(s: State, e: Event, s': State, t: string)
    requires Good(s) && LineageStep(s, e, s')
    ensures LinksAt(s'.files, LinksKey(t)) ==
            if Brings(s, e, t)
            then (if BringsReset(s, e, t) then [] else LinksAt(s.files, LinksKey(t))) + e.answer.value.links
            else LinksAt(s.files, LinksKey(t))
  {
    match e
    case Scan(thread, answer, listing, at) =>
      ScanIsStored(s.files, thread, answer, listing, at);
      assert SameAt(s.files, s'.files, LinksKey(t)) || t == thread.id || s'.files == s.files;
    case Finish(deltas, offsets, job, usage) =>
      var f := s.flight.value;
      if AcceptsResult(s.files, f, deltas) {
        WrittenAre(s.files, f, deltas, offsets);
        FinishSpares(s.files, f, Written(s.files, f, deltas, offsets), job, usage, LinksKey(t));
      }
    case _ =>
  }

  ghost function Share(s: State, e: Event, t: string): seq<Link> {
    if Brings(s, e, t) then e.answer.value.links else []
  }

  function Joined(parts: seq<seq<Link>>, m: nat, n: nat): seq<Link>
    requires m <= n <= |parts|
    decreases n
  {
    if m == n then [] else Joined(parts, m, n - 1) + parts[n - 1]
  }

  lemma Associate(a: seq<Link>, b: seq<Link>, c: seq<Link>)
    ensures (a + b) + c == a + (b + c)
  {
  }

  lemma {:induction false} JoinedOn(wholes: seq<seq<Link>>, parts: seq<seq<Link>>, m: nat, n: nat)
    requires m <= n <= |parts| && |wholes| == |parts| + 1
    requires forall k :: m <= k < n ==> wholes[k + 1] == wholes[k] + parts[k]
    ensures wholes[n] == wholes[m] + Joined(parts, m, n)
    decreases n
  {
    if m < n {
      JoinedOn(wholes, parts, m, n - 1);
      assert wholes[n - 1 + 1] == wholes[n - 1] + parts[n - 1];
      Associate(wholes[m], Joined(parts, m, n - 1), parts[n - 1]);
    } else {
      assert wholes[m] + [] == wholes[m];
    }
  }

  lemma {:induction false} JoinedFrom(parts: seq<seq<Link>>, m: nat, n: nat)
    requires m < n <= |parts|
    ensures Joined(parts, m, n) == parts[m] + Joined(parts, m + 1, n)
    decreases n
  {
    if m + 1 < n {
      JoinedFrom(parts, m, n - 1);
      Associate(parts[m], Joined(parts, m + 1, n - 1), parts[n - 1]);
    }
  }

  /** The links that each event of a run brings to a conversation. */
  ghost function Shares(states: seq<State>, events: seq<Event>, t: string): (r: seq<seq<Link>>)
    requires |states| == |events| + 1
    ensures |r| == |events| && forall k :: 0 <= k < |r| ==> r[k] == Share(states[k], events[k], t)
  {
    seq(|events|, k requires 0 <= k < |events| => Share(states[k], events[k], t))
  }

  ghost function StoredLinks(states: seq<State>, t: string): (r: seq<seq<Link>>)
    ensures |r| == |states| && forall k :: 0 <= k < |r| ==> r[k] == LinksAt(states[k].files, LinksKey(t))
  {
    seq(|states|, k requires 0 <= k < |states| => LinksAt(states[k].files, LinksKey(t)))
  }

  lemma LinksRunStep(states: seq<State>, events: seq<Event>, t: string, n: nat)
    requires LineageRun(states, events) && n < |events|
    ensures LinksAt(states[n + 1].files, LinksKey(t)) ==
            (if BringsReset(states[n], events[n], t) then [] else LinksAt(states[n].files, LinksKey(t)))
            + Share(states[n], events[n], t)
  {
    RunsAreGood(states, events, n);
    assert StepAt(states, events, n);
    LinksStep(states[n], events[n], states[n + 1], t);
  }

  /** None of the events from `m` to `n` is a reset of the conversation. */
  ghost predicate Unreset(states: seq<State>, events: seq<Event>, t: string, m: nat, n: nat)
    requires |states| == |events| + 1 && n < |states|
  {
    forall k :: m <= k < n ==> !BringsReset(states[k], events[k], t)
  }

  /** Without a reset in between, the stored links are the earlier ones and then all that was brought. */
  lemma LinksAppend(states: seq<State>, events: seq<Event>, t: string, m: nat, n: nat)
    requires LineageRun(states, events) && m <= n < |states|
    requires Unreset(states, events, t, m, n)
    ensures LinksAt(states[n].files, LinksKey(t))
            == LinksAt(states[m].files, LinksKey(t)) + Joined(Shares(states, events, t), m, n)
  {
    var wholes, parts := StoredLinks(states, t), Shares(states, events, t);
    forall k | m <= k < n
      ensures wholes[k + 1] == wholes[k] + parts[k]
    {
      LinksRunStep(states, events, t, k);
    }
    JoinedOn(wholes, parts, m, n);
  }

  lemma LinksAfterReset(states: seq<State>, events: seq<Event>, t: string, r: nat)
    requires LineageRun(states, events) && r < |events| && BringsReset(states[r], events[r], t)
    ensures LinksAt(states[r + 1].files, LinksKey(t)) == Shares(states, events, t)[r]
  {
    LinksRunStep(states, events, t, r);
    assert [] + Share(states[r], events[r], t) == Share(states[r], events[r], t);
  }

  /** The stored links of a conversation are those of all batches from its last reset on, in order. */
  lemma LinksSinceReset(states: seq<State>, events: seq<Event>, t: string, r: nat, n: nat)
    requires LineageRun(states, events) && r < n < |states|
    requires BringsReset(states[r], events[r], t)
    requires Unreset(states, events, t, r + 1, n)
    ensures LinksAt(states[n].files, LinksKey(t)) == Joined(Shares(states, events, t), r, n)
  {
    var wholes, parts := StoredLinks(states, t), Shares(states, events, t);
    LinksAfterReset(states, events, t, r);
    forall k | r < k < n
      ensures wholes[k + 1] == wholes[k] + parts[k]
    {
      LinksRunStep(states, events, t, k);
    }
    JoinedAfter(wholes, parts, r, n);
  }

  lemma JoinedAfter(wholes: seq<seq<Link>>, parts: seq<seq<Link>>, m: nat, n: nat)
    requires m < n <= |parts| && |wholes| == |parts| + 1 && wholes[m + 1] == parts[m]
    requires forall k :: m < k < n ==> wholes[k + 1] == wholes[k] + parts[k]
    ensures wholes[n] == Joined(parts, m, n)
  {
    JoinedOn(wholes, parts, m + 1, n);
    JoinedFrom(parts, m, n);
  }

  // ---------------------------------------------------------------- what a reset leaves of a task

  ghost predicate Ascends(at: seq<nat>) {
    forall i, j :: 0 <= i < j < |at| ==> at[i] < at[j]
  }

  /** The task without the evidence of a conversation, a revision on if it had any. */
  ghost predicate Pruned(before: Task, thread: string, after: Task) {
    if forall e :: e in before.episodes ==> e.threadId != thread then after == before
    else
      && SameButOne(before, after) && after.manualCompletion == before.manualCompletion
      && (forall e :: e in after.episodes <==> e in before.episodes && e.threadId != thread)
      && (forall edge :: edge in after.edges <==>
            edge in before.edges && Present(after.episodes, edge.from) && Present(after.episodes, edge.to))
      && (exists at :: Ascends(at) && Picks(before.episodes, at, after.episodes))
      && (exists at :: Ascends(at) && Picks(before.edges, at, after.edges))
  }

  ghost predicate SameButOne(before: Task, after: Task) {
    && after.id == before.id && after.revision == before.revision + 1 && after.rootThreadId == before.rootThreadId
    && after.title == before.title && after.detail == before.detail && after.watermarks == before.watermarks
  }

  ghost predicate Picks<T>(all: seq<T>, at: seq<nat>, some: seq<T>) {
    |some| == |at| && forall i :: 0 <= i < |at| ==> at[i] < |all| && some[i] == all[at[i]]
  }

  lemma {:induction false} KeptEdgePlaces(edges: seq<Edge>, kept: seq<Episode>) returns (at: seq<nat>)
    ensures Ascends(at) && Picks(edges, at, KeepEdges(edges, kept))
  {
    at := [];
    if edges != [] {
      var rest := KeptEdgePlaces(edges[1..], kept);
      PickedLater(edges, rest, KeepEdges(edges[1..], kept));
      at := Shifted(rest);
      if (exists e :: e in kept && e.id == edges[0].from) && (exists e :: e in kept && e.id == edges[0].to) {
        PickedFirst(edges, at, KeepEdges(edges[1..], kept));
        at := [0] + at;
      }
    }
  }

  function Shifted(at: seq<nat>): (r: seq<nat>)
    ensures |r| == |at| && forall i :: 0 <= i < |at| ==> r[i] == at[i] + 1
  {
    seq(|at|, i requires 0 <= i < |at| => at[i] + 1)
  }

  lemma PickedLater<T>(all: seq<T>, at: seq<nat>, some: seq<T>)
    requires all != [] && Ascends(at) && Picks(all[1..], at, some)
    ensures Ascends(Shifted(at)) && Picks(all, Shifted(at), some) && forall i :: 0 <= i < |at| ==> Shifted(at)[i] > 0
  {
  }

  lemma PickedFirst<T>(all: seq<T>, at: seq<nat>, some: seq<T>)
    requires all != [] && Ascends(at) && Picks(all, at, some) && forall i :: 0 <= i < |at| ==> at[i] > 0
    ensures Ascends([0] + at) && Picks(all, [0] + at, [all[0]] + some)
  {
  }

  lemma {:induction false} KeptEdgesAre(edges: seq<Edge>, kept: seq<Episode>)
    ensures forall e :: e in KeepEdges(edges, kept) <==> e in edges && Present(kept, e.from) && Present(kept, e.to)
  {
    if edges != [] {
      KeptEdgesAre(edges[1..], kept);
      PresentIsIn(kept, edges[0].from);
      PresentIsIn(kept, edges[0].to);
      assert edges == [edges[0]] + edges[1..];
    }
  }

  lemma PruneIs(task: Task, thread: string)
    ensures Pruned(task, thread, Prune(task, thread))
  {
    KeptEpisodes(task.episodes, thread);
    var at := KeptPlaces(task.episodes, thread);
    var kept := KeepEpisodes(task.episodes, thread);
    assert Ascends(at) && Picks(task.episodes, at, kept);
    var edgeAt := KeptEdgePlaces(task.edges, kept);
    KeptEdgesAre(task.edges, kept);
  }

  // ---------------------------------------------------------------- completion

  /** The task with a completion stored: accepted or not, and if so with all of its conversations as they are now. */
  ghost predicate Accepted(files: Files, before: Task, completed: bool, after: Task) {
    && SameTask(before, after) && after.revision == before.revision + 1 && after.manualCompletion == completed
    && forall t :: if completed && exists e :: e in before.episodes && e.threadId == t
                   then t in after.watermarks && after.watermarks[t] == ScanOf(files, t).cursor
                   else SameMark(before.watermarks, after.watermarks, t)
  }

  ghost predicate SameTask(before: Task, after: Task) {
    && after.id == before.id && after.rootThreadId == before.rootThreadId && after.title == before.title
    && after.detail == before.detail && after.episodes == before.episodes && after.edges == before.edges
  }

  ghost predicate SameMark(a: map<string, Cursor>, b: map<string, Cursor>, t: string) {
    (t in a <==> t in b) && (t in a ==> a[t] == b[t])
  }

  /** A completion reaches exactly the task at the expected revision, and changes that one file. */
  lemma CompletionIs(files: Files, id: TaskId, expected: nat, completed: bool)
    ensures var r := AfterCompletion(files, id, expected, completed);
            && (r == Err(TaskNotFound) <==> TaskAt(files, id).None?)
            && (r.Ok? <==> TaskAt(files, id).Some? && TaskAt(files, id).value.revision == expected)
            && (r.Ok? ==>
                  && TaskAt(r.value, id).Some? && Accepted(files, TaskAt(files, id).value, completed, TaskAt(r.value, id).value)
                  && forall k :: k != TaskKey(id) ==> SameAt(files, r.value, k))
  {
    var r := AfterCompletion(files, id, expected, completed);
    if r.Ok? {
      var task := TaskAt(files, id).value;
      forall t
        ensures if completed && exists e :: e in task.episodes && e.threadId == t
                then t in TaskAt(r.value, id).value.watermarks && TaskAt(r.value, id).value.watermarks[t] == ScanOf(files, t).cursor
                else SameMark(task.watermarks, TaskAt(r.value, id).value.watermarks, t)
      {
        WatermarksAre(files, task.episodes, task.watermarks, t);
      }
    }
  }

  // ---------------------------------------------------------------- the candidates of an extraction

  /** The candidates are the listed tasks of the root at these places, all of them and in their order. */
  ghost predicate OfRoot(files: Files, listing: seq<TaskId>, root: string, at: seq<nat>, candidates: seq<Task>) {
    && Ascends(at) && |at| == |candidates|
    && (forall i :: 0 <= i < |at| ==>
          at[i] < |listing| && TaskAt(files, listing[at[i]]) == Some(candidates[i]) && candidates[i].rootThreadId == root)
    && forall p :: 0 <= p < |listing| && TaskAt(files, listing[p]).Some? && TaskAt(files, listing[p]).value.rootThreadId == root ==>
         p in at
  }

  lemma {:induction false} CandidatesAreInOrder(files: Files, listing: seq<TaskId>, root: string) returns (at: seq<nat>)
    ensures OfRoot(files, listing, root, at, CandidatesOf(files, listing, root))
    decreases |listing|
  {
    at := [];
    if listing != [] {
      var k := |listing| - 1;
      at := CandidatesAreInOrder(files, listing[..k], root);
      var task := TaskAt(files, listing[k]);
      if task.Some? && task.value.rootThreadId == root {
        at := at + [k];
      }
    }
  }

  // ---------------------------------------------------------------- the commit of an extraction

  lemma {:induction false} IncomingIs(links: seq<Link>)
    ensures forall b :: b in Incoming(links) <==> exists l :: l in links && l.kind == "message" && l.evidence.byteOffset == b
  {
    if links != [] {
      IncomingIs(links[1..]);
      assert links == [links[0]] + links[1..];
    }
  }

  /** A message as it is supplied under its id: text beyond 2500 characters is left out and said to be. */
  ghost predicate IsExcerpt(m: Message, id: string, supplied: Message) {
    && m.evidence.eventId == id && supplied.(text := m.text) == m
    && (|m.text| <= 2500 ==> supplied.text == m.text)
    && (|m.text| > 2500 ==> m.text[..2500] < supplied.text && supplied.text[2500..] == EXCERPT_MARK)
  }

  /** What the merge works on: the supplied messages by id, and the thread messages known when it commits. */
  lemma ContextIs(files: Files, f: Flight)
    requires forall i :: 0 <= i < |f.picked| ==> f.picked[i] < |f.log|
    ensures var ctx := ContextOf(files, f);
            && ctx.thread == f.thread && ctx.root == f.root && ctx.log == f.log
            && (forall i :: 0 <= i < |f.picked| ==> f.log[f.picked[i]].evidence.eventId in ctx.source)
            && (forall id :: id in ctx.source ==> exists i :: 0 <= i < |f.picked| && IsExcerpt(f.log[f.picked[i]], id, ctx.source[id]))
            && (forall b :: b in ctx.incoming <==>
                  exists l :: l in LinksAt(files, LinksKey(f.thread)) && l.kind == "message" && l.evidence.byteOffset == b)
  {
    IncomingIs(LinksAt(files, LinksKey(f.thread)));
    SuppliedIs(f.log, f.picked);
  }

  lemma ExcerptIs(m: Message)
    ensures IsExcerpt(m, m.evidence.eventId, Excerpt(m))
  {
    if |m.text| > 2500 {
      assert (m.text[..2500] + EXCERPT_MARK)[2500..] == EXCERPT_MARK;
    }
  }

  lemma SuppliedIs(log: seq<Message>, picked: seq<nat>)
    requires forall i :: 0 <= i < |picked| ==> picked[i] < |log|
    ensures var source := SourceOf(Supply(log, picked));
            && (forall i :: 0 <= i < |picked| ==> log[picked[i]].evidence.eventId in source)
            && (forall id :: id in source ==> exists i :: 0 <= i < |picked| && IsExcerpt(log[picked[i]], id, source[id]))
  {
    var input := Supply(log, picked);
    forall i | 0 <= i < |picked|
      ensures IsExcerpt(log[picked[i]], input[i].evidence.eventId, input[i])
    {
      ExcerptIs(log[picked[i]]);
    }
  }

  ghost predicate LinkedInTurn(task: Task, links: seq<Link>, offsets: map<string, nat>, after: Task) {
    exists stages :: DrawnInTurn(task, links, offsets, stages, after)
  }

  /** The scan behind a commit: the batch counts as extracted, the log and its cursor are as they were. */
  ghost predicate CountedUpTo(f: Flight, before: ScanState, after: ScanState) {
    && after.extractedCount == f.end && after.lastError == None
    && after.extractedRevision == (if f.end >= f.scan.messageCount then f.scan.dirtyRevision else before.extractedRevision)
    && after.cursor == before.cursor && after.messageCount == before.messageCount
    && after.normalizationVersion == before.normalizationVersion
    && after.dirtyRevision == before.dirtyRevision && after.lastChangedAt == before.lastChangedAt
  }

  /** The candidates as the deltas leave them, one after the other, and then with the lineage drawn into each. */
  ghost predicate MergedAndLinked(
    ctx: Context, candidates: seq<Task>, deltas: seq<TaskDelta>, links: seq<Link>, offsets: map<string, nat>,
    merged: seq<seq<Task>>, linked: seq<Task>)
  {
    && |merged| == |deltas| + 1 && MergedInTurn(ctx, candidates, deltas, merged, merged[|deltas|])
    && |linked| == |merged[|deltas|]|
    && forall i :: 0 <= i < |linked| ==> LinkedInTurn(merged[|deltas|][i], links, offsets, linked[i])
  }

  /** The tasks are stored, the batch is counted, and every other file of the lineage is as it was. */
  ghost predicate StoredBy(files: Files, f: Flight, linked: seq<Task>, after: Files) {
    && (forall i :: 0 <= i < |linked| ==> TaskAt(after, linked[i].id) == Some(linked[i]))
    && (forall id :: (forall i :: 0 <= i < |linked| ==> linked[i].id != id) ==> TaskAt(after, id) == TaskAt(files, id))
    && CountedUpTo(f, ScanOf(files, f.thread), ScanOf(after, f.thread))
    && (forall k: Key :: k != ScanKey(f.thread) && !k.TaskKey? && !k.OtherKey? ==> SameAt(files, after, k))
  }

  /**
    An accepted extraction stores its candidates as its deltas leave them, with the lineage drawn in, counts its
    batch, and leaves all else of the lineage alone.
   */
  lemma CommitIs(s: State, e: Event, s': State) returns (merged: seq<seq<Task>>, linked: seq<Task>)
    requires Good(s) && LineageStep(s, e, s') && e.Finish? && AcceptsResult(s.files, s.flight.value, e.deltas)
    ensures MergedAndLinked(ContextOf(s.files, s.flight.value), s.flight.value.candidates, e.deltas,
                            LinksAt(s.files, LineageKey), e.offsets, merged, linked)
    ensures StoredBy(s.files, s.flight.value, linked, s'.files)
  {
    var f := s.flight.value;
    AcceptedDeltas(s.files, f, e.deltas);
    WrittenAre(s.files, f, e.deltas, e.offsets);
    merged := ExtractionIsMerged(ContextOf(s.files, f), f.candidates, e.deltas);
    linked := LinkAll(merged[|e.deltas|], LinksAt(s.files, LineageKey), e.offsets);
    AllLinked(merged[|e.deltas|], LinksAt(s.files, LineageKey), e.offsets);
    CommitReads(s.files, f, linked, e.job, e.usage);
  }

  lemma AllLinked(merged: seq<Task>, links: seq<Link>, offsets: map<string, nat>)
    ensures forall i :: 0 <= i < |merged| ==> LinkedInTurn(merged[i], links, offsets, LinkAll(merged, links, offsets)[i])
  {
    forall i | 0 <= i < |merged|
      ensures LinkedInTurn(merged[i], links, offsets, LinkAll(merged, links, offsets)[i])
    {
      var stages := LinksAreDrawn(merged[i], links, offsets);
    }
  }

  lemma CommitReads(files: Files, f: Flight, linked: seq<Task>, job: string, usage: string)
    requires Candidates(f.root, linked)
    ensures StoredBy(files, f, linked, Overlay(files, FinishWrites(files, f, linked, job, usage)))
  {
    var after := Overlay(files, FinishWrites(files, f, linked, job, usage));
    forall id
      ensures forall i :: 0 <= i < |linked| && linked[i].id == id ==> TaskAt(after, id) == Some(linked[i])
      ensures (forall i :: 0 <= i < |linked| ==> linked[i].id != id) ==> TaskAt(after, id) == TaskAt(files, id)
    {
      FinishReads(files, f, linked, job, usage, id);
    }
    assert ScanOf(after, f.thread) == ScanAfter(ScanOf(files, f.thread), f) by {
      FinishReads(files, f, linked, job, usage, TaskId("", "", ""));
    }
    forall k: Key | k != ScanKey(f.thread) && !k.TaskKey? && !k.OtherKey?
      ensures SameAt(files, after, k)
    {
      FinishSpares(files, f, linked, job, usage, k);
    }
  }

  /** It also leaves its record under its job and as the latest one. */
  lemma CommitRecords(files: Files, f: Flight, linked: seq<Task>, job: string, usage: string)
    requires Candidates(f.root, linked)
    ensures
      var after := Overlay(files, FinishWrites(files, f, linked, job, usage));
      forall k :: k in [OtherKey("extraction-revisions/" + job), OtherKey("latest-extraction.json")] ==>
        k in after && after[k] == OtherValue(usage)
  {
    var own, w := OwnWrites(files, f, job, usage), FinishWrites(files, f, linked, job, usage);
    FinishDistinct(files, f, linked, job, usage);
    OverlayPair(files, w, own[1]);
    OverlayPair(files, w, own[2]);
  }

  // ---------------------------------------------------------------- how long an acceptance stands

  /** The task still has its acceptance and the marks of it, and all of its evidence. */
  ghost predicate Stands(before: Task, after: Task) {
    && after.id == before.id && after.manualCompletion && after.watermarks == before.watermarks
    && forall x :: Has(before, x) ==> Has(after, x)
  }

  /** One delta leaves a task alone or is taken by it. */
  lemma MergedAt(ctx: Context, tasks: seq<Task>, d: TaskDelta, after: seq<Task>, i: nat)
    requires Supplied(ctx, d) && DeltaMerged(ctx, tasks, d, after) && i < |tasks|
    ensures |tasks| <= |after| && (after[i] == tasks[i] || Took(ctx, tasks[i], d, after[i]))
  {
    if j :| 0 <= j < |tasks| && Takes(tasks, d, j) {
      assert TookAt(ctx, tasks, d, j, after);
    } else if j :| 0 <= j < |tasks| && tasks[j].id == Asked(ctx, d) {
      assert TookAt(ctx, tasks, d, j, after);
    } else {
      assert after[..|tasks|][i] == after[i];
    }
  }

  /** Deltas without a message of the user from after the acceptance leave it standing. */
  lemma {:induction false} MergeStands(
    ctx: Context, tasks: seq<Task>, deltas: seq<TaskDelta>, stages: seq<seq<Task>>, n: nat, i: nat)
    requires n <= |deltas| && |stages| == |deltas| + 1 && MergedInTurn(ctx, tasks, deltas, stages, stages[|deltas|])
    requires i < |tasks| && tasks[i].manualCompletion
    requires forall d :: d in deltas ==> !OpenedBy(ctx, tasks[i], d)
    ensures |tasks| <= |stages[n]| && Stands(tasks[i], stages[n][i])
  {
    if n > 0 {
      MergeStands(ctx, tasks, deltas, stages, n - 1, i);
      var mid, d := stages[n - 1], deltas[n - 1];
      MergedAt(ctx, mid, d, stages[n], i);
      assert d in deltas;
      if x :| InDelta(d, x) && Opens(ctx, mid[i], x) {
        assert Opens(ctx, tasks[i], x);
      }
    }
  }

  /** Drawing links leaves everything but the edges alone. */
  lemma LinkedStands(ctx: Context, candidates: seq<Task>, deltas: seq<TaskDelta>, links: seq<Link>, offsets: map<string, nat>,
                     merged: seq<seq<Task>>, linked: seq<Task>, i: nat)
    requires MergedAndLinked(ctx, candidates, deltas, links, offsets, merged, linked)
    requires i < |candidates| && candidates[i].manualCompletion
    requires forall d :: d in deltas ==> !OpenedBy(ctx, candidates[i], d)
    ensures i < |linked| && Stands(candidates[i], linked[i])
  {
    MergeStands(ctx, candidates, deltas, merged, |deltas|, i);
    var stages :| DrawnInTurn(merged[|deltas|][i], links, offsets, stages, linked[i]);
    DrawnStands(merged[|deltas|][i], links, offsets, stages, |links|);
  }

  lemma {:induction false} DrawnStands(task: Task, links: seq<Link>, offsets: map<string, nat>, stages: seq<Task>, n: nat)
    requires n <= |links| && |stages| == |links| + 1 && DrawnInTurn(task, links, offsets, stages, stages[|links|])
    ensures stages[n] == task.(edges := stages[n].edges)
  {
    if n > 0 {
      DrawnStands(task, links, offsets, stages, n - 1);
      assert Drawn(stages[n - 1], links[n - 1], offsets, stages[n - 1 + 1]);
    }
  }

  /** An extraction that opens an accepted task: one of its deltas brings a message of the user from after the acceptance. */
  ghost predicate OpensByMessage(s: State, e: Event, t: Task) {
    && e.Finish? && s.flight.Some?
    && var f := s.flight.value;
    && (forall i :: 0 <= i < |f.picked| ==> f.picked[i] < |f.log|)
    && AcceptsResult(s.files, f, e.deltas)
    && exists d :: d in e.deltas && OpenedBy(ContextOf(s.files, f), t, d)
  }

  /**
    An accepted task stays accepted through every step of the lineage but two: its own completion is changed, or
    an extraction brings a message of the user from after the acceptance.
   */
  lemma AcceptanceStands(s: State, e: Event, s': State, id: TaskId)
    requires Good(s) && LineageStep(s, e, s')
    requires TaskAt(s.files, id).Some? && TaskAt(s.files, id).value.manualCompletion
    ensures TaskAt(s'.files, id).Some?
    ensures TaskAt(s'.files, id).value.manualCompletion
            || (e.Complete? && e.id == id && !e.completed)
            || OpensByMessage(s, e, TaskAt(s.files, id).value)
  {
    match e
    case Scan(thread, answer, listing, at) => ScanStands(s.files, thread, answer, listing, at, id);
    case Complete(task, expected, completed) => CompletionIs(s.files, task, expected, completed);
    case Finish(deltas, offsets, job, usage) =>
      if AcceptsResult(s.files, s.flight.value, deltas) {
        CommitStands(s, e, s', id);
      }
    case _ =>
  }

  lemma ScanStands(files: Files, thread: Thread, answer: Result<Batch, string>, listing: seq<TaskId>, at: int, id: TaskId)
    requires IsListing(files, listing) && TaskAt(files, id).Some?
    ensures
      var r := Scanned(files, thread, answer, listing, at);
      r.Ok? ==> TaskAt(r.value, id).Some?
                && TaskAt(r.value, id).value.manualCompletion == TaskAt(files, id).value.manualCompletion
  {
    if answer.Ok? {
      var batch := Effective(ScanOf(files, thread.id), answer.value);
      if !Unchanged(files, thread, batch) && Tail(files, thread.id, batch).Some? {
        ScanTasks(files, thread, batch, Tail(files, thread.id, batch).value, listing, at, id);
        PruneIs(TaskAt(files, id).value, thread.id);
      }
    }
  }

  lemma CommitStands(s: State, e: Event, s': State, id: TaskId)
    requires Good(s) && LineageStep(s, e, s') && e.Finish? && AcceptsResult(s.files, s.flight.value, e.deltas)
    requires TaskAt(s.files, id).Some? && TaskAt(s.files, id).value.manualCompletion
    ensures TaskAt(s'.files, id).Some?
    ensures TaskAt(s'.files, id).value.manualCompletion || OpensByMessage(s, e, TaskAt(s.files, id).value)
  {
    CommitLosesNoUpdate(s, e, s', id);
    if !OpensByMessage(s, e, TaskAt(s.files, id).value) && TaskAt(s'.files, id) != TaskAt(s.files, id) {
      var f := s.flight.value;
      var i :| 0 <= i < |f.candidates| && TaskAt(s.files, id) == Some(f.candidates[i]);
      CandidateStands(s, e, s', i);
      assert TaskGood(id, f.candidates[i]);
    }
  }

  lemma CandidateStands(s: State, e: Event, s': State, i: nat)
    requires Good(s) && LineageStep(s, e, s') && e.Finish? && AcceptsResult(s.files, s.flight.value, e.deltas)
    requires i < |s.flight.value.candidates| && s.flight.value.candidates[i].manualCompletion
    requires !OpensByMessage(s, e, s.flight.value.candidates[i])
    ensures var r := TaskAt(s'.files, s.flight.value.candidates[i].id); r.Some? && r.value.manualCompletion
  {
    var f := s.flight.value;
    var merged, linked := CommitIs(s, e, s');
    LinkedStands(ContextOf(s.files, f), f.candidates, e.deltas, LinksAt(s.files, LineageKey), e.offsets, merged, linked, i);
    assert TaskAt(s'.files, linked[i].id) == Some(linked[i]);
  }
}
