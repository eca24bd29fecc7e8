/**
  Folding one extraction result into the candidate tasks: validation, splitting at thread messages,
  extending or adding episodes, sequence edges and lineage edges.
 */
module Merge {
  import opened Results
  import opened Domain
  import opened Texts

  datatype EpisodeDelta = EpisodeDelta(title: string, evidenceIds: seq<string>)

  datatype TaskDelta = TaskDelta(
    existing: Option<TaskId>, title: string, detail: string, episodes: seq<EpisodeDelta>)

  datatype Rejection = InvalidTitle | UnknownTask | NoEvidence | UnknownEvidence | RepeatedEvidence

  /** What one merge works on: the thread, its root, the supplied messages by id, its whole log, message boundaries. */
  datatype Context = Context(
    thread: string, root: string, source: map<string, Message>, log: seq<Message>, incoming: seq<nat>)

  // ---------------------------------------------------------------- validation

  function TrimStart(s: string): string {
    if s != "" && White(s[0]) then TrimStart(s[1..]) else s
  }

  function TrimEnd(s: string): string {
    if s != "" && White(s[|s| - 1]) then TrimEnd(s[..|s| - 1]) else s
  }

  function Trim(s: string): string {
    TrimEnd(TrimStart(s))
  }

  /** All evidence of a task delta, episode after episode. */
  function DeltaIds(episodes: seq<EpisodeDelta>): seq<string> {
    if episodes == [] then []
    else DeltaIds(episodes[..|episodes| - 1]) + episodes[|episodes| - 1].evidenceIds
  }

  ghost predicate NoRepeats<T>(s: seq<T>) {
    forall i, j :: 0 <= i < j < |s| ==> s[i] != s[j]
  }

  lemma NoRepeatsConcat<T>(a: seq<T>, b: seq<T>)
    ensures NoRepeats(a + b) <==> NoRepeats(a) && NoRepeats(b) && forall x :: x in a ==> x !in b
  {
    if NoRepeats(a + b) {
      assert forall i :: 0 <= i < |a| ==> a[i] == (a + b)[i];
      assert forall i :: 0 <= i < |b| ==> b[i] == (a + b)[|a| + i];
      assert forall x :: x in a ==> x !in b;
    }
    if NoRepeats(a) && NoRepeats(b) && forall x :: x in a ==> x !in b {
      forall i, j | 0 <= i < j < |a + b|
        ensures (a + b)[i] != (a + b)[j]
      {
        if i < |a| <= j {
          assert a[i] in a && b[j - |a|] in b;
        }
      }
    }
  }

  ghost predicate ValidEpisodes(episodes: seq<EpisodeDelta>, allowed: set<string>) {
    && (forall e :: e in episodes ==> Trim(e.title) != "" && e.evidenceIds != [])
    && (forall id :: id in DeltaIds(episodes) ==> id in allowed)
    && NoRepeats(DeltaIds(episodes))
  }

  ghost predicate ValidDelta(d: TaskDelta, allowed: set<string>, tasks: set<TaskId>) {
    && Trim(d.title) != "" && |d.title| <= 160 && |d.detail| <= 2000
    && (d.existing.Some? ==> d.existing.value in tasks)
    && d.episodes != [] && ValidEpisodes(d.episodes, allowed)
  }

  ghost predicate ValidExtraction(deltas: seq<TaskDelta>, allowed: set<string>, tasks: set<TaskId>) {
    forall d :: d in deltas ==> ValidDelta(d, allowed, tasks)
  }

  method ValidateEpisodes(episodes: seq<EpisodeDelta>, allowed: set<string>) returns (r: Result<(), Rejection>)
    ensures r.Ok? <==> ValidEpisodes(episodes, allowed)
  {
    var taken: seq<string> := [];
    for i := 0 to |episodes|
      invariant taken == DeltaIds(episodes[..i]) && ValidEpisodes(episodes[..i], allowed)
    {
      var episode := episodes[i];
      assert episodes[..i + 1] == episodes[..i] + [episode];
      ValidMore(episodes[..i], episode, allowed);
      PrefixValid(episodes, i + 1, allowed);
      if Trim(episode.title) == "" || episode.evidenceIds == [] {
        return Err(NoEvidence);
      }
      var checked := AssignIds(taken, episode.evidenceIds, allowed);
      if checked.Err? {
        return Err(checked.error);
      }
      taken := taken + episode.evidenceIds;
    }
    assert episodes[..|episodes|] == episodes;
    return Ok(());
  }

  lemma ValidMore(front: seq<EpisodeDelta>, e: EpisodeDelta, allowed: set<string>)
    requires ValidEpisodes(front, allowed)
    ensures DeltaIds(front + [e]) == DeltaIds(front) + e.evidenceIds
    ensures ValidEpisodes(front + [e], allowed) <==>
            && Trim(e.title) != "" && e.evidenceIds != []
            && NoRepeats(DeltaIds(front) + e.evidenceIds) && forall id :: id in DeltaIds(front) + e.evidenceIds ==> id in allowed
  {
    assert (front + [e])[..|front|] == front;
    assert e in front + [e];
  }

  lemma PrefixValid(episodes: seq<EpisodeDelta>, n: nat, allowed: set<string>)
    requires n <= |episodes|
    ensures ValidEpisodes(episodes, allowed) ==> ValidEpisodes(episodes[..n], allowed)
  {
    RepeatInPrefix(episodes, n);
  }

  /** The inner loop: every id is allowed and new, or the first that is not ends it. */
  method AssignIds(before: seq<string>, ids: seq<string>, allowed: set<string>) returns (r: Result<(), Rejection>)
    requires NoRepeats(before) && forall id :: id in before ==> id in allowed
    ensures r.Ok? <==> NoRepeats(before + ids) && forall id :: id in before + ids ==> id in allowed
  {
    var taken := before;
    for p := 0 to |ids|
      invariant taken == before + ids[..p]
      invariant NoRepeats(taken) && forall id :: id in taken ==> id in allowed
    {
      var id := ids[p];
      assert (before + ids)[|before| + p] == id;
      if id !in allowed {
        return Err(UnknownEvidence);
      }
      if id in taken {
        var q :| 0 <= q < |taken| && taken[q] == id;
        assert (before + ids)[q] == id;
        return Err(RepeatedEvidence);
      }
      taken := taken + [id];
    }
    assert ids[..|ids|] == ids;
    return Ok(());
  }

  lemma RepeatInPrefix(episodes: seq<EpisodeDelta>, n: nat)
    requires n <= |episodes|
    ensures forall id :: id in DeltaIds(episodes[..n]) ==> id in DeltaIds(episodes)
    ensures NoRepeats(DeltaIds(episodes)) ==> NoRepeats(DeltaIds(episodes[..n]))
  {
    DeltaIdsPrefix(episodes, n);
    var whole, part := DeltaIds(episodes), DeltaIds(episodes[..n]);
    assert forall k :: 0 <= k < |part| ==> whole[k] == part[k];
  }

  lemma {:induction false} DeltaIdsPrefix(episodes: seq<EpisodeDelta>, n: nat)
    requires n <= |episodes|
    ensures DeltaIds(episodes[..n]) <= DeltaIds(episodes)
    decreases |episodes| - n
  {
    if n < |episodes| {
      assert episodes[..n + 1][..n] == episodes[..n];
      DeltaIdsPrefix(episodes, n + 1);
    } else {
      assert episodes[..n] == episodes;
    }
  }

  /** `validate`: accepts exactly the valid extractions. */
  method Validate(deltas: seq<TaskDelta>, allowed: set<string>, tasks: set<TaskId>) returns (r: Result<(), Rejection>)
    ensures r.Ok? <==> ValidExtraction(deltas, allowed, tasks)
  {
    for i := 0 to |deltas|
      invariant forall j :: 0 <= j < i ==> ValidDelta(deltas[j], allowed, tasks)
    {
      var d := deltas[i];
      assert ValidExtraction(deltas, allowed, tasks) ==> ValidDelta(d, allowed, tasks);
      if Trim(d.title) == "" || |d.title| > 160 || |d.detail| > 2000 {
        return Err(InvalidTitle);
      }
      if d.existing.Some? && d.existing.value !in tasks {
        return Err(UnknownTask);
      }
      if d.episodes == [] {
        return Err(NoEvidence);
      }
      var episodes := ValidateEpisodes(d.episodes, allowed);
      if episodes.Err? {
        return episodes;
      }
    }
    return Ok(());
  }

  // ---------------------------------------------------------------- splitting at thread messages

  function Offset(ctx: Context, id: string): nat
    requires id in ctx.source
  {
    ctx.source[id].evidence.byteOffset
  }

  /** How many message boundaries lie at or before an offset. */
  function Boundaries(incoming: seq<nat>, offset: nat): (r: nat)
    ensures r <= |incoming|
  {
    if incoming == [] then 0
    else (if incoming[0] <= offset then 1 else 0) + Boundaries(incoming[1..], offset)
  }

  function Group(ctx: Context, ids: seq<string>, count: nat): seq<string>
    requires forall id :: id in ids ==> id in ctx.source
  {
    if ids == [] then []
    else
      var front := Group(ctx, ids[..|ids| - 1], count);
      var last := ids[|ids| - 1];
      if Boundaries(ctx.incoming, Offset(ctx, last)) == count then front + [last] else front
  }

  /** The groups with fewer than `bound` boundaries before them, in that order, the empty ones left out. */
  function Groups(ctx: Context, e: EpisodeDelta, bound: nat): seq<EpisodeDelta>
    requires forall id :: id in e.evidenceIds ==> id in ctx.source
  {
    if bound == 0 then []
    else
      var front := Groups(ctx, e, bound - 1);
      var ids := Group(ctx, e.evidenceIds, bound - 1);
      if ids == [] then front else front + [EpisodeDelta(e.title, ids)]
  }

  predicate AllSupplied(ctx: Context, episodes: seq<EpisodeDelta>) {
    forall e, id :: e in episodes && id in e.evidenceIds ==> id in ctx.source
  }

  function Split(ctx: Context, episodes: seq<EpisodeDelta>): seq<EpisodeDelta>
    requires AllSupplied(ctx, episodes)
  {
    if episodes == [] then []
    else Split(ctx, episodes[..|episodes| - 1]) + Groups(ctx, episodes[|episodes| - 1], |ctx.incoming| + 1)
  }

  /** One episode split with a table of groups, as the code fills and then drains it. */
  method SplitEpisode(ctx: Context, e: EpisodeDelta) returns (r: seq<EpisodeDelta>)
    requires forall id :: id in e.evidenceIds ==> id in ctx.source
    ensures r == Groups(ctx, e, |ctx.incoming| + 1)
  {
    var groups: map<nat, seq<string>> := map[];
    for p := 0 to |e.evidenceIds|
      invariant forall k: nat :: (if k in groups then groups[k] else []) == Group(ctx, e.evidenceIds[..p], k)
      invariant forall k: nat :: k in groups ==> groups[k] != []
    {
      var id := e.evidenceIds[p];
      assert e.evidenceIds[..p + 1][..p] == e.evidenceIds[..p];
      var k := Boundaries(ctx.incoming, Offset(ctx, id));
      groups := groups[k := (if k in groups then groups[k] else []) + [id]];
    }
    assert e.evidenceIds[..|e.evidenceIds|] == e.evidenceIds;
    r := [];
    for k := 0 to |ctx.incoming| + 1
      invariant r == Groups(ctx, e, k)
    {
      if k in groups {
        r := r + [EpisodeDelta(e.title, groups[k])];
      }
    }
  }

  lemma {:induction false} SplitSupplied(ctx: Context, episodes: seq<EpisodeDelta>)
    requires AllSupplied(ctx, episodes)
    ensures AllSupplied(ctx, Split(ctx, episodes))
    decreases |episodes|
  {
    if episodes != [] {
      SplitSupplied(ctx, episodes[..|episodes| - 1]);
      GroupsSupplied(ctx, episodes[|episodes| - 1], |ctx.incoming| + 1);
    }
  }

  lemma {:induction false} GroupsSupplied(ctx: Context, e: EpisodeDelta, bound: nat)
    requires forall id :: id in e.evidenceIds ==> id in ctx.source
    ensures AllSupplied(ctx, Groups(ctx, e, bound))
  {
    if bound > 0 {
      GroupsSupplied(ctx, e, bound - 1);
      GroupSupplied(ctx, e.evidenceIds, bound - 1);
    }
  }

  lemma {:induction false} GroupSupplied(ctx: Context, ids: seq<string>, count: nat)
    requires forall id :: id in ids ==> id in ctx.source
    ensures forall id :: id in Group(ctx, ids, count) ==> id in ids
  {
    if ids != [] {
      GroupSupplied(ctx, ids[..|ids| - 1], count);
    }
  }

  // ---------------------------------------------------------------- adding one episode

  function IdsOf(episodes: seq<Episode>): set<string> {
    set i, p | 0 <= i < |episodes| && 0 <= p < |episodes[i].evidenceIds| :: episodes[i].evidenceIds[p]
  }

  function Fresh(task: Task, ids: seq<string>): seq<string> {
    if ids == [] then []
    else if ids[0] in IdsOf(task.episodes) then Fresh(task, ids[1..])
    else [ids[0]] + Fresh(task, ids[1..])
  }

  /** Stable sort by offset: `id` goes before the equal ones, which came after it. */
  function Insert(ctx: Context, id: string, sorted: seq<string>): seq<string>
    requires id in ctx.source && forall x :: x in sorted ==> x in ctx.source
  {
    if sorted == [] || Offset(ctx, id) <= Offset(ctx, sorted[0]) then [id] + sorted
    else [sorted[0]] + Insert(ctx, id, sorted[1..])
  }

  function SortByOffset(ctx: Context, ids: seq<string>): (r: seq<string>)
    requires forall x :: x in ids ==> x in ctx.source
    ensures multiset(r) == multiset(ids) && |r| == |ids|
    ensures forall x :: x in r <==> x in ids
  {
    if ids == [] then []
    else
      assert ids == [ids[0]] + ids[1..];
      var rest := SortByOffset(ctx, ids[1..]);
      InsertPermutes(ctx, ids[0], rest);
      var r := Insert(ctx, ids[0], rest);
      assert forall x :: x in r <==> x in multiset(r);
      assert forall x :: x in ids <==> x in multiset(ids);
      r
  }

  lemma {:induction false} InsertPermutes(ctx: Context, id: string, sorted: seq<string>)
    requires id in ctx.source && forall x :: x in sorted ==> x in ctx.source
    ensures multiset(Insert(ctx, id, sorted)) == multiset(sorted) + multiset{id}
    ensures |Insert(ctx, id, sorted)| == |sorted| + 1
  {
    if sorted != [] {
      assert sorted == [sorted[0]] + sorted[1..];
      if Offset(ctx, id) > Offset(ctx, sorted[0]) {
        InsertPermutes(ctx, id, sorted[1..]);
      }
    }
  }

  function Find(log: seq<Message>, id: string): Option<Message> {
    if log == [] then None
    else if log[0].evidence.eventId == id then Some(log[0])
    else Find(log[1..], id)
  }

  /** Whether new evidence starting with `first` continues the last episode: same turn, no message in between. */
  predicate Continues(ctx: Context, task: Task, first: Message) {
    && task.episodes != []
    && var last := task.episodes[|task.episodes| - 1];
    && last.threadId == ctx.thread && last.evidenceIds != []
    && var m := Find(ctx.log, last.evidenceIds[|last.evidenceIds| - 1]);
    && m.Some? && m.value.turnId.Some? && m.value.turnId == first.turnId
    && !(exists i :: 0 <= i < |ctx.incoming| && m.value.evidence.byteOffset < ctx.incoming[i] <= first.evidence.byteOffset)
  }

  /** A user message at or after the point at which the task was accepted reopens it. */
  predicate Reopens(ctx: Context, task: Task, evidence: seq<string>)
    requires forall x :: x in evidence ==> x in ctx.source
  {
    exists i :: 0 <= i < |evidence| &&
      var m := ctx.source[evidence[i]];
      && m.role.User? && ctx.thread in task.watermarks
      && task.watermarks[ctx.thread].generation == m.evidence.generation
      && m.evidence.byteOffset >= task.watermarks[ctx.thread].offset
  }

  function SequenceEdge(ctx: Context, task: Task, id: EpisodeId, first: string): seq<Edge> {
    if task.episodes != [] && task.episodes[|task.episodes| - 1].threadId == ctx.thread
    then [Edge(task.episodes[|task.episodes| - 1].id, id, [first])]
    else []
  }

  /** The ids the task does not have yet, by offset. */
  function Unseen(ctx: Context, task: Task, ids: seq<string>): (r: seq<string>)
    requires forall x :: x in ids ==> x in ctx.source
    ensures forall x :: x in r <==> x in ids && x !in IdsOf(task.episodes)
  {
    FreshAre(task, ids);
    SortByOffset(ctx, Fresh(task, ids))
  }

  function AddEpisode(ctx: Context, task: Task, e: EpisodeDelta): (r: Task)
    requires forall x :: x in e.evidenceIds ==> x in ctx.source
    ensures r.id == task.id && r.rootThreadId == task.rootThreadId && r.revision == task.revision
  {
    var evidence := Unseen(ctx, task, e.evidenceIds);
    if evidence == [] then task
    else
      var first, last := ctx.source[evidence[0]], ctx.source[evidence[|evidence| - 1]];
      var manual := task.manualCompletion && !Reopens(ctx, task, evidence);
      if Continues(ctx, task, first) then
        var k := |task.episodes| - 1;
        var prior := task.episodes[k];
        var extended := prior.(evidenceIds := prior.evidenceIds + evidence, endedAt := last.timestamp);
        task.(manualCompletion := manual, episodes := task.episodes[..k] + [extended])
      else
        var id := EpisodeId(task.id, evidence[0]);
        task.(
          manualCompletion := manual,
          edges := task.edges + SequenceEdge(ctx, task, id, evidence[0]),
          episodes := task.episodes + [Episode(id, ctx.thread, e.title, evidence, first.timestamp, last.timestamp)])
  }

  lemma {:induction false} FreshAre(task: Task, ids: seq<string>)
    ensures forall x :: x in Fresh(task, ids) <==> x in ids && x !in IdsOf(task.episodes)
    ensures NoRepeats(ids) ==> NoRepeats(Fresh(task, ids))
  {
    if ids != [] {
      FreshAre(task, ids[1..]);
      assert ids == [ids[0]] + ids[1..];
    }
  }

  function AddEpisodes(ctx: Context, task: Task, episodes: seq<EpisodeDelta>): (r: Task)
    requires AllSupplied(ctx, episodes)
    ensures r.id == task.id && r.rootThreadId == task.rootThreadId && r.revision == task.revision
  {
    if episodes == [] then task
    else AddEpisode(ctx, AddEpisodes(ctx, task, episodes[..|episodes| - 1]), episodes[|episodes| - 1])
  }

  // ---------------------------------------------------------------- one task delta

  predicate Supplied(ctx: Context, d: TaskDelta) {
    && d.episodes != [] && d.episodes[0].evidenceIds != []
    && AllSupplied(ctx, d.episodes)
  }

  lemma {:induction false} DeltaIdsContain(episodes: seq<EpisodeDelta>)
    ensures forall e, x :: e in episodes && x in e.evidenceIds ==> x in DeltaIds(episodes)
    ensures forall x :: x in DeltaIds(episodes) ==> exists e :: e in episodes && x in e.evidenceIds
  {
    if episodes != [] {
      var front, last := episodes[..|episodes| - 1], episodes[|episodes| - 1];
      DeltaIdsContain(front);
      assert episodes == front + [last];
      forall x | x in DeltaIds(episodes)
        ensures exists e :: e in episodes && x in e.evidenceIds
      {
        if x in DeltaIds(front) {
          var e :| e in front && x in e.evidenceIds;
          assert e in episodes;
        } else {
          assert last in episodes;
        }
      }
    }
  }

  /** A valid delta is supplied: the merge never looks up a missing message. */
  lemma ValidIsSupplied(ctx: Context, d: TaskDelta, allowed: set<string>, tasks: set<TaskId>)
    requires ValidDelta(d, allowed, tasks) && allowed <= ctx.source.Keys
    ensures Supplied(ctx, d)
  {
    DeltaIdsContain(d.episodes);
    assert d.episodes[0] in d.episodes;
  }

  /** The candidate with the same trimmed title that already holds some of the evidence. */
  function OwnerOf(candidates: seq<Task>, d: TaskDelta): Option<TaskId> {
    if candidates == [] then None
    else if Trim(candidates[0].title) == Trim(d.title)
            && exists i :: 0 <= i < |DeltaIds(d.episodes)| && DeltaIds(d.episodes)[i] in IdsOf(candidates[0].episodes)
    then Some(candidates[0].id)
    else OwnerOf(candidates[1..], d)
  }

  function Resolve(ctx: Context, candidates: seq<Task>, d: TaskDelta): TaskId
    requires Supplied(ctx, d)
  {
    match d.existing
    case Some(id) => id
    case None =>
      match OwnerOf(candidates, d)
      case Some(id) => id
      case None => TaskId(ctx.root, d.episodes[0].evidenceIds[0], Trim(d.title))
  }

  function Position(candidates: seq<Task>, id: TaskId): (k: nat)
    ensures k <= |candidates|
    ensures k < |candidates| ==> candidates[k].id == id
    ensures forall i :: 0 <= i < k ==> candidates[i].id != id
  {
    if candidates == [] || candidates[0].id == id then 0 else 1 + Position(candidates[1..], id)
  }

  function NewTask(ctx: Context, id: TaskId, d: TaskDelta): Task {
    Task(0, id, ctx.root, d.title, d.detail, [], [], false, map[])
  }

  /** The task an id names among the candidates, or a new one for it. */
  function TaskFor(ctx: Context, candidates: seq<Task>, d: TaskDelta, id: TaskId): (r: Task)
    ensures r.id == id
  {
    var k := Position(candidates, id);
    if k < |candidates| then candidates[k] else NewTask(ctx, id, d)
  }

  /** A task with the evidence of a delta worked in, one revision on. */
  function Grown(ctx: Context, task: Task, d: TaskDelta): (r: Task)
    requires Supplied(ctx, d)
    ensures r.id == task.id && r.rootThreadId == task.rootThreadId && r.revision == task.revision + 1
  {
    SplitSupplied(ctx, d.episodes);
    AddEpisodes(ctx, task, Split(ctx, d.episodes)).(revision := task.revision + 1)
  }

  function Replace(candidates: seq<Task>, task: Task): (r: seq<Task>) {
    var k := Position(candidates, task.id);
    if k < |candidates| then candidates[k := task] else candidates + [task]
  }

  function MergeDelta(ctx: Context, candidates: seq<Task>, d: TaskDelta): seq<Task>
    requires Supplied(ctx, d)
  {
    Replace(candidates, Grown(ctx, TaskFor(ctx, candidates, d, Resolve(ctx, candidates, d)), d))
  }

  function MergeAll(ctx: Context, candidates: seq<Task>, deltas: seq<TaskDelta>): seq<Task>
    requires forall d :: d in deltas ==> Supplied(ctx, d)
  {
    if deltas == [] then candidates
    else MergeDelta(ctx, MergeAll(ctx, candidates, deltas[..|deltas| - 1]), deltas[|deltas| - 1])
  }

  lemma {:induction false} GroupIds(ctx: Context, ids: seq<string>, count: nat)
    requires forall id :: id in ids ==> id in ctx.source
    ensures forall x :: x in Group(ctx, ids, count) <==> x in ids && Boundaries(ctx.incoming, Offset(ctx, x)) == count
    ensures NoRepeats(ids) ==> NoRepeats(Group(ctx, ids, count))
    decreases |ids|
  {
    if ids != [] {
      var front, last := ids[..|ids| - 1], ids[|ids| - 1];
      assert ids == front + [last];
      GroupIds(ctx, front, count);
    }
  }

  /** The groups hold each id of the episode exactly where its boundary count puts it. */
  lemma {:induction false} GroupsIds(ctx: Context, e: EpisodeDelta, bound: nat)
    requires forall id :: id in e.evidenceIds ==> id in ctx.source
    ensures forall x :: x in DeltaIds(Groups(ctx, e, bound)) <==>
              x in e.evidenceIds && Boundaries(ctx.incoming, Offset(ctx, x)) < bound
    ensures forall g :: g in Groups(ctx, e, bound) ==> g.evidenceIds != [] && g.title == e.title
    ensures forall g, x, y :: g in Groups(ctx, e, bound) && x in g.evidenceIds && y in g.evidenceIds ==>
              x in ctx.source && y in ctx.source
              && Boundaries(ctx.incoming, Offset(ctx, x)) == Boundaries(ctx.incoming, Offset(ctx, y))
    ensures NoRepeats(e.evidenceIds) ==> NoRepeats(DeltaIds(Groups(ctx, e, bound)))
  {
    if bound > 0 {
      GroupsIds(ctx, e, bound - 1);
      GroupIds(ctx, e.evidenceIds, bound - 1);
      var front, ids := Groups(ctx, e, bound - 1), Group(ctx, e.evidenceIds, bound - 1);
      if ids != [] {
        assert (front + [EpisodeDelta(e.title, ids)])[..|front|] == front;
        NoRepeatsConcat(DeltaIds(front), ids);
      }
    }
  }

  /** Splitting neither loses nor invents nor repeats evidence, and no group has a message boundary inside it. */
  lemma {:induction false} SplitIds(ctx: Context, episodes: seq<EpisodeDelta>)
    requires AllSupplied(ctx, episodes)
    ensures forall x :: x in DeltaIds(Split(ctx, episodes)) <==> x in DeltaIds(episodes)
    ensures NoRepeats(DeltaIds(episodes)) ==> NoRepeats(DeltaIds(Split(ctx, episodes)))
    ensures AllSupplied(ctx, Split(ctx, episodes))
    ensures forall g, x, y :: g in Split(ctx, episodes) && x in g.evidenceIds && y in g.evidenceIds ==>
              Boundaries(ctx.incoming, Offset(ctx, x)) == Boundaries(ctx.incoming, Offset(ctx, y))
    decreases |episodes|
  {
    if episodes != [] {
      var front, last := episodes[..|episodes| - 1], episodes[|episodes| - 1];
      assert episodes == front + [last];
      assert last in episodes;
      SplitIds(ctx, front);
      var groups := Groups(ctx, last, |ctx.incoming| + 1);
      GroupsIds(ctx, last, |ctx.incoming| + 1);
      DeltaIdsConcat(Split(ctx, front), groups);
      DeltaIdsContain(groups);
      assert forall x :: x in last.evidenceIds ==> x in DeltaIds(groups);
      NoRepeatsConcat(DeltaIds(front), last.evidenceIds);
      NoRepeatsConcat(DeltaIds(Split(ctx, front)), DeltaIds(groups));
    }
  }

  lemma {:induction false} DeltaIdsConcat(a: seq<EpisodeDelta>, b: seq<EpisodeDelta>)
    ensures DeltaIds(a + b) == DeltaIds(a) + DeltaIds(b)
    decreases |b|
  {
    if b == [] {
      assert a + b == a;
    } else {
      var front := b[..|b| - 1];
      assert (a + b)[..|a + b| - 1] == a + front;
      DeltaIdsConcat(a, front);
    }
  }

  // ---------------------------------------------------------------- lineage edges

  /** The least known offset of the given evidence at or after `from`. */
  function EarliestFrom(ids: seq<string>, offsets: map<string, nat>, from: nat): Option<nat> {
    if ids == [] then None
    else
      var rest := EarliestFrom(ids[..|ids| - 1], offsets, from);
      var id := ids[|ids| - 1];
      if id !in offsets || offsets[id] < from then rest
      else if rest.Some? && rest.value <= offsets[id] then rest
      else Some(offsets[id])
  }

  /** Among the child's episodes, the first with the earliest evidence at or after the link, and that offset. */
  function Target(episodes: seq<Episode>, link: Link, offsets: map<string, nat>): (r: Option<(nat, nat)>)
    ensures r.Some? ==> r.value.0 < |episodes| && episodes[r.value.0].threadId == link.childId
  {
    if episodes == [] then None
    else
      var k := |episodes| - 1;
      var rest := Target(episodes[..k], link, offsets);
      var here := EarliestFrom(episodes[k].evidenceIds, offsets, link.evidence.byteOffset);
      if episodes[k].threadId != link.childId || here.None? then rest
      else if rest.Some? && rest.value.1 <= here.value then rest
      else Some((k, here.value))
  }

  predicate StartedBy(e: Episode, link: Link) {
    && e.threadId == link.parentId
    && (link.timestamp.Some? ==>
          e.startedAt.Some? && e.startedAt.value.order <= link.timestamp.value.order)
  }

  function CountSources(episodes: seq<Episode>, link: Link): nat {
    if episodes == [] then 0
    else CountSources(episodes[..|episodes| - 1], link) + if episodes[|episodes| - 1].threadId == link.parentId then 1 else 0
  }

  /** The last of the latest-started parent episodes; without a time stamp on the link, the last parent episode. */
  function LastStarted(episodes: seq<Episode>, link: Link): (r: Option<nat>)
    ensures r.Some? ==> r.value < |episodes| && StartedBy(episodes[r.value], link)
  {
    if episodes == [] then None
    else
      var k := |episodes| - 1;
      var rest := LastStarted(episodes[..k], link);
      if !StartedBy(episodes[k], link) then rest
      else if rest.Some? && link.timestamp.Some?
              && episodes[rest.value].startedAt.value.order > episodes[k].startedAt.value.order then rest
      else Some(k)
  }

  function Origin(episodes: seq<Episode>, link: Link): (r: Option<nat>)
    ensures r.Some? ==> r.value < |episodes| && episodes[r.value].threadId == link.parentId
  {
    if link.timestamp.None? && CountSources(episodes, link) != 1 then None else LastStarted(episodes, link)
  }

  predicate HasEdge(edges: seq<Edge>, from: EpisodeId, to: EpisodeId) {
    exists i :: 0 <= i < |edges| && edges[i].from == from && edges[i].to == to
  }

  function AddLink(task: Task, link: Link, offsets: map<string, nat>): Task {
    match (Origin(task.episodes, link), Target(task.episodes, link, offsets))
    case (Some(o), Some(t)) =>
      var from, to := task.episodes[o].id, task.episodes[t.0].id;
      if from == to || HasEdge(task.edges, from, to) then task
      else task.(edges := task.edges + [Edge(from, to, [link.evidence.eventId])])
    case _ => task
  }

  function LinkTask(task: Task, links: seq<Link>, offsets: map<string, nat>): Task {
    if links == [] then task
    else AddLink(LinkTask(task, links[..|links| - 1], offsets), links[|links| - 1], offsets)
  }

  function LinkAll(tasks: seq<Task>, links: seq<Link>, offsets: map<string, nat>): (r: seq<Task>)
    ensures |r| == |tasks| && forall i :: 0 <= i < |tasks| ==> r[i] == LinkTask(tasks[i], links, offsets)
  {
    seq(|tasks|, i requires 0 <= i < |tasks| => LinkTask(tasks[i], links, offsets))
  }

  // ---------------------------------------------------------------- the loops of the merge

  method MergeOne(ctx: Context, tasks: seq<Task>, d: TaskDelta) returns (candidates: seq<Task>)
    requires Supplied(ctx, d)
    ensures candidates == MergeDelta(ctx, tasks, d)
  {
    candidates := tasks;
    var id := Resolve(ctx, candidates, d);
    var index := Position(candidates, id);
    if index == |candidates| {
      candidates := candidates + [NewTask(ctx, id, d)];
    }
    assert candidates[index] == TaskFor(ctx, tasks, d, id);
    var task := GrowTask(ctx, candidates[index], d);
    candidates := candidates[index := task];
    ReplaceAt(tasks, index, NewTask(ctx, id, d), task);
  }

  lemma ReplaceAt(tasks: seq<Task>, index: nat, blank: Task, task: Task)
    requires index == Position(tasks, task.id)
    ensures Replace(tasks, task) == (if index == |tasks| then tasks + [blank] else tasks)[index := task]
  {
  }

  method GrowTask(ctx: Context, before: Task, d: TaskDelta) returns (task: Task)
    requires Supplied(ctx, d)
    ensures task == Grown(ctx, before, d)
  {
    var split := SplitAll(ctx, d.episodes);
    SplitSupplied(ctx, d.episodes);
    task := AddEach(ctx, before, split);
    task := task.(revision := task.revision + 1);
    GrownIs(ctx, before, d);
  }

  lemma GrownIs(ctx: Context, before: Task, d: TaskDelta)
    requires Supplied(ctx, d) && AllSupplied(ctx, Split(ctx, d.episodes))
    ensures Grown(ctx, before, d) == AddEpisodes(ctx, before, Split(ctx, d.episodes)).(revision := before.revision + 1)
  {
  }

  method AddEach(ctx: Context, before: Task, split: seq<EpisodeDelta>) returns (task: Task)
    requires AllSupplied(ctx, split)
    ensures task == AddEpisodes(ctx, before, split)
  {
    task := before;
    for k := 0 to |split|
      invariant task == AddEpisodes(ctx, before, split[..k])
    {
      assert split[..k + 1][..k] == split[..k];
      task := AddEpisode(ctx, task, split[k]);
    }
    assert split[..|split|] == split;
  }

  method LinkOne(before: Task, links: seq<Link>, offsets: map<string, nat>) returns (task: Task)
    ensures task == LinkTask(before, links, offsets)
  {
    task := before;
    for k := 0 to |links|
      invariant task == LinkTask(before, links[..k], offsets)
    {
      assert links[..k + 1][..k] == links[..k];
      task := AddLink(task, links[k], offsets);
    }
    assert links[..|links|] == links;
  }

  /** The first loop of the merge: `candidates` is updated delta by delta. */
  method MergeDeltas(ctx: Context, tasks: seq<Task>, deltas: seq<TaskDelta>) returns (candidates: seq<Task>)
    requires forall d :: d in deltas ==> Supplied(ctx, d)
    ensures candidates == MergeAll(ctx, tasks, deltas)
  {
    candidates := tasks;
    for i := 0 to |deltas|
      invariant candidates == MergeAll(ctx, tasks, deltas[..i])
    {
      assert deltas[..i + 1][..i] == deltas[..i];
      candidates := MergeOne(ctx, candidates, deltas[i]);
    }
    assert deltas[..|deltas|] == deltas;
  }

  /** The second loop: lineage edges, task by task. */
  method LinkCandidates(merged: seq<Task>, links: seq<Link>, offsets: map<string, nat>) returns (candidates: seq<Task>)
    ensures candidates == LinkAll(merged, links, offsets)
  {
    candidates := merged;
    for i := 0 to |candidates|
      invariant |candidates| == |merged|
      invariant forall j :: 0 <= j < i ==> candidates[j] == LinkTask(merged[j], links, offsets)
      invariant forall j :: i <= j < |merged| ==> candidates[j] == merged[j]
    {
      var task := LinkOne(candidates[i], links, offsets);
      candidates := candidates[i := task];
    }
  }

  method SplitAll(ctx: Context, episodes: seq<EpisodeDelta>) returns (r: seq<EpisodeDelta>)
    requires AllSupplied(ctx, episodes)
    ensures r == Split(ctx, episodes)
  {
    r := [];
    for i := 0 to |episodes|
      invariant r == Split(ctx, episodes[..i])
    {
      assert episodes[..i + 1][..i] == episodes[..i];
      var groups := SplitEpisode(ctx, episodes[i]);
      r := r + groups;
    }
    assert episodes[..|episodes|] == episodes;
  }
}
