/** What every merge and every reset keeps of a task: unique evidence, named episodes, sound edges. */
module TaskGraph {
  import opened Results
  import opened Domain
  import opened Merge
  import opened MessageLog

  /** No evidence occurs twice, within an episode or across episodes. */
  ghost predicate UniqueEvidence(episodes: seq<Episode>) {
    forall i, p, j, q ::
      (0 <= i < |episodes| && 0 <= p < |episodes[i].evidenceIds| && 0 <= j < |episodes| && 0 <= q < |episodes[j].evidenceIds|
       && episodes[i].evidenceIds[p] == episodes[j].evidenceIds[q]) ==> i == j && p == q
  }

  /** Every episode has evidence and its id is made from the first of it. */
  ghost predicate Named(task: TaskId, episodes: seq<Episode>) {
    forall i :: 0 <= i < |episodes| ==>
      episodes[i].evidenceIds != [] && episodes[i].id == EpisodeId(task, episodes[i].evidenceIds[0])
  }

  ghost predicate Present(episodes: seq<Episode>, id: EpisodeId) {
    exists i :: 0 <= i < |episodes| && episodes[i].id == id
  }

  /** Edges join two different existing episodes, and no two edges join the same pair. */
  ghost predicate GoodEdges(edges: seq<Edge>, episodes: seq<Episode>) {
    && (forall k :: 0 <= k < |edges| ==>
          edges[k].from != edges[k].to && Present(episodes, edges[k].from) && Present(episodes, edges[k].to))
    && (forall k, l :: 0 <= k < l < |edges| ==> edges[k].from != edges[l].from || edges[k].to != edges[l].to)
  }

  ghost predicate WellFormed(t: Task) {
    UniqueEvidence(t.episodes) && Named(t.id, t.episodes) && GoodEdges(t.edges, t.episodes)
  }

  /** The evidence of a task, each piece with the thread it belongs to. */
  ghost function Pairs(episodes: seq<Episode>): set<(string, string)> {
    set i, p | 0 <= i < |episodes| && 0 <= p < |episodes[i].evidenceIds| :: (episodes[i].threadId, episodes[i].evidenceIds[p])
  }

  ghost function Under(thread: string, ids: seq<string>): set<(string, string)> {
    set x | x in ids :: (thread, x)
  }

  lemma EpisodesDistinct(t: Task)
    requires WellFormed(t)
    ensures forall i, j :: 0 <= i < j < |t.episodes| ==> t.episodes[i].id != t.episodes[j].id
  {
    forall i, j | 0 <= i < j < |t.episodes|
      ensures t.episodes[i].id != t.episodes[j].id
    {
      assert t.episodes[i].evidenceIds[0] != t.episodes[j].evidenceIds[0];
    }
  }

  // ---------------------------------------------------------------- adding evidence

  /** The sorted fresh evidence of a delta: new to the task, without repeats, and sorted by offset. */
  lemma FreshSorted(ctx: Context, task: Task, ids: seq<string>)
    requires forall x :: x in ids ==> x in ctx.source
    requires NoRepeats(ids)
    ensures NoRepeats(Unseen(ctx, task, ids)) && Ascending(ctx, Unseen(ctx, task, ids))
  {
    FreshAre(task, ids);
    var unseen := Fresh(task, ids);
    SortDistinct(ctx, unseen);
    SortSorts(ctx, unseen);
  }

  lemma {:induction false} NoRepeatsOfMultiset<T>(s: seq<T>)
    requires forall x :: multiset(s)[x] <= 1
    ensures NoRepeats(s)
  {
    forall i, j | 0 <= i < j < |s|
      ensures s[i] != s[j]
    {
      assert s == s[..j] + [s[j]] + s[j + 1..];
      assert multiset(s) == multiset(s[..j]) + multiset{s[j]} + multiset(s[j + 1..]);
      assert s[i] in s[..j];
      assert multiset(s[..j])[s[i]] >= 1;
      assert multiset(s)[s[j]] <= 1;
    }
  }

  lemma {:induction false} MultisetOfNoRepeats<T>(s: seq<T>)
    requires NoRepeats(s)
    ensures forall x :: multiset(s)[x] <= 1
  {
    if s != [] {
      var front, last := s[..|s| - 1], s[|s| - 1];
      assert s == front + [last];
      MultisetOfNoRepeats(front);
      assert last !in front;
      assert last !in multiset(front);
    }
  }

  lemma SortDistinct(ctx: Context, ids: seq<string>)
    requires (forall x :: x in ids ==> x in ctx.source) && NoRepeats(ids)
    ensures NoRepeats(SortByOffset(ctx, ids))
  {
    MultisetOfNoRepeats(ids);
    NoRepeatsOfMultiset(SortByOffset(ctx, ids));
  }

  ghost predicate Ascending(ctx: Context, ids: seq<string>) {
    forall i, j :: 0 <= i < j < |ids| ==> ids[i] in ctx.source && ids[j] in ctx.source && Offset(ctx, ids[i]) <= Offset(ctx, ids[j])
  }

  lemma {:induction false} InsertSorted(ctx: Context, id: string, sorted: seq<string>)
    requires id in ctx.source && (forall x :: x in sorted ==> x in ctx.source) && Ascending(ctx, sorted)
    ensures Ascending(ctx, Insert(ctx, id, sorted))
    ensures forall x :: x in Insert(ctx, id, sorted) ==> x == id || x in sorted
  {
    if sorted != [] && Offset(ctx, id) > Offset(ctx, sorted[0]) {
      InsertSorted(ctx, id, sorted[1..]);
      var r := Insert(ctx, id, sorted[1..]);
      forall j | 0 <= j < |r|
        ensures r[j] in ctx.source && Offset(ctx, sorted[0]) <= Offset(ctx, r[j])
      {
        if r[j] != id {
          assert r[j] in sorted[1..];
        }
      }
    }
  }

  lemma {:induction false} SortSorts(ctx: Context, ids: seq<string>)
    requires forall x :: x in ids ==> x in ctx.source
    ensures Ascending(ctx, SortByOffset(ctx, ids))
  {
    if ids != [] {
      SortSorts(ctx, ids[1..]);
      InsertSorted(ctx, ids[0], SortByOffset(ctx, ids[1..]));
    }
  }

  lemma ExtendLast(t: Task, evidence: seq<string>, ended: Option<Stamp>)
    requires WellFormed(t) && t.episodes != [] && NoRepeats(evidence)
    requires forall x :: x in evidence ==> x !in IdsOf(t.episodes)
    ensures
      var k := |t.episodes| - 1;
      var e := t.episodes[k].(evidenceIds := t.episodes[k].evidenceIds + evidence, endedAt := ended);
      var episodes := t.episodes[..k] + [e];
      && UniqueEvidence(episodes) && Named(t.id, episodes) && GoodEdges(t.edges, episodes)
      && Pairs(episodes) == Pairs(t.episodes) + Under(t.episodes[k].threadId, evidence)
  {
    var k := |t.episodes| - 1;
    var e := t.episodes[k].(evidenceIds := t.episodes[k].evidenceIds + evidence, endedAt := ended);
    var episodes := t.episodes[..k] + [e];
    ExtendUnique(t, evidence, episodes, k);
    ExtendEdges(t, episodes);
    PairsOfLast(t.episodes[..k], t.episodes[k]);
    PairsOfLast(t.episodes[..k], e);
    UnderBoth(e.threadId, t.episodes[k].evidenceIds, evidence);
    assert t.episodes == t.episodes[..k] + [t.episodes[k]];
  }

  lemma UnderBoth(thread: string, a: seq<string>, b: seq<string>)
    ensures Under(thread, a + b) == Under(thread, a) + Under(thread, b)
  {
  }

  lemma ExtendUnique(t: Task, evidence: seq<string>, episodes: seq<Episode>, k: nat)
    requires WellFormed(t) && NoRepeats(evidence) && k < |t.episodes| == |episodes|
    requires forall x :: x in evidence ==> x !in IdsOf(t.episodes)
    requires episodes[k].evidenceIds == t.episodes[k].evidenceIds + evidence
    requires forall j :: 0 <= j < |episodes| && j != k ==> episodes[j] == t.episodes[j]
    ensures UniqueEvidence(episodes)
  {
    forall i, p, j, q | 0 <= i < |episodes| && 0 <= p < |episodes[i].evidenceIds| && 0 <= j < |episodes| && 0 <= q < |episodes[j].evidenceIds|
                        && episodes[i].evidenceIds[p] == episodes[j].evidenceIds[q]
      ensures i == j && p == q
    {
      FromOld(t, evidence, episodes, k, i, p);
      FromOld(t, evidence, episodes, k, j, q);
    }
  }

  /** Only the ids of the episodes matter to the edges. */
  lemma ExtendEdges(t: Task, episodes: seq<Episode>)
    requires GoodEdges(t.edges, t.episodes) && |episodes| == |t.episodes|
    requires forall i :: 0 <= i < |episodes| ==> episodes[i].id == t.episodes[i].id
    ensures GoodEdges(t.edges, episodes)
  {
    forall id | Present(t.episodes, id)
      ensures Present(episodes, id)
    {
      var i :| 0 <= i < |t.episodes| && t.episodes[i].id == id;
      assert episodes[i].id == id;
    }
  }

  /** Where a piece of evidence of the extended task comes from. */
  lemma FromOld(t: Task, evidence: seq<string>, episodes: seq<Episode>, k: nat, i: nat, p: nat)
    requires k < |t.episodes| == |episodes| && i < |episodes| && p < |episodes[i].evidenceIds|
    requires forall x :: x in evidence ==> x !in IdsOf(t.episodes)
    requires episodes[k].evidenceIds == t.episodes[k].evidenceIds + evidence
    requires forall j :: 0 <= j < |episodes| && j != k ==> episodes[j] == t.episodes[j]
    ensures if i == k && p >= |t.episodes[k].evidenceIds| then episodes[i].evidenceIds[p] == evidence[p - |t.episodes[k].evidenceIds|]
                                                               && episodes[i].evidenceIds[p] !in IdsOf(t.episodes)
            else p < |t.episodes[i].evidenceIds| && episodes[i].evidenceIds[p] == t.episodes[i].evidenceIds[p]
                 && episodes[i].evidenceIds[p] in IdsOf(t.episodes)
  {
  }

  lemma PairsOfLast(front: seq<Episode>, e: Episode)
    ensures Pairs(front + [e]) == Pairs(front) + Under(e.threadId, e.evidenceIds)
  {
    var all := front + [e];
    forall pair | pair in Pairs(front) + Under(e.threadId, e.evidenceIds)
      ensures pair in Pairs(all)
    {
      if pair in Pairs(front) {
        var i, p :| 0 <= i < |front| && 0 <= p < |front[i].evidenceIds| && pair == (front[i].threadId, front[i].evidenceIds[p]);
        assert all[i].evidenceIds[p] == pair.1;
      } else {
        var p :| 0 <= p < |e.evidenceIds| && e.evidenceIds[p] == pair.1;
        assert all[|front|].evidenceIds[p] == pair.1;
      }
    }
    forall pair | pair in Pairs(all)
      ensures pair in Pairs(front) + Under(e.threadId, e.evidenceIds)
    {
      var i, p :| 0 <= i < |all| && 0 <= p < |all[i].evidenceIds| && pair == (all[i].threadId, all[i].evidenceIds[p]);
      if i < |front| {
        assert front[i].evidenceIds[p] == pair.1;
      } else {
        assert pair.1 in e.evidenceIds;
      }
    }
  }

  lemma AppendUnique(t: Task, e: Episode)
    requires UniqueEvidence(t.episodes) && Named(t.id, t.episodes)
    requires NoRepeats(e.evidenceIds) && e.evidenceIds != []
    requires e.id == EpisodeId(t.id, e.evidenceIds[0])
    requires forall x :: x in e.evidenceIds ==> x !in IdsOf(t.episodes)
    ensures UniqueEvidence(t.episodes + [e]) && Named(t.id, t.episodes + [e])
    ensures !Present(t.episodes, e.id)
  {
    var episodes := t.episodes + [e];
    forall i, p | 0 <= i < |episodes| && 0 <= p < |episodes[i].evidenceIds|
      ensures (i < |t.episodes|) == (episodes[i].evidenceIds[p] in IdsOf(t.episodes))
    {
      if i == |t.episodes| {
        assert episodes[i].evidenceIds[p] in e.evidenceIds;
      }
    }
    assert e.evidenceIds[0] !in IdsOf(t.episodes);
    forall i | 0 <= i < |t.episodes|
      ensures t.episodes[i].id != e.id
    {
      assert t.episodes[i].evidenceIds[0] in IdsOf(t.episodes);
    }
  }

  lemma AppendEdges(t: Task, e: Episode, edge: seq<Edge>)
    requires GoodEdges(t.edges, t.episodes) && !Present(t.episodes, e.id)
    requires edge == [] || (|edge| == 1 && t.episodes != [] && edge[0].from == t.episodes[|t.episodes| - 1].id && edge[0].to == e.id)
    ensures GoodEdges(t.edges + edge, t.episodes + [e])
  {
    var episodes := t.episodes + [e];
    forall id | Present(t.episodes, id)
      ensures Present(episodes, id)
    {
      var i :| 0 <= i < |t.episodes| && t.episodes[i].id == id;
      assert episodes[i].id == id;
    }
    assert episodes[|t.episodes|].id == e.id;
    if edge != [] {
      assert Present(t.episodes, edge[0].from);
    }
  }

  /**
    One episode worked in: the task stays well formed, keeps all its evidence, and gains exactly the ids
    it did not have, under the thread of the extraction.
   */
  lemma AddEpisodeSound(ctx: Context, t: Task, e: EpisodeDelta)
    requires WellFormed(t) && NoRepeats(e.evidenceIds)
    requires forall x :: x in e.evidenceIds ==> x in ctx.source
    ensures WellFormed(AddEpisode(ctx, t, e))
    ensures Pairs(AddEpisode(ctx, t, e).episodes) == Pairs(t.episodes) + Under(ctx.thread, Unseen(ctx, t, e.evidenceIds))
  {
    FreshSorted(ctx, t, e.evidenceIds);
    var evidence := Unseen(ctx, t, e.evidenceIds);
    if evidence != [] {
      var first, last := ctx.source[evidence[0]], ctx.source[evidence[|evidence| - 1]];
      if Continues(ctx, t, first) {
        ExtendLast(t, evidence, last.timestamp);
      } else {
        var id := EpisodeId(t.id, evidence[0]);
        var episode := Episode(id, ctx.thread, e.title, evidence, first.timestamp, last.timestamp);
        AppendUnique(t, episode);
        AppendEdges(t, episode, SequenceEdge(ctx, t, id, evidence[0]));
        PairsOfLast(t.episodes, episode);
      }
    }
  }

  // ---------------------------------------------------------------- a whole delta

  /** The given ids the episodes do not hold, under `thread`. */
  ghost function Gained(thread: string, ids: seq<string>, episodes: seq<Episode>): set<(string, string)> {
    set x | x in ids && x !in IdsOf(episodes) :: (thread, x)
  }

  lemma IdsOfPairs(episodes: seq<Episode>)
    ensures forall x :: x in IdsOf(episodes) <==> exists thread :: (thread, x) in Pairs(episodes)
  {
    forall x | x in IdsOf(episodes)
      ensures exists thread :: (thread, x) in Pairs(episodes)
    {
      var i, p :| 0 <= i < |episodes| && 0 <= p < |episodes[i].evidenceIds| && x == episodes[i].evidenceIds[p];
      assert (episodes[i].threadId, x) in Pairs(episodes);
    }
    forall x, thread | (thread, x) in Pairs(episodes)
      ensures x in IdsOf(episodes)
    {
      var i, p :| 0 <= i < |episodes| && 0 <= p < |episodes[i].evidenceIds|
                  && (thread, x) == (episodes[i].threadId, episodes[i].evidenceIds[p]);
    }
  }

  lemma {:induction false} AddEpisodesSound(ctx: Context, t: Task, episodes: seq<EpisodeDelta>)
    requires WellFormed(t) && AllSupplied(ctx, episodes) && NoRepeats(DeltaIds(episodes))
    ensures WellFormed(AddEpisodes(ctx, t, episodes))
    ensures Pairs(AddEpisodes(ctx, t, episodes).episodes)
            == Pairs(t.episodes) + Gained(ctx.thread, DeltaIds(episodes), t.episodes)
    decreases |episodes|
  {
    if episodes != [] {
      var front, e := episodes[..|episodes| - 1], episodes[|episodes| - 1];
      NoRepeatsConcat(DeltaIds(front), e.evidenceIds);
      AddEpisodesSound(ctx, t, front);
      assert e in episodes;
      var mid := AddEpisodes(ctx, t, front);
      AddEpisodeSound(ctx, mid, e);
      IdsOfPairs(t.episodes);
      IdsOfPairs(mid.episodes);
      forall x
        ensures x in IdsOf(mid.episodes) <==> x in IdsOf(t.episodes) || x in DeltaIds(front)
      {
        if x in DeltaIds(front) && x !in IdsOf(t.episodes) {
          assert (ctx.thread, x) in Pairs(mid.episodes);
        }
        if x in IdsOf(t.episodes) {
          var thread :| (thread, x) in Pairs(t.episodes);
          assert (thread, x) in Pairs(mid.episodes);
        }
      }
      assert Gained(ctx.thread, DeltaIds(episodes), t.episodes)
          == Gained(ctx.thread, DeltaIds(front), t.episodes) + Under(ctx.thread, Unseen(ctx, mid, e.evidenceIds));
    }
  }

  /** A task that takes a delta gains exactly the evidence of the delta it did not have, and loses none. */
  lemma GrownSound(ctx: Context, t: Task, d: TaskDelta)
    requires WellFormed(t) && Supplied(ctx, d) && NoRepeats(DeltaIds(d.episodes))
    ensures WellFormed(Grown(ctx, t, d))
    ensures Pairs(Grown(ctx, t, d).episodes) == Pairs(t.episodes) + Gained(ctx.thread, DeltaIds(d.episodes), t.episodes)
  {
    SplitSupplied(ctx, d.episodes);
    SplitIds(ctx, d.episodes);
    AddEpisodesSound(ctx, t, Split(ctx, d.episodes));
    assert Gained(ctx.thread, DeltaIds(Split(ctx, d.episodes)), t.episodes) == Gained(ctx.thread, DeltaIds(d.episodes), t.episodes);
  }

  // ---------------------------------------------------------------- lineage edges and pruning

  lemma AddLinkSound(t: Task, link: Link, offsets: map<string, nat>)
    requires WellFormed(t)
    ensures WellFormed(AddLink(t, link, offsets))
    ensures AddLink(t, link, offsets) == t.(edges := AddLink(t, link, offsets).edges)
  {
    var o, g := Origin(t.episodes, link), Target(t.episodes, link, offsets);
    if o.Some? && g.Some? {
      assert Present(t.episodes, t.episodes[o.value].id) && Present(t.episodes, t.episodes[g.value.0].id);
    }
  }

  lemma {:induction false} LinkTaskSound(t: Task, links: seq<Link>, offsets: map<string, nat>)
    requires WellFormed(t)
    ensures WellFormed(LinkTask(t, links, offsets))
    ensures LinkTask(t, links, offsets) == t.(edges := LinkTask(t, links, offsets).edges)
    ensures t.edges <= LinkTask(t, links, offsets).edges
    decreases |links|
  {
    if links != [] {
      LinkTaskSound(t, links[..|links| - 1], offsets);
      AddLinkSound(LinkTask(t, links[..|links| - 1], offsets), links[|links| - 1], offsets);
    }
  }

  lemma {:induction false} KeptEpisodes(episodes: seq<Episode>, thread: string)
    ensures |KeepEpisodes(episodes, thread)| <= |episodes|
    ensures forall e :: e in KeepEpisodes(episodes, thread) <==> e in episodes && e.threadId != thread
    ensures |KeepEpisodes(episodes, thread)| == |episodes| <==> forall e :: e in episodes ==> e.threadId != thread
    ensures |KeepEpisodes(episodes, thread)| == |episodes| ==> KeepEpisodes(episodes, thread) == episodes
  {
    if episodes != [] {
      KeptEpisodes(episodes[1..], thread);
      assert episodes == [episodes[0]] + episodes[1..];
    }
  }

  /** Where the kept episodes were: a strictly increasing choice of places. */
  lemma {:induction false} KeptPlaces(episodes: seq<Episode>, thread: string) returns (at: seq<nat>)
    ensures |at| == |KeepEpisodes(episodes, thread)|
    ensures forall i :: 0 <= i < |at| ==> at[i] < |episodes| && episodes[at[i]] == KeepEpisodes(episodes, thread)[i]
    ensures forall i, j :: 0 <= i < j < |at| ==> at[i] < at[j]
  {
    at := [];
    if episodes != [] {
      var rest := KeptPlaces(episodes[1..], thread);
      at := seq(|rest|, i requires 0 <= i < |rest| => rest[i] + 1);
      if episodes[0].threadId != thread {
        at := [0] + at;
      }
    }
  }

  lemma KeptUnique(episodes: seq<Episode>, thread: string)
    requires UniqueEvidence(episodes)
    ensures UniqueEvidence(KeepEpisodes(episodes, thread))
  {
    var at := KeptPlaces(episodes, thread);
    var kept := KeepEpisodes(episodes, thread);
    forall i, p, j, q | 0 <= i < |kept| && 0 <= p < |kept[i].evidenceIds| && 0 <= j < |kept| && 0 <= q < |kept[j].evidenceIds|
                        && kept[i].evidenceIds[p] == kept[j].evidenceIds[q]
      ensures i == j && p == q
    {
      assert episodes[at[i]].evidenceIds[p] == episodes[at[j]].evidenceIds[q];
    }
  }

  lemma {:induction false} KeptEdges(edges: seq<Edge>, all: seq<Episode>, kept: seq<Episode>)
    requires GoodEdges(edges, all)
    ensures GoodEdges(KeepEdges(edges, kept), kept)
    ensures forall e :: e in KeepEdges(edges, kept) <==> e in edges && Present(kept, e.from) && Present(kept, e.to)
  {
    if edges != [] {
      var rest := edges[1..];
      assert GoodEdges(rest, all);
      KeptEdges(rest, all, kept);
      assert edges == [edges[0]] + rest;
      var r := KeepEdges(rest, kept);
      forall k | 0 <= k < |r|
        ensures r[k].from != edges[0].from || r[k].to != edges[0].to
      {
        assert r[k] in rest;
        var j :| 0 <= j < |rest| && rest[j] == r[k];
        assert edges[j + 1] == r[k];
      }
      PresentIsIn(kept, edges[0].from);
      PresentIsIn(kept, edges[0].to);
    }
  }

  lemma PresentIsIn(episodes: seq<Episode>, id: EpisodeId)
    ensures Present(episodes, id) <==> exists e :: e in episodes && e.id == id
  {
    if Present(episodes, id) {
      var i :| 0 <= i < |episodes| && episodes[i].id == id;
      assert episodes[i] in episodes;
    }
  }

  lemma KeptPairs(episodes: seq<Episode>, thread: string)
    ensures Pairs(KeepEpisodes(episodes, thread)) == set pair | pair in Pairs(episodes) && pair.0 != thread
  {
    var kept := KeepEpisodes(episodes, thread);
    KeptEpisodes(episodes, thread);
    PairsFrom(kept, episodes);
    forall pair | pair in Pairs(kept)
      ensures pair.0 != thread
    {
      var i, p :| 0 <= i < |kept| && 0 <= p < |kept[i].evidenceIds| && pair == (kept[i].threadId, kept[i].evidenceIds[p]);
      assert kept[i] in kept;
    }
    forall pair | pair in Pairs(episodes) && pair.0 != thread
      ensures pair in Pairs(kept)
    {
      var i, p :| 0 <= i < |episodes| && 0 <= p < |episodes[i].evidenceIds|
                  && pair == (episodes[i].threadId, episodes[i].evidenceIds[p]);
      assert episodes[i] in kept;
      PairFrom(kept, episodes[i], p);
    }
  }

  lemma PairFrom(episodes: seq<Episode>, e: Episode, p: nat)
    requires e in episodes && p < |e.evidenceIds|
    ensures (e.threadId, e.evidenceIds[p]) in Pairs(episodes)
  {
    var j :| 0 <= j < |episodes| && episodes[j] == e;
    assert episodes[j].evidenceIds[p] == e.evidenceIds[p];
  }

  lemma PairsFrom(some: seq<Episode>, all: seq<Episode>)
    requires forall e :: e in some ==> e in all
    ensures Pairs(some) <= Pairs(all)
  {
    forall pair | pair in Pairs(some)
      ensures pair in Pairs(all)
    {
      var i, p :| 0 <= i < |some| && 0 <= p < |some[i].evidenceIds| && pair == (some[i].threadId, some[i].evidenceIds[p]);
      assert some[i] in some;
      PairFrom(all, some[i], p);
    }
  }

  lemma KeptNamed(id: TaskId, episodes: seq<Episode>, thread: string)
    requires Named(id, episodes)
    ensures Named(id, KeepEpisodes(episodes, thread))
  {
    var at := KeptPlaces(episodes, thread);
    var kept := KeepEpisodes(episodes, thread);
    forall i | 0 <= i < |kept|
      ensures kept[i].evidenceIds != [] && kept[i].id == EpisodeId(id, kept[i].evidenceIds[0])
    {
      assert kept[i] == episodes[at[i]];
    }
  }

  /** A reset keeps the task well formed and removes exactly the evidence of the thread that was reset. */
  lemma PruneSound(t: Task, thread: string)
    requires WellFormed(t)
    ensures WellFormed(Prune(t, thread))
    ensures Pairs(Prune(t, thread).episodes) == set pair | pair in Pairs(t.episodes) && pair.0 != thread
  {
    KeptEpisodes(t.episodes, thread);
    assert Prune(t, thread).episodes == KeepEpisodes(t.episodes, thread);
    KeptPairs(t.episodes, thread);
    KeptUnique(t.episodes, thread);
    KeptNamed(t.id, t.episodes, thread);
    KeptEdges(t.edges, t.episodes, KeepEpisodes(t.episodes, thread));
  }

  // ---------------------------------------------------------------- all candidates

  /** Candidates of one root: well formed, with ids of that root, no id twice. */
  ghost predicate Candidates(root: string, tasks: seq<Task>) {
    && (forall i :: 0 <= i < |tasks| ==>
          WellFormed(tasks[i]) && tasks[i].rootThreadId == root && tasks[i].id.root == root)
    && (forall i, j :: 0 <= i < j < |tasks| ==> tasks[i].id != tasks[j].id)
  }

  ghost predicate ValidFor(ctx: Context, tasks: seq<Task>, d: TaskDelta) {
    && Supplied(ctx, d) && NoRepeats(DeltaIds(d.episodes))
    && (d.existing.Some? ==> exists i :: 0 <= i < |tasks| && tasks[i].id == d.existing.value)
  }

  /** How a candidate list may change: old tasks keep place, id and evidence, and gain evidence of one thread only. */
  ghost predicate Extends(ctx: Context, before: seq<Task>, after: seq<Task>) {
    && |before| <= |after|
    && (forall i :: 0 <= i < |before| ==>
          after[i].id == before[i].id && before[i].revision <= after[i].revision
          && Pairs(before[i].episodes) <= Pairs(after[i].episodes))
    && (forall i, pair :: 0 <= i < |after| && pair in Pairs(after[i].episodes) ==>
          (i < |before| && pair in Pairs(before[i].episodes)) || (pair.0 == ctx.thread && pair.1 in ctx.source))
  }

  lemma {:induction false} OwnerIsCandidate(candidates: seq<Task>, d: TaskDelta)
    ensures OwnerOf(candidates, d).Some? ==> exists i :: 0 <= i < |candidates| && candidates[i].id == OwnerOf(candidates, d).value
  {
    if candidates != [] && OwnerOf(candidates[1..], d).Some? {
      OwnerIsCandidate(candidates[1..], d);
      var i :| 0 <= i < |candidates[1..]| && candidates[1..][i].id == OwnerOf(candidates[1..], d).value;
      assert candidates[i + 1].id == OwnerOf(candidates[1..], d).value;
    }
  }

  lemma EmptyWellFormed(t: Task)
    requires t.episodes == [] && t.edges == []
    ensures WellFormed(t) && Pairs(t.episodes) == {}
  {
  }

  lemma MergeDeltaSound(ctx: Context, tasks: seq<Task>, d: TaskDelta)
    requires Candidates(ctx.root, tasks) && ValidFor(ctx, tasks, d)
    ensures Candidates(ctx.root, MergeDelta(ctx, tasks, d)) && Extends(ctx, tasks, MergeDelta(ctx, tasks, d))
    ensures exists i :: 0 <= i < |MergeDelta(ctx, tasks, d)|
              && forall x :: x in DeltaIds(d.episodes) ==> x in IdsOf(MergeDelta(ctx, tasks, d)[i].episodes)
  {
    var id := Resolve(ctx, tasks, d);
    OwnerIsCandidate(tasks, d);
    var k := Position(tasks, id);
    var t := TaskFor(ctx, tasks, d, id);
    if k == |tasks| {
      EmptyWellFormed(t);
    }
    GrownSound(ctx, t, d);
    GrownHolds(ctx, t, d);
    GainedIsSupplied(ctx, t, d);
    PutSound(ctx, tasks, t, Grown(ctx, t, d), k);
    assert MergeDelta(ctx, tasks, d)[k] == Grown(ctx, t, d);
  }

  /** All of a delta's evidence ends up in the task that takes it. */
  lemma GrownHolds(ctx: Context, t: Task, d: TaskDelta)
    requires Supplied(ctx, d)
    requires Pairs(Grown(ctx, t, d).episodes) == Pairs(t.episodes) + Gained(ctx.thread, DeltaIds(d.episodes), t.episodes)
    ensures forall x :: x in DeltaIds(d.episodes) ==> x in IdsOf(Grown(ctx, t, d).episodes)
  {
    var g := Grown(ctx, t, d).episodes;
    IdsOfPairs(t.episodes);
    IdsOfPairs(g);
    forall x | x in DeltaIds(d.episodes)
      ensures x in IdsOf(g)
    {
      if x in IdsOf(t.episodes) {
        var thread :| (thread, x) in Pairs(t.episodes);
        assert (thread, x) in Pairs(g);
      } else {
        assert (ctx.thread, x) in Pairs(g);
      }
    }
  }

  lemma GainedIsSupplied(ctx: Context, t: Task, d: TaskDelta)
    requires Supplied(ctx, d)
    ensures forall pair :: pair in Gained(ctx.thread, DeltaIds(d.episodes), t.episodes) ==> pair.0 == ctx.thread && pair.1 in ctx.source
  {
    DeltaIdsContain(d.episodes);
  }

  /** A grown task put in its place, or behind the others when it is new. */
  lemma PutSound(ctx: Context, tasks: seq<Task>, t: Task, g: Task, k: nat)
    requires Candidates(ctx.root, tasks) && k <= |tasks| && (k < |tasks| ==> tasks[k] == t)
    requires WellFormed(g) && g.rootThreadId == ctx.root && g.id.root == ctx.root && g.id == t.id && t.revision <= g.revision
    requires k == |tasks| ==> Pairs(t.episodes) == {} && forall i :: 0 <= i < |tasks| ==> tasks[i].id != g.id
    requires Pairs(t.episodes) <= Pairs(g.episodes)
    requires forall pair :: pair in Pairs(g.episodes) ==> pair in Pairs(t.episodes) || (pair.0 == ctx.thread && pair.1 in ctx.source)
    ensures var r := if k < |tasks| then tasks[k := g] else tasks + [g]; Candidates(ctx.root, r) && Extends(ctx, tasks, r)
  {
  }

  /** The whole merge of a valid extraction keeps every candidate well formed and loses no evidence. */
  lemma {:induction false} MergeAllSound(ctx: Context, tasks: seq<Task>, deltas: seq<TaskDelta>)
    requires Candidates(ctx.root, tasks)
    requires forall d :: d in deltas ==> Supplied(ctx, d)
    requires forall d :: d in deltas ==> ValidFor(ctx, tasks, d)
    ensures Candidates(ctx.root, MergeAll(ctx, tasks, deltas)) && Extends(ctx, tasks, MergeAll(ctx, tasks, deltas))
    decreases |deltas|
  {
    if deltas != [] {
      var front, d := deltas[..|deltas| - 1], deltas[|deltas| - 1];
      MergeAllSound(ctx, tasks, front);
      var mid := MergeAll(ctx, tasks, front);
      assert d in deltas;
      StillValid(ctx, tasks, mid, d);
      MergeDeltaSound(ctx, mid, d);
      ExtendsTransitive(ctx, tasks, mid, MergeAll(ctx, tasks, deltas));
    }
  }

  lemma StillValid(ctx: Context, before: seq<Task>, after: seq<Task>, d: TaskDelta)
    requires ValidFor(ctx, before, d) && Extends(ctx, before, after)
    ensures ValidFor(ctx, after, d)
  {
    if d.existing.Some? {
      var i :| 0 <= i < |before| && before[i].id == d.existing.value;
      assert after[i].id == d.existing.value;
    }
  }

  lemma ExtendsTransitive(ctx: Context, a: seq<Task>, b: seq<Task>, c: seq<Task>)
    requires Extends(ctx, a, b) && Extends(ctx, b, c)
    ensures Extends(ctx, a, c)
  {
  }

  lemma LinkAllSound(ctx: Context, before: seq<Task>, tasks: seq<Task>, links: seq<Link>, offsets: map<string, nat>)
    requires Candidates(ctx.root, tasks) && Extends(ctx, before, tasks)
    ensures Candidates(ctx.root, LinkAll(tasks, links, offsets)) && Extends(ctx, before, LinkAll(tasks, links, offsets))
  {
    forall i | 0 <= i < |tasks|
      ensures WellFormed(LinkTask(tasks[i], links, offsets))
      ensures LinkTask(tasks[i], links, offsets) == tasks[i].(edges := LinkTask(tasks[i], links, offsets).edges)
    {
      LinkTaskSound(tasks[i], links, offsets);
    }
  }
}
