/**
  What merging, cutting, extending and linking do to tasks, said by properties alone: none of the statements here
  speaks of the functions that compute them.
 */
module MergeMeaning {
  import opened Results
  import opened Domain
  import opened Texts
  import opened Merge
  import opened TaskGraph

  // ---------------------------------------------------------------- trimming

  ghost predicate AllWhite(s: string) {
    forall i :: 0 <= i < |s| ==> White(s[i])
  }

  lemma {:induction false} TrimStartIs(s: string) returns (front: string)
    ensures s == front + TrimStart(s) && AllWhite(front)
    ensures TrimStart(s) != "" ==> !White(TrimStart(s)[0])
  {
    front := "";
    if s != "" && White(s[0]) {
      var rest := TrimStartIs(s[1..]);
      front := [s[0]] + rest;
      assert s == [s[0]] + s[1..];
    }
  }

  lemma {:induction false} TrimEndIs(s: string) returns (back: string)
    ensures s == TrimEnd(s) + back && AllWhite(back)
    ensures TrimEnd(s) != "" ==> !White(TrimEnd(s)[|TrimEnd(s)| - 1])
  {
    back := "";
    if s != "" && White(s[|s| - 1]) {
      var rest := TrimEndIs(s[..|s| - 1]);
      back := rest + [s[|s| - 1]];
      assert s == s[..|s| - 1] + [s[|s| - 1]];
    }
  }

  /** A trimmed title is the title without white space around it, and has none at its ends. */
  lemma TrimIs(s: string) returns (front: string, back: string)
    ensures s == front + Trim(s) + back && AllWhite(front) && AllWhite(back)
    ensures Trim(s) != "" ==> !White(Trim(s)[0]) && !White(Trim(s)[|Trim(s)| - 1])
  {
    front := TrimStartIs(s);
    back := TrimEndIs(TrimStart(s));
    if Trim(s) != "" {
      assert TrimStart(s)[0] == Trim(s)[0];
    }
  }

  // ---------------------------------------------------------------- cutting at message boundaries

  /** Whether a message came in after the evidence at `from` and no later than the evidence at `to`. */
  ghost predicate Between(incoming: seq<nat>, from: nat, to: nat) {
    exists i :: 0 <= i < |incoming| && from < incoming[i] <= to
  }

  ghost predicate Known(ctx: Context, ids: seq<string>) {
    forall x :: x in ids ==> x in ctx.source
  }

  /** The ids stand in the order in which `all` names them. */
  ghost predicate InOrder(ids: seq<string>, all: seq<string>) {
    forall i, j :: 0 <= i < j < |ids| ==> Before(all, ids[i], ids[j])
  }

  ghost predicate Before(all: seq<string>, x: string, y: string) {
    exists p, q :: 0 <= p < q < |all| && all[p] == x && all[q] == y
  }

  /**
    An episode cut at the incoming messages: the pieces have its title and share out its evidence, none lies
    across a message, and any two have a message between them.
   */
  ghost predicate Cut(ctx: Context, e: EpisodeDelta, pieces: seq<EpisodeDelta>)
    requires Known(ctx, e.evidenceIds)
  {
    && (forall i :: 0 <= i < |pieces| ==> Piece(ctx, e, pieces[i]))
    && (forall x :: x in e.evidenceIds ==> Held(pieces, x))
    && (forall i, j :: 0 <= i < j < |pieces| ==> Apart(ctx, pieces[i].evidenceIds, pieces[j].evidenceIds))
  }

  ghost predicate Piece(ctx: Context, e: EpisodeDelta, piece: EpisodeDelta) {
    && piece.title == e.title && piece.evidenceIds != []
    && InOrder(piece.evidenceIds, e.evidenceIds)
    && (forall x :: x in piece.evidenceIds ==> x in e.evidenceIds && x in ctx.source)
    && (forall x, y :: x in piece.evidenceIds && y in piece.evidenceIds ==>
          !Between(ctx.incoming, Offset(ctx, x), Offset(ctx, y)))
  }

  ghost predicate Held(pieces: seq<EpisodeDelta>, x: string) {
    exists i :: 0 <= i < |pieces| && x in pieces[i].evidenceIds
  }

  ghost predicate Apart(ctx: Context, a: seq<string>, b: seq<string>) {
    forall x, y :: x in a && y in b ==>
      x in ctx.source && y in ctx.source && Between(ctx.incoming, Offset(ctx, x), Offset(ctx, y))
  }

  lemma {:induction false} BoundariesBetween(incoming: seq<nat>, from: nat, to: nat)
    ensures from <= to ==> Boundaries(incoming, from) <= Boundaries(incoming, to)
    ensures Between(incoming, from, to) <==> Boundaries(incoming, from) < Boundaries(incoming, to)
  {
    if incoming != [] {
      var rest := incoming[1..];
      BoundariesBetween(rest, from, to);
      BoundariesMonotone(rest, from, to);
      BoundariesMonotone(rest, to, from);
      if Between(rest, from, to) {
        var i :| 0 <= i < |rest| && from < rest[i] <= to;
        assert incoming[i + 1] == rest[i];
      }
      if Between(incoming, from, to) {
        var i :| 0 <= i < |incoming| && from < incoming[i] <= to;
        assert i == 0 || rest[i - 1] == incoming[i];
      }
    }
  }

  lemma {:induction false} BoundariesMonotone(incoming: seq<nat>, from: nat, to: nat)
    ensures from <= to ==> Boundaries(incoming, from) <= Boundaries(incoming, to)
  {
    if incoming != [] {
      BoundariesMonotone(incoming[1..], from, to);
    }
  }

  lemma {:induction false} GroupInOrder(ctx: Context, ids: seq<string>, count: nat)
    requires Known(ctx, ids)
    ensures InOrder(Group(ctx, ids, count), ids)
    ensures forall x :: x in Group(ctx, ids, count) <==> x in ids && Boundaries(ctx.incoming, Offset(ctx, x)) == count
    decreases |ids|
  {
    if ids != [] {
      var front, last := ids[..|ids| - 1], ids[|ids| - 1];
      assert ids == front + [last];
      GroupInOrder(ctx, front, count);
      var g, r := Group(ctx, front, count), Group(ctx, ids, count);
      forall i, j | 0 <= i < j < |r|
        ensures Before(ids, r[i], r[j])
      {
        if j < |g| {
          assert Before(front, g[i], g[j]);
          var p, q :| 0 <= p < q < |front| && front[p] == r[i] && front[q] == r[j];
          assert ids[p] == r[i] && ids[q] == r[j];
        } else {
          assert g[i] in front;
          var p :| 0 <= p < |front| && front[p] == r[i];
          assert ids[p] == r[i] && ids[|front|] == r[j];
        }
      }
    }
  }

  /** One piece: the evidence with `count` messages before it. */
  ghost predicate IsPiece(ctx: Context, e: EpisodeDelta, piece: EpisodeDelta, count: nat)
    requires Known(ctx, e.evidenceIds)
  {
    && piece.title == e.title && piece.evidenceIds != [] && InOrder(piece.evidenceIds, e.evidenceIds)
    && forall x :: x in piece.evidenceIds <==> x in e.evidenceIds && Boundaries(ctx.incoming, Offset(ctx, x)) == count
  }

  /** A piece with fewer than `bound` messages before it. */
  ghost predicate LowPiece(ctx: Context, e: EpisodeDelta, piece: EpisodeDelta, bound: nat)
    requires Known(ctx, e.evidenceIds)
  {
    exists count: nat :: count < bound && IsPiece(ctx, e, piece, count)
  }

  /** What the first `bound` groups are. */
  ghost predicate CutBelow(ctx: Context, e: EpisodeDelta, pieces: seq<EpisodeDelta>, bound: nat)
    requires Known(ctx, e.evidenceIds)
  {
    && (forall i :: 0 <= i < |pieces| ==> LowPiece(ctx, e, pieces[i], bound))
    && (forall i, j :: 0 <= i < j < |pieces| ==> Apart(ctx, pieces[i].evidenceIds, pieces[j].evidenceIds))
    && (forall x :: x in e.evidenceIds && Boundaries(ctx.incoming, Offset(ctx, x)) < bound ==> Held(pieces, x))
  }

  lemma {:induction false} GroupsCut(ctx: Context, e: EpisodeDelta, bound: nat)
    requires Known(ctx, e.evidenceIds)
    ensures CutBelow(ctx, e, Groups(ctx, e, bound), bound)
  {
    if bound > 0 {
      GroupsCut(ctx, e, bound - 1);
      GroupIsPiece(ctx, e, bound - 1);
      GroupsCutMore(ctx, e, Groups(ctx, e, bound - 1), Group(ctx, e.evidenceIds, bound - 1), bound - 1);
    }
  }

  lemma GroupIsPiece(ctx: Context, e: EpisodeDelta, count: nat)
    requires Known(ctx, e.evidenceIds)
    ensures var ids := Group(ctx, e.evidenceIds, count);
            && (ids != [] ==> IsPiece(ctx, e, EpisodeDelta(e.title, ids), count))
            && forall x :: x in e.evidenceIds && Boundaries(ctx.incoming, Offset(ctx, x)) == count ==> x in ids
  {
    GroupInOrder(ctx, e.evidenceIds, count);
  }

  lemma GroupsCutMore(ctx: Context, e: EpisodeDelta, front: seq<EpisodeDelta>, ids: seq<string>, bound: nat)
    requires Known(ctx, e.evidenceIds) && CutBelow(ctx, e, front, bound)
    requires ids != [] ==> IsPiece(ctx, e, EpisodeDelta(e.title, ids), bound)
    requires forall x :: x in e.evidenceIds && Boundaries(ctx.incoming, Offset(ctx, x)) == bound ==> x in ids
    ensures CutBelow(ctx, e, if ids == [] then front else front + [EpisodeDelta(e.title, ids)], bound + 1)
  {
    var pieces := if ids == [] then front else front + [EpisodeDelta(e.title, ids)];
    HeldMore(ctx, e, front, ids, pieces, bound);
    forall i | 0 <= i < |pieces|
      ensures LowPiece(ctx, e, pieces[i], bound + 1)
    {
      if i < |front| {
        assert LowPiece(ctx, e, front[i], bound);
      }
    }
    forall i, j | 0 <= i < j < |pieces|
      ensures Apart(ctx, pieces[i].evidenceIds, pieces[j].evidenceIds)
    {
      if j == |front| {
        assert LowPiece(ctx, e, front[i], bound);
        var count: nat :| count < bound && IsPiece(ctx, e, front[i], count);
        PiecesApart(ctx, e, front[i], count, pieces[j], bound);
      }
    }
  }

  lemma HeldMore(ctx: Context, e: EpisodeDelta, front: seq<EpisodeDelta>, ids: seq<string>, pieces: seq<EpisodeDelta>, bound: nat)
    requires Known(ctx, e.evidenceIds)
    requires forall x :: x in e.evidenceIds && Boundaries(ctx.incoming, Offset(ctx, x)) < bound ==> Held(front, x)
    requires forall x :: x in e.evidenceIds && Boundaries(ctx.incoming, Offset(ctx, x)) == bound ==> x in ids
    requires pieces == if ids == [] then front else front + [EpisodeDelta(e.title, ids)]
    ensures forall x :: x in e.evidenceIds && Boundaries(ctx.incoming, Offset(ctx, x)) <= bound ==> Held(pieces, x)
  {
    forall x | x in e.evidenceIds && Boundaries(ctx.incoming, Offset(ctx, x)) <= bound
      ensures Held(pieces, x)
    {
      if Boundaries(ctx.incoming, Offset(ctx, x)) < bound {
        var i :| 0 <= i < |front| && x in front[i].evidenceIds;
        assert x in pieces[i].evidenceIds;
      } else {
        assert x in pieces[|front|].evidenceIds;
      }
    }
  }

  /** The groups of an episode are its pieces between incoming messages. */
  lemma GroupsAreCut(ctx: Context, e: EpisodeDelta)
    requires Known(ctx, e.evidenceIds)
    ensures Cut(ctx, e, Groups(ctx, e, |ctx.incoming| + 1))
  {
    var bound := |ctx.incoming| + 1;
    var pieces := Groups(ctx, e, bound);
    GroupsCut(ctx, e, bound);
    forall i | 0 <= i < |pieces|
      ensures Piece(ctx, e, pieces[i])
    {
      assert LowPiece(ctx, e, pieces[i], bound);
      var count: nat :| count < bound && IsPiece(ctx, e, pieces[i], count);
      PieceIs(ctx, e, pieces[i], count);
    }
  }

  lemma PieceIs(ctx: Context, e: EpisodeDelta, piece: EpisodeDelta, count: nat)
    requires Known(ctx, e.evidenceIds) && IsPiece(ctx, e, piece, count)
    ensures Piece(ctx, e, piece)
  {
    forall x, y | x in piece.evidenceIds && y in piece.evidenceIds
      ensures !Between(ctx.incoming, Offset(ctx, x), Offset(ctx, y))
    {
      BoundariesBetween(ctx.incoming, Offset(ctx, x), Offset(ctx, y));
    }
  }

  lemma PiecesApart(ctx: Context, e: EpisodeDelta, a: EpisodeDelta, m: nat, b: EpisodeDelta, n: nat)
    requires Known(ctx, e.evidenceIds) && IsPiece(ctx, e, a, m) && IsPiece(ctx, e, b, n) && m < n
    ensures Apart(ctx, a.evidenceIds, b.evidenceIds)
  {
    forall x, y | x in a.evidenceIds && y in b.evidenceIds
      ensures Between(ctx.incoming, Offset(ctx, x), Offset(ctx, y))
    {
      BoundariesBetween(ctx.incoming, Offset(ctx, x), Offset(ctx, y));
    }
  }

  // ---------------------------------------------------------------- working in one piece

  /** The task has this evidence. */
  ghost predicate Has(task: Task, x: string) {
    exists i :: 0 <= i < |task.episodes| && x in task.episodes[i].evidenceIds
  }

  /** The order of new evidence: by offset, and as in `all` where offsets are equal. */
  ghost predicate Sorted(ctx: Context, ids: seq<string>, all: seq<string>) {
    forall i, j :: 0 <= i < j < |ids| ==> Precedes(ctx, all, ids[i], ids[j])
  }

  ghost predicate Precedes(ctx: Context, all: seq<string>, x: string, y: string) {
    && x in ctx.source && y in ctx.source
    && (Offset(ctx, x) < Offset(ctx, y) || (Offset(ctx, x) == Offset(ctx, y) && Before(all, x, y)))
  }

  /** The evidence of a piece that is new to the task. */
  ghost predicate NewEvidence(ctx: Context, task: Task, ids: seq<string>, evidence: seq<string>) {
    && Sorted(ctx, evidence, ids)
    && forall x :: x in evidence <==> x in ids && !Has(task, x)
  }

  /** The task was accepted with less of the conversation than this message. */
  ghost predicate AfterAcceptance(ctx: Context, task: Task, x: string) {
    && x in ctx.source && ctx.source[x].role == User && ctx.thread in task.watermarks
    && var cursor := task.watermarks[ctx.thread];
    && ctx.source[x].evidence.generation == cursor.generation && cursor.offset <= ctx.source[x].evidence.byteOffset
  }

  /** The first message of the log with an id. */
  ghost predicate FirstAt(log: seq<Message>, id: string, k: nat) {
    && k < |log| && log[k].evidence.eventId == id
    && forall j :: 0 <= j < k ==> log[j].evidence.eventId != id
  }

  /** `x` goes on with the turn in which the last episode of the task ended, and no message came in since. */
  ghost predicate SameTurn(ctx: Context, task: Task, x: string)
    requires x in ctx.source
  {
    exists k :: 0 <= k < |ctx.log| && EndsAt(ctx, task, k)
      && ctx.log[k].turnId.Some? && ctx.log[k].turnId == ctx.source[x].turnId
      && !Between(ctx.incoming, ctx.log[k].evidence.byteOffset, Offset(ctx, x))
  }

  /** The last episode of the task is one of this conversation and ends with the message at `k`. */
  ghost predicate EndsAt(ctx: Context, task: Task, k: nat) {
    && OfThread(task, ctx.thread)
    && var ids := task.episodes[|task.episodes| - 1].evidenceIds;
    && ids != [] && FirstAt(ctx.log, ids[|ids| - 1], k)
  }

  ghost predicate OfThread(task: Task, thread: string) {
    task.episodes != [] && task.episodes[|task.episodes| - 1].threadId == thread
  }

  /** What stays of a task into which evidence is worked: everything but its episodes, edges and acceptance. */
  ghost predicate SameBut(before: Task, after: Task) {
    && after.id == before.id && after.revision == before.revision && after.rootThreadId == before.rootThreadId
    && after.title == before.title && after.detail == before.detail && after.watermarks == before.watermarks
  }

  /** One piece worked into a task by its new evidence. */
  ghost predicate Worked(ctx: Context, before: Task, title: string, evidence: seq<string>, after: Task)
    requires Known(ctx, evidence)
  {
    && SameBut(before, after)
    && (evidence == [] ==> after == before)
    && (evidence != [] ==>
          && (after.manualCompletion <==>
                before.manualCompletion && !(exists x :: x in evidence && AfterAcceptance(ctx, before, x)))
          && if SameTurn(ctx, before, evidence[0]) then Extended(ctx, before, evidence, after)
             else Appended(ctx, before, title, evidence, after))
  }

  /** The last episode has the evidence at its end; nothing else of episodes and edges is different. */
  ghost predicate Extended(ctx: Context, before: Task, evidence: seq<string>, after: Task)
    requires Known(ctx, evidence) && evidence != []
  {
    && |after.episodes| == |before.episodes| > 0 && after.edges == before.edges
    && var k := |before.episodes| - 1;
    && (forall i :: 0 <= i < k ==> after.episodes[i] == before.episodes[i])
    && after.episodes[k].id == before.episodes[k].id && after.episodes[k].threadId == before.episodes[k].threadId
    && after.episodes[k].title == before.episodes[k].title && after.episodes[k].startedAt == before.episodes[k].startedAt
    && after.episodes[k].evidenceIds == before.episodes[k].evidenceIds + evidence
    && after.episodes[k].endedAt == ctx.source[evidence[|evidence| - 1]].timestamp
  }

  /** A new episode of exactly that evidence, and an edge to it from the last one of the same conversation. */
  ghost predicate Appended(ctx: Context, before: Task, title: string, evidence: seq<string>, after: Task)
    requires Known(ctx, evidence) && evidence != []
  {
    && |after.episodes| == |before.episodes| + 1 && before.episodes <= after.episodes
    && var e := after.episodes[|before.episodes|];
    && e.id == EpisodeId(before.id, evidence[0]) && e.threadId == ctx.thread && e.title == title
    && e.evidenceIds == evidence
    && e.startedAt == ctx.source[evidence[0]].timestamp
    && e.endedAt == ctx.source[evidence[|evidence| - 1]].timestamp
    && before.edges <= after.edges
    && (!OfThread(before, ctx.thread) ==> after.edges == before.edges)
    && (OfThread(before, ctx.thread) ==>
          && |after.edges| == |before.edges| + 1
          && var edge := after.edges[|before.edges|];
          && edge.from == before.episodes[|before.episodes| - 1].id && edge.to == e.id && edge.evidenceIds == [evidence[0]])
  }

  lemma BeforeLater(all: seq<string>, x: string, y: string)
    requires all != [] && Before(all[1..], x, y)
    ensures Before(all, x, y)
  {
    var p, q :| 0 <= p < q < |all[1..]| && all[1..][p] == x && all[1..][q] == y;
    assert all[p + 1] == x && all[q + 1] == y;
  }

  lemma SortedLater(ctx: Context, ids: seq<string>, all: seq<string>)
    requires all != [] && Sorted(ctx, ids, all[1..])
    ensures Sorted(ctx, ids, all)
  {
    forall i, j | 0 <= i < j < |ids| && Before(all[1..], ids[i], ids[j])
      ensures Before(all, ids[i], ids[j])
    {
      BeforeLater(all, ids[i], ids[j]);
    }
  }

  lemma ConsSorted(ctx: Context, x: string, rest: seq<string>, all: seq<string>)
    requires Sorted(ctx, rest, all) && forall y :: y in rest ==> Precedes(ctx, all, x, y)
    ensures Sorted(ctx, [x] + rest, all)
  {
  }

  /** What is inserted precedes all that is equal to it. */
  lemma {:induction false} InsertKeepsOrder(ctx: Context, id: string, sorted: seq<string>, all: seq<string>)
    requires id in ctx.source && Known(ctx, sorted) && Sorted(ctx, sorted, all)
    requires forall x :: x in sorted ==> Before(all, id, x)
    ensures Sorted(ctx, Insert(ctx, id, sorted), all)
    ensures forall x :: x in Insert(ctx, id, sorted) <==> x == id || x in sorted
  {
    if sorted == [] || Offset(ctx, id) <= Offset(ctx, sorted[0]) {
      forall x | x in sorted
        ensures Precedes(ctx, all, id, x)
      {
        var k :| 0 <= k < |sorted| && sorted[k] == x;
        assert k == 0 || Precedes(ctx, all, sorted[0], sorted[k]);
      }
      ConsSorted(ctx, id, sorted, all);
    } else {
      InsertKeepsOrder(ctx, id, sorted[1..], all);
      assert sorted == [sorted[0]] + sorted[1..];
      forall x | x in sorted[1..]
        ensures Precedes(ctx, all, sorted[0], x)
      {
        var k :| 0 <= k < |sorted[1..]| && sorted[1..][k] == x;
        assert sorted[k + 1] == x;
      }
      ConsSorted(ctx, sorted[0], Insert(ctx, id, sorted[1..]), all);
    }
  }

  lemma {:induction false} SortKeepsOrder(ctx: Context, ids: seq<string>)
    requires Known(ctx, ids)
    ensures Sorted(ctx, SortByOffset(ctx, ids), ids)
  {
    if ids != [] {
      var rest := SortByOffset(ctx, ids[1..]);
      SortKeepsOrder(ctx, ids[1..]);
      SortedLater(ctx, rest, ids);
      forall x | x in rest
        ensures Before(ids, ids[0], x)
      {
        var k :| 0 <= k < |ids[1..]| && ids[1..][k] == x;
        assert ids[k + 1] == x;
      }
      InsertKeepsOrder(ctx, ids[0], rest, ids);
    }
  }

  /** Leaving out what the task has keeps the order. */
  lemma {:induction false} FreshInOrder(task: Task, ids: seq<string>)
    ensures InOrder(Fresh(task, ids), ids)
  {
    if ids != [] {
      var rest := Fresh(task, ids[1..]);
      FreshInOrder(task, ids[1..]);
      FreshAre(task, ids[1..]);
      forall i, j | 0 <= i < j < |rest|
        ensures Before(ids, rest[i], rest[j])
      {
        BeforeLater(ids, rest[i], rest[j]);
      }
      forall x | x in rest
        ensures Before(ids, ids[0], x)
      {
        var k :| 0 <= k < |ids[1..]| && ids[1..][k] == x;
        assert ids[k + 1] == x;
      }
    }
  }

  lemma HasIds(task: Task)
    ensures forall x :: x in IdsOf(task.episodes) <==> Has(task, x)
  {
    forall x | Has(task, x)
      ensures x in IdsOf(task.episodes)
    {
      var i :| 0 <= i < |task.episodes| && x in task.episodes[i].evidenceIds;
      var p :| 0 <= p < |task.episodes[i].evidenceIds| && task.episodes[i].evidenceIds[p] == x;
    }
  }

  lemma UnseenIsNew(ctx: Context, task: Task, ids: seq<string>)
    requires Known(ctx, ids) && NoRepeats(ids)
    ensures NewEvidence(ctx, task, ids, Unseen(ctx, task, ids))
  {
    HasIds(task);
    FreshAre(task, ids);
    FreshInOrder(task, ids);
    var unheld, r := Fresh(task, ids), Unseen(ctx, task, ids);
    SortKeepsOrder(ctx, unheld);
    forall x, y | Before(unheld, x, y)
      ensures Before(ids, x, y)
    {
      var p, q :| 0 <= p < q < |unheld| && unheld[p] == x && unheld[q] == y;
      assert Before(ids, unheld[p], unheld[q]);
    }
  }

  lemma {:induction false} FindIs(log: seq<Message>, id: string) returns (k: nat)
    ensures Find(log, id).Some? ==> FirstAt(log, id, k) && log[k] == Find(log, id).value
    ensures Find(log, id).None? ==> forall j :: 0 <= j < |log| ==> log[j].evidence.eventId != id
  {
    k := 0;
    if log != [] && log[0].evidence.eventId != id {
      var rest := log[1..];
      var j := FindIs(rest, id);
      k := j + 1;
      assert forall i :: 1 <= i < |log| ==> log[i] == rest[i - 1];
    }
  }

  lemma ContinuesIs(ctx: Context, task: Task, x: string)
    requires x in ctx.source
    ensures Continues(ctx, task, ctx.source[x]) <==> SameTurn(ctx, task, x)
  {
    if OfThread(task, ctx.thread) && task.episodes[|task.episodes| - 1].evidenceIds != [] {
      var ids := task.episodes[|task.episodes| - 1].evidenceIds;
      var k := FindIs(ctx.log, ids[|ids| - 1]);
      if SameTurn(ctx, task, x) {
        var j :| 0 <= j < |ctx.log| && EndsAt(ctx, task, j)
          && ctx.log[j].turnId.Some? && ctx.log[j].turnId == ctx.source[x].turnId
          && !Between(ctx.incoming, ctx.log[j].evidence.byteOffset, Offset(ctx, x));
        assert j == k;
      }
      if Continues(ctx, task, ctx.source[x]) {
        assert EndsAt(ctx, task, k);
      }
    }
  }

  lemma ReopensIs(ctx: Context, task: Task, evidence: seq<string>)
    requires Known(ctx, evidence)
    ensures Reopens(ctx, task, evidence) <==> exists x :: x in evidence && AfterAcceptance(ctx, task, x)
  {
    if exists x :: x in evidence && AfterAcceptance(ctx, task, x) {
      var x :| x in evidence && AfterAcceptance(ctx, task, x);
      var i :| 0 <= i < |evidence| && evidence[i] == x;
      assert ctx.source[evidence[i]].role.User?;
    }
    if Reopens(ctx, task, evidence) {
      var i :| 0 <= i < |evidence| && AfterAcceptance(ctx, task, evidence[i]);
      assert evidence[i] in evidence;
    }
  }

  /** A piece worked into a task: the evidence it adds is what is new of it, in order. */
  ghost predicate WorkedIn(ctx: Context, before: Task, e: EpisodeDelta, after: Task) {
    exists evidence ::
      Known(ctx, evidence) && NewEvidence(ctx, before, e.evidenceIds, evidence) && Worked(ctx, before, e.title, evidence, after)
  }

  /**
    One piece: its new evidence goes to the last episode within one turn without a message in between, else into
    an episode of its own, and a message of the user from after the acceptance opens the task again.
   */
  lemma EpisodeIsWorkedIn(ctx: Context, task: Task, e: EpisodeDelta)
    requires Known(ctx, e.evidenceIds) && NoRepeats(e.evidenceIds)
    ensures WorkedIn(ctx, task, e, AddEpisode(ctx, task, e))
  {
    var evidence := Unseen(ctx, task, e.evidenceIds);
    UnseenIsNew(ctx, task, e.evidenceIds);
    if evidence != [] {
      ContinuesIs(ctx, task, evidence[0]);
      ReopensIs(ctx, task, evidence);
    }
    assert Worked(ctx, task, e.title, evidence, AddEpisode(ctx, task, e));
  }

  // ---------------------------------------------------------------- a whole delta

  function Flat(parts: seq<seq<EpisodeDelta>>): seq<EpisodeDelta> {
    if parts == [] then [] else Flat(parts[..|parts| - 1]) + parts[|parts| - 1]
  }

  /** The parts are the episodes, each cut at the incoming messages. */
  ghost predicate CutEach(ctx: Context, episodes: seq<EpisodeDelta>, parts: seq<seq<EpisodeDelta>>) {
    && |parts| == |episodes|
    && forall i :: 0 <= i < |parts| ==> Known(ctx, episodes[i].evidenceIds) && Cut(ctx, episodes[i], parts[i])
  }

  /** The pieces are worked in one after the other. */
  ghost predicate Stages(ctx: Context, before: Task, pieces: seq<EpisodeDelta>, stages: seq<Task>, after: Task) {
    && |stages| == |pieces| + 1 && stages[0] == before && stages[|pieces|] == after
    && forall k :: 0 <= k < |pieces| ==> WorkedIn(ctx, stages[k], pieces[k], stages[k + 1])
  }

  lemma StagesMore(ctx: Context, before: Task, front: seq<EpisodeDelta>, stages: seq<Task>, mid: Task, e: EpisodeDelta, after: Task)
    requires Stages(ctx, before, front, stages, mid) && WorkedIn(ctx, mid, e, after)
    ensures Stages(ctx, before, front + [e], stages + [after], after)
  {
  }

  ghost predicate InDelta(d: TaskDelta, x: string) {
    exists e :: e in d.episodes && x in e.evidenceIds
  }

  /** The task has all it had and all of the delta under the thread of the extraction, and is one revision on. */
  ghost predicate Took(ctx: Context, before: Task, d: TaskDelta, after: Task) {
    && SameBut(before.(revision := before.revision + 1), after)
    && (forall x :: Has(after, x) <==> Has(before, x) || InDelta(d, x))
    && Pairs(after.episodes) == Pairs(before.episodes) + NewPairs(ctx, before, d)
    && (after.manualCompletion <==> before.manualCompletion && !OpenedBy(ctx, before, d))
    && exists parts, stages ::
         CutEach(ctx, d.episodes, parts) && Stages(ctx, before, Flat(parts), stages, after.(revision := before.revision))
  }

  /** The delta brings a message of the user from after the acceptance. */
  ghost predicate OpenedBy(ctx: Context, before: Task, d: TaskDelta) {
    exists x :: InDelta(d, x) && Opens(ctx, before, x)
  }

  ghost predicate Opens(ctx: Context, before: Task, x: string) {
    !Has(before, x) && AfterAcceptance(ctx, before, x)
  }

  ghost function NewPairs(ctx: Context, before: Task, d: TaskDelta): set<(string, string)> {
    set x | x in ctx.source && InDelta(d, x) && !Has(before, x) :: (ctx.thread, x)
  }

  ghost predicate InBoth(t: Task, d: TaskDelta, x: string) {
    InDelta(d, x) && Has(t, x)
  }

  /** The delta shares a title and some evidence with the task. */
  ghost predicate Shares(t: Task, d: TaskDelta) {
    Trim(t.title) == Trim(d.title) && exists x :: InBoth(t, d, x)
  }

  /** The task at `i` takes the delta: the one it names or, when it names none, the first that shares with it. */
  ghost predicate Takes(tasks: seq<Task>, d: TaskDelta, i: nat)
    requires i < |tasks|
  {
    match d.existing
    case Some(id) => tasks[i].id == id
    case None => Shares(tasks[i], d) && forall j :: 0 <= j < i ==> !Shares(tasks[j], d)
  }

  /** The id a delta asks for that no task takes. */
  function Asked(ctx: Context, d: TaskDelta): TaskId
    requires Supplied(ctx, d)
  {
    match d.existing
    case Some(id) => id
    case None => TaskId(ctx.root, d.episodes[0].evidenceIds[0], Trim(d.title))
  }

  /** Only the task at `i` is different, and has taken the delta. */
  ghost predicate TookAt(ctx: Context, tasks: seq<Task>, d: TaskDelta, i: nat, after: seq<Task>) {
    && i < |tasks| == |after| && Took(ctx, tasks[i], d, after[i])
    && forall j :: 0 <= j < |tasks| && j != i ==> after[j] == tasks[j]
  }

  /** All tasks are as they were, and behind them is a new one, made from the delta. */
  ghost predicate TookNew(ctx: Context, tasks: seq<Task>, d: TaskDelta, after: seq<Task>)
    requires Supplied(ctx, d)
  {
    && |after| == |tasks| + 1 && after[..|tasks|] == tasks
    && Took(ctx, Task(0, Asked(ctx, d), ctx.root, d.title, d.detail, [], [], false, map[]), d, after[|tasks|])
  }

  /**
    Where a delta goes: into the task that takes it; when none does, into the one that has the id asked for, or
    else into a new task.
   */
  ghost predicate DeltaMerged(ctx: Context, tasks: seq<Task>, d: TaskDelta, after: seq<Task>)
    requires Supplied(ctx, d)
  {
    if exists i :: 0 <= i < |tasks| && Takes(tasks, d, i) then
      forall i :: 0 <= i < |tasks| && Takes(tasks, d, i) ==> TookAt(ctx, tasks, d, i, after)
    else if exists i :: 0 <= i < |tasks| && tasks[i].id == Asked(ctx, d) then
      forall i :: 0 <= i < |tasks| && tasks[i].id == Asked(ctx, d) ==> TookAt(ctx, tasks, d, i, after)
    else
      TookNew(ctx, tasks, d, after)
  }

  lemma {:induction false} SplitIsCut(ctx: Context, episodes: seq<EpisodeDelta>) returns (parts: seq<seq<EpisodeDelta>>)
    requires AllSupplied(ctx, episodes)
    ensures CutEach(ctx, episodes, parts) && Split(ctx, episodes) == Flat(parts)
    decreases |episodes|
  {
    parts := [];
    if episodes != [] {
      var front, last := episodes[..|episodes| - 1], episodes[|episodes| - 1];
      assert episodes == front + [last] && last in episodes;
      var before := SplitIsCut(ctx, front);
      var groups := Groups(ctx, last, |ctx.incoming| + 1);
      GroupsAreCut(ctx, last);
      parts := before + [groups];
      assert parts[..|before|] == before;
    }
  }

  lemma {:induction false} AddedInStages(ctx: Context, task: Task, pieces: seq<EpisodeDelta>) returns (stages: seq<Task>)
    requires AllSupplied(ctx, pieces) && NoRepeats(DeltaIds(pieces))
    ensures Stages(ctx, task, pieces, stages, AddEpisodes(ctx, task, pieces))
    decreases |pieces|
  {
    stages := [task];
    if pieces != [] {
      var front, last := pieces[..|pieces| - 1], pieces[|pieces| - 1];
      assert pieces == front + [last] && last in pieces;
      NoRepeatsConcat(DeltaIds(front), last.evidenceIds);
      var before := AddedInStages(ctx, task, front);
      stages := before + [AddEpisodes(ctx, task, pieces)];
      OneMoreStage(ctx, task, front, before, last);
    }
  }

  lemma OneMoreStage(ctx: Context, task: Task, front: seq<EpisodeDelta>, stages: seq<Task>, e: EpisodeDelta)
    requires AllSupplied(ctx, front) && Stages(ctx, task, front, stages, AddEpisodes(ctx, task, front))
    requires Known(ctx, e.evidenceIds) && NoRepeats(e.evidenceIds)
    ensures AllSupplied(ctx, front + [e])
    ensures Stages(ctx, task, front + [e], stages + [AddEpisodes(ctx, task, front + [e])], AddEpisodes(ctx, task, front + [e]))
  {
    var mid := AddEpisodes(ctx, task, front);
    EpisodeIsWorkedIn(ctx, mid, e);
    assert (front + [e])[..|front|] == front;
    StagesMore(ctx, task, front, stages, mid, e, AddEpisode(ctx, mid, e));
  }

  /** Working in leaves all but episodes, edges and acceptance alone. */
  lemma {:induction false} AddedSame(ctx: Context, task: Task, pieces: seq<EpisodeDelta>)
    requires AllSupplied(ctx, pieces)
    ensures SameBut(task, AddEpisodes(ctx, task, pieces))
    decreases |pieces|
  {
    if pieces != [] {
      AddedSame(ctx, task, pieces[..|pieces| - 1]);
    }
  }

  lemma HasAfter(ctx: Context, before: Task, e: EpisodeDelta, after: Task, x: string)
    requires WorkedIn(ctx, before, e, after)
    ensures Has(after, x) <==> Has(before, x) || x in e.evidenceIds
  {
    var evidence :|
      Known(ctx, evidence) && NewEvidence(ctx, before, e.evidenceIds, evidence) && Worked(ctx, before, e.title, evidence, after);
    if evidence != [] {
      if SameTurn(ctx, before, evidence[0]) {
        HasExtended(ctx, before, evidence, after, x);
      } else {
        HasAppended(ctx, before, e.title, evidence, after, x);
      }
    }
  }

  lemma HasExtended(ctx: Context, before: Task, evidence: seq<string>, after: Task, x: string)
    requires Known(ctx, evidence) && evidence != [] && Extended(ctx, before, evidence, after)
    ensures Has(after, x) <==> Has(before, x) || x in evidence
  {
    var k := |before.episodes| - 1;
    assert x in after.episodes[k].evidenceIds <==> x in before.episodes[k].evidenceIds || x in evidence;
    if Has(before, x) {
      var i :| 0 <= i < |before.episodes| && x in before.episodes[i].evidenceIds;
      assert x in after.episodes[i].evidenceIds;
    }
  }

  lemma HasAppended(ctx: Context, before: Task, title: string, evidence: seq<string>, after: Task, x: string)
    requires Known(ctx, evidence) && evidence != [] && Appended(ctx, before, title, evidence, after)
    ensures Has(after, x) <==> Has(before, x) || x in evidence
  {
    if Has(before, x) {
      var i :| 0 <= i < |before.episodes| && x in before.episodes[i].evidenceIds;
      assert x in after.episodes[i].evidenceIds;
    }
    assert x in evidence ==> x in after.episodes[|before.episodes|].evidenceIds;
  }

  /** What opens a task is evidence of one of the pieces that the task did not have. */
  lemma {:induction false} AddedOpens(ctx: Context, task: Task, pieces: seq<EpisodeDelta>)
    requires AllSupplied(ctx, pieces) && NoRepeats(DeltaIds(pieces))
    ensures var after := AddEpisodes(ctx, task, pieces);
            && after.watermarks == task.watermarks
            && (forall x :: Has(after, x) <==> Has(task, x) || x in DeltaIds(pieces))
            && (after.manualCompletion <==>
                  task.manualCompletion && !(exists x :: x in DeltaIds(pieces) && Opens(ctx, task, x)))
    decreases |pieces|
  {
    if pieces != [] {
      var front, e := pieces[..|pieces| - 1], pieces[|pieces| - 1];
      assert pieces == front + [e] && e in pieces;
      NoRepeatsConcat(DeltaIds(front), e.evidenceIds);
      AddedOpens(ctx, task, front);
      OpensMore(ctx, task, AddEpisodes(ctx, task, front), DeltaIds(front), e);
    }
  }

  lemma OpensMore(ctx: Context, task: Task, mid: Task, ids: seq<string>, e: EpisodeDelta)
    requires Known(ctx, e.evidenceIds) && NoRepeats(e.evidenceIds) && mid.watermarks == task.watermarks
    requires forall x :: Has(mid, x) <==> Has(task, x) || x in ids
    requires mid.manualCompletion <==> task.manualCompletion && !(exists x :: x in ids && Opens(ctx, task, x))
    ensures var after := AddEpisode(ctx, mid, e);
            && after.watermarks == task.watermarks
            && (forall x :: Has(after, x) <==> Has(task, x) || x in ids + e.evidenceIds)
            && (after.manualCompletion <==>
                  task.manualCompletion && !(exists x :: x in ids + e.evidenceIds && Opens(ctx, task, x)))
  {
    var after := AddEpisode(ctx, mid, e);
    EpisodeIsWorkedIn(ctx, mid, e);
    forall x
      ensures Has(after, x) <==> Has(mid, x) || x in e.evidenceIds
    {
      HasAfter(ctx, mid, e, after, x);
    }
    assert forall x :: AfterAcceptance(ctx, mid, x) <==> AfterAcceptance(ctx, task, x);
    OpensNow(ctx, mid, e, after);
    assert forall x :: x in e.evidenceIds && x !in ids ==> (Opens(ctx, mid, x) <==> Opens(ctx, task, x));
  }

  lemma OpensNow(ctx: Context, before: Task, e: EpisodeDelta, after: Task)
    requires WorkedIn(ctx, before, e, after)
    ensures after.manualCompletion <==> before.manualCompletion && !(exists x :: x in e.evidenceIds && Opens(ctx, before, x))
  {
    var evidence :|
      Known(ctx, evidence) && NewEvidence(ctx, before, e.evidenceIds, evidence) && Worked(ctx, before, e.title, evidence, after);
    assert forall x :: x in evidence && AfterAcceptance(ctx, before, x) <==> x in e.evidenceIds && Opens(ctx, before, x);
  }

  lemma GrownOpens(ctx: Context, t: Task, d: TaskDelta)
    requires Supplied(ctx, d) && NoRepeats(DeltaIds(d.episodes))
    ensures Grown(ctx, t, d).manualCompletion <==> t.manualCompletion && !OpenedBy(ctx, t, d)
  {
    SplitSupplied(ctx, d.episodes);
    SplitIds(ctx, d.episodes);
    AddedOpens(ctx, t, Split(ctx, d.episodes));
    InDeltaIs(d);
  }

  lemma GrownTook(ctx: Context, t: Task, d: TaskDelta)
    requires WellFormed(t) && Supplied(ctx, d) && NoRepeats(DeltaIds(d.episodes))
    ensures Took(ctx, t, d, Grown(ctx, t, d))
  {
    GrownOpens(ctx, t, d);
    SplitSupplied(ctx, d.episodes);
    SplitIds(ctx, d.episodes);
    var parts := SplitIsCut(ctx, d.episodes);
    var stages := AddedInStages(ctx, t, Flat(parts));
    AddedSame(ctx, t, Flat(parts));
    GrownPairs(ctx, t, d);
    assert Stages(ctx, t, Flat(parts), stages, Grown(ctx, t, d).(revision := t.revision));
  }

  lemma GrownPairs(ctx: Context, t: Task, d: TaskDelta)
    requires WellFormed(t) && Supplied(ctx, d) && NoRepeats(DeltaIds(d.episodes))
    ensures Pairs(Grown(ctx, t, d).episodes) == Pairs(t.episodes) + NewPairs(ctx, t, d)
    ensures forall x :: Has(Grown(ctx, t, d), x) <==> Has(t, x) || InDelta(d, x)
  {
    GrownSound(ctx, t, d);
    DeltaIdsContain(d.episodes);
    HasIds(t);
    HasIds(Grown(ctx, t, d));
    IdsOfPairs(t.episodes);
    IdsOfPairs(Grown(ctx, t, d).episodes);
    assert Gained(ctx.thread, DeltaIds(d.episodes), t.episodes) == NewPairs(ctx, t, d);
    forall x
      ensures Has(Grown(ctx, t, d), x) <==> Has(t, x) || InDelta(d, x)
    {
      if Has(t, x) {
        var thread :| (thread, x) in Pairs(t.episodes);
        assert (thread, x) in Pairs(Grown(ctx, t, d).episodes);
      } else if InDelta(d, x) {
        assert (ctx.thread, x) in Pairs(Grown(ctx, t, d).episodes);
      }
    }
  }

  lemma SharesIs(t: Task, d: TaskDelta, ids: seq<string>)
    requires ids == DeltaIds(d.episodes)
    ensures (exists x :: InBoth(t, d, x)) <==> exists i :: 0 <= i < |ids| && ids[i] in IdsOf(t.episodes)
  {
    InDeltaIs(d);
    HasIds(t);
    forall x | InBoth(t, d, x)
      ensures exists i :: 0 <= i < |ids| && ids[i] in IdsOf(t.episodes)
    {
      var i :| 0 <= i < |ids| && ids[i] == x;
    }
    forall i | 0 <= i < |ids| && ids[i] in IdsOf(t.episodes)
      ensures InBoth(t, d, ids[i])
    {
    }
  }

  lemma InDeltaIs(d: TaskDelta)
    ensures forall x :: x in DeltaIds(d.episodes) <==> InDelta(d, x)
  {
    DeltaIdsContain(d.episodes);
  }

  /** The owner is the first candidate that shares with the delta. */
  lemma {:induction false} OwnerIs(tasks: seq<Task>, d: TaskDelta) returns (k: nat)
    ensures k <= |tasks| && forall j :: 0 <= j < k ==> !Shares(tasks[j], d)
    ensures OwnerOf(tasks, d).None? ==> k == |tasks|
    ensures OwnerOf(tasks, d).Some? ==> k < |tasks| && Shares(tasks[k], d) && tasks[k].id == OwnerOf(tasks, d).value
  {
    k := 0;
    if tasks != [] {
      SharesIs(tasks[0], d, DeltaIds(d.episodes));
      if !Shares(tasks[0], d) {
        var rest := tasks[1..];
        var j := OwnerIs(rest, d);
        k := j + 1;
        assert forall i :: 1 <= i < |tasks| ==> tasks[i] == rest[i - 1];
      }
    }
  }

  lemma PlacedAt(ctx: Context, tasks: seq<Task>, d: TaskDelta, i: nat)
    requires Candidates(ctx.root, tasks) && ValidFor(ctx, tasks, d) && i < |tasks| && tasks[i].id == Resolve(ctx, tasks, d)
    ensures TookAt(ctx, tasks, d, i, MergeDelta(ctx, tasks, d))
  {
    assert Position(tasks, tasks[i].id) == i;
    GrownTook(ctx, tasks[i], d);
  }

  /** Merging one delta puts it where it belongs. */
  lemma DeltaIsMerged(ctx: Context, tasks: seq<Task>, d: TaskDelta)
    requires Candidates(ctx.root, tasks) && ValidFor(ctx, tasks, d)
    ensures DeltaMerged(ctx, tasks, d, MergeDelta(ctx, tasks, d))
  {
    ResolvesTo(ctx, tasks, d);
    forall i | 0 <= i < |tasks| && tasks[i].id == Resolve(ctx, tasks, d)
      ensures TookAt(ctx, tasks, d, i, MergeDelta(ctx, tasks, d))
    {
      PlacedAt(ctx, tasks, d, i);
    }
    if forall i :: 0 <= i < |tasks| ==> tasks[i].id != Resolve(ctx, tasks, d) {
      PlacedBehind(ctx, tasks, d);
    }
  }

  lemma PlacedBehind(ctx: Context, tasks: seq<Task>, d: TaskDelta)
    requires Supplied(ctx, d) && NoRepeats(DeltaIds(d.episodes)) && Resolve(ctx, tasks, d) == Asked(ctx, d)
    requires forall i :: 0 <= i < |tasks| ==> tasks[i].id != Asked(ctx, d)
    ensures TookNew(ctx, tasks, d, MergeDelta(ctx, tasks, d))
  {
    var t := NewTask(ctx, Asked(ctx, d), d);
    EmptyWellFormed(t);
    GrownTook(ctx, t, d);
  }

  /** The id found is that of the task that takes the delta, or else the one asked for. */
  lemma ResolvesTo(ctx: Context, tasks: seq<Task>, d: TaskDelta)
    requires Supplied(ctx, d)
    ensures forall i :: 0 <= i < |tasks| && Takes(tasks, d, i) ==> tasks[i].id == Resolve(ctx, tasks, d)
    ensures (forall i :: 0 <= i < |tasks| ==> !Takes(tasks, d, i)) ==> Resolve(ctx, tasks, d) == Asked(ctx, d)
  {
    var owner := OwnerIs(tasks, d);
    if d.existing.None? && owner < |tasks| {
      assert Takes(tasks, d, owner);
      forall i | 0 <= i < |tasks| && Takes(tasks, d, i)
        ensures i == owner
      {
      }
    }
  }

  /** The deltas are merged one after the other. */
  ghost predicate MergedInTurn(ctx: Context, tasks: seq<Task>, deltas: seq<TaskDelta>, stages: seq<seq<Task>>, after: seq<Task>) {
    && |stages| == |deltas| + 1 && stages[0] == tasks && stages[|deltas|] == after
    && forall k :: 0 <= k < |deltas| ==> Supplied(ctx, deltas[k]) && DeltaMerged(ctx, stages[k], deltas[k], stages[k + 1])
  }

  lemma OneMoreMerged(ctx: Context, tasks: seq<Task>, front: seq<TaskDelta>, stages: seq<seq<Task>>, mid: seq<Task>, d: TaskDelta, after: seq<Task>)
    requires MergedInTurn(ctx, tasks, front, stages, mid) && Supplied(ctx, d) && DeltaMerged(ctx, mid, d, after)
    ensures MergedInTurn(ctx, tasks, front + [d], stages + [after], after)
  {
  }

  /** A whole extraction is merged delta by delta, each into the candidates the ones before have left. */
  lemma {:induction false} ExtractionIsMerged(ctx: Context, tasks: seq<Task>, deltas: seq<TaskDelta>) returns (stages: seq<seq<Task>>)
    requires Candidates(ctx.root, tasks)
    requires forall d :: d in deltas ==> Supplied(ctx, d)
    requires forall d :: d in deltas ==> ValidFor(ctx, tasks, d)
    ensures MergedInTurn(ctx, tasks, deltas, stages, MergeAll(ctx, tasks, deltas))
    decreases |deltas|
  {
    stages := [tasks];
    if deltas != [] {
      var front, d := deltas[..|deltas| - 1], deltas[|deltas| - 1];
      assert deltas == front + [d] && d in deltas;
      var before := ExtractionIsMerged(ctx, tasks, front);
      var mid := MergeAll(ctx, tasks, front);
      LastIsMerged(ctx, tasks, front, d);
      stages := before + [MergeDelta(ctx, mid, d)];
      OneMoreMerged(ctx, tasks, front, before, mid, d, MergeDelta(ctx, mid, d));
    }
  }

  lemma LastIsMerged(ctx: Context, tasks: seq<Task>, front: seq<TaskDelta>, d: TaskDelta)
    requires Candidates(ctx.root, tasks) && ValidFor(ctx, tasks, d)
    requires forall f :: f in front ==> Supplied(ctx, f)
    requires forall f :: f in front ==> ValidFor(ctx, tasks, f)
    ensures DeltaMerged(ctx, MergeAll(ctx, tasks, front), d, MergeDelta(ctx, MergeAll(ctx, tasks, front), d))
  {
    MergeAllSound(ctx, tasks, front);
    StillValid(ctx, tasks, MergeAll(ctx, tasks, front), d);
    DeltaIsMerged(ctx, MergeAll(ctx, tasks, front), d);
  }

  // ---------------------------------------------------------------- lineage edges

  /** An episode of the parent that had started by the time of the link. */
  ghost predicate StartedInTime(e: Episode, link: Link, time: Stamp) {
    e.threadId == link.parentId && e.startedAt.Some? && e.startedAt.value.order <= time.order
  }

  /**
    The episode a link comes from: with a time stamp the latest-started of the parent by then, and of equals the
    last; without one the only episode of the parent.
   */
  ghost predicate Source(episodes: seq<Episode>, link: Link, o: nat)
    requires o < |episodes|
  {
    match link.timestamp
    case Some(time) =>
      && StartedInTime(episodes[o], link, time)
      && forall j :: 0 <= j < |episodes| && StartedInTime(episodes[j], link, time) ==>
           (episodes[j].startedAt.value.order < episodes[o].startedAt.value.order
            || (episodes[j].startedAt.value.order == episodes[o].startedAt.value.order && j <= o))
    case None =>
      && episodes[o].threadId == link.parentId
      && forall j :: 0 <= j < |episodes| && episodes[j].threadId == link.parentId ==> j == o
  }

  /** Evidence of an episode of the child, known to lie at or after the link. */
  ghost predicate AfterLink(e: Episode, link: Link, offsets: map<string, nat>, x: string) {
    e.threadId == link.childId && x in e.evidenceIds && x in offsets && link.evidence.byteOffset <= offsets[x]
  }

  /** The episode a link leads to: the first of the child with the earliest evidence at or after the link. */
  ghost predicate Destination(episodes: seq<Episode>, link: Link, offsets: map<string, nat>, g: nat)
    requires g < |episodes|
  {
    exists x :: x in offsets && EarliestAt(episodes, link, offsets, g, x)
  }

  ghost predicate EarliestAt(episodes: seq<Episode>, link: Link, offsets: map<string, nat>, g: nat, x: string)
    requires g < |episodes|
  {
    && AfterLink(episodes[g], link, offsets, x)
    && forall j, y :: 0 <= j < |episodes| && AfterLink(episodes[j], link, offsets, y) ==>
         offsets[x] < offsets[y] || (offsets[x] == offsets[y] && g <= j)
  }

  /** A link draws an edge between these two episodes: they are its ends, are different, and are not joined yet. */
  ghost predicate Draws(task: Task, link: Link, offsets: map<string, nat>, o: nat, g: nat) {
    && o < |task.episodes| && g < |task.episodes|
    && Source(task.episodes, link, o) && Destination(task.episodes, link, offsets, g)
    && task.episodes[o].id != task.episodes[g].id
    && forall edge :: edge in task.edges ==> edge.from != task.episodes[o].id || edge.to != task.episodes[g].id
  }

  /** The task with its link drawn: one edge from the source to the destination, or no change at all. */
  ghost predicate Drawn(task: Task, link: Link, offsets: map<string, nat>, after: Task) {
    && (forall o: nat, g: nat :: Draws(task, link, offsets, o, g) ==>
          after == task.(edges := task.edges + [Edge(task.episodes[o].id, task.episodes[g].id, [link.evidence.eventId])]))
    && ((forall o: nat, g: nat :: !Draws(task, link, offsets, o, g)) ==> after == task)
  }

  lemma {:induction false} EarliestFromIs(ids: seq<string>, offsets: map<string, nat>, from: nat)
    ensures var r := EarliestFrom(ids, offsets, from);
            && (r.Some? ==> exists x :: x in ids && x in offsets && offsets[x] == r.value && from <= r.value)
            && (forall x :: x in ids && x in offsets && from <= offsets[x] ==> r.Some? && r.value <= offsets[x])
  {
    if ids != [] {
      EarliestFromIs(ids[..|ids| - 1], offsets, from);
      assert ids == ids[..|ids| - 1] + [ids[|ids| - 1]];
    }
  }

  lemma {:induction false} TargetIs(episodes: seq<Episode>, link: Link, offsets: map<string, nat>)
    ensures var r := Target(episodes, link, offsets);
            && (r.Some? ==> exists x :: x in offsets && offsets[x] == r.value.1 && EarliestAt(episodes, link, offsets, r.value.0, x))
            && (r.None? ==> forall j, y :: 0 <= j < |episodes| ==> !AfterLink(episodes[j], link, offsets, y))
  {
    if episodes != [] {
      var k := |episodes| - 1;
      TargetIs(episodes[..k], link, offsets);
      EarliestFromIs(episodes[k].evidenceIds, offsets, link.evidence.byteOffset);
    }
  }

  lemma DestinationIs(episodes: seq<Episode>, link: Link, offsets: map<string, nat>, g: nat)
    requires g < |episodes|
    ensures Destination(episodes, link, offsets, g) <==>
            Target(episodes, link, offsets).Some? && Target(episodes, link, offsets).value.0 == g
  {
    TargetIs(episodes, link, offsets);
  }

  lemma {:induction false} LastStartedIs(episodes: seq<Episode>, link: Link)
    ensures var r := LastStarted(episodes, link);
            && (r.None? ==> forall j :: 0 <= j < |episodes| ==> !StartedBy(episodes[j], link))
            && (r.Some? && link.timestamp.Some? ==> Source(episodes, link, r.value))
            && (r.Some? && link.timestamp.None? ==> forall j :: r.value < j < |episodes| ==> !StartedBy(episodes[j], link))
  {
    if episodes != [] {
      LastStartedIs(episodes[..|episodes| - 1], link);
    }
  }

  lemma {:induction false} NoSources(episodes: seq<Episode>, link: Link)
    ensures CountSources(episodes, link) == 0 <==> forall j :: 0 <= j < |episodes| ==> episodes[j].threadId != link.parentId
  {
    if episodes != [] {
      var front := episodes[..|episodes| - 1];
      NoSources(front, link);
      assert forall j :: 0 <= j < |front| ==> front[j] == episodes[j];
    }
  }

  lemma {:induction false} OneSource(episodes: seq<Episode>, link: Link, o: nat)
    requires o < |episodes| && episodes[o].threadId == link.parentId
    ensures CountSources(episodes, link) >= 1
    ensures CountSources(episodes, link) == 1 <==>
            forall j :: 0 <= j < |episodes| && episodes[j].threadId == link.parentId ==> j == o
  {
    var front := episodes[..|episodes| - 1];
    assert forall j :: 0 <= j < |front| ==> front[j] == episodes[j];
    if o < |front| {
      OneSource(front, link, o);
    } else {
      NoSources(front, link);
    }
  }

  lemma SourceIs(episodes: seq<Episode>, link: Link, o: nat)
    requires o < |episodes|
    ensures Source(episodes, link, o) <==> Origin(episodes, link) == Some(o)
  {
    LastStartedIs(episodes, link);
    if link.timestamp.None? && episodes[o].threadId == link.parentId {
      OneSource(episodes, link, o);
    }
  }

  /** A link is drawn from its source to its destination, once. */
  lemma LinkIsDrawn(task: Task, link: Link, offsets: map<string, nat>)
    ensures Drawn(task, link, offsets, AddLink(task, link, offsets))
  {
    forall o: nat, g: nat | o < |task.episodes| && g < |task.episodes|
      ensures Draws(task, link, offsets, o, g) <==>
              && Origin(task.episodes, link) == Some(o)
              && Target(task.episodes, link, offsets).Some? && Target(task.episodes, link, offsets).value.0 == g
              && task.episodes[o].id != task.episodes[g].id
              && !HasEdge(task.edges, task.episodes[o].id, task.episodes[g].id)
    {
      SourceIs(task.episodes, link, o);
      DestinationIs(task.episodes, link, offsets, g);
      HasEdgeIs(task.edges, task.episodes[o].id, task.episodes[g].id);
    }
  }

  lemma HasEdgeIs(edges: seq<Edge>, from: EpisodeId, to: EpisodeId)
    ensures HasEdge(edges, from, to) <==> exists edge :: edge in edges && edge.from == from && edge.to == to
  {
  }

  /** The links are drawn into the task one after the other, each into what the ones before have left. */
  ghost predicate DrawnInTurn(task: Task, links: seq<Link>, offsets: map<string, nat>, stages: seq<Task>, after: Task) {
    && |stages| == |links| + 1 && stages[0] == task && stages[|links|] == after
    && forall k :: 0 <= k < |links| ==> Drawn(stages[k], links[k], offsets, stages[k + 1])
  }

  lemma OneMoreDrawn(
    task: Task, front: seq<Link>, offsets: map<string, nat>, stages: seq<Task>, mid: Task, link: Link, after: Task)
    requires DrawnInTurn(task, front, offsets, stages, mid) && Drawn(mid, link, offsets, after)
    ensures DrawnInTurn(task, front + [link], offsets, stages + [after], after)
  {
  }

  lemma {:induction false} LinksAreDrawn(task: Task, links: seq<Link>, offsets: map<string, nat>) returns (stages: seq<Task>)
    ensures DrawnInTurn(task, links, offsets, stages, LinkTask(task, links, offsets))
    decreases |links|
  {
    stages := [task];
    if links != [] {
      var front, last := links[..|links| - 1], links[|links| - 1];
      assert links == front + [last];
      var before := LinksAreDrawn(task, front, offsets);
      var mid := LinkTask(task, front, offsets);
      LinkIsDrawn(mid, last, offsets);
      stages := before + [AddLink(mid, last, offsets)];
      OneMoreDrawn(task, front, offsets, before, mid, last, AddLink(mid, last, offsets));
    }
  }
}
