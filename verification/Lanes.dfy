/**
  The task graph as the interface draws it: which episodes are related to a selected one, and where each
  episode stands. Identifiers are numbers; 0 is the empty text.
 */
module Lanes {
  import opened Results

  type Id = nat

  const BLANK: Id := 0
  const GAP := 246.0
  const LEFT := 20.0

  datatype Edge = Edge(from: Id, to: Id)

  datatype Direction = Ancestors | Descendants

  // ---------------------------------------------------------------- reachability

  /** One step along the edges, against them or with them. */
  ghost predicate Joined(edges: seq<Edge>, d: Direction, a: Id, b: Id) {
    if d.Ancestors? then Edge(b, a) in edges else Edge(a, b) in edges
  }

  ghost predicate IsPath(edges: seq<Edge>, d: Direction, path: seq<Id>) {
    path != [] && forall i :: 0 < i < |path| ==> Joined(edges, d, path[i - 1], path[i])
  }

  /** There is a path of any length, also around a circle. */
  ghost predicate Reaches(edges: seq<Edge>, d: Direction, a: Id, b: Id) {
    exists path :: IsPath(edges, d, path) && path[0] == a && path[|path| - 1] == b
  }

  /** The same, over paths that enter no empty identifier. */
  ghost predicate ReachesNamed(edges: seq<Edge>, d: Direction, a: Id, b: Id) {
    exists path :: IsPath(edges, d, path) && path[0] == a && path[|path| - 1] == b && BLANK !in path[1..]
  }

  /** Together with a set all its named neighbours. */
  ghost predicate Closed(edges: seq<Edge>, d: Direction, s: set<Id>) {
    forall a, b :: a in s && b != BLANK && Joined(edges, d, a, b) ==> b in s
  }

  lemma {:induction false} ClosedHoldsPath(edges: seq<Edge>, d: Direction, s: set<Id>, path: seq<Id>)
    requires Closed(edges, d, s) && IsPath(edges, d, path) && path[0] in s && BLANK !in path[1..]
    ensures path[|path| - 1] in s
  {
    if |path| > 1 {
      var front := path[..|path| - 1];
      assert path[1..] == front[1..] + [path[|path| - 1]];
      ClosedHoldsPath(edges, d, s, front);
      assert Joined(edges, d, path[|path| - 2], path[|path| - 1]);
    }
  }

  lemma ReachesOn(edges: seq<Edge>, d: Direction, id: Id, a: Id, b: Id)
    requires ReachesNamed(edges, d, id, a) && Joined(edges, d, a, b) && b != BLANK
    ensures ReachesNamed(edges, d, id, b)
  {
    var path :| IsPath(edges, d, path) && path[0] == id && path[|path| - 1] == a && BLANK !in path[1..];
    var longer := path + [b];
    assert longer[1..] == path[1..] + [b];
    assert IsPath(edges, d, longer);
  }

  lemma ReachesSelf(edges: seq<Edge>, d: Direction, id: Id)
    ensures ReachesNamed(edges, d, id, id)
  {
    assert IsPath(edges, d, [id]);
  }

  function Nodes(edges: seq<Edge>, id: Id): set<Id> {
    {id} + (set e | e in edges :: e.from) + (set e | e in edges :: e.to)
  }

  /** One direction of `reachable`: a stack of what is still to be expanded; circles end by what was visited. */
  method Visit(edges: seq<Edge>, id: Id, d: Direction) returns (visited: set<Id>)
    ensures forall n :: n in visited <==> ReachesNamed(edges, d, id, n)
  {
    visited := {id};
    var pending := [id];
    ReachesSelf(edges, d, id);
    while pending != []
      invariant id in visited && visited <= Nodes(edges, id)
      invariant forall n :: n in visited ==> ReachesNamed(edges, d, id, n)
      invariant forall n :: n in pending ==> n in visited
      invariant forall a, b :: a in visited && a !in pending && b != BLANK && Joined(edges, d, a, b) ==> b in visited
      decreases Nodes(edges, id) - visited, |pending|
    {
      visited, pending := Expand(edges, id, d, visited, pending);
    }
    forall n | ReachesNamed(edges, d, id, n)
      ensures n in visited
    {
      var path :| IsPath(edges, d, path) && path[0] == id && path[|path| - 1] == n && BLANK !in path[1..];
      ClosedHoldsPath(edges, d, visited, path);
    }
  }

  /** Pops one identifier and pushes its unvisited neighbours, in the order of the edges. */
  method Expand(edges: seq<Edge>, id: Id, d: Direction, visited: set<Id>, pending: seq<Id>) returns (more: set<Id>, left: seq<Id>)
    requires pending != [] && id in visited && visited <= Nodes(edges, id)
    requires forall n :: n in visited ==> ReachesNamed(edges, d, id, n)
    requires forall n :: n in pending ==> n in visited
    requires forall a, b :: a in visited && a !in pending && b != BLANK && Joined(edges, d, a, b) ==> b in visited
    ensures visited <= more <= Nodes(edges, id)
    ensures forall n :: n in more ==> ReachesNamed(edges, d, id, n)
    ensures forall n :: n in left ==> n in more
    ensures forall a, b :: a in more && a !in left && b != BLANK && Joined(edges, d, a, b) ==> b in more
    ensures more == visited ==> |left| < |pending|
  {
    var current := pending[|pending| - 1];
    more, left := visited, pending[..|pending| - 1];
    assert pending == left + [current];
    for i := 0 to |edges|
      invariant visited <= more <= Nodes(edges, id)
      invariant forall n :: n in more ==> ReachesNamed(edges, d, id, n)
      invariant forall n :: n in left ==> n in more
      invariant forall n :: n in more ==> n in visited || n in left
      invariant forall n :: n in pending ==> n in left || n == current
      invariant forall b :: b != BLANK && Joined(edges[..i], d, current, b) ==> b in more
      invariant more == visited ==> |left| < |pending|
    {
      var e := edges[i];
      assert edges[..i + 1] == edges[..i] + [e];
      var next := if d == Ancestors && e.to == current then e.from else if d == Descendants && e.from == current then e.to else BLANK;
      if next != BLANK && next !in more {
        assert Joined(edges, d, current, next);
        ReachesOn(edges, d, id, current, next);
        more, left := more + {next}, left + [next];
      }
    }
    assert edges[..|edges|] == edges;
  }

  /** `reachable`: the selected episode, its ancestors and its descendants. */
  method Reachable(edges: seq<Edge>, id: Id) returns (result: set<Id>)
    ensures forall n :: n in result <==> n == id || ReachesNamed(edges, Ancestors, id, n) || ReachesNamed(edges, Descendants, id, n)
  {
    ReachesSelf(edges, Ancestors, id);
    var up := Visit(edges, id, Ancestors);
    var down := Visit(edges, id, Descendants);
    result := {id} + up + down;
  }

  /** An identifier that is reached but not by name hides behind the empty identifier, which is then reached too. */
  lemma {:induction false} UnnamedBehindBlank(edges: seq<Edge>, d: Direction, path: seq<Id>)
    requires IsPath(edges, d, path)
    ensures ReachesNamed(edges, d, path[0], path[|path| - 1]) || (Reaches(edges, d, path[0], BLANK) && path[0] != BLANK)
    decreases |path|
  {
    if BLANK in path[1..] {
      var k :| 0 <= k < |path| - 1 && path[1..][k] == BLANK;
      var head := path[..k + 2];
      assert IsPath(edges, d, head) && head[|head| - 1] == BLANK;
      if path[0] == BLANK {
        var rest := path[k + 1..];
        assert IsPath(edges, d, rest);
        UnnamedBehindBlank(edges, d, rest);
      }
    }
  }

  /**
    The exact condition under which `reachable` finds every ancestor and descendant: the empty identifier is
    not among them, unless it is the selected one. Otherwise it is missing from the result.
   */
  lemma ReachableIff(edges: seq<Edge>, id: Id, result: set<Id>)
    requires forall n :: n in result <==> n == id || ReachesNamed(edges, Ancestors, id, n) || ReachesNamed(edges, Descendants, id, n)
    ensures (forall n :: n in result <==> n == id || Reaches(edges, Ancestors, id, n) || Reaches(edges, Descendants, id, n))
            <==> (id == BLANK || (!Reaches(edges, Ancestors, id, BLANK) && !Reaches(edges, Descendants, id, BLANK)))
  {
    forall d: Direction, n | ReachesNamed(edges, d, id, n)
      ensures Reaches(edges, d, id, n) && (n == BLANK ==> n == id)
    {
      var path :| IsPath(edges, d, path) && path[0] == id && path[|path| - 1] == n && BLANK !in path[1..];
      assert |path| > 1 ==> path[|path| - 1] in path[1..];
    }
    if id == BLANK || (!Reaches(edges, Ancestors, id, BLANK) && !Reaches(edges, Descendants, id, BLANK)) {
      forall d: Direction, n | Reaches(edges, d, id, n)
        ensures ReachesNamed(edges, d, id, n)
      {
        var path :| IsPath(edges, d, path) && path[0] == id && path[|path| - 1] == n;
        UnnamedBehindBlank(edges, d, path);
        assert d == Ancestors || d == Descendants;
      }
    } else {
      assert BLANK !in result;
    }
  }

  // ---------------------------------------------------------------- positions

  /** An episode with its start, if that is a readable time. */
  datatype Episode = Episode(id: Id, thread: Id, start: Option<real>)

  datatype Mode = Graph | Swimlane

  datatype Position = Position(x: real, y: real)

  function Max(a: real, b: real): real {
    if a >= b then a else b
  }

  function IndexOf(lanes: seq<Id>, thread: Id): (r: nat)
    requires thread in lanes
    ensures r < |lanes| && lanes[r] == thread
  {
    if lanes[0] == thread then 0 else 1 + IndexOf(lanes[1..], thread)
  }

  ghost predicate Distinct(episodes: seq<Episode>) {
    forall i, j :: 0 <= i < j < |episodes| ==> episodes[i].id != episodes[j].id
  }

  function Xs(episodes: seq<Episode>, at: map<Id, Position>): seq<real>
    requires forall e :: e in episodes ==> e.id in at
  {
    seq(|episodes|, i requires 0 <= i < |episodes| => at[episodes[i].id].x)
  }

  /** In one lane every episode stands clear of the ones before it. */
  ghost predicate LanesClear(episodes: seq<Episode>, xs: seq<real>)
    requires |xs| <= |episodes|
  {
    forall i, j :: 0 <= i < j < |xs| && episodes[i].thread == episodes[j].thread ==> xs[j] >= xs[i] + GAP
  }

  /** Every episode stands clear to the right of each parent placed before it. */
  ghost predicate ParentsLeft(edges: seq<Edge>, episodes: seq<Episode>, xs: seq<real>)
    requires |xs| <= |episodes|
  {
    forall i, j :: 0 <= i < j < |xs| && Edge(episodes[i].id, episodes[j].id) in edges ==> xs[j] >= xs[i] + GAP
  }

  /** No episode stands further right than it must: at the margin, or exactly one gap behind what holds it. */
  ghost predicate Tight(edges: seq<Edge>, episodes: seq<Episode>, xs: seq<real>)
    requires |xs| <= |episodes|
  {
    forall j :: 0 <= j < |xs| ==> Held(edges, episodes, xs, j)
  }

  ghost predicate Held(edges: seq<Edge>, episodes: seq<Episode>, xs: seq<real>, j: nat)
    requires j < |xs| <= |episodes|
  {
    || xs[j] == LEFT
    || exists i :: 0 <= i < j && (episodes[i].thread == episodes[j].thread || Edge(episodes[i].id, episodes[j].id) in edges)
                   && xs[j] == xs[i] + GAP
  }

  ghost predicate Margin(xs: seq<real>) {
    forall i :: 0 <= i < |xs| ==> xs[i] >= LEFT
  }

  ghost predicate IsRightmostParent(edges: seq<Edge>, id: Id, at: map<Id, Position>, x: Option<real>) {
    && (x.Some? ==> exists p :: p in at && Edge(p, id) in edges && at[p].x == x.value)
    && (forall p :: p in at && Edge(p, id) in edges ==> x.Some? && at[p].x <= x.value)
  }

  /** The rightmost parent already placed. */
  method RightmostParent(edges: seq<Edge>, id: Id, at: map<Id, Position>) returns (x: Option<real>)
    ensures IsRightmostParent(edges, id, at, x)
  {
    x := None;
    for i := 0 to |edges|
      invariant x.Some? ==> exists p :: p in at && Edge(p, id) in edges && at[p].x == x.value
      invariant forall p :: p in at && Edge(p, id) in edges[..i] ==> x.Some? && at[p].x <= x.value
    {
      assert edges[..i + 1] == edges[..i] + [edges[i]];
      var e := edges[i];
      if e.to == id && e.from in at && (x.None? || at[e.from].x > x.value) {
        assert Edge(e.from, id) in edges;
        x := Some(at[e.from].x);
      }
    }
    assert edges[..|edges|] == edges;
  }

  /** The threads of the first `n` episodes. */
  function Threads(episodes: seq<Episode>, n: nat): set<Id>
    requires n <= |episodes|
  {
    set k | 0 <= k < n :: episodes[k].thread
  }

  /** The episode at `k` is the first of its thread. */
  predicate Opens(episodes: seq<Episode>, k: nat)
    requires k < |episodes|
  {
    episodes[k].thread !in Threads(episodes, k)
  }

  /** The lanes of the first `n` episodes: each thread has the place that its first episode met. */
  ghost predicate LanesHold(episodes: seq<Episode>, n: nat, lanes: seq<Id>)
    requires n <= |episodes|
  {
    && |lanes| == |Threads(episodes, n)| && (forall t :: t in lanes <==> t in Threads(episodes, n))
    && forall k :: 0 <= k < n && Opens(episodes, k) ==> PlaceOf(episodes, lanes, k)
  }

  ghost predicate PlaceOf(episodes: seq<Episode>, lanes: seq<Id>, k: nat)
    requires k < |episodes|
  {
    episodes[k].thread in lanes && IndexOf(lanes, episodes[k].thread) == |Threads(episodes, k)|
  }

  lemma {:induction false} IndexStays(lanes: seq<Id>, t: Id, more: Id)
    requires t in lanes
    ensures t in lanes + [more] && IndexOf(lanes + [more], t) == IndexOf(lanes, t)
  {
    if lanes[0] != t {
      IndexStays(lanes[1..], t, more);
      assert (lanes + [more])[1..] == lanes[1..] + [more];
    }
  }

  lemma {:induction false} IndexOfNew(lanes: seq<Id>, t: Id)
    requires t !in lanes
    ensures t in lanes + [t] && IndexOf(lanes + [t], t) == |lanes|
  {
    if lanes != [] {
      IndexOfNew(lanes[1..], t);
      assert (lanes + [t])[1..] == lanes[1..] + [t];
    }
  }

  lemma LanesMore(episodes: seq<Episode>, n: nat, lanes: seq<Id>)
    requires n < |episodes| && LanesHold(episodes, n, lanes)
    ensures LanesHold(episodes, n + 1, if episodes[n].thread in lanes then lanes else lanes + [episodes[n].thread])
  {
    var t := episodes[n].thread;
    assert Threads(episodes, n + 1) == Threads(episodes, n) + {t};
    if t in lanes {
      assert Threads(episodes, n + 1) == Threads(episodes, n);
    } else {
      IndexOfNew(lanes, t);
      forall k | 0 <= k < n + 1 && Opens(episodes, k)
        ensures PlaceOf(episodes, lanes + [t], k)
      {
        if k < n {
          assert episodes[k].thread in Threads(episodes, n);
          assert PlaceOf(episodes, lanes, k);
          IndexStays(lanes, episodes[k].thread, t);
        }
      }
    }
  }

  /** The threads in the order of their first episode. */
  method LanesOf(episodes: seq<Episode>) returns (lanes: seq<Id>)
    ensures LanesHold(episodes, |episodes|, lanes)
  {
    lanes := [];
    for i := 0 to |episodes|
      invariant LanesHold(episodes, i, lanes)
    {
      LanesMore(episodes, i, lanes);
      if episodes[i].thread !in lanes {
        lanes := lanes + [episodes[i].thread];
      }
    }
  }

  /** The first start, and the time from it to the last start but at least one. */
  ghost predicate IsSpan(episodes: seq<Episode>, first: real, duration: real) {
    && duration >= 1.0
    && (forall e :: e in episodes && e.start.Some? ==> first <= e.start.value <= first + duration)
    && (duration > 1.0 ==> exists e :: e in episodes && e.start == Some(first + duration))
    && ((exists e :: e in episodes && e.start.Some?) ==> exists e :: e in episodes && e.start == Some(first))
  }

  /** The first start and the span of the starts, at least one. */
  method SpanOf(episodes: seq<Episode>) returns (first: real, duration: real)
    ensures IsSpan(episodes, first, duration)
  {
    var last := 0.0;
    first := 0.0;
    var any := false;
    for i := 0 to |episodes|
      invariant forall k :: 0 <= k < i && episodes[k].start.Some? ==> any && first <= episodes[k].start.value <= last
      invariant any ==> first <= last
      invariant any ==> exists e :: e in episodes && e.start == Some(first)
      invariant any ==> exists e :: e in episodes && e.start == Some(last)
      invariant !any ==> first == last
    {
      assert episodes[i] in episodes;
      if episodes[i].start.Some? {
        var t := episodes[i].start.value;
        first, last, any := if any && first < t then first else t, if any && last > t then last else t, true;
      }
    }
    duration := Max(1.0, last - first);
  }

  function Width(count: nat): (w: real)
    ensures w >= 492.0
  {
    Max(492.0, (count as real - 1.0) * GAP)
  }

  /** Where an episode wants to stand in a swimlane: by its time, or by its index. */
  function Timed(e: Episode, index: nat, count: nat, first: real, duration: real): real
    requires duration >= 1.0
  {
    if e.start.Some? then LEFT + (e.start.value - first) / duration * Width(count)
    else LEFT + index as real * GAP
  }

  lemma ShareOfSpan(t: real, duration: real, width: real)
    requires duration >= 1.0 && 0.0 <= t <= duration && width >= 0.0
    ensures 0.0 <= t / duration * width <= width
    ensures t == 0.0 ==> t / duration * width == 0.0
    ensures t == duration ==> t / duration * width == width
  {
    var share := t / duration;
    assert share * duration == t;
    assert 0.0 <= share <= 1.0;
    assert share * width <= 1.0 * width;
  }

  lemma ShareGrows(s: real, t: real, duration: real, width: real)
    requires duration >= 1.0 && s <= t && width >= 0.0
    ensures s / duration * width <= t / duration * width
  {
    assert s / duration <= t / duration;
    assert (t / duration - s / duration) * width >= 0.0;
  }

  /**
    The time scale of a swimlane: the first start stands at the margin, the last at the right end when the
    span is longer than one, everything else between them and in the order of time.
   */
  lemma TimeScale(a: Episode, i: nat, b: Episode, j: nat, count: nat, first: real, duration: real)
    requires duration >= 1.0 && a.start.Some? && b.start.Some? && first <= a.start.value <= b.start.value <= first + duration
    ensures LEFT <= Timed(a, i, count, first, duration) <= Timed(b, j, count, first, duration) <= LEFT + Width(count)
    ensures a.start.value == first ==> Timed(a, i, count, first, duration) == LEFT
    ensures b.start.value == first + duration ==> Timed(b, j, count, first, duration) == LEFT + Width(count)
  {
    ShareOfSpan(a.start.value - first, duration, Width(count));
    ShareOfSpan(b.start.value - first, duration, Width(count));
    ShareGrows(a.start.value - first, b.start.value - first, duration, Width(count));
  }

  /** In a swimlane every episode stands at its time, or one gap behind an earlier one of its lane that holds it. */
  ghost predicate ByTime(episodes: seq<Episode>, xs: seq<real>, first: real, duration: real)
    requires |xs| <= |episodes| && duration >= 1.0
  {
    forall j :: 0 <= j < |xs| ==> AtTime(episodes, xs, first, duration, j)
  }

  ghost predicate AtTime(episodes: seq<Episode>, xs: seq<real>, first: real, duration: real, j: nat)
    requires j < |xs| <= |episodes| && duration >= 1.0
  {
    var timed := Timed(episodes[j], j, |episodes|, first, duration);
    || xs[j] == timed
    || (xs[j] == LEFT && timed <= LEFT)
    || (xs[j] > timed && exists i :: 0 <= i < j && episodes[i].thread == episodes[j].thread && xs[j] == xs[i] + GAP)
  }

  lemma AtTimeStays(episodes: seq<Episode>, xs: seq<real>, first: real, duration: real, x: real, j: nat)
    requires j < |xs| < |episodes| && duration >= 1.0 && AtTime(episodes, xs, first, duration, j)
    ensures AtTime(episodes, xs + [x], first, duration, j)
  {
    var more := xs + [x];
    if i :| 0 <= i < j && episodes[i].thread == episodes[j].thread && xs[j] == xs[i] + GAP {
      assert more[j] == more[i] + GAP;
    }
  }

  lemma AtTimeLast(episodes: seq<Episode>, xs: seq<real>, lastInLane: map<Id, real>, first: real, duration: real, x: real)
    requires |xs| < |episodes| && duration >= 1.0 && LastHolds(episodes, xs, lastInLane)
    requires x == Max(Timed(episodes[|xs|], |xs|, |episodes|, first, duration), LaneEnd(lastInLane, episodes[|xs|].thread) + GAP)
    ensures AtTime(episodes, xs + [x], first, duration, |xs|)
  {
    var more, lane := xs + [x], episodes[|xs|].thread;
    if lane in lastInLane {
      var k := LaneEndPlaced(episodes, xs, lastInLane, lane);
      assert more[k] == xs[k] && more[|xs|] == x;
    }
  }

  lemma ByTimeMore(episodes: seq<Episode>, xs: seq<real>, lastInLane: map<Id, real>, first: real, duration: real, x: real)
    requires |xs| < |episodes| && duration >= 1.0 && LastHolds(episodes, xs, lastInLane) && ByTime(episodes, xs, first, duration)
    requires x == Max(Timed(episodes[|xs|], |xs|, |episodes|, first, duration), LaneEnd(lastInLane, episodes[|xs|].thread) + GAP)
    ensures ByTime(episodes, xs + [x], first, duration)
  {
    forall j | 0 <= j < |xs|
      ensures AtTime(episodes, xs + [x], first, duration, j)
    {
      AtTimeStays(episodes, xs, first, duration, x, j);
    }
    AtTimeLast(episodes, xs, lastInLane, first, duration, x);
  }

  /** `at` holds exactly the episodes placed so far. */
  ghost predicate AtHolds(episodes: seq<Episode>, xs: seq<real>, at: map<Id, Position>)
    requires |xs| <= |episodes|
  {
    && (forall k {:trigger episodes[k].id} :: 0 <= k < |xs| ==> episodes[k].id in at && at[episodes[k].id].x == xs[k])
    && (forall p :: p in at ==> exists k :: 0 <= k < |xs| && episodes[k].id == p)
  }

  /** `lastInLane` holds the rightmost episode of each lane placed so far. */
  ghost predicate LastHolds(episodes: seq<Episode>, xs: seq<real>, lastInLane: map<Id, real>)
    requires |xs| <= |episodes|
  {
    && (forall k {:trigger xs[k]} :: 0 <= k < |xs| ==> episodes[k].thread in lastInLane && lastInLane[episodes[k].thread] >= xs[k])
    && (forall t :: t in lastInLane ==> EndsAt(episodes, xs, t, lastInLane[t]))
  }

  /** The end of a lane, or the virtual one left of the margin. */
  function LaneEnd(lastInLane: map<Id, real>, thread: Id): real {
    if thread in lastInLane then lastInLane[thread] else -226.0
  }

  lemma AtMore(episodes: seq<Episode>, xs: seq<real>, at: map<Id, Position>, p: Position)
    requires |xs| < |episodes| && Distinct(episodes) && AtHolds(episodes, xs, at)
    ensures AtHolds(episodes, xs + [p.x], at[episodes[|xs|].id := p])
  {
    var n, more := |xs|, at[episodes[|xs|].id := p];
    forall q | q in more
      ensures exists k :: 0 <= k < n + 1 && episodes[k].id == q
    {
      if q != episodes[n].id {
        var k :| 0 <= k < n && episodes[k].id == q;
      }
    }
  }

  ghost predicate EndsAt(episodes: seq<Episode>, xs: seq<real>, thread: Id, x: real)
    requires |xs| <= |episodes|
  {
    exists k :: 0 <= k < |xs| && episodes[k].thread == thread && x == xs[k]
  }

  lemma LastMore(episodes: seq<Episode>, xs: seq<real>, lastInLane: map<Id, real>, x: real)
    requires |xs| < |episodes| && LastHolds(episodes, xs, lastInLane)
    requires x >= LaneEnd(lastInLane, episodes[|xs|].thread) + GAP
    ensures LastHolds(episodes, xs + [x], lastInLane[episodes[|xs|].thread := x])
  {
    var n, more, lane := |xs|, xs + [x], episodes[|xs|].thread;
    assert more[n] == x;
    forall k | 0 <= k < n
      ensures episodes[k].thread in lastInLane && lastInLane[lane := x][episodes[k].thread] >= more[k]
    {
      assert more[k] == xs[k];
    }
    forall t | t in lastInLane && t != lane
      ensures EndsAt(episodes, more, t, lastInLane[t])
    {
      assert EndsAt(episodes, xs, t, lastInLane[t]);
      var k :| 0 <= k < n && episodes[k].thread == t && xs[k] == lastInLane[t];
      assert more[k] == xs[k];
    }
    assert EndsAt(episodes, more, lane, x);
  }

  lemma ClearMore(episodes: seq<Episode>, xs: seq<real>, lastInLane: map<Id, real>, x: real)
    requires |xs| < |episodes| && LastHolds(episodes, xs, lastInLane) && LanesClear(episodes, xs) && Margin(xs)
    requires x >= LaneEnd(lastInLane, episodes[|xs|].thread) + GAP
    ensures LanesClear(episodes, xs + [x]) && Margin(xs + [x])
  {
    var lane := episodes[|xs|].thread;
    if lane in lastInLane {
      assert EndsAt(episodes, xs, lane, lastInLane[lane]);
    }
  }

  lemma ParentsMore(edges: seq<Edge>, episodes: seq<Episode>, xs: seq<real>, at: map<Id, Position>, parent: Option<real>, x: real)
    requires |xs| < |episodes| && AtHolds(episodes, xs, at) && ParentsLeft(edges, episodes, xs)
    requires forall p :: p in at && Edge(p, episodes[|xs|].id) in edges ==> parent.Some? && at[p].x <= parent.value
    requires parent.Some? ==> x >= parent.value + GAP
    ensures ParentsLeft(edges, episodes, xs + [x])
  {
  }

  lemma HeldStays(edges: seq<Edge>, episodes: seq<Episode>, xs: seq<real>, x: real, j: nat)
    requires j < |xs| < |episodes| && Held(edges, episodes, xs, j)
    ensures Held(edges, episodes, xs + [x], j)
  {
    var more := xs + [x];
    if xs[j] != LEFT {
      var i :| 0 <= i < j && (episodes[i].thread == episodes[j].thread || Edge(episodes[i].id, episodes[j].id) in edges)
               && xs[j] == xs[i] + GAP;
      assert more[j] == more[i] + GAP;
    }
  }

  lemma HeldBy(edges: seq<Edge>, episodes: seq<Episode>, xs: seq<real>, x: real, k: nat)
    requires k < |xs| < |episodes| && x == xs[k] + GAP
    requires episodes[k].thread == episodes[|xs|].thread || Edge(episodes[k].id, episodes[|xs|].id) in edges
    ensures Held(edges, episodes, xs + [x], |xs|)
  {
    var more := xs + [x];
    assert more[|xs|] == more[k] + GAP;
  }

  /** Some parent of the next episode stands at `x`. */
  ghost predicate ParentAt(edges: seq<Edge>, episodes: seq<Episode>, xs: seq<real>, x: real)
    requires |xs| < |episodes|
  {
    exists k :: 0 <= k < |xs| && Edge(episodes[k].id, episodes[|xs|].id) in edges && xs[k] == x
  }

  lemma ParentStands(edges: seq<Edge>, episodes: seq<Episode>, xs: seq<real>, at: map<Id, Position>, parent: real)
    requires |xs| < |episodes| && AtHolds(episodes, xs, at)
    requires exists p :: p in at && Edge(p, episodes[|xs|].id) in edges && at[p].x == parent
    ensures ParentAt(edges, episodes, xs, parent)
  {
    var p :| p in at && Edge(p, episodes[|xs|].id) in edges && at[p].x == parent;
    var k :| 0 <= k < |xs| && episodes[k].id == p;
    assert xs[k] == parent;
  }

  lemma LaneEndPlaced(episodes: seq<Episode>, xs: seq<real>, lastInLane: map<Id, real>, lane: Id) returns (k: nat)
    requires |xs| <= |episodes| && LastHolds(episodes, xs, lastInLane) && lane in lastInLane
    ensures k < |xs| && episodes[k].thread == lane && xs[k] == lastInLane[lane]
  {
    assert EndsAt(episodes, xs, lane, lastInLane[lane]);
    k :| 0 <= k < |xs| && episodes[k].thread == lane && lastInLane[lane] == xs[k];
  }

  lemma HeldAtParent(edges: seq<Edge>, episodes: seq<Episode>, xs: seq<real>, parent: real)
    requires |xs| < |episodes| && ParentAt(edges, episodes, xs, parent)
    ensures Held(edges, episodes, xs + [parent + GAP], |xs|)
  {
    var k :| 0 <= k < |xs| && Edge(episodes[k].id, episodes[|xs|].id) in edges && xs[k] == parent;
    HeldBy(edges, episodes, xs, parent + GAP, k);
  }

  lemma HeldAtLane(edges: seq<Edge>, episodes: seq<Episode>, xs: seq<real>, last: real)
    requires |xs| < |episodes| && EndsAt(episodes, xs, episodes[|xs|].thread, last)
    ensures Held(edges, episodes, xs + [last + GAP], |xs|)
  {
    var k :| 0 <= k < |xs| && episodes[k].thread == episodes[|xs|].thread && last == xs[k];
    HeldBy(edges, episodes, xs, last + GAP, k);
  }

  lemma HeldAtMargin(edges: seq<Edge>, episodes: seq<Episode>, xs: seq<real>)
    requires |xs| < |episodes|
    ensures Held(edges, episodes, xs + [LEFT], |xs|)
  {
    assert (xs + [LEFT])[|xs|] == LEFT;
  }

  /** One of the two bounds holds the new episode, or it stands at the margin. */
  lemma WhatHolds(parent: Option<real>, lane: Option<real>, x: real)
    requires x == Max(if parent.Some? then parent.value + GAP else LEFT, (if lane.Some? then lane.value else -226.0) + GAP)
    ensures (parent.Some? && x == parent.value + GAP) || (lane.Some? && x == lane.value + GAP) || x == LEFT
  {
  }

  lemma HeldLast(edges: seq<Edge>, episodes: seq<Episode>, xs: seq<real>, parent: Option<real>, lane: Option<real>, x: real)
    requires |xs| < |episodes|
    requires parent.Some? ==> ParentAt(edges, episodes, xs, parent.value)
    requires lane.Some? ==> EndsAt(episodes, xs, episodes[|xs|].thread, lane.value)
    requires x == Max(if parent.Some? then parent.value + GAP else LEFT, (if lane.Some? then lane.value else -226.0) + GAP)
    ensures Held(edges, episodes, xs + [x], |xs|)
  {
    WhatHolds(parent, lane, x);
    if parent.Some? && x == parent.value + GAP {
      HeldAtParent(edges, episodes, xs, parent.value);
    } else if lane.Some? && x == lane.value + GAP {
      HeldAtLane(edges, episodes, xs, lane.value);
    } else {
      HeldAtMargin(edges, episodes, xs);
    }
  }

  lemma TightMore(edges: seq<Edge>, episodes: seq<Episode>, xs: seq<real>, x: real)
    requires |xs| < |episodes| && Tight(edges, episodes, xs) && Held(edges, episodes, xs + [x], |xs|)
    ensures Tight(edges, episodes, xs + [x])
  {
    forall j | 0 <= j < |xs|
      ensures Held(edges, episodes, xs + [x], j)
    {
      assert Held(edges, episodes, xs, j);
      HeldStays(edges, episodes, xs, x, j);
    }
  }

  function RowOf(lanes: seq<Id>, thread: Id): real
    requires thread in lanes
  {
    30.0 + IndexOf(lanes, thread) as real * 155.0
  }

  lemma RowsApart(lanes: seq<Id>, a: Id, b: Id)
    requires a in lanes && b in lanes && a != b
    ensures RowOf(lanes, a) >= RowOf(lanes, b) + 155.0 || RowOf(lanes, b) >= RowOf(lanes, a) + 155.0
  {
    var i, j := IndexOf(lanes, a), IndexOf(lanes, b);
    assert i != j;
    assert i as real >= j as real + 1.0 || j as real >= i as real + 1.0;
  }

  lemma RowsFromLanes(episodes: seq<Episode>, lanes: seq<Id>, at: map<Id, Position>)
    requires forall e :: e in episodes ==> e.id in at && e.thread in lanes && at[e.id].y == RowOf(lanes, e.thread)
    ensures RowsSeparate(episodes, at)
  {
    forall a, b | a in episodes && b in episodes && a.thread != b.thread
      ensures at[a.id].y >= at[b.id].y + 155.0 || at[b.id].y >= at[a.id].y + 155.0
    {
      RowsApart(lanes, a.thread, b.thread);
    }
  }

  /** The state of the loop: the episodes placed so far, under the rules of the mode. */
  ghost predicate Placed(
    edges: seq<Edge>, episodes: seq<Episode>, mode: Mode, first: real, duration: real,
    xs: seq<real>, at: map<Id, Position>, lastInLane: map<Id, real>)
    requires |xs| <= |episodes| && duration >= 1.0
  {
    && AtHolds(episodes, xs, at) && LastHolds(episodes, xs, lastInLane)
    && LanesClear(episodes, xs) && Margin(xs)
    && (mode == Graph ==> ParentsLeft(edges, episodes, xs) && Tight(edges, episodes, xs))
    && (mode == Swimlane ==> ByTime(episodes, xs, first, duration))
  }

  lemma HeldNew(
    edges: seq<Edge>, episodes: seq<Episode>, xs: seq<real>, at: map<Id, Position>, lastInLane: map<Id, real>, parent: Option<real>, x: real)
    requires |xs| < |episodes| && AtHolds(episodes, xs, at)
    requires episodes[|xs|].thread in lastInLane ==> EndsAt(episodes, xs, episodes[|xs|].thread, lastInLane[episodes[|xs|].thread])
    requires IsRightmostParent(edges, episodes[|xs|].id, at, parent)
    requires x == Max(if parent.Some? then parent.value + GAP else LEFT, LaneEnd(lastInLane, episodes[|xs|].thread) + GAP)
    ensures Held(edges, episodes, xs + [x], |xs|)
  {
    if parent.Some? {
      ParentStands(edges, episodes, xs, at, parent.value);
    }
    var lane := episodes[|xs|].thread;
    HeldLast(edges, episodes, xs, parent, if lane in lastInLane then Some(lastInLane[lane]) else None, x);
  }

  lemma PlaceMore(
    edges: seq<Edge>, episodes: seq<Episode>, mode: Mode, first: real, duration: real,
    xs: seq<real>, at: map<Id, Position>, lastInLane: map<Id, real>, parent: Option<real>, desired: real, p: Position)
    requires |xs| < |episodes| && duration >= 1.0 && Distinct(episodes)
    requires Placed(edges, episodes, mode, first, duration, xs, at, lastInLane)
    requires IsRightmostParent(edges, episodes[|xs|].id, at, parent)
    requires desired == if mode == Graph then (if parent.Some? then parent.value + GAP else LEFT)
                        else Timed(episodes[|xs|], |xs|, |episodes|, first, duration)
    requires p.x == Max(desired, LaneEnd(lastInLane, episodes[|xs|].thread) + GAP)
    ensures Placed(edges, episodes, mode, first, duration, xs + [p.x], at[episodes[|xs|].id := p], lastInLane[episodes[|xs|].thread := p.x])
  {
    AtMore(episodes, xs, at, p);
    LastMore(episodes, xs, lastInLane, p.x);
    ClearMore(episodes, xs, lastInLane, p.x);
    if mode == Graph {
      ParentsMore(edges, episodes, xs, at, parent, p.x);
      HeldNew(edges, episodes, xs, at, lastInLane, parent, p.x);
      TightMore(edges, episodes, xs, p.x);
    } else {
      ByTimeMore(episodes, xs, lastInLane, first, duration, p.x);
    }
  }

  ghost predicate RowsHold(episodes: seq<Episode>, n: nat, lanes: seq<Id>, at: map<Id, Position>)
    requires n <= |episodes| && forall e :: e in episodes ==> e.thread in lanes
  {
    forall k :: 0 <= k < n ==> episodes[k].id in at && at[episodes[k].id].y == RowOf(lanes, episodes[k].thread)
  }

  lemma RowsMore(episodes: seq<Episode>, n: nat, lanes: seq<Id>, at: map<Id, Position>, x: real)
    requires n < |episodes| && Distinct(episodes) && forall e :: e in episodes ==> e.thread in lanes
    requires RowsHold(episodes, n, lanes, at)
    ensures RowsHold(episodes, n + 1, lanes, at[episodes[n].id := Position(x, RowOf(lanes, episodes[n].thread))])
  {
  }

  /**
    `episodePositions` on the ordered episodes. In either mode no two episodes of a lane overlap; in graph
    mode every episode also stands clear of its placed parents, and no further right than that requires; in
    swimlane mode it stands at its time unless its lane holds it back.
   */
  method EpisodePositions(edges: seq<Edge>, episodes: seq<Episode>, mode: Mode) returns (at: map<Id, Position>)
    requires Distinct(episodes)
    ensures forall e :: e in episodes ==> e.id in at
    ensures LanesClear(episodes, Xs(episodes, at)) && Margin(Xs(episodes, at))
    ensures mode == Graph ==> ParentsLeft(edges, episodes, Xs(episodes, at)) && Tight(edges, episodes, Xs(episodes, at))
    ensures mode == Swimlane ==>
              exists first, duration :: IsSpan(episodes, first, duration) && ByTime(episodes, Xs(episodes, at), first, duration)
    ensures RowsSeparate(episodes, at) && RowsInOrder(episodes, at)
  {
    var lanes := LanesOf(episodes);
    var first, duration := SpanOf(episodes);
    at := PlaceAll(edges, episodes, mode, lanes, first, duration);
    RowsFromLanes(episodes, lanes, at);
    RowsOpen(episodes, lanes, at);
  }

  method PlaceAll(edges: seq<Edge>, episodes: seq<Episode>, mode: Mode, lanes: seq<Id>, first: real, duration: real)
    returns (at: map<Id, Position>)
    requires Distinct(episodes) && duration >= 1.0 && forall e :: e in episodes ==> e.thread in lanes
    ensures forall e :: e in episodes ==> e.id in at
    ensures LanesClear(episodes, Xs(episodes, at)) && Margin(Xs(episodes, at))
    ensures mode == Graph ==> ParentsLeft(edges, episodes, Xs(episodes, at)) && Tight(edges, episodes, Xs(episodes, at))
    ensures mode == Swimlane ==> ByTime(episodes, Xs(episodes, at), first, duration)
    ensures RowsHold(episodes, |episodes|, lanes, at)
  {
    var lastInLane: map<Id, real> := map[];
    at := map[];
    ghost var xs: seq<real> := [];
    for i := 0 to |episodes|
      invariant |xs| == i && Placed(edges, episodes, mode, first, duration, xs, at, lastInLane) && RowsHold(episodes, i, lanes, at)
    {
      var position := PlaceOne(edges, episodes, mode, lanes, first, duration, i, xs, at, lastInLane);
      at := at[episodes[i].id := position];
      lastInLane := lastInLane[episodes[i].thread := position.x];
      xs := xs + [position.x];
    }
    AllPlaced(episodes, xs, at);
  }

  lemma AllPlaced(episodes: seq<Episode>, xs: seq<real>, at: map<Id, Position>)
    requires |xs| == |episodes| && AtHolds(episodes, xs, at)
    ensures forall e :: e in episodes ==> e.id in at
    ensures Xs(episodes, at) == xs
  {
  }

  /** The body of the loop for the episode at index `i`. */
  method PlaceOne(
    edges: seq<Edge>, episodes: seq<Episode>, mode: Mode, lanes: seq<Id>, first: real, duration: real, i: nat,
    ghost xs: seq<real>, at: map<Id, Position>, lastInLane: map<Id, real>) returns (position: Position)
    requires |xs| == i < |episodes| && duration >= 1.0 && Distinct(episodes) && forall e :: e in episodes ==> e.thread in lanes
    requires Placed(edges, episodes, mode, first, duration, xs, at, lastInLane) && RowsHold(episodes, i, lanes, at)
    ensures var e, more := episodes[i], at[episodes[i].id := position];
            && Placed(edges, episodes, mode, first, duration, xs + [position.x], more, lastInLane[e.thread := position.x])
            && RowsHold(episodes, i + 1, lanes, more)
  {
    var e := episodes[i];
    assert e in episodes;
    var parent := RightmostParent(edges, e.id, at);
    var desired := if mode == Graph then (if parent.Some? then parent.value + GAP else LEFT)
                   else Timed(e, i, |episodes|, first, duration);
    position := Position(Max(desired, LaneEnd(lastInLane, e.thread) + GAP), RowOf(lanes, e.thread));
    PlaceMore(edges, episodes, mode, first, duration, xs, at, lastInLane, parent, desired, position);
    RowsMore(episodes, i, lanes, at, position.x);
  }

  /** Episodes of different lanes stand in different rows. */
  ghost predicate RowsSeparate(episodes: seq<Episode>, at: map<Id, Position>)
    requires forall e :: e in episodes ==> e.id in at
  {
    forall a, b :: a in episodes && b in episodes ==>
      if a.thread == b.thread then at[a.id].y == at[b.id].y else at[a.id].y >= at[b.id].y + 155.0 || at[b.id].y >= at[a.id].y + 155.0
  }

  /** The row of a thread counts the threads that were met before it. */
  ghost predicate RowsInOrder(episodes: seq<Episode>, at: map<Id, Position>)
    requires forall e :: e in episodes ==> e.id in at
  {
    forall k :: 0 <= k < |episodes| && Opens(episodes, k) ==>
      at[episodes[k].id].y == 30.0 + |Threads(episodes, k)| as real * 155.0
  }

  lemma RowsOpen(episodes: seq<Episode>, lanes: seq<Id>, at: map<Id, Position>)
    requires LanesHold(episodes, |episodes|, lanes) && forall e :: e in episodes ==> e.id in at
    requires forall e :: e in episodes ==> e.thread in lanes && at[e.id].y == RowOf(lanes, e.thread)
    ensures RowsInOrder(episodes, at)
  {
    forall k | 0 <= k < |episodes| && Opens(episodes, k)
      ensures at[episodes[k].id].y == 30.0 + |Threads(episodes, k)| as real * 155.0
    {
      assert episodes[k] in episodes && PlaceOf(episodes, lanes, k);
    }
  }

  /**
    Where a time stands: in proportion on a scale of one gap for every episode but the first, at least 492 wide; an
    episode without a time stands by its index.
   */
  lemma TimedIs(e: Episode, index: nat, count: nat, first: real, duration: real)
    requires duration >= 1.0
    ensures var width := if count <= 3 then 492.0 else (count - 1) as real * 246.0;
            && (e.start.Some? ==> (Timed(e, index, count, first, duration) - 20.0) * duration == (e.start.value - first) * width)
            && (e.start.None? ==> Timed(e, index, count, first, duration) == 20.0 + index as real * 246.0)
  {
    if e.start.Some? {
      ShareTimes(e.start.value - first, duration, Width(count));
    }
  }

  lemma ShareTimes(t: real, duration: real, width: real)
    requires duration >= 1.0
    ensures t / duration * width * duration == t * width
  {
    assert t / duration * duration == t;
  }
}
