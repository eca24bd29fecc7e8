/**
  The root of a conversation, twice: the engine and the user interface each walk the parent links, and the
  links may run in a circle. Identifiers are numbered in text order; 0 is the empty text.
 */
module Ancestry {
  import opened Results

  type Id = nat

  const BLANK: Id := 0

  datatype Thread = Thread(id: Id, parent: Option<Id>)

  function IdsOf(threads: seq<Thread>): set<Id> {
    set t | t in threads :: t.id
  }

  /** The parent named by the first thread with this id. */
  function ParentOf(threads: seq<Thread>, id: Id): (r: Option<Id>)
    ensures r.Some? ==> id in IdsOf(threads)
  {
    if threads == [] then None
    else if threads[0].id == id then (assert threads[0] in threads; threads[0].parent)
    else
      var r := ParentOf(threads[1..], id);
      assert r.Some? ==> exists t :: t in threads[1..] && t.id == id;
      r
  }

  /** The parent, if that conversation is known. */
  function Up(threads: seq<Thread>, id: Id): (r: Option<Id>)
    ensures r.Some? ==> r.value in IdsOf(threads)
  {
    var parent := ParentOf(threads, id);
    if parent.Some? && parent.value in IdsOf(threads) then parent else None
  }

  // ---------------------------------------------------------------- the path of a walk

  function Last(path: seq<Id>): Id
    requires path != []
  {
    path[|path| - 1]
  }

  ghost predicate Distinct(path: seq<Id>) {
    forall i, j :: 0 <= i < j < |path| ==> path[i] != path[j]
  }

  ghost predicate Linked(threads: seq<Thread>, path: seq<Id>) {
    forall i :: 0 < i < |path| ==> Up(threads, path[i - 1]) == Some(path[i])
  }

  /** The path of a walk from `id`: parent by parent, until there is none or it has been met. */
  ghost predicate IsClimb(threads: seq<Thread>, id: Id, path: seq<Id>) {
    && path != [] && path[0] == id && Distinct(path) && Linked(threads, path)
    && (Up(threads, Last(path)).Some? ==> Up(threads, Last(path)).value in path)
  }

  lemma {:induction false} ClimbUnique(threads: seq<Thread>, id: Id, p: seq<Id>, q: seq<Id>)
    requires IsClimb(threads, id, p) && IsClimb(threads, id, q)
    ensures p == q
  {
    ClimbPrefix(threads, id, p, q, |p|);
    ClimbPrefix(threads, id, q, p, |q|);
  }

  lemma {:induction false} ClimbPrefix(threads: seq<Thread>, id: Id, p: seq<Id>, q: seq<Id>, n: nat)
    requires IsClimb(threads, id, p) && IsClimb(threads, id, q) && n <= |p|
    ensures n <= |q| && p[..n] == q[..n]
  {
    if n > 0 {
      ClimbPrefix(threads, id, p, q, n - 1);
      if n > 1 {
        assert p[n - 2] == p[..n - 1][n - 2] == q[..n - 1][n - 2] == q[n - 2];
        assert Up(threads, p[n - 2]) == Some(p[n - 1]);
        assert p[n - 1] !in p[..n - 1];
        assert q == q[..n - 1] + q[n - 1..];
      }
    }
  }

  // ---------------------------------------------------------------- the two roots

  /** `root` of the engine: the last conversation, or where the circle was entered. */
  ghost predicate IsRoot(threads: seq<Thread>, id: Id, root: Id) {
    exists path :: IsClimb(threads, id, path)
                   && root == if Up(threads, Last(path)).Some? then Up(threads, Last(path)).value else Last(path)
  }

  /** In the middle of a walk: what has been met, and where it stands. */
  ghost predicate Walking(threads: seq<Thread>, id: Id, seen: seq<Id>, current: Id) {
    && Distinct(seen) && Linked(threads, seen)
    && if seen == [] then current == id else seen[0] == id && Up(threads, Last(seen)) == Some(current)
  }

  lemma WalkOn(threads: seq<Thread>, id: Id, seen: seq<Id>, current: Id)
    requires Walking(threads, id, seen, current) && current !in seen
    ensures Up(threads, current).Some? ==> Walking(threads, id, seen + [current], Up(threads, current).value)
    ensures Up(threads, current).None? ==> IsClimb(threads, id, seen + [current])
  {
  }

  method Root(threads: seq<Thread>, id: Id) returns (current: Id)
    ensures IsRoot(threads, id, current)
  {
    current := id;
    var seen: set<Id> := {};
    ghost var path: seq<Id> := [];
    while current !in seen
      invariant Walking(threads, id, path, current)
      invariant (forall x :: x in path <==> x in seen) && seen <= IdsOf(threads) + {id}
      invariant current in IdsOf(threads) + {id}
      decreases IdsOf(threads) + {id} - seen
    {
      WalkOn(threads, id, path, current);
      seen := seen + {current};
      path := path + [current];
      var parent := ParentOf(threads, current);
      if parent.None? || parent.value !in IdsOf(threads) {
        return;
      }
      current := parent.value;
    }
    assert IsClimb(threads, id, path);
  }

  /** `rootThread` of the interface: the last conversation, or the first in text order of all that were met. */
  ghost predicate IsShownRoot(threads: seq<Thread>, id: Id, root: Id) {
    exists path :: IsClimb(threads, id, path)
                   && if Up(threads, Last(path)).Some? then Least(path, root) else root == Last(path)
  }

  ghost predicate Least(path: seq<Id>, x: Id) {
    x in path && forall y :: y in path ==> x <= y
  }

  /** The interface treats an empty parent as none. */
  function Cleaned(threads: seq<Thread>): seq<Thread> {
    if threads == [] then []
    else [if threads[0].parent == Some(BLANK) then threads[0].(parent := None) else threads[0]] + Cleaned(threads[1..])
  }

  lemma {:induction false} CleanedParents(threads: seq<Thread>, id: Id)
    ensures ParentOf(Cleaned(threads), id) == if ParentOf(threads, id) == Some(BLANK) then None else ParentOf(threads, id)
    ensures IdsOf(Cleaned(threads)) == IdsOf(threads)
    decreases |threads|
  {
    if threads != [] {
      var clean := Cleaned(threads);
      CleanedParents(threads[1..], id);
      assert clean[1..] == Cleaned(threads[1..]) && clean[0].id == threads[0].id;
      assert threads == [threads[0]] + threads[1..] && clean == [clean[0]] + clean[1..];
      assert IdsOf(threads) == {threads[0].id} + IdsOf(threads[1..]);
      assert IdsOf(clean) == {clean[0].id} + IdsOf(clean[1..]);
    }
  }

  method RootThread(threads: seq<Thread>, id: Id) returns (root: Id)
    ensures IsShownRoot(Cleaned(threads), id, root)
  {
    var current := id;
    var seen: seq<Id> := [];
    ghost var met: set<Id> := {};
    while current !in seen
      invariant Walking(Cleaned(threads), id, seen, current)
      invariant (forall x :: x in seen <==> x in met) && met <= IdsOf(threads) + {id}
      invariant current in IdsOf(threads) + {id}
      decreases IdsOf(threads) + {id} - met
    {
      CleanedParents(threads, current);
      WalkOn(Cleaned(threads), id, seen, current);
      seen := seen + [current];
      met := met + {current};
      var parent := ParentOf(threads, current);
      if parent.None? || parent.value == BLANK || parent.value !in IdsOf(threads) {
        return current;
      }
      current := parent.value;
    }
    root := FirstInOrder(seen);
  }

  method FirstInOrder(seen: seq<Id>) returns (first: Id)
    requires seen != []
    ensures Least(seen, first)
  {
    first := seen[0];
    for i := 1 to |seen|
      invariant first in seen && forall j :: 0 <= j < i ==> first <= seen[j]
    {
      if seen[i] < first {
        first := seen[i];
      }
    }
  }

  // ---------------------------------------------------------------- what the roots are good for

  /** The conversation lies on a circle of parent links. */
  ghost predicate OnCircle(threads: seq<Thread>, id: Id) {
    exists path :: IsClimb(threads, id, path) && Up(threads, Last(path)) == Some(id)
  }

  /**
    A conversation and its parent have one root exactly when the conversation is not on a circle of several.
    So the conversations selected by a root are whole families wherever the links do not run in a circle.
   */
  lemma SameRootIff(threads: seq<Thread>, id: Id, parent: Id, a: Id, b: Id)
    requires Up(threads, id) == Some(parent) && IsRoot(threads, id, a) && IsRoot(threads, parent, b)
    ensures a == b <==> (OnCircle(threads, id) ==> parent == id)
  {
    var p :| IsClimb(threads, id, p) && a == if Up(threads, Last(p)).Some? then Up(threads, Last(p)).value else Last(p);
    var q :| IsClimb(threads, parent, q) && b == if Up(threads, Last(q)).Some? then Up(threads, Last(q)).value else Last(q);
    CircleBy(threads, id, p);
    if parent == id {
      ClimbUnique(threads, id, p, q);
    } else {
      ParentClimb(threads, id, parent, p);
      ClimbUnique(threads, parent, q, if Up(threads, Last(p)) == Some(id) then p[1..] + [id] else p[1..]);
    }
  }

  lemma CircleBy(threads: seq<Thread>, id: Id, p: seq<Id>)
    requires IsClimb(threads, id, p)
    ensures OnCircle(threads, id) <==> Up(threads, Last(p)) == Some(id)
  {
    forall q | IsClimb(threads, id, q)
      ensures q == p
    {
      ClimbUnique(threads, id, p, q);
    }
  }

  lemma ParentClimb(threads: seq<Thread>, id: Id, parent: Id, p: seq<Id>)
    requires IsClimb(threads, id, p) && Up(threads, id) == Some(parent) && parent != id
    ensures |p| > 1
    ensures IsClimb(threads, parent, if Up(threads, Last(p)) == Some(id) then p[1..] + [id] else p[1..])
  {
    assert p == [id] + p[1..];
    var q := if Up(threads, Last(p)) == Some(id) then p[1..] + [id] else p[1..];
    forall i | 0 < i < |q|
      ensures Up(threads, q[i - 1]) == Some(q[i])
    {
      assert q[i - 1] == p[i];
      if i < |p| - 1 {
        assert Up(threads, p[i]) == Some(p[i + 1]);
      }
    }
    if Up(threads, Last(p)).Some? && Up(threads, Last(p)).value != id {
      var k :| 0 <= k < |p| && p[k] == Up(threads, Last(p)).value;
      assert q[k - 1] == p[k];
    }
  }

  // ---------------------------------------------------------------- where engine and interface agree

  /** Conversations that name each other as parents, at least two of them. */
  ghost predicate Circle(threads: seq<Thread>, c: seq<Id>) {
    |c| >= 2 && Distinct(c) && Linked(threads, c) && Up(threads, Last(c)) == Some(c[0])
  }

  ghost predicate LeadsTo(threads: seq<Thread>, id: Id, x: Id) {
    exists path :: IsClimb(threads, id, path) && Last(path) == x
  }

  ghost predicate RootsAgree(threads: seq<Thread>, id: Id) {
    forall a, b :: IsRoot(threads, id, a) && IsShownRoot(Cleaned(threads), id, b) ==> a == b
  }

  /** No parent that the interface takes for none is a known conversation, unless that one names itself. */
  ghost predicate NoBlankParent(threads: seq<Thread>) {
    forall x: Id :: x != BLANK ==> Up(threads, x) != Some(BLANK)
  }

  /**
    No circle of several, no known conversation under an empty parent, and whoever leads to a conversation that
    is its own parent comes behind it in text order.
   */
  ghost predicate Orderly(threads: seq<Thread>) {
    && (forall c :: !Circle(threads, c)) && NoBlankParent(threads)
    && forall id: Id, x: Id :: Up(threads, x) == Some(x) && LeadsTo(threads, id, x) ==> x <= id
  }

  lemma CleanedUp(threads: seq<Thread>, id: Id)
    ensures Up(Cleaned(threads), id) == if Up(threads, id) == Some(BLANK) then None else Up(threads, id)
  {
    CleanedParents(threads, id);
  }

  /** A walk that never goes on to the empty id is a walk of the interface. */
  lemma CleanedClimb(threads: seq<Thread>, id: Id, path: seq<Id>)
    requires IsClimb(threads, id, path) && forall i :: 0 < i < |path| ==> path[i] != BLANK
    ensures IsClimb(Cleaned(threads), id, path)
  {
    forall x
      ensures Up(Cleaned(threads), x) == if Up(threads, x) == Some(BLANK) then None else Up(threads, x)
    {
      CleanedUp(threads, x);
    }
  }

  /** A walk of the interface ends where the engine goes on to the empty id. */
  lemma CutClimb(threads: seq<Thread>, id: Id, path: seq<Id>, k: nat)
    requires IsClimb(threads, id, path) && 0 < k < |path| && path[k] == BLANK
    ensures IsClimb(Cleaned(threads), id, path[..k]) && Up(Cleaned(threads), path[k - 1]) == None
    ensures IsShownRoot(Cleaned(threads), id, path[k - 1])
  {
    forall x
      ensures Up(Cleaned(threads), x) == if Up(threads, x) == Some(BLANK) then None else Up(threads, x)
    {
      CleanedUp(threads, x);
    }
    assert Up(threads, path[k - 1]) == Some(path[k]);
    assert forall i :: 0 <= i < k ==> path[..k][i] == path[i];
    assert Last(path[..k]) == path[k - 1];
  }

  lemma {:induction false} LeastOf(path: seq<Id>) returns (x: Id)
    requires path != []
    ensures Least(path, x)
  {
    var last := path[|path| - 1];
    if |path| == 1 {
      x := last;
    } else {
      x := LeastOf(path[..|path| - 1]);
      assert path == path[..|path| - 1] + [last];
      x := if last < x then last else x;
    }
  }

  /** The tail of a walk that does not turn back into its beginning is a walk. */
  lemma ClimbTail(threads: seq<Thread>, path: seq<Id>, k: nat)
    requires path != [] && IsClimb(threads, path[0], path) && k < |path|
    requires Up(threads, Last(path)).Some? ==> Up(threads, Last(path)).value in path[k..]
    ensures IsClimb(threads, path[k], path[k..])
  {
    assert path[k..][0] == path[k] && Last(path[k..]) == Last(path);
    assert forall i :: 0 <= i < |path[k..]| ==> path[k..][i] == path[k + i];
  }

  /** A circle seen from its second conversation. */
  lemma CircleTurns(threads: seq<Thread>, c: seq<Id>)
    requires Circle(threads, c)
    ensures Circle(threads, c[1..] + [c[0]]) && forall x :: x in c[1..] + [c[0]] <==> x in c
  {
    var d := c[1..] + [c[0]];
    assert c == [c[0]] + c[1..];
    forall i | 0 < i < |d|
      ensures Up(threads, d[i - 1]) == Some(d[i])
    {
      if i < |c| - 1 {
        assert Up(threads, c[i]) == Some(c[i + 1]);
      }
    }
    assert Up(threads, c[0]) == Some(c[1]);
  }

  /** And from any of them. */
  lemma {:induction false} CircleFrom(threads: seq<Thread>, c: seq<Id>, j: nat) returns (d: seq<Id>)
    requires Circle(threads, c) && j < |c|
    ensures Circle(threads, d) && d[0] == c[j] && forall x :: x in d <==> x in c
    decreases j
  {
    if j == 0 {
      d := c;
    } else {
      CircleTurns(threads, c);
      d := CircleFrom(threads, c[1..] + [c[0]], j - 1);
    }
  }

  lemma CircleIsClimb(threads: seq<Thread>, c: seq<Id>)
    requires Circle(threads, c)
    ensures IsClimb(threads, c[0], c) && IsRoot(threads, c[0], c[0])
  {
  }

  /** On every circle of several there is a conversation whose two roots differ. */
  lemma CircleDisagrees(threads: seq<Thread>, c: seq<Id>) returns (id: Id)
    requires Circle(threads, c)
    ensures id in c && !RootsAgree(threads, id)
  {
    var m := LeastOf(c);
    var k :| 0 <= k < |c| && c[k] == m;
    var d := CircleFrom(threads, c, k);
    assert d[1] in d && d[0] in d;
    if m == BLANK {
      id := m;
      CircleFromBlank(threads, d);
    } else {
      var e := CircleFrom(threads, d, 1);
      id := d[1];
      CircleShown(threads, e, m);
    }
  }

  /** From the empty id the interface walks the whole circle and stops before it comes back. */
  lemma CircleFromBlank(threads: seq<Thread>, d: seq<Id>)
    requires Circle(threads, d) && d[0] == BLANK
    ensures !RootsAgree(threads, BLANK)
  {
    CircleIsClimb(threads, d);
    CleanedClimb(threads, BLANK, d);
    CleanedUp(threads, Last(d));
    assert IsShownRoot(Cleaned(threads), BLANK, Last(d));
  }

  lemma CircleShown(threads: seq<Thread>, e: seq<Id>, m: Id)
    requires Circle(threads, e) && Least(e, m) && m != BLANK && e[0] != m
    ensures !RootsAgree(threads, e[0])
  {
    CircleIsClimb(threads, e);
    assert forall i :: 0 <= i < |e| ==> e[i] in e;
    CleanedClimb(threads, e[0], e);
    CleanedUp(threads, Last(e));
    assert IsShownRoot(Cleaned(threads), e[0], m);
  }

  /** A conversation that leads to a later one which is its own parent has two roots. */
  lemma SelfParentDisagrees(threads: seq<Thread>, id: Id, x: Id)
    requires Up(threads, x) == Some(x) && LeadsTo(threads, id, x) && id < x
    ensures !RootsAgree(threads, id)
  {
    var path :| IsClimb(threads, id, path) && Last(path) == x;
    assert IsRoot(threads, id, x);
    if k :| 0 < k < |path| && path[k] == BLANK {
      CutClimb(threads, id, path, k);
    } else {
      CleanedClimb(threads, id, path);
      CleanedUp(threads, x);
      var m := LeastOf(path);
      assert path[0] in path && IsShownRoot(Cleaned(threads), id, m);
    }
  }

  /** What a walk has not met yet. */
  ghost function Left(threads: seq<Thread>, id: Id, seen: seq<Id>): set<Id> {
    set x | x in IdsOf(threads) + {id} && x !in seen
  }

  lemma LeftShrinks(threads: seq<Thread>, id: Id, seen: seq<Id>, current: Id)
    requires current in IdsOf(threads) + {id} && current !in seen
    ensures Left(threads, id, seen + [current]) < Left(threads, id, seen)
  {
    assert current in Left(threads, id, seen) && current !in Left(threads, id, seen + [current]);
  }

  lemma ClimbExists(threads: seq<Thread>, id: Id, seen: seq<Id>, current: Id) returns (path: seq<Id>)
    requires Walking(threads, id, seen, current) && current in IdsOf(threads) + {id}
    ensures IsClimb(threads, id, path) && seen <= path
    decreases Left(threads, id, seen)
  {
    if current in seen {
      path := seen;
    } else {
      WalkOn(threads, id, seen, current);
      if Up(threads, current).None? {
        path := seen + [current];
      } else {
        LeftShrinks(threads, id, seen, current);
        path := ClimbExists(threads, id, seen + [current], Up(threads, current).value);
      }
    }
  }

  /** Where an empty parent names a known conversation, the engine goes on and the interface stops. */
  lemma BlankDisagrees(threads: seq<Thread>, x: Id) returns (id: Id)
    requires x != BLANK && Up(threads, x) == Some(BLANK)
    ensures !RootsAgree(threads, id)
  {
    var path := ClimbExists(threads, x, [x], BLANK);
    assert path[0] == x;
    assert |path| > 1;
    assert Up(threads, path[0]) == Some(path[1]);
    if Up(threads, Last(path)) == Some(x) {
      id := CircleDisagrees(threads, path);
    } else {
      id := x;
      CutClimb(threads, x, path, 1);
      assert IsRoot(threads, x, if Up(threads, Last(path)).Some? then Up(threads, Last(path)).value else Last(path));
    }
  }

  lemma OrderlyAgrees(threads: seq<Thread>, id: Id, path: seq<Id>)
    requires IsClimb(threads, id, path) && Orderly(threads) && Up(threads, Last(path)).Some?
    ensures Up(threads, Last(path)).value == Last(path) && Least(path, Last(path))
  {
    var y := Up(threads, Last(path)).value;
    var k :| 0 <= k < |path| && path[k] == y;
    if k < |path| - 1 {
      assert path[k..][0] == y && Last(path[k..]) == Last(path);
      assert forall i :: 0 <= i < |path[k..]| ==> path[k..][i] == path[k + i];
      assert Circle(threads, path[k..]);
    }
    forall z | z in path
      ensures y <= z
    {
      var i :| 0 <= i < |path| && path[i] == z;
      assert path[i..][k - i] == y;
      ClimbTail(threads, path, i);
      assert LeadsTo(threads, z, y);
    }
  }

  /**
    The exact condition for all conversations of a list at once: engine and interface name the same root for
    every conversation if and only if no circle of several conversations exists, no empty parent names a known
    conversation, and every conversation that leads to one which is its own parent comes behind it in text order.
   */
  lemma RootsAgreeEverywhereIff(threads: seq<Thread>)
    ensures (forall id :: RootsAgree(threads, id)) <==> Orderly(threads)
  {
    if Orderly(threads) {
      forall id, a, b | IsRoot(threads, id, a) && IsShownRoot(Cleaned(threads), id, b)
        ensures a == b
      {
        OrderlyRoots(threads, id, a, b);
      }
    } else if c :| Circle(threads, c) {
      var id := CircleDisagrees(threads, c);
    } else if x: Id :| x != BLANK && Up(threads, x) == Some(BLANK) {
      var id := BlankDisagrees(threads, x);
    } else {
      var id: Id, x: Id :| Up(threads, x) == Some(x) && LeadsTo(threads, id, x) && id < x;
      SelfParentDisagrees(threads, id, x);
    }
  }

  /** In an orderly list no walk goes on to the empty id. */
  lemma OrderlyClimb(threads: seq<Thread>, id: Id, p: seq<Id>)
    requires IsClimb(threads, id, p) && NoBlankParent(threads)
    ensures IsClimb(Cleaned(threads), id, p)
  {
    forall i | 0 < i < |p|
      ensures p[i] != BLANK
    {
      assert Up(threads, p[i - 1]) == Some(p[i]) && p[i - 1] != p[i];
    }
    CleanedClimb(threads, id, p);
  }

  lemma OrderlyRoots(threads: seq<Thread>, id: Id, a: Id, b: Id)
    requires Orderly(threads) && IsRoot(threads, id, a) && IsShownRoot(Cleaned(threads), id, b)
    ensures a == b
  {
    var p :| IsClimb(threads, id, p) && a == if Up(threads, Last(p)).Some? then Up(threads, Last(p)).value else Last(p);
    var q :| IsClimb(Cleaned(threads), id, q) && if Up(Cleaned(threads), Last(q)).Some? then Least(q, b) else b == Last(q);
    OrderlyClimb(threads, id, p);
    ClimbUnique(Cleaned(threads), id, p, q);
    CleanedUp(threads, Last(p));
    if Up(threads, Last(p)).Some? {
      OrderlyAgrees(threads, id, p);
    }
  }

  /** Where no conversation is its own parent, only circles of several and empty parents matter. */
  lemma NoCircleIff(threads: seq<Thread>)
    requires forall x: Id :: Up(threads, x) != Some(x)
    ensures (forall id :: RootsAgree(threads, id)) <==> (forall c :: !Circle(threads, c)) && NoBlankParent(threads)
  {
    RootsAgreeEverywhereIff(threads);
  }
}
