/**
  What becomes of the scheduler when ticks write without their lock. Runs of the scheduler are carried out file
  operation by file operation, and runs in which a stray tick does what it should not show that the conditions
  of `WatchRuns` are exact.
 */
module LostLocks {
  import opened Results
  import opened Texts
  import opened WatchRuns
  import W = Watch
  import S = Store
  import R = StoreRuns

  // ---------------------------------------------------------------- runs piece by piece

  ghost predicate Leads(rule: Rule, w: World, moves: seq<Move>, t: World, n: nat) {
    Run(w, moves) == Some(t) && Obeys(rule, w, moves) && Calls(moves) == n
  }

  lemma LeadsNowhere(rule: Rule, w: World)
    ensures Leads(rule, w, [], w, 0)
  {
  }

  lemma LeadsOne(rule: Rule, w: World, m: Move)
    requires Enabled(w, m) && Permits(rule, w, m)
    ensures Leads(rule, w, [m], Step(w, m), Called(m))
  {
    assert [m][..0] == [];
    assert Run(w, []) == Some(w) && Calls([]) == 0;
  }

  /** A move is possible if it is a run. */
  lemma OneRuns(w: World, m: Move)
    ensures Run(w, [m]) == if Enabled(w, m) then Some(Step(w, m)) else None
  {
    assert [m][..0] == [];
    assert Run(w, []) == Some(w);
  }

  lemma {:induction false} LeadsThen(
    rule: Rule, w: World, a: seq<Move>, t: World, n: nat, b: seq<Move>, u: World, m: nat)
    requires Leads(rule, w, a, t, n) && Leads(rule, t, b, u, m)
    ensures Leads(rule, w, a + b, u, n + m)
    decreases |b|
  {
    if b == [] {
      assert a + b == a;
    } else {
      var front, e := b[..|b| - 1], b[|b| - 1];
      assert (a + b)[..|a + b| - 1] == a + front;
      LeadsThen(rule, w, a, t, n, front, Run(t, front).value, Calls(front));
    }
  }

  lemma LeadsMore(rule: Rule, w: World, a: seq<Move>, t: World, n: nat, m: Move)
    requires Leads(rule, w, a, t, n) && Enabled(t, m) && Permits(rule, t, m)
    ensures Leads(rule, w, a + [m], Step(t, m), n + Called(m))
  {
    LeadsOne(rule, t, m);
    LeadsThen(rule, w, a, t, n, [m], Step(t, m), Called(m));
  }

  lemma Join3(rule: Rule, w: World, a: seq<Move>, t: World, i: nat, b: seq<Move>, u: World, j: nat, c: seq<Move>, v: World, k: nat)
    requires Leads(rule, w, a, t, i) && Leads(rule, t, b, u, j) && Leads(rule, u, c, v, k)
    ensures Leads(rule, w, a + (b + c), v, i + j + k)
  {
    LeadsThen(rule, t, b, u, j, c, v, k);
    LeadsThen(rule, w, a, t, i, b + c, v, j + k);
  }

  lemma Join4(
    rule: Rule, w: World, a: seq<Move>, t: World, i: nat, b: seq<Move>, u: World, j: nat,
    c: seq<Move>, v: World, k: nat, d: seq<Move>, x: World, l: nat)
    requires Leads(rule, w, a, t, i) && Leads(rule, t, b, u, j) && Leads(rule, u, c, v, k) && Leads(rule, v, d, x, l)
    ensures Leads(rule, w, a + (b + (c + d)), x, i + j + k + l)
  {
    Join3(rule, t, b, u, j, c, v, k, d, x, l);
    LeadsThen(rule, w, a, t, i, b + (c + d), x, j + k + l);
  }

  // ---------------------------------------------------------------- whole commits

  /** A process opens the store. */
  function Opening(p: nat): seq<Move> {
    [Other(R.Acquire(p))] + [Other(R.Read(p))]
  }

  /** It replays the record it has written, if there is one. */
  function Replay(p: nat): seq<Move> {
    [Other(R.Read(p))] + [Other(R.Step(p))] + [Other(R.Step(p))]
  }

  /** The lock is free and nothing pending, and `p` may take it. */
  ghost predicate Free(w: World, p: nat) {
    && w.store.lock == R.Free && w.store.disk.prepared.None? && !Astray(w, p)
    && (p in w.store.handles ==> w.store.handles[p].Idle?) && (Ticking(w, p) ==> w.phase.Inferring?)
  }

  lemma Opens(rule: Rule, w: World, p: nat) returns (t: World)
    requires Free(w, p)
    ensures Leads(rule, w, Opening(p), t, 0)
    ensures t == w.(store := w.store.(lock := R.Held(p), handles := w.store.handles[p := R.Idle]), readings := w.readings - {p})
  {
    LeadsOne(rule, w, Other(R.Acquire(p)));
    var v := Step(w, Other(R.Acquire(p)));
    LeadsMore(rule, w, [Other(R.Acquire(p))], v, 0, Other(R.Read(p)));
    t := Step(v, Other(R.Read(p)));
  }

  lemma Acquires(rule: Rule, w: World, p: nat) returns (t: World)
    requires w.store.lock == R.Free && !Astray(w, p) && w.phase.Idle? && (p in w.store.handles ==> w.store.handles[p].Idle?)
    ensures Leads(rule, w, [Other(R.Acquire(p))], t, 0)
    ensures t == w.(store := w.store.(lock := R.Held(p), handles := w.store.handles[p := R.Reading]), readings := w.readings - {p})
  {
    LeadsOne(rule, w, Other(R.Acquire(p)));
    t := Step(w, Other(R.Acquire(p)));
  }

  /** What one commit of the lock holder leaves behind. */
  ghost predicate Done(w: World, p: nat, writes: Writes, t: World) {
    && t.store.disk == S.Disk(S.Overlay(w.store.disk.files, writes), None) && t.store.lock == w.store.lock
    && t.store.handles == w.store.handles[p := R.Idle] && t.store.stamp >= w.store.stamp
  }

  /** What it leaves of the store, whatever the files. */
  ghost predicate Kept(w: World, p: nat, t: World) {
    && t.store.disk.prepared.None? && t.store.lock == w.store.lock
    && t.store.handles == w.store.handles[p := R.Idle] && t.store.stamp >= w.store.stamp
  }

  /** The lock holder replays the record of one write that it finds. */
  lemma Replays(rule: Rule, w: World, p: nat, k: Key, v: Value) returns (t: World)
    requires w.store.lock == R.Held(p) && p in w.store.handles && w.store.handles[p].Reading?
    requires w.store.disk.prepared == Some([(k, v)])
    ensures Leads(rule, w, Replay(p), t, 0) && Done(w, p, [(k, v)], t) && t == w.(store := t.store)
  {
    OverlayOne(w.store.disk.files, k, v);
    LeadsOne(rule, w, Other(R.Read(p)));
    var a := Step(w, Other(R.Read(p)));
    LeadsMore(rule, w, [Other(R.Read(p))], a, 0, Other(R.Step(p)));
    var b := Step(a, Other(R.Step(p)));
    LeadsMore(rule, w, [Other(R.Read(p))] + [Other(R.Step(p))], b, 0, Other(R.Step(p)));
    t := Step(b, Other(R.Step(p)));
  }

  /** There is nothing to replay. */
  lemma ReplaysNothing(rule: Rule, w: World, p: nat)
    requires w.store.lock == R.Held(p) && p in w.store.handles && w.store.handles[p].Idle?
    ensures Leads(rule, w, Replay(p), w, 0)
  {
    LeadsOne(rule, w, Other(R.Read(p)));
    LeadsMore(rule, w, [Other(R.Read(p))], w, 0, Other(R.Step(p)));
    LeadsMore(rule, w, [Other(R.Read(p))] + [Other(R.Step(p))], w, 0, Other(R.Step(p)));
  }

  /** The record is written, or nothing is to be. */
  lemma Prepares(w: World, p: nat, e: W.Event)
    requires Run(w, [Act(p, e)]).Some? && Writing(w, p) && !e.Unlock? && !e.Crash?
    ensures var t, list := Step(w, Act(p, e)), ListOf(Known(w, p), e);
            && t.strays == w.strays && t.ticker == (if e.Begin? then p else w.ticker) && t.readings == w.readings - {p}
            && t.store.disk.files == w.store.disk.files && t.store.lock == w.store.lock && t.store.stamp >= w.store.stamp
            && (list == [] ==> t.store == w.store)
            && (list != [] ==> t.store.disk.prepared == Some(list) && t.store.handles == w.store.handles[p := R.Reading])
  {
    OneRuns(w, Act(p, e));
    OperationIs(w, p, e);
  }

  lemma OperationIs(w: World, p: nat, e: W.Event)
    requires Writing(w, p) && W.Enabled(Known(w, p), e) && !e.Unlock? && !e.Crash?
    ensures var t, list := Operation(w, p, e), ListOf(Known(w, p), e);
            && t.disk.files == w.store.disk.files && t.lock == w.store.lock && t.stamp >= w.store.stamp
            && (list == [] ==> t == w.store)
            && (list != [] ==> t.disk.prepared == Some(list) && t.handles == w.store.handles[p := R.Reading] && t.stamp == w.store.stamp + 1)
  {
  }

  lemma OneWrite(s: W.State, e: W.Event)
    requires !e.SaveSettings?
    ensures var list := ListOf(s, e); list == [] || list == [(list[0].0, list[0].1)]
  {
  }

  /** An event of the lock holder, with the replay that follows it, does to the files what it does to the scheduler. */
  lemma Commits(rule: Rule, w: World, p: nat, e: W.Event) returns (t: World)
    requires Run(w, [Act(p, e)]).Some? && Writing(w, p) && w.store.disk.prepared.None? && Known(w, p) == Seen(w)
    requires !e.Unlock? && !e.Crash? && !e.Call? && !e.SaveSettings?
    ensures Leads(rule, w, [Act(p, e)] + Replay(p), t, 0) && Kept(w, p, t)
    ensures Seen(t) == W.Step(Seen(w), e) && t.strays == w.strays && t.ticker == (if e.Begin? then p else w.ticker)
    ensures t.readings == w.readings - {p}
  {
    Prepares(w, p, e);
    OneWrite(Seen(w), e);
    var v := Acted(rule, w, p, e);
    t := ReplaysAny(rule, w, v, p, ListOf(Seen(w), e));
    LeadsThen(rule, w, [Act(p, e)], v, 0, Replay(p), t, 0);
    CommitsMean(w, p, e, t);
  }

  lemma Acted(rule: Rule, w: World, p: nat, e: W.Event) returns (v: World)
    requires Run(w, [Act(p, e)]).Some? && !e.Call?
    ensures v == Step(w, Act(p, e)) && Leads(rule, w, [Act(p, e)], v, 0)
  {
    OneRuns(w, Act(p, e));
    LeadsOne(rule, w, Act(p, e));
    v := Step(w, Act(p, e));
  }

  /** One write, or none. */
  lemma ReplaysAny(rule: Rule, w: World, v: World, p: nat, list: Writes) returns (t: World)
    requires list == [] || list == [(list[0].0, list[0].1)]
    requires Writing(w, p) && w.store.disk.prepared.None? && v.store.lock == w.store.lock && v.store.stamp >= w.store.stamp
    requires v.store.disk.files == w.store.disk.files && (list == [] ==> v.store == w.store)
    requires list != [] ==> v.store.disk.prepared == Some(list) && v.store.handles == w.store.handles[p := R.Reading]
    ensures Leads(rule, v, Replay(p), t, 0) && Done(w, p, list, t) && t == v.(store := t.store)
  {
    if list == [] {
      ReplaysNothing(rule, v, p);
      t := v;
      assert v.store.handles == w.store.handles[p := R.Idle];
    } else {
      t := Replays(rule, v, p, list[0].0, list[0].1);
      assert w.store.handles[p := R.Reading][p := R.Idle] == w.store.handles[p := R.Idle];
    }
  }

  lemma CommitsMean(w: World, p: nat, e: W.Event, t: World)
    requires Run(w, [Act(p, e)]).Some? && Writing(w, p) && w.store.disk.prepared.None? && Known(w, p) == Seen(w)
    requires t.store.disk.files == S.Overlay(w.store.disk.files, ListOf(Seen(w), e))
    requires t == Step(w, Act(p, e)).(store := t.store)
    ensures Seen(t) == W.Step(Seen(w), e)
  {
    OneRuns(w, Act(p, e));
    ListIsStep(w.store.disk.files, Seen(w), e);
  }

  lemma Releases(rule: Rule, w: World, p: nat) returns (t: World)
    requires Writing(w, p) && !Ticking(w, p)
    ensures Leads(rule, w, [Other(R.Release(p))], t, 0)
    ensures t == w.(store := w.store.(lock := R.Free), readings := w.readings - {p})
  {
    LeadsOne(rule, w, Other(R.Release(p)));
    t := Step(w, Other(R.Release(p)));
  }

  lemma Looks(rule: Rule, w: World, p: nat) returns (t: World)
    requires Writing(w, p)
    ensures Leads(rule, w, [Look(p)], t, 0) && t == w.(readings := w.readings[p := View(w.store.disk.files)])
    ensures Known(t, p) == Seen(t) == Seen(w)
  {
    LeadsOne(rule, w, Look(p));
    t := Step(w, Look(p));
  }

  // ---------------------------------------------------------------- runs of the scheduler, file operation by file operation

  /** Nothing is pending, process `p` carries out the ticks, `q` everything else, and the lock is where it belongs. */
  ghost predicate Calm(w: World, p: nat, q: nat) {
    && p != q && !Astray(w, p) && !Astray(w, q) && p !in w.readings && w.store.disk.prepared.None?
    && w.store.lock == (if W.Open(w.phase) then R.Free else R.Held(p))
    && (p in w.store.handles ==> w.store.handles[p].Idle?) && (q in w.store.handles ==> w.store.handles[q].Idle?)
    && (!w.phase.Idle? ==> w.ticker == p && p in w.store.handles)
  }

  /** Another calm world, with this state of the scheduler and everybody else where he was. */
  ghost predicate Follows(w: World, t: World, p: nat, q: nat, s: W.State) {
    && Calm(t, p, q) && Seen(t) == s && t.strays == w.strays && t.store.stamp >= w.store.stamp
    && t.readings.Keys <= w.readings.Keys + {p, q}
    && forall r :: r != p && r != q ==>
         (r in w.store.handles <==> r in t.store.handles) && (r in w.store.handles ==> t.store.handles[r] == w.store.handles[r])
  }

  /** The events that are carried out below. */
  predicate Plain(e: W.Event) {
    !e.Skip? && !e.Crash? && !e.SaveSettings? && !e.Recover?
  }

  function Lift(p: nat, q: nat, e: W.Event): seq<Move> {
    match e
    case Begin(_, _, _) => Opening(p) + ([Look(p)] + ([Act(p, e)] + Replay(p)))
    case Mark | Reserve | Finish => [Act(p, e)] + Replay(p)
    case Return(_) => Opening(p) + [Act(p, e)]
    case Close => ([Look(p)] + ([Act(p, e)] + Replay(p))) + [Other(R.Release(p))]
    case Configure(_) | Ask(_, _) | Work(_, _) => Opening(q) + (([Look(q)] + ([Act(q, e)] + Replay(q))) + [Other(R.Release(q))])
    case _ => [Act(p, e)]
  }

  lemma LiftInner(rule: Rule, w: World, p: nat, q: nat, e: W.Event) returns (t: World)
    requires Calm(w, p, q) && W.Enabled(Seen(w), e) && (e.Mark? || e.Reserve? || e.Finish?)
    ensures Leads(rule, w, Lift(p, q, e), t, 0) && Follows(w, t, p, q, W.Step(Seen(w), e))
  {
    OneRuns(w, Act(p, e));
    t := Commits(rule, w, p, e);
  }

  lemma BeginActs(rule: Rule, a: World, p: nat, e: W.Event) returns (t: World)
    requires Writing(a, p) && a.store.disk.prepared.None? && W.Enabled(Seen(a), e) && e.Begin?
    ensures Leads(rule, a, [Look(p)] + ([Act(p, e)] + Replay(p)), t, 0) && Kept(a, p, t)
    ensures Seen(t) == W.Step(Seen(a), e) && t.strays == a.strays && t.ticker == p && t.readings == a.readings - {p}
  {
    var b := Looks(rule, a, p);
    OneRuns(b, Act(p, e));
    t := Commits(rule, b, p, e);
    LeadsThen(rule, a, [Look(p)], b, 0, [Act(p, e)] + Replay(p), t, 0);
  }

  lemma LiftBegin(rule: Rule, w: World, p: nat, q: nat, e: W.Event) returns (t: World)
    requires Calm(w, p, q) && W.Enabled(Seen(w), e) && e.Begin?
    ensures Leads(rule, w, Lift(p, q, e), t, 0) && Follows(w, t, p, q, W.Step(Seen(w), e))
  {
    var a := Opens(rule, w, p);
    t := BeginActs(rule, a, p, e);
    LeadsThen(rule, w, Opening(p), a, 0, [Look(p)] + ([Act(p, e)] + Replay(p)), t, 0);
    BeginPhase(Seen(w), e);
  }

  lemma BeginPhase(s: W.State, e: W.Event)
    requires W.Enabled(s, e) && e.Begin?
    ensures W.Step(s, e).phase.Admitted?
  {
  }

  lemma CloseMay(a: World, p: nat)
    requires Writing(a, p) && p in a.readings && a.phase.Finished? && a.ticker == p
    ensures Run(a, [Act(p, W.Close)]).Some?
  {
    OneRuns(a, Act(p, W.Close));
  }

  lemma CloseActs(rule: Rule, w: World, p: nat) returns (b: World)
    requires Writing(w, p) && w.store.disk.prepared.None? && w.phase.Finished? && w.ticker == p
    ensures Leads(rule, w, [Look(p)] + ([Act(p, W.Close)] + Replay(p)), b, 0)
    ensures Kept(w, p, b) && Seen(b) == W.Step(Seen(w), W.Close)
    ensures b.strays == w.strays && b.ticker == p && b.readings.Keys <= w.readings.Keys
  {
    var a := Looks(rule, w, p);
    CloseMay(a, p);
    b := Commits(rule, a, p, W.Close);
    LeadsThen(rule, w, [Look(p)], a, 0, [Act(p, W.Close)] + Replay(p), b, 0);
  }

  lemma CloseLeaves(rule: Rule, w: World, p: nat, q: nat) returns (b: World, t: World)
    requires Writing(w, p) && w.store.disk.prepared.None? && w.phase.Finished? && w.ticker == p
    ensures Leads(rule, w, Lift(p, q, W.Close), t, 0)
    ensures Kept(w, p, b) && Seen(b) == W.Step(Seen(w), W.Close) && b.strays == w.strays && b.readings.Keys <= w.readings.Keys
    ensures t == b.(store := b.store.(lock := R.Free), readings := b.readings - {p})
  {
    b := CloseActs(rule, w, p);
    ClosePhase(Seen(w));
    t := Releases(rule, b, p);
    LeadsThen(rule, w, [Look(p)] + ([Act(p, W.Close)] + Replay(p)), b, 0, [Other(R.Release(p))], t, 0);
  }

  lemma LiftClose(rule: Rule, w: World, p: nat, q: nat) returns (t: World)
    requires Calm(w, p, q) && w.phase.Finished?
    ensures Leads(rule, w, Lift(p, q, W.Close), t, 0) && Follows(w, t, p, q, W.Step(Seen(w), W.Close))
  {
    var b: World;
    b, t := CloseLeaves(rule, w, p, q);
    ClosePhase(Seen(w));
    CloseFollows(w, b, t, p, q, W.Step(Seen(w), W.Close));
  }

  lemma ClosePhase(s: W.State)
    requires s.phase.Finished?
    ensures W.Step(s, W.Close).phase.Idle?
  {
  }

  lemma CloseFollows(w: World, b: World, t: World, p: nat, q: nat, s: W.State)
    requires Calm(w, p, q) && b.store.disk.prepared.None? && b.store.stamp >= w.store.stamp
    requires b.store.handles == w.store.handles[p := R.Idle] && Seen(b) == s && s.phase.Idle?
    requires b.strays == w.strays && b.readings.Keys <= w.readings.Keys
    requires t == b.(store := b.store.(lock := R.Free), readings := b.readings - {p})
    ensures Follows(w, t, p, q, s)
  {
  }

  lemma LiftReturn(rule: Rule, w: World, p: nat, q: nat, ok: bool) returns (t: World)
    requires Calm(w, p, q) && w.phase.Inferring?
    ensures Leads(rule, w, Lift(p, q, W.Return(ok)), t, 0) && Follows(w, t, p, q, W.Step(Seen(w), W.Return(ok)))
  {
    var a := Opens(rule, w, p);
    LeadsMore(rule, w, Opening(p), a, 0, Act(p, W.Return(ok)));
    t := Step(a, Act(p, W.Return(ok)));
    ActsQuietly(a, p, W.Return(ok));
  }

  /** Events without a write. */
  lemma ActsQuietly(w: World, p: nat, e: W.Event)
    requires Enabled(w, Act(p, e)) && (e.Return? || e.Call? || e.Unlock?)
    ensures var t := Step(w, Act(p, e));
            && Seen(t) == W.Step(Known(w, p), e).(disk := Seen(w).disk) && t.strays == w.strays && t.ticker == w.ticker
            && Seen(t) == W.Step(Seen(w), e)
            && t.store == if e.Unlock? then w.store.(lock := R.Free) else w.store
  {
  }

  lemma LiftSimple(rule: Rule, w: World, p: nat, q: nat, e: W.Event) returns (t: World)
    requires Calm(w, p, q) && W.Enabled(Seen(w), e) && (e.Unlock? || e.Call?)
    ensures Leads(rule, w, Lift(p, q, e), t, if e.Call? then 1 else 0) && Follows(w, t, p, q, W.Step(Seen(w), e))
  {
    LeadsOne(rule, w, Act(p, e));
    t := Step(w, Act(p, e));
    ActsQuietly(w, p, e);
  }

  lemma OuterMay(b: World, q: nat, e: W.Event)
    requires Writing(b, q) && q in b.readings && !Ticking(b, q) && W.Enabled(Known(b, q), e) && (e.Configure? || e.Ask? || e.Work?)
    ensures Run(b, [Act(q, e)]).Some?
  {
    OneRuns(b, Act(q, e));
  }

  /** Under the lock, process `q` reads and writes. */
  lemma OuterActs(rule: Rule, a: World, q: nat, e: W.Event) returns (c: World)
    requires Writing(a, q) && a.store.disk.prepared.None? && !Ticking(a, q)
    requires W.Enabled(Seen(a), e) && (e.Configure? || e.Ask? || e.Work?)
    ensures Leads(rule, a, [Look(q)] + ([Act(q, e)] + Replay(q)), c, 0)
    ensures Kept(a, q, c) && Seen(c) == W.Step(Seen(a), e)
    ensures c.strays == a.strays && c.ticker == a.ticker && c.readings.Keys <= a.readings.Keys
  {
    var b := Looks(rule, a, q);
    OuterMay(b, q, e);
    c := Commits(rule, b, q, e);
    LeadsThen(rule, a, [Look(q)], b, 0, [Act(q, e)] + Replay(q), c, 0);
  }

  lemma LiftOuter(rule: Rule, w: World, p: nat, q: nat, e: W.Event) returns (t: World)
    requires Calm(w, p, q) && W.Enabled(Seen(w), e) && (e.Configure? || e.Ask? || e.Work?)
    ensures Leads(rule, w, Lift(p, q, e), t, 0) && Follows(w, t, p, q, W.Step(Seen(w), e))
  {
    OuterPhase(Seen(w), e);
    var a := Opens(rule, w, q);
    var c := OuterActs(rule, a, q, e);
    t := Releases(rule, c, q);
    Join3(rule, w, Opening(q), a, 0, [Look(q)] + ([Act(q, e)] + Replay(q)), c, 0, [Other(R.Release(q))], t, 0);
    OuterFollows(w, c, t, p, q, W.Step(Seen(w), e));
  }

  lemma OuterFollows(w: World, c: World, t: World, p: nat, q: nat, s: W.State)
    requires Calm(w, p, q) && w.store.lock == R.Free && c.store.disk.prepared.None? && c.store.stamp >= w.store.stamp
    requires c.store.handles == w.store.handles[q := R.Idle][q := R.Idle] && Seen(c) == s && s.phase == w.phase
    requires c.strays == w.strays && c.ticker == w.ticker && c.readings.Keys <= w.readings.Keys
    requires t == c.(store := c.store.(lock := R.Free), readings := c.readings - {q})
    ensures Follows(w, t, p, q, s)
  {
  }

  lemma OuterPhase(s: W.State, e: W.Event)
    requires W.Enabled(s, e) && (e.Configure? || e.Ask? || e.Work?)
    ensures W.Step(s, e).phase == s.phase && W.Open(s.phase)
  {
  }

  /** Every event of the scheduler can be carried out, and does what it does. */
  lemma LiftStep(rule: Rule, w: World, p: nat, q: nat, e: W.Event) returns (t: World)
    requires Calm(w, p, q) && W.Enabled(Seen(w), e) && Plain(e)
    ensures Leads(rule, w, Lift(p, q, e), t, if e.Call? then 1 else 0) && Follows(w, t, p, q, W.Step(Seen(w), e))
  {
    match e
    case Begin(_, _, _) => t := LiftBegin(rule, w, p, q, e);
    case Mark | Reserve | Finish => t := LiftInner(rule, w, p, q, e);
    case Return(ok) => t := LiftReturn(rule, w, p, q, ok);
    case Close => t := LiftClose(rule, w, p, q);
    case Unlock | Call => t := LiftSimple(rule, w, p, q, e);
    case _ => t := LiftOuter(rule, w, p, q, e);
  }

  function Lifted(p: nat, q: nat, events: seq<W.Event>): seq<Move> {
    if events == [] then [] else Lifted(p, q, events[..|events| - 1]) + Lift(p, q, events[|events| - 1])
  }

  predicate AllPlain(events: seq<W.Event>) {
    forall e :: e in events ==> Plain(e)
  }

  /** Every run of the scheduler is carried out by some run of file operations. */
  lemma {:induction false} LiftRun(rule: Rule, w: World, p: nat, q: nat, events: seq<W.Event>) returns (t: World)
    requires Calm(w, p, q) && AllPlain(events) && W.Run(Seen(w), events).Some?
    ensures Leads(rule, w, Lifted(p, q, events), t, W.Calls(events))
    ensures Follows(w, t, p, q, W.Run(Seen(w), events).value)
    decreases |events|
  {
    if events == [] {
      LeadsNowhere(rule, w);
      t := w;
    } else {
      var front, e := events[..|events| - 1], events[|events| - 1];
      assert e in events && forall f :: f in front ==> f in events;
      var mid := LiftRun(rule, w, p, q, front);
      t := LiftStep(rule, mid, p, q, e);
      LeadsThen(rule, w, Lifted(p, q, front), mid, W.Calls(front), Lift(p, q, e), t, if e.Call? then 1 else 0);
    }
  }

  lemma QuietThen(a: seq<Move>, b: seq<Move>)
    requires Quiet(a) && Quiet(b)
    ensures Quiet(a + b)
  {
  }

  lemma LiftQuiet(p: nat, q: nat, e: W.Event)
    requires !W.Reconfigures(e)
    ensures Quiet(Lift(p, q, e))
  {
    assert Quiet(Opening(p)) && Quiet(Opening(q)) && Quiet(Replay(p)) && Quiet(Replay(q));
    QuietThen([Act(p, e)], Replay(p));
    QuietThen([Act(q, e)], Replay(q));
    QuietThen(Opening(p), [Act(p, e)]);
    QuietThen([Look(p)], [Act(p, e)] + Replay(p));
    QuietThen(Opening(p), [Look(p)] + ([Act(p, e)] + Replay(p)));
    QuietThen([Look(p)] + ([Act(p, e)] + Replay(p)), [Other(R.Release(p))]);
    QuietThen([Look(q)], [Act(q, e)] + Replay(q));
    QuietThen([Look(q)] + ([Act(q, e)] + Replay(q)), [Other(R.Release(q))]);
    QuietThen(Opening(q), ([Look(q)] + ([Act(q, e)] + Replay(q))) + [Other(R.Release(q))]);
  }

  lemma {:induction false} LiftedQuiet(p: nat, q: nat, events: seq<W.Event>)
    requires W.Quiet(events)
    ensures Quiet(Lifted(p, q, events))
    decreases |events|
  {
    if events != [] {
      var front, e := events[..|events| - 1], events[|events| - 1];
      assert e in events && forall f :: f in front ==> f in events;
      LiftedQuiet(p, q, front);
      LiftQuiet(p, q, e);
      QuietThen(Lifted(p, q, front), Lift(p, q, e));
    }
  }

  // ---------------------------------------------------------------- what every rule permits

  /** A handle without the lock may carry out a commit of its own while the lock is free and nothing else pending. */
  predicate LetsCommit(places: set<R.Situation>) {
    && R.Situation(R.Write, false, R.Nothing) in places && R.Situation(R.Fill, false, R.Mine) in places
    && R.Situation(R.Remove, false, R.Mine) in places
  }

  // ---------------------------------------------------------------- a tick that has lost its lock

  /** A configuration of `k` jobs under a revision of its own. */
  function Of(revision: nat, k: nat): W.Config {
    W.Config(revision, true, true, Some("t"), "m", k, false, false)
  }

  lemma OfIsValid(d: W.Disk, revision: nat, k: nat)
    requires k <= W.MAX_JOBS
    ensures W.Configured(d, Of(revision, k)) == Ok(d.(watch := Some(Of(W.ConfigOf(d).revision + 1, k))))
  {
    assert "m"[0] in "m" && !White("m"[0]);
    assert Bytes("m") == CharBytes('m') + Bytes("m"[1..]);
  }

  /** Nothing is going on in this state, no job is active, and ticks may spend. */
  ghost predicate Ready(s: W.State, left: nat) {
    s.phase.Idle? && W.NoneActive(s.disk) && s.disk.watch.Some?
    && var c := s.disk.watch.value; c.enabled && c.extract && !c.continuous && c.remaining == left
  }

  /** The scheduler with the extractor running for a new job. */
  function Started(s: W.State, request: string): W.State
    requires s.disk.watch.Some?
  {
    var mine := W.Spent(s.disk.watch.value);
    s.(disk := W.WithJob(s.disk, request, W.Job(Some(""), W.Running)).(watch := Some(mine)),
       phase := W.Inferring(request, Some(""), mine), calls := s.calls + 1)
  }

  lemma HeadIsPlain(request: string)
    ensures AllPlain(W.Head(request)) && W.Quiet(W.Head(request))
  {
    var events := W.Head(request);
    assert events == [W.Begin(request, "", {}), W.Mark, W.Reserve, W.Unlock, W.Call];
  }

  lemma HeadStarts(s: W.State, request: string, left: nat)
    requires Ready(s, left) && left > 0 && |request| == 1 && request !in s.disk.jobs
    ensures W.Run(s, W.Head(request)) == Some(Started(s, request)) && W.Calls(W.Head(request)) == 1
  {
    assert Bytes(request) <= 4;
    W.HeadRuns(s, request);
    W.TickIsARun(s, request, "", {}, W.Started(s, request, "", {}), true);
    assert Started(s, request) == W.Started(s, request, "", {});
  }

  /** A tick starts. */
  lemma Starts(rule: Rule, w: World, p: nat, q: nat, request: string, left: nat) returns (t: World)
    requires Calm(w, p, q) && Ready(Seen(w), left) && left > 0 && |request| == 1 && request !in Seen(w).disk.jobs
    ensures Leads(rule, w, Lifted(p, q, W.Head(request)), t, 1) && Follows(w, t, p, q, Started(Seen(w), request))
    ensures Quiet(Lifted(p, q, W.Head(request)))
  {
    HeadStarts(Seen(w), request, left);
    HeadIsPlain(request);
    t := LiftRun(rule, w, p, q, W.Head(request));
    LiftedQuiet(p, q, W.Head(request));
  }

  const MINE := Of(2, 4)

  const NOTED: (Key, Value) := (JobKey("a"), JobValue(W.Job(Some(""), W.Failed)))

  /** Five jobs are configured; the tick of the first one, in process 0, has lost its lock. */
  ghost predicate Astray0(w: World) {
    && w.phase.Idle? && w.store.lock == R.Free && w.store.disk.prepared.None? && w.readings.Keys <= {0, 1}
    && w.store.handles.Keys <= {0, 1} && 0 in w.store.handles && w.store.handles[0].Idle?
    && (1 in w.store.handles ==> w.store.handles[1].Idle?)
    && w.strays == [Stray(0, "a", Some(""), MINE, Lost)]
    && View(w.store.disk.files) == W.Disk(Some(MINE), map["a" := W.Job(Some(""), W.Running)], None)
  }

  function Losing(): seq<Move> {
    Lifted(0, 1, [W.Event.Configure(Of(0, 5))]) + (Lifted(0, 1, W.Head("a")) + [Lose])
  }

  lemma FirstConfiguration(s: W.State)
    requires s == W.State(W.Disk(None, map[], None), W.Idle, None, 0, 0)
    ensures var e := W.Event.Configure(Of(0, 5));
            && W.Run(s, [e]) == Some(W.State(W.Disk(Some(Of(1, 5)), map[], None), W.Idle, Some(5), 0, 0))
            && W.Calls([e]) == 0 && AllPlain([e])
  {
    OfIsValid(s.disk, 0, 5);
    W.RunOne(s, W.Event.Configure(Of(0, 5)));
  }

  lemma StartIsCalm()
    ensures Calm(START, 0, 1) && Seen(START) == W.State(W.Disk(None, map[], None), W.Idle, None, 0, 0)
  {
    assert JobsOn(map[]) == map[];
  }

  lemma Configures(rule: Rule) returns (t: World)
    ensures Leads(rule, START, Lifted(0, 1, [W.Event.Configure(Of(0, 5))]), t, 0)
    ensures Calm(t, 0, 1) && Seen(t) == W.State(W.Disk(Some(Of(1, 5)), map[], None), W.Idle, Some(5), 0, 0)
    ensures t.strays == [] && t.store.handles.Keys <= {0, 1} && t.readings.Keys <= {0, 1}
  {
    StartIsCalm();
    FirstConfiguration(Seen(START));
    t := LiftRun(rule, START, 0, 1, [W.Event.Configure(Of(0, 5))]);
    assert START.store.handles == map[] && START.readings == map[];
  }

  lemma LosesFirst(rule: Rule, a: World) returns (w: World)
    requires Calm(a, 0, 1) && Seen(a).disk == W.Disk(Some(Of(1, 5)), map[], None) && a.phase.Idle? && a.strays == []
    requires a.store.handles.Keys <= {0, 1} && a.readings.Keys <= {0, 1}
    ensures Leads(rule, a, Lifted(0, 1, W.Head("a")) + [Lose], w, 1) && Astray0(w)
    ensures Quiet(Lifted(0, 1, W.Head("a")))
  {
    var b := Starts(rule, a, 0, 1, "a", 5);
    FirstJob(Seen(a));
    LeadsMore(rule, a, Lifted(0, 1, W.Head("a")), b, 1, Lose);
    w := Step(b, Lose);
    LosesIt(b, w);
  }

  lemma FirstJob(s: W.State)
    requires s.disk == W.Disk(Some(Of(1, 5)), map[], None)
    ensures Started(s, "a").disk == W.Disk(Some(MINE), map["a" := W.Job(Some(""), W.Running)], None)
    ensures Started(s, "a").phase == W.Inferring("a", Some(""), MINE)
  {
    assert s.disk.jobs["a" := W.Job(Some(""), W.Running)] == map["a" := W.Job(Some(""), W.Running)];
  }

  lemma Loses(rule: Rule) returns (w: World)
    ensures Leads(rule, START, Losing(), w, 1) && Astray0(w)
  {
    var a := Configures(rule);
    w := LosesFirst(rule, a);
    LeadsThen(rule, START, Lifted(0, 1, [W.Event.Configure(Of(0, 5))]), a, 0, Lifted(0, 1, W.Head("a")) + [Lose], w, 1);
  }

  lemma LosesIt(b: World, w: World)
    requires Calm(b, 0, 1) && b.phase == W.Inferring("a", Some(""), MINE) && w == Step(b, Lose)
    requires b.strays == [] && b.store.handles.Keys <= {0, 1} && b.readings.Keys <= {0, 1}
    requires View(b.store.disk.files) == W.Disk(Some(MINE), map["a" := W.Job(Some(""), W.Running)], None)
    ensures Astray0(w)
  {
  }

  // ---------------------------------------------------------------- a configuration that does not stay

  /** The scheduler is at rest, and jobs may be spent. */
  ghost predicate Spoilt(t: World) {
    Calm(t, 2, 3) && t.phase.Idle? && "c" !in Seen(t).disk.jobs && exists left: nat :: left > 1 && Ready(Seen(t), left)
  }

  /** Process `p` makes a configuration. */
  ghost predicate Makes(w: World, p: nat, c: W.Config, t: World) {
    Run(w, [Act(p, W.Event.Configure(c))]) == Some(t)
  }

  lemma MakesIt(w: World, p: nat, c: W.Config)
    requires Configurable(w, p, c)
    ensures Makes(w, p, c, Configured(w, p, c))
  {
    OneRuns(w, Act(p, W.Event.Configure(c)));
  }

  /** Process 1 configures no job at all, no call is owed, no tick begins, and in the end jobs may be spent. */
  ghost predicate Spoils(rule: Rule, before: seq<Move>, after: seq<Move>) {
    && Run(START, before).Some? && Obeys(rule, START, before)
    && var w := Run(START, before).value;
    && !W.Owed(w.phase) && Ending(after)
    && exists start, t :: Makes(w, 1, Of(0, 0), start) && Leads(rule, start, after, t, 0) && Spoilt(t)
  }

  lemma ItSpoils(rule: Rule, before: seq<Move>, w: World, n: nat, start: World, after: seq<Move>, t: World)
    requires Leads(rule, START, before, w, n) && !W.Owed(w.phase) && Makes(w, 1, Of(0, 0), start) && Ending(after)
    requires Leads(rule, start, after, t, 0) && Spoilt(t)
    ensures Spoils(rule, before, after)
  {
  }

  lemma EndingThen(a: seq<Move>, b: seq<Move>)
    requires Ending(a) && Ending(b)
    ensures Ending(a + b)
  {
  }

  /** The moves of the store alone. */
  lemma EndingMoves(p: nat)
    ensures Ending(Opening(p)) && Ending(Replay(p)) && Ending([Other(R.Acquire(p))]) && Ending([Other(R.Release(p))])
    ensures Ending([Other(R.Die(p))]) && Ending([Other(R.Read(p))]) && Ending([Other(R.Step(p))]) && Ending([Note(p)])
  {
  }

  lemma NotedView(files: Files, c: W.Config)
    requires View(files) == W.Disk(Some(c), map["a" := W.Job(Some(""), W.Running)], None)
    ensures View(S.Overlay(files, [NOTED])) == W.Disk(Some(c), map["a" := W.Job(Some(""), W.Failed)], None)
  {
    OverlayOne(files, NOTED.0, NOTED.1);
    ViewOfJob(files, "a", W.Job(Some(""), W.Failed));
    assert map["a" := W.Job(Some(""), W.Running)]["a" := W.Job(Some(""), W.Failed)] == map["a" := W.Job(Some(""), W.Failed)];
  }

  lemma SpoiltNow(t: World, c: W.Config)
    requires t.phase.Idle? && t.store.lock == R.Free && t.store.disk.prepared.None?
    requires 2 !in t.readings && 3 !in t.store.handles && (2 in t.store.handles ==> t.store.handles[2].Idle?)
    requires (forall i :: 0 <= i < |t.strays| ==> t.strays[i].p == 0)
    requires View(t.store.disk.files) == W.Disk(Some(c), map["a" := W.Job(Some(""), W.Failed)], None)
    requires c.enabled && c.extract && !c.continuous && c.remaining > 1
    ensures Spoilt(t)
  {
    assert "c"[0] != "a"[0];
    assert Ready(Seen(t), c.remaining);
  }

  /** Process 1 holds the lock and has read the configuration. */
  lemma Ponders(rule: Rule, w: World) returns (t: World)
    requires w.phase.Idle? && w.store.lock == R.Free && w.store.disk.prepared.None? && !Astray(w, 1)
    requires 1 in w.store.handles ==> w.store.handles[1].Idle?
    ensures Leads(rule, w, Opening(1) + [Look(1)], t, 0)
    ensures t == w.(store := w.store.(lock := R.Held(1), handles := w.store.handles[1 := R.Idle]),
                    readings := (w.readings - {1})[1 := View(w.store.disk.files)])
  {
    var a := Opens(rule, w, 1);
    t := Looks(rule, a, 1);
    LeadsThen(rule, w, Opening(1), a, 0, [Look(1)], t, 0);
  }

  lemma ConfigureStep(s: W.State, k: nat)
    requires s.phase.Idle? && k <= W.MAX_JOBS
    ensures W.Enabled(s, W.Event.Configure(Of(0, k)))
    ensures ListOf(s, W.Event.Configure(Of(0, k))) == [(WatchKey, WatchValue(Of(W.ConfigOf(s.disk).revision + 1, k)))]
    ensures var t := W.Step(s, W.Event.Configure(Of(0, k))); t.phase.Idle? && t.budget == Some(k) && t.calls == 0 && t.carried == 0
  {
    OfIsValid(s.disk, 0, k);
  }

  lemma MayConfigure(w: World, k: nat)
    requires Writing(w, 1) && 1 in w.readings && w.phase.Idle? && k <= W.MAX_JOBS
    ensures Configurable(w, 1, Of(0, k))
  {
    ConfigureStep(Known(w, 1), k);
  }

  lemma ActStep(w: World, p: nat, e: W.Event)
    requires Enabled(w, Act(p, e)) && !e.Begin?
    ensures var t, s := Step(w, Act(p, e)), W.Step(Known(w, p), e);
            t == World(Operation(w, p, e), w.readings - {p}, w.ticker, s.phase, s.budget, s.calls, s.carried, w.strays)
  {
  }

  /** Process 1 writes the record of a configuration. */
  lemma Reconfigured(w: World, k: nat)
    requires Writing(w, 1) && 1 in w.readings && w.readings[1] == View(w.store.disk.files) && w.phase.Idle? && k <= W.MAX_JOBS
    ensures Configurable(w, 1, Of(0, k))
    ensures var t := Configured(w, 1, Of(0, k));
            var list := [(WatchKey, WatchValue(Of(ConfigOn(w.store.disk.files).revision + 1, k)))];
            && t.store.disk == S.Disk(w.store.disk.files, Some(list)) && t.store.stamp == w.store.stamp + 1
            && t.store.lock == R.Held(1) && t.store.handles == w.store.handles[1 := R.Reading]
            && t.readings == w.readings - {1} && t.phase.Idle? && t.strays == w.strays
            && t.budget == Some(k) && t.calls == 0 && t.carried == 0
  {
    MayConfigure(w, k);
    ActStep(w, 1, W.Event.Configure(Of(0, k)));
    ConfigureStep(Known(w, 1), k);
    OperationIs(w, 1, W.Event.Configure(Of(0, k)));
  }

  // ---------------------------------------------------------------- to begin over somebody's record

  function BeforeWrite(): seq<Move> {
    Losing() + (Opening(1) + [Look(1)])
  }

  function AfterWrite(taken: bool): seq<Move> {
    if taken then [Note(0)] + (Replay(1) + [Other(R.Release(1))])
    else [Other(R.Die(1))] + ([Note(0)] + Succession())
  }

  /** Process 2 opens the store, replays what it finds, and leaves. */
  function Succession(): seq<Move> {
    [Other(R.Acquire(2))] + (Replay(2) + [Other(R.Release(2))])
  }

  /** The lock holder or, after its death, the next one takes the note for its own record. */
  lemma NoteReplaces(rule: Rule, w: World, files: Files) returns (t: World)
    requires w.store.disk.prepared.Some? && w.store.disk.files == files
    requires w.strays == [Stray(0, "a", Some(""), MINE, Lost)] && 0 in w.store.handles && w.store.handles[0].Idle?
    requires w.store.lock != R.Held(0)
    requires R.Situation(R.Write, w.store.lock != R.Free, R.Foreign) in rule.places
    ensures Leads(rule, w, [Note(0)], t, 0)
    ensures t.store.disk == S.Disk(files, Some([NOTED])) && t.store.lock == w.store.lock
    ensures t.store.handles == w.store.handles[0 := R.Reading] && t == w.(store := t.store, strays := t.strays)
    ensures |t.strays| == 1 && t.strays[0].p == 0
  {
    LeadsOne(rule, w, Note(0));
    t := Step(w, Note(0));
  }

  lemma WriteBegins(rule: Rule) returns (w: World, start: World)
    ensures Leads(rule, START, BeforeWrite(), w, 1) && !W.Owed(w.phase) && Makes(w, 1, Of(0, 0), start) && PendingOver(start)
  {
    var l := Loses(rule);
    w, start := WriteStarts(rule, l);
    LeadsThen(rule, START, Losing(), l, 1, Opening(1) + [Look(1)], w, 0);
  }

  lemma WriteStarts(rule: Rule, l: World) returns (w: World, start: World)
    requires Astray0(l)
    ensures Leads(rule, l, Opening(1) + [Look(1)], w, 0) && !W.Owed(w.phase) && Makes(w, 1, Of(0, 0), start) && PendingOver(start)
  {
    w := Ponders(rule, l);
    PendingAfter(l, w);
    MakesIt(w, 1, Of(0, 0));
    start := Configured(w, 1, Of(0, 0));
  }

  lemma WriteSpoils(rule: Rule, taken: bool)
    requires R.Situation(R.Write, taken, R.Foreign) in rule.places
    ensures Spoils(rule, BeforeWrite(), AfterWrite(taken))
  {
    var w, start := WriteBegins(rule);
    WriteEnds(taken);
    var t := WriteEither(rule, start, taken);
    ItSpoils(rule, BeforeWrite(), w, 1, start, AfterWrite(taken), t);
  }

  lemma WriteEither(rule: Rule, w: World, taken: bool) returns (t: World)
    requires PendingOver(w) && R.Situation(R.Write, taken, R.Foreign) in rule.places
    ensures Leads(rule, w, AfterWrite(taken), t, 0) && Spoilt(t)
  {
    if taken {
      t := WriteTaken(rule, w);
    } else {
      t := WriteLeft(rule, w);
    }
  }

  lemma PendingAfter(l: World, w: World)
    requires Astray0(l) && w == l.(store := l.store.(lock := R.Held(1), handles := l.store.handles[1 := R.Idle]),
                                   readings := (l.readings - {1})[1 := View(l.store.disk.files)])
    ensures Configurable(w, 1, Of(0, 0)) && PendingOver(Configured(w, 1, Of(0, 0)))
  {
    Reconfigured(w, 0);
  }

  lemma WriteEnds(taken: bool)
    ensures Ending(AfterWrite(taken))
  {
    EndingMoves(0);
    EndingMoves(1);
    EndingMoves(2);
    EndingThen(Replay(1), [Other(R.Release(1))]);
    EndingThen([Note(0)], Replay(1) + [Other(R.Release(1))]);
    NextEnds();
    EndingThen([Note(0)], Succession());
    EndingThen([Other(R.Die(1))], [Note(0)] + Succession());
  }

  lemma NextEnds()
    ensures Ending(Succession())
  {
    EndingMoves(2);
    EndingThen(Replay(2), [Other(R.Release(2))]);
    EndingThen([Other(R.Acquire(2))], Replay(2) + [Other(R.Release(2))]);
  }

  /** A configuration is pending, of the process that holds the lock. */
  ghost predicate Pending(w: World) {
    && w.phase.Idle? && w.store.lock == R.Held(1) && w.store.disk.prepared.Some? && w.readings.Keys <= {0, 1}
    && w.store.handles.Keys <= {0, 1} && 0 in w.store.handles && 1 in w.store.handles && w.store.handles[1].Reading?
  }

  ghost predicate PendingOver(w: World) {
    && Pending(w) && w.store.handles[0].Idle? && w.strays == [Stray(0, "a", Some(""), MINE, Lost)]
    && View(w.store.disk.files) == W.Disk(Some(MINE), map["a" := W.Job(Some(""), W.Running)], None)
  }

  lemma WriteTaken(rule: Rule, w: World) returns (t: World)
    requires PendingOver(w) && R.Situation(R.Write, true, R.Foreign) in rule.places
    ensures Leads(rule, w, AfterWrite(true), t, 0) && Spoilt(t)
  {
    var a := NoteReplaces(rule, w, w.store.disk.files);
    var b := Replays(rule, a, 1, NOTED.0, NOTED.1);
    t := Releases(rule, b, 1);
    Join3(rule, w, [Note(0)], a, 0, Replay(1), b, 0, [Other(R.Release(1))], t, 0);
    NotedView(w.store.disk.files, MINE);
    SpoiltNow(t, MINE);
  }

  lemma WriteLeft(rule: Rule, w: World) returns (t: World)
    requires PendingOver(w) && R.Situation(R.Write, false, R.Foreign) in rule.places
    ensures Leads(rule, w, AfterWrite(false), t, 0) && Spoilt(t)
  {
    LeadsOne(rule, w, Other(R.Die(1)));
    var d := Step(w, Other(R.Die(1)));
    t := WriteGoesOn(rule, d);
    LeadsThen(rule, w, [Other(R.Die(1))], d, 0, [Note(0)] + Succession(), t, 0);
  }

  lemma WriteGoesOn(rule: Rule, d: World) returns (t: World)
    requires d.phase.Idle? && d.store.disk.prepared.Some? && d.store.lock == R.Free && d.store.handles.Keys <= {0} && d.readings.Keys <= {0, 1}
    requires d.strays == [Stray(0, "a", Some(""), MINE, Lost)] && 0 in d.store.handles && d.store.handles[0].Idle?
    requires View(d.store.disk.files) == W.Disk(Some(MINE), map["a" := W.Job(Some(""), W.Running)], None)
    requires R.Situation(R.Write, false, R.Foreign) in rule.places
    ensures Leads(rule, d, [Note(0)] + Succession(), t, 0) && Spoilt(t)
  {
    var a := NoteReplaces(rule, d, d.store.disk.files);
    t := NextReplays(rule, a, NOTED.0, NOTED.1);
    LeadsThen(rule, d, [Note(0)], a, 0, Succession(), t, 0);
    NotedView(d.store.disk.files, MINE);
    SpoiltNow(t, MINE);
  }

  lemma NextReplays(rule: Rule, w: World, k: Key, v: Value) returns (t: World)
    requires w.phase.Idle? && w.store.lock == R.Free && w.store.disk.prepared == Some([(k, v)]) && 2 !in w.store.handles && !Astray(w, 2)
    ensures Leads(rule, w, Succession(), t, 0)
    ensures t.store.disk == S.Disk(S.Overlay(w.store.disk.files, [(k, v)]), None) && t.store.lock == R.Free
    ensures t.store.handles.Keys == w.store.handles.Keys + {2} && t.store.handles[2].Idle?
    ensures 2 !in t.readings && t.phase.Idle? && t.strays == w.strays
  {
    var a := Acquires(rule, w, 2);
    var b := Replays(rule, a, 2, k, v);
    t := Releases(rule, b, 2);
    Join3(rule, w, [Other(R.Acquire(2))], a, 0, Replay(2), b, 0, [Other(R.Release(2))], t, 0);
  }

  // ---------------------------------------------------------------- to go on after the record is gone

  const LATE: (Key, Value) := (WatchKey, WatchValue(Of(3, 5)))

  const ENGINE: (Key, Value) := (EngineKey("x"), EngineValue(""))

  /** The stray tick notes its job, and reads a configuration of process 1 for its own record. */
  function BeforeFill(): seq<Move> {
    Losing() + ([Note(0)] + (TakeOver() + Copying()))
  }

  function TakeOver(): seq<Move> {
    [Other(R.Acquire(1))] + (Replay(1) + [Look(1)])
  }

  function Copying(): seq<Move> {
    [Act(1, W.Event.Configure(Of(0, 5)))] + ([Other(R.Read(0))] + (Replay(1) + [Look(1)]))
  }

  /** It fills it in when another one is stored, with nothing pending or under another record. */
  function AfterFill(taken: bool, pending: bool): seq<Move> {
    Replay(1) + FillingLate(taken, pending)
  }

  function FillingLate(taken: bool, pending: bool): seq<Move> {
    if pending && taken then [Other(R.Commit(1, [ENGINE]))] + ([Other(R.Step(0))] + (Replay(1) + [Other(R.Release(1))]))
    else if pending then ([Other(R.Commit(1, [ENGINE]))] + [Other(R.Die(1))]) + ([Other(R.Step(0))] + Succession())
    else if taken then [Other(R.Step(0))] + [Other(R.Release(1))]
    else [Other(R.Release(1))] + [Other(R.Step(0))]
  }

  /** A note is under way without the lock. */
  ghost predicate Noting(w: World) {
    && w.phase.Idle? && w.store.lock == R.Free && w.store.disk.prepared == Some([NOTED]) && w.readings.Keys <= {0, 1}
    && w.store.handles.Keys <= {0, 1} && 0 in w.store.handles && (1 in w.store.handles ==> w.store.handles[1].Idle?)
    && |w.strays| == 1 && w.strays[0].p == 0
  }

  lemma Notes(rule: Rule, w: World) returns (t: World)
    requires Astray0(w) && LetsCommit(rule.places)
    ensures Leads(rule, w, [Note(0)], t, 0) && Noting(t) && t.store.handles[0].Reading? && t.store.disk.files == w.store.disk.files
    ensures t.strays == [Stray(0, "a", Some(""), MINE, Told)]
  {
    LeadsOne(rule, w, Note(0));
    t := Step(w, Note(0));
  }

  /** Process 1 takes the lock, replays the note, and looks. */
  lemma TakesOver(rule: Rule, w: World) returns (t: World)
    requires Noting(w)
    ensures Leads(rule, w, TakeOver(), t, 0)
    ensures t.store.disk == S.Disk(S.Overlay(w.store.disk.files, [NOTED]), None) && t.store.lock == R.Held(1)
    ensures t.store.handles == w.store.handles[1 := R.Idle] && t.readings.Keys <= {0, 1} && t.phase.Idle? && t.strays == w.strays
    ensures 1 in t.readings && t.readings[1] == View(t.store.disk.files) && t.store.stamp >= w.store.stamp
  {
    var a := Acquires(rule, w, 1);
    var b := Replays(rule, a, 1, NOTED.0, NOTED.1);
    assert b.store.handles == w.store.handles[1 := R.Idle];
    t := Looks(rule, b, 1);
    Join3(rule, w, [Other(R.Acquire(1))], a, 0, Replay(1), b, 0, [Look(1)], t, 0);
  }

  /** Process 1 has stored a configuration, and the stray handle has it in its hands. */
  ghost predicate Stale(w: World) {
    && w.phase.Idle? && w.store.lock == R.Held(1) && w.store.disk.prepared.None? && w.readings.Keys <= {0, 1}
    && w.store.handles.Keys <= {0, 1} && 0 in w.store.handles && 1 in w.store.handles && w.store.handles[1].Idle?
    && w.store.handles[0].Replaying? && w.store.handles[0].stamp <= w.store.stamp
    && w.store.handles[0].writes == [LATE] && w.store.handles[0].done == 0
    && |w.strays| == 1 && w.strays[0].p == 0
  }

  /** Process 1 writes a configuration, the stray handle reads it, and process 1 completes it. */
  lemma Copies(rule: Rule, w: World) returns (t: World)
    requires Writing(w, 1) && 1 in w.readings && w.readings[1] == View(w.store.disk.files) && w.phase.Idle? && w.readings.Keys <= {0, 1}
    requires w.store.disk.prepared.None? && ConfigOn(w.store.disk.files).revision == 2
    requires w.store.handles.Keys <= {0, 1} && 0 in w.store.handles && w.store.handles[0].Reading? && |w.strays| == 1 && w.strays[0].p == 0
    ensures Leads(rule, w, Copying(), t, 0)
    ensures Stale(t) && t.store.disk.files == S.Overlay(w.store.disk.files, [LATE])
    ensures 1 in t.readings && t.readings[1] == View(t.store.disk.files)
  {
    Reconfigured(w, 5);
    LeadsOne(rule, w, Act(1, W.Event.Configure(Of(0, 5))));
    var a := Step(w, Act(1, W.Event.Configure(Of(0, 5))));
    LeadsOne(rule, a, Other(R.Read(0)));
    var b := Step(a, Other(R.Read(0)));
    var c := Replays(rule, b, 1, LATE.0, LATE.1);
    t := Looks(rule, c, 1);
    Join4(rule, w, [Act(1, W.Event.Configure(Of(0, 5)))], a, 0, [Other(R.Read(0))], b, 0, Replay(1), c, 0, [Look(1)], t, 0);
  }

  /** The stray handle still has a record to fill in that is gone. */
  ghost predicate Late(w: World) {
    && 0 in w.store.handles && w.store.handles[0].Replaying? && w.store.handles[0].stamp < w.store.stamp
    && w.store.handles[0].writes == [LATE] && w.store.handles[0].done == 0
  }

  /** The stray handle fills in what it has read long ago. */
  lemma FillsLate(rule: Rule, w: World, pending: bool) returns (t: World)
    requires w.phase.Idle? && w.store.lock != R.Held(0) && w.store.disk.prepared.Some? == pending
    requires Late(w)
    requires R.Situation(R.Fill, w.store.lock != R.Free, if pending then R.Foreign else R.Nothing) in rule.places
    ensures Leads(rule, w, [Other(R.Step(0))], t, 0)
    ensures t.store.disk == w.store.disk.(files := w.store.disk.files[LATE.0 := LATE.1]) && t.store.lock == w.store.lock
    ensures t.store.handles.Keys == w.store.handles.Keys && (forall p :: p in t.store.handles && p != 0 ==> t.store.handles[p] == w.store.handles[p])
    ensures t == w.(store := t.store)
  {
    LeadsOne(rule, w, Other(R.Step(0)));
    t := Step(w, Other(R.Step(0)));
  }

  lemma FillBegins(rule: Rule) returns (w: World)
    requires LetsCommit(rule.places)
    ensures Leads(rule, START, BeforeFill(), w, 1) && Stale(w) && 1 in w.readings && w.readings[1] == View(w.store.disk.files)
    ensures View(w.store.disk.files) == W.Disk(Some(Of(3, 5)), map["a" := W.Job(Some(""), W.Failed)], None)
  {
    var l := Loses(rule);
    var a := Notes(rule, l);
    w := FillGoesOn(rule, a);
    Join3(rule, START, Losing(), l, 1, [Note(0)], a, 0, TakeOver() + Copying(), w, 0);
  }

  lemma FillGoesOn(rule: Rule, a: World) returns (w: World)
    requires Noting(a) && a.store.handles[0].Reading?
    requires View(a.store.disk.files) == W.Disk(Some(MINE), map["a" := W.Job(Some(""), W.Running)], None)
    ensures Leads(rule, a, TakeOver() + Copying(), w, 0) && Stale(w) && 1 in w.readings && w.readings[1] == View(w.store.disk.files)
    ensures View(w.store.disk.files) == W.Disk(Some(Of(3, 5)), map["a" := W.Job(Some(""), W.Failed)], None)
  {
    var b := TakesOver(rule, a);
    NotedView(a.store.disk.files, MINE);
    w := Copies(rule, b);
    OverlayOne(b.store.disk.files, LATE.0, LATE.1);
    ViewOfWatch(b.store.disk.files, Of(3, 5));
    LeadsThen(rule, a, TakeOver(), b, 0, Copying(), w, 0);
  }

  /** Nothing is pending, no job is configured, and the stray handle is late. */
  ghost predicate Reset(w: World) {
    && w.phase.Idle? && w.store.lock == R.Held(1) && w.store.disk.prepared.None? && w.readings.Keys <= {0, 1}
    && w.store.handles.Keys <= {0, 1} && 1 in w.store.handles && w.store.handles[1].Idle? && Late(w)
    && |w.strays| == 1 && w.strays[0].p == 0
    && View(w.store.disk.files) == W.Disk(Some(Of(4, 0)), map["a" := W.Job(Some(""), W.Failed)], None)
  }

  lemma Resets(rule: Rule, w: World) returns (t: World)
    requires Stale(w) && 1 in w.readings && w.readings[1] == View(w.store.disk.files)
    requires View(w.store.disk.files) == W.Disk(Some(Of(3, 5)), map["a" := W.Job(Some(""), W.Failed)], None)
    ensures Configurable(w, 1, Of(0, 0)) && Leads(rule, Configured(w, 1, Of(0, 0)), Replay(1), t, 0) && Reset(t)
  {
    Reconfigured(w, 0);
    t := Replays(rule, Configured(w, 1, Of(0, 0)), 1, WatchKey, WatchValue(Of(4, 0)));
    OverlayOne(w.store.disk.files, WatchKey, WatchValue(Of(4, 0)));
    ViewOfWatch(w.store.disk.files, Of(4, 0));
  }

  lemma LateView(files: Files, d: W.Disk)
    requires View(files) == d
    ensures View(files[LATE.0 := LATE.1]) == d.(watch := Some(Of(3, 5)))
    ensures View(S.Overlay(files, [ENGINE])) == d && View(S.Overlay(files[LATE.0 := LATE.1], [ENGINE])) == d.(watch := Some(Of(3, 5)))
  {
    ViewOfWatch(files, Of(3, 5));
    EngineListsSpare(files, [ENGINE]);
    EngineListsSpare(files[LATE.0 := LATE.1], [ENGINE]);
  }

  lemma FillHeld(rule: Rule, w: World) returns (t: World)
    requires Reset(w) && R.Situation(R.Fill, true, R.Nothing) in rule.places
    ensures Leads(rule, w, FillingLate(true, false), t, 0) && Spoilt(t)
  {
    LateView(w.store.disk.files, View(w.store.disk.files));
    var a := FillsLate(rule, w, false);
    t := Releases(rule, a, 1);
    LeadsThen(rule, w, [Other(R.Step(0))], a, 0, [Other(R.Release(1))], t, 0);
    SpoiltNow(t, Of(3, 5));
  }

  lemma FillFree(rule: Rule, w: World) returns (t: World)
    requires Reset(w) && R.Situation(R.Fill, false, R.Nothing) in rule.places
    ensures Leads(rule, w, FillingLate(false, false), t, 0) && Spoilt(t)
  {
    LateView(w.store.disk.files, View(w.store.disk.files));
    var a := Releases(rule, w, 1);
    t := FillsLate(rule, a, false);
    LeadsThen(rule, w, [Other(R.Release(1))], a, 0, [Other(R.Step(0))], t, 0);
    SpoiltNow(t, Of(3, 5));
  }

  /** The record of somebody else is pending. */
  lemma EngineWrites(rule: Rule, w: World) returns (t: World)
    requires Reset(w)
    ensures Leads(rule, w, [Other(R.Commit(1, [ENGINE]))], t, 0)
    ensures t == w.(store := t.store) && t.store.disk == S.Disk(w.store.disk.files, Some([ENGINE])) && t.store.lock == R.Held(1)
    ensures t.store.handles == w.store.handles[1 := R.Reading] && Late(t)
  {
    LeadsOne(rule, w, Other(R.Commit(1, [ENGINE])));
    t := Step(w, Other(R.Commit(1, [ENGINE])));
  }

  lemma FillUnderHolder(rule: Rule, w: World) returns (t: World)
    requires Reset(w) && R.Situation(R.Fill, true, R.Foreign) in rule.places
    ensures Leads(rule, w, FillingLate(true, true), t, 0) && Spoilt(t)
  {
    var e := EngineWrites(rule, w);
    var a := FillsLate(rule, e, true);
    LateView(w.store.disk.files, View(w.store.disk.files));
    t := HolderLeaves(rule, a);
    Join3(rule, w, [Other(R.Commit(1, [ENGINE]))], e, 0, [Other(R.Step(0))], a, 0, Replay(1) + [Other(R.Release(1))], t, 0);
  }

  /** The holder replays its own record and releases the lock. */
  lemma HolderLeaves(rule: Rule, a: World) returns (t: World)
    requires a.phase.Idle? && a.store.lock == R.Held(1) && a.store.disk.prepared == Some([ENGINE]) && a.readings.Keys <= {0, 1}
    requires a.store.handles.Keys <= {0, 1} && 1 in a.store.handles && a.store.handles[1].Reading?
    requires |a.strays| == 1 && a.strays[0].p == 0
    requires View(S.Overlay(a.store.disk.files, [ENGINE])) == W.Disk(Some(Of(3, 5)), map["a" := W.Job(Some(""), W.Failed)], None)
    ensures Leads(rule, a, Replay(1) + [Other(R.Release(1))], t, 0) && Spoilt(t)
  {
    var b := Replays(rule, a, 1, ENGINE.0, ENGINE.1);
    t := Releases(rule, b, 1);
    LeadsThen(rule, a, Replay(1), b, 0, [Other(R.Release(1))], t, 0);
    SpoiltNow(t, Of(3, 5));
  }

  lemma EngineDies(rule: Rule, w: World) returns (t: World)
    requires Reset(w)
    ensures Leads(rule, w, [Other(R.Commit(1, [ENGINE]))] + [Other(R.Die(1))], t, 0) && Late(t)
    ensures t.phase.Idle? && t.store.disk == S.Disk(w.store.disk.files, Some([ENGINE])) && t.store.lock == R.Free
    ensures t.store.handles.Keys <= {0} && t.readings.Keys <= {0, 1} && t.strays == w.strays
  {
    var e := EngineWrites(rule, w);
    LeadsMore(rule, w, [Other(R.Commit(1, [ENGINE]))], e, 0, Other(R.Die(1)));
    t := Step(e, Other(R.Die(1)));
  }

  lemma FillUnderDead(rule: Rule, w: World) returns (t: World)
    requires Reset(w) && R.Situation(R.Fill, false, R.Foreign) in rule.places
    ensures Leads(rule, w, FillingLate(false, true), t, 0) && Spoilt(t)
  {
    var d := EngineDies(rule, w);
    t := DeadGoesOn(rule, d);
    LeadsThen(rule, w, [Other(R.Commit(1, [ENGINE]))] + [Other(R.Die(1))], d, 0, [Other(R.Step(0))] + Succession(), t, 0);
  }

  lemma DeadGoesOn(rule: Rule, d: World) returns (t: World)
    requires Late(d) && d.phase.Idle? && d.store.disk.prepared == Some([ENGINE]) && d.store.lock == R.Free
    requires d.store.handles.Keys <= {0} && d.readings.Keys <= {0, 1} && |d.strays| == 1 && d.strays[0].p == 0
    requires View(d.store.disk.files) == W.Disk(Some(Of(4, 0)), map["a" := W.Job(Some(""), W.Failed)], None)
    requires R.Situation(R.Fill, false, R.Foreign) in rule.places
    ensures Leads(rule, d, [Other(R.Step(0))] + Succession(), t, 0) && Spoilt(t)
  {
    var a := FillsLate(rule, d, true);
    t := NextReplays(rule, a, ENGINE.0, ENGINE.1);
    LeadsThen(rule, d, [Other(R.Step(0))], a, 0, Succession(), t, 0);
    LateSpoilt(d.store.disk.files, t);
  }

  lemma LateSpoilt(files: Files, t: World)
    requires t.phase.Idle? && t.store.lock == R.Free && 2 !in t.readings && t.store.handles.Keys <= {0, 2}
    requires 2 in t.store.handles && t.store.handles[2].Idle? && |t.strays| == 1 && t.strays[0].p == 0
    requires t.store.disk == S.Disk(S.Overlay(files[LATE.0 := LATE.1], [ENGINE]), None)
    requires View(files) == W.Disk(Some(Of(4, 0)), map["a" := W.Job(Some(""), W.Failed)], None)
    ensures Spoilt(t)
  {
    LateView(files, View(files));
    SpoiltNow(t, Of(3, 5));
  }

  lemma FillEnds(taken: bool, pending: bool)
    ensures Ending(AfterFill(taken, pending))
  {
    EndingMoves(0);
    EndingMoves(1);
    NextEnds();
    assert Ending([Other(R.Commit(1, [ENGINE]))]);
    EndingThen(Replay(1), [Other(R.Release(1))]);
    EndingThen([Other(R.Step(0))], Replay(1) + [Other(R.Release(1))]);
    EndingThen([Other(R.Commit(1, [ENGINE]))], [Other(R.Step(0))] + (Replay(1) + [Other(R.Release(1))]));
    EndingThen([Other(R.Step(0))], Succession());
    EndingThen([Other(R.Commit(1, [ENGINE]))], [Other(R.Die(1))]);
    EndingThen([Other(R.Commit(1, [ENGINE]))] + [Other(R.Die(1))], [Other(R.Step(0))] + Succession());
    EndingThen([Other(R.Step(0))], [Other(R.Release(1))]);
    EndingThen([Other(R.Release(1))], [Other(R.Step(0))]);
    EndingThen(Replay(1), FillingLate(taken, pending));
  }

  lemma FillEither(rule: Rule, w: World, taken: bool, pending: bool) returns (t: World)
    requires Reset(w) && R.Situation(R.Fill, taken, if pending then R.Foreign else R.Nothing) in rule.places
    ensures Leads(rule, w, FillingLate(taken, pending), t, 0) && Spoilt(t)
  {
    if pending && taken {
      t := FillUnderHolder(rule, w);
    } else if pending {
      t := FillUnderDead(rule, w);
    } else if taken {
      t := FillHeld(rule, w);
    } else {
      t := FillFree(rule, w);
    }
  }

  lemma FillReady(rule: Rule) returns (w: World, start: World, r: World)
    requires LetsCommit(rule.places)
    ensures Leads(rule, START, BeforeFill(), w, 1) && !W.Owed(w.phase) && Makes(w, 1, Of(0, 0), start)
    ensures Leads(rule, start, Replay(1), r, 0) && Reset(r)
  {
    w := FillBegins(rule);
    r := Resets(rule, w);
    MakesIt(w, 1, Of(0, 0));
    start := Configured(w, 1, Of(0, 0));
  }

  lemma FillSpoils(rule: Rule, taken: bool, pending: bool)
    requires LetsCommit(rule.places)
    requires R.Situation(R.Fill, taken, if pending then R.Foreign else R.Nothing) in rule.places
    ensures Spoils(rule, BeforeFill(), AfterFill(taken, pending))
  {
    var w, start, r := FillReady(rule);
    FillEnds(taken, pending);
    var t := FillEither(rule, r, taken, pending);
    LeadsThen(rule, start, Replay(1), r, 0, FillingLate(taken, pending), t, 0);
    ItSpoils(rule, BeforeFill(), w, 1, start, AfterFill(taken, pending), t);
  }

  // ---------------------------------------------------------------- to remove the record of somebody else

  /** The stray tick has filled in its note when process 1 takes over. */
  function BeforeRemove(): seq<Move> {
    Losing() + ([Note(0)] + (([Other(R.Read(0))] + [Other(R.Step(0))]) + TakeOver()))
  }

  /** It removes the record of process 1, alive or dead. */
  function AfterRemove(taken: bool): seq<Move> {
    if taken then [Other(R.Step(0))] + ([Other(R.Read(1))] + [Other(R.Release(1))])
    else [Other(R.Die(1))] + [Other(R.Step(0))]
  }

  lemma FillsNote(rule: Rule, w: World) returns (t: World)
    requires Noting(w) && w.store.handles[0].Reading? && LetsCommit(rule.places)
    ensures Leads(rule, w, [Other(R.Read(0))] + [Other(R.Step(0))], t, 0) && Noting(t)
    ensures t.store.disk.files == S.Overlay(w.store.disk.files, [NOTED]) && t.store.stamp == w.store.stamp
    ensures t.store.handles[0] == R.Replaying(w.store.stamp, [NOTED], 1) && t.strays == w.strays
  {
    OverlayOne(w.store.disk.files, NOTED.0, NOTED.1);
    LeadsOne(rule, w, Other(R.Read(0)));
    var a := Step(w, Other(R.Read(0)));
    assert R.SituationOf(a.store, R.Step(0)) == R.Situation(R.Fill, false, R.Mine);
    LeadsMore(rule, w, [Other(R.Read(0))], a, 0, Other(R.Step(0)));
    t := Step(a, Other(R.Step(0)));
  }

  lemma NotedTwice(files: Files)
    ensures S.Overlay(S.Overlay(files, [NOTED]), [NOTED]) == S.Overlay(files, [NOTED])
  {
    OverlayOne(files, NOTED.0, NOTED.1);
    OverlayOne(files[NOTED.0 := NOTED.1], NOTED.0, NOTED.1);
  }

  lemma RemoveBegins(rule: Rule) returns (w: World)
    requires LetsCommit(rule.places)
    ensures Leads(rule, START, BeforeRemove(), w, 1) && Removing(w)
  {
    var l := Loses(rule);
    var a := Notes(rule, l);
    w := RemoveGoesOn(rule, a);
    Join3(rule, START, Losing(), l, 1, [Note(0)], a, 0, ([Other(R.Read(0))] + [Other(R.Step(0))]) + TakeOver(), w, 0);
  }

  lemma RemoveGoesOn(rule: Rule, a: World) returns (w: World)
    requires LetsCommit(rule.places) && Noting(a) && a.store.handles[0].Reading?
    requires View(a.store.disk.files) == W.Disk(Some(MINE), map["a" := W.Job(Some(""), W.Running)], None)
    ensures Leads(rule, a, ([Other(R.Read(0))] + [Other(R.Step(0))]) + TakeOver(), w, 0) && Removing(w)
  {
    var b := FillsNote(rule, a);
    w := TakesOver(rule, b);
    LeadsThen(rule, a, [Other(R.Read(0))] + [Other(R.Step(0))], b, 0, TakeOver(), w, 0);
    NotedTwice(a.store.disk.files);
    NotedView(a.store.disk.files, MINE);
  }

  /** Process 1 is about to write, and the stray handle has still to remove a record that is gone. */
  ghost predicate Removing(w: World) {
    && w.phase.Idle? && Writing(w, 1) && w.store.disk.prepared.None? && w.readings.Keys <= {0, 1}
    && 1 in w.readings && w.readings[1] == View(w.store.disk.files)
    && w.store.handles.Keys <= {0, 1} && Ended(w) && |w.strays| == 1 && w.strays[0].p == 0
    && View(w.store.disk.files) == W.Disk(Some(MINE), map["a" := W.Job(Some(""), W.Failed)], None)
  }

  ghost predicate Ended(w: World) {
    && 0 in w.store.handles && w.store.handles[0].Replaying? && w.store.handles[0].stamp <= w.store.stamp
    && w.store.handles[0].writes == [NOTED] && w.store.handles[0].done == 1
  }

  /** The stray handle removes what it takes for its own record. */
  lemma RemovesForeign(rule: Rule, w: World) returns (t: World)
    requires w.phase.Idle? && w.store.lock != R.Held(0) && w.store.disk.prepared.Some? && Ended(w)
    requires w.store.handles[0].stamp < w.store.stamp
    requires R.Situation(R.Remove, w.store.lock != R.Free, R.Foreign) in rule.places
    ensures Leads(rule, w, [Other(R.Step(0))], t, 0)
    ensures t == w.(store := t.store) && t.store.disk == S.Disk(w.store.disk.files, None) && t.store.lock == w.store.lock
    ensures t.store.handles == w.store.handles[0 := R.Idle]
  {
    LeadsOne(rule, w, Other(R.Step(0)));
    t := Step(w, Other(R.Step(0)));
  }

  /** The record of a configuration of process 1 is pending. */
  ghost predicate Removable(w: World) {
    && Pending(w) && Ended(w) && w.store.handles[0].stamp < w.store.stamp && |w.strays| == 1 && w.strays[0].p == 0
    && View(w.store.disk.files) == W.Disk(Some(MINE), map["a" := W.Job(Some(""), W.Failed)], None)
  }

  lemma RemoveTaken(rule: Rule, w: World) returns (t: World)
    requires Removable(w) && R.Situation(R.Remove, true, R.Foreign) in rule.places
    ensures Leads(rule, w, AfterRemove(true), t, 0) && Spoilt(t)
  {
    var a := RemovesForeign(rule, w);
    t := FindsNothing(rule, a);
    LeadsThen(rule, w, [Other(R.Step(0))], a, 0, [Other(R.Read(1))] + [Other(R.Release(1))], t, 0);
  }

  lemma RemoveLeft(rule: Rule, w: World) returns (t: World)
    requires Removable(w) && R.Situation(R.Remove, false, R.Foreign) in rule.places
    ensures Leads(rule, w, AfterRemove(false), t, 0) && Spoilt(t)
  {
    LeadsOne(rule, w, Other(R.Die(1)));
    var d := Step(w, Other(R.Die(1)));
    t := RemovesForeign(rule, d);
    LeadsThen(rule, w, [Other(R.Die(1))], d, 0, [Other(R.Step(0))], t, 0);
    SpoiltNow(t, MINE);
  }

  lemma RemovableAfter(w: World)
    requires Removing(w)
    ensures Configurable(w, 1, Of(0, 0)) && Removable(Configured(w, 1, Of(0, 0)))
  {
    Reconfigured(w, 0);
  }

  lemma RemoveEither(rule: Rule, w: World, taken: bool) returns (t: World)
    requires Removable(w) && R.Situation(R.Remove, taken, R.Foreign) in rule.places
    ensures Leads(rule, w, AfterRemove(taken), t, 0) && Spoilt(t)
  {
    if taken {
      t := RemoveTaken(rule, w);
    } else {
      t := RemoveLeft(rule, w);
    }
  }

  lemma RemoveReady(rule: Rule) returns (w: World, start: World)
    requires LetsCommit(rule.places)
    ensures Leads(rule, START, BeforeRemove(), w, 1) && !W.Owed(w.phase) && Makes(w, 1, Of(0, 0), start) && Removable(start)
  {
    w := RemoveBegins(rule);
    RemovableAfter(w);
    MakesIt(w, 1, Of(0, 0));
    start := Configured(w, 1, Of(0, 0));
  }

  lemma RemoveSpoils(rule: Rule, taken: bool)
    requires LetsCommit(rule.places) && R.Situation(R.Remove, taken, R.Foreign) in rule.places
    ensures Spoils(rule, BeforeRemove(), AfterRemove(taken))
  {
    var w, start := RemoveReady(rule);
    RemoveEnds(taken);
    var t := RemoveEither(rule, start, taken);
    ItSpoils(rule, BeforeRemove(), w, 1, start, AfterRemove(taken), t);
  }

  /** Process 1 finds its record gone, has nothing to replay, and leaves. */
  lemma FindsNothing(rule: Rule, a: World) returns (t: World)
    requires a.phase.Idle? && a.store.lock == R.Held(1) && a.store.disk.prepared.None? && a.readings.Keys <= {0, 1}
    requires a.store.handles.Keys <= {0, 1} && 1 in a.store.handles && a.store.handles[1].Reading?
    requires |a.strays| == 1 && a.strays[0].p == 0
    requires View(a.store.disk.files) == W.Disk(Some(MINE), map["a" := W.Job(Some(""), W.Failed)], None)
    ensures Leads(rule, a, [Other(R.Read(1))] + [Other(R.Release(1))], t, 0) && Spoilt(t)
  {
    LeadsOne(rule, a, Other(R.Read(1)));
    var b := Step(a, Other(R.Read(1)));
    t := Releases(rule, b, 1);
    LeadsThen(rule, a, [Other(R.Read(1))], b, 0, [Other(R.Release(1))], t, 0);
    SpoiltNow(t, MINE);
  }

  lemma RemoveEnds(taken: bool)
    ensures Ending(AfterRemove(taken))
  {
    EndingMoves(0);
    EndingMoves(1);
    EndingThen([Other(R.Read(1))], [Other(R.Release(1))]);
    EndingThen([Other(R.Step(0))], [Other(R.Read(1))] + [Other(R.Release(1))]);
    EndingThen([Other(R.Die(1))], [Other(R.Step(0))]);
  }

  // ---------------------------------------------------------------- to write over another revision

  /** The stray tick notes its job, completes the commit, and passes its check. */
  function Checking(): seq<Move> {
    ([Note(0)] + ([Other(R.Read(0))] + [Other(R.Step(0))])) + ([Other(R.Step(0))] + [Check(0)])
  }

  /** It has passed its check, and nothing is pending. */
  ghost predicate Checked0(w: World) {
    && w.store.lock == R.Free && w.store.disk.prepared.None? && w.readings.Keys <= {0, 1}
    && w.store.handles.Keys <= {0, 1} && 0 in w.store.handles && w.store.handles[0].Idle?
    && (1 in w.store.handles ==> w.store.handles[1].Idle?)
    && w.strays == [Stray(0, "a", Some(""), MINE, Passed)] && w.phase.Idle?
    && View(w.store.disk.files) == W.Disk(Some(MINE), map["a" := W.Job(Some(""), W.Failed)], None)
  }

  lemma Checks(rule: Rule, w: World) returns (t: World)
    requires Astray0(w) && LetsCommit(rule.places)
    ensures Leads(rule, w, Checking(), t, 0) && Checked0(t)
  {
    var a := Notes(rule, w);
    var b := FillsNote(rule, a);
    NotedView(w.store.disk.files, MINE);
    t := ChecksAfter(rule, b);
    LeadsThen(rule, w, [Note(0)], a, 0, [Other(R.Read(0))] + [Other(R.Step(0))], b, 0);
    LeadsThen(rule, w, [Note(0)] + ([Other(R.Read(0))] + [Other(R.Step(0))]), b, 0, [Other(R.Step(0))] + [Check(0)], t, 0);
  }

  lemma ChecksAfter(rule: Rule, b: World) returns (t: World)
    requires Noting(b) && LetsCommit(rule.places) && b.strays == [Stray(0, "a", Some(""), MINE, Told)]
    requires b.store.handles[0] == R.Replaying(b.store.stamp, [NOTED], 1)
    requires View(b.store.disk.files) == W.Disk(Some(MINE), map["a" := W.Job(Some(""), W.Failed)], None)
    ensures Leads(rule, b, [Other(R.Step(0))] + [Check(0)], t, 0) && Checked0(t)
  {
    assert R.SituationOf(b.store, R.Step(0)) == R.Situation(R.Remove, false, R.Mine);
    LeadsOne(rule, b, Other(R.Step(0)));
    var c := Step(b, Other(R.Step(0)));
    LeadsMore(rule, b, [Other(R.Step(0))], c, 0, Check(0));
    t := Step(c, Check(0));
    assert t.strays == [Stray(0, "a", Some(""), MINE, Passed)];
  }

  /** Another tick is in its inference, the stray one puts its older configuration back, and process 1 looks. */
  function BeforePut(): seq<Move> {
    Losing() + (Checking() + (Lifted(2, 3, W.Head("b")) + (Putting() + (Opening(1) + [Look(1)]))))
  }

  function Putting(): seq<Move> {
    [Put(0)] + (([Other(R.Read(0))] + [Other(R.Step(0))]) + [Other(R.Step(0))])
  }

  /** The configuration that comes next has the revision of the other tick, which takes it for its own. */
  function AfterPut(): seq<Move> {
    (Replay(1) + [Other(R.Release(1))]) + Lifted(2, 3, W.Tail())
  }

  /** The other tick is in its inference. */
  ghost predicate Running(w: World) {
    && Calm(w, 2, 3) && w.phase == W.Inferring("b", Some(""), Of(3, 3)) && w.readings.Keys <= {0, 1, 2, 3}
    && 0 in w.store.handles && w.store.handles[0].Idle? && (1 in w.store.handles ==> w.store.handles[1].Idle?)
    && w.store.disk.prepared.None? && !Astray(w, 1)
    && View(w.store.disk.files).jobs == map["a" := W.Job(Some(""), W.Failed), "b" := W.Job(Some(""), W.Running)]
  }

  lemma RunsBeside(rule: Rule, w: World) returns (t: World)
    requires Checked0(w)
    ensures Leads(rule, w, Lifted(2, 3, W.Head("b")), t, 1) && Running(t) && t.strays == w.strays
    ensures ConfigOn(t.store.disk.files) == Of(3, 3)
  {
    assert "b"[0] != "a"[0];
    assert Ready(Seen(w), 4);
    t := Starts(rule, w, 2, 3, "b", 4);
    SecondJob(Seen(w));
  }

  lemma SecondJob(s: W.State)
    requires s.disk == W.Disk(Some(MINE), map["a" := W.Job(Some(""), W.Failed)], None)
    ensures Started(s, "b").disk == W.Disk(Some(Of(3, 3)), map["a" := W.Job(Some(""), W.Failed), "b" := W.Job(Some(""), W.Running)], None)
    ensures Started(s, "b").phase == W.Inferring("b", Some(""), Of(3, 3))
  {
    assert s.disk.jobs["b" := W.Job(Some(""), W.Running)] == map["a" := W.Job(Some(""), W.Failed), "b" := W.Job(Some(""), W.Running)];
  }

  lemma MayPut(rule: Rule, w: World)
    requires w.strays == [Stray(0, "a", Some(""), MINE, Passed)] && w.store.lock == R.Free && w.store.disk.prepared.None?
    requires 0 in w.store.handles && w.store.handles[0].Idle? && LetsCommit(rule.places) && OverOf(w, 0) in rule.overs
    ensures Enabled(w, Put(0)) && Permits(rule, w, Put(0))
  {
    var e: R.Event<Key, Value> := R.Commit(0, PutOf(w.strays[0]));
    assert R.SituationOf(w.store, e) == R.Situation(R.Write, false, R.Nothing);
  }

  /** The stray tick writes its configuration, with nothing pending and the lock free. */
  lemma Puts(rule: Rule, w: World) returns (t: World)
    requires w.strays == [Stray(0, "a", Some(""), MINE, Passed)] && w.store.lock == R.Free && w.store.disk.prepared.None?
    requires 0 in w.store.handles && w.store.handles[0].Idle? && LetsCommit(rule.places) && OverOf(w, 0) in rule.overs
    ensures Leads(rule, w, [Put(0)], t, 0)
    ensures t.store.disk == S.Disk(w.store.disk.files, Some([(WatchKey, WatchValue(Stopped(MINE)))]))
    ensures t == w.(store := t.store, strays := []) && t.store.lock == R.Free && t.store.handles == w.store.handles[0 := R.Reading]
  {
    MayPut(rule, w);
    LeadsOne(rule, w, Put(0));
    t := PutStep(w);
  }

  lemma PutStep(w: World) returns (t: World)
    requires w.strays == [Stray(0, "a", Some(""), MINE, Passed)] && w.store.lock == R.Free && Enabled(w, Put(0))
    ensures t == Step(w, Put(0)) && t == w.(store := t.store, strays := [])
    ensures t.store.disk == S.Disk(w.store.disk.files, Some([(WatchKey, WatchValue(Stopped(MINE)))]))
    ensures t.store.lock == R.Free && t.store.handles == w.store.handles[0 := R.Reading]
  {
    t := Step(w, Put(0));
    assert Without(w.strays, 0) == [];
  }

  /** It completes that commit. */
  lemma PutsDown(rule: Rule, w: World) returns (t: World)
    requires w.store.lock == R.Free && w.store.disk.prepared == Some([(WatchKey, WatchValue(Stopped(MINE)))])
    requires 0 in w.store.handles && w.store.handles[0].Reading? && LetsCommit(rule.places)
    ensures Leads(rule, w, ([Other(R.Read(0))] + [Other(R.Step(0))]) + [Other(R.Step(0))], t, 0)
    ensures t == w.(store := t.store) && t.store.lock == R.Free && t.store.handles == w.store.handles[0 := R.Idle]
    ensures t.store.disk == S.Disk(w.store.disk.files[WatchKey := WatchValue(Stopped(MINE))], None)
  {
    LeadsOne(rule, w, Other(R.Read(0)));
    var a := Step(w, Other(R.Read(0)));
    assert R.SituationOf(a.store, R.Step(0)) == R.Situation(R.Fill, false, R.Mine);
    LeadsMore(rule, w, [Other(R.Read(0))], a, 0, Other(R.Step(0)));
    var b := Step(a, Other(R.Step(0)));
    assert R.SituationOf(b.store, R.Step(0)) == R.Situation(R.Remove, false, R.Mine);
    LeadsMore(rule, w, [Other(R.Read(0))] + [Other(R.Step(0))], b, 0, Other(R.Step(0)));
    t := Step(b, Other(R.Step(0)));
  }

  lemma PutsBeside(rule: Rule, w: World) returns (t: World)
    requires Running(w) && w.strays == [Stray(0, "a", Some(""), MINE, Passed)] && ConfigOn(w.store.disk.files) == Of(3, 3)
    requires LetsCommit(rule.places) && Beside in rule.overs
    ensures Leads(rule, w, Putting(), t, 0) && Running(t) && t.strays == [] && ConfigOn(t.store.disk.files) == Stopped(MINE)
  {
    var a := Puts(rule, w);
    t := PutsDown(rule, a);
    LeadsThen(rule, w, [Put(0)], a, 0, ([Other(R.Read(0))] + [Other(R.Step(0))]) + [Other(R.Step(0))], t, 0);
    ViewOfWatch(w.store.disk.files, Stopped(MINE));
  }

  /** Process 1 has written a configuration of no job, whose revision is that of the tick in its inference. */
  ghost predicate Mistaken(w: World) {
    && w.phase == W.Inferring("b", Some(""), Of(3, 3)) && w.ticker == 2 && w.strays == [] && w.readings.Keys <= {0, 2, 3}
    && w.store.lock == R.Held(1) && w.store.disk.prepared == Some([(WatchKey, WatchValue(Of(3, 0)))])
    && 1 in w.store.handles && w.store.handles[1].Reading? && 2 in w.store.handles && w.store.handles[2].Idle?
    && (3 in w.store.handles ==> w.store.handles[3].Idle?) && 2 !in w.readings
    && View(w.store.disk.files).jobs == map["a" := W.Job(Some(""), W.Failed), "b" := W.Job(Some(""), W.Running)]
  }

  lemma PutBegins(rule: Rule) returns (w: World, start: World)
    requires LetsCommit(rule.places) && Beside in rule.overs
    ensures Leads(rule, START, BeforePut(), w, 2) && !W.Owed(w.phase) && Makes(w, 1, Of(0, 0), start) && Mistaken(start)
  {
    var l := Loses(rule);
    var c := Checks(rule, l);
    w, start := PutFollows(rule, c);
    Join3(rule, START, Losing(), l, 1, Checking(), c, 0, Lifted(2, 3, W.Head("b")) + (Putting() + (Opening(1) + [Look(1)])), w, 1);
  }

  lemma PutFollows(rule: Rule, c: World) returns (w: World, start: World)
    requires Checked0(c) && LetsCommit(rule.places) && Beside in rule.overs
    ensures Leads(rule, c, Lifted(2, 3, W.Head("b")) + (Putting() + (Opening(1) + [Look(1)])), w, 1) && !W.Owed(w.phase)
    ensures Makes(w, 1, Of(0, 0), start) && Mistaken(start)
  {
    var b := RunsBeside(rule, c);
    w, start := PutThen(rule, b);
    LeadsThen(rule, c, Lifted(2, 3, W.Head("b")), b, 1, Putting() + (Opening(1) + [Look(1)]), w, 0);
  }

  lemma PutThen(rule: Rule, b: World) returns (w: World, start: World)
    requires Running(b) && b.strays == [Stray(0, "a", Some(""), MINE, Passed)] && ConfigOn(b.store.disk.files) == Of(3, 3)
    requires LetsCommit(rule.places) && Beside in rule.overs
    ensures Leads(rule, b, Putting() + (Opening(1) + [Look(1)]), w, 0) && !W.Owed(w.phase)
    ensures Makes(w, 1, Of(0, 0), start) && Mistaken(start)
  {
    var a := PutsBeside(rule, b);
    w := Ponders1(rule, a);
    LeadsThen(rule, b, Putting(), a, 0, Opening(1) + [Look(1)], w, 0);
    Mistakes(a, w);
    MakesIt(w, 1, Of(0, 0));
    start := Configured(w, 1, Of(0, 0));
  }

  /** Process 1 holds the lock and has read the configuration, beside a tick in its inference. */
  lemma Ponders1(rule: Rule, w: World) returns (t: World)
    requires Running(w)
    ensures Leads(rule, w, Opening(1) + [Look(1)], t, 0)
    ensures t == w.(store := w.store.(lock := R.Held(1), handles := w.store.handles[1 := R.Idle]),
                    readings := (w.readings - {1})[1 := View(w.store.disk.files)])
  {
    var a := Opens(rule, w, 1);
    t := Looks(rule, a, 1);
    LeadsThen(rule, w, Opening(1), a, 0, [Look(1)], t, 0);
  }

  lemma Mistakes(a: World, w: World)
    requires Running(a) && a.strays == [] && ConfigOn(a.store.disk.files) == Stopped(MINE)
    requires w == a.(store := a.store.(lock := R.Held(1), handles := a.store.handles[1 := R.Idle]),
                     readings := (a.readings - {1})[1 := View(a.store.disk.files)])
    ensures Configurable(w, 1, Of(0, 0)) && Mistaken(Configured(w, 1, Of(0, 0)))
  {
    OfIsValid(Known(w, 1).disk, 0, 0);
  }

  lemma TailIsPlain()
    ensures AllPlain(W.Tail()) && W.Quiet(W.Tail())
  {
    assert W.Tail() == [W.Return(true), W.Finish, W.Close];
  }

  lemma TailEnds()
    ensures Ending(Lifted(2, 3, W.Tail()))
  {
    EndingMoves(2);
    assert W.Tail() == [W.Return(true), W.Finish, W.Close];
    var two := [W.Return(true), W.Finish];
    assert W.Tail()[..2] == two && two[..1] == [W.Return(true)] && [W.Return(true)][..0] == [];
    assert Lifted(2, 3, []) == [];
    EndingThen(Opening(2), [Act(2, W.Return(true))]);
    EndingThen([], Lift(2, 3, W.Return(true)));
    assert Lifted(2, 3, [W.Return(true)]) == [] + Lift(2, 3, W.Return(true));
    EndingThen([Act(2, W.Finish)], Replay(2));
    EndingThen(Lifted(2, 3, [W.Return(true)]), Lift(2, 3, W.Finish));
    assert Lifted(2, 3, two) == Lifted(2, 3, [W.Return(true)]) + Lift(2, 3, W.Finish);
    CloseEnds();
    EndingThen(Lifted(2, 3, two), Lift(2, 3, W.Close));
    assert Lifted(2, 3, W.Tail()) == Lifted(2, 3, two) + Lift(2, 3, W.Close);
  }

  lemma CloseEnds()
    ensures Ending(Lift(2, 3, W.Close))
  {
    EndingMoves(2);
    EndingThen([Act(2, W.Close)], Replay(2));
    EndingThen([Look(2)], [Act(2, W.Close)] + Replay(2));
    EndingThen([Look(2)] + ([Act(2, W.Close)] + Replay(2)), [Other(R.Release(2))]);
  }

  /** The other tick ends, and its allowance is stored again. */
  lemma AllowanceComesBack(rule: Rule, w: World) returns (t: World)
    requires Calm(w, 2, 3) && w.phase == W.Inferring("b", Some(""), Of(3, 3)) && View(w.store.disk.files).watch == Some(Of(3, 0))
    requires View(w.store.disk.files).jobs == map["a" := W.Job(Some(""), W.Failed), "b" := W.Job(Some(""), W.Running)]
    ensures Leads(rule, w, Lifted(2, 3, W.Tail()), t, 0) && Spoilt(t)
  {
    W.TailRuns(Seen(w));
    TailIsPlain();
    t := LiftRun(rule, w, 2, 3, W.Tail());
    TakesItForItsOwn(Seen(w));
  }

  lemma TakesItForItsOwn(s: W.State)
    requires s.phase == W.Inferring("b", Some(""), Of(3, 3)) && s.disk.watch == Some(Of(3, 0))
    requires s.disk.jobs == map["a" := W.Job(Some(""), W.Failed), "b" := W.Job(Some(""), W.Running)]
    ensures Ready(W.Ended(s, true), 3) && "c" !in W.Ended(s, true).disk.jobs
  {
    var d := W.WithJob(s.disk, "b", W.Job(Some(""), W.Completed));
    assert d.jobs == map["a" := W.Job(Some(""), W.Failed), "b" := W.Job(Some(""), W.Completed)];
    assert W.Ended(s, true).disk == W.Closed(d, Of(3, 3), true);
    assert "c"[0] != "a"[0] && "c"[0] != "b"[0];
  }

  lemma PutGoesOn(rule: Rule, w: World) returns (t: World)
    requires Mistaken(w)
    ensures Leads(rule, w, AfterPut(), t, 0) && Spoilt(t)
  {
    var a := Replays(rule, w, 1, WatchKey, WatchValue(Of(3, 0)));
    OverlayOne(w.store.disk.files, WatchKey, WatchValue(Of(3, 0)));
    ViewOfWatch(w.store.disk.files, Of(3, 0));
    var b := Releases(rule, a, 1);
    LeadsThen(rule, w, Replay(1), a, 0, [Other(R.Release(1))], b, 0);
    t := AllowanceComesBack(rule, b);
    LeadsThen(rule, w, Replay(1) + [Other(R.Release(1))], b, 0, Lifted(2, 3, W.Tail()), t, 0);
  }

  lemma PutSpoils(rule: Rule)
    requires LetsCommit(rule.places) && Beside in rule.overs
    ensures Spoils(rule, BeforePut(), AfterPut())
  {
    var w, start := PutBegins(rule);
    var t := PutGoesOn(rule, start);
    EndingMoves(1);
    TailEnds();
    EndingThen(Replay(1), [Other(R.Release(1))]);
    EndingThen(Replay(1) + [Other(R.Release(1))], Lifted(2, 3, W.Tail()));
    ItSpoils(rule, BeforePut(), w, 2, start, AfterPut(), t);
  }

  // ---------------------------------------------------------------- exactly when the budget survives

  /** A run from the empty store, a configuration or new settings, and a run without another one. */
  ghost predicate Episode(rule: Rule, before: seq<Move>, p: nat, e: W.Event, after: seq<Move>) {
    && Run(START, before).Some? && Obeys(rule, START, before) && Enabled(Run(START, before).value, Act(p, e)) && W.Reconfigures(e)
    && var start := Step(Run(START, before).value, Act(p, e));
    && Run(start, after).Some? && Obeys(rule, start, after) && Quiet(after)
  }

  /** From every configuration of `k` jobs on, at most `k` calls, and one more for a job reserved before it. */
  ghost predicate Bounded(rule: Rule) {
    forall before, p, c: W.Config, after :: Episode(rule, before, p, W.Event.Configure(c), after) && !c.continuous ==>
      Calls(after) <= c.remaining + Owing(Seen(Run(START, before).value))
  }

  /** A configuration stays as it is until a tick begins or the next one comes. */
  ghost predicate ConfigStays(rule: Rule) {
    forall before, p, e, after :: Episode(rule, before, p, e, after) && Ending(after) ==>
      var start := Step(Run(START, before).value, Act(p, e));
      W.ConfigOf(Settled(Run(start, after).value)) == W.ConfigOf(Settled(start))
  }

  lemma StartIsGood()
    ensures Good(START) && CopiesAgree(START) && Firm(START) && Seated(START)
  {
    assert JobsOn(map[]) == map[];
    assert Solid(START.store);
  }

  /** Jobs that nobody configured can be spent. */
  lemma SpoiltSpends(rule: Rule, t: World) returns (u: World)
    requires Spoilt(t)
    ensures Leads(rule, t, Lifted(2, 3, W.Head("c")), u, 1) && Quiet(Lifted(2, 3, W.Head("c")))
  {
    var left: nat :| left > 1 && Ready(Seen(t), left);
    u := Starts(rule, t, 2, 3, "c", left);
  }

  lemma ItIsAnEpisode(
    rule: Rule, before: seq<Move>, w: World, n: nat, p: nat, c: W.Config, start: World, after: seq<Move>, t: World, m: nat)
    requires Leads(rule, START, before, w, n) && Makes(w, p, c, start) && Leads(rule, start, after, t, m) && Quiet(after)
    ensures Episode(rule, before, p, W.Event.Configure(c), after)
    ensures Run(START, before) == Some(w) && start == Configured(w, p, c)
    ensures Run(start, after) == Some(t) && Calls(after) == m
  {
    OneRuns(w, Act(p, W.Event.Configure(c)));
  }

  lemma NotBounded(rule: Rule, before: seq<Move>, p: nat, c: W.Config, after: seq<Move>)
    requires Episode(rule, before, p, W.Event.Configure(c), after) && !c.continuous
    requires Calls(after) > c.remaining + Owing(Seen(Run(START, before).value))
    ensures !Bounded(rule)
  {
  }

  lemma DoesNotStay(rule: Rule, before: seq<Move>, p: nat, e: W.Event, after: seq<Move>)
    requires Episode(rule, before, p, e, after) && Ending(after)
    requires var start := Step(Run(START, before).value, Act(p, e));
             W.ConfigOf(Settled(Run(start, after).value)) != W.ConfigOf(Settled(start))
    ensures !ConfigStays(rule)
  {
  }

  /** What a configuration leaves, once it is replayed. */
  lemma ConfiguredSettles(w: World, k: nat, start: World)
    requires Makes(w, 1, Of(0, k), start)
    ensures W.ConfigOf(Settled(start)).remaining == k
  {
    OneRuns(w, Act(1, W.Event.Configure(Of(0, k))));
    SettlesTo(w, k);
  }

  lemma SettlesTo(w: World, k: nat)
    requires Configurable(w, 1, Of(0, k))
    ensures W.ConfigOf(Settled(Configured(w, 1, Of(0, k)))).remaining == k
  {
    CommittedConfig(w.store.disk.files, Known(w, 1), W.Event.Configure(Of(0, k)));
  }

  lemma SpoilsBudget(rule: Rule, before: seq<Move>, after: seq<Move>)
    requires Spoils(rule, before, after)
    ensures Episode(rule, before, 1, W.Event.Configure(Of(0, 0)), after + Lifted(2, 3, W.Head("c"))) && Calls(after + Lifted(2, 3, W.Head("c"))) == 1
    ensures !Bounded(rule)
  {
    var w := Run(START, before).value;
    var start, t :| Makes(w, 1, Of(0, 0), start) && Leads(rule, start, after, t, 0) && Spoilt(t);
    var u := SpoiltSpends(rule, t);
    LeadsThen(rule, start, after, t, 0, Lifted(2, 3, W.Head("c")), u, 1);
    QuietThen(after, Lifted(2, 3, W.Head("c")));
    ItIsAnEpisode(rule, before, w, Calls(before), 1, Of(0, 0), start, after + Lifted(2, 3, W.Head("c")), u, 1);
    NotBounded(rule, before, 1, Of(0, 0), after + Lifted(2, 3, W.Head("c")));
  }

  lemma SpoiltAllowance(t: World)
    requires Spoilt(t)
    ensures W.ConfigOf(Settled(t)).remaining > 1
  {
  }

  lemma SpoilsConfig(rule: Rule, before: seq<Move>, after: seq<Move>)
    requires Spoils(rule, before, after)
    ensures !ConfigStays(rule)
  {
    var w := Run(START, before).value;
    var start, t :| Makes(w, 1, Of(0, 0), start) && Leads(rule, start, after, t, 0) && Spoilt(t);
    ConfiguredSettles(w, 0, start);
    SpoiltAllowance(t);
    ItIsAnEpisode(rule, before, w, Calls(before), 1, Of(0, 0), start, after, t, 0);
    DoesNotStay(rule, before, 1, W.Event.Configure(Of(0, 0)), after);
  }

  /**
    What a configuration over another revision beside a tick in progress does: the next configuration, of no job,
    has the revision of that tick, which takes it for its own and restores its allowance. One call follows although
    none is allowed and none is owed.
   */
  lemma LostLockBreaksBudget(rule: Rule)
    requires LetsCommit(rule.places) && Beside in rule.overs
    ensures Episode(rule, BeforePut(), 1, W.Event.Configure(Of(0, 0)), AfterPut() + Lifted(2, 3, W.Head("c")))
    ensures Calls(AfterPut() + Lifted(2, 3, W.Head("c"))) == 1 && !W.Owed(Run(START, BeforePut()).value.phase)
  {
    PutSpoils(rule);
    SpoilsBudget(rule, BeforePut(), AfterPut());
  }

  /** Every bad place has its run. */
  lemma BadPlaceSpoils(rule: Rule, s: R.Situation)
    requires LetsCommit(rule.places) && s in rule.places && !Bearable(s)
    ensures exists before, after :: Spoils(rule, before, after)
  {
    match s.move
    case Write => WriteSpoils(rule, s.taken);
    case Fill => FillSpoils(rule, s.taken, s.record == R.Foreign);
    case Remove => RemoveSpoils(rule, s.taken);
  }

  /** The stray tick has passed its check when process 1 configures, and puts its own copy back. */
  lemma AsideLosesConfig(rule: Rule)
    requires LetsCommit(rule.places) && Aside in rule.overs
    ensures !ConfigStays(rule)
  {
    var l := Loses(rule);
    var c := Checks(rule, l);
    var w := Ponders(rule, c);
    Join3(rule, START, Losing(), l, 1, Checking(), c, 0, Opening(1) + [Look(1)], w, 0);
    AsideFrom(rule, c, w, Losing() + (Checking() + (Opening(1) + [Look(1)])));
  }

  lemma AsideFrom(rule: Rule, c: World, w: World, before: seq<Move>)
    requires LetsCommit(rule.places) && Aside in rule.overs && Leads(rule, START, before, w, 1) && Checked0(c)
    requires w == c.(store := c.store.(lock := R.Held(1), handles := c.store.handles[1 := R.Idle]),
                     readings := (c.readings - {1})[1 := View(c.store.disk.files)])
    ensures !ConfigStays(rule)
  {
    Reconfigured(w, 0);
    MakesIt(w, 1, Of(0, 0));
    var start := Configured(w, 1, Of(0, 0));
    var t := PutsAside(rule, start);
    ConfiguredSettles(w, 0, start);
    EndingMoves(1);
    EndingThen(Replay(1), [Other(R.Release(1))]);
    EndingThen(Replay(1) + [Other(R.Release(1))], [Put(0)]);
    ItIsAnEpisode(rule, before, w, 1, 1, Of(0, 0), start, (Replay(1) + [Other(R.Release(1))]) + [Put(0)], t, 0);
    DoesNotStay(rule, before, 1, W.Event.Configure(Of(0, 0)), (Replay(1) + [Other(R.Release(1))]) + [Put(0)]);
  }

  lemma PutsAside(rule: Rule, w: World) returns (t: World)
    requires LetsCommit(rule.places) && Aside in rule.overs && w.phase.Idle? && w.store.lock == R.Held(1)
    requires w.store.disk.prepared == Some([(WatchKey, WatchValue(Of(3, 0)))]) && 1 in w.store.handles && w.store.handles[1].Reading?
    requires 0 in w.store.handles && w.store.handles[0].Idle? && w.strays == [Stray(0, "a", Some(""), MINE, Passed)]
    ensures Leads(rule, w, (Replay(1) + [Other(R.Release(1))]) + [Put(0)], t, 0) && W.ConfigOf(Settled(t)).remaining == 4
  {
    var a := Replays(rule, w, 1, WatchKey, WatchValue(Of(3, 0)));
    OverlayOne(w.store.disk.files, WatchKey, WatchValue(Of(3, 0)));
    ViewOfWatch(w.store.disk.files, Of(3, 0));
    var b := Releases(rule, a, 1);
    LeadsThen(rule, w, Replay(1), a, 0, [Other(R.Release(1))], b, 0);
    t := Puts(rule, b);
    LeadsThen(rule, w, Replay(1) + [Other(R.Release(1))], b, 0, [Put(0)], t, 0);
    OverlayOne(b.store.disk.files, WatchKey, WatchValue(Stopped(MINE)));
    ViewOfWatch(b.store.disk.files, Stopped(MINE));
  }

  /**
    The exact condition for the budget. Take any rule that lets handles without the lock carry out a commit of
    their own while the lock is free. The bound on extractor calls holds for all runs, from every configuration to
    the next one, if and only if such handles begin a commit only while no record of others is pending, fill in files
    only while the record they replay is the pending one, remove no record of others, and no stray tick writes over
    another revision than the checked one beside a tick in progress.
   */
  lemma LostLocksIff(rule: Rule)
    requires LetsCommit(rule.places)
    ensures Bounded(rule) <==> Careful(rule.places) && Beside !in rule.overs
  {
    if !Careful(rule.places) {
      var s :| s in rule.places && !Bearable(s);
      BadPlaceSpoils(rule, s);
      var before, after :| Spoils(rule, before, after);
      SpoilsBudget(rule, before, after);
    } else if Beside in rule.overs {
      PutSpoils(rule);
      SpoilsBudget(rule, BeforePut(), AfterPut());
    } else {
      forall before, p, c: W.Config, after | Episode(rule, before, p, W.Event.Configure(c), after) && !c.continuous
        ensures Calls(after) <= c.remaining + Owing(Seen(Run(START, before).value))
      {
        StartIsGood();
        RunKeeps(rule, START, before);
        BudgetNeverExceeded(rule, Run(START, before).value, p, c, after);
      }
    }
  }

  /**
    The exact condition for a configuration to stay. One that comes during an inference wins over every tick
    under way, with its lock or without, if and only if handles without the lock are as careful and stray ticks write
    over the checked revision only.
   */
  lemma ConfigStaysIff(rule: Rule)
    requires LetsCommit(rule.places)
    ensures ConfigStays(rule) <==> Careful(rule.places) && Aside !in rule.overs && Beside !in rule.overs
  {
    if !Careful(rule.places) {
      var s :| s in rule.places && !Bearable(s);
      BadPlaceSpoils(rule, s);
      var before, after :| Spoils(rule, before, after);
      SpoilsConfig(rule, before, after);
    } else if Beside in rule.overs {
      PutSpoils(rule);
      SpoilsConfig(rule, BeforePut(), AfterPut());
    } else if Aside in rule.overs {
      AsideLosesConfig(rule);
    } else {
      forall before, p, e, after | Episode(rule, before, p, e, after) && Ending(after)
        ensures var start := Step(Run(START, before).value, Act(p, e));
                W.ConfigOf(Settled(Run(start, after).value)) == W.ConfigOf(Settled(start))
      {
        ConfigurationStays(rule, before, p, e, after);
      }
    }
  }

  lemma ConfigurationStays(rule: Rule, before: seq<Move>, p: nat, e: W.Event, after: seq<Move>)
    requires Episode(rule, before, p, e, after) && Ending(after)
    requires Careful(rule.places) && Aside !in rule.overs && Beside !in rule.overs
    ensures var start := Step(Run(START, before).value, Act(p, e));
            W.ConfigOf(Settled(Run(start, after).value)) == W.ConfigOf(Settled(start))
  {
    assert forall o: Over :: o in rule.overs ==> o == Checked;
    StartIsGood();
    AllowanceNeverRises(rule, START, before);
    var w := Run(START, before).value;
    var start := Step(w, Act(p, e));
    NewConfiguration(w, p, e);
    NewerConfigStays(rule, start, W.ConfigOf(Settled(start)), after);
  }

  /** A configuration is newer than every copy. */
  lemma NewConfiguration(w: World, p: nat, e: W.Event)
    requires CopiesAgree(w) && Enabled(w, Act(p, e)) && W.Reconfigures(e)
    ensures Outdated(Step(w, Act(p, e)), W.ConfigOf(Settled(Step(w, Act(p, e)))))
  {
    ConfiguredStored(w, p, e);
    KnownIsPossible(w, p);
    OlderThanNew(w, p, e, W.ConfigOf(Known(w, p).disk));
  }

  lemma OlderThanNew(w: World, p: nat, e: W.Event, c: W.Config)
    requires Enabled(w, Act(p, e)) && W.Reconfigures(e) && CopyAgrees(Seen(w), c) && StraysAgree(w.strays, c)
    ensures var t := Step(w, Act(p, e)); forall d: W.Config :: d.revision == c.revision + 1 ==> OlderCopies(t.phase, t.strays, d)
  {
  }

  // ---------------------------------------------------------------- a reservation is lost

  /** Five jobs are configured from the empty store. */
  function BeforeSix(): seq<Move> {
    Opening(1) + [Look(1)]
  }

  /**
    The tick of the first job loses its lock, and the job is recovered as interrupted. A second tick begins, and
    the note of the first one replaces the record of its reservation. The second tick calls the extractor all the
    same, and four more follow.
   */
  function SixCalls(): seq<Move> {
    (Replay(1) + [Other(R.Release(1))]) + ((Lifted(0, 1, W.Head("a")) + [Lose]) + AfterLoss())
  }

  function AfterLoss(): seq<Move> {
    Lifted(2, 1, Second()) + (Reserving() + Lifted(2, 1, Rest()))
  }

  function Reserving(): seq<Move> {
    [Act(2, W.Reserve)] + ([Note(0)] + Replay(2))
  }

  function Second(): seq<W.Event> {
    [W.Work("a", W.Interrupted)] + ([W.Begin("b", "", {})] + [W.Mark])
  }

  const IDS := ["c", "d", "e", "f"]

  function Rest(): seq<W.Event> {
    ([W.Unlock] + [W.Call]) + (W.Tail() + W.Ticks(IDS))
  }

  /** Process 1 has opened the empty store and looked. */
  ghost predicate FiveLooking(w: World) {
    && w.store.disk == S.Disk(map[], None) && w.phase.Idle? && w.strays == [] && w.store.lock == R.Held(1)
    && w.store.handles == map[1 := R.Idle] && w.readings.Keys == {1} && w.readings[1] == View(w.store.disk.files)
  }

  lemma FiveLooks(rule: Rule) returns (w: World)
    ensures Leads(rule, START, BeforeSix(), w, 0) && FiveLooking(w)
  {
    w := Ponders(rule, START);
    assert START.store.handles == map[] && START.readings == map[];
    assert w.store.handles == map[1 := R.Idle];
  }

  /** The first configuration is written. */
  ghost predicate FiveWritten(w: World) {
    && w.store.disk == S.Disk(map[], Some([(WatchKey, WatchValue(Of(1, 5)))])) && w.phase.Idle? && w.strays == []
    && w.store.lock == R.Held(1) && w.store.handles == map[1 := R.Reading] && w.readings.Keys <= {1}
  }

  lemma EmptyConfig(files: Files)
    requires files == map[]
    ensures ConfigOn(files).revision == 0
  {
  }

  lemma FiveCommits(w: World)
    requires FiveLooking(w)
    ensures Configurable(w, 1, Of(0, 5)) && FiveWritten(Configured(w, 1, Of(0, 5)))
  {
    EmptyConfig(w.store.disk.files);
    Reconfigured(w, 5);
    FiveIsWritten(w, Configured(w, 1, Of(0, 5)));
  }

  lemma FiveMade(rule: Rule) returns (w: World, start: World)
    ensures Leads(rule, START, BeforeSix(), w, 0) && !W.Owed(w.phase) && Makes(w, 1, Of(0, 5), start) && FiveWritten(start)
  {
    w := FiveLooks(rule);
    FiveCommits(w);
    MakesIt(w, 1, Of(0, 5));
    start := Configured(w, 1, Of(0, 5));
  }

  lemma FiveIsWritten(w: World, t: World)
    requires w.store.disk.files == map[] && w.strays == [] && w.store.handles == map[1 := R.Idle] && w.readings.Keys == {1}
    requires t.phase.Idle? && t.strays == w.strays && t.readings == w.readings - {1} && t.store.lock == R.Held(1)
    requires t.store.disk == S.Disk(w.store.disk.files, Some([(WatchKey, WatchValue(Of(1, 5)))]))
    requires t.store.handles == w.store.handles[1 := R.Reading]
    ensures FiveWritten(t)
  {
    assert t.store.handles == map[1 := R.Reading];
  }

  lemma FiveView()
    ensures View(S.Overlay(map[], [(WatchKey, WatchValue(Of(1, 5)))])) == W.Disk(Some(Of(1, 5)), map[], None)
  {
    OverlayOne(map[], WatchKey, WatchValue(Of(1, 5)));
    assert JobsOn(map[]) == map[];
    ViewOfWatch(map[], Of(1, 5));
  }

  lemma FiveStored(rule: Rule, w: World) returns (t: World)
    requires FiveWritten(w)
    ensures Leads(rule, w, Replay(1) + [Other(R.Release(1))], t, 0)
    ensures Calm(t, 0, 1) && Seen(t).disk == W.Disk(Some(Of(1, 5)), map[], None) && t.phase.Idle? && t.strays == []
    ensures t.store.handles.Keys <= {0, 1} && t.readings.Keys <= {0, 1}
  {
    var a := Replays(rule, w, 1, WatchKey, WatchValue(Of(1, 5)));
    t := Releases(rule, a, 1);
    LeadsThen(rule, w, Replay(1), a, 0, [Other(R.Release(1))], t, 0);
    FiveView();
  }

  /** The second tick, about to reserve. */
  function SecondMarked(s: W.State): W.State {
    s.(disk := s.disk.(jobs := map["a" := W.Job(Some(""), W.Interrupted), "b" := W.Job(Some(""), W.Running)]),
       phase := W.Marked("b", Some(""), MINE))
  }

  lemma SecondRuns(s: W.State)
    requires s.phase.Idle? && s.disk == W.Disk(Some(MINE), map["a" := W.Job(Some(""), W.Running)], None)
    ensures W.Run(s, Second()) == Some(SecondMarked(s)) && W.Calls(Second()) == 0 && AllPlain(Second()) && W.Quiet(Second())
  {
    var e1, e2 := W.Work("a", W.Interrupted), W.Begin("b", "", {});
    assert "b"[0] != "a"[0];
    var s1 := W.Step(s, e1);
    assert s1.disk.jobs == map["a" := W.Job(Some(""), W.Interrupted)];
    assert Bytes("b") <= 4;
    W.RunOne(s, e1);
    SecondBegins(s1);
    W.RunConcat(s, [e1], [e2] + [W.Mark]);
    W.CallsConcat([e1], [e2] + [W.Mark]);
  }

  lemma SecondBegins(s1: W.State)
    requires s1.phase.Idle? && s1.disk == W.Disk(Some(MINE), map["a" := W.Job(Some(""), W.Interrupted)], None)
    ensures var b := [W.Begin("b", "", {})] + [W.Mark];
            W.Run(s1, b) == Some(SecondMarked(s1)) && W.Calls(b) == 0
  {
    var e := W.Begin("b", "", {});
    assert "b"[0] != "a"[0];
    assert Bytes("b") <= 4;
    W.RunOne(s1, e);
    var s2 := W.Step(s1, e);
    W.RunOne(s2, W.Mark);
    W.RunConcat(s1, [e], [W.Mark]);
    W.CallsConcat([e], [W.Mark]);
    assert W.Step(s2, W.Mark).disk.jobs == map["a" := W.Job(Some(""), W.Interrupted), "b" := W.Job(Some(""), W.Running)];
  }

  /** The second tick writes its reservation, the note of the first one replaces it, and the second goes on with that. */
  lemma LosesReservation(rule: Rule, w: World) returns (t: World)
    requires Calm(w, 2, 1) && w.phase == W.Marked("b", Some(""), MINE) && R.Situation(R.Write, true, R.Foreign) in rule.places
    requires w.strays == [Stray(0, "a", Some(""), MINE, Lost)] && 0 in w.store.handles && w.store.handles[0].Idle?
    ensures Leads(rule, w, Reserving(), t, 0) && Calm(t, 2, 1)
    ensures Seen(t) == Seen(w).(disk := W.WithJob(Seen(w).disk, "a", W.Job(Some(""), W.Failed)), phase := W.Reserved("b", Some(""), Of(3, 3)))
  {
    var a := Reserves(rule, w);
    var b := NoteReplaces(rule, a, w.store.disk.files);
    t := Replays(rule, b, 2, NOTED.0, NOTED.1);
    Join3(rule, w, [Act(2, W.Reserve)], a, 0, [Note(0)], b, 0, Replay(2), t, 0);
    CalmBeside(t);
    ReservationGone(w, t);
  }

  lemma CalmBeside(t: World)
    requires t.phase.Reserved? && t.ticker == 2 && |t.strays| == 1 && t.strays[0].p == 0 && 2 !in t.readings
    requires t.store.lock == R.Held(2) && t.store.disk.prepared.None? && 2 in t.store.handles && t.store.handles[2].Idle?
    requires 1 in t.store.handles ==> t.store.handles[1].Idle?
    ensures Calm(t, 2, 1)
  {
  }

  /** The note is stored, and the reservation is not. */
  lemma ReservationGone(w: World, t: World)
    requires t == w.(store := t.store, strays := t.strays, phase := W.Reserved("b", Some(""), Of(3, 3)))
    requires t.store.disk == S.Disk(S.Overlay(w.store.disk.files, [NOTED]), None)
    ensures Seen(t) == Seen(w).(disk := W.WithJob(Seen(w).disk, "a", W.Job(Some(""), W.Failed)), phase := W.Reserved("b", Some(""), Of(3, 3)))
  {
    NotedJob(w.store.disk.files);
  }

  lemma NotedJob(files: Files)
    ensures View(S.Overlay(files, [NOTED])) == W.WithJob(View(files), "a", W.Job(Some(""), W.Failed))
  {
    OverlayOne(files, NOTED.0, NOTED.1);
    ViewOfJob(files, "a", W.Job(Some(""), W.Failed));
  }

  lemma Reserves(rule: Rule, w: World) returns (a: World)
    requires Calm(w, 2, 1) && w.phase == W.Marked("b", Some(""), MINE)
    ensures Leads(rule, w, [Act(2, W.Reserve)], a, 0)
    ensures a == w.(store := a.store, phase := W.Reserved("b", Some(""), Of(3, 3)))
    ensures a.store.disk.files == w.store.disk.files && a.store.disk.prepared.Some? && a.store.lock == R.Held(2)
    ensures a.store.handles == w.store.handles[2 := R.Reading]
  {
    OneRuns(w, Act(2, W.Reserve));
    a := Acted(rule, w, 2, W.Reserve);
    Prepares(w, 2, W.Reserve);
    ActStep(w, 2, W.Reserve);
    assert w.readings - {2} == w.readings;
  }

  /** A tick has reserved a job that is not in the stored configuration. */
  ghost predicate Unreserved(s: W.State) {
    && s.phase == W.Reserved("b", Some(""), Of(3, 3)) && s.disk.watch == Some(MINE)
    && s.disk.jobs == map["a" := W.Job(Some(""), W.Failed), "b" := W.Job(Some(""), W.Running)]
  }

  function Calling(s: W.State): W.State
    requires Unreserved(s)
  {
    W.Step(W.Step(s, W.Unlock), W.Call)
  }

  lemma CallsAnyway(s: W.State)
    requires Unreserved(s)
    ensures W.Run(s, [W.Unlock] + [W.Call]) == Some(Calling(s)) && W.Calls([W.Unlock] + [W.Call]) == 1
    ensures W.Ready(W.Ended(Calling(s), true)) && W.ConfigOf(W.Ended(Calling(s), true).disk).remaining == 4
    ensures W.Ended(Calling(s), true).disk.jobs.Keys == {"a", "b"}
  {
    W.RunOne(s, W.Unlock);
    W.RunOne(W.Step(s, W.Unlock), W.Call);
    W.RunConcat(s, [W.Unlock], [W.Call]);
    W.CallsConcat([W.Unlock], [W.Call]);
  }

  lemma IdsAreFresh(d: W.Disk)
    requires d.jobs.Keys == {"a", "b"}
    ensures W.Fresh(d, IDS)
  {
    assert forall i :: 0 <= i < |IDS| ==> |IDS[i]| == 1 && Bytes(IDS[i]) <= 4;
    assert IDS[0][0] == 'c' && IDS[1][0] == 'd' && IDS[2][0] == 'e' && IDS[3][0] == 'f';
    assert "a"[0] == 'a' && "b"[0] == 'b';
  }

  lemma RestRuns(s: W.State)
    requires Unreserved(s)
    ensures W.Run(s, Rest()).Some? && W.Calls(Rest()) == 5
  {
    CallsAnyway(s);
    var c := Calling(s);
    W.TailRuns(c);
    var e := W.Ended(c, true);
    IdsAreFresh(e.disk);
    W.TicksRun(e, IDS);
    W.RunConcat(c, W.Tail(), W.Ticks(IDS));
    W.CallsConcat(W.Tail(), W.Ticks(IDS));
    W.RunConcat(s, [W.Unlock] + [W.Call], W.Tail() + W.Ticks(IDS));
    W.CallsConcat([W.Unlock] + [W.Call], W.Tail() + W.Ticks(IDS));
  }

  lemma {:induction false} TicksArePlain(ids: seq<string>)
    ensures AllPlain(W.Ticks(ids))
    decreases |ids|
  {
    if ids != [] {
      TicksArePlain(ids[..|ids| - 1]);
      HeadIsPlain(ids[|ids| - 1]);
      TailIsPlain();
    }
  }

  lemma RestIsPlain()
    ensures AllPlain(Rest()) && W.Quiet(Rest())
  {
    TicksArePlain(IDS);
    TailIsPlain();
    W.TicksQuiet(IDS);
  }

  lemma SixLead(rule: Rule, t: World) returns (u: World)
    requires R.Situation(R.Write, true, R.Foreign) in rule.places
    requires Calm(t, 0, 1) && Seen(t).disk == W.Disk(Some(Of(1, 5)), map[], None) && t.phase.Idle? && t.strays == []
    requires t.store.handles.Keys <= {0, 1} && t.readings.Keys <= {0, 1}
    ensures Leads(rule, t, (Lifted(0, 1, W.Head("a")) + [Lose]) + AfterLoss(), u, 6)
  {
    var l := LosesFirst(rule, t);
    u := FiveFollow(rule, l);
    LeadsThen(rule, t, Lifted(0, 1, W.Head("a")) + [Lose], l, 1, AfterLoss(), u, 5);
  }

  lemma FiveFollow(rule: Rule, l: World) returns (u: World)
    requires R.Situation(R.Write, true, R.Foreign) in rule.places && Astray0(l)
    ensures Leads(rule, l, AfterLoss(), u, 5)
  {
    var m := SecondLeads(rule, l);
    var r := LosesReservation(rule, m);
    UnreservedNow(Seen(l), Seen(r));
    u := RestLeads(rule, r);
    Join3(rule, l, Lifted(2, 1, Second()), m, 0, Reserving(), r, 0, Lifted(2, 1, Rest()), u, 5);
  }

  lemma SecondLeads(rule: Rule, l: World) returns (m: World)
    requires Astray0(l)
    ensures Leads(rule, l, Lifted(2, 1, Second()), m, 0) && Calm(m, 2, 1) && Seen(m) == SecondMarked(Seen(l)) && m.strays == l.strays
    ensures 0 in m.store.handles && m.store.handles[0].Idle?
  {
    SecondRuns(Seen(l));
    m := LiftRun(rule, l, 2, 1, Second());
  }

  lemma RestLeads(rule: Rule, r: World) returns (u: World)
    requires Calm(r, 2, 1) && Unreserved(Seen(r))
    ensures Leads(rule, r, Lifted(2, 1, Rest()), u, 5)
  {
    RestRuns(Seen(r));
    RestIsPlain();
    u := LiftRun(rule, r, 2, 1, Rest());
  }

  lemma UnreservedNow(s: W.State, r: W.State)
    requires s.disk.watch == Some(MINE)
    requires var m := SecondMarked(s);
             r == m.(disk := W.WithJob(m.disk, "a", W.Job(Some(""), W.Failed)), phase := W.Reserved("b", Some(""), Of(3, 3)))
    ensures Unreserved(r)
  {
    assert map["a" := W.Job(Some(""), W.Interrupted), "b" := W.Job(Some(""), W.Running)]["a" := W.Job(Some(""), W.Failed)]
        == map["a" := W.Job(Some(""), W.Failed), "b" := W.Job(Some(""), W.Running)];
  }

  lemma LossIsQuiet()
    ensures Quiet(AfterLoss())
  {
    assert Second() == [W.Work("a", W.Interrupted), W.Begin("b", "", {}), W.Mark];
    LiftedQuiet(2, 1, Second());
    RestIsPlain();
    LiftedQuiet(2, 1, Rest());
    EndingMoves(2);
    EndingMoves(0);
    QuietThen([Note(0)], Replay(2));
    QuietThen([Act(2, W.Reserve)], [Note(0)] + Replay(2));
    QuietThen(Reserving(), Lifted(2, 1, Rest()));
    QuietThen(Lifted(2, 1, Second()), Reserving() + Lifted(2, 1, Rest()));
  }

  lemma SixAreQuiet()
    ensures Quiet(SixCalls())
  {
    HeadIsPlain("a");
    LiftedQuiet(0, 1, W.Head("a"));
    LossIsQuiet();
    EndingMoves(1);
    QuietThen(Replay(1), [Other(R.Release(1))]);
    QuietThen(Lifted(0, 1, W.Head("a")), [Lose]);
    QuietThen(Lifted(0, 1, W.Head("a")) + [Lose], AfterLoss());
    QuietThen(Replay(1) + [Other(R.Release(1))], (Lifted(0, 1, W.Head("a")) + [Lose]) + AfterLoss());
  }

  /**
    What a write beside somebody's record does, without another configuration: the reservation of a tick is lost,
    the tick calls the extractor all the same, and six calls are made where five are allowed and none is owed.
   */
  lemma LostReservation(rule: Rule)
    requires R.Situation(R.Write, true, R.Foreign) in rule.places
    ensures Episode(rule, BeforeSix(), 1, W.Event.Configure(Of(0, 5)), SixCalls()) && Calls(SixCalls()) == 6
    ensures !W.Owed(Run(START, BeforeSix()).value.phase)
  {
    var w, start := FiveMade(rule);
    var u := SixFrom(rule, start);
    SixAreQuiet();
    ItIsAnEpisode(rule, BeforeSix(), w, 0, 1, Of(0, 5), start, SixCalls(), u, 6);
  }

  lemma SixFrom(rule: Rule, start: World) returns (u: World)
    requires R.Situation(R.Write, true, R.Foreign) in rule.places && FiveWritten(start)
    ensures Leads(rule, start, SixCalls(), u, 6)
  {
    var t := FiveStored(rule, start);
    u := SixLead(rule, t);
    LeadsThen(rule, start, Replay(1) + [Other(R.Release(1))], t, 0, (Lifted(0, 1, W.Head("a")) + [Lose]) + AfterLoss(), u, 6);
  }

  // ---------------------------------------------------------------- exactly when one call more is possible

  /** Every run without a reconfiguration calls the extractor at most `k` times. */
  ghost predicate WithinBudget(rule: Rule, w: World, k: nat) {
    forall moves :: Run(w, moves).Some? && Obeys(rule, w, moves) && Quiet(moves) ==> Calls(moves) <= k
  }

  lemma SafeIsCareful(places: set<R.Situation>)
    requires R.SafeRule(places)
    ensures Careful(places)
  {
  }

  /** A configuration that may not be spent leaves at most the call that is owed. */
  lemma ConfiguredWinds(w: World, p: nat, c: W.Config)
    requires Good(w) && Configurable(w, p, c) && !W.MaySpend(c)
    ensures Winding(Configured(w, p, c)) && Owing(Seen(Configured(w, p, c))) <= 1
  {
    ConfiguredStored(w, p, W.Event.Configure(c));
    KnownIsPossible(w, p);
    FineAnywhere(Seen(w), Known(w, p).disk, W.ConfigOf(Known(w, p).disk));
  }

  lemma OwedAlone(rule: Rule, w: World)
    requires w.phase.Unlocked?
    ensures Leads(rule, w, [Act(w.ticker, W.Call)], Step(w, Act(w.ticker, W.Call)), 1) && Quiet([Act(w.ticker, W.Call)])
  {
    LeadsOne(rule, w, Act(w.ticker, W.Call));
  }

  /** The configuration is replayed and its process leaves. */
  lemma LeavesCalm(rule: Rule, w: World, p: nat, c: W.Config) returns (t: World)
    requires Firm(w) && Seated(w) && Configurable(w, p, c) && w.phase.Unlocked?
    ensures Leads(rule, Configured(w, p, c), Replay(p) + [Other(R.Release(p))], t, 0)
    ensures Calm(t, w.ticker, p) && Seen(t) == W.Step(Meant(w), W.Event.Configure(c))
  {
    var e := W.Event.Configure(c);
    LockExcludes(w, p);
    FirmKnows(w, p);
    OneRuns(w, Act(p, e));
    Prepares(w, p, e);
    OneWrite(Known(w, p), e);
    var list := ListOf(Known(w, p), e);
    var start := Configured(w, p, c);
    var a := Replays(rule, start, p, list[0].0, list[0].1);
    t := Releases(rule, a, p);
    LeadsThen(rule, start, Replay(p), a, 0, [Other(R.Release(p))], t, 0);
    CommitsMean(w, p, e, a);
  }

  lemma OneMoreIsPlain(ids: seq<string>)
    ensures AllPlain([W.Call] + W.Tail() + W.Ticks(ids)) && W.Quiet([W.Call] + W.Tail() + W.Ticks(ids))
  {
    TailIsPlain();
    TicksArePlain(ids);
    W.TicksQuiet(ids);
  }

  /** The owed call, and then every job of the new allowance. */
  lemma OneMoreCall(rule: Rule, w: World, p: nat, c: W.Config, ids: seq<string>) returns (u: World)
    requires Firm(w) && Good(w) && Seated(w) && Configurable(w, p, c) && !c.continuous && W.MaySpend(c) && w.phase.Unlocked?
    requires W.Fresh(Seen(w).disk, ids) && |ids| == c.remaining
    ensures var moves := (Replay(p) + [Other(R.Release(p))]) + Lifted(w.ticker, p, [W.Call] + W.Tail() + W.Ticks(ids));
            Leads(rule, Configured(w, p, c), moves, u, c.remaining + 1) && Quiet(moves)
  {
    var events := [W.Call] + W.Tail() + W.Ticks(ids);
    var t := LeavesCalm(rule, w, p, c);
    FirmKnows(w, p);
    KnownIsPossible(w, p);
    W.OneMoreCall(Meant(w), c, ids);
    OneMoreIsPlain(ids);
    u := LiftRun(rule, t, w.ticker, p, events);
    LiftedQuiet(w.ticker, p, events);
    LeadsThen(rule, Configured(w, p, c), Replay(p) + [Other(R.Release(p))], t, 0, Lifted(w.ticker, p, events), u, c.remaining + 1);
    EndingMoves(p);
    QuietThen(Replay(p), [Other(R.Release(p))]);
    QuietThen(Replay(p) + [Other(R.Release(p))], Lifted(w.ticker, p, events));
  }

  lemma BreaksBudget(rule: Rule, w: World, moves: seq<Move>, t: World, n: nat, k: nat)
    requires Leads(rule, w, moves, t, n) && Quiet(moves) && n > k
    ensures !WithinBudget(rule, w, k)
  {
  }

  lemma StaysWithin(rule: Rule, w: World, p: nat, c: W.Config)
    requires Good(w) && Careful(rule.places) && Beside !in rule.overs && Configurable(w, p, c) && !c.continuous
    requires !W.Owed(w.phase) || (c.remaining > 0 && !W.MaySpend(c))
    ensures WithinBudget(rule, Configured(w, p, c), c.remaining)
  {
    var start := Configured(w, p, c);
    if W.Owed(w.phase) {
      ConfiguredWinds(w, p, c);
    }
    forall moves | Run(start, moves).Some? && Obeys(rule, start, moves) && Quiet(moves)
      ensures Calls(moves) <= c.remaining
    {
      if W.Owed(w.phase) {
        WindingCalls(rule, start, moves);
      } else {
        CallsBounded(rule, w, p, c, moves);
      }
    }
  }

  /**
    The exact condition for the one call more. From a configuration with `k` jobs to the next one, all runs stay
    within `k` calls if and only if no tick owed a call at that moment, or the allowance is not zero and may not
    be spent anyway.
   */
  lemma BudgetIff(rule: Rule, w: World, p: nat, c: W.Config, ids: seq<string>)
    requires Firm(w) && Good(w) && Seated(w) && R.SafeRule(rule.places) && Beside !in rule.overs
    requires Configurable(w, p, c) && !c.continuous && W.Fresh(Seen(w).disk, ids) && |ids| == c.remaining
    ensures WithinBudget(rule, Configured(w, p, c), c.remaining)
            <==> !W.Owed(w.phase) || (c.remaining > 0 && !W.MaySpend(c))
  {
    if !W.Owed(w.phase) || (c.remaining > 0 && !W.MaySpend(c)) {
      SafeIsCareful(rule.places);
      StaysWithin(rule, w, p, c);
    } else {
      LockExcludes(w, p);
      var start := Configured(w, p, c);
      if c.remaining == 0 {
        OwedAlone(rule, start);
        BreaksBudget(rule, start, [Act(start.ticker, W.Call)], Step(start, Act(start.ticker, W.Call)), 1, 0);
      } else {
        var u := OneMoreCall(rule, w, p, c, ids);
        BreaksBudget(rule, start, (Replay(p) + [Other(R.Release(p))]) + Lifted(w.ticker, p, [W.Call] + W.Tail() + W.Ticks(ids)),
                     u, c.remaining + 1, c.remaining);
      }
    }
  }

  /** In every state that is reached from the empty store this applies. */
  lemma {:induction false} ReachedIsGood(rule: Rule, moves: seq<Move>)
    requires R.SafeRule(rule.places) && Beside !in rule.overs && Run(START, moves).Some? && Obeys(rule, START, moves)
    ensures var w := Run(START, moves).value; Firm(w) && Good(w) && Seated(w)
    decreases |moves|
  {
    SafeIsCareful(rule.places);
    StartIsGood();
    RunKeeps(rule, START, moves);
    RunIsFirm(rule, START, moves);
    if moves != [] {
      ReachedIsGood(rule, moves[..|moves| - 1]);
      MoveKeepsSeats(Run(START, moves[..|moves| - 1]).value, moves[|moves| - 1]);
    }
  }
}
