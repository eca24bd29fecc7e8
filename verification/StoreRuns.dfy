/**
  Many processes on one store: readers, lock holders, and handles that go on committing after they failed
  to get the writer lock back. Every file operation is one step, a replay works through the record it has
  read, and a process may die at any point.
 */
module StoreRuns {
  import opened Results
  import opened Store

  datatype Lock = Free | Shared(readers: nat) | Held(owner: nat)

  /** What a handle is doing: nothing, about to look for a record, or replaying the one it found. */
  datatype Work<K, V> = Idle | Reading | Replaying(stamp: nat, writes: seq<(K, V)>, done: nat)

  /**
    `stamp` numbers the records ever written, so that the pending one has that number. `truth` is what the
    store ought to hold: the initial contents with every list whose record was written, in order.
   */
  datatype World<K, V> = World(disk: Disk<K, V>, stamp: nat, lock: Lock, handles: map<nat, Work<K, V>>, truth: map<K, V>)

  /**
    `Acquire` opens a store or takes the lock back, `Release` gives it up for an inference or for good.
    A handle that does not hold the lock may commit all the same.
   */
  datatype Event<K, V> =
    | Acquire(p: nat)
    | Release(p: nat)
    | Join
    | Leave
    | Commit(p: nat, writes: seq<(K, V)>)
    | Read(p: nat)
    | Step(p: nat)
    | Die(p: nat)

  predicate Enabled<K, V>(w: World<K, V>, e: Event<K, V>) {
    match e
    case Acquire(p) => w.lock == Free && (p in w.handles ==> w.handles[p].Idle?)
    case Release(p) => w.lock == Held(p) && p in w.handles && w.handles[p].Idle?
    case Join => w.disk.prepared.None? && !w.lock.Held?
    case Leave => w.lock.Shared?
    case Commit(p, _) => p in w.handles && w.handles[p].Idle?
    case Read(p) => p in w.handles && w.handles[p].Reading?
    case Step(p) => p in w.handles && w.handles[p].Replaying? && w.handles[p].done <= |w.handles[p].writes|
    case Die(p) => p in w.handles
  }

  function Found<K, V>(w: World<K, V>): Work<K, V> {
    if w.disk.prepared.Some? then Replaying(w.stamp, w.disk.prepared.value, 0) else Idle
  }

  /** One event; one that is not possible changes nothing. */
  function Next<K, V>(w: World<K, V>, e: Event<K, V>): World<K, V> {
    if !Enabled(w, e) then w
    else
      match e
      case Acquire(p) => w.(lock := Held(p), handles := w.handles[p := Reading])
      case Release(p) => w.(lock := Free)
      case Join => w.(lock := Shared(if w.lock.Shared? then w.lock.readers + 1 else 1))
      case Leave => w.(lock := if w.lock.readers <= 1 then Free else Shared(w.lock.readers - 1))
      case Commit(p, writes) =>
        World(Apply(w.disk, Prepare(writes)), w.stamp + 1, w.lock, w.handles[p := Reading], Overlay(w.truth, writes))
      case Read(p) => w.(handles := w.handles[p := Found(w)])
      case Step(p) =>
        var r := w.handles[p];
        if r.done < |r.writes|
        then w.(disk := Apply(w.disk, Put(r.writes[r.done].0, r.writes[r.done].1)), handles := w.handles[p := r.(done := r.done + 1)])
        else w.(disk := Apply(w.disk, Discard), handles := w.handles[p := Idle])
      case Die(p) => w.(lock := if w.lock == Held(p) then Free else w.lock, handles := w.handles - {p})
  }

  function History<K, V>(w: World<K, V>, events: seq<Event<K, V>>): World<K, V>
    decreases |events|
  {
    if events == [] then w else Next(History(w, events[..|events| - 1]), events[|events| - 1])
  }

  // ---------------------------------------------------------------- what a loose handle can see before a step

  datatype Move = Write | Fill | Remove

  datatype Record = Nothing | Mine | Foreign

  /** Which file operation, whether somebody holds the lock, and whose record is pending. */
  datatype Situation = Situation(move: Move, taken: bool, record: Record)

  /** A change of files by a handle that does not hold the lock. */
  predicate Loose<K, V>(w: World<K, V>, e: Event<K, V>) {
    Enabled(w, e) && (e.Commit? || e.Step?) && w.lock != Held(e.p)
  }

  /** The record is a handle's own while it is the one the handle is replaying. */
  function Facing<K, V>(w: World<K, V>, r: Work<K, V>): Record {
    if w.disk.prepared.None? then Nothing else if r.Replaying? && r.stamp == w.stamp then Mine else Foreign
  }

  function SituationOf<K, V>(w: World<K, V>, e: Event<K, V>): Situation
    requires Loose(w, e)
  {
    var r := w.handles[e.p];
    Situation(
      if e.Commit? then Write else if r.done < |r.writes| then Fill else Remove,
      w.lock != Free,
      Facing(w, r))
  }

  function ListOf<K, V>(w: World<K, V>, e: Event<K, V>): seq<(K, V)>
    requires Loose(w, e)
  {
    if e.Commit? then e.writes else w.handles[e.p].writes
  }

  /**
    What is harmless: to begin when nobody holds the lock and nothing is pending, and to go on while the
    record being replayed is still there. Removing a record that is gone already does nothing.
   */
  predicate Allowed(s: Situation) {
    match s.move
    case Write => !s.taken && s.record == Nothing
    case Fill => s.record == Mine
    case Remove => s.record == Mine || s.record == Nothing
  }

  /** A handle that begins a commit has no record of its own. */
  predicate Never(s: Situation) {
    s.move == Write && s.record == Mine
  }

  /** Loose handles keep to a rule, and replay lists without repeated keys. */
  ghost predicate Keeps<K, V>(rule: set<Situation>, w: World<K, V>, e: Event<K, V>) {
    Loose(w, e) ==> SituationOf(w, e) in rule && DistinctKeys(ListOf(w, e))
  }

  ghost predicate Obeys<K, V>(rule: set<Situation>, w: World<K, V>, events: seq<Event<K, V>>)
    decreases |events|
  {
    events != [] ==>
      && Obeys(rule, w, events[..|events| - 1])
      && Keeps(rule, History(w, events[..|events| - 1]), events[|events| - 1])
  }

  ghost predicate SafeRule(rule: set<Situation>) {
    forall s :: s in rule ==> Allowed(s) || Never(s)
  }

  /** The store stands for what it ought to hold, and whoever may read its files sees exactly that. */
  ghost predicate Atomic<K, V>(w: World<K, V>) {
    && Logical(w.disk) == w.truth
    && (w.lock.Shared? || (w.lock.Held? && w.lock.owner in w.handles && w.handles[w.lock.owner].Idle?) ==> w.disk.files == w.truth)
  }

  // ---------------------------------------------------------------- replays of one record beside each other

  /** From `done` on the replay still leads to the contents the record stands for. */
  ghost predicate Caught<K, V>(files: map<K, V>, writes: seq<(K, V)>, done: nat) {
    done <= |writes| && Overlay(files, writes[done..]) == Overlay(files, writes)
  }

  lemma FillStep<K, V>(files: map<K, V>, writes: seq<(K, V)>, done: nat)
    requires done < |writes| && Caught(files, writes, done)
    ensures var more := files[writes[done].0 := writes[done].1];
            Overlay(more, writes) == Overlay(files, writes) && Caught(more, writes, done + 1)
  {
    var d := Disk(files, Some(writes));
    assert Store.Replaying(files, writes, done, ReplayOps(writes[done..]));
    ReplayStep(d, done, ReplayOps(writes[done..]));
    assert writes[done..][1..] == writes[done + 1..];
  }

  /** A key that is filled in holds its value. */
  lemma FilledKey<K(!new), V>(files: map<K, V>, writes: seq<(K, V)>, done: nat, i: nat)
    requires DistinctKeys(writes) && Caught(files, writes, done) && i < done
    ensures writes[i].0 in files && files[writes[i].0] == writes[i].1
  {
    var k := writes[i].0;
    OverlayDistinct(files, writes);
    OverlayAt(files, writes[done..], k);
    assert forall j :: 0 <= j < |writes[done..]| ==> writes[done..][j] == writes[done + j];
    assert k !in KeysOf(writes[done..]);
  }

  /** Another replay of the same record stays caught, wherever it is. */
  lemma FillBeside<K(!new), V>(files: map<K, V>, writes: seq<(K, V)>, i: nat, done: nat)
    requires DistinctKeys(writes) && i < |writes| && Caught(files, writes, done)
    ensures Caught(files[writes[i].0 := writes[i].1], writes, done)
  {
    var more := files[writes[i].0 := writes[i].1];
    if i < done {
      FilledKey(files, writes, done, i);
      assert more == files;
    } else {
      assert writes[done..][i - done].0 == writes[i].0;
      assert writes[i].0 in KeysOf(writes[done..]) && writes[i].0 in KeysOf(writes);
      OverlayHides(more, files, writes[done..]);
      OverlayHides(more, files, writes);
    }
  }

  lemma FillShown<K(!new), V>(files: map<K, V>, writes: seq<(K, V)>, i: nat)
    requires DistinctKeys(writes) && i < |writes| && Overlay(files, writes) == files
    ensures files[writes[i].0 := writes[i].1] == files
  {
    OverlayDistinct(files, writes);
  }

  // ---------------------------------------------------------------- the invariant

  /** A handle in a replay knows the pending record, and its progress can be trusted if anybody relies on it. */
  ghost predicate GoodHandle<K, V>(w: World<K, V>, p: nat)
    requires p in w.handles
  {
    var r := w.handles[p];
    r.Replaying? ==>
      && r.done <= |r.writes| && r.stamp <= w.stamp
      && (r.stamp == w.stamp && w.disk.prepared.Some? ==>
            && w.disk.prepared.value == r.writes
            && (DistinctKeys(r.writes) || w.lock == Held(p) ==> Caught(w.disk.files, r.writes, r.done)))
  }

  ghost predicate GoodHolder<K, V>(w: World<K, V>) {
    w.lock.Held? ==>
      && w.lock.owner in w.handles
      && var r := w.handles[w.lock.owner];
      && (r.Idle? ==> w.disk.prepared.None?)
      && (r.Replaying? ==>
            && r.stamp == w.stamp
            && (w.disk.prepared.None? ==> DistinctKeys(r.writes) && Overlay(w.disk.files, r.writes) == w.disk.files))
  }

  ghost predicate GoodHandles<K, V>(w: World<K, V>) {
    forall p :: p in w.handles ==> GoodHandle(w, p)
  }

  ghost predicate Sound<K, V>(w: World<K, V>) {
    Logical(w.disk) == w.truth && (w.lock.Shared? ==> w.disk.prepared.None?) && GoodHolder(w) && GoodHandles(w)
  }

  lemma SoundIsAtomic<K, V>(w: World<K, V>)
    requires Sound(w)
    ensures Atomic(w)
  {
  }

  /** Events that touch no file. */
  lemma QuietSound<K, V>(w: World<K, V>, e: Event<K, V>)
    requires Sound(w) && !e.Commit? && !e.Step?
    ensures Sound(Next(w, e))
  {
    var t := Next(w, e);
    forall p | p in t.handles
      ensures GoodHandle(t, p)
    {
      if p in w.handles {
        assert GoodHandle(w, p);
      }
      if e.Read? && e.p == p && Enabled(w, e) && w.disk.prepared.Some? {
        assert w.disk.prepared.value[0..] == w.disk.prepared.value;
      }
    }
  }

  lemma CommitSound<K, V>(w: World<K, V>, e: Event<K, V>)
    requires Sound(w) && e.Commit? && Enabled(w, e)
    requires Loose(w, e) ==> Allowed(SituationOf(w, e))
    ensures Sound(Next(w, e))
  {
    var t := Next(w, e);
    forall p | p in t.handles
      ensures GoodHandle(t, p)
    {
      if p != e.p {
        assert GoodHandle(w, p);
      }
    }
  }

  /** Another handle after one more file of the pending record. */
  lemma FillKeepsOther<K(!new), V>(w: World<K, V>, e: Event<K, V>, p: nat)
    requires Sound(w) && e.Step? && Enabled(w, e) && w.handles[e.p].done < |w.handles[e.p].writes|
    requires w.handles[e.p].stamp == w.stamp && w.disk.prepared.Some?
    requires DistinctKeys(w.handles[e.p].writes) || w.lock == Held(e.p)
    requires p in w.handles && p != e.p
    ensures GoodHandle(Next(w, e), p)
  {
    assert GoodHandle(w, p) && GoodHandle(w, e.p);
    var r, q := w.handles[p], w.handles[e.p];
    if r.Replaying? && r.stamp == w.stamp && DistinctKeys(r.writes) {
      FillBeside(w.disk.files, r.writes, q.done, r.done);
    }
  }

  lemma FillSound<K(!new), V>(w: World<K, V>, e: Event<K, V>)
    requires Sound(w) && e.Step? && Enabled(w, e) && w.handles[e.p].done < |w.handles[e.p].writes|
    requires w.handles[e.p].stamp == w.stamp && w.disk.prepared.Some?
    requires DistinctKeys(w.handles[e.p].writes) || w.lock == Held(e.p)
    ensures Sound(Next(w, e))
  {
    var t, r := Next(w, e), w.handles[e.p];
    assert GoodHandle(w, e.p);
    FillStep(w.disk.files, r.writes, r.done);
    forall p | p in t.handles
      ensures GoodHandle(t, p)
    {
      if p != e.p {
        FillKeepsOther(w, e, p);
      }
    }
  }

  /** The holder finds its record removed by another replay of it: what is left to fill in is there already. */
  lemma FillLateSound<K(!new), V>(w: World<K, V>, e: Event<K, V>)
    requires Sound(w) && e.Step? && Enabled(w, e) && w.handles[e.p].done < |w.handles[e.p].writes|
    requires w.lock == Held(e.p) && w.disk.prepared.None?
    ensures Sound(Next(w, e))
  {
    var t, r := Next(w, e), w.handles[e.p];
    FillShown(w.disk.files, r.writes, r.done);
    assert t.disk == w.disk;
    forall p | p in t.handles
      ensures GoodHandle(t, p)
    {
      assert GoodHandle(w, p);
    }
  }

  lemma RemoveSound<K(!new), V>(w: World<K, V>, e: Event<K, V>)
    requires Sound(w) && e.Step? && Enabled(w, e) && w.handles[e.p].done == |w.handles[e.p].writes|
    requires w.disk.prepared.None? || w.handles[e.p].stamp == w.stamp
    requires DistinctKeys(w.handles[e.p].writes) || w.lock == Held(e.p)
    ensures Sound(Next(w, e))
  {
    var t, r := Next(w, e), w.handles[e.p];
    assert GoodHandle(w, e.p);
    assert r.writes[r.done..] == [];
    if w.lock.Held? && w.lock.owner != e.p {
      assert GoodHandle(w, w.lock.owner);
    }
    forall p | p in t.handles
      ensures GoodHandle(t, p)
    {
      if p != e.p {
        assert GoodHandle(w, p);
      }
    }
  }

  lemma NextSound<K(!new), V>(w: World<K, V>, e: Event<K, V>, rule: set<Situation>)
    requires Sound(w) && SafeRule(rule) && Keeps(rule, w, e)
    ensures Sound(Next(w, e))
  {
    if !Enabled(w, e) {
    } else if e.Commit? {
      assert Loose(w, e) ==> Allowed(SituationOf(w, e));
      CommitSound(w, e);
    } else if e.Step? {
      assert GoodHandle(w, e.p);
      var r := w.handles[e.p];
      assert Loose(w, e) ==> Allowed(SituationOf(w, e)) && DistinctKeys(r.writes);
      if r.done == |r.writes| {
        RemoveSound(w, e);
      } else if w.disk.prepared.Some? {
        FillSound(w, e);
      } else {
        FillLateSound(w, e);
      }
    } else {
      QuietSound(w, e);
    }
  }

  // ---------------------------------------------------------------- histories

  /** The lists whose records a history has written, in order. */
  function Written<K, V>(w: World<K, V>, events: seq<Event<K, V>>): seq<(K, V)>
    decreases |events|
  {
    if events == [] then []
    else
      var front, e := events[..|events| - 1], events[|events| - 1];
      Written(w, front) + if e.Commit? && Enabled(History(w, front), e) then e.writes else []
  }

  lemma {:induction false} TruthIsWritten<K, V>(w: World<K, V>, events: seq<Event<K, V>>)
    ensures History(w, events).truth == Overlay(w.truth, Written(w, events))
    decreases |events|
  {
    if events != [] {
      var front, e := events[..|events| - 1], events[|events| - 1];
      TruthIsWritten(w, front);
      if e.Commit? && Enabled(History(w, front), e) {
        OverlayConcat(w.truth, Written(w, front), e.writes);
      } else {
        assert Written(w, events) == Written(w, front);
      }
    }
  }

  lemma {:induction false} HistorySound<K(!new), V>(w: World<K, V>, events: seq<Event<K, V>>, rule: set<Situation>)
    requires Sound(w) && SafeRule(rule) && Obeys(rule, w, events)
    ensures Sound(History(w, events))
    decreases |events|
  {
    if events != [] {
      HistorySound(w, events[..|events| - 1], rule);
      NextSound(History(w, events[..|events| - 1]), events[|events| - 1], rule);
    }
  }

  /**
    Crash atomicity over whole histories, of any number of processes dying at any point: the store stands for
    the initial contents with, in order, exactly the lists whose record was written. Lock holders do as they
    like; a handle without the lock keeps to what is harmless.
   */
  lemma HistoryIsAtomic<K(!new), V>(w: World<K, V>, events: seq<Event<K, V>>, rule: set<Situation>)
    requires Sound(w) && SafeRule(rule) && Obeys(rule, w, events)
    ensures Logical(History(w, events).disk) == Overlay(Logical(w.disk), Written(w, events))
  {
    HistorySound(w, events, rule);
    TruthIsWritten(w, events);
  }

  /** Whoever reads under the lock, shared or as an idle writer, sees exactly those contents in the files. */
  lemma ReaderSeesNoMixture<K(!new), V>(w: World<K, V>, events: seq<Event<K, V>>, rule: set<Situation>)
    requires Sound(w) && SafeRule(rule) && Obeys(rule, w, events)
    requires var t := History(w, events);
             t.lock.Shared? || (t.lock.Held? && t.lock.owner in t.handles && t.handles[t.lock.owner].Idle?)
    ensures History(w, events).disk.files == Overlay(Logical(w.disk), Written(w, events))
  {
    HistorySound(w, events, rule);
    TruthIsWritten(w, events);
  }

  // ---------------------------------------------------------------- no other rule will do

  type Small = World<int, int>

  const EMPTY: Small := World(Disk(map[], None), 0, Free, map[], map[])

  ghost predicate Reachable(rule: set<Situation>, w: Small) {
    exists events: seq<Event<int, int>> :: Obeys(rule, EMPTY, events) && History(EMPTY, events) == w
  }

  lemma ReachesEmpty(rule: set<Situation>)
    ensures Reachable(rule, EMPTY)
  {
    var none: seq<Event<int, int>> := [];
    assert Obeys(rule, EMPTY, none) && History(EMPTY, none) == EMPTY;
  }

  lemma Reaches(rule: set<Situation>, w: Small, e: Event<int, int>)
    requires Reachable(rule, w) && Keeps(rule, w, e)
    ensures Reachable(rule, Next(w, e))
  {
    var events: seq<Event<int, int>> :| Obeys(rule, EMPTY, events) && History(EMPTY, events) == w;
    var more := events + [e];
    assert more[..|more| - 1] == events && more[|more| - 1] == e;
    assert Obeys(rule, EMPTY, more) && History(EMPTY, more) == Next(w, e);
  }

  ghost predicate AtLeastAllowed(rule: set<Situation>) {
    forall s :: Allowed(s) ==> s in rule
  }

  const A: seq<(int, int)> := [(0, 1)]
  const B: seq<(int, int)> := [(1, 1)]
  const A2: seq<(int, int)> := [(0, 2)]

  function At(files: map<int, int>, prepared: Option<seq<(int, int)>>, stamp: nat, lock: Lock, handles: map<nat, Work<int, int>>, truth: map<int, int>): Small {
    World(Disk(files, prepared), stamp, lock, handles, truth)
  }

  /** Handle 0 has given up its lock and cannot get it back from handle 1. */
  lemma LooseBesideHolder(rule: set<Situation>)
    ensures Reachable(rule, At(map[], None, 0, Free, map[0 := Idle], map[]))
    ensures Reachable(rule, At(map[], None, 0, Held(1), map[0 := Idle, 1 := Idle], map[]))
  {
    ReachesEmpty(rule);
    var w1 := At(map[], None, 0, Held(0), map[0 := Reading], map[]);
    assert w1 == Next(EMPTY, Acquire(0));
    Reaches(rule, EMPTY, Acquire(0));
    var w2 := At(map[], None, 0, Held(0), map[0 := Idle], map[]);
    assert w2 == Next(w1, Read(0));
    Reaches(rule, w1, Read(0));
    var w3 := At(map[], None, 0, Free, map[0 := Idle], map[]);
    assert w3 == Next(w2, Release(0));
    Reaches(rule, w2, Release(0));
    var w4 := At(map[], None, 0, Held(1), map[0 := Idle, 1 := Reading], map[]);
    assert w4 == Next(w3, Acquire(1));
    Reaches(rule, w3, Acquire(1));
    assert At(map[], None, 0, Held(1), map[0 := Idle, 1 := Idle], map[]) == Next(w4, Read(1));
    Reaches(rule, w4, Read(1));
  }

  ghost predicate Breaks(rule: set<Situation>) {
    exists w :: Reachable(rule, w) && !Atomic(w)
  }

  lemma OverlayOne(files: map<int, int>, k: int, v: int)
    ensures Overlay(files, [(k, v)]) == files[k := v]
  {
    assert [(k, v)][1..] == [];
  }

  /** To begin beside a holder that has nothing pending: its next commit wipes out the record. */
  lemma WriteUnderLockBreaks(rule: set<Situation>)
    requires Situation(Write, true, Nothing) in rule
    ensures Breaks(rule)
  {
    LooseBesideHolder(rule);
    OverlayOne(map[], 0, 1);
    OverlayOne(map[], 1, 1);
    OverlayOne(map[0 := 1], 1, 1);
    var w0 := At(map[], None, 0, Held(1), map[0 := Idle, 1 := Idle], map[]);
    var w1 := At(map[], Some(A), 1, Held(1), map[0 := Reading, 1 := Idle], map[0 := 1]);
    assert w1 == Next(w0, Commit(0, A));
    Reaches(rule, w0, Commit(0, A));
    var w2 := At(map[], Some(B), 2, Held(1), map[0 := Reading, 1 := Reading], map[0 := 1, 1 := 1]);
    assert w2 == Next(w1, Commit(1, B));
    Reaches(rule, w1, Commit(1, B));
    assert Logical(w2.disk) == map[1 := 1] && 0 in w2.truth;
  }

  /** The holder has a list under way: still alive, or dead with its lock free again. */
  lemma ForeignRecord(rule: set<Situation>, taken: bool)
    ensures Reachable(rule, if taken then At(map[], Some(B), 1, Held(1), map[0 := Idle, 1 := Reading], map[1 := 1])
                            else At(map[], Some(B), 1, Free, map[0 := Idle], map[1 := 1]))
  {
    LooseBesideHolder(rule);
    OverlayOne(map[], 1, 1);
    var w0 := At(map[], None, 0, Held(1), map[0 := Idle, 1 := Idle], map[]);
    var w1 := At(map[], Some(B), 1, Held(1), map[0 := Idle, 1 := Reading], map[1 := 1]);
    assert w1 == Next(w0, Commit(1, B));
    Reaches(rule, w0, Commit(1, B));
    assert At(map[], Some(B), 1, Free, map[0 := Idle], map[1 := 1]) == Next(w1, Die(1));
    Reaches(rule, w1, Die(1));
  }

  /** To begin over a foreign record: what it had still to do is lost. */
  lemma WriteOverRecordBreaks(rule: set<Situation>, taken: bool)
    requires Situation(Write, taken, Foreign) in rule
    ensures Breaks(rule)
  {
    ForeignRecord(rule, taken);
    OverlayOne(map[1 := 1], 0, 1);
    OverlayOne(map[], 0, 1);
    var w0 := if taken then At(map[], Some(B), 1, Held(1), map[0 := Idle, 1 := Reading], map[1 := 1])
              else At(map[], Some(B), 1, Free, map[0 := Idle], map[1 := 1]);
    Reaches(rule, w0, Commit(0, A));
    var w1 := Next(w0, Commit(0, A));
    assert w1.truth == map[0 := 1, 1 := 1] && Logical(w1.disk) == map[0 := 1];
    assert 1 in w1.truth;
  }

  /** Handle 0 begins while the lock is free and reads its record; with `done` it also fills in the one file. */
  lemma LooseMidway(rule: set<Situation>, done: bool)
    requires AtLeastAllowed(rule)
    ensures Reachable(rule, At(if done then map[0 := 1] else map[], Some(A), 1, Free,
                               map[0 := Replaying(1, A, if done then 1 else 0)], map[0 := 1]))
  {
    LooseBesideHolder(rule);
    OverlayOne(map[], 0, 1);
    var w0 := At(map[], None, 0, Free, map[0 := Idle], map[]);
    var w1 := At(map[], Some(A), 1, Free, map[0 := Reading], map[0 := 1]);
    assert w1 == Next(w0, Commit(0, A));
    assert Allowed(SituationOf(w0, Commit(0, A)));
    Reaches(rule, w0, Commit(0, A));
    var w2 := At(map[], Some(A), 1, Free, map[0 := Replaying(1, A, 0)], map[0 := 1]);
    assert w2 == Next(w1, Read(0));
    Reaches(rule, w1, Read(0));
    assert At(map[0 := 1], Some(A), 1, Free, map[0 := Replaying(1, A, 1)], map[0 := 1]) == Next(w2, Step(0));
    assert Allowed(SituationOf(w2, Step(0)));
    Reaches(rule, w2, Step(0));
  }

  /** Then handle 1 takes the lock and recovers: the record is gone, and handle 0 does not know. */
  lemma Overtaken(rule: set<Situation>, f: map<int, int>, r: Work<int, int>)
    requires Reachable(rule, At(f, Some(A), 1, Free, map[0 := r], map[0 := 1])) && f[0 := 1] == map[0 := 1]
    ensures Reachable(rule, At(map[0 := 1], None, 1, Held(1), map[0 := r, 1 := Idle], map[0 := 1]))
  {
    var w0 := At(f, Some(A), 1, Free, map[0 := r], map[0 := 1]);
    var w1 := At(f, Some(A), 1, Held(1), map[0 := r, 1 := Reading], map[0 := 1]);
    assert w1 == Next(w0, Acquire(1));
    Reaches(rule, w0, Acquire(1));
    var w2 := At(f, Some(A), 1, Held(1), map[0 := r, 1 := Replaying(1, A, 0)], map[0 := 1]);
    assert w2 == Next(w1, Read(1));
    Reaches(rule, w1, Read(1));
    OvertakenReplay(rule, f, r);
  }

  lemma OvertakenReplay(rule: set<Situation>, f: map<int, int>, r: Work<int, int>)
    requires Reachable(rule, At(f, Some(A), 1, Held(1), map[0 := r, 1 := Replaying(1, A, 0)], map[0 := 1])) && f[0 := 1] == map[0 := 1]
    ensures Reachable(rule, At(map[0 := 1], None, 1, Held(1), map[0 := r, 1 := Idle], map[0 := 1]))
  {
    var w2 := At(f, Some(A), 1, Held(1), map[0 := r, 1 := Replaying(1, A, 0)], map[0 := 1]);
    var w3 := At(map[0 := 1], Some(A), 1, Held(1), map[0 := r, 1 := Replaying(1, A, 1)], map[0 := 1]);
    assert w3 == Next(w2, Step(1));
    Reaches(rule, w2, Step(1));
    assert At(map[0 := 1], None, 1, Held(1), map[0 := r, 1 := Idle], map[0 := 1]) == Next(w3, Step(1));
    Reaches(rule, w3, Step(1));
  }

  lemma LooseOvertaken(rule: set<Situation>, done: bool)
    requires AtLeastAllowed(rule)
    ensures Reachable(rule, At(map[0 := 1], None, 1, Held(1), map[0 := Replaying(1, A, if done then 1 else 0), 1 := Idle], map[0 := 1]))
  {
    LooseMidway(rule, done);
    Overtaken(rule, if done then map[0 := 1] else map[], Replaying(1, A, if done then 1 else 0));
  }

  /** A newer value of the same key is committed. */
  lemma LooseOutdated(rule: set<Situation>)
    requires AtLeastAllowed(rule)
    ensures Reachable(rule, At(map[0 := 2], None, 2, Held(1), map[0 := Replaying(1, A, 0), 1 := Idle], map[0 := 2]))
  {
    LooseOvertaken(rule, false);
    OverlayOne(map[0 := 1], 0, 2);
    var r: Work<int, int> := Replaying(1, A, 0);
    var w0 := At(map[0 := 1], None, 1, Held(1), map[0 := r, 1 := Idle], map[0 := 1]);
    var w1 := At(map[0 := 1], Some(A2), 2, Held(1), map[0 := r, 1 := Reading], map[0 := 2]);
    assert w1 == Next(w0, Commit(1, A2));
    Reaches(rule, w0, Commit(1, A2));
    var w2 := At(map[0 := 1], Some(A2), 2, Held(1), map[0 := r, 1 := Replaying(2, A2, 0)], map[0 := 2]);
    assert w2 == Next(w1, Read(1));
    Reaches(rule, w1, Read(1));
    HolderReplays(rule, r);
  }

  lemma HolderReplays(rule: set<Situation>, r: Work<int, int>)
    requires Reachable(rule, At(map[0 := 1], Some(A2), 2, Held(1), map[0 := r, 1 := Replaying(2, A2, 0)], map[0 := 2]))
    ensures Reachable(rule, At(map[0 := 2], None, 2, Held(1), map[0 := r, 1 := Idle], map[0 := 2]))
  {
    var w2 := At(map[0 := 1], Some(A2), 2, Held(1), map[0 := r, 1 := Replaying(2, A2, 0)], map[0 := 2]);
    var w3 := At(map[0 := 2], Some(A2), 2, Held(1), map[0 := r, 1 := Replaying(2, A2, 1)], map[0 := 2]);
    assert w3 == Next(w2, Step(1));
    Reaches(rule, w2, Step(1));
    assert At(map[0 := 2], None, 2, Held(1), map[0 := r, 1 := Idle], map[0 := 2]) == Next(w3, Step(1));
    Reaches(rule, w3, Step(1));
  }

  /** To go on after the record is gone: an old value returns, with the lock free and nothing pending as well. */
  lemma FillLateBreaks(rule: set<Situation>, taken: bool)
    requires AtLeastAllowed(rule) && Situation(Fill, taken, Nothing) in rule
    ensures Breaks(rule)
  {
    LooseOutdated(rule);
    var r: Work<int, int> := Replaying(1, A, 0);
    var held := At(map[0 := 2], None, 2, Held(1), map[0 := r, 1 := Idle], map[0 := 2]);
    var free := At(map[0 := 2], None, 2, Free, map[0 := r, 1 := Idle], map[0 := 2]);
    assert free == Next(held, Release(1));
    Reaches(rule, held, Release(1));
    var w := if taken then held else free;
    Reaches(rule, w, Step(0));
    assert Next(w, Step(0)).disk.files[0] == 1;
  }

  lemma FillUnderForeignBreaks(rule: set<Situation>, taken: bool)
    requires AtLeastAllowed(rule) && Situation(Fill, taken, Foreign) in rule
    ensures Breaks(rule)
  {
    LooseOutdated(rule);
    OverlayOne(map[0 := 2], 1, 1);
    OverlayOne(map[0 := 1], 1, 1);
    var r: Work<int, int> := Replaying(1, A, 0);
    var w0 := At(map[0 := 2], None, 2, Held(1), map[0 := r, 1 := Idle], map[0 := 2]);
    var held := At(map[0 := 2], Some(B), 3, Held(1), map[0 := r, 1 := Reading], map[0 := 2, 1 := 1]);
    assert held == Next(w0, Commit(1, B));
    Reaches(rule, w0, Commit(1, B));
    var free := At(map[0 := 2], Some(B), 3, Free, map[0 := r], map[0 := 2, 1 := 1]);
    assert free == Next(held, Die(1));
    Reaches(rule, held, Die(1));
    var w := if taken then held else free;
    Reaches(rule, w, Step(0));
    assert Logical(Next(w, Step(0)).disk)[0] == 1;
  }

  /** To remove a foreign record: its list is lost. */
  lemma RemoveForeignBreaks(rule: set<Situation>, taken: bool)
    requires AtLeastAllowed(rule) && Situation(Remove, taken, Foreign) in rule
    ensures Breaks(rule)
  {
    LooseOvertaken(rule, true);
    OverlayOne(map[0 := 1], 1, 1);
    var r: Work<int, int> := Replaying(1, A, 1);
    var w0 := At(map[0 := 1], None, 1, Held(1), map[0 := r, 1 := Idle], map[0 := 1]);
    var held := At(map[0 := 1], Some(B), 2, Held(1), map[0 := r, 1 := Reading], map[0 := 1, 1 := 1]);
    assert held == Next(w0, Commit(1, B));
    Reaches(rule, w0, Commit(1, B));
    var free := At(map[0 := 1], Some(B), 2, Free, map[0 := r], map[0 := 1, 1 := 1]);
    assert free == Next(held, Die(1));
    Reaches(rule, held, Die(1));
    var w := if taken then held else free;
    Reaches(rule, w, Step(0));
    assert Logical(Next(w, Step(0)).disk) == map[0 := 1] && 1 in w.truth;
  }

  /**
    The exact condition. A rule says in which situations a handle without the lock may change a file; take any
    rule that permits at least what is harmless. Every world reachable under it is atomic, for all write lists,
    all interleavings and all deaths, if and only if it permits nothing else: to begin only when nobody holds
    the lock and nothing is pending, to fill in only while the record being replayed is the pending one, and
    to remove no record but that one.
   */
  lemma RuleIsSafeIff(rule: set<Situation>)
    requires AtLeastAllowed(rule)
    ensures (forall w :: Reachable(rule, w) ==> Atomic(w)) <==> SafeRule(rule)
  {
    if SafeRule(rule) {
      forall w | Reachable(rule, w)
        ensures Atomic(w)
      {
        var events: seq<Event<int, int>> :| Obeys(rule, EMPTY, events) && History(EMPTY, events) == w;
        HistorySound(EMPTY, events, rule);
      }
    } else {
      var s :| s in rule && !Allowed(s) && !Never(s);
      BadSituationBreaks(rule, s);
    }
  }

  lemma BadSituationBreaks(rule: set<Situation>, s: Situation)
    requires AtLeastAllowed(rule) && s in rule && !Allowed(s) && !Never(s)
    ensures Breaks(rule)
  {
    match s.move
    case Write =>
      if s.record == Nothing {
        WriteUnderLockBreaks(rule);
      } else {
        WriteOverRecordBreaks(rule, s.taken);
      }
    case Fill =>
      if s.record == Nothing {
        FillLateBreaks(rule, s.taken);
      } else {
        FillUnderForeignBreaks(rule, s.taken);
      }
    case Remove => RemoveForeignBreaks(rule, s.taken);
  }

  // ---------------------------------------------------------------- why a list names no key twice

  /** Loose handles do what is harmless, with any lists. */
  ghost predicate Harmless<K, V>(w: World<K, V>, events: seq<Event<K, V>>)
    decreases |events|
  {
    events != [] ==>
      && Harmless(w, events[..|events| - 1])
      && var before, e := History(w, events[..|events| - 1]), events[|events| - 1];
         Loose(before, e) ==> Allowed(SituationOf(before, e))
  }

  ghost predicate HarmlesslyReached(w: Small) {
    exists events: seq<Event<int, int>> :: Harmless(EMPTY, events) && History(EMPTY, events) == w
  }

  lemma HarmlessOn(w: Small, e: Event<int, int>)
    requires HarmlesslyReached(w) && (Loose(w, e) ==> Allowed(SituationOf(w, e)))
    ensures HarmlesslyReached(Next(w, e))
  {
    var events: seq<Event<int, int>> :| Harmless(EMPTY, events) && History(EMPTY, events) == w;
    var more := events + [e];
    assert more[..|more| - 1] == events && more[|more| - 1] == e;
    assert Harmless(EMPTY, more) && History(EMPTY, more) == Next(w, e);
  }

  /** A loose handle commits a list and fills in both of its writes to key 0. */
  lemma LooseFillsTwice(twice: seq<(int, int)>)
    requires twice == [(0, 1), (0, 2)] && Overlay(map[], twice) == map[0 := 2]
    ensures HarmlesslyReached(At(map[0 := 2], Some(twice), 1, Free, map[0 := Replaying(1, twice, 2)], map[0 := 2]))
  {
    var none: seq<Event<int, int>> := [];
    assert Harmless(EMPTY, none) && History(EMPTY, none) == EMPTY;
    var w1 := At(map[], None, 0, Held(0), map[0 := Reading], map[]);
    assert w1 == Next(EMPTY, Acquire(0));
    HarmlessOn(EMPTY, Acquire(0));
    var w2 := At(map[], None, 0, Held(0), map[0 := Idle], map[]);
    assert w2 == Next(w1, Read(0));
    HarmlessOn(w1, Read(0));
    var w3 := At(map[], None, 0, Free, map[0 := Idle], map[]);
    assert w3 == Next(w2, Release(0));
    HarmlessOn(w2, Release(0));
    LooseDoubles(twice, w3);
  }

  lemma LooseDoubles(twice: seq<(int, int)>, w3: Small)
    requires twice == [(0, 1), (0, 2)] && Overlay(map[], twice) == map[0 := 2]
    requires w3 == At(map[], None, 0, Free, map[0 := Idle], map[]) && HarmlesslyReached(w3)
    ensures HarmlesslyReached(At(map[0 := 2], Some(twice), 1, Free, map[0 := Replaying(1, twice, 2)], map[0 := 2]))
  {
    var w4 := At(map[], Some(twice), 1, Free, map[0 := Reading], map[0 := 2]);
    assert w4 == Next(w3, Commit(0, twice));
    HarmlessOn(w3, Commit(0, twice));
    var w5 := At(map[], Some(twice), 1, Free, map[0 := Replaying(1, twice, 0)], map[0 := 2]);
    assert w5 == Next(w4, Read(0));
    HarmlessOn(w4, Read(0));
    LooseFillsBoth(twice, w5);
  }

  lemma LooseFillsBoth(twice: seq<(int, int)>, w5: Small)
    requires twice == [(0, 1), (0, 2)] && HarmlesslyReached(w5)
    requires w5 == At(map[], Some(twice), 1, Free, map[0 := Replaying(1, twice, 0)], map[0 := 2])
    ensures HarmlesslyReached(At(map[0 := 2], Some(twice), 1, Free, map[0 := Replaying(1, twice, 2)], map[0 := 2]))
  {
    var w6 := At(map[0 := 1], Some(twice), 1, Free, map[0 := Replaying(1, twice, 1)], map[0 := 2]);
    assert w6 == Next(w5, Step(0));
    HarmlessOn(w5, Step(0));
    assert At(map[0 := 2], Some(twice), 1, Free, map[0 := Replaying(1, twice, 2)], map[0 := 2]) == Next(w6, Step(0));
    HarmlessOn(w6, Step(0));
  }

  /** A holder reads the record, fills in the first write again, and dies. */
  lemma HolderPutsBack(twice: seq<(int, int)>)
    requires twice == [(0, 1), (0, 2)] && Overlay(map[], twice) == map[0 := 2]
    ensures HarmlesslyReached(Repeating(twice))
  {
    LooseFillsTwice(twice);
    var r: Work<int, int> := Replaying(1, twice, 2);
    var w0 := At(map[0 := 2], Some(twice), 1, Free, map[0 := r], map[0 := 2]);
    var w1 := At(map[0 := 2], Some(twice), 1, Held(1), map[0 := r, 1 := Reading], map[0 := 2]);
    assert w1 == Next(w0, Acquire(1));
    HarmlessOn(w0, Acquire(1));
    HolderFillsOne(twice, r, w1);
  }

  lemma HolderFillsOne(twice: seq<(int, int)>, r: Work<int, int>, w1: Small)
    requires twice == [(0, 1), (0, 2)] && r == Replaying(1, twice, 2) && HarmlesslyReached(w1)
    requires w1 == At(map[0 := 2], Some(twice), 1, Held(1), map[0 := r, 1 := Reading], map[0 := 2])
    ensures HarmlesslyReached(Repeating(twice))
  {
    var w2 := At(map[0 := 2], Some(twice), 1, Held(1), map[0 := r, 1 := Replaying(1, twice, 0)], map[0 := 2]);
    assert w2 == Next(w1, Read(1));
    HarmlessOn(w1, Read(1));
    HolderDies(twice, r, w2);
  }

  lemma HolderDies(twice: seq<(int, int)>, r: Work<int, int>, w2: Small)
    requires twice == [(0, 1), (0, 2)] && r == Replaying(1, twice, 2) && HarmlesslyReached(w2)
    requires w2 == At(map[0 := 2], Some(twice), 1, Held(1), map[0 := r, 1 := Replaying(1, twice, 0)], map[0 := 2])
    ensures HarmlesslyReached(Repeating(twice))
  {
    var w3 := At(map[0 := 1], Some(twice), 1, Held(1), map[0 := r, 1 := Replaying(1, twice, 1)], map[0 := 2]);
    assert w3 == Next(w2, Step(1));
    HarmlessOn(w2, Step(1));
    assert Repeating(twice) == Next(w3, Die(1));
    HarmlessOn(w3, Die(1));
  }

  /** The loose handle 0 has replayed its record `twice`, and another replay has put back the first value. */
  function Repeating(twice: seq<(int, int)>): Small {
    At(map[0 := 1], Some(twice), 1, Free, map[0 := Replaying(1, twice, 2)], map[0 := 2])
  }

  /**
    Why lists with a repeated key are kept apart. From the empty store, by harmless steps only: a loose handle
    commits a list that names a key twice and fills it in, a holder fills in the first value again and dies, and
    when the handle removes the record the earlier value stays.
   */
  lemma RepeatedKeysBreak()
    ensures var w := Repeating([(0, 1), (0, 2)]);
            && HarmlesslyReached(w) && HarmlesslyReached(Next(w, Step(0))) && !Atomic(Next(w, Step(0)))
  {
    var twice: seq<(int, int)> := [(0, 1), (0, 2)];
    assert twice[1..] == [(0, 2)];
    OverlayOne(map[0 := 1], 0, 2);
    assert Overlay(map[], twice) == Overlay(map[][0 := 1], twice[1..]);
    assert map[0 := 1][0 := 2] == map[0 := 2];
    HolderPutsBack(twice);
    RepeatingEnds(twice);
    HarmlessOn(Repeating(twice), Step(0));
  }

  lemma RepeatingEnds(twice: seq<(int, int)>)
    requires |twice| == 2
    ensures var w := Repeating(twice);
            Loose(w, Step(0)) && Allowed(SituationOf(w, Step(0))) && ListOf(w, Step(0)) == twice && !Atomic(Next(w, Step(0)))
  {
    var t := Next(Repeating(twice), Step(0));
    assert t.disk == Disk(map[0 := 1], None) && t.truth == map[0 := 2];
    assert t.disk.files[0] != t.truth[0];
  }
}
