/**
  The write-ahead store: one writer, a `prepared` record that makes a list of writes durable in one
  step, and a replay of that record by whoever opens the store next.

  The file system is a map from keys to values plus the optional `prepared` record. One write or
  removal of a file is one atomic step (a temporary file renamed into place), and a crash is the
  loss of the steps not yet done.
 */
module Store {
  import opened Results

  /** What the path check makes of a key: no valid path, one of the store's own two files, or data. */
  datatype RawKey<K> = Malformed | Reserved | File(key: K)

  datatype StoreError = ReadOnlyStore | InvalidKey | ReservedKey | Busy

  datatype Disk<K, V> = Disk(files: map<K, V>, prepared: Option<seq<(K, V)>>)

  datatype Op<K, V> = Prepare(writes: seq<(K, V)>) | Put(key: K, value: V) | Discard

  function Apply<K, V>(d: Disk<K, V>, op: Op<K, V>): Disk<K, V> {
    match op
    case Prepare(writes) => d.(prepared := Some(writes))
    case Put(k, v) => d.(files := d.files[k := v])
    case Discard => d.(prepared := None)
  }

  function Run<K, V>(d: Disk<K, V>, ops: seq<Op<K, V>>): Disk<K, V>
    decreases |ops|
  {
    if ops == [] then d else Run(Apply(d, ops[0]), ops[1..])
  }

  /** The replay of a prepared list: every write in order, then the removal of the record. */
  function ReplayOps<K, V>(writes: seq<(K, V)>): seq<Op<K, V>> {
    if writes == [] then [Discard]
    else [Put(writes[0].0, writes[0].1)] + ReplayOps(writes[1..])
  }

  function RecoverOps<K, V>(d: Disk<K, V>): seq<Op<K, V>> {
    match d.prepared
    case None => []
    case Some(writes) => ReplayOps(writes)
  }

  function CommitOps<K, V>(writes: seq<(K, V)>): seq<Op<K, V>> {
    [Prepare(writes)] + ReplayOps(writes)
  }

  /** All writes applied in order: a later write to a key wins. */
  function Overlay<K, V>(files: map<K, V>, writes: seq<(K, V)>): map<K, V>
    decreases |writes|
  {
    if writes == [] then files
    else Overlay(files[writes[0].0 := writes[0].1], writes[1..])
  }

  ghost function KeysOf<K, V>(writes: seq<(K, V)>): set<K> {
    set i | 0 <= i < |writes| :: writes[i].0
  }

  lemma KeysOfTail<K, V>(writes: seq<(K, V)>)
    requires writes != []
    ensures KeysOf(writes) == {writes[0].0} + KeysOf(writes[1..])
  {
    forall k | k in KeysOf(writes)
      ensures k in {writes[0].0} + KeysOf(writes[1..])
    {
      var i :| 0 <= i < |writes| && writes[i].0 == k;
      if i > 0 {
        assert writes[1..][i - 1].0 == k;
      }
    }
    forall k | k in KeysOf(writes[1..])
      ensures k in KeysOf(writes)
    {
      var i :| 0 <= i < |writes[1..]| && writes[1..][i].0 == k;
      assert writes[i + 1].0 == k;
    }
  }

  lemma KeysOfConcat<K, V>(a: seq<(K, V)>, b: seq<(K, V)>)
    ensures KeysOf(a + b) == KeysOf(a) + KeysOf(b)
  {
    forall k | k in KeysOf(a) + KeysOf(b)
      ensures k in KeysOf(a + b)
    {
      if k in KeysOf(a) {
        var i :| 0 <= i < |a| && a[i].0 == k;
        assert (a + b)[i].0 == k;
      } else {
        var i :| 0 <= i < |b| && b[i].0 == k;
        assert (a + b)[|a| + i].0 == k;
      }
    }
  }

  /** The contents a disk stands for: its files with the prepared list, if any, on top. */
  function Logical<K, V>(d: Disk<K, V>): map<K, V> {
    match d.prepared
    case None => d.files
    case Some(writes) => Overlay(d.files, writes)
  }

  // ---------------------------------------------------------------- overlays

  lemma {:induction false} OverlayConcat<K, V>(files: map<K, V>, a: seq<(K, V)>, b: seq<(K, V)>)
    ensures Overlay(files, a + b) == Overlay(Overlay(files, a), b)
    decreases |a|
  {
    if a == [] {
      assert a + b == b;
    } else {
      assert (a + b)[1..] == a[1..] + b;
      OverlayConcat(files[a[0].0 := a[0].1], a[1..], b);
    }
  }

  /** Only the keys outside the written ones matter: the rest is replaced. */
  lemma {:induction false} OverlayHides<K, V>(f: map<K, V>, g: map<K, V>, writes: seq<(K, V)>)
    requires forall k :: k !in KeysOf(writes) ==> (k in f <==> k in g) && (k in f ==> f[k] == g[k])
    ensures Overlay(f, writes) == Overlay(g, writes)
    decreases |writes|
  {
    if writes == [] {
      assert f == g;
    } else {
      var f', g' := f[writes[0].0 := writes[0].1], g[writes[0].0 := writes[0].1];
      KeysOfTail(writes);
      OverlayHides(f', g', writes[1..]);
    }
  }

  /** What an overlay holds at a key: the last write to it, or the old value. */
  lemma {:induction false} OverlayAt<K, V>(files: map<K, V>, writes: seq<(K, V)>, k: K)
    ensures k !in KeysOf(writes) ==>
              (k in Overlay(files, writes) <==> k in files) && (k in files ==> Overlay(files, writes)[k] == files[k])
    ensures forall i :: 0 <= i < |writes| && writes[i].0 == k && (forall j :: i < j < |writes| ==> writes[j].0 != k)
              ==> k in Overlay(files, writes) && Overlay(files, writes)[k] == writes[i].1
    decreases |writes|
  {
    if writes != [] {
      var rest := writes[1..];
      var files' := files[writes[0].0 := writes[0].1];
      OverlayAt(files', rest, k);
      KeysOfTail(writes);
      forall i | 0 <= i < |writes| && writes[i].0 == k && (forall j :: i < j < |writes| ==> writes[j].0 != k)
        ensures k in Overlay(files, writes) && Overlay(files, writes)[k] == writes[i].1
      {
        if i > 0 {
          assert rest[i - 1].0 == k;
          assert forall j :: i - 1 < j < |rest| ==> rest[j] == writes[j + 1];
        } else {
          assert forall j :: 0 <= j < |rest| ==> rest[j] == writes[j + 1];
          assert k !in KeysOf(rest);
        }
      }
    }
  }

  ghost predicate DistinctKeys<K, V>(writes: seq<(K, V)>) {
    forall i, j :: 0 <= i < j < |writes| ==> writes[i].0 != writes[j].0
  }

  /** With distinct keys the order of the writes does not matter. */
  lemma OverlayDistinct<K(!new), V>(files: map<K, V>, writes: seq<(K, V)>)
    requires DistinctKeys(writes)
    ensures forall i :: 0 <= i < |writes| ==>
              writes[i].0 in Overlay(files, writes) && Overlay(files, writes)[writes[i].0] == writes[i].1
    ensures forall k :: k !in KeysOf(writes) ==>
              (k in Overlay(files, writes) <==> k in files) && (k in files ==> Overlay(files, writes)[k] == files[k])
  {
    forall i | 0 <= i < |writes|
      ensures writes[i].0 in Overlay(files, writes) && Overlay(files, writes)[writes[i].0] == writes[i].1
    {
      OverlayAt(files, writes, writes[i].0);
    }
    forall k | k !in KeysOf(writes)
      ensures (k in Overlay(files, writes) <==> k in files) && (k in files ==> Overlay(files, writes)[k] == files[k])
    {
      OverlayAt(files, writes, k);
    }
  }

  lemma OverlayPair<K(!new), V>(files: map<K, V>, writes: seq<(K, V)>, pair: (K, V))
    requires DistinctKeys(writes) && pair in writes
    ensures pair.0 in Overlay(files, writes) && Overlay(files, writes)[pair.0] == pair.1
  {
    OverlayDistinct(files, writes);
  }

  lemma {:induction false} ReplayRuns<K, V>(d: Disk<K, V>, writes: seq<(K, V)>)
    ensures Run(d, ReplayOps(writes)) == Disk(Overlay(d.files, writes), None)
    decreases |writes|
  {
    if writes == [] {
      assert Run(d, ReplayOps(writes)) == Run(Apply(d, Discard), []);
    } else {
      assert ReplayOps(writes)[1..] == ReplayOps(writes[1..]);
      ReplayRuns(Apply(d, Put(writes[0].0, writes[0].1)), writes[1..]);
    }
  }

  /** An uninterrupted open or recovery leaves exactly the contents the disk stood for. */
  lemma RecoverySettles<K, V>(d: Disk<K, V>)
    ensures Run(d, RecoverOps(d)) == Disk(Logical(d), None)
  {
    if d.prepared.Some? {
      ReplayRuns(d, d.prepared.value);
    }
  }

  /**
    When a commit is atomic for every list of writes: exactly when the disk has nothing pending that
    its files do not already show. `commit` does not replay a pending record before overwriting it,
    so a handle that writes while another commit is half done loses the rest of that commit.
   */
  lemma CommitAtomicIff<K, V>(d: Disk<K, V>)
    ensures (forall writes :: Run(d, CommitOps(writes)) == Disk(Overlay(Logical(d), writes), None))
       <==> Logical(d) == d.files
  {
    forall writes
      ensures Run(d, CommitOps(writes)) == Disk(Overlay(d.files, writes), None)
    {
      var prepared := Apply(d, Prepare(writes));
      assert CommitOps(writes)[1..] == ReplayOps(writes);
      ReplayRuns(prepared, writes);
    }
    if forall writes :: Run(d, CommitOps(writes)) == Disk(Overlay(Logical(d), writes), None) {
      var none: seq<(K, V)> := [];
      assert Run(d, CommitOps(none)).files == Overlay(d.files, none);
    }
  }

  /** The condition above fails for a handle that lost its lock: B's second write disappears. */
  lemma LostLockMixesCommits()
    ensures
      var halfDone := Run(Disk(map[0 := 1, 1 := 1], None), CommitOps([(0, 2), (1, 2)])[..2]);
      var after := Run(halfDone, CommitOps([(2, 9)]));
      after == Disk(map[0 := 2, 1 := 1, 2 := 9], None) && halfDone.prepared.Some?
  {
    var d := Disk(map[0 := 1, 1 := 1], None);
    var b: seq<(int, int)> := [(0, 2), (1, 2)];
    var ops := CommitOps(b);
    assert ops[..2] == [Prepare(b), Put(0, 2)] by {
      assert ReplayOps(b)[0] == Put(0, 2);
    }
    var first: Disk<int, int> := Apply(d, Prepare(b));
    assert Run(d, [Prepare(b), Put(0, 2)]) == Run(first, [Put(0, 2)]);
    assert Run(first, [Put(0, 2)]) == Run(Apply(first, Put(0, 2)), []);
    var halfDone := Disk(map[0 := 2, 1 := 1], Some(b));
    assert Run(d, ops[..2]) == halfDone;
    var a: seq<(int, int)> := [(2, 9)];
    assert CommitOps(a)[1..] == ReplayOps(a);
    ReplayRuns(Apply(halfDone, Prepare(a)), a);
    assert a[1..] == [];
    assert Overlay(halfDone.files, a) == halfDone.files[2 := 9];
  }

  // ---------------------------------------------------------------- a replay cut off and begun again

  ghost predicate Replaying<K, V>(files: map<K, V>, writes: seq<(K, V)>, done: nat, todo: seq<Op<K, V>>) {
    && done <= |writes|
    && todo == ReplayOps(writes[done..])
    && Overlay(files, writes[done..]) == Overlay(files, writes)
  }

  lemma ReplayStep<K, V>(d: Disk<K, V>, done: nat, todo: seq<Op<K, V>>)
    requires d.prepared.Some? && Replaying(d.files, d.prepared.value, done, todo)
    ensures todo != []
    ensures
      var next := Apply(d, todo[0]);
      && Logical(next) == Logical(d)
      && if done == |d.prepared.value| then next.prepared.None? && todo[1..] == []
         else next.prepared == d.prepared && Replaying(next.files, d.prepared.value, done + 1, todo[1..])
  {
    var writes := d.prepared.value;
    if done < |writes| {
      var (k, v) := writes[done];
      assert writes[done..][1..] == writes[done + 1..];
      assert todo[0] == Put(k, v) && todo[1..] == ReplayOps(writes[done + 1..]);
      assert k in KeysOf(writes);
      OverlayHides(d.files[k := v], d.files, writes);
    }
  }

  /** `count` steps of recovery on one open, cut off by a crash; repeated for every element of `cuts`. */
  function CrashedRecoveries<K, V>(d: Disk<K, V>, cuts: seq<nat>): Disk<K, V>
    decreases |cuts|
  {
    if cuts == [] then d
    else
      var ops := RecoverOps(d);
      var n := if cuts[0] < |ops| then cuts[0] else |ops|;
      CrashedRecoveries(Run(d, ops[..n]), cuts[1..])
  }

  lemma {:induction false} PartialReplayKeepsLogical<K, V>(d: Disk<K, V>, done: nat, todo: seq<Op<K, V>>, n: nat)
    requires d.prepared.Some? && Replaying(d.files, d.prepared.value, done, todo)
    requires n <= |todo|
    ensures Logical(Run(d, todo[..n])) == Logical(d)
    decreases n
  {
    if n == 0 {
      assert todo[..0] == [];
    } else {
      ReplayStep(d, done, todo);
      var next := Apply(d, todo[0]);
      assert todo[..n][1..] == todo[1..][..n - 1];
      if done == |d.prepared.value| {
        assert todo[1..][..n - 1] == [];
      } else {
        PartialReplayKeepsLogical(next, done + 1, todo[1..], n - 1);
      }
    }
  }

  lemma {:induction false} CrashedRecoveriesKeepLogical<K, V>(d: Disk<K, V>, cuts: seq<nat>)
    ensures Logical(CrashedRecoveries(d, cuts)) == Logical(d)
    decreases |cuts|
  {
    if cuts != [] {
      var ops := RecoverOps(d);
      var n := if cuts[0] < |ops| then cuts[0] else |ops|;
      if d.prepared.Some? {
        assert d.prepared.value[0..] == d.prepared.value;
        PartialReplayKeepsLogical(d, 0, ops, n);
      } else {
        assert ops[..n] == [];
      }
      CrashedRecoveriesKeepLogical(Run(d, ops[..n]), cuts[1..]);
    }
  }

  /**
    One commit cut off after `n` of its steps and any number of recoveries cut off in turn: the next
    complete open shows the old files when nothing was prepared yet, and otherwise all the writes.
   */
  lemma CommitIsCrashAtomic<K, V>(files: map<K, V>, writes: seq<(K, V)>, n: nat, cuts: seq<nat>)
    requires n <= |CommitOps(writes)|
    ensures
      var crashed := CrashedRecoveries(Run(Disk(files, None), CommitOps(writes)[..n]), cuts);
      Run(crashed, RecoverOps(crashed)) == Disk(if n == 0 then files else Overlay(files, writes), None)
  {
    var d := Disk(files, None);
    var cut := CommitOps(writes)[..n];
    if n == 0 {
      assert cut == [];
    } else {
      var prepared := Apply(d, Prepare(writes));
      assert CommitOps(writes)[1..] == ReplayOps(writes);
      assert cut[1..] == ReplayOps(writes)[..n - 1];
      assert writes[0..] == writes;
      PartialReplayKeepsLogical(prepared, 0, ReplayOps(writes), n - 1);
    }
    CrashedRecoveriesKeepLogical(Run(d, cut), cuts);
    RecoverySettles(CrashedRecoveries(Run(d, cut), cuts));
  }

  // ---------------------------------------------------------------- the store object

  /** The data writes of a list whose keys are all data keys. */
  function DataWrites<K, V>(writes: seq<(RawKey<K>, V)>): seq<(K, V)>
    requires forall w :: w in writes ==> w.0.File?
  {
    seq(|writes|, i requires 0 <= i < |writes| => assert writes[i] in writes; (writes[i].0.key, writes[i].1))
  }

  /** The key check of `commit`, before anything is written. */
  method CheckKeys<K, V>(writes: seq<(RawKey<K>, V)>) returns (r: Result<seq<(K, V)>, StoreError>)
    ensures r.Ok? <==> forall w :: w in writes ==> w.0.File?
    ensures r.Ok? ==> r.value == DataWrites(writes)
    ensures r.Err? ==>
              exists i :: 0 <= i < |writes| && (forall j :: 0 <= j < i ==> writes[j].0.File?) &&
                ((r == Err(InvalidKey) && writes[i].0.Malformed?) || (r == Err(ReservedKey) && writes[i].0.Reserved?))
  {
    var data: seq<(K, V)> := [];
    for i := 0 to |writes|
      invariant forall j :: 0 <= j < i ==> writes[j].0.File?
      invariant |data| == i && forall j :: 0 <= j < i ==> writes[j].0.File? && data[j] == (writes[j].0.key, writes[j].1)
    {
      match writes[i].0
      case Malformed => return Err(InvalidKey);
      case Reserved => return Err(ReservedKey);
      case File(key) => data := data + [(key, writes[i].1)];
    }
    return Ok(data);
  }

  class Handle<K(==), V> {
    var files: map<K, V>
    var prepared: Option<seq<(K, V)>>
    var writable: bool
    /** Every file operation this handle has done, in order: where a crash may cut. */
    ghost var trace: seq<Op<K, V>>

    ghost function State(): Disk<K, V>
      reads this
    {
      Disk(files, prepared)
    }

    /** `Store::open`: exclusive, replays a pending record. */
    constructor Open(disk: Disk<K, V>)
      ensures State() == Disk(Logical(disk), None) && writable
      ensures trace == RecoverOps(disk)
    {
      files, prepared, writable, trace := disk.files, disk.prepared, true, [];
      new;
      assert State() == disk;
      Recover();
      assert [] + RecoverOps(disk) == RecoverOps(disk);
    }

    /** `Store::read_only`: a pending record turns the reader into a writer that replays it. */
    constructor ReadOnly(disk: Disk<K, V>)
      ensures State() == Disk(Logical(disk), None)
      ensures writable <==> disk.prepared.Some?
    {
      files, prepared, writable, trace := disk.files, disk.prepared, disk.prepared.Some?, [];
      new;
      assert State() == disk;
      if prepared.Some? {
        Recover();
      }
    }

    method Recover()
      modifies this
      ensures State() == Disk(Logical(old(State())), None)
      ensures trace == old(trace) + RecoverOps(old(State()))
      ensures writable == old(writable)
    {
      ghost var before := State();
      if prepared.Some? {
        var writes := prepared.value;
        var i := 0;
        assert writes[0..] == writes;
        while i < |writes|
          invariant 0 <= i <= |writes|
          invariant prepared == old(prepared) && writable == old(writable)
          invariant Overlay(files, writes[i..]) == Overlay(before.files, writes)
          invariant trace + ReplayOps(writes[i..]) == old(trace) + ReplayOps(writes)
        {
          var (key, value) := writes[i];
          assert writes[i..][1..] == writes[i + 1..];
          files := files[key := value];
          trace := trace + [Put(key, value)];
          assert trace + ReplayOps(writes[i + 1..]) == old(trace) + ReplayOps(writes);
          i := i + 1;
        }
        assert writes[i..] == [];
        prepared := None;
        trace := trace + [Discard];
      }
    }

    /**
      `Store::commit`. A refused list changes nothing; an accepted one performs exactly `CommitOps`, so
      `CommitIsCrashAtomic` speaks about every point at which it may be cut off. A record left pending is
      overwritten, not replayed: `CommitAtomicIff` says when that matters.
     */
    method Commit(writes: seq<(RawKey<K>, V)>) returns (r: Result<(), StoreError>)
      modifies this
      ensures r.Ok? <==> old(writable) && forall w :: w in writes ==> w.0.File?
      ensures r.Ok? ==> State() == Disk(Overlay(old(files), DataWrites(writes)), None)
      ensures r.Ok? ==> trace == old(trace) + CommitOps(DataWrites(writes))
      ensures r.Err? ==> State() == old(State()) && trace == old(trace)
      ensures r.Err? ==> (r.error == ReadOnlyStore <==> !old(writable))
      ensures writable == old(writable)
    {
      if !writable {
        return Err(ReadOnlyStore);
      }
      var checked := CheckKeys(writes);
      if checked.Err? {
        return Err(checked.error);
      }
      var data := checked.value;
      prepared := Some(data);
      trace := trace + [Prepare(data)];
      ghost var mid := trace;
      Recover();
      assert mid + ReplayOps(data) == old(trace) + ([Prepare(data)] + ReplayOps(data));
      return Ok(());
    }

    /**
      `without_writer_lock`: others may leave the disk in any state meanwhile; taking the lock back
      replays what they left pending. When the lock cannot be had in time nothing is replayed.
     */
    method WithoutWriterLock(meanwhile: Disk<K, V>, relocked: bool) returns (r: Result<(), StoreError>)
      modifies this
      ensures r.Ok? <==> old(writable) && relocked
      ensures r.Ok? ==> State() == Disk(Logical(meanwhile), None)
      ensures old(writable) && !relocked ==> r == Err(Busy) && State() == meanwhile
      ensures !old(writable) ==> r == Err(ReadOnlyStore) && State() == old(State())
      ensures writable == old(writable)
    {
      if !writable {
        return Err(ReadOnlyStore);
      }
      files, prepared := meanwhile.files, meanwhile.prepared;
      if !relocked {
        return Err(Busy);
      }
      assert State() == meanwhile;
      Recover();
      return Ok(());
    }
  }
}
