/**
  The scheduler over whole runs, file operation by file operation. Every write of a tick or of a handler is a
  commit on the store of `StoreRuns`, among readers, other writers, replays and deaths. A tick that does not get
  its lock back after the inference goes on without it: it marks its job, checks the revision of the
  configuration and writes its own copy back, with anything of others in between.
 */
module WatchRuns {
  import opened Results
  import W = Watch
  import S = Store
  import R = StoreRuns

  // ---------------------------------------------------------------- the files of the scheduler

  /** `EngineKey` is any file the scheduler does not read. */
  datatype Key = WatchKey | SettingsKey | JobKey(id: string) | EngineKey(name: string)

  datatype Value =
    | WatchValue(config: W.Config) | SettingsValue(settings: W.Settings) | JobValue(job: W.Job) | EngineValue(text: string)

  type Files = map<Key, Value>

  type Writes = seq<(Key, Value)>

  function WatchIn(v: Value): Option<W.Config> {
    if v.WatchValue? then Some(v.config) else None
  }

  /** The configuration a file stands for. */
  function ConfigIn(v: Value): W.Config {
    if v.WatchValue? then v.config else W.DEFAULT
  }

  function JobsOn(files: Files): map<string, W.Job> {
    map k | k in files && k.JobKey? && files[k].JobValue? :: k.id := files[k].job
  }

  /** What a process reads in the files. */
  function View(files: Files): W.Disk {
    W.Disk(if WatchKey in files then WatchIn(files[WatchKey]) else None,
           JobsOn(files),
           if SettingsKey in files && files[SettingsKey].SettingsValue? then Some(files[SettingsKey].settings) else None)
  }

  function ConfigOn(files: Files): W.Config {
    W.ConfigOf(View(files))
  }

  /** The list an event commits; none if it writes nothing. */
  function ListOf(s: W.State, e: W.Event): Writes {
    if !W.Enabled(s, e) then []
    else
      match e
      case Begin(request, ready, _) => [(JobKey(request), JobValue(W.Job(Some(ready), W.Queued)))]
      case Mark => [(JobKey(s.phase.id), JobValue(W.Job(s.phase.thread, W.Running)))]
      case Reserve => [(WatchKey, WatchValue(W.Spent(s.phase.mine)))]
      case Finish => [(JobKey(s.phase.id), JobValue(W.Job(s.phase.thread, if s.phase.ok then W.Completed else W.Failed)))]
      case Close =>
        if W.ConfigOf(s.disk).revision != s.phase.mine.revision then []
        else [(WatchKey, WatchValue(W.ConfigOf(W.Closed(s.disk, s.phase.mine, s.phase.ok))))]
      case Configure(c) => [(WatchKey, WatchValue(W.ConfigOf(W.Configured(s.disk, c).value)))]
      case SaveSettings(v, skill) =>
        var d := W.Saved(s.disk, v, skill).value;
        [(SettingsKey, SettingsValue(d.settings.value)), (WatchKey, WatchValue(W.ConfigOf(d)))]
      case Ask(request, thread) => if request in s.disk.jobs then [] else [(JobKey(request), JobValue(W.Job(thread, W.Queued)))]
      case Work(id, state) => [(JobKey(id), JobValue(s.disk.jobs[id].(state := state)))]
      case _ => []
  }

  // ---------------------------------------------------------------- the moves

  /** How far a tick without its lock has come: nothing written, its job marked, its check passed. */
  datatype Stage = Lost | Told | Passed

  datatype Stray = Stray(p: nat, id: string, thread: Option<string>, mine: W.Config, stage: Stage)

  /**
    `ticker` is the process of the tick in progress, `readings` what the lock holder has read since it last wrote.
    The rest but the store is as in `Watch.State`.
   */
  datatype World = World(
    store: R.World<Key, Value>, readings: map<nat, W.Disk>,
    ticker: nat, phase: W.Phase, budget: Option<nat>, calls: nat, carried: nat, strays: seq<Stray>)

  /**
    `Other` is an event of the store that is no commit of the scheduler, `Look` a reading under the lock, `Act` an
    event of the scheduler carried out by process `p`, `Lose` the timeout after the inference, the rest what
    stray ticks do.
   */
  datatype Move =
    | Other(operation: R.Event<Key, Value>)
    | Look(p: nat)
    | Act(p: nat, event: W.Event)
    | Lose
    | Note(i: nat)
    | Check(i: nat)
    | Put(i: nat)
    | Vanish(i: nat)

  const START := World(R.World(S.Disk(map[], None), 0, R.Free, map[], map[]), map[], 0, W.Idle, None, 0, 0, [])

  /** The scheduler with what is in the files, with what the disk stands for, and with what a process knows. */
  function Seen(w: World): W.State {
    W.State(View(w.store.disk.files), w.phase, w.budget, w.calls, w.carried)
  }

  /** Configuration and settings are those the process has read; jobs are looked up when they are written. */
  function Known(w: World, p: nat): W.State {
    var now := Seen(w);
    if p in w.readings then now.(disk := now.disk.(watch := w.readings[p].watch, settings := w.readings[p].settings)) else now
  }

  function Meant(w: World): W.State {
    W.State(View(S.Logical(w.store.disk)), w.phase, w.budget, w.calls, w.carried)
  }

  /** The process of a tick in progress. */
  predicate Ticking(w: World, p: nat) {
    !w.phase.Idle? && p == w.ticker
  }

  predicate Astray(w: World, p: nat) {
    exists i :: 0 <= i < |w.strays| && w.strays[i].p == p
  }

  /** A process has the writer lock and no commit of its own under way. */
  predicate Writing(w: World, p: nat) {
    w.store.lock == R.Held(p) && p in w.store.handles && w.store.handles[p].Idle?
  }

  /** A process without the lock that has nothing under way. */
  predicate Loose(w: World, p: nat) {
    w.store.lock != R.Held(p) && p in w.store.handles && w.store.handles[p].Idle?
  }

  /** Who may carry out an event. Interrupted jobs are recovered one by one, by `Work`. */
  predicate Acts(w: World, p: nat, e: W.Event) {
    match e
    case Begin(_, _, _) => Writing(w, p) && p in w.readings
    case Close => p == w.ticker && Writing(w, p) && p in w.readings
    case Mark | Reserve | Unlock | Skip(_) | Return(_) | Finish => p == w.ticker && Writing(w, p)
    case Call => p == w.ticker
    case Crash => Ticking(w, p)
    case Configure(_) | SaveSettings(_, _) => Writing(w, p) && p in w.readings && !Ticking(w, p)
    case Ask(_, _) | Work(_, _) => Writing(w, p) && !Ticking(w, p)
    case Recover => false
  }

  predicate Enabled(w: World, m: Move) {
    match m
    case Other(e) => Harmless(w, e)
    case Look(p) => Writing(w, p)
    case Act(p, e) => Acts(w, p, e) && W.Enabled(Known(w, p), e)
    case Lose => w.phase.Inferring? && Loose(w, w.ticker)
    case Note(i) => i < |w.strays| && w.strays[i].stage == Lost && Loose(w, w.strays[i].p)
    case Check(i) => i < |w.strays| && w.strays[i].stage == Told && Loose(w, w.strays[i].p)
    case Put(i) => i < |w.strays| && w.strays[i].stage == Passed && Loose(w, w.strays[i].p)
    case Vanish(i) => i < |w.strays|
  }

  /**
    A tick keeps the lock but for its inference, after which it takes it back; a stray tick never does. Commits
    of others touch other files only.
   */
  predicate Harmless(w: World, e: R.Event<Key, Value>) {
    match e
    case Acquire(p) => !Astray(w, p) && (Ticking(w, p) ==> w.phase.Inferring?)
    case Release(p) => !Ticking(w, p)
    case Die(p) => !Ticking(w, p) && !Astray(w, p)
    case Commit(p, writes) => Writing(w, p) && forall i :: 0 <= i < |writes| ==> writes[i].0.EngineKey?
    case _ => true
  }

  function Without(strays: seq<Stray>, i: nat): seq<Stray>
    requires i < |strays|
  {
    strays[..i] + strays[i + 1..]
  }

  /** The one write of a stray tick about its job, and the one about the configuration. */
  function NoteOf(r: Stray): Writes {
    [(JobKey(r.id), JobValue(W.Job(r.thread, W.Failed)))]
  }

  function Stopped(c: W.Config): W.Config {
    c.(failed := true, extract := false)
  }

  function PutOf(r: Stray): Writes {
    [(WatchKey, WatchValue(Stopped(r.mine)))]
  }

  /** What an event does to the store. */
  function Operation(w: World, p: nat, e: W.Event): R.World<Key, Value> {
    var list := ListOf(Known(w, p), e);
    if e.Unlock? then R.Next(w.store, R.Release(p))
    else if e.Crash? then R.Next(w.store, R.Die(p))
    else if list == [] then w.store
    else R.Next(w.store, R.Commit(p, list))
  }

  /** What was read under the lock is of no use after it. */
  predicate Forgets(e: R.Event<Key, Value>) {
    e.Acquire? || e.Release? || e.Die?
  }

  /** One move; one that is not possible changes nothing. */
  function Step(w: World, m: Move): World {
    if !Enabled(w, m) then w
    else
      match m
      case Other(e) => w.(store := R.Next(w.store, e), readings := if Forgets(e) then w.readings - {e.p} else w.readings)
      case Look(p) => w.(readings := w.readings[p := View(w.store.disk.files)])
      case Act(p, e) =>
        var t := W.Step(Known(w, p), e);
        World(Operation(w, p, e), w.readings - {p}, if e.Begin? then p else w.ticker, t.phase, t.budget, t.calls, t.carried, w.strays)
      case Lose => w.(phase := W.Idle, strays := w.strays + [Stray(w.ticker, w.phase.id, w.phase.thread, w.phase.mine, Lost)])
      case Note(i) =>
        var r := w.strays[i];
        w.(store := R.Next(w.store, R.Commit(r.p, NoteOf(r))), strays := w.strays[i := r.(stage := Told)])
      case Check(i) =>
        var r := w.strays[i];
        if ConfigOn(w.store.disk.files).revision == r.mine.revision then w.(strays := w.strays[i := r.(stage := Passed)])
        else w.(strays := Without(w.strays, i))
      case Put(i) =>
        w.(store := R.Next(w.store, R.Commit(w.strays[i].p, PutOf(w.strays[i]))), strays := Without(w.strays, i))
      case Vanish(i) => w.(store := R.Next(w.store, R.Die(w.strays[i].p)), strays := Without(w.strays, i))
  }

  // ---------------------------------------------------------------- what a tick without its lock may do

  /**
    What a stray tick writes its configuration over: the revision that it checked, or another one, without or
    with a tick in progress.
   */
  datatype Over = Checked | Aside | Beside

  function OverOf(w: World, i: nat): Over
    requires i < |w.strays|
  {
    if ConfigOn(w.store.disk.files).revision == w.strays[i].mine.revision then Checked
    else if w.phase.Idle? then Aside
    else Beside
  }

  /** In which situations of the store a handle without the lock may change a file, and over what it may put its configuration. */
  datatype Rule = Rule(places: set<R.Situation>, overs: set<Over>)

  ghost predicate Permits(rule: Rule, w: World, m: Move) {
    Enabled(w, m) &&
    match m
    case Other(e) => R.Keeps(rule.places, w.store, e)
    case Note(i) => R.Keeps(rule.places, w.store, R.Commit(w.strays[i].p, NoteOf(w.strays[i])))
    case Put(i) => R.Keeps(rule.places, w.store, R.Commit(w.strays[i].p, PutOf(w.strays[i]))) && OverOf(w, i) in rule.overs
    case _ => true
  }

  function Run(w: World, moves: seq<Move>): Option<World>
    decreases |moves|
  {
    if moves == [] then Some(w)
    else
      var before := Run(w, moves[..|moves| - 1]);
      if before.Some? && Enabled(before.value, moves[|moves| - 1]) then Some(Step(before.value, moves[|moves| - 1])) else None
  }

  ghost predicate Obeys(rule: Rule, w: World, moves: seq<Move>)
    decreases |moves|
  {
    moves == []
    || (Obeys(rule, w, moves[..|moves| - 1])
        && var before := Run(w, moves[..|moves| - 1]); before.Some? && Permits(rule, before.value, moves[|moves| - 1]))
  }

  predicate Reconfigures(m: Move) {
    m.Act? && W.Reconfigures(m.event)
  }

  predicate Quiet(moves: seq<Move>) {
    forall m :: m in moves ==> !Reconfigures(m)
  }

  function Called(m: Move): nat {
    if m.Act? && m.event.Call? then 1 else 0
  }

  function Calls(moves: seq<Move>): nat {
    if moves == [] then 0 else Calls(moves[..|moves| - 1]) + Called(moves[|moves| - 1])
  }

  // ---------------------------------------------------------------- lists are steps

  lemma OverlayOne(files: Files, k: Key, v: Value)
    ensures S.Overlay(files, [(k, v)]) == files[k := v]
  {
    assert [(k, v)][1..] == [];
  }

  lemma JobAt(files: Files, id: string)
    ensures id in JobsOn(files) <==> JobKey(id) in files && files[JobKey(id)].JobValue?
    ensures id in JobsOn(files) ==> JobsOn(files)[id] == files[JobKey(id)].job
  {
  }

  lemma ViewOfJob(files: Files, id: string, j: W.Job)
    ensures View(files[JobKey(id) := JobValue(j)]) == W.WithJob(View(files), id, j)
  {
    var more := files[JobKey(id) := JobValue(j)];
    forall a: string
      ensures a in JobsOn(more) <==> a in JobsOn(files)[id := j]
      ensures a in JobsOn(more) ==> JobsOn(more)[a] == JobsOn(files)[id := j][a]
    {
      JobAt(files, a);
      JobAt(more, a);
    }
    assert JobsOn(more) == JobsOn(files)[id := j];
  }

  lemma ViewOfWatch(files: Files, c: W.Config)
    ensures View(files[WatchKey := WatchValue(c)]) == View(files).(watch := Some(c))
  {
  }

  lemma ViewOfSettings(files: Files, v: W.Settings, c: W.Config)
    ensures View(S.Overlay(files, [(SettingsKey, SettingsValue(v)), (WatchKey, WatchValue(c))]))
            == View(files).(settings := Some(v), watch := Some(c))
  {
    var list := [(SettingsKey, SettingsValue(v)), (WatchKey, WatchValue(c))];
    assert list[1..] == [(WatchKey, WatchValue(c))];
    OverlayOne(files[SettingsKey := SettingsValue(v)], WatchKey, WatchValue(c));
    ViewOfWatch(files[SettingsKey := SettingsValue(v)], c);
  }

  /** A committed list is the step of the scheduler on what the files hold. */
  lemma ListIsStep(files: Files, s: W.State, e: W.Event)
    requires s.disk == View(files) && W.Enabled(s, e) && !e.Recover?
    ensures View(S.Overlay(files, ListOf(s, e))) == W.Step(s, e).disk
  {
    var list := ListOf(s, e);
    if |list| == 1 {
      var (k, v) := list[0];
      assert list == [(k, v)];
      OverlayOne(files, k, v);
      if k.JobKey? {
        ViewOfJob(files, k.id, v.job);
      } else {
        ViewOfWatch(files, v.config);
      }
    } else if e.SaveSettings? {
      var d := W.Saved(s.disk, e.settings, e.skill).value;
      ViewOfSettings(files, d.settings.value, W.ConfigOf(d));
    }
  }

  // ---------------------------------------------------------------- a configuration that may be in force

  function Owing(s: W.State): nat {
    if W.Owed(s.phase) then 1 else 0
  }

  /** Calls made and still owed leave the budget with what this configuration allows. */
  predicate Covers(s: W.State, c: W.Config)
    requires s.budget.Some?
  {
    !c.continuous && c.remaining <= s.budget.value && s.calls + Owing(s) + c.remaining <= s.budget.value + s.carried
  }

  /** The copy of a tick is never newer than what is stored, once it has reserved its job. */
  predicate PhaseFine(s: W.State, c: W.Config) {
    && (W.Steady(s.phase) ==> W.MaySpend(s.phase.mine))
    && (!s.phase.Idle? && !W.Steady(s.phase) ==> s.phase.mine.revision <= c.revision)
  }

  /** What may be spent is covered: by the stored configuration, or by the copy that a tick is about to store. */
  predicate BudgetFine(s: W.State, c: W.Config) {
    s.budget.Some? ==>
      && s.calls + Owing(s) <= s.budget.value + s.carried
      && (W.MaySpend(c) ==> Covers(s, c))
      && (!s.phase.Idle? && (W.Steady(s.phase) || s.phase.mine.revision == c.revision) ==> Covers(s, s.phase.mine))
  }

  /** The scheduler is sound if this configuration is the one in force. */
  predicate Fine(s: W.State, c: W.Config) {
    PhaseFine(s, c) && BudgetFine(s, c)
  }

  /** The events that write a configuration. */
  predicate Rewrites(s: W.State, e: W.Event) {
    e.Reserve? || e.Configure? || e.SaveSettings?
    || (e.Close? && s.phase.Finished? && W.ConfigOf(s.disk).revision == s.phase.mine.revision)
  }

  lemma RewriteKeepsFine(s: W.State, e: W.Event)
    requires W.Enabled(s, e) && Rewrites(s, e) && Fine(s, W.ConfigOf(s.disk))
    ensures Fine(W.Step(s, e), W.ConfigOf(W.Step(s, e).disk))
  {
  }

  /** The other events keep whatever may be in force; a tick that begins takes its copy from what it has read. */
  lemma OthersKeepFine(s: W.State, e: W.Event, c: W.Config)
    requires W.Enabled(s, e) && !Rewrites(s, e) && Fine(s, c)
    requires e.Begin? ==> Fine(s, W.ConfigOf(s.disk))
    ensures Fine(W.Step(s, e), c)
  {
  }

  /** A tick that has failed may put its copy over anything but another revision beside a tick in progress. */
  lemma StoppedIsFine(s: W.State, c: W.Config, mine: W.Config)
    requires Fine(s, c) && (c.revision == mine.revision || s.phase.Idle?)
    ensures Fine(s, Stopped(mine))
  {
  }

  // ---------------------------------------------------------------- what may come to be stored

  /** The files stand for whole commits, whatever was lost before. */
  ghost predicate Solid(st: R.World<Key, Value>) {
    R.Sound(st.(truth := S.Logical(st.disk)))
  }

  /** Replays of the pending record know it. */
  ghost predicate Tidy(st: R.World<Key, Value>) {
    && (st.lock.Held? ==> st.lock.owner in st.handles)
    && forall p :: p in st.handles && st.handles[p].Replaying? ==>
         var r := st.handles[p];
         && r.done <= |r.writes| && r.stamp <= st.stamp
         && (r.stamp == st.stamp && st.disk.prepared.Some? ==> st.disk.prepared.value == r.writes)
  }

  /** A list has this configuration from some place on. */
  ghost predicate Carries(writes: Writes, from: nat, c: W.Config) {
    exists j :: from <= j < |writes| && writes[j].0 == WatchKey && c == ConfigIn(writes[j].1)
  }

  /** In the files, in the pending record, or still to be filled in by the lock holder. */
  ghost predicate InPlay(st: R.World<Key, Value>, c: W.Config) {
    || c == ConfigOn(st.disk.files)
    || (st.disk.prepared.Some? && Carries(st.disk.prepared.value, 0, c))
    || (st.lock.Held? && st.lock.owner in st.handles && st.handles[st.lock.owner].Replaying?
        && Carries(st.handles[st.lock.owner].writes, st.handles[st.lock.owner].done, c))
  }

  /** A configuration that the store may turn out to hold. */
  ghost predicate Stored(st: R.World<Key, Value>, c: W.Config) {
    if Solid(st) then c == ConfigOn(S.Logical(st.disk)) else InPlay(st, c)
  }

  /** What may be stored or has been read by the lock holder. */
  ghost predicate Possible(w: World, c: W.Config) {
    Stored(w.store, c) || (w.store.lock.Held? && w.store.lock.owner in w.readings && c == W.ConfigOf(w.readings[w.store.lock.owner]))
  }

  lemma ConfigAfter(files: Files, writes: Writes)
    ensures var c := ConfigOn(S.Overlay(files, writes));
            (WatchKey !in S.KeysOf(writes) && c == ConfigOn(files)) || Carries(writes, 0, c)
    decreases |writes|
  {
    S.OverlayAt(files, writes, WatchKey);
    if WatchKey in S.KeysOf(writes) {
      var i := LastWatch(writes);
      assert ConfigOn(S.Overlay(files, writes)) == ConfigIn(writes[i].1);
    }
  }

  lemma LastWatch(writes: Writes) returns (i: nat)
    requires WatchKey in S.KeysOf(writes)
    ensures i < |writes| && writes[i].0 == WatchKey && forall j :: i < j < |writes| ==> writes[j].0 != WatchKey
  {
    i :| i < |writes| && writes[i].0 == WatchKey;
    var k := i;
    while k < |writes|
      invariant i < |writes| && writes[i].0 == WatchKey && i <= k <= |writes|
      invariant forall j :: i < j < k ==> writes[j].0 != WatchKey
    {
      if writes[k].0 == WatchKey {
        i := k;
      }
      k := k + 1;
    }
  }

  lemma LogicalInPlay(st: R.World<Key, Value>)
    ensures InPlay(st, ConfigOn(S.Logical(st.disk)))
  {
    if st.disk.prepared.Some? {
      ConfigAfter(st.disk.files, st.disk.prepared.value);
    }
  }

  lemma StoredInPlay(st: R.World<Key, Value>, c: W.Config)
    requires Stored(st, c)
    ensures InPlay(st, c)
  {
    LogicalInPlay(st);
  }

  /** The lock holder finds its record removed: all that it has left to fill in is in the files. */
  lemma NoNews(st: R.World<Key, Value>)
    requires Solid(st) && st.disk.prepared.None? && st.lock.Held? && st.handles[st.lock.owner].Replaying?
    ensures forall i :: 0 <= i < |st.handles[st.lock.owner].writes| ==>
              var (k, v) := st.handles[st.lock.owner].writes[i]; k in st.disk.files && st.disk.files[k] == v
  {
    S.OverlayDistinct(st.disk.files, st.handles[st.lock.owner].writes);
  }

  lemma NothingPending(st: R.World<Key, Value>, c: W.Config)
    requires st.disk.prepared.None? && InPlay(st, c)
    ensures Stored(st, c)
  {
    if Solid(st) && st.lock.Held? && st.handles[st.lock.owner].Replaying? {
      NoNews(st);
    }
  }

  lemma WriterSees(st: R.World<Key, Value>)
    requires st.lock.Held? && st.lock.owner in st.handles && st.handles[st.lock.owner].Idle?
    ensures Stored(st, ConfigOn(st.disk.files))
  {
  }

  /** A commit of the lock holder is never lost, whatever went before. */
  lemma HolderCommits(st: R.World<Key, Value>, p: nat, writes: Writes)
    requires Tidy(st) && st.lock == R.Held(p) && p in st.handles && st.handles[p].Idle?
    ensures var t := R.Next(st, R.Commit(p, writes));
            Tidy(t) && Solid(t) && S.Logical(t.disk) == S.Overlay(st.disk.files, writes)
  {
    var t := R.Next(st, R.Commit(p, writes));
    var v := t.(truth := S.Logical(t.disk));
    forall q | q in v.handles
      ensures R.GoodHandle(v, q)
    {
    }
  }

  // ---------------------------------------------------------------- every file operation

  /**
    Where handles without the lock may change files without harm to the scheduler: they begin while no record of
    others is pending, fill in files while their record is the pending one, and remove no record of others. Under
    somebody's lock their own write may be lost then, and nothing else.
   */
  predicate Bearable(s: R.Situation) {
    if s.move == R.Fill then s.record == R.Mine else s.record != R.Foreign
  }

  ghost predicate Careful(places: set<R.Situation>) {
    forall s :: s in places ==> Bearable(s)
  }

  lemma {:induction false} SolidStays(places: set<R.Situation>, st: R.World<Key, Value>, e: R.Event<Key, Value>)
    requires Solid(st) && Careful(places) && R.Keeps(places, st, e) && !e.Commit?
    ensures Solid(R.Next(st, e)) && S.Logical(R.Next(st, e).disk) == S.Logical(st.disk)
  {
    var v := st.(truth := S.Logical(st.disk));
    var safe := set s | s in places && (R.Allowed(s) || R.Never(s));
    assert R.Loose(v, e) ==> R.SituationOf(v, e) in safe;
    R.NextSound(v, e, safe);
    assert R.Next(v, e) == R.Next(st, e).(truth := S.Logical(st.disk));
  }

  lemma TidyStays(places: set<R.Situation>, st: R.World<Key, Value>, e: R.Event<Key, Value>)
    requires Tidy(st) && Careful(places) && R.Keeps(places, st, e)
    ensures Tidy(R.Next(st, e))
  {
  }

  /** No event but a commit brings a configuration into play. */
  lemma InPlayBefore(places: set<R.Situation>, st: R.World<Key, Value>, e: R.Event<Key, Value>, c: W.Config)
    requires Tidy(st) && Careful(places) && R.Keeps(places, st, e) && !e.Commit?
    requires InPlay(R.Next(st, e), c)
    ensures InPlay(st, c)
  {
    if e.Step? && R.Enabled(st, e) {
      FilledBefore(places, st, e, c);
    }
  }

  lemma FilledBefore(places: set<R.Situation>, st: R.World<Key, Value>, e: R.Event<Key, Value>, c: W.Config)
    requires Tidy(st) && Careful(places) && R.Keeps(places, st, e) && e.Step? && R.Enabled(st, e)
    requires InPlay(R.Next(st, e), c)
    ensures InPlay(st, c)
  {
    var r := st.handles[e.p];
    if r.done < |r.writes| {
      var (k, v) := r.writes[r.done];
      if k == WatchKey && c == ConfigIn(v) {
        if st.lock == R.Held(e.p) {
          assert Carries(r.writes, r.done, c);
        } else {
          assert R.SituationOf(st, e).record == R.Mine;
          assert Carries(st.disk.prepared.value, 0, c);
        }
      }
    }
  }

  lemma StoredBefore(places: set<R.Situation>, st: R.World<Key, Value>, e: R.Event<Key, Value>, c: W.Config)
    requires Tidy(st) && Careful(places) && R.Keeps(places, st, e) && !e.Commit?
    requires Stored(R.Next(st, e), c)
    ensures Stored(st, c)
  {
    if Solid(st) {
      SolidStays(places, st, e);
    } else {
      StoredInPlay(R.Next(st, e), c);
      InPlayBefore(places, st, e, c);
    }
  }

  /** A commit without the lock: nothing is pending, and its own list is all that is new. */
  lemma LooseCommits(places: set<R.Situation>, st: R.World<Key, Value>, p: nat, k: Key, v: Value, c: W.Config)
    requires Careful(places) && p in st.handles && st.handles[p].Idle? && st.lock != R.Held(p)
    requires R.Keeps(places, st, R.Commit(p, [(k, v)])) && Stored(R.Next(st, R.Commit(p, [(k, v)])), c)
    ensures st.disk.prepared.None? && (Stored(st, c) || (k == WatchKey && c == ConfigIn(v)))
  {
    var e: R.Event<Key, Value> := R.Commit(p, [(k, v)]);
    assert R.Loose(st, e);
    assert R.SituationOf(st, e).record != R.Mine;
    assert st.disk.prepared.None?;
    StoredInPlay(R.Next(st, e), c);
    if !(k == WatchKey && c == ConfigIn(v)) {
      assert InPlay(st, c);
      NothingPending(st, c);
    }
  }

  // ---------------------------------------------------------------- every move

  /** Where a configuration that may be in force after a move comes from. */
  ghost predicate Source(w: World, m: Move, c: W.Config) {
    if m.Act? && Rewrites(Known(w, m.p), m.event) then c == W.ConfigOf(W.Step(Known(w, m.p), m.event).disk)
    else Possible(w, c) || (m.Put? && m.i < |w.strays| && c == Stopped(w.strays[m.i].mine))
  }

  lemma KnownIsPossible(w: World, p: nat)
    requires Writing(w, p)
    ensures Possible(w, W.ConfigOf(Known(w, p).disk)) && Possible(w, ConfigOn(w.store.disk.files))
  {
    WriterSees(w.store);
  }

  /** After a commit of the scheduler nothing else is possible. */
  lemma CommitOrigins(w: World, p: nat, e: W.Event, c: W.Config)
    requires Tidy(w.store) && Enabled(w, Act(p, e)) && Writing(w, p) && !e.Unlock? && !e.Crash? && !e.Recover? && ListOf(Known(w, p), e) != []
    requires Possible(Step(w, Act(p, e)), c)
    ensures Tidy(Step(w, Act(p, e)).store) && Source(w, Act(p, e), c)
  {
    HolderCommits(w.store, p, ListOf(Known(w, p), e));
    KnownIsPossible(w, p);
    CommittedConfig(w.store.disk.files, Known(w, p), e);
  }

  lemma ActOrigins(w: World, p: nat, e: W.Event, c: W.Config)
    requires Tidy(w.store) && Enabled(w, Act(p, e)) && Possible(Step(w, Act(p, e)), c)
    ensures Tidy(Step(w, Act(p, e)).store) && Source(w, Act(p, e), c)
  {
    if e.Unlock? {
      TidyStays({}, w.store, R.Release(p));
      StoredBefore({}, w.store, R.Release(p), c);
    } else if e.Crash? {
      CrashOrigins(w, p, c);
    } else if ListOf(Known(w, p), e) != [] {
      CommitOrigins(w, p, e, c);
    }
  }

  lemma CrashOrigins(w: World, p: nat, c: W.Config)
    requires Tidy(w.store) && Enabled(w, Act(p, W.Crash)) && Possible(Step(w, Act(p, W.Crash)), c)
    ensures Tidy(Step(w, Act(p, W.Crash)).store) && Possible(w, c)
  {
    TidyStays({}, w.store, R.Die(p));
    if Stored(R.Next(w.store, R.Die(p)), c) {
      StoredBefore({}, w.store, R.Die(p), c);
    }
  }

  lemma CommittedConfig(files: Files, s: W.State, e: W.Event)
    requires W.Enabled(s, e) && !e.Recover?
    ensures ConfigOn(S.Overlay(files, ListOf(s, e))) == if Rewrites(s, e) then W.ConfigOf(W.Step(s, e).disk) else ConfigOn(files)
  {
    var list := ListOf(s, e);
    if |list| == 1 {
      OverlayOne(files, list[0].0, list[0].1);
      assert list == [(list[0].0, list[0].1)];
    } else if e.SaveSettings? {
      ViewOfSettings(files, list[0].1.settings, list[1].1.config);
    }
  }

  lemma StrayOrigins(rule: Rule, w: World, m: Move, r: Stray, k: Key, v: Value, c: W.Config)
    requires Tidy(w.store) && Careful(rule.places) && Enabled(w, m) && Permits(rule, w, m) && (m.Note? || m.Put?)
    requires r == w.strays[m.i] && [(k, v)] == (if m.Note? then NoteOf(r) else PutOf(r))
    requires Possible(Step(w, m), c)
    ensures Tidy(Step(w, m).store) && Source(w, m, c) && w.store.disk.prepared.None?
  {
    TidyStays(rule.places, w.store, R.Commit(r.p, [(k, v)]));
    if Stored(R.Next(w.store, R.Commit(r.p, [(k, v)])), c) {
      LooseCommits(rule.places, w.store, r.p, k, v, c);
    } else {
      LogicalInPlay(R.Next(w.store, R.Commit(r.p, [(k, v)])));
      NothingWhenLoose(rule.places, w.store, r.p, [(k, v)]);
    }
  }

  lemma NothingWhenLoose(places: set<R.Situation>, st: R.World<Key, Value>, p: nat, writes: Writes)
    requires Careful(places) && p in st.handles && st.handles[p].Idle? && st.lock != R.Held(p)
    requires R.Keeps(places, st, R.Commit(p, writes))
    ensures st.disk.prepared.None?
  {
    assert R.Loose(st, R.Commit(p, writes));
    assert R.SituationOf(st, R.Commit(p, writes)).record != R.Mine;
  }

  lemma OtherOrigins(rule: Rule, w: World, e: R.Event<Key, Value>, c: W.Config)
    requires Tidy(w.store) && Careful(rule.places) && Enabled(w, Other(e)) && Permits(rule, w, Other(e))
    requires Possible(Step(w, Other(e)), c)
    ensures Tidy(Step(w, Other(e)).store) && Possible(w, c)
  {
    TidyStays(rule.places, w.store, e);
    var t := Step(w, Other(e));
    if e.Commit? {
      HolderCommits(w.store, e.p, e.writes);
      ConfigAfter(w.store.disk.files, e.writes);
      WriterSees(w.store);
    } else if Stored(t.store, c) {
      StoredBefore(rule.places, w.store, e, c);
    }
  }

  lemma Origins(rule: Rule, w: World, m: Move, c: W.Config)
    requires Tidy(w.store) && Careful(rule.places) && Enabled(w, m) && Permits(rule, w, m) && Possible(Step(w, m), c)
    ensures Tidy(Step(w, m).store) && Source(w, m, c)
  {
    match m
    case Other(e) => OtherOrigins(rule, w, e, c);
    case Look(p) => WriterSees(w.store);
    case Act(p, e) => ActOrigins(w, p, e, c);
    case Lose =>
    case Note(i) =>
      var r := w.strays[i];
      StrayOrigins(rule, w, m, r, JobKey(r.id), JobValue(W.Job(r.thread, W.Failed)), c);
    case Check(i) =>
    case Put(i) =>
      var r := w.strays[i];
      StrayOrigins(rule, w, m, r, WatchKey, WatchValue(Stopped(r.mine)), c);
    case Vanish(i) =>
      TidyStays(rule.places, w.store, R.Die(w.strays[i].p));
      if Stored(R.Next(w.store, R.Die(w.strays[i].p)), c) {
        StoredBefore(rule.places, w.store, R.Die(w.strays[i].p), c);
      }
  }

  /** A stray tick puts its copy over what may be stored. */
  lemma PutsOverStored(rule: Rule, w: World, i: nat)
    requires Careful(rule.places) && Enabled(w, Put(i)) && Permits(rule, w, Put(i))
    ensures Possible(w, ConfigOn(w.store.disk.files))
  {
    NothingWhenLoose(rule.places, w.store, w.strays[i].p, PutOf(w.strays[i]));
    NothingPending(w.store, ConfigOn(w.store.disk.files));
  }

  // ---------------------------------------------------------------- the invariant of the budget

  ghost predicate Good(w: World) {
    Tidy(w.store) && forall c :: Possible(w, c) ==> Fine(Seen(w), c)
  }

  lemma FineAnywhere(s: W.State, d: W.Disk, c: W.Config)
    ensures Fine(s.(disk := d), c) == Fine(s, c)
  {
  }

  /** Something is always possible. */
  lemma SomethingStored(w: World)
    ensures Possible(w, ConfigOn(S.Logical(w.store.disk)))
  {
    LogicalInPlay(w.store);
  }

  lemma MoveKeepsGood(rule: Rule, w: World, m: Move)
    requires Good(w) && Careful(rule.places) && Beside !in rule.overs && Enabled(w, m) && Permits(rule, w, m)
    ensures Good(Step(w, m))
  {
    SomethingStored(Step(w, m));
    Origins(rule, w, m, ConfigOn(S.Logical(Step(w, m).store.disk)));
    forall c | Possible(Step(w, m), c)
      ensures Fine(Seen(Step(w, m)), c)
    {
      Origins(rule, w, m, c);
      SourceIsFine(rule, w, m, c);
    }
  }

  lemma SourceIsFine(rule: Rule, w: World, m: Move, c: W.Config)
    requires Good(w) && Careful(rule.places) && Beside !in rule.overs && Enabled(w, m) && Permits(rule, w, m)
    requires Source(w, m, c)
    ensures Fine(Seen(Step(w, m)), c)
  {
    if m.Act? {
      ActIsFine(w, m.p, m.event, c);
    } else if m.Put? && c == Stopped(w.strays[m.i].mine) {
      PutsOverStored(rule, w, m.i);
      StoppedIsFine(Seen(w), ConfigOn(w.store.disk.files), w.strays[m.i].mine);
    }
  }

  lemma ActIsFine(w: World, p: nat, e: W.Event, c: W.Config)
    requires Good(w) && Enabled(w, Act(p, e)) && Source(w, Act(p, e), c)
    ensures Fine(Seen(Step(w, Act(p, e))), c)
  {
    var s := Known(w, p);
    var read := W.ConfigOf(s.disk);
    if Rewrites(s, e) || e.Begin? {
      KnownIsPossible(w, p);
      FineAnywhere(Seen(w), s.disk, read);
    }
    if Rewrites(s, e) {
      RewriteKeepsFine(s, e);
    } else {
      FineAnywhere(Seen(w), s.disk, c);
      OthersKeepFine(s, e, c);
    }
    var t := Step(w, Act(p, e));
    assert Seen(t) == W.Step(s, e).(disk := Seen(t).disk);
    FineAnywhere(W.Step(s, e), Seen(t).disk, c);
  }

  /**
    Along every run what may be spent is covered, as long as handles without the lock are careful and no stray
    tick writes over another revision beside a tick in progress.
   */
  lemma {:induction false} RunKeeps(rule: Rule, w: World, moves: seq<Move>)
    requires Good(w) && Careful(rule.places) && Beside !in rule.overs && Run(w, moves).Some? && Obeys(rule, w, moves)
    ensures Good(Run(w, moves).value)
    decreases |moves|
  {
    if moves != [] {
      RunKeeps(rule, w, moves[..|moves| - 1]);
      MoveKeepsGood(rule, Run(w, moves[..|moves| - 1]).value, moves[|moves| - 1]);
    }
  }

  lemma MoveCounts(w: World, m: Move)
    requires Enabled(w, m) && !Reconfigures(m)
    ensures var t := Step(w, m); t.budget == w.budget && t.carried == w.carried && t.calls == w.calls + Called(m)
  {
  }

  lemma {:induction false} RunCounts(w: World, moves: seq<Move>)
    requires Run(w, moves).Some? && Quiet(moves)
    ensures var t := Run(w, moves).value; t.budget == w.budget && t.carried == w.carried && t.calls == w.calls + Calls(moves)
    decreases |moves|
  {
    if moves != [] {
      var front, m := moves[..|moves| - 1], moves[|moves| - 1];
      assert m in moves && forall f :: f in front ==> f in moves;
      RunCounts(w, front);
      MoveCounts(Run(w, front).value, m);
    }
  }

  /** What is stored, once everything pending has been replayed. */
  function Settled(w: World): W.Disk {
    View(S.Logical(w.store.disk))
  }

  // ---------------------------------------------------------------- copies that agree

  predicate Alike(a: W.Config, b: W.Config) {
    a.revision == b.revision && a.remaining == b.remaining && a.continuous == b.continuous
  }

  /** A copy is older than what is stored, or of the same allowance. */
  predicate Agrees(mine: W.Config, stored: W.Config) {
    mine.revision < stored.revision || Alike(mine, stored)
  }

  predicate CopyAgrees(s: W.State, c: W.Config) {
    (!s.phase.Idle? ==> Agrees(s.phase.mine, c)) && (W.Steady(s.phase) ==> Alike(s.phase.mine, c))
  }

  predicate StraysAgree(strays: seq<Stray>, c: W.Config) {
    forall i :: 0 <= i < |strays| ==> Agrees(strays[i].mine, c)
  }

  /** Whatever may be stored is of one revision and allowance, and no copy is newer. */
  ghost predicate CopiesAgree(w: World) {
    Tidy(w.store) && forall c :: Possible(w, c) ==>
      Alike(c, W.ConfigOf(Settled(w))) && CopyAgrees(Seen(w), c) && StraysAgree(w.strays, c)
  }

  lemma RewriteKeepsCopy(s: W.State, e: W.Event)
    requires W.Enabled(s, e) && Rewrites(s, e) && CopyAgrees(s, W.ConfigOf(s.disk))
    ensures CopyAgrees(W.Step(s, e), W.ConfigOf(W.Step(s, e).disk)) && Agrees(W.ConfigOf(s.disk), W.ConfigOf(W.Step(s, e).disk))
    ensures !W.Reconfigures(e) ==> W.ConfigOf(W.Step(s, e).disk).remaining <= W.ConfigOf(s.disk).remaining
  {
  }

  lemma OthersKeepCopy(s: W.State, e: W.Event, c: W.Config)
    requires W.Enabled(s, e) && !Rewrites(s, e) && CopyAgrees(s, c) && (e.Begin? ==> Alike(W.ConfigOf(s.disk), c))
    ensures CopyAgrees(W.Step(s, e), c)
  {
  }

  /** A possible configuration after a move agrees with the copies, and its allowance is no larger. */
  lemma SourceAgrees(rule: Rule, w: World, m: Move, c: W.Config)
    requires CopiesAgree(w) && Careful(rule.places) && rule.overs <= {Checked} && Enabled(w, m) && Permits(rule, w, m)
    requires Source(w, m, c)
    ensures CopyAgrees(Seen(Step(w, m)), c) && StraysAgree(Step(w, m).strays, c)
    ensures if m.Act? && Rewrites(Known(w, m.p), m.event) then c == W.ConfigOf(W.Step(Known(w, m.p), m.event).disk)
            else Alike(c, W.ConfigOf(Settled(w)))
    ensures !Reconfigures(m) ==> c.remaining <= W.ConfigOf(Settled(w)).remaining
  {
    if m.Act? {
      ActAgrees(w, m.p, m.event, c);
    } else {
      SomethingStored(w);
      if m.Put? {
        PutsOverStored(rule, w, m.i);
      }
      StraysStillAgree(w, m, if Possible(w, c) then c else ConfigOn(w.store.disk.files));
      assert Alike(c, W.ConfigOf(Settled(w)));
    }
  }

  /** Stray ticks only come from the tick in progress, and go. */
  lemma StraysStillAgree(w: World, m: Move, c: W.Config)
    requires Enabled(w, m) && !m.Act? && CopyAgrees(Seen(w), c) && StraysAgree(w.strays, c)
    ensures CopyAgrees(Seen(Step(w, m)), c) && StraysAgree(Step(w, m).strays, c)
  {
  }

  lemma ActAgrees(w: World, p: nat, e: W.Event, c: W.Config)
    requires CopiesAgree(w) && Enabled(w, Act(p, e)) && Source(w, Act(p, e), c)
    ensures CopyAgrees(W.Step(Known(w, p), e), c) && StraysAgree(w.strays, c)
    ensures if Rewrites(Known(w, p), e) then c == W.ConfigOf(W.Step(Known(w, p), e).disk) else Alike(c, W.ConfigOf(Settled(w)))
    ensures !W.Reconfigures(e) ==> c.remaining <= W.ConfigOf(Settled(w)).remaining
  {
    var s := Known(w, p);
    if Rewrites(s, e) {
      KnownIsPossible(w, p);
      RewriteKeepsCopy(s, e);
    } else {
      if e.Begin? {
        KnownIsPossible(w, p);
      }
      OthersKeepCopy(s, e, c);
    }
  }

  lemma MoveKeepsCopies(rule: Rule, w: World, m: Move)
    requires CopiesAgree(w) && Careful(rule.places) && rule.overs <= {Checked} && Enabled(w, m) && Permits(rule, w, m)
    ensures CopiesAgree(Step(w, m))
    ensures !Reconfigures(m) ==> W.ConfigOf(Settled(Step(w, m))).remaining <= W.ConfigOf(Settled(w)).remaining
  {
    var t := Step(w, m);
    var stored := W.ConfigOf(Settled(t));
    SomethingStored(t);
    Origins(rule, w, m, stored);
    SourceAgrees(rule, w, m, stored);
    forall c | Possible(t, c)
      ensures Alike(c, stored) && CopyAgrees(Seen(t), c) && StraysAgree(t.strays, c)
    {
      Origins(rule, w, m, c);
      SourceAgrees(rule, w, m, c);
    }
  }

  /** Where only checked revisions are written over, nothing but a reconfiguration raises the stored allowance. */
  lemma {:induction false} AllowanceNeverRises(rule: Rule, w: World, moves: seq<Move>)
    requires CopiesAgree(w) && Careful(rule.places) && rule.overs <= {Checked} && Run(w, moves).Some? && Obeys(rule, w, moves)
    ensures CopiesAgree(Run(w, moves).value)
    ensures Quiet(moves) ==> W.ConfigOf(Settled(Run(w, moves).value)).remaining <= W.ConfigOf(Settled(w)).remaining
    decreases |moves|
  {
    if moves != [] {
      var front, m := moves[..|moves| - 1], moves[|moves| - 1];
      assert m in moves && forall f :: f in front ==> f in moves;
      AllowanceNeverRises(rule, w, front);
      MoveKeepsCopies(rule, Run(w, front).value, m);
    }
  }

  // ---------------------------------------------------------------- spending is off

  /** While spending is off, a run can only carry out the call that is owed. */
  predicate Wound(s: W.State, c: W.Config) {
    !W.MaySpend(c) && !W.Steady(s.phase) && (!s.phase.Idle? ==> s.phase.mine.revision < c.revision)
  }

  ghost predicate Winding(w: World) {
    Tidy(w.store) && forall c :: Possible(w, c) ==> Wound(Seen(w), c)
  }

  lemma OthersKeepWound(s: W.State, e: W.Event, c: W.Config)
    requires W.Enabled(s, e) && Wound(s, c) && Wound(s, W.ConfigOf(s.disk)) && !W.Reconfigures(e)
    ensures !Rewrites(s, e) && Wound(W.Step(s, e), c)
    ensures (if e.Call? then 1 else 0) + Owing(W.Step(s, e)) <= Owing(s)
  {
  }

  lemma ActIsWound(w: World, p: nat, e: W.Event, c: W.Config)
    requires Winding(w) && Enabled(w, Act(p, e)) && !W.Reconfigures(e) && Possible(w, c)
    ensures !Rewrites(Known(w, p), e) && Wound(W.Step(Known(w, p), e), c)
    ensures (if e.Call? then 1 else 0) + Owing(W.Step(Known(w, p), e)) <= Owing(Seen(w))
  {
    var s := Known(w, p);
    if Writing(w, p) {
      KnownIsPossible(w, p);
      OthersKeepWound(s, e, c);
    } else {
      OthersKeepWound(s.(disk := W.Disk(Some(c), map[], None)), e, c);
    }
  }

  lemma SourceIsWound(rule: Rule, w: World, m: Move, c: W.Config)
    requires Winding(w) && Careful(rule.places) && Beside !in rule.overs && Enabled(w, m) && Permits(rule, w, m)
    requires Source(w, m, c) && !Reconfigures(m)
    ensures Wound(Seen(Step(w, m)), c) && Called(m) + Owing(Seen(Step(w, m))) <= Owing(Seen(w))
  {
    if m.Act? {
      SomethingStored(w);
      ActIsWound(w, m.p, m.event, W.ConfigOf(Settled(w)));
      ActIsWound(w, m.p, m.event, c);
    } else if m.Put? {
      PutsOverStored(rule, w, m.i);
    }
  }

  lemma WindingMove(rule: Rule, w: World, m: Move)
    requires Winding(w) && Careful(rule.places) && Beside !in rule.overs && Enabled(w, m) && Permits(rule, w, m) && !Reconfigures(m)
    ensures Winding(Step(w, m)) && Called(m) + Owing(Seen(Step(w, m))) <= Owing(Seen(w))
  {
    var t := Step(w, m);
    SomethingStored(t);
    Origins(rule, w, m, W.ConfigOf(Settled(t)));
    SourceIsWound(rule, w, m, W.ConfigOf(Settled(t)));
    forall c | Possible(t, c)
      ensures Wound(Seen(t), c)
    {
      Origins(rule, w, m, c);
      SourceIsWound(rule, w, m, c);
    }
  }

  lemma {:induction false} WindingCalls(rule: Rule, w: World, moves: seq<Move>)
    requires Winding(w) && Careful(rule.places) && Beside !in rule.overs
    requires Run(w, moves).Some? && Obeys(rule, w, moves) && Quiet(moves)
    ensures Winding(Run(w, moves).value) && Calls(moves) + Owing(Seen(Run(w, moves).value)) <= Owing(Seen(w))
    decreases |moves|
  {
    if moves != [] {
      var front, m := moves[..|moves| - 1], moves[|moves| - 1];
      assert m in moves && forall f :: f in front ==> f in moves;
      WindingCalls(rule, w, front);
      WindingMove(rule, Run(w, front).value, m);
    }
  }

  // ---------------------------------------------------------------- a newer configuration

  /** Every copy under way is older than this configuration. */
  predicate OlderCopies(phase: W.Phase, strays: seq<Stray>, c: W.Config) {
    && !W.Steady(phase) && (!phase.Idle? ==> phase.mine.revision < c.revision)
    && forall i :: 0 <= i < |strays| ==> strays[i].mine.revision < c.revision
  }

  /** This configuration is what is stored, and every copy under way is older. */
  ghost predicate Outdated(w: World, c: W.Config) {
    Tidy(w.store) && OlderCopies(w.phase, w.strays, c) && forall d :: Possible(w, d) ==> d == c
  }

  /** No tick begins, and nobody configures. */
  predicate Ending(moves: seq<Move>) {
    Quiet(moves) && forall m :: m in moves ==> !(m.Act? && m.event.Begin?)
  }

  lemma SourceIsNewer(rule: Rule, w: World, m: Move, c: W.Config, d: W.Config)
    requires Outdated(w, c) && Careful(rule.places) && rule.overs <= {Checked} && Enabled(w, m) && Permits(rule, w, m)
    requires Source(w, m, d) && !Reconfigures(m) && !(m.Act? && m.event.Begin?)
    ensures d == c
  {
    if m.Act? {
      if m.event.Close? {
        KnownIsPossible(w, m.p);
      }
    } else if m.Put? {
      PutsOverStored(rule, w, m.i);
    }
  }

  lemma CopiesStayOlder(w: World, m: Move, c: W.Config)
    requires OlderCopies(w.phase, w.strays, c) && !Reconfigures(m) && !(m.Act? && m.event.Begin?)
    ensures OlderCopies(Step(w, m).phase, Step(w, m).strays, c)
  {
    if m.Act? {
      TickStaysOlder(Known(w, m.p), m.event, c);
    }
  }

  lemma TickStaysOlder(s: W.State, e: W.Event, c: W.Config)
    requires !W.Steady(s.phase) && (!s.phase.Idle? ==> s.phase.mine.revision < c.revision) && !e.Begin?
    ensures var t := W.Step(s, e); !W.Steady(t.phase) && (!t.phase.Idle? ==> t.phase.mine.revision < c.revision)
  {
  }

  lemma OutdatedMove(rule: Rule, w: World, m: Move, c: W.Config)
    requires Outdated(w, c) && Careful(rule.places) && rule.overs <= {Checked} && Enabled(w, m) && Permits(rule, w, m)
    requires !Reconfigures(m) && !(m.Act? && m.event.Begin?)
    ensures Outdated(Step(w, m), c)
  {
    CopiesStayOlder(w, m, c);
    SomethingStored(Step(w, m));
    Origins(rule, w, m, W.ConfigOf(Settled(Step(w, m))));
    forall d | Possible(Step(w, m), d)
      ensures d == c
    {
      Origins(rule, w, m, d);
      SourceIsNewer(rule, w, m, c, d);
    }
  }

  /**
    A configuration that is newer than all copies under way stays as it is until a tick begins or the next one
    comes, if stray ticks write over the revision they have checked only.
   */
  lemma {:induction false} NewerConfigStays(rule: Rule, w: World, c: W.Config, moves: seq<Move>)
    requires Outdated(w, c) && Careful(rule.places) && rule.overs <= {Checked}
    requires Run(w, moves).Some? && Obeys(rule, w, moves) && Ending(moves)
    ensures Outdated(Run(w, moves).value, c) && W.ConfigOf(Settled(Run(w, moves).value)) == c
    decreases |moves|
  {
    if moves == [] {
      SomethingStored(w);
    } else {
      var front, m := moves[..|moves| - 1], moves[|moves| - 1];
      assert m in moves && forall f :: f in front ==> f in moves;
      NewerConfigStays(rule, w, c, front);
      OutdatedMove(rule, Run(w, front).value, m, c);
      SomethingStored(Run(w, moves).value);
    }
  }

  // ---------------------------------------------------------------- the jobs

  /** What the lock holder has read is what is stored. */
  ghost predicate ReadingsRight(w: World) {
    w.store.lock.Held? && w.store.lock.owner in w.readings ==>
      var d := w.readings[w.store.lock.owner]; d.watch == Settled(w).watch && d.settings == Settled(w).settings
  }

  ghost predicate JobsGood(s: W.State, strays: seq<Stray>) {
    && W.JobGood(s)
    && forall i :: 0 <= i < |strays| ==> strays[i].id in s.disk.jobs && (!s.phase.Idle? ==> strays[i].id != s.phase.id)
  }

  /** No commit is lost, whoever holds the lock reads what is stored, and at most one job is active. */
  ghost predicate Firm(w: World) {
    R.Sound(w.store) && ReadingsRight(w) && JobsGood(Meant(w), w.strays)
  }

  lemma FirmKnows(w: World, p: nat)
    requires Firm(w) && Writing(w, p)
    ensures Known(w, p) == Meant(w) && w.store.disk.prepared.None?
  {
  }

  /** What the disk stands for changes only when a record is written. */
  lemma NextMeans(st: R.World<Key, Value>, e: R.Event<Key, Value>)
    requires R.Sound(st) && R.Sound(R.Next(st, e))
    ensures S.Logical(R.Next(st, e).disk)
            == if e.Commit? && R.Enabled(st, e) then S.Overlay(S.Logical(st.disk), e.writes) else S.Logical(st.disk)
  {
  }

  lemma EngineListsSpare(files: Files, writes: Writes)
    requires forall i :: 0 <= i < |writes| ==> writes[i].0.EngineKey?
    ensures View(S.Overlay(files, writes)) == View(files)
  {
    var more := S.Overlay(files, writes);
    S.OverlayAt(files, writes, WatchKey);
    S.OverlayAt(files, writes, SettingsKey);
    forall id: string
      ensures id in JobsOn(more) <==> id in JobsOn(files)
      ensures id in JobsOn(more) ==> JobsOn(more)[id] == JobsOn(files)[id]
    {
      S.OverlayAt(files, writes, JobKey(id));
      JobAt(files, id);
      JobAt(more, id);
    }
    assert JobsOn(more) == JobsOn(files);
  }

  lemma OtherMeans(rule: Rule, w: World, e: R.Event<Key, Value>)
    requires Firm(w) && R.SafeRule(rule.places) && Enabled(w, Other(e)) && Permits(rule, w, Other(e))
    ensures R.Sound(R.Next(w.store, e)) && View(S.Logical(R.Next(w.store, e).disk)) == Settled(w)
  {
    R.NextSound(w.store, e, rule.places);
    NextMeans(w.store, e);
    if e.Commit? {
      EngineListsSpare(S.Logical(w.store.disk), e.writes);
    }
  }

  lemma OtherKeepsFirm(rule: Rule, w: World, e: R.Event<Key, Value>)
    requires Firm(w) && R.SafeRule(rule.places) && Enabled(w, Other(e)) && Permits(rule, w, Other(e))
    ensures Firm(Step(w, Other(e)))
  {
    OtherMeans(rule, w, e);
    var t := Step(w, Other(e));
    OwnerReads(w, e);
    assert Meant(t) == Meant(w);
  }

  /** Who holds the lock after an event of the store has read what he had before, or nothing. */
  lemma OwnerReads(w: World, e: R.Event<Key, Value>)
    requires Enabled(w, Other(e))
    ensures var t := Step(w, Other(e));
            t.store.lock.Held? && t.store.lock.owner in t.readings ==>
              w.store.lock == t.store.lock && t.store.lock.owner in w.readings
              && t.readings[t.store.lock.owner] == w.readings[t.store.lock.owner]
  {
  }

  lemma ActKeepsFirm(rule: Rule, w: World, p: nat, e: W.Event)
    requires Firm(w) && R.SafeRule(rule.places) && Enabled(w, Act(p, e))
    ensures Firm(Step(w, Act(p, e))) && Meant(Step(w, Act(p, e))) == W.Step(Meant(w), e)
  {
    if Writing(w, p) {
      FirmKnows(w, p);
    }
    assert W.Enabled(Meant(w), e);
    ActMeans(rule, w, p, e);
    JobsStep(Meant(w), w.strays, e);
  }

  lemma JobsStep(s: W.State, strays: seq<Stray>, e: W.Event)
    requires W.Enabled(s, e) && JobsGood(s, strays)
    ensures JobsGood(W.Step(s, e), strays)
  {
    W.StepKeepsJob(s, e);
  }

  /** Events of the lock alone. */
  lemma LockMeans(rule: Rule, w: World, p: nat, e: W.Event, o: R.Event<Key, Value>)
    requires Firm(w) && R.SafeRule(rule.places) && Enabled(w, Act(p, e))
    requires (e.Unlock? && o == R.Release(p)) || (e.Crash? && o == R.Die(p))
    ensures var t := Step(w, Act(p, e));
            R.Sound(t.store) && ReadingsRight(t) && Meant(t) == W.Step(Meant(w), e)
  {
    assert Operation(w, p, e) == R.Next(w.store, o);
    R.NextSound(w.store, o, rule.places);
    NextMeans(w.store, o);
  }

  /** Events with a commit. */
  lemma CommitMeans(rule: Rule, w: World, p: nat, e: W.Event)
    requires Firm(w) && R.SafeRule(rule.places) && Writing(w, p) && Known(w, p) == Meant(w) && w.store.disk.prepared.None?
    requires W.Enabled(Meant(w), e) && !e.Unlock? && !e.Crash? && !e.Recover?
    ensures R.Sound(Operation(w, p, e)) && View(S.Logical(Operation(w, p, e).disk)) == W.Step(Meant(w), e).disk
  {
    var list := ListOf(Meant(w), e);
    ListIsStep(w.store.disk.files, Meant(w), e);
    if list != [] {
      R.NextSound(w.store, R.Commit(p, list), rule.places);
      NextMeans(w.store, R.Commit(p, list));
    }
  }

  lemma WritingMeans(rule: Rule, w: World, p: nat, e: W.Event)
    requires Firm(w) && R.SafeRule(rule.places) && Enabled(w, Act(p, e)) && Writing(w, p) && !e.Unlock? && !e.Crash?
    ensures var t := Step(w, Act(p, e));
            R.Sound(t.store) && ReadingsRight(t) && Meant(t) == W.Step(Meant(w), e)
  {
    FirmKnows(w, p);
    CommitMeans(rule, w, p, e);
    assert Operation(w, p, e).lock == w.store.lock;
  }

  lemma CallMeans(w: World, p: nat)
    requires Firm(w) && Enabled(w, Act(p, W.Call))
    ensures var t := Step(w, Act(p, W.Call));
            R.Sound(t.store) && ReadingsRight(t) && Meant(t) == W.Step(Meant(w), W.Call)
  {
  }

  lemma ActMeans(rule: Rule, w: World, p: nat, e: W.Event)
    requires Firm(w) && R.SafeRule(rule.places) && Enabled(w, Act(p, e)) && W.Enabled(Meant(w), e)
    ensures var t := Step(w, Act(p, e));
            R.Sound(t.store) && ReadingsRight(t) && Meant(t) == W.Step(Meant(w), e)
  {
    match e
    case Unlock => LockMeans(rule, w, p, e, R.Release(p));
    case Crash => LockMeans(rule, w, p, e, R.Die(p));
    case Call => CallMeans(w, p);
    case _ => WritingMeans(rule, w, p, e);
  }

  lemma NoteKeepsFirm(rule: Rule, w: World, i: nat)
    requires Firm(w) && R.SafeRule(rule.places) && Enabled(w, Note(i)) && Permits(rule, w, Note(i))
    ensures Firm(Step(w, Note(i)))
  {
    var r := w.strays[i];
    var o: R.Event<Key, Value> := R.Commit(r.p, NoteOf(r));
    NothingWhenLoose(rule.places, w.store, r.p, NoteOf(r));
    R.NextSound(w.store, o, rule.places);
    NextMeans(w.store, o);
    OverlayOne(w.store.disk.files, JobKey(r.id), JobValue(W.Job(r.thread, W.Failed)));
    ViewOfJob(w.store.disk.files, r.id, W.Job(r.thread, W.Failed));
    assert Settled(Step(w, Note(i))) == W.WithJob(Settled(w), r.id, W.Job(r.thread, W.Failed));
  }

  lemma PutKeepsFirm(rule: Rule, w: World, i: nat)
    requires Firm(w) && R.SafeRule(rule.places) && Enabled(w, Put(i)) && Permits(rule, w, Put(i))
    ensures Firm(Step(w, Put(i)))
  {
    var r := w.strays[i];
    var o: R.Event<Key, Value> := R.Commit(r.p, PutOf(r));
    NothingWhenLoose(rule.places, w.store, r.p, PutOf(r));
    FreeWhenLoose(rule.places, w.store, r.p, PutOf(r));
    R.NextSound(w.store, o, rule.places);
    NextMeans(w.store, o);
    OverlayOne(w.store.disk.files, WatchKey, WatchValue(Stopped(r.mine)));
    ViewOfWatch(w.store.disk.files, Stopped(r.mine));
    assert Settled(Step(w, Put(i))) == Settled(w).(watch := Some(Stopped(r.mine)));
  }

  lemma FreeWhenLoose(places: set<R.Situation>, st: R.World<Key, Value>, p: nat, writes: Writes)
    requires R.SafeRule(places) && p in st.handles && st.handles[p].Idle? && st.lock != R.Held(p)
    requires R.Keeps(places, st, R.Commit(p, writes))
    ensures st.lock == R.Free
  {
    assert R.Loose(st, R.Commit(p, writes));
    assert R.SituationOf(st, R.Commit(p, writes)).record != R.Mine;
  }

  lemma VanishKeepsFirm(rule: Rule, w: World, i: nat)
    requires Firm(w) && R.SafeRule(rule.places) && Enabled(w, Vanish(i))
    ensures Firm(Step(w, Vanish(i)))
  {
    R.NextSound(w.store, R.Die(w.strays[i].p), rule.places);
    NextMeans(w.store, R.Die(w.strays[i].p));
    assert Settled(Step(w, Vanish(i))) == Settled(w);
  }

  lemma LoseKeepsFirm(w: World)
    requires Firm(w) && Enabled(w, Lose)
    ensures Firm(Step(w, Lose))
  {
  }

  lemma CheckKeepsFirm(w: World, i: nat)
    requires Firm(w) && Enabled(w, Check(i))
    ensures Firm(Step(w, Check(i)))
  {
  }

  lemma MoveKeepsFirm(rule: Rule, w: World, m: Move)
    requires Firm(w) && R.SafeRule(rule.places) && Enabled(w, m) && Permits(rule, w, m)
    ensures Firm(Step(w, m))
  {
    match m
    case Other(e) => OtherKeepsFirm(rule, w, e);
    case Look(p) => FirmKnows(w, p);
    case Act(p, e) => ActKeepsFirm(rule, w, p, e);
    case Lose => LoseKeepsFirm(w);
    case Note(i) => NoteKeepsFirm(rule, w, i);
    case Check(i) => CheckKeepsFirm(w, i);
    case Put(i) => PutKeepsFirm(rule, w, i);
    case Vanish(i) => VanishKeepsFirm(rule, w, i);
  }

  /** Where nothing is lost at all, a run of whole ticks and handlers keeps at most one job active. */
  lemma {:induction false} RunIsFirm(rule: Rule, w: World, moves: seq<Move>)
    requires Firm(w) && R.SafeRule(rule.places) && Run(w, moves).Some? && Obeys(rule, w, moves)
    ensures Firm(Run(w, moves).value)
    decreases |moves|
  {
    if moves != [] {
      RunIsFirm(rule, w, moves[..|moves| - 1]);
      MoveKeepsFirm(rule, Run(w, moves[..|moves| - 1]).value, moves[|moves| - 1]);
    }
  }

  // ---------------------------------------------------------------- the lock

  /** Who holds the lock, and which handles belong to ticks. */
  ghost predicate Seated(w: World) {
    && (!W.Open(w.phase) ==> w.store.lock == R.Held(w.ticker))
    && (forall p :: p in w.readings ==> w.store.lock == R.Held(p))
    && (!w.phase.Idle? ==> w.ticker in w.store.handles && !Astray(w, w.ticker))
    && (w.phase.Unlocked? ==> Loose(w, w.ticker))
    && (forall i :: 0 <= i < |w.strays| ==> w.strays[i].p in w.store.handles && w.store.lock != R.Held(w.strays[i].p))
    && forall i, j :: 0 <= i < j < |w.strays| ==> w.strays[i].p != w.strays[j].p
  }

  lemma StoreKeepsSeats(w: World, e: R.Event<Key, Value>)
    requires Seated(w) && Enabled(w, Other(e))
    ensures Seated(Step(w, Other(e)))
  {
  }

  lemma ActKeepsSeats(w: World, p: nat, e: W.Event)
    requires Seated(w) && Enabled(w, Act(p, e))
    ensures Seated(Step(w, Act(p, e)))
  {
    var t := Step(w, Act(p, e));
    ActKeepsHandles(w, p, e);
    assert forall q :: Astray(t, q) <==> Astray(w, q);
  }

  /** Nobody but `p` gets another handle or loses the lock. */
  ghost predicate OthersKeepHandles(st: R.World<Key, Value>, t: R.World<Key, Value>, p: nat) {
    forall q :: q != p ==> (q in st.handles <==> q in t.handles) && (q in st.handles ==> t.handles[q] == st.handles[q])
  }

  lemma ActKeepsHandles(w: World, p: nat, e: W.Event)
    requires Enabled(w, Act(p, e))
    ensures var st, t := w.store, Step(w, Act(p, e)).store;
            && t.lock == (if e.Unlock? || (e.Crash? && p in st.handles && st.lock == R.Held(p)) then R.Free else st.lock)
            && OthersKeepHandles(st, t, p)
            && (!e.Crash? && p in st.handles ==> p in t.handles)
            && (e.Unlock? ==> t.handles == st.handles)
  {
    assert Step(w, Act(p, e)).store == Operation(w, p, e);
    CommitKeepsHandles(w.store, p, ListOf(Known(w, p), e));
    DieKeepsHandles(w.store, p);
    assert e.Unlock? ==> Operation(w, p, e) == w.store.(lock := R.Free);
  }

  lemma CommitKeepsHandles(st: R.World<Key, Value>, p: nat, list: Writes)
    ensures var t := R.Next(st, R.Commit(p, list));
            OthersKeepHandles(st, t, p) && t.lock == st.lock && (p in st.handles ==> p in t.handles)
  {
  }

  lemma DieKeepsHandles(st: R.World<Key, Value>, p: nat)
    ensures var t := R.Next(st, R.Die(p));
            OthersKeepHandles(st, t, p) && t.lock == if p in st.handles && st.lock == R.Held(p) then R.Free else st.lock
  {
  }

  lemma NoteKeepsSeats(w: World, i: nat)
    requires Seated(w) && Enabled(w, Note(i))
    ensures Seated(Step(w, Note(i)))
  {
    var t := Step(w, Note(i));
    assert t.store.lock == w.store.lock && t.store.handles.Keys == w.store.handles.Keys;
    assert forall j :: 0 <= j < |w.strays| ==> t.strays[j].p == w.strays[j].p;
    assert forall q :: Astray(t, q) ==> Astray(w, q);
  }

  /** Fewer stray ticks, and the others where they were. */
  lemma FewerStrays(w: World, i: nat, t: World)
    requires Seated(w) && i < |w.strays| && t.strays == Without(w.strays, i) && t.phase == w.phase && t.ticker == w.ticker
    requires t.store.lock == w.store.lock && t.readings == w.readings
    requires forall q :: q in w.store.handles && q != w.strays[i].p ==> q in t.store.handles && t.store.handles[q] == w.store.handles[q]
    ensures Seated(t)
  {
    forall j | 0 <= j < |t.strays|
      ensures t.strays[j] == w.strays[if j < i then j else j + 1] && t.strays[j].p != w.strays[i].p
    {
    }
    assert !w.phase.Idle? ==> w.ticker != w.strays[i].p;
    assert forall q :: Astray(t, q) ==> Astray(w, q);
  }

  lemma CheckKeepsSeats(w: World, i: nat)
    requires Seated(w) && Enabled(w, Check(i))
    ensures Seated(Step(w, Check(i)))
  {
    var t := Step(w, Check(i));
    if |t.strays| < |w.strays| {
      FewerStrays(w, i, t);
    } else {
      assert forall j :: 0 <= j < |w.strays| ==> t.strays[j].p == w.strays[j].p;
      assert forall q :: Astray(t, q) ==> Astray(w, q);
    }
  }

  lemma LoseKeepsSeats(w: World)
    requires Seated(w) && Enabled(w, Lose)
    ensures Seated(Step(w, Lose))
  {
    forall i | 0 <= i < |w.strays|
      ensures w.strays[i].p != w.ticker
    {
      assert !Astray(w, w.ticker);
    }
  }

  lemma MoveKeepsSeats(w: World, m: Move)
    requires Seated(w) && Enabled(w, m)
    ensures Seated(Step(w, m))
  {
    match m
    case Other(e) => StoreKeepsSeats(w, e);
    case Look(p) =>
    case Act(p, e) => ActKeepsSeats(w, p, e);
    case Lose => LoseKeepsSeats(w);
    case Note(i) => NoteKeepsSeats(w, i);
    case Check(i) => CheckKeepsSeats(w, i);
    case Put(i) => FewerStrays(w, i, Step(w, m));
    case Vanish(i) => FewerStrays(w, i, Step(w, m));
  }

  /** Only the tick itself can write between its beginning and its inference, and after it. */
  lemma LockExcludes(w: World, p: nat)
    requires Seated(w) && Writing(w, p) && !Ticking(w, p)
    ensures W.Open(w.phase) && !Astray(w, p)
  {
  }

  // ---------------------------------------------------------------- the budget

  /** A configuration that process `p` can make at this moment. */
  predicate Configurable(w: World, p: nat, c: W.Config) {
    Enabled(w, Act(p, W.Event.Configure(c)))
  }

  function Configured(w: World, p: nat, c: W.Config): World {
    Step(w, Act(p, W.Event.Configure(c)))
  }

  /**
    The budget is never exceeded. From a configuration with `k` jobs until the next one, ticks call the
    extractor at most `k` times, on every run: with readers, replays and other writers at every file operation,
    deaths at any point, and any number of ticks that lost their lock. One more call is possible only if a tick had
    already reserved it before that configuration. What may be spent never rises above `k`; what is stored does not
    either if stray ticks write over checked revisions only, and at most one job is active if no write is lost.
   */
  lemma BudgetNeverExceeded(rule: Rule, w: World, p: nat, c: W.Config, moves: seq<Move>)
    requires Good(w) && Configurable(w, p, c) && !c.continuous && Careful(rule.places) && Beside !in rule.overs
    requires Quiet(moves) && Run(Configured(w, p, c), moves).Some? && Obeys(rule, Configured(w, p, c), moves)
    ensures Calls(moves) <= c.remaining + Owing(Seen(w))
    ensures var d := Settled(Run(Configured(w, p, c), moves).value);
            && (W.MaySpend(W.ConfigOf(d)) ==> W.ConfigOf(d).remaining <= c.remaining)
            && (CopiesAgree(w) && Aside !in rule.overs ==> W.ConfigOf(d).remaining <= c.remaining)
            && (Firm(w) && R.SafeRule(rule.places) ==> W.OneActive(d))
  {
    CallsBounded(rule, w, p, c, moves);
    if CopiesAgree(w) && Aside !in rule.overs {
      AllowanceBounded(rule, w, p, c, moves);
    }
    if Firm(w) && R.SafeRule(rule.places) {
      MoveKeepsFirm(rule, w, Act(p, W.Event.Configure(c)));
      RunIsFirm(rule, Configured(w, p, c), moves);
    }
  }

  lemma CallsBounded(rule: Rule, w: World, p: nat, c: W.Config, moves: seq<Move>)
    requires Good(w) && Configurable(w, p, c) && !c.continuous && Careful(rule.places) && Beside !in rule.overs
    requires Quiet(moves) && Run(Configured(w, p, c), moves).Some? && Obeys(rule, Configured(w, p, c), moves)
    ensures Calls(moves) <= c.remaining + Owing(Seen(w))
    ensures var d := W.ConfigOf(Settled(Run(Configured(w, p, c), moves).value)); W.MaySpend(d) ==> d.remaining <= c.remaining
  {
    var start := Configured(w, p, c);
    MoveKeepsGood(rule, w, Act(p, W.Event.Configure(c)));
    RunCounts(start, moves);
    RunKeeps(rule, start, moves);
    var t := Run(start, moves).value;
    SomethingStored(t);
    assert Fine(Seen(t), W.ConfigOf(Settled(t)));
    assert start.budget == Some(c.remaining) && start.calls == 0 && start.carried == Owing(Seen(w));
  }

  lemma AllowanceBounded(rule: Rule, w: World, p: nat, c: W.Config, moves: seq<Move>)
    requires CopiesAgree(w) && Configurable(w, p, c) && Careful(rule.places) && Aside !in rule.overs && Beside !in rule.overs
    requires Quiet(moves) && Run(Configured(w, p, c), moves).Some? && Obeys(rule, Configured(w, p, c), moves)
    ensures W.ConfigOf(Settled(Run(Configured(w, p, c), moves).value)).remaining <= c.remaining
  {
    assert forall o: Over :: o in rule.overs ==> o == Checked;
    ConfiguredStored(w, p, W.Event.Configure(c));
    MoveKeepsCopies(rule, w, Act(p, W.Event.Configure(c)));
    AllowanceNeverRises(rule, Configured(w, p, c), moves);
  }

  /** What is stored after a configuration or new settings, and nothing else is possible. */
  lemma ConfiguredStored(w: World, p: nat, e: W.Event)
    requires Tidy(w.store) && Enabled(w, Act(p, e)) && W.Reconfigures(e)
    ensures var t := Step(w, Act(p, e));
            var d := W.ConfigOf(Settled(t));
            && d == W.ConfigOf(W.Step(Known(w, p), e).disk) && d.revision == W.ConfigOf(Known(w, p).disk).revision + 1
            && Tidy(t.store) && forall c :: Possible(t, c) ==> c == d
  {
    var t := Step(w, Act(p, e));
    SomethingStored(t);
    ActOrigins(w, p, e, W.ConfigOf(Settled(t)));
    forall c | Possible(t, c)
      ensures c == W.ConfigOf(Settled(t))
    {
      ActOrigins(w, p, e, c);
    }
  }

  /** A failed extraction stops the scheduler, and so does the last job, unless a newer configuration has taken over. */
  lemma CloseStops(rule: Rule, w: World, p: nat, moves: seq<Move>)
    requires Tidy(w.store) && Careful(rule.places) && Beside !in rule.overs
    requires Enabled(w, Act(p, W.Close)) && w.phase.mine.revision == W.ConfigOf(Known(w, p).disk).revision
    requires !w.phase.ok || (!w.phase.mine.continuous && w.phase.mine.remaining == 0)
    requires var t := Step(w, Act(p, W.Close)); Run(t, moves).Some? && Obeys(rule, t, moves) && Quiet(moves)
    ensures Calls(moves) == 0
  {
    var t := Step(w, Act(p, W.Close));
    SomethingStored(t);
    ActOrigins(w, p, W.Close, W.ConfigOf(Settled(t)));
    forall c | Possible(t, c)
      ensures Wound(Seen(t), c)
    {
      ActOrigins(w, p, W.Close, c);
    }
    WindingCalls(rule, t, moves);
  }
}
