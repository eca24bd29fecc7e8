/**
  The budgeted scheduler. A tick reserves a job from the budget before it spends it; the writer lock is
  dropped while the extractor runs, so that configurations, other job requests and a crash can come in
  between. The methods of `WatchStore` are the handlers; the state machine below them runs a tick step by
  step, write by write, against everything else.
 */
module Watch {
  import opened Results
  import opened Texts

  const MAX_JOBS := 5

  datatype Config = Config(
    revision: nat, enabled: bool, extract: bool, thread: Option<string>, model: string, remaining: nat, continuous: bool, failed: bool)

  const DEFAULT := Config(0, false, false, None, "haiku", 5, false, false)

  datatype JobState = Queued | Running | Completed | Failed | Interrupted

  datatype Job = Job(thread: Option<string>, state: JobState)

  datatype Effort = Low | Medium | High | XHigh | Max | UnknownEffort(text: string)

  datatype Settings = Settings(
    revision: nat, automatic: bool, harness: string, model: string, effort: Effort, budgetUsd: real, timeout: nat, interval: nat, debounce: nat, prompt: string)

  const DEFAULT_SETTINGS := Settings(0, false, "claude", "haiku", Low, 0.25, 90, 60, 20, "")

  /** The stored entries the scheduler reads and writes. */
  datatype Disk = Disk(watch: Option<Config>, jobs: map<string, Job>, settings: Option<Settings>)

  datatype Fault = InvalidConfig | NoSkill | NoThread | InvalidRequest | OtherScope | Busy | Leased | Unavailable | Conflict

  predicate Active(j: Job) {
    j.state == Queued || j.state == Running
  }

  function ConfigOf(d: Disk): Config {
    if d.watch.Some? then d.watch.value else DEFAULT
  }

  predicate Blank(text: string) {
    forall c :: c in text ==> White(c)
  }

  // ---------------------------------------------------------------- the handlers on values

  function Configured(d: Disk, c: Config): Result<Disk, Fault> {
    if c.remaining > MAX_JOBS || Blank(c.model) || Bytes(c.model) > 120 then Err(InvalidConfig)
    else if c.extract && !c.continuous && (c.thread.None? || c.thread.value == "") then Err(NoThread)
    else Ok(d.(watch := Some(c.(revision := ConfigOf(d).revision + 1, failed := false))))
  }

  function SettingsOf(d: Disk): Settings {
    var stored := if d.settings.Some? then d.settings.value else DEFAULT_SETTINGS;
    if d.watch.Some? then stored.(automatic := d.watch.value.enabled && d.watch.value.extract) else stored
  }

  predicate ValidSettings(s: Settings) {
    && s.harness == "claude" && !s.effort.UnknownEffort?
    && !Blank(s.model) && Bytes(s.model) <= 120 && 0.01 <= s.budgetUsd <= 5.0
    && 15 <= s.timeout <= 300 && 15 <= s.interval <= 86400 && s.debounce <= 3600 && |s.prompt| <= 8000
  }

  /** `skill` tells whether the named skill file can be read. */
  function Saved(d: Disk, s: Settings, skill: bool): Result<Disk, Fault> {
    if s.revision != SettingsOf(d).revision then Err(Conflict)
    else if !ValidSettings(s) then Err(InvalidConfig)
    else if !skill then Err(NoSkill)
    else
      var c := ConfigOf(d);
      Ok(d.(settings := Some(s.(revision := s.revision + 1)),
            watch := Some(c.(revision := c.revision + 1, enabled := s.automatic, extract := s.automatic, continuous := true,
                             thread := None, model := s.model, failed := false))))
  }

  /** The stored job, and whether it is new. `leased`: another process holds the extraction lease. */
  function Enqueued(d: Disk, request: string, thread: Option<string>, leased: bool): Result<(Disk, bool), Fault> {
    if request == "" || Bytes(request) > 128 then Err(InvalidRequest)
    else if request in d.jobs then (if d.jobs[request].thread != thread then Err(OtherScope) else Ok((d, false)))
    else if leased then Err(Leased)
    else if exists id :: id in d.jobs && Active(d.jobs[id]) then Err(Busy)
    else Ok((d.(jobs := d.jobs[request := Job(thread, Queued)]), true))
  }

  function Recovered(d: Disk): Disk {
    d.(jobs := map id | id in d.jobs :: if Active(d.jobs[id]) then d.jobs[id].(state := Interrupted) else d.jobs[id])
  }

  predicate MaySpend(c: Config) {
    c.enabled && c.extract && (c.continuous || c.remaining > 0)
  }

  function Spent(c: Config): Config {
    c.(revision := c.revision + 1, remaining := if c.continuous || c.remaining == 0 then c.remaining else c.remaining - 1)
  }

  function WithJob(d: Disk, id: string, j: Job): Disk {
    d.(jobs := d.jobs[id := j])
  }

  /** The last write of a tick: only if nobody has configured since the reservation. */
  function Closed(d: Disk, mine: Config, ok: bool): Disk {
    if ConfigOf(d).revision != mine.revision then d
    else
      var failed := if ok then mine else mine.(failed := true, extract := false);
      d.(watch := Some(if !failed.continuous && failed.remaining == 0 then failed.(extract := false) else failed))
  }

  // ---------------------------------------------------------------- the handlers

  class WatchStore {
    var disk: Disk

    constructor (d: Disk)
      ensures disk == d
    {
      disk := d;
    }

    method Configure(config: Config) returns (r: Result<Config, Fault>)
      modifies this
      ensures var target := Configured(old(disk), config);
              if target.Err? then r == Err(target.error) && disk == old(disk)
              else disk == target.value && r == Ok(ConfigOf(disk))
    {
      if config.remaining > MAX_JOBS || Blank(config.model) || Bytes(config.model) > 120 {
        return Err(InvalidConfig);
      }
      if config.extract && !config.continuous && (config.thread.None? || config.thread.value == "") {
        return Err(NoThread);
      }
      var stored := config;
      stored := stored.(revision := ConfigOf(disk).revision + 1);
      stored := stored.(failed := false);
      disk := disk.(watch := Some(stored));
      r := Ok(stored);
    }

    method Enqueue(request: string, thread: Option<string>, leased: bool) returns (r: Result<(Job, bool), Fault>)
      modifies this
      ensures var target := Enqueued(old(disk), request, thread, leased);
              if target.Err? then r == Err(target.error) && disk == old(disk)
              else (disk, true) == (target.value.0, request in disk.jobs) && r == Ok((disk.jobs[request], target.value.1))
    {
      if request == "" || Bytes(request) > 128 {
        return Err(InvalidRequest);
      }
      if request in disk.jobs {
        return if disk.jobs[request].thread != thread then Err(OtherScope) else Ok((disk.jobs[request], false));
      }
      if leased {
        return Err(Leased);
      }
      var left := disk.jobs.Keys;
      while left != {}
        invariant left <= disk.jobs.Keys && disk == old(disk)
        invariant forall id :: id in disk.jobs && id !in left ==> !Active(disk.jobs[id])
        decreases |left|
      {
        var id :| id in left;
        if Active(disk.jobs[id]) {
          return Err(Busy);
        }
        left := left - {id};
      }
      var job := Job(thread, Queued);
      disk := disk.(jobs := disk.jobs[request := job]);
      r := Ok((job, true));
    }

    method RecoverJobs()
      modifies this
      ensures disk == Recovered(old(disk))
    {
      ghost var before := disk;
      var left := disk.jobs.Keys;
      while left != {}
        invariant left <= before.jobs.Keys
        invariant disk == before.(jobs := map id | id in before.jobs ::
                    if id !in left && Active(before.jobs[id]) then before.jobs[id].(state := Interrupted) else before.jobs[id])
        decreases |left|
      {
        var id :| id in left;
        if Active(disk.jobs[id]) {
          disk := disk.(jobs := disk.jobs[id := disk.jobs[id].(state := Interrupted)]);
        }
        left := left - {id};
      }
    }

    method SaveSettings(settings: Settings, skill: bool) returns (r: Result<Settings, Fault>)
      modifies this
      ensures var target := Saved(old(disk), settings, skill);
              if target.Err? then r == Err(target.error) && disk == old(disk)
              else disk == target.value && r == Ok(settings.(revision := settings.revision + 1))
    {
      if settings.revision != SettingsOf(disk).revision {
        return Err(Conflict);
      }
      if !ValidSettings(settings) {
        return Err(InvalidConfig);
      }
      if !skill {
        return Err(NoSkill);
      }
      var value := settings.(revision := settings.revision + 1);
      var watch := ConfigOf(disk);
      watch := watch.(revision := watch.revision + 1, enabled := value.automatic, extract := value.automatic);
      watch := watch.(continuous := true, thread := None, model := value.model, failed := false);
      disk := disk.(settings := Some(value), watch := Some(watch));
      r := Ok(value);
    }

    /**
      One `tick` without a crash. `ready` is the conversation to extract, if any; `request` the fresh job id;
      `seen` the jobs the first, truncated listing shows; `later` what the disk holds when the extractor has
      returned and the lock is back; `ok` whether the extraction went well.
     */
    method Tick(ready: Option<string>, available: bool, request: string, seen: set<string>, later: Disk, ok: bool)
      returns (r: Result<bool, Fault>)
      requires request != "" && Bytes(request) <= 128 && request !in disk.jobs
      modifies this
      ensures var d, c := old(disk), ConfigOf(old(disk));
              if !MaySpend(c) || ready.None? || (exists id :: id in seen && id in d.jobs && Active(d.jobs[id]))
              then r == Ok(false) && disk == d
              else if !available then r == Err(Unavailable) && disk == d
              else if Enqueued(d, request, ready, false).Err? then r == Err(Busy) && disk == d
              else r == Ok(true) && disk == Closed(WithJob(later, request, Job(ready, if ok then Completed else Failed)), Spent(c), ok)
    {
      var config := ConfigOf(disk);
      if !config.enabled || !config.extract || (!config.continuous && config.remaining == 0) || ready.None? {
        return Ok(false);
      }
      if exists id :: id in seen && id in disk.jobs && Active(disk.jobs[id]) {
        return Ok(false);
      }
      if !available {
        return Err(Unavailable);
      }
      var admitted := Enqueue(request, ready, false);
      if admitted.Err? {
        return Err(admitted.error);
      }
      var job := admitted.value.0.(state := Running);
      disk := disk.(jobs := disk.jobs[request := job]);
      if !config.continuous {
        config := config.(remaining := config.remaining - 1);
      }
      config := config.(revision := config.revision + 1);
      disk := disk.(watch := Some(config));
      // The extractor runs here, without the writer lock.
      disk := later;
      job := job.(state := if ok then Completed else Failed);
      disk := disk.(jobs := disk.jobs[request := job]);
      if ConfigOf(disk).revision == config.revision {
        if !ok {
          config := config.(failed := true, extract := false);
        }
        if !config.continuous && config.remaining == 0 {
          config := config.(extract := false);
        }
        disk := disk.(watch := Some(config));
      }
      r := Ok(true);
    }
  }

  // ---------------------------------------------------------------- a tick among everything else

  /** How far the tick in progress has come; `mine` is its own copy of the configuration. */
  datatype Phase =
    | Idle
    | Admitted(id: string, thread: Option<string>, mine: Config)
    | Marked(id: string, thread: Option<string>, mine: Config)
    | Reserved(id: string, thread: Option<string>, mine: Config)
    | Unlocked(id: string, thread: Option<string>, mine: Config)
    | Inferring(id: string, thread: Option<string>, mine: Config)
    | Returned(id: string, thread: Option<string>, mine: Config, ok: bool)
    | Finished(id: string, thread: Option<string>, mine: Config, ok: bool)

  /** The writer lock is free. */
  predicate Open(p: Phase) {
    p.Idle? || p.Unlocked? || p.Inferring?
  }

  /** A job is reserved and the extractor not called yet. */
  predicate Owed(p: Phase) {
    p.Reserved? || p.Unlocked?
  }

  /**
    `budget` is the allowance of the last configuration, if it set one. `calls` counts the extractor calls
    since, and `carried` is 1 if that configuration came while a tick already owed a call.
   */
  datatype State = State(disk: Disk, phase: Phase, budget: Option<nat>, calls: nat, carried: nat)

  datatype Event =
    | Begin(request: string, ready: string, seen: set<string>)
    | Mark
    | Reserve
    | Unlock
    | Call
    | Skip(ok: bool)
    | Return(ok: bool)
    | Finish
    | Close
    | Crash
    | Configure(config: Config)
    | SaveSettings(settings: Settings, skill: bool)
    | Ask(request: string, thread: Option<string>)
    | Work(id: string, state: JobState)
    | Recover

  predicate Enabled(s: State, e: Event) {
    match e
    case Begin(request, ready, seen) =>
      s.phase.Idle? && MaySpend(ConfigOf(s.disk)) && request !in s.disk.jobs && Enqueued(s.disk, request, Some(ready), false).Ok?
      && !(exists id :: id in seen && id in s.disk.jobs && Active(s.disk.jobs[id]))
    case Mark => s.phase.Admitted?
    case Reserve => s.phase.Marked?
    case Unlock => s.phase.Reserved?
    case Call => s.phase.Unlocked?
    case Skip(_) => s.phase.Reserved?
    case Return(_) => s.phase.Inferring?
    case Finish => s.phase.Returned?
    case Close => s.phase.Finished?
    case Crash => true
    case Configure(c) => Open(s.phase) && Configured(s.disk, c).Ok?
    case SaveSettings(v, skill) => Open(s.phase) && Saved(s.disk, v, skill).Ok?
    case Ask(request, thread) => Open(s.phase) && Enqueued(s.disk, request, thread, !s.phase.Idle?).Ok?
    case Work(id, state) =>
      Open(s.phase) && id in s.disk.jobs && Active(s.disk.jobs[id]) && (s.phase.Idle? || id != s.phase.id) && state != Queued
    case Recover => s.phase.Idle?
  }

  function Budgeted(s: State, d: Disk): State {
    s.(disk := d, budget := if ConfigOf(d).continuous then None else Some(ConfigOf(d).remaining), calls := 0,
       carried := if Owed(s.phase) then 1 else 0)
  }

  /** One event; one that is not possible changes nothing. */
  function Step(s: State, e: Event): State {
    if !Enabled(s, e) then s
    else
      match e
      case Begin(request, ready, seen) =>
        s.(disk := Enqueued(s.disk, request, Some(ready), false).value.0, phase := Admitted(request, Some(ready), ConfigOf(s.disk)))
      case Mark => s.(disk := WithJob(s.disk, s.phase.id, Job(s.phase.thread, Running)), phase := Marked(s.phase.id, s.phase.thread, s.phase.mine))
      case Reserve =>
        s.(disk := s.disk.(watch := Some(Spent(s.phase.mine))), phase := Reserved(s.phase.id, s.phase.thread, Spent(s.phase.mine)))
      case Unlock => s.(phase := Unlocked(s.phase.id, s.phase.thread, s.phase.mine))
      case Call => s.(phase := Inferring(s.phase.id, s.phase.thread, s.phase.mine), calls := s.calls + 1)
      case Skip(ok) => s.(phase := Returned(s.phase.id, s.phase.thread, s.phase.mine, ok))
      case Return(ok) => s.(phase := Returned(s.phase.id, s.phase.thread, s.phase.mine, ok))
      case Finish =>
        s.(disk := WithJob(s.disk, s.phase.id, Job(s.phase.thread, if s.phase.ok then Completed else Failed)),
           phase := Finished(s.phase.id, s.phase.thread, s.phase.mine, s.phase.ok))
      case Close => s.(disk := Closed(s.disk, s.phase.mine, s.phase.ok), phase := Idle)
      case Crash => s.(phase := Idle)
      case Configure(c) => Budgeted(s, Configured(s.disk, c).value)
      case SaveSettings(v, skill) => Budgeted(s, Saved(s.disk, v, skill).value)
      case Ask(request, thread) => s.(disk := Enqueued(s.disk, request, thread, !s.phase.Idle?).value.0)
      case Work(id, state) => s.(disk := WithJob(s.disk, id, s.disk.jobs[id].(state := state)))
      case Recover => s.(disk := Recovered(s.disk))
  }

  // ---------------------------------------------------------------- what every reachable state satisfies

  predicate Steady(p: Phase) {
    p.Admitted? || p.Marked?
  }

  ghost predicate OneActive(d: Disk) {
    forall a, b :: a in d.jobs && b in d.jobs && Active(d.jobs[a]) && Active(d.jobs[b]) ==> a == b
  }

  /** The tick's job is the active one until it is finished. */
  ghost predicate JobGood(s: State) {
    OneActive(s.disk) && (!s.phase.Idle? && !s.phase.Finished? ==> s.phase.id in s.disk.jobs && Active(s.disk.jobs[s.phase.id]))
  }

  lemma StepKeepsJob(s: State, e: Event)
    requires Enabled(s, e) && JobGood(s)
    ensures JobGood(Step(s, e))
  {
  }

  function Run(s: State, events: seq<Event>): Option<State>
    decreases |events|
  {
    if events == [] then Some(s)
    else
      var before := Run(s, events[..|events| - 1]);
      if before.Some? && Enabled(before.value, events[|events| - 1]) then Some(Step(before.value, events[|events| - 1])) else None
  }

  predicate Reconfigures(e: Event) {
    e.Configure? || e.SaveSettings?
  }

  function Calls(events: seq<Event>): nat {
    if events == [] then 0 else Calls(events[..|events| - 1]) + if events[|events| - 1].Call? then 1 else 0
  }

  // ---------------------------------------------------------------- runs of whole ticks

  predicate Quiet(events: seq<Event>) {
    forall e :: e in events ==> !Reconfigures(e)
  }

  ghost predicate NoneActive(d: Disk) {
    forall id :: id in d.jobs ==> !Active(d.jobs[id])
  }

  /** Request ids for ticks to come: valid, different, and not in use. */
  ghost predicate Fresh(d: Disk, ids: seq<string>) {
    && (forall i :: 0 <= i < |ids| ==> ids[i] != "" && Bytes(ids[i]) <= 128 && ids[i] !in d.jobs)
    && forall i, j :: 0 <= i < j < |ids| ==> ids[i] != ids[j]
  }

  lemma {:induction false} RunConcat(s: State, a: seq<Event>, b: seq<Event>)
    requires Run(s, a).Some?
    ensures Run(s, a + b) == Run(Run(s, a).value, b)
    decreases |b|
  {
    if b == [] {
      assert a + b == a;
    } else {
      assert (a + b)[..|a + b| - 1] == a + b[..|b| - 1];
      RunConcat(s, a, b[..|b| - 1]);
    }
  }

  lemma {:induction false} CallsConcat(a: seq<Event>, b: seq<Event>)
    ensures Calls(a + b) == Calls(a) + Calls(b)
    decreases |b|
  {
    if b == [] {
      assert a + b == a;
    } else {
      assert (a + b)[..|a + b| - 1] == a + b[..|b| - 1];
      CallsConcat(a, b[..|b| - 1]);
    }
  }

  lemma RunOne(s: State, e: Event)
    requires Enabled(s, e)
    ensures Run(s, [e]) == Some(Step(s, e)) && Calls([e]) == if e.Call? then 1 else 0
  {
    assert [e][..0] == [];
    assert Run(s, []) == Some(s) && Calls([]) == 0;
  }

  /** The end of a tick that has its result. */
  function Tail(): seq<Event> {
    [Return(true)] + ([Finish] + [Close])
  }

  lemma TailRuns(s: State)
    requires s.phase.Inferring?
    ensures Run(s, Tail()) == Some(Ended(s, true)) && Calls(Tail()) == 0
  {
    var s1 := Step(s, Return(true));
    var s2 := Step(s1, Finish);
    RunOne(s, Return(true));
    RunOne(s1, Finish);
    RunOne(s2, Close);
    RunConcat(s1, [Finish], [Close]);
    RunConcat(s, [Return(true)], [Finish] + [Close]);
    CallsConcat([Finish], [Close]);
    CallsConcat([Return(true)], [Finish] + [Close]);
  }

  function Head(request: string): seq<Event> {
    [Begin(request, "", {})] + ([Mark] + ([Reserve] + ([Unlock] + [Call])))
  }

  lemma HeadRuns(s: State, request: string)
    requires Enabled(s, Begin(request, "", {}))
    ensures Run(s, Head(request)) == Some(Started(s, request, "", {})) && Calls(Head(request)) == 1
  {
    var s1 := Step(s, Begin(request, "", {}));
    var s2 := Step(s1, Mark);
    var s3 := Step(s2, Reserve);
    var s4 := Step(s3, Unlock);
    RunOne(s, Begin(request, "", {}));
    RunOne(s1, Mark);
    RunOne(s2, Reserve);
    RunOne(s3, Unlock);
    RunOne(s4, Call);
    RunConcat(s3, [Unlock], [Call]);
    RunConcat(s2, [Reserve], [Unlock] + [Call]);
    RunConcat(s1, [Mark], [Reserve] + ([Unlock] + [Call]));
    RunConcat(s, [Begin(request, "", {})], [Mark] + ([Reserve] + ([Unlock] + [Call])));
    CallsConcat([Unlock], [Call]);
    CallsConcat([Reserve], [Unlock] + [Call]);
    CallsConcat([Mark], [Reserve] + ([Unlock] + [Call]));
    CallsConcat([Begin(request, "", {})], [Mark] + ([Reserve] + ([Unlock] + [Call])));
  }

  /** Nothing is going on, and ticks may spend. */
  ghost predicate Ready(s: State) {
    s.phase.Idle? && NoneActive(s.disk) && !ConfigOf(s.disk).continuous && ConfigOf(s.disk).enabled
    && (ConfigOf(s.disk).remaining > 0 ==> ConfigOf(s.disk).extract)
  }

  lemma TickBegins(s: State, request: string)
    requires Ready(s) && ConfigOf(s.disk).remaining > 0
    requires request != "" && Bytes(request) <= 128 && request !in s.disk.jobs
    ensures Enabled(s, Begin(request, "", {}))
  {
  }

  lemma TickLeaves(s: State, request: string)
    requires Ready(s) && ConfigOf(s.disk).remaining > 0 && request !in s.disk.jobs && Enabled(s, Begin(request, "", {}))
    ensures var t := Ended(Started(s, request, "", {}), true);
            && Ready(t) && ConfigOf(t.disk).remaining == ConfigOf(s.disk).remaining - 1
            && t.disk.jobs.Keys == s.disk.jobs.Keys + {request}
  {
    var mid := Started(s, request, "", {});
    TickIsARun(s, request, "", {}, mid, true);
    var d := WithJob(mid.disk, request, Job(Some(""), Completed));
    assert d.jobs == s.disk.jobs[request := Job(Some(""), Completed)];
    assert Ended(mid, true).disk == Closed(d, Spent(ConfigOf(s.disk)), true);
  }

  lemma WholeTick(s: State, request: string)
    requires Ready(s) && ConfigOf(s.disk).remaining > 0
    requires request != "" && Bytes(request) <= 128 && request !in s.disk.jobs
    ensures Enabled(s, Begin(request, "", {}))
    ensures Run(s, Head(request) + Tail()) == Some(Ended(Started(s, request, "", {}), true)) && Calls(Head(request) + Tail()) == 1
  {
    TickBegins(s, request);
    HeadRuns(s, request);
    TailRuns(Started(s, request, "", {}));
    RunConcat(s, Head(request), Tail());
    CallsConcat(Head(request), Tail());
  }

  function Ticks(ids: seq<string>): seq<Event> {
    if ids == [] then [] else Ticks(ids[..|ids| - 1]) + (Head(ids[|ids| - 1]) + Tail())
  }

  lemma {:induction false} TicksQuiet(ids: seq<string>)
    ensures Quiet(Ticks(ids))
  {
    if ids != [] {
      TicksQuiet(ids[..|ids| - 1]);
    }
  }

  lemma {:induction false} TicksRun(s: State, ids: seq<string>)
    requires Ready(s) && Fresh(s.disk, ids) && |ids| <= ConfigOf(s.disk).remaining
    ensures Run(s, Ticks(ids)).Some? && Calls(Ticks(ids)) == |ids|
    ensures var t := Run(s, Ticks(ids)).value;
            && Ready(t) && ConfigOf(t.disk).remaining == ConfigOf(s.disk).remaining - |ids|
            && t.disk.jobs.Keys == s.disk.jobs.Keys + set id | id in ids
    decreases |ids|
  {
    if ids != [] {
      var front, last := ids[..|ids| - 1], ids[|ids| - 1];
      assert ids == front + [last];
      TicksRun(s, front);
      var mid := Run(s, Ticks(front)).value;
      WholeTick(mid, last);
      TickLeaves(mid, last);
      RunConcat(s, Ticks(front), Head(last) + Tail());
      CallsConcat(Ticks(front), Head(last) + Tail());
    }
  }

  /** The owed call, and then every job of the new allowance. */
  lemma OneMoreCall(s: State, c: Config, ids: seq<string>)
    requires JobGood(s) && s.phase.Unlocked? && s.phase.mine.revision <= ConfigOf(s.disk).revision
    requires Enabled(s, Event.Configure(c)) && !c.continuous && MaySpend(c)
    requires Fresh(s.disk, ids) && |ids| == c.remaining
    ensures var events := [Call] + Tail() + Ticks(ids);
            Quiet(events) && Run(Step(s, Event.Configure(c)), events).Some? && Calls(events) == c.remaining + 1
  {
    var start := Step(s, Event.Configure(c));
    var called := Step(start, Call);
    RunOne(start, Call);
    TailRuns(called);
    RunConcat(start, [Call], Tail());
    CallsConcat([Call], Tail());
    var idle := Ended(called, true);
    OwedTickEnds(s, c);
    TicksRun(idle, ids);
    TicksQuiet(ids);
    RunConcat(start, [Call] + Tail(), Ticks(ids));
    CallsConcat([Call] + Tail(), Ticks(ids));
  }

  lemma OwedTickEnds(s: State, c: Config)
    requires JobGood(s) && s.phase.Unlocked? && s.phase.mine.revision <= ConfigOf(s.disk).revision
    requires Enabled(s, Event.Configure(c)) && !c.continuous && MaySpend(c)
    ensures var t := Ended(Step(Step(s, Event.Configure(c)), Call), true);
            Ready(t) && ConfigOf(t.disk).remaining == c.remaining && t.disk.jobs.Keys == s.disk.jobs.Keys
  {
  }

  /** Two saves from the same reading of the settings: the second is refused. */
  lemma SecondSaveConflicts(d: Disk, a: Settings, b: Settings)
    requires Saved(d, a, true).Ok? && b.revision == SettingsOf(d).revision
    ensures Saved(Saved(d, a, true).value, b, true) == Err(Conflict)
  {
  }

  /** The state in which the extractor is called. */
  function Started(s: State, request: string, ready: string, seen: set<string>): State
    requires Enabled(s, Begin(request, ready, seen))
  {
    Step(Step(Step(Step(Step(s, Begin(request, ready, seen)), Mark), Reserve), Unlock), Call)
  }

  function Ended(s: State, ok: bool): State
    requires s.phase.Inferring?
  {
    Step(Step(Step(s, Return(ok)), Finish), Close)
  }

  /** The method `Tick` is a run of the state machine, with any events of others during the inference. */
  lemma TickIsARun(s: State, request: string, ready: string, seen: set<string>, back: State, ok: bool)
    requires Enabled(s, Begin(request, ready, seen))
    requires back.phase == Started(s, request, ready, seen).phase
    ensures Started(s, request, ready, seen).disk
            == WithJob(s.disk, request, Job(Some(ready), Running)).(watch := Some(Spent(ConfigOf(s.disk))))
    ensures Ended(back, ok).disk
            == Closed(WithJob(back.disk, request, Job(Some(ready), if ok then Completed else Failed)), Spent(ConfigOf(s.disk)), ok)
  {
    var jobs := s.disk.jobs;
    assert jobs[request := Job(Some(ready), Queued)][request := Job(Some(ready), Running)] == jobs[request := Job(Some(ready), Running)];
  }
}
