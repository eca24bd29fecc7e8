/** What the handlers of the scheduler mean for what is stored, and that switching it off holds. */
module WatchMeaning {
  import opened Results
  import opened Texts
  import W = Watch
  import R = StoreRuns
  import opened WatchRuns

  // ---------------------------------------------------------------- one request

  /** The settings as they are shown: automatic is what the stored watch does, the rest is as stored. */
  lemma SettingsShow(d: W.Disk)
    ensures W.SettingsOf(d).automatic <==>
            if d.watch.Some? then d.watch.value.enabled && d.watch.value.extract
            else d.settings.Some? && d.settings.value.automatic
    ensures d.settings.Some? ==> W.SettingsOf(d).(automatic := d.settings.value.automatic) == d.settings.value
    ensures d.settings.None? ==> W.SettingsOf(d).(automatic := false) == W.DEFAULT_SETTINGS
  {
  }

  /** What settings may say. */
  predicate Allowed(v: W.Settings) {
    && v.harness == "claude" && v.effort in {W.Low, W.Medium, W.High, W.XHigh, W.Max}
    && (exists x :: x in v.model && !White(x)) && Bytes(v.model) <= 120 && 0.01 <= v.budgetUsd && v.budgetUsd <= 5.0
    && 15 <= v.timeout && v.timeout <= 300 && 15 <= v.interval && v.interval <= 86400 && v.debounce <= 3600 && |v.prompt| <= 8000
  }

  /** A save is refused in the order of its checks; one that is not shows what was asked, and spends if and only if so asked. */
  lemma SaveIs(d: W.Disk, v: W.Settings, skill: bool)
    ensures W.Saved(d, v, skill) == Err(W.Conflict) <==> v.revision != W.SettingsOf(d).revision
    ensures W.Saved(d, v, skill) == Err(W.InvalidConfig) <==> v.revision == W.SettingsOf(d).revision && !Allowed(v)
    ensures W.Saved(d, v, skill) == Err(W.NoSkill) <==>
            v.revision == W.SettingsOf(d).revision && Allowed(v) && !skill
    ensures W.Saved(d, v, skill).Ok? <==> v.revision == W.SettingsOf(d).revision && Allowed(v) && skill
    ensures W.Saved(d, v, skill).Ok? ==>
              var after := W.Saved(d, v, skill).value;
              var c := W.ConfigOf(after);
              && W.SettingsOf(after) == v.(revision := v.revision + 1)
              && (W.MaySpend(c) <==> v.automatic)
              && c.model == v.model && c.thread == None && c.continuous && !c.failed
              && c.revision == W.ConfigOf(d).revision + 1 && c.remaining == W.ConfigOf(d).remaining
              && after.jobs == d.jobs
  {
    assert W.Blank(v.model) <==> !(exists x :: x in v.model && !White(x));
  }

  /** A configuration is taken within its limits, and stored as given but for its revision and a cleared error. */
  lemma ConfigureIs(d: W.Disk, c: W.Config)
    ensures W.Configured(d, c).Ok? <==>
            && c.remaining <= 5 && (exists x :: x in c.model && !White(x)) && Bytes(c.model) <= 120
            && (c.extract && !c.continuous ==> c.thread.Some? && c.thread.value != "")
    ensures W.Configured(d, c).Ok? ==>
              var after := W.Configured(d, c).value;
              && W.ConfigOf(after).(revision := c.revision, failed := c.failed) == c
              && W.ConfigOf(after).revision == W.ConfigOf(d).revision + 1 && !W.ConfigOf(after).failed
              && (W.MaySpend(W.ConfigOf(after)) <==> c.enabled && c.extract && (c.continuous || c.remaining > 0))
              && (W.SettingsOf(after).automatic <==> c.enabled && c.extract)
              && after.jobs == d.jobs && after.settings == d.settings
  {
    assert W.Blank(c.model) <==> !(exists x :: x in c.model && !White(x));
  }

  /** A request makes one job, and only when no other is active; asked again it is answered with that job. */
  lemma EnqueueIs(d: W.Disk, request: string, thread: Option<string>, leased: bool)
    ensures W.Enqueued(d, request, thread, leased).Ok? <==>
            && 0 < |request| && Bytes(request) <= 128
            && if request in d.jobs then d.jobs[request].thread == thread
               else !leased && forall id :: id in d.jobs ==> d.jobs[id].state != W.Queued && d.jobs[id].state != W.Running
    ensures W.Enqueued(d, request, thread, leased).Ok? ==>
              var r := W.Enqueued(d, request, thread, leased).value;
              var (after, isNew) := (r.0, r.1);
              && (isNew <==> request !in d.jobs) && (!isNew ==> after == d)
              && after.watch == d.watch && after.settings == d.settings
              && request in after.jobs && after.jobs[request].thread == thread && (isNew ==> after.jobs[request].state == W.Queued)
              && after.jobs.Keys == d.jobs.Keys + {request} && (forall id :: id in d.jobs ==> after.jobs[id] == d.jobs[id])
              && forall again :: W.Enqueued(after, request, thread, again) == Ok((after, false))
  {
  }

  /** After a recovery no job is active; the interrupted ones are those that were. */
  lemma RecoverIs(d: W.Disk)
    ensures var after := W.Recovered(d);
            && after.watch == d.watch && after.settings == d.settings && after.jobs.Keys == d.jobs.Keys
            && W.NoneActive(after)
            && forall id :: id in d.jobs ==>
                 && after.jobs[id].thread == d.jobs[id].thread
                 && after.jobs[id].state ==
                    if d.jobs[id].state == W.Queued || d.jobs[id].state == W.Running then W.Interrupted else d.jobs[id].state
  {
  }

  /**
    The end of a tick leaves a configuration made meanwhile alone; else it stores its own copy, which may go on
    spending exactly if the extraction went well and something is left.
   */
  lemma CloseIs(d: W.Disk, mine: W.Config, ok: bool)
    ensures var after := W.Closed(d, mine, ok);
            && after.jobs == d.jobs && after.settings == d.settings
            && (W.ConfigOf(d).revision != mine.revision ==> after == d)
            && (W.ConfigOf(d).revision == mine.revision ==>
                  && after.watch.Some?
                  && after.watch.value.(extract := mine.extract, failed := mine.failed) == mine
                  && after.watch.value.failed == (mine.failed || !ok)
                  && after.watch.value.extract == (mine.extract && ok && (mine.continuous || mine.remaining > 0))
                  && (W.MaySpend(after.watch.value) <==> W.MaySpend(mine) && ok))
  {
  }

  // ---------------------------------------------------------------- switched off

  predicate Begins(m: Move) {
    m.Act? && m.event.Begin?
  }

  lemma {:induction false} NoBegin(rule: Rule, w: World, moves: seq<Move>)
    requires Winding(w) && Careful(rule.places) && Beside !in rule.overs
    requires Run(w, moves).Some? && Obeys(rule, w, moves) && Quiet(moves)
    ensures forall m :: m in moves ==> !Begins(m)
    decreases |moves|
  {
    if moves != [] {
      var front, m := moves[..|moves| - 1], moves[|moves| - 1];
      assert moves == front + [m] && m in moves && forall f :: f in front ==> f in moves;
      NoBegin(rule, w, front);
      WindingCalls(rule, w, front);
      var t := Run(w, front).value;
      if Begins(m) {
        KnownIsPossible(t, m.p);
      }
    }
  }

  /** A reconfiguration after which nothing may be spent winds the scheduler down. */
  lemma OffWinds(w: World, p: nat, e: W.Event)
    requires Good(w) && W.Reconfigures(e) && Enabled(w, Act(p, e))
    requires !W.MaySpend(W.ConfigOf(W.Step(Known(w, p), e).disk))
    ensures Winding(Step(w, Act(p, e))) && Owing(Seen(Step(w, Act(p, e)))) == Owing(Seen(w))
  {
    ConfiguredStored(w, p, e);
    KnownIsPossible(w, p);
    assert Fine(Seen(w), W.ConfigOf(Known(w, p).disk));
  }

  /**
    Once switched off the scheduler stays off: after settings that are not automatic are saved no tick begins
    before the next configuration, and at most the call that was already owed is made, on every run of file
    operations with other writers, deaths and ticks that lost their lock.
   */
  lemma SwitchedOffStays(rule: Rule, w: World, p: nat, v: W.Settings, skill: bool, moves: seq<Move>)
    requires Good(w) && Careful(rule.places) && Beside !in rule.overs
    requires Enabled(w, Act(p, W.SaveSettings(v, skill))) && !v.automatic
    requires var t := Step(w, Act(p, W.SaveSettings(v, skill))); Run(t, moves).Some? && Obeys(rule, t, moves) && Quiet(moves)
    ensures Calls(moves) <= Owing(Seen(w)) && forall m :: m in moves ==> !Begins(m)
  {
    var t := Step(w, Act(p, W.SaveSettings(v, skill)));
    SaveIs(Known(w, p).disk, v, skill);
    OffWinds(w, p, W.SaveSettings(v, skill));
    WindingCalls(rule, t, moves);
    NoBegin(rule, t, moves);
  }

  /** So does a configuration that allows nothing. */
  lemma ConfiguredOffStays(rule: Rule, w: World, p: nat, c: W.Config, moves: seq<Move>)
    requires Good(w) && Careful(rule.places) && Beside !in rule.overs
    requires Enabled(w, Act(p, W.Event.Configure(c))) && !(c.enabled && c.extract && (c.continuous || c.remaining > 0))
    requires var t := Step(w, Act(p, W.Event.Configure(c))); Run(t, moves).Some? && Obeys(rule, t, moves) && Quiet(moves)
    ensures Calls(moves) <= Owing(Seen(w)) && forall m :: m in moves ==> !Begins(m)
  {
    var t := Step(w, Act(p, W.Event.Configure(c)));
    ConfigureIs(Known(w, p).disk, c);
    OffWinds(w, p, W.Event.Configure(c));
    WindingCalls(rule, t, moves);
    NoBegin(rule, t, moves);
  }
}
