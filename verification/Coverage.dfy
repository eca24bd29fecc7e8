/**
  No message is skipped: over whole runs of the lineage, the count a scan calls extracted is exactly the
  set of messages that some accepted extraction covered, each of them once per generation.
 */
module Coverage {
  import opened Results
  import opened Domain
  import opened Store
  import opened MessageLog
  import opened Batching
  import opened Merge
  import opened TaskGraph
  import opened Engine
  import opened EngineSafety

  function Count(files: Files, t: string): nat {
    ScanOf(files, t).extractedCount
  }

  function Generation(files: Files, t: string): nat {
    ScanOf(files, t).cursor.generation
  }

  /** An accepted extraction of `t` that was given message `i` of the log, or found it ineligible. */
  ghost predicate CoveredBy(s: State, deltas: seq<TaskDelta>, t: string, i: nat) {
    && s.flight.Some? && s.flight.value.thread == t
    && var f := s.flight.value;
    && (forall p :: 0 <= p < |f.picked| ==> f.picked[p] < |f.log|)
    && AcceptsResult(s.files, f, deltas)
    && i < f.end && i < |LogOf(s.files, t)|
    && (i in f.picked || !Eligible(LogOf(s.files, t)[i], f.now))
  }

  ghost predicate FoundIneligible(s: State, at: int, t: string, i: nat) {
    i < |LogOf(s.files, t)| && !Eligible(LogOf(s.files, t)[i], at)
  }

  /** The event at which message `i` of `t` went from waiting to passed, judged by the log as it was then. */
  ghost predicate PassedBy(s: State, e: Event, t: string, i: nat) {
    && Count(s.files, t) <= i
    && match e
       case NothingNew(name, at) => name == t && FoundIneligible(s, at, t, i)
       case Finish(deltas, _, _, _) => CoveredBy(s, deltas, t, i)
       case _ => false
  }

  /** One step as one thread sees it: a later generation starts at nothing passed, or the log and the count grow. */
  ghost predicate Advances(s: State, e: Event, s': State, t: string) {
    || (Generation(s.files, t) < Generation(s'.files, t) && Count(s'.files, t) == 0)
    || GrowsBy(s, e, s', t)
  }

  ghost predicate GrowsBy(s: State, e: Event, s': State, t: string) {
    && Generation(s'.files, t) == Generation(s.files, t)
    && Prefix(LogOf(s.files, t), LogOf(s'.files, t))
    && Count(s.files, t) <= Count(s'.files, t)
    && forall i: nat :: PassedBy(s, e, t, i) <==> Count(s.files, t) <= i < Count(s'.files, t)
  }

  // ---------------------------------------------------------------- one step

  lemma StillGrows(s: State, e: Event, s': State, t: string)
    requires Generation(s'.files, t) == Generation(s.files, t) && Count(s'.files, t) == Count(s.files, t)
    requires Prefix(LogOf(s.files, t), LogOf(s'.files, t))
    requires forall i: nat :: !PassedBy(s, e, t, i)
    ensures Advances(s, e, s', t)
  {
    assert GrowsBy(s, e, s', t);
  }

  lemma SameLogGrows(s: State, e: Event, s': State, t: string)
    requires ScanOf(s'.files, t).cursor == ScanOf(s.files, t).cursor && Count(s'.files, t) == Count(s.files, t)
    requires Messages(s'.files, t) == Messages(s.files, t)
    requires forall i: nat :: !PassedBy(s, e, t, i)
    ensures Advances(s, e, s', t)
  {
    StillGrows(s, e, s', t);
  }

  lemma ErrorAdvances(s: State, e: Event, s': State, thread: string, error: string, t: string)
    requires Inv(s.files) && (e.Scan? || e.Failed?)
    requires s'.files == s.files[ScanKey(thread) := ScanValue(ScanOf(s.files, thread).(lastError := Some(error)))]
    ensures Advances(s, e, s', t)
  {
    assert ScanGood(ScanOf(s.files, thread));
    ErrorKeepsInv(s.files, thread, ScanOf(s.files, thread).(lastError := Some(error)));
    SameLogGrows(s, e, s', t);
  }

  lemma ScanAdvances(s: State, e: Event, s': State, t: string)
    requires Inv(s.files) && LineageStep(s, e, s') && e.Scan?
    ensures Advances(s, e, s', t)
  {
    if e.answer.Err? {
      ErrorAdvances(s, e, s', e.thread.id, e.answer.error, t);
    } else {
      var batch := Effective(ScanOf(s.files, e.thread.id), e.answer.value);
      ScanShape(s.files, e.thread, e.answer);
      if Unchanged(s.files, e.thread, batch) {
        SameLogGrows(s, e, s', t);
      } else {
        NewsAdvances(s, e, s', batch, t);
      }
    }
  }

  lemma NewsAdvances(s: State, e: Event, s': State, batch: Batch, t: string)
    requires Inv(s.files) && e.Scan? && IsListing(s.files, e.listing) && Tail(s.files, e.thread.id, batch).Some?
    requires batch.reset ==> batch.cursor.generation > Generation(s.files, e.thread.id)
    requires !batch.reset ==> batch.cursor.generation == Generation(s.files, e.thread.id)
    requires s'.files == Overlay(s.files, ScanWrites(s.files, e.thread, batch, Tail(s.files, e.thread.id, batch).value, e.listing, e.at))
    ensures Advances(s, e, s', t)
  {
    ScanLogs(s.files, e.thread, batch, e.listing, e.at, t);
    ScanKeepsScanGood(s.files, e.thread, batch, e.listing, e.at);
    if t != e.thread.id || !batch.reset {
      StillGrows(s, e, s', t);
    }
  }

  lemma QuietAdvances(s: State, e: Event, s': State, t: string)
    requires Inv(s.files) && LineageStep(s, e, s') && (e.Tree? || e.Complete? || e.Begin? || e.Crash?)
    ensures Advances(s, e, s', t)
  {
    match e
    case Tree(threads, links) => TreeKeepsInv(s.files, threads, links);
    case Complete(id, expected, completed) =>
      if AfterCompletion(s.files, id, expected, completed).Ok? {
        CompletionKeepsInv(s.files, id, expected, completed);
      }
    case Begin(_, _) =>
    case Crash =>
    SameLogGrows(s, e, s', t);
  }

  lemma NothingNewAdvances(s: State, e: Event, s': State, t: string)
    requires Good(s) && LineageStep(s, e, s') && e.NothingNew?
    ensures Advances(s, e, s', t)
  {
    assert Readable(s.files, e.name);
    var scan := ScanOf(s.files, e.name);
    ErrorKeepsInv(s.files, e.name, scan.(
      extractedCount := |LogOf(s.files, e.name)|, extractedRevision := scan.dirtyRevision, lastError := None));
    if t != e.name {
      StillGrows(s, e, s', t);
    } else {
      assert GrowsBy(s, e, s', t);
    }
  }

  /** What the commit of a batch read earlier covers: everything waiting, up to its end, in the log as it is now. */
  lemma FinishCovers(s: State, deltas: seq<TaskDelta>)
    requires Good(s) && s.flight.Some? && AcceptsResult(s.files, s.flight.value, deltas)
    ensures
      var f := s.flight.value;
      && Prefix(f.log, LogOf(s.files, f.thread))
      && Count(s.files, f.thread) == f.scan.extractedCount < f.end <= |LogOf(s.files, f.thread)|
      && Covers(LogOf(s.files, f.thread), f.now, Count(s.files, f.thread), f.end, f.picked)
  {
    var f := s.flight.value;
    assert FlightGood(s.files, f) && NotRewound(s.files, f);
    assert forall i :: 0 <= i < |f.log| ==> LogOf(s.files, f.thread)[i] == f.log[i];
  }

  lemma FinishLogs(files: Files, f: Flight, w: seq<Task>, job: string, usage: string, t: string)
    requires Candidates(f.root, w)
    requires ScanAfter(ScanOf(files, f.thread), f).messageCount == ScanOf(files, f.thread).messageCount
    ensures
      var after := Overlay(files, FinishWrites(files, f, w, job, usage));
      && LogOf(after, t) == LogOf(files, t)
      && ScanOf(after, t) == if t == f.thread then ScanAfter(ScanOf(files, t), f) else ScanOf(files, t)
  {
    var after := Overlay(files, FinishWrites(files, f, w, job, usage));
    FinishReads(files, f, w, job, usage, TaskId("", "", ""));
    if t != f.thread {
      FinishSpares(files, f, w, job, usage, ScanKey(t));
    }
    forall c
      ensures SameAt(files, after, EventKey(t, ScanOf(files, t).cursor.generation, c))
    {
      FinishSpares(files, f, w, job, usage, EventKey(t, ScanOf(files, t).cursor.generation, c));
    }
    LogFrame(files, after, t);
  }

  lemma FinishAdvances(s: State, e: Event, s': State, t: string)
    requires Good(s) && LineageStep(s, e, s') && e.Finish?
    ensures Advances(s, e, s', t)
  {
    if !AcceptsResult(s.files, s.flight.value, e.deltas) {
      StillGrows(s, e, s', t);
    } else {
      WrittenAre(s.files, s.flight.value, e.deltas, e.offsets);
      AcceptedAdvances(s, e, s', Written(s.files, s.flight.value, e.deltas, e.offsets), t);
    }
  }

  lemma AcceptedAdvances(s: State, e: Event, s': State, w: seq<Task>, t: string)
    requires Good(s) && e.Finish? && s.flight.Some? && AcceptsResult(s.files, s.flight.value, e.deltas)
    requires Candidates(s.flight.value.root, w)
    requires s'.files == Overlay(s.files, FinishWrites(s.files, s.flight.value, w, e.job, e.usage))
    ensures Advances(s, e, s', t)
  {
    FinishLogs(s.files, s.flight.value, w, e.job, e.usage, t);
    if t != s.flight.value.thread {
      StillGrows(s, e, s', t);
    } else {
      FinishCovers(s, e.deltas);
      CommitPasses(s, e, t);
      assert GrowsBy(s, e, s', t);
    }
  }

  lemma CommitPasses(s: State, e: Event, t: string)
    requires Good(s) && e.Finish? && s.flight.Some? && s.flight.value.thread == t
    requires AcceptsResult(s.files, s.flight.value, e.deltas)
    ensures forall i: nat :: PassedBy(s, e, t, i) <==> Count(s.files, t) <= i < s.flight.value.end
  {
    FinishCovers(s, e.deltas);
  }

  lemma StepAdvances(s: State, e: Event, s': State, t: string)
    requires Good(s) && LineageStep(s, e, s')
    ensures Advances(s, e, s', t)
  {
    match e
    case Scan(_, _, _, _) => ScanAdvances(s, e, s', t);
    case NothingNew(_, _) => NothingNewAdvances(s, e, s', t);
    case Finish(_, _, _, _) => FinishAdvances(s, e, s', t);
    case Failed(error) => ErrorAdvances(s, e, s', s.flight.value.thread, error, t);
    case _ => QuietAdvances(s, e, s', t);
  }

  // ---------------------------------------------------------------- whole runs

  lemma RunAdvances(states: seq<State>, events: seq<Event>, n: nat, t: string)
    requires LineageRun(states, events) && n < |events|
    ensures Advances(states[n], events[n], states[n + 1], t)
  {
    RunsAreGood(states, events, n);
    assert StepAt(states, events, n);
    StepAdvances(states[n], events[n], states[n + 1], t);
  }

  /** Within one generation the log and the count only grow. */
  lemma {:induction false} GenerationGrows(states: seq<State>, events: seq<Event>, m: nat, n: nat, t: string)
    requires LineageRun(states, events) && m <= n < |states|
    ensures Generation(states[m].files, t) <= Generation(states[n].files, t)
    ensures Generation(states[m].files, t) == Generation(states[n].files, t) ==>
              && Count(states[m].files, t) <= Count(states[n].files, t)
              && Prefix(LogOf(states[m].files, t), LogOf(states[n].files, t))
    decreases n
  {
    if m < n {
      GenerationGrows(states, events, m, n - 1, t);
      RunAdvances(states, events, n - 1, t);
    }
  }

  /** Event `m` passed message `i`, in the generation and the log that the state after `n` events still continues. */
  ghost predicate PassedAt(states: seq<State>, events: seq<Event>, m: nat, n: nat, t: string, i: nat)
    requires |states| == |events| + 1 && m < n < |states|
  {
    && PassedBy(states[m], events[m], t, i)
    && Generation(states[m].files, t) == Generation(states[n].files, t)
    && Prefix(LogOf(states[m].files, t), LogOf(states[n].files, t))
  }

  /** What is counted after a step was counted before it, in the same log, or the step passed it. */
  lemma CountedBefore(s: State, e: Event, s': State, t: string, i: nat)
    requires Advances(s, e, s', t) && i < Count(s'.files, t)
    ensures Generation(s.files, t) == Generation(s'.files, t) && Prefix(LogOf(s.files, t), LogOf(s'.files, t))
    ensures i < Count(s.files, t) || PassedBy(s, e, t, i)
  {
  }

  lemma CountedInRun(states: seq<State>, events: seq<Event>, n: nat, t: string, i: nat)
    requires LineageRun(states, events) && n < |events| && i < Count(states[n + 1].files, t)
    ensures Generation(states[n].files, t) == Generation(states[n + 1].files, t)
    ensures Prefix(LogOf(states[n].files, t), LogOf(states[n + 1].files, t))
    ensures i < Count(states[n].files, t) || PassedBy(states[n], events[n], t, i)
  {
    RunAdvances(states, events, n, t);
    CountedBefore(states[n], events[n], states[n + 1], t, i);
  }

  ghost predicate PassedBefore(states: seq<State>, events: seq<Event>, n: nat, t: string, i: nat)
    requires |states| == |events| + 1 && n < |states|
  {
    exists m: nat :: m < n && PassedAt(states, events, m, n, t, i)
  }

  lemma PassedOn(states: seq<State>, events: seq<Event>, n: nat, t: string, i: nat)
    requires |states| == |events| + 1 && n < |events| && PassedBefore(states, events, n, t, i)
    requires Generation(states[n].files, t) == Generation(states[n + 1].files, t)
    requires Prefix(LogOf(states[n].files, t), LogOf(states[n + 1].files, t))
    ensures PassedBefore(states, events, n + 1, t, i)
  {
    var m: nat :| m < n && PassedAt(states, events, m, n, t, i);
    assert PassedAt(states, events, m, n + 1, t, i);
  }

  lemma PassedLast(states: seq<State>, events: seq<Event>, n: nat, t: string, i: nat)
    requires |states| == |events| + 1 && n < |events| && PassedBy(states[n], events[n], t, i)
    requires Generation(states[n].files, t) == Generation(states[n + 1].files, t)
    requires Prefix(LogOf(states[n].files, t), LogOf(states[n + 1].files, t))
    ensures PassedBefore(states, events, n + 1, t, i)
  {
    assert PassedAt(states, events, n, n + 1, t, i);
  }

  lemma CountedStep(states: seq<State>, events: seq<Event>, n: nat, k: nat, t: string, i: nat)
    requires LineageRun(states, events) && k < n == k + 1 < |states| && i < Count(states[n].files, t)
    requires i < Count(states[k].files, t) ==> PassedBefore(states, events, k, t, i)
    ensures PassedBefore(states, events, n, t, i)
  {
    CountedInRun(states, events, k, t, i);
    if i < Count(states[k].files, t) {
      PassedOn(states, events, k, t, i);
    } else {
      PassedLast(states, events, k, t, i);
    }
  }

  lemma {:induction false} CountedWasPassed(states: seq<State>, events: seq<Event>, n: nat, t: string, i: nat)
    requires LineageRun(states, events) && n < |states| && i < Count(states[n].files, t)
    ensures PassedBefore(states, events, n, t, i)
    decreases n
  {
    if n == 0 {
      NothingCounted(states[0], t);
    } else {
      if i < Count(states[n - 1].files, t) {
        CountedWasPassed(states, events, n - 1, t, i);
      }
      CountedStep(states, events, n, n - 1, t, i);
    }
  }

  lemma NothingCounted(s: State, t: string)
    requires s == State(map[], None)
    ensures Count(s.files, t) == 0
  {
  }

  lemma PassedNow(s: State, e: Event, s': State, t: string, i: nat)
    requires Advances(s, e, s', t) && PassedBy(s, e, t, i)
    ensures Generation(s'.files, t) > Generation(s.files, t) || i < Count(s'.files, t)
  {
  }

  lemma PassedStep(states: seq<State>, events: seq<Event>, m: nat, t: string, i: nat)
    requires LineageRun(states, events) && m < |events| && PassedBy(states[m], events[m], t, i)
    ensures Generation(states[m + 1].files, t) > Generation(states[m].files, t) || i < Count(states[m + 1].files, t)
  {
    RunAdvances(states, events, m, t);
    PassedNow(states[m], events[m], states[m + 1], t, i);
  }

  lemma CountStays(states: seq<State>, events: seq<Event>, m: nat, n: nat, t: string, i: nat)
    requires LineageRun(states, events) && m < n < |states|
    requires Generation(states[m].files, t) == Generation(states[n].files, t)
    requires Generation(states[m + 1].files, t) > Generation(states[m].files, t) || i < Count(states[m + 1].files, t)
    ensures i < Count(states[n].files, t)
  {
    GenerationGrows(states, events, m, m + 1, t);
    GenerationGrows(states, events, m + 1, n, t);
  }

  lemma PassedIsCounted(states: seq<State>, events: seq<Event>, m: nat, n: nat, t: string, i: nat)
    requires LineageRun(states, events) && m < n < |states|
    requires PassedBy(states[m], events[m], t, i)
    requires Generation(states[m].files, t) == Generation(states[n].files, t)
    ensures i < Count(states[n].files, t)
  {
    PassedStep(states, events, m, t, i);
    CountStays(states, events, m, n, t, i);
  }

  /**
    The count is exact: at any time, the messages below the extracted count are those that an event of
    this generation covered, with the log that is still there, and no two events passed the same one.
   */
  lemma NothingIsSkipped(states: seq<State>, events: seq<Event>, n: nat, t: string, i: nat)
    requires LineageRun(states, events) && n < |states|
    ensures i < Count(states[n].files, t) <==> PassedBefore(states, events, n, t, i)
    ensures forall m: nat, k: nat :: m < n && k < n && PassedAt(states, events, m, n, t, i) && PassedAt(states, events, k, n, t, i) ==> m == k
  {
    if i < Count(states[n].files, t) {
      CountedWasPassed(states, events, n, t, i);
    }
    forall m: nat | m < n && PassedAt(states, events, m, n, t, i)
      ensures i < Count(states[n].files, t)
    {
      PassedIsCounted(states, events, m, n, t, i);
    }
    forall m: nat, k: nat | m < k < n && PassedAt(states, events, m, n, t, i)
      ensures !PassedAt(states, events, k, n, t, i)
    {
      if PassedAt(states, events, k, n, t, i) {
        PassedIsCounted(states, events, m, k, t, i);
        assert false;
      }
    }
  }
}
