/**
  The short names under which messages are shown to a model, and the way back: `m` and the decimal index
  of the message in the batch.
 */
module Aliases {
  import opened Results
  import opened Domain
  import opened Merge
  import EventCursor

  datatype AliasError = UnknownAlias | OutOfRange

  function Decimal(n: nat): string {
    if n < 10 then [EventCursor.Digit(n)] else Decimal(n / 10) + [EventCursor.Digit(n % 10)]
  }

  function Alias(index: nat): string {
    ['m'] + Decimal(index)
  }

  /** The event behind an alias; only the canonical spelling of an index in the batch is accepted. */
  function Restored(id: string, messages: seq<Message>): Result<string, AliasError> {
    if id == "" || id[0] != 'm' then Err(UnknownAlias)
    else
      var index := EventCursor.ParseU64(id[1..]);
      if index.None? || Alias(index.value) != id then Err(UnknownAlias)
      else if index.value >= |messages| then Err(OutOfRange)
      else Ok(messages[index.value].evidence.eventId)
  }

  lemma {:induction false} DecimalDigits(n: nat)
    ensures Decimal(n) != "" && Decimal(n)[0] != '+'
    ensures EventCursor.Digits(Decimal(n)) == Some(n)
  {
    var s := Decimal(n);
    if n < 10 {
      assert s[..0] == "";
    } else {
      DecimalDigits(n / 10);
      assert s[..|s| - 1] == Decimal(n / 10);
    }
  }

  lemma AliasParses(index: nat)
    requires index <= EventCursor.U64_MAX
    ensures EventCursor.ParseU64(Alias(index)[1..]) == Some(index)
  {
    DecimalDigits(index);
    assert Alias(index)[1..] == Decimal(index);
  }

  /** Exactly the aliases of the batch are accepted, and each leads to its own message. */
  lemma RestoredIff(id: string, messages: seq<Message>, event: string)
    requires |messages| <= EventCursor.U64_MAX
    ensures Restored(id, messages) == Ok(event)
            <==> exists i :: 0 <= i < |messages| && id == Alias(i) && event == messages[i].evidence.eventId
  {
    if i :| 0 <= i < |messages| && id == Alias(i) && event == messages[i].evidence.eventId {
      AliasParses(i);
    }
  }

  /** Two accepted aliases of one index are the same text. */
  lemma AliasesDistinct(i: nat, j: nat)
    requires i <= EventCursor.U64_MAX && j <= EventCursor.U64_MAX && Alias(i) == Alias(j)
    ensures i == j
  {
    AliasParses(i);
    AliasParses(j);
  }

  /** An alias is the letter and the decimal number without leading zeros. */
  lemma {:induction false} AliasIs(index: nat)
    ensures Alias(index)[0] == 'm' && EventCursor.Digits(Alias(index)[1..]) == Some(index)
    ensures |Alias(index)| > 1 && (Alias(index)[1] == '0' ==> Alias(index) == "m0")
    decreases index
  {
    DecimalDigits(index);
    assert Alias(index)[1..] == Decimal(index);
    if index >= 10 {
      AliasIs(index / 10);
      assert Alias(index)[1] == Alias(index / 10)[1];
    }
  }

  // ---------------------------------------------------------------- a whole extraction

  function RestoredIds(ids: seq<string>, messages: seq<Message>): Result<seq<string>, AliasError>
    decreases |ids|
  {
    if ids == [] then Ok([])
    else
      var front := RestoredIds(ids[..|ids| - 1], messages);
      if front.Err? then front
      else
        var last := Restored(ids[|ids| - 1], messages);
        if last.Err? then Err(last.error) else Ok(front.value + [last.value])
  }

  /** The ids of one episode, rewritten one by one; the first bad one ends it. */
  method RestoreIds(ids: seq<string>, messages: seq<Message>) returns (r: Result<seq<string>, AliasError>)
    ensures r == RestoredIds(ids, messages)
  {
    var restored := ids;
    for i := 0 to |ids|
      invariant |restored| == |ids| && restored[i..] == ids[i..]
      invariant RestoredIds(ids[..i], messages) == Ok(restored[..i])
    {
      assert ids[..i + 1][..i] == ids[..i] && restored[i] == ids[i..][0];
      var id := Restored(restored[i], messages);
      if id.Err? {
        RestoredStops(ids, i, messages);
        return Err(id.error);
      }
      restored := restored[i := id.value];
      assert restored[..i + 1] == restored[..i] + [id.value];
    }
    assert ids[..|ids|] == ids && restored[..|ids|] == restored;
    r := Ok(restored);
  }

  lemma {:induction false} RestoredStops(ids: seq<string>, i: nat, messages: seq<Message>)
    requires i < |ids| && RestoredIds(ids[..i], messages).Ok? && Restored(ids[i], messages).Err?
    ensures RestoredIds(ids, messages) == Err(Restored(ids[i], messages).error)
    decreases |ids|
  {
    var front := ids[..|ids| - 1];
    if i < |front| {
      assert front[..i] == ids[..i];
      RestoredStops(front, i, messages);
    }
  }

  function AliasesOf(indexes: seq<nat>): seq<string> {
    seq(|indexes|, k requires 0 <= k < |indexes| => Alias(indexes[k]))
  }

  function EventsOf(indexes: seq<nat>, messages: seq<Message>): seq<string>
    requires forall i :: i in indexes ==> i < |messages|
  {
    assert forall k :: 0 <= k < |indexes| ==> indexes[k] in indexes;
    seq(|indexes|, k requires 0 <= k < |indexes| => messages[indexes[k]].evidence.eventId)
  }

  /** The round trip: aliases of any messages of the batch come back as the events of those messages, in order. */
  lemma {:induction false} AliasRoundTrip(indexes: seq<nat>, messages: seq<Message>)
    requires |messages| <= EventCursor.U64_MAX && forall i :: i in indexes ==> i < |messages|
    ensures RestoredIds(AliasesOf(indexes), messages) == Ok(EventsOf(indexes, messages))
    decreases |indexes|
  {
    if indexes != [] {
      var front, last := indexes[..|indexes| - 1], indexes[|indexes| - 1];
      assert last in indexes && forall i :: i in front ==> i in indexes;
      AliasRoundTrip(front, messages);
      assert indexes == front + [last];
      AliasesMore(front, last);
      EventsMore(front, last, messages);
      RestoredIff(Alias(last), messages, messages[last].evidence.eventId);
      RestoredSnoc(AliasesOf(front), Alias(last), messages);
    } else {
      assert AliasesOf(indexes) == [] && EventsOf(indexes, messages) == [];
    }
  }

  lemma AliasesMore(front: seq<nat>, last: nat)
    ensures AliasesOf(front + [last]) == AliasesOf(front) + [Alias(last)]
  {
  }

  lemma EventsMore(front: seq<nat>, last: nat, messages: seq<Message>)
    requires forall i :: i in front + [last] ==> i < |messages|
    requires forall i :: i in front ==> i < |messages|
    requires last < |messages|
    ensures EventsOf(front + [last], messages) == EventsOf(front, messages) + [messages[last].evidence.eventId]
  {
  }

  lemma RestoredSnoc(ids: seq<string>, id: string, messages: seq<Message>)
    ensures RestoredIds(ids + [id], messages)
            == if RestoredIds(ids, messages).Err? then RestoredIds(ids, messages)
               else if Restored(id, messages).Err? then Err(Restored(id, messages).error)
               else Ok(RestoredIds(ids, messages).value + [Restored(id, messages).value])
  {
    assert (ids + [id])[..|ids|] == ids;
  }

  /** Whatever a model returns, ids that were restored name messages that were supplied. */
  lemma {:induction false} RestoredAreSupplied(ids: seq<string>, messages: seq<Message>)
    requires RestoredIds(ids, messages).Ok?
    ensures forall e :: e in RestoredIds(ids, messages).value ==> exists m :: m in messages && m.evidence.eventId == e
    decreases |ids|
  {
    if ids != [] {
      RestoredAreSupplied(ids[..|ids| - 1], messages);
    }
  }

  // ---------------------------------------------------------------- all episodes of all tasks

  /** The ids in the order the nested iteration meets them. */
  function AllIds(tasks: seq<TaskDelta>): seq<string> {
    if tasks == [] then [] else AllIds(tasks[..|tasks| - 1]) + DeltaIds(tasks[|tasks| - 1].episodes)
  }

  /** Only the ids were rewritten. */
  ghost predicate SameEpisodes(a: seq<EpisodeDelta>, b: seq<EpisodeDelta>) {
    && |a| == |b|
    && forall i :: 0 <= i < |a| ==>
         b[i] == a[i].(evidenceIds := b[i].evidenceIds) && |b[i].evidenceIds| == |a[i].evidenceIds|
  }

  ghost predicate SameTasks(a: seq<TaskDelta>, b: seq<TaskDelta>) {
    && |a| == |b|
    && forall i :: 0 <= i < |a| ==> b[i] == a[i].(episodes := b[i].episodes) && SameEpisodes(a[i].episodes, b[i].episodes)
  }

  lemma {:induction false} RestoredConcat(a: seq<string>, b: seq<string>, messages: seq<Message>)
    ensures var x, y := RestoredIds(a, messages), RestoredIds(b, messages);
            RestoredIds(a + b, messages) == if x.Err? then x else if y.Err? then y else Ok(x.value + y.value)
    decreases |b|
  {
    if b == [] {
      assert a + b == a;
      assert forall s: seq<string> :: s + [] == s;
    } else {
      var front, last := b[..|b| - 1], b[|b| - 1];
      RestoredConcat(a, front, messages);
      RestoredSnoc(a + front, last, messages);
      RestoredSnoc(front, last, messages);
      Regrouped(a, front, last);
      assert b == front + [last];
      if RestoredIds(a, messages).Ok? && RestoredIds(front, messages).Ok? && Restored(last, messages).Ok? {
        Regrouped(RestoredIds(a, messages).value, RestoredIds(front, messages).value, Restored(last, messages).value);
      }
    }
  }

  lemma Regrouped(a: seq<string>, b: seq<string>, c: string)
    ensures a + (b + [c]) == a + b + [c]
  {
  }

  /** A bad id stops the restoration with its error, whatever follows. */
  lemma RestoredFails(ids: seq<string>, whole: seq<string>, messages: seq<Message>)
    requires ids <= whole && RestoredIds(ids, messages).Err?
    ensures RestoredIds(whole, messages) == RestoredIds(ids, messages)
  {
    RestoredConcat(ids, whole[|ids|..], messages);
    assert ids + whole[|ids|..] == whole;
  }

  lemma {:induction false} AllIdsPrefix(tasks: seq<TaskDelta>, n: nat)
    requires n <= |tasks|
    ensures AllIds(tasks[..n]) <= AllIds(tasks)
    decreases |tasks|
  {
    if n < |tasks| {
      AllIdsPrefix(tasks[..|tasks| - 1], n);
      assert tasks[..|tasks| - 1][..n] == tasks[..n];
    } else {
      assert tasks[..n] == tasks;
    }
  }

  lemma DeltaIdsAppend(episodes: seq<EpisodeDelta>, e: EpisodeDelta)
    ensures DeltaIds(episodes + [e]) == DeltaIds(episodes) + e.evidenceIds
  {
    assert (episodes + [e])[..|episodes|] == episodes;
  }

  lemma AllIdsAppend(tasks: seq<TaskDelta>, t: TaskDelta)
    ensures AllIds(tasks + [t]) == AllIds(tasks) + DeltaIds(t.episodes)
  {
    assert (tasks + [t])[..|tasks|] == tasks;
  }

  lemma {:induction false} RestoredLength(ids: seq<string>, messages: seq<Message>)
    requires RestoredIds(ids, messages).Ok?
    ensures |RestoredIds(ids, messages).value| == |ids|
    decreases |ids|
  {
    if ids != [] {
      RestoredLength(ids[..|ids| - 1], messages);
    }
  }

  lemma EpisodeRestored(front: seq<EpisodeDelta>, done: seq<EpisodeDelta>, e: EpisodeDelta, ids: seq<string>, messages: seq<Message>)
    requires SameEpisodes(front, done) && RestoredIds(DeltaIds(front), messages) == Ok(DeltaIds(done))
    requires RestoredIds(e.evidenceIds, messages) == Ok(ids)
    ensures SameEpisodes(front + [e], done + [e.(evidenceIds := ids)])
    ensures RestoredIds(DeltaIds(front + [e]), messages) == Ok(DeltaIds(done + [e.(evidenceIds := ids)]))
  {
    RestoredLength(e.evidenceIds, messages);
    DeltaIdsAppend(front, e);
    DeltaIdsAppend(done, e.(evidenceIds := ids));
    RestoredConcat(DeltaIds(front), e.evidenceIds, messages);
  }

  lemma EpisodeFails(episodes: seq<EpisodeDelta>, i: nat, messages: seq<Message>)
    requires i < |episodes| && RestoredIds(DeltaIds(episodes[..i]), messages).Ok?
    requires RestoredIds(episodes[i].evidenceIds, messages).Err?
    ensures RestoredIds(DeltaIds(episodes), messages) == RestoredIds(episodes[i].evidenceIds, messages)
  {
    assert episodes[..i + 1] == episodes[..i] + [episodes[i]];
    DeltaIdsAppend(episodes[..i], episodes[i]);
    RestoredConcat(DeltaIds(episodes[..i]), episodes[i].evidenceIds, messages);
    DeltaIdsPrefix(episodes, i + 1);
    RestoredFails(DeltaIds(episodes[..i + 1]), DeltaIds(episodes), messages);
  }

  method RestoreEpisodes(episodes: seq<EpisodeDelta>, messages: seq<Message>) returns (r: Result<seq<EpisodeDelta>, AliasError>)
    ensures r.Err? ==> RestoredIds(DeltaIds(episodes), messages) == Err(r.error)
    ensures r.Ok? ==>
              && SameEpisodes(episodes, r.value)
              && RestoredIds(DeltaIds(episodes), messages) == Ok(DeltaIds(r.value))
  {
    var done: seq<EpisodeDelta> := [];
    for i := 0 to |episodes|
      invariant SameEpisodes(episodes[..i], done)
      invariant RestoredIds(DeltaIds(episodes[..i]), messages) == Ok(DeltaIds(done))
    {
      var ids := RestoreIds(episodes[i].evidenceIds, messages);
      if ids.Err? {
        EpisodeFails(episodes, i, messages);
        return Err(ids.error);
      }
      assert episodes[..i + 1] == episodes[..i] + [episodes[i]];
      EpisodeRestored(episodes[..i], done, episodes[i], ids.value, messages);
      done := done + [episodes[i].(evidenceIds := ids.value)];
    }
    assert episodes[..|episodes|] == episodes;
    r := Ok(done);
  }

  lemma TaskRestored(front: seq<TaskDelta>, done: seq<TaskDelta>, t: TaskDelta, episodes: seq<EpisodeDelta>, messages: seq<Message>)
    requires SameTasks(front, done) && RestoredIds(AllIds(front), messages) == Ok(AllIds(done))
    requires SameEpisodes(t.episodes, episodes) && RestoredIds(DeltaIds(t.episodes), messages) == Ok(DeltaIds(episodes))
    ensures SameTasks(front + [t], done + [t.(episodes := episodes)])
    ensures RestoredIds(AllIds(front + [t]), messages) == Ok(AllIds(done + [t.(episodes := episodes)]))
  {
    AllIdsAppend(front, t);
    AllIdsAppend(done, t.(episodes := episodes));
    RestoredConcat(AllIds(front), DeltaIds(t.episodes), messages);
  }

  lemma TaskFails(tasks: seq<TaskDelta>, i: nat, messages: seq<Message>)
    requires i < |tasks| && RestoredIds(AllIds(tasks[..i]), messages).Ok?
    requires RestoredIds(DeltaIds(tasks[i].episodes), messages).Err?
    ensures RestoredIds(AllIds(tasks), messages) == RestoredIds(DeltaIds(tasks[i].episodes), messages)
  {
    assert tasks[..i + 1] == tasks[..i] + [tasks[i]];
    AllIdsAppend(tasks[..i], tasks[i]);
    RestoredConcat(AllIds(tasks[..i]), DeltaIds(tasks[i].episodes), messages);
    AllIdsPrefix(tasks, i + 1);
    RestoredFails(AllIds(tasks[..i + 1]), AllIds(tasks), messages);
  }

  /** `restore_evidence_ids`: every id of every episode of every task, in order; nothing else of the answer changes. */
  method RestoreEvidenceIds(tasks: seq<TaskDelta>, messages: seq<Message>) returns (r: Result<seq<TaskDelta>, AliasError>)
    ensures r.Err? ==> RestoredIds(AllIds(tasks), messages) == Err(r.error)
    ensures r.Ok? ==> SameTasks(tasks, r.value) && RestoredIds(AllIds(tasks), messages) == Ok(AllIds(r.value))
  {
    var done: seq<TaskDelta> := [];
    for i := 0 to |tasks|
      invariant SameTasks(tasks[..i], done)
      invariant RestoredIds(AllIds(tasks[..i]), messages) == Ok(AllIds(done))
    {
      var episodes := RestoreEpisodes(tasks[i].episodes, messages);
      if episodes.Err? {
        TaskFails(tasks, i, messages);
        return Err(episodes.error);
      }
      assert tasks[..i + 1] == tasks[..i] + [tasks[i]];
      TaskRestored(tasks[..i], done, tasks[i], episodes.value, messages);
      done := done + [tasks[i].(episodes := episodes.value)];
    }
    assert tasks[..|tasks|] == tasks;
    r := Ok(done);
  }
}
