/** What the operations on the recent snapshots leave and answer, and that no boundary passes unnoticed. */
module RecentMeaning {
  import opened Results
  import opened RecentFeed
  import opened RecentPages

  /** The time boundary of a known provider has come. */
  predicate Past(s: Snapshots, provider: string, now: nat) {
    && provider in s.versions && s.versions[provider].boundary.Some?
    && s.versions[provider].boundary.value <= now
  }

  /** The provider starts over: a later epoch and revision, no boundary, and none of its views is left. */
  ghost predicate StartedOver(s: Snapshots, t: Snapshots, provider: string) {
    && provider in s.versions && provider in t.versions
    && t.versions[provider].epoch == s.versions[provider].epoch + 1
    && t.versions[provider].revision == s.versions[provider].revision + 1
    && t.versions[provider].boundary == None
    && forall k :: k in t.views ==> k.provider != provider
  }

  ghost predicate SameVersion(s: Snapshots, t: Snapshots, provider: string) {
    && (provider in s.versions <==> provider in t.versions)
    && (provider in s.versions ==>
          && t.versions[provider].epoch == s.versions[provider].epoch
          && t.versions[provider].revision == s.versions[provider].revision
          && t.versions[provider].boundary == s.versions[provider].boundary)
  }

  // ---------------------------------------------------------------- hints

  /**
    The hints name exactly the providers that were invalidated or whose boundary has come, each with its present
    revision; those past their boundary start over, all others stay as they are.
   */
  lemma HintsAre(s: Snapshots, now: nat)
    ensures var (t, hints) := Taken(s, now);
            && (forall p :: p in hints <==> p in s.versions && (s.versions[p].pending || Past(s, p, now)))
            && (forall p :: p in hints ==> hints[p] == t.versions[p].revision)
            && (forall p :: Past(s, p, now) ==> StartedOver(s, t, p) && hints[p] == s.versions[p].revision + 1)
            && (forall p :: !Past(s, p, now) ==> SameVersion(s, t, p))
            && (forall p :: p in t.versions ==> !t.versions[p].pending)
            && (forall k :: k in t.views <==> k in s.views && !Past(s, k.provider, now) && now < s.views[k].expiresAt)
            && (forall k :: k in t.views ==> t.views[k] == s.views[k])
            && t.minted == s.minted
  {
  }

  /** A provider that is still to be hinted by `time`, with a revision above `revision`. */
  predicate Owed(s: Snapshots, provider: string, time: nat, revision: nat) {
    && provider in s.versions && revision <= s.versions[provider].revision
    && ((s.versions[provider].pending && revision < s.versions[provider].revision) || Past(s, provider, time))
  }

  /** One of the actions has handed out a hint about the provider, with a revision above `revision`. */
  ghost predicate Told(s: Snapshots, actions: seq<Action>, provider: string, revision: nat) {
    exists i :: 0 <= i < |actions| && TellsAt(s, actions, i, provider, revision)
  }

  ghost predicate TellsAt(s: Snapshots, actions: seq<Action>, i: nat, provider: string, revision: nat)
    requires i < |actions|
  {
    && actions[i].Take?
    && var hints := Taken(After(s, actions[..i]), actions[i].now).1;
    && provider in hints && revision < hints[provider]
  }

  lemma OwedStep(s: Snapshots, a: Action, provider: string, time: nat, revision: nat)
    requires Owed(s, provider, time, revision)
    ensures Owed(Act(s, a), provider, time, revision)
            || (a.Take? && provider in Taken(s, a.now).1 && revision < Taken(s, a.now).1[provider])
  {
    match a
    case Take(now) => HintsAre(s, now);
    case Install(k, e, rows, b, f, now) =>
    case Append(k, e, rows, t, now) =>
    case Ask(_, _, _, _, _) => AskLeaves(s, a);
    case _ =>
  }

  lemma {:induction false} OwedStays(s: Snapshots, actions: seq<Action>, provider: string, time: nat, revision: nat)
    requires Owed(s, provider, time, revision)
    ensures Owed(After(s, actions), provider, time, revision) || Told(s, actions, provider, revision)
    decreases |actions|
  {
    if actions != [] {
      var front := actions[..|actions| - 1];
      OwedStays(s, front, provider, time, revision);
      if Told(s, front, provider, revision) {
        var i :| 0 <= i < |front| && TellsAt(s, front, i, provider, revision);
        assert front[..i] == actions[..i];
        assert TellsAt(s, actions, i, provider, revision);
      } else {
        OwedStep(After(s, front), actions[|actions| - 1], provider, time, revision);
        if !Owed(After(s, actions), provider, time, revision) {
          assert TellsAt(s, actions, |front|, provider, revision);
        }
      }
    }
  }

  /**
    No boundary passes unnoticed. When the boundary of a provider is set to `b` or earlier, then on every run the
    readers are told of a later revision, by the first hints at or after `b` if not before, even if the snapshot
    that set it has been dropped long ago.
   */
  lemma BoundaryIsHinted(s: Snapshots, provider: string, b: nat, actions: seq<Action>, now: nat)
    requires Past(s, provider, b) && b <= now
    ensures Told(s, actions + [Take(now)], provider, s.versions[provider].revision)
  {
    var revision := s.versions[provider].revision;
    var all := actions + [Take(now)];
    OwedStays(s, actions, provider, b, revision);
    if Told(s, actions, provider, revision) {
      var i :| 0 <= i < |actions| && TellsAt(s, actions, i, provider, revision);
      assert actions[..i] == all[..i];
      assert TellsAt(s, all, i, provider, revision);
    } else {
      HintsAre(After(s, actions), now);
      assert all[..|actions|] == actions;
      assert TellsAt(s, all, |actions|, provider, revision);
    }
  }

  // ---------------------------------------------------------------- tracking and invalidating

  /** A tracked provider is known; one that was known stays as it was. */
  lemma TrackIs(s: Snapshots, provider: string)
    ensures var t := Tracked(s, provider);
            && t.versions.Keys == s.versions.Keys + {provider} && t.views == s.views && t.minted == s.minted
            && (forall p :: p in s.versions ==> t.versions[p] == s.versions[p])
            && (provider !in s.versions ==> t.versions[provider] == Version(0, 0, false, None))
  {
  }

  /** An invalidated provider starts over and is to be hinted; nothing of any other is touched. */
  lemma InvalidateIs(s: Snapshots, provider: string)
    ensures var t := Invalidated(s, provider);
            && StartedOver(Tracked(s, provider), t, provider) && t.versions[provider].pending
            && t.versions.Keys == s.versions.Keys + {provider} && t.minted == s.minted
            && (forall p :: p in s.versions && p != provider ==> t.versions[p] == s.versions[p])
            && (forall k :: k in t.views <==> k in s.views && k.provider != provider)
            && (forall k :: k in t.views ==> t.views[k] == s.views[k])
  {
  }

  /** A tail is set on a snapshot that is there, and nowhere else. */
  lemma TailIs(s: Snapshots, key: ViewKey, tail: Option<Tail>)
    ensures var t := TailSet(s, key, tail);
            && t.versions == s.versions && t.views.Keys == s.views.Keys && t.minted == s.minted
            && (key in s.views ==> t.views[key] == s.views[key].(tail := tail))
            && (forall k :: k in s.views && k != key ==> t.views[k] == s.views[k])
  {
  }

  // ---------------------------------------------------------------- installing and appending

  /** A boundary as set by a new one: whichever comes first. */
  predicate Sooner(before: Option<nat>, added: Option<nat>, after: Option<nat>) {
    && (before.None? ==> after == added) && (added.None? ==> after == before)
    && (before.Some? && added.Some? ==>
          after.Some? && (after == before || after == added) && after.value <= before.value && after.value <= added.value)
  }

  /** Everything but one provider's boundary and one view is as it was. */
  ghost predicate OnlyAt(s: Snapshots, t: Snapshots, key: ViewKey, boundary: Option<nat>) {
    && key.provider in t.versions
    && t.versions[key.provider].(boundary := None)
       == (if key.provider in s.versions then s.versions[key.provider].(boundary := None) else Version(0, 0, false, None))
    && Sooner(if key.provider in s.versions then s.versions[key.provider].boundary else None, boundary,
              t.versions[key.provider].boundary)
    && (forall p :: p != key.provider ==> (p in s.versions <==> p in t.versions))
    && (forall p :: p != key.provider && p in s.versions ==> t.versions[p] == s.versions[p])
    && t.views.Keys == s.views.Keys + {key}
    && (forall k :: k in s.views && k != key ==> t.views[k] == s.views[k])
  }

  /** Five minutes later, at most the end of time. */
  function FiveMinutesOn(now: nat): nat {
    if now <= 0xFFFF_FFFF_FFFF_FFFF - 300000 then now + 300000 else 0xFFFF_FFFF_FFFF_FFFF
  }

  /** An installation is refused exactly for another epoch or a boundary that has come; else its snapshot is there. */
  lemma InstallIs(
    s: Snapshots, key: ViewKey, epoch: nat, rows: seq<Conversation>, boundary: Option<nat>, fence: string, now: nat)
    ensures var r := Installed(s, key, epoch, rows, boundary, fence, now);
            && (r.Ok? <==>
                  && epoch == (if key.provider in s.versions then s.versions[key.provider].epoch else 0)
                  && (boundary.Some? ==> now < boundary.value))
            && (r.Err? ==> r.error == SnapshotChanged)
            && (r.Ok? ==>
                  && var t := r.value;
                  && OnlyAt(s, t, key, boundary) && t.minted == s.minted + 1
                  && t.views[key] == Snapshot(None, rows, t.versions[key.provider].revision, fence, FiveMinutesOn(now), s.minted))
  {
  }

  /** The earliest time at which one of the rows leaves the window. */
  ghost predicate Leaving(rows: seq<Conversation>, boundary: Option<nat>) {
    && (boundary.None? <==> forall i :: 0 <= i < |rows| ==> Expiry(rows[i]).None?)
    && (boundary.Some? ==>
          && (exists i :: 0 <= i < |rows| && Expiry(rows[i]) == boundary)
          && forall i :: 0 <= i < |rows| && Expiry(rows[i]).Some? ==> boundary.value <= Expiry(rows[i]).value)
  }

  lemma {:induction false} RowsLeave(rows: seq<Conversation>)
    ensures Leaving(rows, RowsBoundary(rows))
  {
    if rows != [] {
      var front := rows[..|rows| - 1];
      RowsLeave(front);
      assert rows == front + [rows[|rows| - 1]];
      if RowsBoundary(front).Some? {
        var i :| 0 <= i < |front| && Expiry(front[i]) == RowsBoundary(front);
        assert Expiry(rows[i]) == RowsBoundary(front);
      }
    }
  }

  /**
    Rows are appended exactly to a live snapshot of the same epoch and before any of them leaves the window, and
    then behind the rows it has.
   */
  lemma AppendIs(s: Snapshots, key: ViewKey, epoch: nat, rows: seq<Conversation>, tail: Option<Tail>, now: nat)
    ensures var r := Appended(s, key, epoch, rows, tail, now);
            && (r.Ok? <==>
                  && epoch == (if key.provider in s.versions then s.versions[key.provider].epoch else 0)
                  && key in s.views && now < s.views[key].expiresAt
                  && forall i :: 0 <= i < |rows| && Expiry(rows[i]).Some? ==> now < Expiry(rows[i]).value)
            && (r.Err? ==> r.error == CursorExpired)
            && (r.Ok? && key.provider in s.versions ==>
                  && var t := r.value;
                  && OnlyAt(s, t, key, RowsBoundary(rows)) && Leaving(rows, RowsBoundary(rows)) && t.minted == s.minted
                  && t.views[key] == s.views[key].(rows := s.views[key].rows + rows, tail := tail))
  {
    RowsLeave(rows);
    if RowsBoundary(rows).Some? {
      var i :| 0 <= i < |rows| && Expiry(rows[i]) == RowsBoundary(rows);
    }
  }

  // ---------------------------------------------------------------- pages

  /** A snapshot that may be served: neither too old nor past the boundary of its provider. */
  predicate Live(s: Snapshots, key: ViewKey, now: nat) {
    key in s.views && now < s.views[key].expiresAt && !Past(s, key.provider, now)
  }

  function Asked(limit: Option<nat>): nat {
    if limit.Some? then limit.value else 20
  }

  function Start(cursor: Option<Cursor>): nat
    requires cursor.Some? ==> cursor.value.Issued?
  {
    if cursor.Some? then cursor.value.offset else 0
  }

  /** A cursor that was issued for this view. */
  predicate Own(cursor: Option<Cursor>, key: ViewKey) {
    cursor.Some? ==> cursor.value.Issued? && cursor.value.key == key
  }

  /** The request can be answered from the snapshot: it is live, and the cursor is one into it. */
  predicate Meets(s: Snapshots, key: ViewKey, cursor: Option<Cursor>, now: nat)
    requires Own(cursor, key)
  {
    Live(s, key, now) && (cursor.Some? ==> cursor.value.nonce == s.views[key].nonce)
  }

  /** The page asked for: as many rows as are wanted or left, and a next cursor unless nothing is left at all. */
  ghost predicate PageOf(v: Snapshot, key: ViewKey, start: nat, limit: nat, fence: string, page: Page) {
    && start <= |v.rows| && start + |page.conversations| <= |v.rows|
    && page.conversations == v.rows[start..start + |page.conversations|]
    && (|page.conversations| == limit || (|page.conversations| < limit && start + |page.conversations| == |v.rows|))
    && page.revision == v.revision && page.fence == fence
    && (page.next.None? <==> v.tail.None? && start + |page.conversations| == |v.rows|)
    && (page.next.Some? ==> page.next.value == Issued(key, v.nonce, start + |page.conversations|, fence))
  }

  /** The answer to a page request: its refusals one by one, else not ready, else the page. */
  lemma PageIs(s: Snapshots, key: ViewKey, cursor: Option<Cursor>, limit: Option<nat>, now: nat, first: Option<string>)
    ensures
      var r := Paged(s, key, cursor, limit, now, first).1;
      if !(1 <= Asked(limit) <= 100) then r == Err(InvalidRequest)
      else if !Own(cursor, key) then r == Err(InvalidCursor)
      else if !Meets(s, key, cursor, now) then r == if cursor.Some? then Err(CursorExpired) else Ok(None)
      else if Start(cursor) > |s.views[key].rows| then r == Err(InvalidCursor)
      else if s.views[key].tail.Some? && Start(cursor) + Asked(limit) > |s.views[key].rows| then r == Ok(None)
      else
        && r.Ok? && r.value.Some?
        && PageOf(s.views[key], key, Start(cursor), Asked(limit),
                  if cursor.Some? then cursor.value.fence else if first.Some? then first.value else s.views[key].fence,
                  r.value.value)
  {
  }

  /** What a page request leaves: a provider past its boundary starts over, an old snapshot is dropped, nothing else moves. */
  lemma PageLeaves(s: Snapshots, key: ViewKey, cursor: Option<Cursor>, limit: Option<nat>, now: nat, first: Option<string>)
    ensures
      var t := Paged(s, key, cursor, limit, now, first).0;
      if !(1 <= Asked(limit) <= 100) || !Own(cursor, key) then t == s
      else
        && (if Past(s, key.provider, now) then StartedOver(s, t, key.provider) && t.versions[key.provider].pending
            else t.versions == s.versions)
        && (forall p :: p != key.provider ==> SameVersion(s, t, p))
        && (forall k :: k in t.views <==>
              k in s.views && !(k.provider == key.provider && Past(s, key.provider, now))
              && !(k == key && s.views[k].expiresAt <= now))
        && (forall k :: k in t.views ==> t.views[k] == s.views[k])
        && t.minted == s.minted
  {
  }

  /** What is reported missing is needed: with fewer rows and more to fetch the page is still not ready. */
  lemma PendingIsNeeded(
    s: Snapshots, t: Snapshots, key: ViewKey, cursor: Option<Cursor>, limit: Option<nat>, tail: Tail, needed: nat,
    rows: seq<Conversation>, rest: Option<Tail>, now: nat, first: Option<string>)
    requires Pending(s, key, cursor, limit) == Ok(Some((tail, needed)))
    requires Appended(s, key, Epoch(s, key.provider), rows, rest, now) == Ok(t) && |rows| < needed && rest.Some?
    requires !Past(s, key.provider, now)
    requires limit.Some? ==> 1 <= limit.value <= 100
    requires cursor.Some? ==> cursor.value.offset <= |s.views[key].rows|
    ensures Paged(t, key, cursor, limit, now, first).1 == Ok(None)
  {
  }
}
