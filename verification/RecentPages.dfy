/**
  Cached snapshots of the recent feed: one per view, handed out page by page. The methods of
  `RecentSnapshots` are proved against functions on the value `Snapshots`; the theorems at the end are
  about every run of those functions.
 */
module RecentPages {
  import opened Results
  import opened RecentFeed

  const TTL_MS := 5 * 60 * 1000
  const DEFAULT_LIMIT := 20

  datatype ViewKey = ViewKey(provider: string, scope: string, generation: nat)

  datatype Version = Version(epoch: nat, revision: nat, pending: bool, boundary: Option<nat>)

  const NEW_VERSION := Version(0, 0, false, None)

  /** What is left to fetch from the provider behind the rows already collected. */
  datatype Tail = Tail(cursor: Option<string>, cutoff: nat, excluded: set<nat>, seen: set<string>)

  datatype Snapshot = Snapshot(
    tail: Option<Tail>, rows: seq<Conversation>, revision: nat, fence: string, expiresAt: nat, nonce: nat)

  /** `minted` is the next nonce: nonces never repeat. */
  datatype Snapshots = Snapshots(versions: map<string, Version>, views: map<ViewKey, Snapshot>, minted: nat)

  /** A cursor verifies only if it was issued, and then carries what was signed. */
  datatype Cursor = Issued(key: ViewKey, nonce: nat, offset: nat, fence: string) | Forged(text: string)

  datatype Page = Page(conversations: seq<Conversation>, next: Option<Cursor>, revision: nat, fence: string)

  datatype Fault = InvalidRequest | InvalidCursor | CursorExpired | SnapshotChanged

  // ---------------------------------------------------------------- the operations on values

  function VersionOf(s: Snapshots, provider: string): Version {
    if provider in s.versions then s.versions[provider] else NEW_VERSION
  }

  function Epoch(s: Snapshots, provider: string): nat {
    VersionOf(s, provider).epoch
  }

  predicate Reached(boundary: Option<nat>, now: nat) {
    boundary.Some? && now >= boundary.value
  }

  function Earlier(a: Option<nat>, b: Option<nat>): (r: Option<nat>)
    ensures forall now :: Reached(r, now) <==> Reached(a, now) || Reached(b, now)
  {
    if a.None? then b else if b.None? || a.value <= b.value then a else b
  }

  function Tracked(s: Snapshots, provider: string): Snapshots {
    s.(versions := s.versions[provider := VersionOf(s, provider)])
  }

  function Bumped(v: Version): Version {
    Version(v.epoch + 1, v.revision + 1, true, None)
  }

  function Invalidated(s: Snapshots, provider: string): Snapshots {
    Snapshots(
      s.versions[provider := Bumped(VersionOf(s, provider))],
      map k | k in s.views && k.provider != provider :: s.views[k],
      s.minted)
  }

  function Passed(s: Snapshots, now: nat): set<string> {
    set p | p in s.versions && Reached(s.versions[p].boundary, now)
  }

  /** Several known providers invalidated. */
  function InvalidatedAll(s: Snapshots, providers: set<string>): Snapshots {
    Snapshots(
      map p | p in s.versions :: if p in providers then Bumped(s.versions[p]) else s.versions[p],
      map k | k in s.views && k.provider !in providers :: s.views[k],
      s.minted)
  }

  function Hints(s: Snapshots): map<string, nat> {
    map p | p in s.versions && s.versions[p].pending :: s.versions[p].revision
  }

  function Quiet(s: Snapshots, now: nat): Snapshots {
    Snapshots(
      map p | p in s.versions :: s.versions[p].(pending := false),
      map k | k in s.views && now < s.views[k].expiresAt :: s.views[k],
      s.minted)
  }

  function Installed(
    s: Snapshots, key: ViewKey, epoch: nat, rows: seq<Conversation>, boundary: Option<nat>, fence: string, now: nat)
    : Result<Snapshots, Fault>
  {
    if Epoch(s, key.provider) != epoch || Reached(boundary, now) then Err(SnapshotChanged)
    else
      var v := VersionOf(s, key.provider);
      Ok(Snapshots(
           s.versions[key.provider := v.(boundary := Earlier(v.boundary, boundary))],
           s.views[key := Snapshot(None, rows, v.revision, fence, Expires(now), s.minted)],
           s.minted + 1))
  }

  function Expires(now: nat): nat {
    if now + TTL_MS <= U64_MAX then now + TTL_MS else U64_MAX
  }

  function TailSet(s: Snapshots, key: ViewKey, tail: Option<Tail>): Snapshots {
    if key in s.views then s.(views := s.views[key := s.views[key].(tail := tail)]) else s
  }

  /** The earliest moment at which one of the rows leaves the window. */
  function RowsBoundary(rows: seq<Conversation>): (r: Option<nat>)
    ensures forall i :: 0 <= i < |rows| && Expiry(rows[i]).Some? ==> r.Some? && r.value <= Expiry(rows[i]).value
  {
    if rows == [] then None else Earlier(RowsBoundary(rows[..|rows| - 1]), Expiry(rows[|rows| - 1]))
  }

  function Appended(s: Snapshots, key: ViewKey, epoch: nat, rows: seq<Conversation>, tail: Option<Tail>, now: nat)
    : Result<Snapshots, Fault>
  {
    if Epoch(s, key.provider) != epoch || key !in s.views || now >= s.views[key].expiresAt then Err(CursorExpired)
    else if Reached(RowsBoundary(rows), now) then Err(CursorExpired)
    else
      var v := VersionOf(s, key.provider);
      var bounded := if RowsBoundary(rows).None? then s.versions
                     else s.versions[key.provider := v.(boundary := Earlier(v.boundary, RowsBoundary(rows)))];
      Ok(Snapshots(bounded, s.views[key := s.views[key].(rows := s.views[key].rows + rows, tail := tail)], s.minted))
  }

  predicate Decodes(cursor: Cursor, key: ViewKey) {
    cursor.Issued? && cursor.key == key
  }

  /** The tail still to fetch for a page, and how many rows the page lacks. */
  function Pending(s: Snapshots, key: ViewKey, cursor: Option<Cursor>, limit: Option<nat>)
    : Result<Option<(Tail, nat)>, Fault>
  {
    if key !in s.views then Ok(None)
    else if cursor.Some? && !Decodes(cursor.value, key) then Err(InvalidCursor)
    else if cursor.Some? && cursor.value.nonce != s.views[key].nonce then Err(CursorExpired)
    else
      var wanted := (if cursor.Some? then cursor.value.offset else 0) + (if limit.Some? then limit.value else DEFAULT_LIMIT);
      var have := |s.views[key].rows|;
      Ok(if s.views[key].tail.None? then None
         else Some((s.views[key].tail.value, if wanted <= have then 0 else wanted - have)))
  }

  /** What a page request drops before it answers: a provider past its boundary, then an old snapshot. */
  function Swept(s: Snapshots, key: ViewKey, now: nat): Snapshots {
    var t := if Reached(VersionOf(s, key.provider).boundary, now) then Invalidated(s, key.provider) else s;
    if key in t.views && now >= t.views[key].expiresAt then t.(views := t.views - {key}) else t
  }

  function Slice(v: Snapshot, key: ViewKey, offset: nat, limit: nat, fence: string): Result<Option<Page>, Fault> {
    if offset > |v.rows| then Err(InvalidCursor)
    else if v.tail.Some? && offset + limit > |v.rows| then Ok(None)
    else
      var end := if offset + limit <= |v.rows| then offset + limit else |v.rows|;
      Ok(Some(Page(
                v.rows[offset..end],
                if end < |v.rows| || v.tail.Some? then Some(Issued(key, v.nonce, end, fence)) else None,
                v.revision,
                fence)))
  }

  /** A page request: the state it leaves and its answer. */
  function Paged(s: Snapshots, key: ViewKey, cursor: Option<Cursor>, limit: Option<nat>, now: nat, first: Option<string>)
    : (Snapshots, Result<Option<Page>, Fault>)
  {
    var n := if limit.Some? then limit.value else DEFAULT_LIMIT;
    if !(1 <= n <= 100) then (s, Err(InvalidRequest))
    else if cursor.Some? && !Decodes(cursor.value, key) then (s, Err(InvalidCursor))
    else
      var t := Swept(s, key, now);
      if key !in t.views then (t, if cursor.Some? then Err(CursorExpired) else Ok(None))
      else if cursor.None? then
        (t, Slice(t.views[key], key, 0, n, if first.Some? then first.value else t.views[key].fence))
      else if cursor.value.nonce != t.views[key].nonce then (t, Err(CursorExpired))
      else (t, Slice(t.views[key], key, cursor.value.offset, n, cursor.value.fence))
  }

  lemma InvalidatedOneMore(s: Snapshots, done: set<string>, provider: string)
    requires provider in s.versions && provider !in done
    ensures Invalidated(InvalidatedAll(s, done), provider) == InvalidatedAll(s, done + {provider})
  {
    var a, b := Invalidated(InvalidatedAll(s, done), provider), InvalidatedAll(s, done + {provider});
    assert a.versions == b.versions;
    assert a.views == b.views;
  }

  // ---------------------------------------------------------------- the class

  class RecentSnapshots {
    var versions: map<string, Version>
    var snapshots: map<ViewKey, Snapshot>
    var minted: nat

    ghost function State(): Snapshots
      reads this
    {
      Snapshots(versions, snapshots, minted)
    }

    constructor ()
      ensures State() == Snapshots(map[], map[], 0)
    {
      versions, snapshots, minted := map[], map[], 0;
    }

    method Track(provider: string)
      modifies this
      ensures State() == Tracked(old(State()), provider)
    {
      if provider !in versions {
        versions := versions[provider := NEW_VERSION];
      }
      assert old(State()).versions[provider := VersionOf(old(State()), provider)] == versions;
    }

    method Invalidate(provider: string)
      modifies this
      ensures State() == Invalidated(old(State()), provider)
    {
      var v := if provider in versions then versions[provider] else NEW_VERSION;
      versions := versions[provider := Version(v.epoch + 1, v.revision + 1, true, None)];
      snapshots := map k | k in snapshots && k.provider != provider :: snapshots[k];
    }

    /** Invalidates every provider past its boundary, drops old snapshots, and hands out each hint once. */
    method TakeInvalidations(now: nat) returns (hints: map<string, nat>)
      modifies this
      ensures var s := InvalidatedAll(old(State()), Passed(old(State()), now));
              State() == Quiet(s, now) && hints == Hints(s)
    {
      ghost var before := State();
      InvalidateEach(set p | p in versions && versions[p].boundary.Some? && now >= versions[p].boundary.value);
      assert State() == InvalidatedAll(before, Passed(before, now));
      snapshots := map k | k in snapshots && now < snapshots[k].expiresAt :: snapshots[k];
      hints := map p | p in versions && versions[p].pending :: versions[p].revision;
      versions := map p | p in versions :: versions[p].(pending := false);
    }

    method InvalidateEach(providers: set<string>)
      requires providers <= versions.Keys
      modifies this
      ensures State() == InvalidatedAll(old(State()), providers)
    {
      ghost var before := State();
      var expired := providers;
      assert InvalidatedAll(before, {}) == before && providers - expired == {};
      while expired != {}
        invariant expired <= providers && State() == InvalidatedAll(before, providers - expired)
        decreases |expired|
      {
        var provider :| provider in expired;
        InvalidatedOneMore(before, providers - expired, provider);
        assert providers - (expired - {provider}) == providers - expired + {provider};
        Invalidate(provider);
        expired := expired - {provider};
      }
      assert providers - expired == providers;
    }

    method Install(key: ViewKey, epoch: nat, rows: seq<Conversation>, boundary: Option<nat>, fence: string, now: nat)
      returns (r: Result<(), Fault>)
      modifies this
      ensures var target := Installed(old(State()), key, epoch, rows, boundary, fence, now);
              if target.Err? then r == Err(target.error) && State() == old(State()) else r == Ok(()) && State() == target.value
    {
      var version := if key.provider in versions then versions[key.provider] else NEW_VERSION;
      if version.epoch != epoch || (boundary.Some? && now >= boundary.value) {
        return Err(SnapshotChanged);
      }
      if boundary.Some? && (version.boundary.None? || boundary.value < version.boundary.value) {
        version := version.(boundary := boundary);
      }
      versions := versions[key.provider := version];
      snapshots := snapshots[key := Snapshot(None, rows, version.revision, fence, Expires(now), minted)];
      minted := minted + 1;
      r := Ok(());
    }

    method SetTail(key: ViewKey, tail: Option<Tail>)
      modifies this
      ensures State() == TailSet(old(State()), key, tail)
    {
      if key in snapshots {
        snapshots := snapshots[key := snapshots[key].(tail := tail)];
      }
    }

    method PendingTail(key: ViewKey, cursor: Option<Cursor>, limit: Option<nat>) returns (r: Result<Option<(Tail, nat)>, Fault>)
      ensures r == Pending(State(), key, cursor, limit)
    {
      if key !in snapshots {
        return Ok(None);
      }
      var offset := 0;
      if cursor.Some? {
        if !Decodes(cursor.value, key) {
          return Err(InvalidCursor);
        }
        if cursor.value.nonce != snapshots[key].nonce {
          return Err(CursorExpired);
        }
        offset := cursor.value.offset;
      }
      var wanted := offset + if limit.Some? then limit.value else DEFAULT_LIMIT;
      var have := |snapshots[key].rows|;
      match snapshots[key].tail
      case None => r := Ok(None);
      case Some(tail) => r := Ok(Some((tail, if wanted <= have then 0 else wanted - have)));
    }

    method Append(key: ViewKey, epoch: nat, rows: seq<Conversation>, tail: Option<Tail>, now: nat) returns (r: Result<(), Fault>)
      modifies this
      ensures var target := Appended(old(State()), key, epoch, rows, tail, now);
              if target.Err? then r == Err(target.error) && State() == old(State()) else r == Ok(()) && State() == target.value
    {
      var version := if key.provider in versions then versions[key.provider] else NEW_VERSION;
      if version.epoch != epoch || key !in snapshots || now >= snapshots[key].expiresAt {
        return Err(CursorExpired);
      }
      var boundary: Option<nat> := None;
      for i := 0 to |rows|
        invariant boundary == RowsBoundary(rows[..i])
      {
        assert rows[..i + 1][..i] == rows[..i];
        var expiry := Expiry(rows[i]);
        if expiry.Some? && (boundary.None? || expiry.value < boundary.value) {
          boundary := expiry;
        }
      }
      assert rows[..|rows|] == rows;
      if boundary.Some? {
        if now >= boundary.value {
          return Err(CursorExpired);
        }
        if version.boundary.None? || boundary.value < version.boundary.value {
          version := version.(boundary := boundary);
        }
        versions := versions[key.provider := version];
      }
      snapshots := snapshots[key := snapshots[key].(rows := snapshots[key].rows + rows, tail := tail)];
      r := Ok(());
    }

    method PageWithFence(key: ViewKey, cursor: Option<Cursor>, limit: Option<nat>, now: nat, first: Option<string>)
      returns (r: Result<Option<Page>, Fault>)
      modifies this
      ensures (State(), r) == Paged(old(State()), key, cursor, limit, now, first)
    {
      var n := if limit.Some? then limit.value else DEFAULT_LIMIT;
      if n < 1 || n > 100 {
        return Err(InvalidRequest);
      }
      if cursor.Some? && !Decodes(cursor.value, key) {
        return Err(InvalidCursor);
      }
      if key.provider in versions && versions[key.provider].boundary.Some? && now >= versions[key.provider].boundary.value {
        Invalidate(key.provider);
      }
      if key in snapshots && now >= snapshots[key].expiresAt {
        snapshots := snapshots - {key};
      }
      if key !in snapshots {
        return if cursor.Some? then Err(CursorExpired) else Ok(None);
      }
      var snapshot := snapshots[key];
      var offset, fence := 0, if first.Some? then first.value else snapshot.fence;
      if cursor.Some? {
        if cursor.value.nonce != snapshot.nonce {
          return Err(CursorExpired);
        }
        offset, fence := cursor.value.offset, cursor.value.fence;
      }
      if offset > |snapshot.rows| {
        return Err(InvalidCursor);
      }
      if snapshot.tail.Some? && offset + n > |snapshot.rows| {
        return Ok(None);
      }
      var end := if offset + n <= |snapshot.rows| then offset + n else |snapshot.rows|;
      var next: Option<Cursor> := None;
      if end < |snapshot.rows| || snapshot.tail.Some? {
        next := Some(Issued(key, snapshot.nonce, end, fence));
      }
      r := Ok(Some(Page(snapshot.rows[offset..end], next, snapshot.revision, fence)));
    }
  }

  // ---------------------------------------------------------------- runs

  datatype Action =
    | Track(provider: string)
    | Invalidate(provider: string)
    | Take(now: nat)
    | Install(key: ViewKey, epoch: nat, rows: seq<Conversation>, boundary: Option<nat>, fence: string, now: nat)
    | SetTail(key: ViewKey, tail: Option<Tail>)
    | Append(key: ViewKey, epoch: nat, rows: seq<Conversation>, tail: Option<Tail>, now: nat)
    | Ask(key: ViewKey, cursor: Option<Cursor>, limit: Option<nat>, now: nat, first: Option<string>)

  function Settled(s: Snapshots, r: Result<Snapshots, Fault>): Snapshots {
    if r.Ok? then r.value else s
  }

  function Act(s: Snapshots, a: Action): Snapshots {
    match a
    case Track(p) => Tracked(s, p)
    case Invalidate(p) => Invalidated(s, p)
    case Take(now) => Quiet(InvalidatedAll(s, Passed(s, now)), now)
    case Install(k, e, rows, b, f, now) => Settled(s, Installed(s, k, e, rows, b, f, now))
    case SetTail(k, t) => TailSet(s, k, t)
    case Append(k, e, rows, t, now) => Settled(s, Appended(s, k, e, rows, t, now))
    case Ask(k, c, l, now, f) => Paged(s, k, c, l, now, f).0
  }

  function After(s: Snapshots, actions: seq<Action>): Snapshots
    decreases |actions|
  {
    if actions == [] then s else Act(After(s, actions[..|actions| - 1]), actions[|actions| - 1])
  }

  /** Every cached view belongs to a tracked provider, carries its present revision, and has its own nonce. */
  ghost predicate Valid(s: Snapshots) {
    && (forall k :: k in s.views ==>
          && k.provider in s.versions && s.views[k].revision == s.versions[k.provider].revision
          && s.views[k].nonce < s.minted)
    && (forall k, j :: k in s.views && j in s.views && s.views[k].nonce == s.views[j].nonce ==> k == j)
  }

  ghost predicate Present(s: Snapshots, key: ViewKey, nonce: nat) {
    key in s.views && s.views[key].nonce == nonce
  }

  /** The same snapshot later on: only its rows and its tail have moved, and the rows only grew. */
  ghost predicate Same(s: Snapshots, t: Snapshots, key: ViewKey)
    requires key in s.views && key in t.views
  {
    var a, b := s.views[key], t.views[key];
    && a.rows <= b.rows && a.revision == b.revision && a.fence == b.fence && a.expiresAt == b.expiresAt
    && Epoch(s, key.provider) == Epoch(t, key.provider)
    && forall now :: Reached(VersionOf(s, key.provider).boundary, now) ==> Reached(VersionOf(t, key.provider).boundary, now)
  }

  /** What a step owes: it stays valid, and a snapshot still there afterwards was there before, in the same epoch. */
  ghost predicate Keeps(s: Snapshots, t: Snapshots, key: ViewKey, nonce: nat) {
    && Valid(t) && s.minted <= t.minted
    && (Present(t, key, nonce) ==> Present(s, key, nonce) && Same(s, t, key))
  }

  lemma InvalidateKeeps(s: Snapshots, provider: string, key: ViewKey, nonce: nat)
    requires Valid(s)
    ensures Keeps(s, Invalidated(s, provider), key, nonce)
  {
  }

  lemma TakeKeeps(s: Snapshots, providers: set<string>, now: nat, key: ViewKey, nonce: nat)
    requires Valid(s)
    ensures Keeps(s, Quiet(InvalidatedAll(s, providers), now), key, nonce)
  {
  }

  lemma InstallKeeps(s: Snapshots, t: Snapshots, k: ViewKey, e: nat, rows: seq<Conversation>, b: Option<nat>, f: string, now: nat, key: ViewKey, nonce: nat)
    requires Valid(s) && Installed(s, k, e, rows, b, f, now) == Ok(t)
    ensures Valid(t) && (nonce < s.minted ==> Keeps(s, t, key, nonce))
  {
    var v := VersionOf(s, k.provider);
    assert t.versions == s.versions[k.provider := v.(boundary := Earlier(v.boundary, b))];
    assert t.views == s.views[k := Snapshot(None, rows, v.revision, f, Expires(now), s.minted)];
  }

  lemma AppendKeeps(s: Snapshots, t: Snapshots, k: ViewKey, e: nat, rows: seq<Conversation>, tail: Option<Tail>, now: nat, key: ViewKey, nonce: nat)
    requires Valid(s) && Appended(s, k, e, rows, tail, now) == Ok(t)
    ensures Keeps(s, t, key, nonce)
  {
    assert t.views == s.views[k := s.views[k].(rows := s.views[k].rows + rows, tail := tail)];
  }

  lemma SweepKeeps(s: Snapshots, k: ViewKey, now: nat, key: ViewKey, nonce: nat)
    requires Valid(s)
    ensures Keeps(s, Swept(s, k, now), key, nonce)
  {
  }

  lemma TrackKeeps(s: Snapshots, p: string, key: ViewKey, nonce: nat)
    requires Valid(s)
    ensures Keeps(s, Tracked(s, p), key, nonce)
  {
  }

  lemma TailKeeps(s: Snapshots, k: ViewKey, tail: Option<Tail>, key: ViewKey, nonce: nat)
    requires Valid(s)
    ensures Keeps(s, TailSet(s, k, tail), key, nonce)
  {
  }

  lemma AskLeaves(s: Snapshots, a: Action)
    requires a.Ask?
    ensures Act(s, a) == s || Act(s, a) == Swept(s, a.key, a.now)
  {
  }

  lemma UnchangedKeeps(s: Snapshots, key: ViewKey, nonce: nat)
    requires Valid(s)
    ensures Keeps(s, s, key, nonce)
  {
  }

  lemma WriteKeeps(s: Snapshots, a: Action, key: ViewKey, nonce: nat)
    requires Valid(s) && nonce < s.minted && (a.Install? || a.Append?)
    ensures Keeps(s, Act(s, a), key, nonce)
  {
    var t := Act(s, a);
    if a.Install? && Installed(s, a.key, a.epoch, a.rows, a.boundary, a.fence, a.now) == Ok(t) {
      InstallKeeps(s, t, a.key, a.epoch, a.rows, a.boundary, a.fence, a.now, key, nonce);
    } else if a.Append? && Appended(s, a.key, a.epoch, a.rows, a.tail, a.now) == Ok(t) {
      AppendKeeps(s, t, a.key, a.epoch, a.rows, a.tail, a.now, key, nonce);
    } else {
      assert t == s;
      UnchangedKeeps(s, key, nonce);
    }
  }

  lemma StepKeeps(s: Snapshots, a: Action, key: ViewKey, nonce: nat)
    requires Valid(s) && nonce < s.minted
    ensures Keeps(s, Act(s, a), key, nonce)
  {
    match a
    case Track(p) => TrackKeeps(s, p, key, nonce);
    case Invalidate(p) => InvalidateKeeps(s, p, key, nonce);
    case Take(now) => TakeKeeps(s, Passed(s, now), now, key, nonce);
    case Install(_, _, _, _, _, _) => WriteKeeps(s, a, key, nonce);
    case SetTail(k, t) => TailKeeps(s, k, t, key, nonce);
    case Append(_, _, _, _, _) => WriteKeeps(s, a, key, nonce);
    case Ask(k, c, l, now, f) =>
      AskLeaves(s, a);
      SweepKeeps(s, k, now, key, nonce);
      UnchangedKeeps(s, key, nonce);
  }

  lemma {:induction false} RunKeeps(s: Snapshots, actions: seq<Action>, key: ViewKey, nonce: nat)
    requires Valid(s) && nonce < s.minted
    ensures Keeps(s, After(s, actions), key, nonce)
    decreases |actions|
  {
    if actions != [] {
      RunKeeps(s, actions[..|actions| - 1], key, nonce);
      StepKeeps(After(s, actions[..|actions| - 1]), actions[|actions| - 1], key, nonce);
    }
  }

  // ---------------------------------------------------------------- one reader following cursors

  /** One answered page request: the state it met, what was asked, and the page; `meanwhile` happens after it. */
  datatype Visit = Visit(before: Snapshots, limit: Option<nat>, now: nat, first: Option<string>, page: Page, meanwhile: seq<Action>)

  ghost predicate Answered(key: ViewKey, cursor: Option<Cursor>, v: Visit) {
    Paged(v.before, key, cursor, v.limit, v.now, v.first).1 == Ok(Some(v.page))
  }

  function Left(key: ViewKey, cursor: Option<Cursor>, v: Visit): Snapshots {
    After(Paged(v.before, key, cursor, v.limit, v.now, v.first).0, v.meanwhile)
  }

  function CursorInto(visits: seq<Visit>): Option<Cursor> {
    if visits == [] then None else visits[|visits| - 1].page.next
  }

  /** A first page, then each next page by the cursor of the one before; anything may happen in between. */
  ghost predicate Session(key: ViewKey, visits: seq<Visit>)
    decreases |visits|
  {
    visits != [] ==>
      var front, v := visits[..|visits| - 1], visits[|visits| - 1];
      && Session(key, front) && Valid(v.before)
      && Answered(key, CursorInto(front), v)
      && (front != [] ==>
            && CursorInto(front).Some?
            && v.before == Left(key, CursorInto(front[..|front| - 1]), front[|front| - 1]))
  }

  function Received(visits: seq<Visit>): seq<Conversation>
    decreases |visits|
  {
    if visits == [] then [] else Received(visits[..|visits| - 1]) + visits[|visits| - 1].page.conversations
  }

  /** What the reader knows after a page: where it stands in the snapshot the page came from. */
  ghost predicate Stands(key: ViewKey, s: Snapshots, nonce: nat, got: seq<Conversation>, page: Page) {
    && Valid(s) && Present(s, key, nonce) && got <= s.views[key].rows && page.revision == s.views[key].revision
    && (page.next.Some? ==> page.next == Some(Issued(key, nonce, |got|, page.fence)))
    && (page.next.None? ==> got == s.views[key].rows && s.views[key].tail.None?)
  }

  lemma SweptKeepsView(s: Snapshots, key: ViewKey, now: nat)
    requires Valid(s)
    ensures Valid(Swept(s, key, now)) && Swept(s, key, now).minted == s.minted
    ensures key in Swept(s, key, now).views ==>
              && key in s.views && Swept(s, key, now).views[key] == s.views[key]
              && !Reached(VersionOf(s, key.provider).boundary, now) && now < s.views[key].expiresAt
  {
  }

  lemma FirstPageStands(key: ViewKey, v: Visit)
    requires Valid(v.before) && Answered(key, None, v)
    ensures key in v.before.views
    ensures Stands(key, Paged(v.before, key, None, v.limit, v.now, v.first).0, v.before.views[key].nonce, v.page.conversations, v.page)
  {
    SweptKeepsView(v.before, key, v.now);
  }

  /** The next page continues exactly where the last one stopped, and brings at least one row if it is not the last. */
  lemma NextPageStands(key: ViewKey, s: Snapshots, nonce: nat, got: seq<Conversation>, page: Page, v: Visit)
    requires Stands(key, s, nonce, got, page) && page.next.Some?
    requires Valid(v.before) && (Present(v.before, key, nonce) ==> Same(s, v.before, key))
    requires Answered(key, page.next, v)
    ensures Present(v.before, key, nonce)
    ensures Stands(key, Paged(v.before, key, page.next, v.limit, v.now, v.first).0, nonce, got + v.page.conversations, v.page)
    ensures v.page.fence == page.fence && v.page.revision == page.revision
    ensures v.page.next.Some? ==> v.page.conversations != []
  {
    SweptKeepsView(v.before, key, v.now);
  }

  /** All pages but the last bring rows, and all carry the fence and the revision of the first. */
  ghost predicate Uniform(visits: seq<Visit>) {
    && (forall i :: 0 <= i < |visits| ==>
          visits[i].page.fence == visits[0].page.fence && visits[i].page.revision == visits[0].page.revision)
    && (forall i :: 0 <= i < |visits| && visits[i].page.next.Some? ==> visits[i].page.conversations != [])
  }

  function StateAtLast(key: ViewKey, visits: seq<Visit>): Snapshots
    requires visits != []
  {
    var front, v := visits[..|visits| - 1], visits[|visits| - 1];
    Paged(v.before, key, CursorInto(front), v.limit, v.now, v.first).0
  }

  lemma FirstPageMoves(key: ViewKey, v: Visit)
    requires Valid(v.before) && Answered(key, None, v)
    ensures v.page.next.Some? ==> v.page.conversations != []
  {
    SweptKeepsView(v.before, key, v.now);
  }

  /** The pages so far are a prefix of the snapshot the first page came from, complete if there is no next page. */
  ghost predicate Reading(key: ViewKey, visits: seq<Visit>)
    requires visits != []
  {
    && key in visits[0].before.views
    && Stands(key, StateAtLast(key, visits), visits[0].before.views[key].nonce, Received(visits), visits[|visits| - 1].page)
    && Uniform(visits)
  }

  /**
    Paging agrees with the snapshot. Whatever happens between the pages, the pages a reader gets by
    following cursors all come from the one snapshot the first page came from, they join up to a prefix of
    its rows with nothing skipped or repeated, with one fence and one revision; and a page without a next
    cursor completes exactly the rows of that snapshot.
   */
  lemma {:induction false} SessionReadsSnapshot(key: ViewKey, visits: seq<Visit>)
    requires visits != [] && Session(key, visits)
    ensures Reading(key, visits)
    decreases |visits|
  {
    if |visits| == 1 {
      FirstVisit(key, visits);
    } else {
      SessionReadsSnapshot(key, visits[..|visits| - 1]);
      ReadingMore(key, visits);
    }
  }

  lemma ReadingMore(key: ViewKey, visits: seq<Visit>)
    requires |visits| > 1 && Session(key, visits) && Reading(key, visits[..|visits| - 1])
    ensures Reading(key, visits)
  {
    SessionStep(key, visits, visits[0].before.views[key].nonce);
    UniformMore(visits);
  }

  lemma SessionOfOne(key: ViewKey, visits: seq<Visit>)
    requires |visits| == 1
    ensures var v := visits[0];
            && StateAtLast(key, visits) == Paged(v.before, key, None, v.limit, v.now, v.first).0
            && Received(visits) == v.page.conversations
            && (Session(key, visits) ==> Valid(v.before) && Answered(key, None, v))
  {
    assert visits[..0] == [] && Received(visits[..0]) == [];
    assert CursorInto(visits[..0]) == None;
  }

  lemma FirstVisit(key: ViewKey, visits: seq<Visit>)
    requires |visits| == 1 && Session(key, visits)
    ensures Reading(key, visits)
  {
    SessionOfOne(key, visits);
    FirstPageStands(key, visits[0]);
    FirstPageMoves(key, visits[0]);
  }

  lemma SessionStep(key: ViewKey, visits: seq<Visit>, nonce: nat)
    requires |visits| > 1 && Session(key, visits)
    requires var front := visits[..|visits| - 1]; Stands(key, StateAtLast(key, front), nonce, Received(front), visits[|visits| - 2].page)
    ensures Stands(key, StateAtLast(key, visits), nonce, Received(visits), visits[|visits| - 1].page)
    ensures var v, last := visits[|visits| - 1].page, visits[|visits| - 2].page;
            v.fence == last.fence && v.revision == last.revision && (v.next.Some? ==> v.conversations != [])
  {
    var front, v := visits[..|visits| - 1], visits[|visits| - 1];
    var last, t := front[|front| - 1], StateAtLast(key, front);
    RunKeeps(t, last.meanwhile, key, nonce);
    NextPageStands(key, t, nonce, Received(front), last.page, v);
  }

  lemma UniformMore(visits: seq<Visit>)
    requires |visits| > 1 && Uniform(visits[..|visits| - 1])
    requires var v := visits[|visits| - 1]; var last := visits[|visits| - 2];
             && v.page.fence == last.page.fence && v.page.revision == last.page.revision
             && (v.page.next.Some? ==> v.page.conversations != [])
    ensures Uniform(visits)
  {
    var front := visits[..|visits| - 1];
    assert front[|front| - 1] == visits[|visits| - 2];
    forall i | 0 <= i < |visits|
      ensures visits[i].page.fence == visits[0].page.fence && visits[i].page.revision == visits[0].page.revision
      ensures visits[i].page.next.Some? ==> visits[i].page.conversations != []
    {
      if i < |front| {
        assert front[i] == visits[i];
      }
    }
  }

  // ---------------------------------------------------------------- freshness

  /**
    A page is fresh. If a page is answered from a snapshot installed with epoch `e` and boundary `b`, then
    after any run in between no invalidation has touched the provider, the snapshot is younger than its
    lifetime, and neither `b` nor any boundary the provider has had since has been reached.
   */
  lemma PageIsFresh(
    s: Snapshots, t: Snapshots, key: ViewKey, e: nat, rows: seq<Conversation>, b: Option<nat>, fence: string, t0: nat,
    actions: seq<Action>, cursor: Option<Cursor>, limit: Option<nat>, now: nat, first: Option<string>)
    requires Valid(s) && Installed(s, key, e, rows, b, fence, t0) == Ok(t)
    requires Present(After(t, actions), key, s.minted)
    requires var r := Paged(After(t, actions), key, cursor, limit, now, first).1; r.Ok? && r.value.Some?
    ensures Epoch(After(t, actions), key.provider) == e
    ensures now < Expires(t0) && !Reached(b, now)
    ensures !Reached(VersionOf(After(t, actions), key.provider).boundary, now)
    ensures rows <= After(t, actions).views[key].rows
  {
    InstallKeeps(s, t, key, e, rows, b, fence, t0, key, s.minted);
    assert t.views[key] == Snapshot(None, rows, VersionOf(s, key.provider).revision, fence, Expires(t0), s.minted);
    assert VersionOf(t, key.provider).boundary == Earlier(VersionOf(s, key.provider).boundary, b);
    RunKeeps(t, actions, key, s.minted);
    SweptKeepsView(After(t, actions), key, now);
  }

  /** The same for rows appended later: none of them is ever served past its own place in the window. */
  lemma AppendedRowsFresh(
    s: Snapshots, t: Snapshots, key: ViewKey, e: nat, rows: seq<Conversation>, tail: Option<Tail>, t0: nat,
    actions: seq<Action>, cursor: Option<Cursor>, limit: Option<nat>, now: nat, first: Option<string>, i: nat)
    requires Valid(s) && Appended(s, key, e, rows, tail, t0) == Ok(t)
    requires Present(After(t, actions), key, s.views[key].nonce)
    requires var r := Paged(After(t, actions), key, cursor, limit, now, first).1; r.Ok? && r.value.Some?
    requires i < |rows|
    ensures Expiry(rows[i]).Some? ==> now < Expiry(rows[i]).value
  {
    var nonce := s.views[key].nonce;
    AppendKeeps(s, t, key, e, rows, tail, t0, key, nonce);
    if Expiry(rows[i]).Some? {
      assert VersionOf(t, key.provider).boundary == Earlier(VersionOf(s, key.provider).boundary, RowsBoundary(rows));
    }
    RunKeeps(t, actions, key, nonce);
    SweptKeepsView(After(t, actions), key, now);
  }

  /** A cursor into a snapshot that is gone never works again, whatever is installed in its place. */
  lemma GoneIsGone(
    s: Snapshots, key: ViewKey, nonce: nat, actions: seq<Action>, offset: nat, fence: string, limit: nat, now: nat, first: Option<string>)
    requires Valid(s) && nonce < s.minted && !Present(s, key, nonce) && 1 <= limit <= 100
    ensures Paged(After(s, actions), key, Some(Issued(key, nonce, offset, fence)), Some(limit), now, first).1 == Err(CursorExpired)
  {
    RunKeeps(s, actions, key, nonce);
    SweptKeepsView(After(s, actions), key, now);
  }

  /** Fetching what `PendingTail` asks for is enough: the page that was not ready is then answered. */
  lemma PendingIsEnough(
    s: Snapshots, t: Snapshots, key: ViewKey, cursor: Option<Cursor>, limit: Option<nat>, tail: Tail, needed: nat,
    rows: seq<Conversation>, rest: Option<Tail>, now: nat, first: Option<string>)
    requires Pending(s, key, cursor, limit) == Ok(Some((tail, needed)))
    requires Appended(s, key, Epoch(s, key.provider), rows, rest, now) == Ok(t) && (|rows| >= needed || rest.None?)
    requires !Reached(VersionOf(s, key.provider).boundary, now)
    requires limit.Some? ==> 1 <= limit.value <= 100
    requires cursor.Some? ==> cursor.value.offset <= |s.views[key].rows|
    ensures var r := Paged(t, key, cursor, limit, now, first).1; r.Ok? && r.value.Some?
  {
  }

  function ConversationsOf(rows: seq<Row>): seq<Conversation> {
    seq(|rows|, i requires 0 <= i < |rows| => rows[i].conversation)
  }

  /**
    The feed a page is cut from is still the feed. A snapshot installed from the feed computed at `began`,
    with a boundary no later than its expiry, serves pages only at times for which computing the feed again
    from the same inputs gives the same rows.
   */
  lemma ServedFeedHolds(
    feed: seq<Row>, expires: Option<nat>, summaries: set<Conversation>, active: set<nat>, unread: map<nat, nat>, began: nat,
    s: Snapshots, t: Snapshots, key: ViewKey, e: nat, b: Option<nat>, fence: string, t0: nat,
    actions: seq<Action>, cursor: Option<Cursor>, limit: Option<nat>, now: nat, first: Option<string>)
    requires forall c :: c in summaries ==> Timed(c)
    requires forall c, d :: c in summaries && d in summaries && c.id == d.id ==> c == d
    requires IsFeed(feed, summaries, active, unread, began) && IsExpiry(expires, summaries, active, unread, began)
    requires forall time :: Reached(expires, time) ==> Reached(b, time)
    requires Valid(s) && Installed(s, key, e, ConversationsOf(feed), b, fence, t0) == Ok(t)
    requires Present(After(t, actions), key, s.minted)
    requires var r := Paged(After(t, actions), key, cursor, limit, now, first).1; r.Ok? && r.value.Some?
    requires began <= now <= U64_MAX
    ensures IsFeed(feed, summaries, active, unread, now)
    ensures ConversationsOf(feed) <= After(t, actions).views[key].rows
  {
    PageIsFresh(s, t, key, e, ConversationsOf(feed), b, fence, t0, actions, cursor, limit, now, first);
    FeedValidIff(feed, expires, summaries, active, unread, began, now);
  }

  // ---------------------------------------------------------------- hints

  /** The state a `TakeInvalidations` leaves, and the hints it hands out. */
  function Taken(s: Snapshots, now: nat): (Snapshots, map<string, nat>) {
    var t := InvalidatedAll(s, Passed(s, now));
    (Quiet(t, now), Hints(t))
  }

  ghost predicate Due(s: Snapshots, provider: string, revision: nat) {
    provider in s.versions && s.versions[provider].pending && revision <= s.versions[provider].revision
  }

  lemma {:induction false} DueStays(s: Snapshots, provider: string, revision: nat, actions: seq<Action>)
    requires Due(s, provider, revision) && forall a :: a in actions ==> !a.Take?
    ensures Due(After(s, actions), provider, revision)
    decreases |actions|
  {
    if actions != [] {
      var front, a := actions[..|actions| - 1], actions[|actions| - 1];
      assert a in actions && forall b :: b in front ==> b in actions;
      DueStays(s, provider, revision, front);
      if a.Ask? {
        AskLeaves(After(s, front), a);
      }
    }
  }

  /**
    Every invalidation is hinted, and once: the next round of hints names the provider, with a revision that
    no snapshot installed before the invalidation carries, and the round after it is empty unless something
    has happened in between.
   */
  lemma InvalidationIsHinted(s: Snapshots, provider: string, actions: seq<Action>, now: nat)
    requires Valid(s) && forall a :: a in actions ==> !a.Take?
    ensures var (t, hints) := Taken(After(Invalidated(s, provider), actions), now);
            && provider in hints
            && (forall k :: k in s.views && k.provider == provider ==> s.views[k].revision < hints[provider])
            && Taken(t, now).1 == map[]
  {
    DueStays(Invalidated(s, provider), provider, VersionOf(s, provider).revision + 1, actions);
    var u := After(Invalidated(s, provider), actions);
    var t := Taken(u, now).0;
    assert Passed(t, now) == {};
    assert InvalidatedAll(t, {}).versions == t.versions;
  }
}
