/**
  The recent feed of one provider and reader: which conversations it shows at a given time, in which
  order, and until when that answer stays right.
 */
module RecentFeed {
  import opened Results

  const WINDOW_MS := 14 * 24 * 60 * 60 * 1000
  const U64_MAX := 0xFFFF_FFFF_FFFF_FFFF

  /** Conversations are keyed by identity; the rank stands for the order of the identities. */
  datatype Conversation = Conversation(id: nat, updatedAt: Option<nat>, readState: Option<nat>)

  datatype Row = Row(group: nat, conversation: Conversation)

  /** Times are 64-bit. */
  ghost predicate Timed(c: Conversation) {
    c.updatedAt.Some? ==> c.updatedAt.value <= U64_MAX
  }

  function Cutoff(now: nat): nat {
    if now < WINDOW_MS then 0 else now - WINDOW_MS
  }

  predicate RecentAt(c: Conversation, now: nat) {
    c.updatedAt.Some? && c.updatedAt.value >= Cutoff(now)
  }

  predicate Shown(c: Conversation, active: set<nat>, unread: map<nat, nat>, now: nat) {
    c.id in active || c.id in unread || RecentAt(c, now)
  }

  function Group(c: Conversation, active: set<nat>, unread: map<nat, nat>): nat {
    if c.id in active then 0 else if c.id in unread then 1 else 2
  }

  function Decorated(c: Conversation, unread: map<nat, nat>): Conversation {
    if c.id in unread then c.(readState := Some(unread[c.id])) else c
  }

  /** The moment a row shown only for being recent goes away; none when it lies past the end of time. */
  function Expiry(c: Conversation): Option<nat> {
    if c.updatedAt.Some? && c.updatedAt.value + WINDOW_MS + 1 <= U64_MAX
    then Some(c.updatedAt.value + WINDOW_MS + 1) else None
  }

  predicate OnlyRecent(c: Conversation, active: set<nat>, unread: map<nat, nat>) {
    c.id !in active && c.id !in unread
  }

  // ---------------------------------------------------------------- order

  /** Group first, then newest first with the undated last, then identity. */
  predicate Before(a: Row, b: Row) {
    || a.group < b.group
    || (a.group == b.group && Newer(a.conversation.updatedAt, b.conversation.updatedAt))
    || (a.group == b.group && a.conversation.updatedAt == b.conversation.updatedAt && a.conversation.id < b.conversation.id)
  }

  predicate Newer(a: Option<nat>, b: Option<nat>) {
    a.Some? && (b.None? || a.value > b.value)
  }

  ghost predicate Sorted(rows: seq<Row>) {
    forall i, j :: 0 <= i < j < |rows| ==> Before(rows[i], rows[j])
  }

  lemma RestOf(a: seq<Row>)
    requires Sorted(a) && a != []
    ensures forall r :: r in a[1..] <==> r in a && r != a[0]
  {
    assert a == [a[0]] + a[1..];
    forall r | r in a[1..]
      ensures r != a[0]
    {
      var k :| 0 <= k < |a[1..]| && a[1..][k] == r;
      assert Before(a[0], a[k + 1]);
    }
  }

  /** The order leaves no choice: one set of rows has one sorted listing. */
  lemma {:induction false} SortedUnique(a: seq<Row>, b: seq<Row>)
    requires Sorted(a) && Sorted(b) && forall r :: r in a <==> r in b
    ensures a == b
    decreases |a|
  {
    assert b != [] ==> b[0] in a;
    if a == [] {
      assert b == [];
    } else {
      assert a[0] in b && b != [] && b[0] in a;
      var i :| 0 <= i < |b| && b[i] == a[0];
      var j :| 0 <= j < |a| && a[j] == b[0];
      assert a[0] == b[0];
      RestOf(a);
      RestOf(b);
      SortedUnique(a[1..], b[1..]);
      assert a == [a[0]] + a[1..] && b == [b[0]] + b[1..];
    }
  }

  function InsertRow(row: Row, rows: seq<Row>): seq<Row> {
    if rows == [] || Before(row, rows[0]) then [row] + rows else [rows[0]] + InsertRow(row, rows[1..])
  }

  lemma {:induction false} InsertSorted(row: Row, rows: seq<Row>)
    requires Sorted(rows) && forall r :: r in rows ==> r.conversation.id != row.conversation.id
    ensures Sorted(InsertRow(row, rows))
    ensures forall r :: r in InsertRow(row, rows) <==> r == row || r in rows
  {
    if rows != [] {
      assert rows == [rows[0]] + rows[1..];
      if !Before(row, rows[0]) {
        InsertSorted(row, rows[1..]);
        var rest := InsertRow(row, rows[1..]);
        assert rows[0] in rows;
        forall j | 0 <= j < |rest|
          ensures Before(rows[0], rest[j])
        {
          assert rest[j] in rest;
        }
      }
    }
  }

  // ---------------------------------------------------------------- what the feed is

  /** `rows` is the feed at `now`: sorted, and exactly the shown conversations, each under its group. */
  ghost predicate IsFeed(rows: seq<Row>, summaries: set<Conversation>, active: set<nat>, unread: map<nat, nat>, now: nat) {
    && Sorted(rows)
    && forall r :: r in rows <==>
         exists c :: c in summaries && Shown(c, active, unread, now)
                     && r == Row(Group(c, active, unread), Decorated(c, unread))
  }

  /** `expires` is the earliest moment at which some row shown only for being recent goes away. */
  ghost predicate IsExpiry(expires: Option<nat>, summaries: set<Conversation>, active: set<nat>, unread: map<nat, nat>, now: nat) {
    && (expires.Some? ==> exists c :: c in summaries && Shown(c, active, unread, now) && OnlyRecent(c, active, unread)
                                      && Expiry(c) == expires)
    && (forall c :: c in summaries && Shown(c, active, unread, now) && OnlyRecent(c, active, unread) && Expiry(c).Some? ==>
          expires.Some? && expires.value <= Expiry(c).value)
  }

  ghost predicate DistinctIds(summaries: seq<Conversation>) {
    forall i, j :: 0 <= i < j < |summaries| ==> summaries[i].id != summaries[j].id
  }

  ghost function SetOf(summaries: seq<Conversation>): set<Conversation> {
    set c | c in summaries
  }

  /** `aggregate`: one pass that collects rows and the earliest expiry, then the sort. */
  method Aggregate(summaries: seq<Conversation>, active: set<nat>, unread: map<nat, nat>, now: nat)
    returns (rows: seq<Row>, expires: Option<nat>)
    requires DistinctIds(summaries)
    ensures IsFeed(rows, SetOf(summaries), active, unread, now)
    ensures IsExpiry(expires, SetOf(summaries), active, unread, now)
  {
    var cutoff := if now < WINDOW_MS then 0 else now - WINDOW_MS;
    var collected: seq<Row> := [];
    expires := None;
    for i := 0 to |summaries|
      invariant Collected(collected, summaries[..i], active, unread, now)
      invariant IsExpiry(expires, SetOf(summaries[..i]), active, unread, now)
    {
      var c := summaries[i];
      assert SetOf(summaries[..i + 1]) == SetOf(summaries[..i]) + {c};
      var isActive, isUnread := c.id in active, c.id in unread;
      var isRecent := c.updatedAt.Some? && c.updatedAt.value >= cutoff;
      CollectedStep(collected, summaries, i, active, unread, now);
      if isActive || isUnread || isRecent {
        if !isActive && !isUnread {
          var expiry := Expiry(c);
          if expiry.Some? && (expires.None? || expiry.value < expires.value) {
            expires := expiry;
          }
        }
        collected := collected + [Row(Group(c, active, unread), Decorated(c, unread))];
      }
    }
    assert summaries[..|summaries|] == summaries;
    rows := SortRows(collected);
  }

  /** The rows collected so far, one for each shown conversation, in the order of the input. */
  ghost predicate Collected(rows: seq<Row>, summaries: seq<Conversation>, active: set<nat>, unread: map<nat, nat>, now: nat) {
    && (forall r :: r in rows <==>
          exists c :: c in SetOf(summaries) && Shown(c, active, unread, now)
                      && r == Row(Group(c, active, unread), Decorated(c, unread)))
    && (forall i, j :: 0 <= i < j < |rows| ==> rows[i].conversation.id != rows[j].conversation.id)
  }

  lemma CollectedStep(rows: seq<Row>, summaries: seq<Conversation>, i: nat, active: set<nat>, unread: map<nat, nat>, now: nat)
    requires DistinctIds(summaries) && i < |summaries|
    requires Collected(rows, summaries[..i], active, unread, now)
    ensures var c := summaries[i];
            Collected(if Shown(c, active, unread, now) then rows + [Row(Group(c, active, unread), Decorated(c, unread))] else rows,
                      summaries[..i + 1], active, unread, now)
  {
    var c := summaries[i];
    assert SetOf(summaries[..i + 1]) == SetOf(summaries[..i]) + {c};
    forall k | 0 <= k < |rows|
      ensures rows[k].conversation.id != c.id
    {
      assert rows[k] in rows;
      var d :| d in SetOf(summaries[..i]) && Shown(d, active, unread, now)
               && rows[k] == Row(Group(d, active, unread), Decorated(d, unread));
      assert d in summaries[..i];
    }
  }

  method SortRows(collected: seq<Row>) returns (rows: seq<Row>)
    requires forall i, j :: 0 <= i < j < |collected| ==> collected[i].conversation.id != collected[j].conversation.id
    ensures Sorted(rows) && forall r :: r in rows <==> r in collected
  {
    rows := [];
    for i := 0 to |collected|
      invariant Sorted(rows) && forall r :: r in rows <==> r in collected[..i]
    {
      assert forall r :: r in rows ==> r.conversation.id != collected[i].conversation.id;
      InsertSorted(collected[i], rows);
      rows := InsertRow(collected[i], rows);
      assert collected[..i + 1] == collected[..i] + [collected[i]];
    }
    assert collected[..|collected|] == collected;
  }

  // ---------------------------------------------------------------- how long the answer stays right

  /** A conversation is shown at `t` as it was at `now` until its own expiry, if that is why it is shown. */
  lemma ShownUntil(c: Conversation, active: set<nat>, unread: map<nat, nat>, now: nat, t: nat)
    requires Timed(c) && now <= t <= U64_MAX
    ensures Shown(c, active, unread, t) <==>
            Shown(c, active, unread, now) && (OnlyRecent(c, active, unread) && Expiry(c).Some? ==> t < Expiry(c).value)
  {
  }

  /**
    The validity interval, both ways and over all inputs: with unchanged inputs the feed computed at `now`
    is the feed at a later `t` exactly while `t` is before the reported expiry. At the expiry itself, and at
    every later time, a row is missing. Clock values below the window and times past the end are included.
   */
  lemma FeedValidIff(
    rows: seq<Row>, expires: Option<nat>, summaries: set<Conversation>, active: set<nat>, unread: map<nat, nat>, now: nat, t: nat)
    requires forall c :: c in summaries ==> Timed(c)
    requires forall c, d :: c in summaries && d in summaries && c.id == d.id ==> c == d
    requires IsFeed(rows, summaries, active, unread, now) && IsExpiry(expires, summaries, active, unread, now)
    requires now <= t <= U64_MAX
    ensures IsFeed(rows, summaries, active, unread, t) <==> (expires.Some? ==> t < expires.value)
  {
    if expires.Some? && expires.value <= t {
      var c :| c in summaries && Shown(c, active, unread, now) && OnlyRecent(c, active, unread) && Expiry(c) == expires;
      ShownUntil(c, active, unread, now, t);
      var r := Row(Group(c, active, unread), Decorated(c, unread));
      assert r in rows;
      assert forall d :: d in summaries && r == Row(Group(d, active, unread), Decorated(d, unread)) ==> d.id == c.id && d == c;
    } else {
      forall c | c in summaries
        ensures Shown(c, active, unread, t) <==> Shown(c, active, unread, now)
      {
        ShownUntil(c, active, unread, now, t);
      }
    }
  }

  /** Two answers for the same inputs and time are the same list. */
  lemma FeedUnique(a: seq<Row>, b: seq<Row>, summaries: set<Conversation>, active: set<nat>, unread: map<nat, nat>, now: nat)
    requires IsFeed(a, summaries, active, unread, now) && IsFeed(b, summaries, active, unread, now)
    ensures a == b
  {
    SortedUnique(a, b);
  }

  // ---------------------------------------------------------------- what a reader sees

  /** Active conversations come first, then unread ones, then recent ones. */
  predicate AheadOf(id: nat, other: nat, active: set<nat>, unread: map<nat, nat>) {
    || (id in active && other !in active)
    || (id !in active && id in unread && other !in active && other !in unread)
  }

  /** The order of a feed as a reader sees it: by standing, then the newest first, then by identity. */
  lemma FeedOrder(rows: seq<Row>, summaries: set<Conversation>, active: set<nat>, unread: map<nat, nat>, now: nat, i: nat, j: nat)
    requires IsFeed(rows, summaries, active, unread, now) && i < j < |rows|
    ensures
      var a, b := rows[i].conversation, rows[j].conversation;
      && !AheadOf(b.id, a.id, active, unread)
      && (!AheadOf(a.id, b.id, active, unread) ==>
            || (a.updatedAt.Some? && (b.updatedAt.None? || b.updatedAt.value < a.updatedAt.value))
            || (a.updatedAt == b.updatedAt && a.id < b.id))
  {
    assert rows[i] in rows && rows[j] in rows;
    assert Before(rows[i], rows[j]);
  }

  /** A conversation is in the feed exactly when it is active, unread, or at most 14 days old, with its read state. */
  lemma FeedHolds(rows: seq<Row>, summaries: set<Conversation>, active: set<nat>, unread: map<nat, nat>, now: nat, c: Conversation)
    requires IsFeed(rows, summaries, active, unread, now) && c in summaries
    requires forall d :: d in summaries && d.id == c.id ==> d == c
    ensures (exists r :: r in rows && r.conversation.id == c.id) <==>
            || c.id in active || c.id in unread
            || (c.updatedAt.Some? && now <= c.updatedAt.value + 14 * 24 * 3600 * 1000)
    ensures forall r :: r in rows && r.conversation.id == c.id ==>
              && r.conversation.updatedAt == c.updatedAt
              && r.conversation.readState == if c.id in unread then Some(unread[c.id]) else c.readState
  {
    if Shown(c, active, unread, now) {
      assert Row(Group(c, active, unread), Decorated(c, unread)) in rows;
    }
  }
}
