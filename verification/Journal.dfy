/**
  The live part of the event journal: a ring of the latest events, bounded by count and by bytes, and the
  cursor by which a client follows it. The rotating history on disk appears only as an append that may fail.
 */
module Journal {
  import opened Results
  import opened Texts

  const LIVE_COUNT := 1000
  const LIVE_BYTES := 8 * 1024 * 1024

  /** An event with the searchable (lower-case) form of its line and the length of the line itself. */
  datatype Record = Record(sequence: nat, source: string, payload: string, text: string, bytes: nat)

  datatype Filter = Filter(source: Option<string>, keyword: string)

  datatype Page = Page(events: seq<Record>, cursor: nat, hasMore: bool, resetRequired: bool)

  datatype Live = Live(sequence: nat, ring: seq<Record>, bytes: nat)

  function Weight(ring: seq<Record>): nat {
    if ring == [] then 0 else ring[0].bytes + Bytes(ring[0].text) + Weight(ring[1..])
  }

  lemma {:induction false} WeightConcat(a: seq<Record>, b: seq<Record>)
    ensures Weight(a + b) == Weight(a) + Weight(b)
    decreases |a|
  {
    if a == [] {
      assert a + b == b;
    } else {
      WeightConcat(a[1..], b);
      assert (a + b)[1..] == a[1..] + b;
    }
  }

  predicate Fits(ring: seq<Record>) {
    |ring| <= LIVE_COUNT && Weight(ring) <= LIVE_BYTES
  }

  /** Events leave from the front until the rest fits. */
  function Trimmed(ring: seq<Record>): (r: seq<Record>)
    decreases |ring|
  {
    if Fits(ring) then ring
    else
      assert ring != [];
      Trimmed(ring[1..])
  }

  lemma {:induction false} TrimmedSuffix(ring: seq<Record>)
    ensures var r := Trimmed(ring); Fits(r) && |r| <= |ring| && r == ring[|ring| - |r|..]
    decreases |ring|
  {
    if !Fits(ring) {
      TrimmedSuffix(ring[1..]);
    }
  }

  lemma TrimmedHead(ring: seq<Record>)
    requires ring != []
    ensures Weight(ring) == ring[0].bytes + Bytes(ring[0].text) + Weight(ring[1..])
    ensures !Fits(ring) ==> Trimmed(ring) == Trimmed(ring[1..])
  {
  }

  /** No event leaves without need: every longer suffix is too big. */
  lemma {:induction false} TrimmedIsLongest(ring: seq<Record>, n: nat)
    requires n <= |ring| && Fits(ring[|ring| - n..])
    ensures n <= |Trimmed(ring)|
    decreases |ring|
  {
    if !Fits(ring) {
      assert ring[0..] == ring;
      assert ring[1..][|ring| - 1 - n..] == ring[|ring| - n..];
      TrimmedIsLongest(ring[1..], n);
    }
  }

  // ---------------------------------------------------------------- selection

  predicate Contains(text: string, keyword: string) {
    && |keyword| <= |text|
    && (text[..|keyword|] == keyword || (text != [] && Contains(text[1..], keyword)))
  }

  predicate Matches(r: Record, f: Filter) {
    && (f.source.None? || f.source.value == "" || f.source.value == r.source)
    && (f.keyword == "" || Contains(r.text, f.keyword))
  }

  /** The matching events with a sequence above `low` and at most `high`, in order. */
  function Select(records: seq<Record>, f: Filter, low: nat, high: nat): seq<Record> {
    if records == [] then []
    else
      var last := records[|records| - 1];
      Select(records[..|records| - 1], f, low, high)
      + if low < last.sequence <= high && Matches(last, f) then [last] else []
  }

  ghost predicate Ascending(records: seq<Record>) {
    forall i, j :: 0 <= i < j < |records| ==> records[i].sequence < records[j].sequence
  }

  lemma {:induction false} SelectFrom(records: seq<Record>, f: Filter, low: nat, high: nat)
    ensures forall r :: r in Select(records, f, low, high) <==> r in records && low < r.sequence <= high && Matches(r, f)
    ensures |Select(records, f, low, high)| <= |records|
  {
    if records != [] {
      SelectFrom(records[..|records| - 1], f, low, high);
      assert records == records[..|records| - 1] + [records[|records| - 1]];
    }
  }

  lemma {:induction false} SelectAscending(records: seq<Record>, f: Filter, low: nat, high: nat)
    requires Ascending(records)
    ensures Ascending(Select(records, f, low, high))
  {
    if records != [] {
      var front := records[..|records| - 1];
      SelectAscending(front, f, low, high);
      SelectFrom(front, f, low, high);
      var chosen := Select(front, f, low, high);
      forall i | 0 <= i < |chosen|
        ensures chosen[i].sequence < records[|records| - 1].sequence
      {
        assert chosen[i] in front;
      }
    }
  }

  /** Bounds that separate the same events select the same events. */
  lemma {:induction false} SelectSame(records: seq<Record>, f: Filter, low: nat, high: nat, low': nat, high': nat)
    requires forall r :: r in records ==> (low < r.sequence <= high <==> low' < r.sequence <= high')
    ensures Select(records, f, low, high) == Select(records, f, low', high')
  {
    if records != [] {
      assert records[|records| - 1] in records;
      SelectSame(records[..|records| - 1], f, low, high, low', high');
    }
  }

  lemma {:induction false} SelectNone(records: seq<Record>, f: Filter, low: nat, high: nat)
    requires forall r :: r in records ==> !(low < r.sequence <= high)
    ensures Select(records, f, low, high) == []
  {
    if records != [] {
      assert records[|records| - 1] in records;
      SelectNone(records[..|records| - 1], f, low, high);
    }
  }

  lemma {:induction false} SelectConcat(a: seq<Record>, b: seq<Record>, f: Filter, low: nat, high: nat)
    ensures Select(a + b, f, low, high) == Select(a, f, low, high) + Select(b, f, low, high)
    decreases |b|
  {
    if b == [] {
      assert a + b == a;
    } else {
      assert (a + b)[..|a + b| - 1] == a + b[..|b| - 1];
      SelectConcat(a, b[..|b| - 1], f, low, high);
    }
  }

  /** Adjoining ranges join up. */
  lemma {:induction false} SelectSplit(records: seq<Record>, f: Filter, low: nat, mid: nat, high: nat)
    requires Ascending(records) && low <= mid <= high
    ensures Select(records, f, low, high) == Select(records, f, low, mid) + Select(records, f, mid, high)
  {
    if records != [] {
      var front, last := records[..|records| - 1], records[|records| - 1];
      SelectSplit(front, f, low, mid, high);
      if last.sequence <= mid {
        SelectNone(front, f, mid, high);
      }
    }
  }

  lemma SelectPrefix(records: seq<Record>, f: Filter, low: nat, high: nat, i: nat)
    requires i < |records|
    ensures Select(records[..i + 1], f, low, high)
            == Select(records[..i], f, low, high)
               + if low < records[i].sequence <= high && Matches(records[i], f) then [records[i]] else []
    ensures Select(records[..i + 1], f, low, high) <= Select(records, f, low, high)
  {
    assert records[..i + 1][..i] == records[..i];
    assert records == records[..i + 1] + records[i + 1..];
    SelectConcat(records[..i + 1], records[i + 1..], f, low, high);
  }

  /** The first `n` selected events are those up to the sequence of the last of them. */
  lemma {:induction false} SelectCut(records: seq<Record>, f: Filter, low: nat, high: nat, n: nat)
    requires Ascending(records) && 0 < n <= |Select(records, f, low, high)|
    ensures var all := Select(records, f, low, high);
            all[..n] == Select(records, f, low, all[n - 1].sequence) && low < all[n - 1].sequence <= high
  {
    var all := Select(records, f, low, high);
    var cut := all[n - 1].sequence;
    SelectFrom(records, f, low, high);
    assert all[n - 1] in all;
    SelectSplit(records, f, low, cut, high);
    SelectAscending(records, f, low, high);
    SelectFrom(records, f, low, cut);
    SelectFrom(records, f, cut, high);
    CutLength(Select(records, f, low, cut), Select(records, f, cut, high), n);
  }

  lemma CutLength(left: seq<Record>, right: seq<Record>, n: nat)
    requires 0 < n <= |left + right|
    requires var cut := (left + right)[n - 1].sequence;
             (forall r :: r in left ==> r.sequence <= cut) && (forall r :: r in right ==> r.sequence > cut)
    requires Ascending(left + right)
    ensures |left| == n && (left + right)[..n] == left
  {
    var all := left + right;
    assert left != [] ==> all[|left| - 1] == left[|left| - 1] && left[|left| - 1] in left;
    assert right != [] ==> all[|left|] == right[0] && right[0] in right;
    assert all[..|left|] == left;
  }

  // ---------------------------------------------------------------- the journal

  function Appended(l: Live, source: string, payload: string, text: string, bytes: nat): Live {
    var ring := Trimmed(l.ring + [Record(l.sequence + 1, source, payload, text, bytes)]);
    Live(l.sequence + 1, ring, Weight(ring))
  }

  function Clamped(limit: Option<nat>): (n: nat)
    ensures 1 <= n <= 200
  {
    var n := if limit.Some? then limit.value else 100;
    if n < 1 then 1 else if n > 200 then 200 else n
  }

  predicate Lost(l: Live, after: nat) {
    after > l.sequence || (after < l.sequence && (l.ring == [] || after + 1 < l.ring[0].sequence))
  }

  function Asked(l: Live, after: nat, f: Filter, limit: Option<nat>): Page {
    if Lost(l, after) then Page([], l.sequence, false, true)
    else
      var all, n := Select(l.ring, f, after, l.sequence), Clamped(limit);
      if |all| <= n then Page(all, l.sequence, false, false) else Page(all[..n], all[n - 1].sequence, true, false)
  }

  function SaturatingSub(a: nat, b: nat): nat {
    if b <= a then a - b else 0
  }

  /** What the ring always satisfies; exact byte accounting is what makes the eviction loop end. */
  ghost predicate Valid(l: Live) {
    && l.bytes == Weight(l.ring) && Fits(l.ring) && |l.ring| <= l.sequence
    && forall i :: 0 <= i < |l.ring| ==> l.ring[i].sequence == l.sequence - |l.ring| + 1 + i
  }

  class EventJournal {
    var sequence: nat
    var live: seq<Record>
    var liveBytes: nat

    ghost function State(): Live
      reads this
    {
      Live(sequence, live, liveBytes)
    }

    /** `open`: the counter goes on from the history on disk, the ring starts empty. */
    constructor (last: nat)
      ensures State() == Live(last, [], 0) && Valid(State())
    {
      sequence, live, liveBytes := last, [], 0;
    }

    /** `State::append`; `written` tells whether the history took the line. */
    method Append(written: bool, source: string, payload: string, text: string, bytes: nat)
      requires Valid(State())
      modifies this
      ensures State() == if written then Appended(old(State()), source, payload, text, bytes) else old(State())
    {
      if !written {
        return;
      }
      sequence := sequence + 1;
      liveBytes := liveBytes + bytes + Bytes(text);
      live := live + [Record(sequence, source, payload, text, bytes)];
      ghost var full := live;
      WeightConcat(old(live), [Record(sequence, source, payload, text, bytes)]);
      assert liveBytes == Weight(live);
      while |live| > LIVE_COUNT || liveBytes > LIVE_BYTES
        invariant liveBytes == Weight(live) && Trimmed(live) == Trimmed(full)
        invariant sequence == old(sequence) + 1
        decreases |live|
      {
        TrimmedHead(live);
        var oldest := live[0];
        live := live[1..];
        liveBytes := SaturatingSub(liveBytes, oldest.bytes + Bytes(oldest.text));
      }
    }

    /** The `after` branch of `query`. */
    method Query(after: nat, f: Filter, limit: Option<nat>) returns (page: Page)
      requires Valid(State())
      ensures page == Asked(State(), after, f, limit)
    {
      var n := if limit.Some? then limit.value else 100;
      n := if n < 1 then 1 else if n > 200 then 200 else n;
      if after > sequence || (after < sequence && (live == [] || after < if live[0].sequence > 0 then live[0].sequence - 1 else 0)) {
        PageIsReset(State(), after, f, limit);
        return Page([], sequence, false, true);
      }
      assert !Lost(State(), after);
      var events: seq<Record> := [];
      var i := 0;
      while i < |live|
        invariant 0 <= i <= |live| && |events| <= n
        invariant events == Select(live[..i], f, after, sequence)
      {
        SelectNext(State(), f, after, i);
        if live[i].sequence > after && Matches(live[i], f) {
          if |events| == n {
            PageIsFull(State(), after, f, limit, i);
            return Page(events, events[|events| - 1].sequence, true, false);
          }
          events := events + [live[i]];
        }
        i := i + 1;
      }
      assert live[..i] == live;
      PageIsWhole(State(), after, f, limit);
      page := Page(events, sequence, false, false);
    }
  }

  lemma SelectNext(l: Live, f: Filter, after: nat, i: nat)
    requires Valid(l) && i < |l.ring|
    ensures Select(l.ring[..i + 1], f, after, l.sequence)
            == Select(l.ring[..i], f, after, l.sequence) + if l.ring[i].sequence > after && Matches(l.ring[i], f) then [l.ring[i]] else []
  {
    SelectPrefix(l.ring, f, after, l.sequence, i);
    assert l.ring[i].sequence <= l.sequence;
  }

  /** One more match than the page may hold: the page ends at the last event that fits. */
  lemma PageIsFull(l: Live, after: nat, f: Filter, limit: Option<nat>, i: nat)
    requires Valid(l) && !Lost(l, after) && i < |l.ring| && l.ring[i].sequence > after && Matches(l.ring[i], f)
    requires |Select(l.ring[..i], f, after, l.sequence)| == Clamped(limit)
    ensures var events := Select(l.ring[..i], f, after, l.sequence);
            Asked(l, after, f, limit) == Page(events, events[|events| - 1].sequence, true, false)
  {
    SelectPrefix(l.ring, f, after, l.sequence, i);
    SelectNext(l, f, after, i);
    PrefixOf(Select(l.ring[..i], f, after, l.sequence), l.ring[i], Select(l.ring, f, after, l.sequence));
  }

  lemma PageIsWhole(l: Live, after: nat, f: Filter, limit: Option<nat>)
    requires !Lost(l, after) && |Select(l.ring, f, after, l.sequence)| <= Clamped(limit)
    ensures Asked(l, after, f, limit) == Page(Select(l.ring, f, after, l.sequence), l.sequence, false, false)
  {
  }

  lemma PageIsReset(l: Live, after: nat, f: Filter, limit: Option<nat>)
    requires Lost(l, after)
    ensures Asked(l, after, f, limit) == Page([], l.sequence, false, true)
  {
  }

  lemma PrefixOf(events: seq<Record>, next: Record, all: seq<Record>)
    requires events + [next] <= all
    ensures |all| > |events| && all[..|events|] == events
  {
    assert (events + [next])[..|events|] == events;
  }

  lemma AppendedValid(l: Live, source: string, payload: string, text: string, bytes: nat)
    requires Valid(l)
    ensures Valid(Appended(l, source, payload, text, bytes))
  {
    TrimmedSuffix(l.ring + [Record(l.sequence + 1, source, payload, text, bytes)]);
  }

  // ---------------------------------------------------------------- runs

  /** The journal and every event it ever took. */
  datatype World = World(live: Live, log: seq<Record>)

  datatype Action = Append(source: string, payload: string, text: string, bytes: nat) | Refuse | Restart

  function Act(w: World, a: Action): World {
    match a
    case Append(source, payload, text, bytes) =>
      World(Appended(w.live, source, payload, text, bytes),
            w.log + [Record(w.live.sequence + 1, source, payload, text, bytes)])
    case Refuse => w
    case Restart => w.(live := Live(w.live.sequence, [], 0))
  }

  function After(w: World, actions: seq<Action>): World {
    if actions == [] then w else Act(After(w, actions[..|actions| - 1]), actions[|actions| - 1])
  }

  /** The ring is a contiguous end of the log, and the log ends at the counter. */
  ghost predicate Sound(w: World) {
    && Valid(w.live) && |w.live.ring| <= |w.log| <= w.live.sequence
    && Numbered(w.log, w.live.sequence)
    && w.live.ring == w.log[|w.log| - |w.live.ring|..]
  }

  /** The numbers run on without a gap and end at `last`. */
  ghost predicate Numbered(log: seq<Record>, last: nat) {
    forall i :: 0 <= i < |log| ==> log[i].sequence == last - |log| + 1 + i
  }

  lemma NumberedMore(log: seq<Record>, last: nat, r: Record)
    requires Numbered(log, last) && r.sequence == last + 1
    ensures Numbered(log + [r], last + 1)
  {
  }

  lemma StepSound(w: World, a: Action)
    requires Sound(w)
    ensures Sound(Act(w, a)) && w.log <= Act(w, a).log && w.live.sequence <= Act(w, a).live.sequence
    ensures |Act(w, a).log| - |w.log| == Act(w, a).live.sequence - w.live.sequence
  {
    if a.Append? {
      AppendSound(w, Act(w, a), Record(w.live.sequence + 1, a.source, a.payload, a.text, a.bytes));
    } else {
      assert w.log[|w.log|..] == [];
    }
  }

  lemma AppendSound(w: World, t: World, r: Record)
    requires Sound(w) && r.sequence == w.live.sequence + 1
    requires t.live == Appended(w.live, r.source, r.payload, r.text, r.bytes) && t.log == w.log + [r]
    ensures Sound(t)
  {
    AppendedValid(w.live, r.source, r.payload, r.text, r.bytes);
    NumberedMore(w.log, w.live.sequence, r);
    AppendedRing(w.log, w.live.ring, r);
  }

  lemma AppendedRing(log: seq<Record>, ring: seq<Record>, r: Record)
    requires |ring| <= |log| && ring == log[|log| - |ring|..]
    ensures var kept, more := Trimmed(ring + [r]), log + [r]; |kept| <= |more| && kept == more[|more| - |kept|..]
  {
    TrimmedSuffix(ring + [r]);
    AppendedSuffix(log, ring, r);
    SuffixOfSuffix(log + [r], ring + [r], Trimmed(ring + [r]));
  }

  lemma AppendedSuffix(log: seq<Record>, ring: seq<Record>, r: Record)
    requires |ring| <= |log| && ring == log[|log| - |ring|..]
    ensures ring + [r] == (log + [r])[|log + [r]| - |ring + [r]|..]
  {
  }

  lemma SuffixOfSuffix(log: seq<Record>, full: seq<Record>, ring: seq<Record>)
    requires |ring| <= |full| <= |log| && full == log[|log| - |full|..] && ring == full[|full| - |ring|..]
    ensures ring == log[|log| - |ring|..]
  {
  }

  lemma {:induction false} RunSound(w: World, actions: seq<Action>)
    requires Sound(w)
    ensures Sound(After(w, actions)) && w.log <= After(w, actions).log && w.live.sequence <= After(w, actions).live.sequence
    ensures |After(w, actions).log| - |w.log| == After(w, actions).live.sequence - w.live.sequence
  {
    if actions != [] {
      RunSound(w, actions[..|actions| - 1]);
      StepSound(After(w, actions[..|actions| - 1]), actions[|actions| - 1]);
    }
  }

  /** The reset is asked for exactly when the cursor is from the future or some later event is no longer in memory. */
  lemma ResetIff(w: World, after: nat, f: Filter, limit: Option<nat>)
    requires Sound(w)
    ensures Asked(w.live, after, f, limit).resetRequired
            <==> after > w.live.sequence || exists n :: after < n <= w.live.sequence && Forgotten(w.live, n)
  {
    var l := w.live;
    if after < l.sequence {
      assert Forgotten(l, after + 1) <==> Lost(l, after) by {
        if l.ring != [] && after + 1 >= l.ring[0].sequence {
          assert l.ring[after + 1 - l.ring[0].sequence].sequence == after + 1;
        }
      }
      if !Lost(l, after) {
        forall n | after < n <= l.sequence
          ensures !Forgotten(l, n)
        {
          assert l.ring[n - l.ring[0].sequence].sequence == n;
        }
      }
    }
  }

  ghost predicate Forgotten(l: Live, n: nat) {
    forall r :: r in l.ring ==> r.sequence != n
  }

  /** What a page selects from the ring is what the log holds behind the cursor. */
  lemma RingIsEnough(w: World, f: Filter, after: nat, high: nat)
    requires Sound(w) && !Lost(w.live, after) && after <= high <= w.live.sequence
    ensures Select(w.live.ring, f, after, high) == Select(w.log, f, after, high)
  {
    var old_ := w.log[..|w.log| - |w.live.ring|];
    assert w.log == old_ + w.live.ring;
    SelectConcat(old_, w.live.ring, f, after, high);
    forall r | r in old_
      ensures !(after < r.sequence <= high)
    {
      var i :| 0 <= i < |old_| && old_[i] == r;
      assert w.log[i].sequence == w.live.sequence - |w.log| + 1 + i;
    }
    SelectNone(old_, f, after, high);
  }

  /** One page: exactly the matching events between the old cursor and the new one, in order. */
  lemma PageIsExact(w: World, f: Filter, after: nat, limit: Option<nat>)
    requires Sound(w) && !Lost(w.live, after)
    ensures var page := Asked(w.live, after, f, limit);
            && after <= page.cursor <= w.live.sequence && !page.resetRequired
            && page.events == Select(w.log, f, after, page.cursor)
            && (!page.hasMore ==> page.cursor == w.live.sequence)
            && (page.hasMore ==> after < page.cursor && |page.events| == Clamped(limit))
  {
    var all, n := Select(w.live.ring, f, after, w.live.sequence), Clamped(limit);
    if |all| <= n {
      RingIsEnough(w, f, after, w.live.sequence);
    } else {
      SelectCut(w.live.ring, f, after, w.live.sequence, n);
      RingIsEnough(w, f, after, all[n - 1].sequence);
    }
  }

  /** The client: after each round of events it asks with the cursor of the last page, until a reset. */
  datatype Client = Client(world: World, cursor: nat, received: seq<Record>, reset: bool)

  datatype Round = Round(actions: seq<Action>, limit: Option<nat>)

  function Follow(w: World, start: nat, f: Filter, rounds: seq<Round>): Client
    decreases |rounds|
  {
    if rounds == [] then Client(w, start, [], false)
    else
      var c, round := Follow(w, start, f, rounds[..|rounds| - 1]), rounds[|rounds| - 1];
      if c.reset then c
      else
        var world := After(c.world, round.actions);
        var page := Asked(world.live, c.cursor, f, round.limit);
        if page.resetRequired then Client(world, c.cursor, c.received, true)
        else Client(world, page.cursor, c.received + page.events, false)
  }

  /** Later events do not change what lies up to the cursor. */
  lemma SelectStable(w: World, t: World, f: Filter, low: nat, high: nat)
    requires Sound(w) && Sound(t) && w.log <= t.log && high <= w.live.sequence
    requires |t.log| - |w.log| == t.live.sequence - w.live.sequence
    ensures Select(t.log, f, low, high) == Select(w.log, f, low, high)
  {
    LaterIsNewer(w, t);
    assert t.log == w.log + t.log[|w.log|..];
    SelectConcat(w.log, t.log[|w.log|..], f, low, high);
    SelectNone(t.log[|w.log|..], f, low, high);
  }

  lemma LaterIsNewer(w: World, t: World)
    requires Sound(t) && |w.log| <= |t.log| && |t.log| - |w.log| == t.live.sequence - w.live.sequence
    ensures forall r :: r in t.log[|w.log|..] ==> r.sequence > w.live.sequence
  {
    var more := t.log[|w.log|..];
    forall r | r in more
      ensures r.sequence > w.live.sequence
    {
      var i :| 0 <= i < |more| && more[i] == r;
      assert t.log[|w.log| + i] == r;
    }
  }

  /**
    Nothing is lost silently. A client that feeds back the cursor of each page has, after any number of pages
    with any events, evictions, refused appends and restarts in between, received exactly the matching events
    between its start and its cursor, each once and in order; or it has been told to reset.
   */
  lemma {:induction false} ClientSeesEverything(w: World, start: nat, f: Filter, rounds: seq<Round>)
    requires Sound(w) && start <= w.live.sequence
    ensures var c := Follow(w, start, f, rounds);
            && Sound(c.world) && start <= c.cursor <= c.world.live.sequence
            && c.received == Select(c.world.log, f, start, c.cursor)
    decreases |rounds|
  {
    if rounds == [] {
      SelectNone(w.log, f, start, start);
    } else {
      var front, round := rounds[..|rounds| - 1], rounds[|rounds| - 1];
      ClientSeesEverything(w, start, f, front);
      var c := Follow(w, start, f, front);
      if !c.reset {
        FollowStep(c, start, f, round);
      }
    }
  }

  lemma FollowStep(c: Client, start: nat, f: Filter, round: Round)
    requires Sound(c.world) && start <= c.cursor <= c.world.live.sequence
    requires c.received == Select(c.world.log, f, start, c.cursor)
    ensures var t := After(c.world, round.actions);
            var page := Asked(t.live, c.cursor, f, round.limit);
            && Sound(t) && c.cursor <= t.live.sequence && c.received == Select(t.log, f, start, c.cursor)
            && (!page.resetRequired ==>
                  && start <= page.cursor <= t.live.sequence
                  && c.received + page.events == Select(t.log, f, start, page.cursor))
  {
    var t := After(c.world, round.actions);
    RunSound(c.world, round.actions);
    SelectStable(c.world, t, f, start, c.cursor);
    if !Lost(t.live, c.cursor) {
      PageIsExact(t, f, c.cursor, round.limit);
      SelectSplit(t.log, f, start, c.cursor, Asked(t.live, c.cursor, f, round.limit).cursor);
    }
  }

  // ---------------------------------------------------------------- what a filter and a page mean

  /** The keyword stands somewhere in the text. */
  ghost predicate Occurs(text: string, keyword: string) {
    exists front, back :: text == front + keyword + back
  }

  lemma {:induction false} ContainedOccurs(text: string, keyword: string)
    requires Contains(text, keyword)
    ensures Occurs(text, keyword)
  {
    if text[..|keyword|] == keyword {
      assert text == "" + keyword + text[|keyword|..];
    } else {
      ContainedOccurs(text[1..], keyword);
      var front, back :| text[1..] == front + keyword + back;
      assert text == ([text[0]] + front) + keyword + back;
    }
  }

  lemma {:induction false} OccurringIsContained(front: string, keyword: string, back: string)
    ensures Contains(front + keyword + back, keyword)
  {
    var text := front + keyword + back;
    if front == "" {
      assert text[..|keyword|] == keyword;
    } else {
      OccurringIsContained(front[1..], keyword, back);
      assert text[1..] == front[1..] + keyword + back;
    }
  }

  lemma ContainsIs(text: string, keyword: string)
    ensures Contains(text, keyword) <==> Occurs(text, keyword)
  {
    if Contains(text, keyword) {
      ContainedOccurs(text, keyword);
    }
    if Occurs(text, keyword) {
      var front, back :| text == front + keyword + back;
      OccurringIsContained(front, keyword, back);
    }
  }

  /** An event matches unless a source is named that is not its own or a keyword that its text does not hold. */
  lemma MatchesIs(r: Record, f: Filter)
    ensures Matches(r, f) <==>
            && (f.source.Some? && f.source.value != "" ==> r.source == f.source.value)
            && (f.keyword != "" ==> Occurs(r.text, f.keyword))
  {
    ContainsIs(r.text, f.keyword);
  }

  /** The size of a ring is that of its events. */
  lemma WeightIs(ring: seq<Record>, r: Record)
    ensures Weight([]) == 0 && Weight(ring + [r]) == Weight(ring) + r.bytes + Bytes(r.text)
  {
    WeightConcat(ring, [r]);
    assert [r][1..] == [];
  }

  function LastOf(records: seq<Record>, n: nat): seq<Record>
    requires n <= |records|
  {
    records[|records| - n..]
  }

  /**
    An event gets the next number and stands last in the ring, which keeps as many of the newest events as its limits
    allow: `n` of them only if they fit.
   */
  lemma AppendIs(l: Live, source: string, payload: string, text: string, bytes: nat, n: nat)
    ensures
      var after, full := Appended(l, source, payload, text, bytes), l.ring + [Record(l.sequence + 1, source, payload, text, bytes)];
      && after.sequence == l.sequence + 1 && after.bytes == Weight(after.ring)
      && |after.ring| <= |full| && after.ring == LastOf(full, |after.ring|)
      && |after.ring| <= 1000 && after.bytes <= 8 * 1024 * 1024
      && (|after.ring| < n <= |full| ==> n > 1000 || Weight(LastOf(full, n)) > 8 * 1024 * 1024)
  {
    var full := l.ring + [Record(l.sequence + 1, source, payload, text, bytes)];
    TrimmedSuffix(full);
    if n <= |full| && Fits(LastOf(full, n)) {
      TrimmedIsLongest(full, n);
    }
  }

  /** How many events a page may hold: what was asked for between 1 and 200, and 100 by default. */
  function PageLimit(limit: Option<nat>): nat {
    match limit
    case None => 100
    case Some(n) => if n == 0 then 1 else if n <= 200 then n else 200
  }

  /** A page is cut exactly when more events match than it may hold, and then it is full; a reset page is empty. */
  lemma PageSize(l: Live, after: nat, f: Filter, limit: Option<nat>)
    ensures
      var page, all := Asked(l, after, f, limit), Select(l.ring, f, after, l.sequence);
      && (page.resetRequired ==> page.events == [] && page.cursor == l.sequence && !page.hasMore)
      && (!page.resetRequired ==>
            && (page.hasMore <==> |all| > PageLimit(limit)) && page.events <= all
            && |page.events| == (if page.hasMore then PageLimit(limit) else |all|))
  {
  }
}
