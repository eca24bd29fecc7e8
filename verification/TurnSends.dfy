/** The cache of `turn.send` outcomes: at most one dispatch for a request key while the key is retained. */
module TurnSends {
  import opened Results

  const CAPACITY := 1024

  datatype Key = Key(scope: string, provider: string, request: string)

  datatype Request = Request(body: string)

  /** What the provider answered, success or error alike. */
  datatype Outcome = Accepted(response: string) | Refused(code: string)

  datatype Entry = Entry(request: Request, outcome: Outcome)

  datatype Reply = Conflict | Reply(outcome: Outcome)

  datatype Cache = Cache(entries: map<Key, Entry>, order: seq<Key>)

  const EMPTY := Cache(map[], [])

  ghost predicate Distinct(order: seq<Key>) {
    forall i, j :: 0 <= i < j < |order| ==> order[i] != order[j]
  }

  /** The queue lists the keys of the map, each once, and there are at most 1024. */
  ghost predicate Valid(c: Cache) {
    && Distinct(c.order) && (forall k :: k in c.order <==> k in c.entries)
    && |c.order| <= CAPACITY
  }

  lemma {:induction false} OrderCounts(order: seq<Key>, keys: set<Key>)
    requires Distinct(order) && forall k :: k in order <==> k in keys
    ensures |order| == |keys|
    decreases |order|
  {
    if order != [] {
      var last := order[|order| - 1];
      var front := order[..|order| - 1];
      assert order == front + [last];
      OrderCounts(front, keys - {last});
    }
  }

  lemma ValidSize(c: Cache)
    requires Valid(c)
    ensures |c.entries| == |c.order|
  {
    OrderCounts(c.order, c.entries.Keys);
  }

  /** A new key at the back; the oldest key gives way when the cache is full. */
  function Inserted(c: Cache, key: Key, entry: Entry): Cache {
    if key in c.entries then c.(entries := c.entries[key := entry])
    else if |c.order| < CAPACITY || c.order == [] then Cache(c.entries[key := entry], c.order + [key])
    else Cache(c.entries[key := entry] - {c.order[0]}, c.order[1..] + [key])
  }

  /** The rest of a queue holds every key but the first. */
  lemma RestOfOrder(order: seq<Key>)
    requires Distinct(order) && order != []
    ensures Distinct(order[1..]) && order[0] !in order[1..]
    ensures forall k :: k in order <==> k == order[0] || k in order[1..]
  {
    assert order == [order[0]] + order[1..];
  }

  lemma InsertedValid(c: Cache, key: Key, entry: Entry)
    requires Valid(c)
    ensures Valid(Inserted(c, key, entry))
    ensures key in Inserted(c, key, entry).entries && Inserted(c, key, entry).entries[key] == entry
    ensures forall k :: k in c.entries && k != key && (c.order == [] || k != c.order[0]) ==>
              k in Inserted(c, key, entry).entries && Inserted(c, key, entry).entries[k] == c.entries[k]
  {
    var r := Inserted(c, key, entry);
    if key !in c.entries {
      assert key !in c.order;
      if |c.order| >= CAPACITY {
        RestOfOrder(c.order);
      }
    }
  }

  /** One turn of the eviction loop: the oldest key goes, and the rest is what an insertion leaves. */
  lemma EvictedOne(c: Cache, key: Key, entry: Entry)
    requires Valid(c) && key !in c.entries && |c.order| == CAPACITY
    ensures var order := c.order + [key];
            && Cache(c.entries[key := entry] - {order[0]}, order[1..]) == Inserted(c, key, entry)
            && |c.entries[key := entry] - {order[0]}| == |order[1..]|
  {
    assert (c.order + [key])[1..] == c.order[1..] + [key];
    InsertedValid(c, key, entry);
    ValidSize(Inserted(c, key, entry));
  }

  class TurnSendCache {
    var entries: map<Key, Entry>
    var order: seq<Key>
    /** Every call to a provider, in order. */
    ghost var dispatched: seq<(Key, Request)>

    ghost function State(): Cache
      reads this
    {
      Cache(entries, order)
    }

    constructor ()
      ensures State() == EMPTY && dispatched == []
    {
      entries, order, dispatched := map[], [], [];
    }

    /** `insert`, with its eviction loop; the loop ends because the queue lists every key of the map. */
    method Insert(key: Key, entry: Entry)
      requires Valid(State())
      modifies this`entries, this`order
      ensures State() == Inserted(old(State()), key, entry) && Valid(State())
    {
      ghost var before := State();
      ValidSize(before);
      InsertedValid(before, key, entry);
      if key !in entries {
        order := order + [key];
      }
      entries := entries[key := entry];
      assert |entries| == |order|;
      while |entries| > CAPACITY
        invariant |entries| == |order|
        invariant |entries| <= CAPACITY ==> State() == Inserted(before, key, entry)
        invariant |entries| > CAPACITY ==>
          && key !in before.entries && |before.order| == CAPACITY
          && entries == before.entries[key := entry] && order == before.order + [key]
        decreases |entries|
      {
        EvictedOne(before, key, entry);
        var oldest := order[0];
        order := order[1..];
        entries := entries - {oldest};
      }
    }

    /**
      `turn_send_for_caller_scope`: the cache lock is held over the provider call, so a call is one step.
      `answer` is what the provider says if it is called.
     */
    method TurnSend(key: Key, request: Request, answer: Outcome) returns (r: Reply)
      requires Valid(State())
      modifies this
      ensures Valid(State())
      ensures (r, State(), dispatched) == Sent(old(State()), old(dispatched), key, request, answer)
    {
      if key in entries {
        var entry := entries[key];
        if entry.request != request {
          return Conflict;
        }
        return Reply(entry.outcome);
      }
      dispatched := dispatched + [(key, request)];
      Insert(key, Entry(request, answer));
      return Reply(answer);
    }
  }

  function Sent(c: Cache, calls: seq<(Key, Request)>, key: Key, request: Request, answer: Outcome):
      (Reply, Cache, seq<(Key, Request)>)
  {
    if key in c.entries then
      (if c.entries[key].request != request then Conflict else Reply(c.entries[key].outcome), c, calls)
    else (Reply(answer), Inserted(c, key, Entry(request, answer)), calls + [(key, request)])
  }

  /**
    A known key is answered without a call, by its outcome or with a conflict; a new one is passed on once, answered
    with what the provider says, and kept as the newest, for the oldest when there are 1024.
   */
  lemma SendIs(c: Cache, calls: seq<(Key, Request)>, key: Key, request: Request, answer: Outcome)
    requires Valid(c)
    ensures var (reply, after, made) := Sent(c, calls, key, request, answer);
            if key in c.entries then
              && after == c && made == calls
              && reply == if c.entries[key].request == request then Reply(c.entries[key].outcome) else Conflict
            else
              && reply == Reply(answer) && made == calls + [(key, request)]
              && key in after.entries && after.entries[key] == Entry(request, answer)
              && after.order == (if |c.order| < 1024 then c.order else c.order[1..]) + [key]
              && (forall k :: k in after.entries <==> k in after.order)
              && (forall k :: k in after.entries && k != key ==> k in c.entries && after.entries[k] == c.entries[k])
  {
    if key !in c.entries {
      InsertedValid(c, key, Entry(request, answer));
      RestKnown(c);
    }
  }

  lemma RestKnown(c: Cache)
    requires Valid(c)
    ensures c.order != [] ==> forall k :: k in c.order[1..] ==> k in c.entries
  {
  }

  // ---------------------------------------------------------------- runs

  datatype Call = Call(key: Key, request: Request, answer: Outcome)

  datatype State = State(cache: Cache, calls: seq<(Key, Request)>)

  function After(s: State, run: seq<Call>): State {
    if run == [] then s
    else
      var before := After(s, run[..|run| - 1]);
      var c := run[|run| - 1];
      var (_, cache, calls) := Sent(before.cache, before.calls, c.key, c.request, c.answer);
      State(cache, calls)
  }

  function Answer(s: State, c: Call): Reply {
    Sent(s.cache, s.calls, c.key, c.request, c.answer).0
  }

  lemma {:induction false} RunValid(s: State, run: seq<Call>)
    requires Valid(s.cache)
    ensures Valid(After(s, run).cache)
    decreases |run|
  {
    if run != [] {
      RunValid(s, run[..|run| - 1]);
      var before := After(s, run[..|run| - 1]);
      var c := run[|run| - 1];
      if c.key !in before.cache.entries {
        InsertedValid(before.cache, c.key, Entry(c.request, c.answer));
      }
    }
  }

  /** How many calls of the run dispatched: each enters one new key. */
  function Dispatches(s: State, run: seq<Call>): (n: nat)
    ensures n <= |run|
  {
    if run == [] then 0
    else
      var front := run[..|run| - 1];
      Dispatches(s, front) + if run[|run| - 1].key in After(s, front).cache.entries then 0 else 1
  }

  /** Where a retained key stands: entries newer than it only push it towards the front, one per dispatch. */
  ghost predicate HeldAt(c: Cache, key: Key, entry: Entry, behind: nat) {
    && key in c.entries && c.entries[key] == entry
    && behind < |c.order| && c.order[|c.order| - 1 - behind] == key
  }

  lemma InsertKeepsHeld(c: Cache, key: Key, entry: Entry, behind: nat, newKey: Key, newEntry: Entry)
    requires Valid(c) && HeldAt(c, key, entry, behind) && newKey !in c.entries && behind + 1 < CAPACITY
    ensures HeldAt(Inserted(c, newKey, newEntry), key, entry, behind + 1)
  {
    var r := Inserted(c, newKey, newEntry);
    InsertedValid(c, newKey, newEntry);
    if |c.order| >= CAPACITY {
      assert c.order[0] != key;
    }
  }

  /**
    A key survives until 1024 newer keys have been dispatched, and while it survives the provider is not
    called for it again: the same request gets the stored outcome, a different one a conflict.
   */
  lemma {:induction false} KeySurvives(s: State, key: Key, entry: Entry, behind: nat, run: seq<Call>)
    requires Valid(s.cache) && HeldAt(s.cache, key, entry, behind)
    requires behind + Dispatches(s, run) < CAPACITY
    ensures HeldAt(After(s, run).cache, key, entry, behind + Dispatches(s, run))
    ensures CallsFor(After(s, run).calls, key) == CallsFor(s.calls, key)
    decreases |run|
  {
    if run != [] {
      var front, c := run[..|run| - 1], run[|run| - 1];
      KeySurvives(s, key, entry, behind, front);
      RunValid(s, front);
      var mid := After(s, front);
      if c.key !in mid.cache.entries {
        InsertKeepsHeld(mid.cache, key, entry, behind + Dispatches(s, front), c.key, Entry(c.request, c.answer));
        assert (mid.calls + [(c.key, c.request)])[..|mid.calls|] == mid.calls;
      }
    }
  }

  function CallsFor(calls: seq<(Key, Request)>, key: Key): nat {
    if calls == [] then 0
    else CallsFor(calls[..|calls| - 1], key) + if calls[|calls| - 1].0 == key then 1 else 0
  }

  /**
    At most once, over any run: after a call with a new key, and as long as fewer than 1024 other keys
    are dispatched, every repetition of that key is answered from the first call and dispatches nothing.
   */
  lemma AtMostOnce(s: State, first: Call, run: seq<Call>, again: Call)
    requires Valid(s.cache) && first.key !in s.cache.entries && again.key == first.key
    requires
      var s1 := After(s, [first]);
      Dispatches(s1, run) < CAPACITY
    ensures
      var s1 := After(s, [first]);
      var s2 := After(s1, run);
      && Answer(s2, again) == (if again.request == first.request then Reply(first.answer) else Conflict)
      && CallsFor(After(s2, [again]).calls, first.key) == CallsFor(s.calls, first.key) + 1
  {
    assert [first][..0] == [];
    var s1 := After(s, [first]);
    var entry := Entry(first.request, first.answer);
    InsertedValid(s.cache, first.key, entry);
    assert s1.calls[..|s.calls|] == s.calls;
    KeySurvives(s1, first.key, entry, 0, run);
    assert [again][..0] == [];
  }

  /** The bound is sharp: the 1024th newer key evicts. */
  lemma EvictedByTheLast(c: Cache, key: Key, entry: Entry, newKey: Key, newEntry: Entry)
    requires Valid(c) && HeldAt(c, key, entry, CAPACITY - 1) && newKey !in c.entries
    ensures key !in Inserted(c, newKey, newEntry).entries
  {
    assert c.order[0] == key;
  }
}
