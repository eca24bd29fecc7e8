/**
  The gateway's event bus: a numbered replay ring under a lock, a broadcast channel that is sent to
  after the lock is gone, and subscribers that read the ring first and then drop what they have seen.
 */
module EventBus {
  import opened Results
  import opened EventCursor

  datatype Event = Event(sequence: nat, body: string)

  /**
    The bus: `ring` is the bounded replay window, `sent` everything the channel was given so far in
    channel order, `assigned` the events numbered but not yet sent, one for each publisher between
    its two steps. `history` is every event numbered so far; no operation looks at it. `open` holds until
    the bus is dropped.
   */
  datatype Bus = Bus(
    capacity: nat, sequence: nat, ring: seq<Event>, unsent: seq<Event>, sent: seq<Event>, history: seq<Event>, open: bool)

  function New(capacity: nat): Bus {
    Bus(if capacity == 0 then 1 else capacity, 0, [], [], [], [], true)
  }

  /** The ring after the oldest events beyond the capacity went. */
  function Newest(ring: seq<Event>, capacity: nat): seq<Event> {
    if |ring| > capacity then Newest(ring[1..], capacity) else ring
  }

  /** The locked half of `publish`. A counter at its maximum refuses the event and changes nothing. */
  function Assign(b: Bus, body: string): Bus {
    if b.sequence >= U64_MAX then b
    else
      var e := Event(b.sequence + 1, body);
      b.(sequence := b.sequence + 1, ring := Newest(b.ring + [e], b.capacity),
         unsent := b.unsent + [e], history := b.history + [e])
  }

  /** The unlocked half: some waiting publisher gets to send. */
  function Send(b: Bus, i: nat): Bus {
    if i >= |b.unsent| then b
    else b.(unsent := b.unsent[..i] + b.unsent[i + 1..], sent := b.sent + [b.unsent[i]])
  }

  datatype ReplayError = CursorAhead | ReplayUnavailable

  function After(ring: seq<Event>, after: nat): seq<Event> {
    if ring == [] then []
    else (if ring[0].sequence > after then [ring[0]] else []) + After(ring[1..], after)
  }

  function Replay(b: Bus, after: Option<nat>): Result<seq<Event>, ReplayError> {
    match after
    case None => Ok(b.ring)
    case Some(a) =>
      if a > b.sequence then Err(CursorAhead)
      else if b.ring != [] && a + 1 < b.ring[0].sequence then Err(ReplayUnavailable)
      else Ok(After(b.ring, a))
  }

  // ---------------------------------------------------------------- one subscriber

  /** A subscription: the replayed events not yet handed out, the place in the channel, the last number seen. */
  datatype Subscription = Subscription(replay: seq<Event>, position: nat, last: nat)

  /** The channel keeps as many events as the next power of two of the capacity. */
  function ChannelSize(capacity: nat, size: nat): (r: nat)
    requires size > 0
    ensures r >= capacity && r >= size
    decreases if size < capacity then capacity - size else 0
  {
    if size >= capacity then size else ChannelSize(capacity, 2 * size)
  }

  datatype Polled = Delivered(event: Event) | Skipped | Waiting | Lagged(skipped: nat) | Closed

  /** One turn of the loop in `next_event`. */
  function Poll(b: Bus, s: Subscription): (Polled, Subscription) {
    if s.replay != [] then Offer(s.replay[0], s.(replay := s.replay[1..]))
    else if s.position + ChannelSize(b.capacity, 1) < |b.sent| then
      (Lagged(|b.sent| - ChannelSize(b.capacity, 1) - s.position), s.(position := |b.sent| - ChannelSize(b.capacity, 1)))
    else if s.position < |b.sent| then Offer(b.sent[s.position], s.(position := s.position + 1))
    else (if b.open then Waiting else Closed, s)
  }

  /** Turns of the loop until one is not a skip. */
  function Next(b: Bus, s: Subscription): (Polled, Subscription)
    decreases |s.replay|, if s.position <= |b.sent| then |b.sent| - s.position else 0
  {
    var (polled, s') := Poll(b, s);
    if polled.Skipped? then Next(b, s') else (polled, s')
  }

  function Offer(e: Event, s: Subscription): (Polled, Subscription) {
    if e.sequence > s.last then (Delivered(e), s.(last := e.sequence)) else (Skipped, s)
  }

  // ---------------------------------------------------------------- interleavings

  /**
    `start` is where the reading starts in the history, `from` the place in the channel at which the receiver
    was made, and `seen` the length of the history when the ring was read; they are there for the theorems.
   */
  datatype Client =
    | Away
    | Attached(after: Option<nat>, position: nat)
    | Reading(subscription: Subscription, start: nat, from: nat, seen: nat, got: seq<Event>)
    | Ended

  datatype World = World(bus: Bus, client: Client)

  datatype Action = DoAssign(body: string) | DoSend(i: nat) | DoAttach(after: Option<nat>) | DoReplay | DoPoll | DoClose

  /** Where the subscriber's reading starts in the history: at its cursor, or at the oldest retained event. */
  function StartOf(b: Bus, after: Option<nat>): nat {
    match after
    case Some(a) => a
    case None => if |b.ring| <= |b.history| then |b.history| - |b.ring| else 0
  }

  function Opened(b: Bus, c: Client): Client
    requires c.Attached?
  {
    match Replay(b, c.after)
    case Err(_) => Ended
    case Ok(replay) =>
      Reading(Subscription(replay, c.position, if c.after.Some? then c.after.value else 0), StartOf(b, c.after), c.position, |b.history|, [])
  }

  function Polling(b: Bus, c: Client): Client
    requires c.Reading?
  {
    var (polled, s) := Poll(b, c.subscription);
    match polled
    case Delivered(e) => c.(subscription := s, got := c.got + [e])
    case Skipped => c.(subscription := s)
    case Waiting => c
    case Lagged(_) => Ended
    case Closed => Ended
  }

  function Act(w: World, a: Action): World {
    match a
    case DoAssign(body) => if w.bus.open then w.(bus := Assign(w.bus, body)) else w
    case DoSend(i) => w.(bus := Send(w.bus, i))
    case DoAttach(after) => if w.client.Away? then w.(client := Attached(after, |w.bus.sent|)) else w
    case DoReplay => if w.client.Attached? then w.(client := Opened(w.bus, w.client)) else w
    case DoPoll => if w.client.Reading? then w.(client := Polling(w.bus, w.client)) else w
    case DoClose => if w.bus.unsent == [] then w.(bus := w.bus.(open := false)) else w
  }

  function Trace(w: World, actions: seq<Action>): World
    decreases |actions|
  {
    if actions == [] then w else Trace(Act(w, actions[0]), actions[1..])
  }

  /** Publishers one after another: nobody is numbered while another still has to send. */
  predicate Serialised(w: World, actions: seq<Action>)
    decreases |actions|
  {
    actions == [] ||
    ((actions[0].DoAssign? ==> w.bus.unsent == []) && Serialised(Act(w, actions[0]), actions[1..]))
  }

  // ---------------------------------------------------------------- the bus by itself

  /** The numbers are 1, 2, 3, … in order. */
  ghost predicate Counted(history: seq<Event>) {
    history == [] || (history[|history| - 1].sequence == |history| && Counted(history[..|history| - 1]))
  }

  lemma {:induction false} CountedAt(history: seq<Event>, i: nat)
    requires Counted(history) && i < |history|
    ensures history[i].sequence == i + 1
  {
    if i < |history| - 1 {
      CountedAt(history[..|history| - 1], i);
    }
  }

  lemma CountedFrom(history: seq<Event>, start: nat, i: nat)
    requires Counted(history) && start <= start + i < |history|
    ensures history[start..][i].sequence == start + i + 1
  {
    CountedAt(history, start + i);
  }

  /** Numbers are 1, 2, 3, … in history order and the ring is the newest stretch of the history. */
  ghost predicate Numbered(b: Bus) {
    && b.capacity > 0 && b.sequence == |b.history|
    && Counted(b.history) && Suffix(b.ring, b.history)
    && (|b.ring| == b.capacity || |b.ring| == |b.history|)
  }

  ghost predicate Suffix(end: seq<Event>, all: seq<Event>) {
    end == all || (|end| < |all| && Suffix(end, all[1..]))
  }

  lemma {:induction false} SuffixIs(end: seq<Event>, all: seq<Event>)
    requires Suffix(end, all)
    ensures |end| <= |all| && end == all[|all| - |end|..]
  {
    if end != all {
      SuffixIs(end, all[1..]);
    }
  }

  lemma {:induction false} SuffixMore(end: seq<Event>, all: seq<Event>, e: Event)
    requires Suffix(end, all)
    ensures Suffix(end + [e], all + [e])
  {
    if end != all {
      SuffixMore(end, all[1..], e);
      assert (all + [e])[1..] == all[1..] + [e];
    }
  }

  lemma {:induction false} SuffixLess(end: seq<Event>, all: seq<Event>)
    requires Suffix(end, all) && end != []
    ensures Suffix(end[1..], all)
  {
    if end != all {
      SuffixLess(end, all[1..]);
    }
  }

  lemma {:induction false} NewestIsSuffix(ring: seq<Event>, capacity: nat, all: seq<Event>)
    requires Suffix(ring, all)
    ensures Suffix(Newest(ring, capacity), all)
    ensures |Newest(ring, capacity)| == if |ring| > capacity then capacity else |ring|
    decreases |ring|
  {
    if |ring| > capacity {
      SuffixLess(ring, all);
      NewestIsSuffix(ring[1..], capacity, all);
    }
  }

  lemma CountedMore(history: seq<Event>, e: Event)
    requires Counted(history) && e.sequence == |history| + 1
    ensures Counted(history + [e])
  {
    assert (history + [e])[..|history|] == history;
  }

  lemma AssignNumbered(b: Bus, body: string)
    requires Numbered(b)
    ensures Numbered(Assign(b, body))
  {
    if b.sequence < U64_MAX {
      var e := Event(b.sequence + 1, body);
      CountedMore(b.history, e);
      SuffixMore(b.ring, b.history, e);
      NewestIsSuffix(b.ring + [e], b.capacity, b.history + [e]);
      SuffixIs(b.ring, b.history);
    }
  }

  lemma {:induction false} AfterIsDrop(ring: seq<Event>, first: nat, after: nat)
    requires forall i :: 0 <= i < |ring| ==> ring[i].sequence == first + i
    requires first <= after + 1 && after < first + |ring|
    ensures After(ring, after) == ring[after + 1 - first..]
    decreases |ring|
  {
    if first == after + 1 {
      AfterKeepsAll(ring, after);
    } else {
      AfterIsDrop(ring[1..], first + 1, after);
    }
  }

  lemma {:induction false} AfterKeepsAll(ring: seq<Event>, after: nat)
    requires forall i :: 0 <= i < |ring| ==> ring[i].sequence > after
    ensures After(ring, after) == ring
  {
    if ring != [] {
      AfterKeepsAll(ring[1..], after);
    }
  }

  /** A replay is refused or is exactly the history from the starting place on. */
  lemma ReplayIsSuffix(b: Bus, after: Option<nat>)
    requires Numbered(b)
    ensures Replay(b, after).Ok? ==>
              StartOf(b, after) <= |b.history| && Replay(b, after).value == b.history[StartOf(b, after)..]
    ensures Replay(b, after).Err? <==>
              after.Some? && (after.value > |b.history| || after.value < |b.history| - |b.ring|)
  {
    SuffixIs(b.ring, b.history);
    RingNumbers(b);
    if after.Some? && |b.history| - |b.ring| <= after.value <= |b.history| {
      ReplayFrom(b, after.value);
    }
  }

  lemma RingNumbers(b: Bus)
    requires Numbered(b)
    ensures forall i :: 0 <= i < |b.ring| ==> b.ring[i].sequence == |b.history| - |b.ring| + 1 + i
  {
    SuffixIs(b.ring, b.history);
    forall i | 0 <= i < |b.ring|
      ensures b.ring[i].sequence == |b.history| - |b.ring| + 1 + i
    {
      CountedFrom(b.history, |b.history| - |b.ring|, i);
    }
  }

  lemma ReplayFrom(b: Bus, a: nat)
    requires Numbered(b) && |b.history| - |b.ring| <= a <= |b.history|
    ensures After(b.ring, a) == b.history[a..]
  {
    SuffixIs(b.ring, b.history);
    var before := |b.history| - |b.ring|;
    RingNumbers(b);
    if a == |b.history| {
      AfterDropsAll(b.ring, a);
    } else {
      AfterIsDrop(b.ring, before + 1, a);
      DropTwice(b.history, before, a);
    }
  }

  lemma DropTwice(history: seq<Event>, i: nat, j: nat)
    requires i <= j <= |history|
    ensures history[i..][j - i..] == history[j..]
  {
  }

  lemma {:induction false} AfterDropsAll(ring: seq<Event>, after: nat)
    requires forall i :: 0 <= i < |ring| ==> ring[i].sequence <= after
    ensures After(ring, after) == []
  {
    if ring != [] {
      AfterDropsAll(ring[1..], after);
    }
  }

  // ---------------------------------------------------------------- serialised publishers: exactly once, in order

  ghost predicate InOrder(b: Bus) {
    Numbered(b) && b.sent + b.unsent == b.history && |b.unsent| <= 1
  }

  ghost predicate ClientExact(b: Bus, c: Client) {
    match c
    case Away => true
    case Ended => true
    case Attached(_, position) => position <= |b.sent|
    case Reading(s, start, _, _, got) =>
      var next := start + |got|;
      && next + |s.replay| <= |b.history|
      && got == b.history[start..next]
      && s.replay == b.history[next..next + |s.replay|]
      && s.position <= next + |s.replay| && s.position <= |b.sent|
      && (s.replay != [] ==> s.last <= next)
      && (s.replay == [] ==> s.last == next)
  }

  /** The subscriber would wait. */
  predicate Drained(w: World) {
    w.client.Reading? && w.client.subscription.replay == [] && w.client.subscription.position == |w.bus.sent|
  }

  ghost predicate Exact(w: World) {
    InOrder(w.bus) && ClientExact(w.bus, w.client)
  }

  lemma HistoryGrows(b: Bus, c: Client, b': Bus)
    requires ClientExact(b, c) && b.history <= b'.history && |b.sent| <= |b'.sent|
    ensures ClientExact(b', c)
  {
    if c.Reading? {
      var next := c.start + |c.got|;
      assert b'.history[c.start..next] == b.history[c.start..next];
      assert b'.history[next..next + |c.subscription.replay|] == b.history[next..next + |c.subscription.replay|];
    }
  }

  lemma PollExact(b: Bus, c: Client)
    requires InOrder(b) && c.Reading? && ClientExact(b, c)
    ensures ClientExact(b, Polling(b, c))
  {
    if c.subscription.replay != [] {
      PollReplayExact(b, c);
    } else if c.subscription.position < |b.sent| {
      PollChannelExact(b, c);
    }
  }

  lemma PollReplayExact(b: Bus, c: Client)
    requires InOrder(b) && c.Reading? && ClientExact(b, c) && c.subscription.replay != []
    ensures ClientExact(b, Polling(b, c))
  {
    var next := c.start + |c.got|;
    CountedAt(b.history, next);
    GotMore(b.history, c.start, next);
    ReplayLess(b.history, next, next + |c.subscription.replay|);
  }

  lemma PollChannelExact(b: Bus, c: Client)
    requires InOrder(b) && c.Reading? && ClientExact(b, c)
    requires c.subscription.replay == [] && c.subscription.position < |b.sent|
    ensures ClientExact(b, Polling(b, c))
  {
    var next := c.start + |c.got|;
    assert b.sent[c.subscription.position] == b.history[c.subscription.position];
    CountedAt(b.history, c.subscription.position);
    if c.subscription.position == next {
      GotMore(b.history, c.start, next);
    }
  }

  lemma ReplayLess(history: seq<Event>, next: nat, end: nat)
    requires next < end <= |history|
    ensures history[next..end][0] == history[next] && history[next..end][1..] == history[next + 1..end]
  {
  }

  lemma GotMore(history: seq<Event>, start: nat, next: nat)
    requires start <= next < |history|
    ensures history[start..next] + [history[next]] == history[start..next + 1]
  {
  }

  lemma OpenedExact(b: Bus, c: Client)
    requires InOrder(b) && c.Attached? && ClientExact(b, c)
    ensures ClientExact(b, Opened(b, c))
  {
    ReplayIsSuffix(b, c.after);
    if Replay(b, c.after).Ok? {
      WholeRest(b.history, StartOf(b, c.after));
    }
  }

  lemma WholeRest(history: seq<Event>, start: nat)
    requires start <= |history|
    ensures history[start..] == history[start..|history|] && |history[start..]| == |history| - start && history[start..start] == []
  {
  }

  lemma ActInOrder(b: Bus, a: Action)
    requires InOrder(b) && (a.DoAssign? ==> b.unsent == [])
    ensures InOrder(Act(World(b, Away), a).bus)
    ensures b.history <= Act(World(b, Away), a).bus.history && |b.sent| <= |Act(World(b, Away), a).bus.sent|
  {
    match a
    case DoAssign(body) => AssignInOrder(b, body);
    case DoSend(i) => SendInOrder(b, i);
    case _ =>
  }

  lemma AssignInOrder(b: Bus, body: string)
    requires InOrder(b) && b.unsent == []
    ensures InOrder(Assign(b, body)) && b.history <= Assign(b, body).history && Assign(b, body).sent == b.sent
  {
    AssignNumbered(b, body);
  }

  lemma SendInOrder(b: Bus, i: nat)
    requires InOrder(b)
    ensures InOrder(Send(b, i)) && Send(b, i).history == b.history && |b.sent| <= |Send(b, i).sent|
  {
    if i < |b.unsent| {
      assert b.unsent == [b.unsent[0]] && b.unsent[..0] + b.unsent[1..] == [];
    }
  }

  lemma ActExact(w: World, a: Action)
    requires Exact(w) && (a.DoAssign? ==> w.bus.unsent == [])
    ensures Exact(Act(w, a))
  {
    ActInOrder(w.bus, a);
    match a
    case DoReplay =>
      if w.client.Attached? {
        OpenedExact(w.bus, w.client);
      }
    case DoPoll =>
      if w.client.Reading? {
        PollExact(w.bus, w.client);
      }
    case DoAttach(_) =>
    case _ => HistoryGrows(w.bus, w.client, Act(w, a).bus);
  }

  /**
    With serialised publishers, and for every interleaving of numbering, sending, attaching, replaying
    and polling, what the subscriber has received is exactly a stretch of the history from its start:
    no gap, no duplicate, no reordering, until the subscription ends with an error; and when there is nothing
    left to poll it has received everything that was sent.
   */
  lemma {:induction false} SubscriptionIsExact(w: World, actions: seq<Action>)
    requires Exact(w) && Serialised(w, actions)
    ensures Exact(Trace(w, actions))
    ensures var t := Trace(w, actions); Drained(t) ==> t.client.start + |t.client.got| >= |t.bus.sent|
    decreases |actions|
  {
    if actions != [] {
      ActExact(w, actions[0]);
      SubscriptionIsExact(Act(w, actions[0]), actions[1..]);
    }
  }

  lemma FreshBusIsExact(capacity: nat)
    ensures Exact(World(New(capacity), Away))
  {
  }

  // ---------------------------------------------------------------- any publishers: strictly increasing only

  ghost predicate Rising(events: seq<Event>) {
    forall i, j :: 0 <= i < j < |events| ==> events[i].sequence < events[j].sequence
  }

  ghost predicate ClientRising(c: Client) {
    c.Reading? ==>
      && Rising(c.got) && Rising(c.subscription.replay)
      && forall i :: 0 <= i < |c.got| ==> c.got[i].sequence <= c.subscription.last
  }

  lemma PollRises(b: Bus, c: Client)
    requires c.Reading? && ClientRising(c)
    ensures ClientRising(Polling(b, c))
  {
    var s := c.subscription;
    if s.replay != [] {
      assert Rising(s.replay[1..]);
    }
  }

  lemma ActNumbered(w: World, a: Action)
    requires Numbered(w.bus)
    ensures Numbered(Act(w, a).bus)
  {
    if a.DoAssign? {
      AssignNumbered(w.bus, a.body);
    }
  }

  lemma ActRises(w: World, a: Action)
    requires Numbered(w.bus) && ClientRising(w.client)
    ensures ClientRising(Act(w, a).client)
  {
    if a.DoReplay? && w.client.Attached? {
      OpenedRises(w.bus, w.client);
    } else if a.DoPoll? && w.client.Reading? {
      PollRises(w.bus, w.client);
    }
  }

  lemma OpenedRises(b: Bus, c: Client)
    requires Numbered(b) && c.Attached?
    ensures ClientRising(Opened(b, c))
  {
    ReplayIsSuffix(b, c.after);
    if Replay(b, c.after).Ok? {
      RisingFrom(b.history, StartOf(b, c.after));
    }
  }

  /** However publishers overlap, a subscriber never sees a number twice or a smaller one later. */
  lemma {:induction false} SubscriptionRises(w: World, actions: seq<Action>)
    requires Numbered(w.bus) && ClientRising(w.client)
    ensures Numbered(Trace(w, actions).bus) && ClientRising(Trace(w, actions).client)
    decreases |actions|
  {
    if actions != [] {
      ActNumbered(w, actions[0]);
      ActRises(w, actions[0]);
      SubscriptionRises(Act(w, actions[0]), actions[1..]);
    }
  }

  // ---------------------------------------------------------------- any publishers: exactly when everything arrives

  /** The highest number up to here, and the events above all before them: what the loop hands out of the channel. */
  function Top(events: seq<Event>, last: nat): nat {
    if events == [] then last
    else
      var top, e := Top(events[..|events| - 1], last), events[|events| - 1];
      if e.sequence > top then e.sequence else top
  }

  function Kept(events: seq<Event>, last: nat): seq<Event> {
    if events == [] then []
    else
      var front, e := events[..|events| - 1], events[|events| - 1];
      Kept(front, last) + if e.sequence > Top(front, last) then [e] else []
  }

  /** The events numbered above `last` come in the order of their numbers. */
  ghost predicate Ascends(events: seq<Event>, last: nat) {
    forall i, j :: 0 <= i < j < |events| && events[i].sequence > last && events[j].sequence > last ==>
      events[i].sequence < events[j].sequence
  }

  /** What was sent and what still has to be is a rearrangement of the history: nothing twice and nothing missing. */
  ghost predicate BusGood(b: Bus) {
    Numbered(b) && multiset(b.sent + b.unsent) == multiset(b.history)
  }

  ghost predicate ClientGood(b: Bus, c: Client) {
    match c
    case Away => true
    case Ended => true
    case Attached(_, position) => position <= |b.sent|
    case Reading(s, start, from, seen, got) =>
      && start <= seen <= |b.history| && from <= s.position <= |b.sent|
      && (forall i :: 0 <= i < from ==> b.sent[i].sequence <= seen)
      && (s.replay != [] ==> InReplay(b.history, c))
      && (s.replay == [] ==> InChannel(b, c))
  }

  /** Some of the replay is still to be handed out, and the channel has not been touched. */
  ghost predicate InReplay(history: seq<Event>, c: Client)
    requires c.Reading?
  {
    var s, next := c.subscription, c.start + |c.got|;
    && s.position == c.from && next + |s.replay| == c.seen <= |history| && s.last <= next
    && c.got == history[c.start..next] && s.replay == history[next..c.seen]
  }

  /** The replay is done, and the channel has been read up to the position. */
  ghost predicate InChannel(b: Bus, c: Client)
    requires c.Reading? && c.start <= c.seen <= |b.history| && c.from <= c.subscription.position <= |b.sent|
  {
    var channel := b.sent[c.from..c.subscription.position];
    c.got == b.history[c.start..c.seen] + Kept(channel, c.seen) && c.subscription.last == Top(channel, c.seen)
  }

  ghost predicate Good(w: World) {
    BusGood(w.bus) && ClientGood(w.bus, w.client)
  }

  /** Moving one event from the middle of the unsent ones behind the sent ones loses and repeats nothing. */
  lemma MovedSame(sent: seq<Event>, unsent: seq<Event>, i: nat)
    requires i < |unsent|
    ensures multiset(sent + [unsent[i]] + (unsent[..i] + unsent[i + 1..])) == multiset(sent + unsent)
  {
    assert unsent == unsent[..i] + [unsent[i]] + unsent[i + 1..];
  }

  lemma AssignGood(b: Bus, body: string)
    requires BusGood(b)
    ensures BusGood(Assign(b, body))
  {
    AssignNumbered(b, body);
    if b.sequence < U64_MAX {
      var e := Event(b.sequence + 1, body);
      assert b.sent + (b.unsent + [e]) == b.sent + b.unsent + [e];
    }
  }

  lemma SliceStays(a: seq<Event>, b: seq<Event>, i: nat, j: nat)
    requires a <= b && i <= j <= |a|
    ensures b[i..j] == a[i..j]
  {
  }

  /** A longer history and a longer channel leave the subscriber where it is. */
  lemma ClientStays(b: Bus, b': Bus, c: Client)
    requires ClientGood(b, c) && b.history <= b'.history && b.sent <= b'.sent
    ensures ClientGood(b', c)
  {
    if c.Reading? {
      SliceStays(b.sent, b'.sent, c.from, c.subscription.position);
      SliceStays(b.history, b'.history, c.start, c.seen);
      if c.subscription.replay != [] {
        SliceStays(b.history, b'.history, c.start, c.start + |c.got|);
        SliceStays(b.history, b'.history, c.start + |c.got|, c.seen);
      }
    }
  }

  lemma SendGood(b: Bus, i: nat)
    requires BusGood(b)
    ensures BusGood(Send(b, i))
  {
    if i < |b.unsent| {
      MovedSame(b.sent, b.unsent, i);
    }
  }

  lemma OpenedGood(b: Bus, c: Client)
    requires BusGood(b) && c.Attached? && ClientGood(b, c)
    ensures ClientGood(b, Opened(b, c))
  {
    ReplayIsSuffix(b, c.after);
    if Replay(b, c.after).Ok? {
      WholeRest(b.history, StartOf(b, c.after));
      SentBelow(b);
      assert b.sent[c.position..c.position] == [];
    }
  }

  lemma SentBelow(b: Bus)
    requires BusGood(b)
    ensures forall i :: 0 <= i < |b.sent| ==> b.sent[i].sequence <= |b.history|
  {
    forall i | 0 <= i < |b.sent|
      ensures b.sent[i].sequence <= |b.history|
    {
      assert b.sent[i] in multiset(b.sent + b.unsent);
      var k :| 0 <= k < |b.history| && b.history[k] == b.sent[i];
      CountedAt(b.history, k);
    }
  }

  lemma PollReplayGood(b: Bus, c: Client)
    requires BusGood(b) && c.Reading? && ClientGood(b, c) && c.subscription.replay != []
    ensures ClientGood(b, Polling(b, c))
  {
    var s := c.subscription;
    var next := c.start + |c.got|;
    CountedAt(b.history, next);
    GotMore(b.history, c.start, next);
    ReplayLess(b.history, next, c.seen);
    assert b.sent[c.from..c.from] == [];
  }

  lemma PollChannelGood(b: Bus, c: Client)
    requires c.Reading? && ClientGood(b, c) && c.subscription.replay == []
    ensures ClientGood(b, Polling(b, c))
  {
    var s := c.subscription;
    if s.position < |b.sent| {
      ChannelMore(b.sent, c.from, s.position, b.history[c.start..c.seen], c.seen);
    }
  }

  lemma ChannelMore(sent: seq<Event>, from: nat, position: nat, before: seq<Event>, seen: nat)
    requires from <= position < |sent|
    ensures
      var channel, more, e := sent[from..position], sent[from..position + 1], sent[position];
      && (e.sequence > Top(channel, seen) ==>
            before + Kept(more, seen) == before + Kept(channel, seen) + [e] && Top(more, seen) == e.sequence)
      && (e.sequence <= Top(channel, seen) ==> Kept(more, seen) == Kept(channel, seen) && Top(more, seen) == Top(channel, seen))
  {
    var channel, e := sent[from..position], sent[position];
    GotMore(sent, from, position);
    KeptMore(channel, e, seen);
    PutBehind(before, Kept(channel, seen), e);
  }

  lemma KeptMore(channel: seq<Event>, e: Event, last: nat)
    ensures Kept(channel + [e], last) == Kept(channel, last) + if e.sequence > Top(channel, last) then [e] else []
    ensures Top(channel + [e], last) == if e.sequence > Top(channel, last) then e.sequence else Top(channel, last)
  {
    assert (channel + [e])[..|channel|] == channel;
  }

  lemma PutBehind(before: seq<Event>, kept: seq<Event>, e: Event)
    ensures before + (kept + [e]) == before + kept + [e]
    ensures before + (kept + []) == before + kept
  {
  }

  lemma ActGood(w: World, a: Action)
    requires Good(w)
    ensures Good(Act(w, a))
  {
    match a
    case DoAssign(body) =>
      AssignGood(w.bus, body);
      ClientStays(w.bus, Act(w, a).bus, w.client);
    case DoSend(i) =>
      SendGood(w.bus, i);
      ClientStays(w.bus, Act(w, a).bus, w.client);
    case DoAttach(after) =>
    case DoReplay =>
      if w.client.Attached? {
        OpenedGood(w.bus, w.client);
      }
    case DoPoll =>
      if w.client.Reading? && w.client.subscription.replay != [] {
        PollReplayGood(w.bus, w.client);
      } else if w.client.Reading? {
        PollChannelGood(w.bus, w.client);
      }
    case DoClose => ClientStays(w.bus, Act(w, a).bus, w.client);
  }

  lemma {:induction false} RunGood(w: World, actions: seq<Action>)
    requires Good(w)
    ensures Good(Trace(w, actions))
    decreases |actions|
  {
    if actions != [] {
      ActGood(w, actions[0]);
      RunGood(Act(w, actions[0]), actions[1..]);
    }
  }

  // ---------------------------------------------------------------- what is handed out of a channel

  lemma {:induction false} TopIs(events: seq<Event>, last: nat)
    ensures Top(events, last) >= last && forall e :: e in events ==> e.sequence <= Top(events, last)
    ensures Top(events, last) == last || exists e :: e in events && e.sequence == Top(events, last)
  {
    if events != [] {
      var front := events[..|events| - 1];
      assert events == front + [events[|events| - 1]];
      TopIs(front, last);
    }
  }

  /** An event handed out was above everything before it. */
  lemma {:induction false} KeptAbove(events: seq<Event>, last: nat, e: Event)
    requires e in Kept(events, last)
    ensures exists j :: 0 <= j < |events| && events[j] == e && e.sequence > last
                        && forall i :: 0 <= i < j ==> events[i].sequence < e.sequence
  {
    var front, final := events[..|events| - 1], events[|events| - 1];
    if e in Kept(front, last) {
      KeptAbove(front, last, e);
      var j :| 0 <= j < |front| && front[j] == e && forall i :: 0 <= i < j ==> front[i].sequence < e.sequence;
      assert events[j] == e && forall i :: 0 <= i < j ==> events[i] == front[i];
    } else {
      TopIs(front, last);
      assert forall i :: 0 <= i < |front| ==> events[i] == front[i] && front[i] in front;
      assert events[|front|] == e;
    }
  }

  lemma {:induction false} KeptRises(events: seq<Event>, last: nat)
    ensures Rising(Kept(events, last))
    ensures forall e :: e in Kept(events, last) ==> last < e.sequence <= Top(events, last)
  {
    if events != [] {
      KeptRises(events[..|events| - 1], last);
      TopIs(events[..|events| - 1], last);
    }
  }

  lemma {:induction false} TopBelow(events: seq<Event>, last: nat, bound: nat)
    requires last < bound && forall i :: 0 <= i < |events| && events[i].sequence > last ==> events[i].sequence < bound
    ensures Top(events, last) < bound
  {
    if events != [] {
      TopBelow(events[..|events| - 1], last, bound);
    }
  }

  /** If the numbers above `last` ascend, every one of them is handed out. */
  lemma {:induction false} KeptAll(events: seq<Event>, last: nat, k: nat)
    requires Ascends(events, last) && k < |events| && events[k].sequence > last
    ensures events[k] in Kept(events, last)
  {
    var front := events[..|events| - 1];
    if k < |front| {
      KeptAll(front, last, k);
    } else {
      TopBelow(front, last, events[k].sequence);
    }
  }

  /** One set of numbered events has one rising listing. */
  lemma {:induction false} RisingSame(a: seq<Event>, b: seq<Event>)
    requires Rising(a) && Rising(b) && forall e :: e in a <==> e in b
    ensures a == b
    decreases |a|
  {
    assert b != [] ==> b[0] in a;
    if a == [] {
      assert b == [];
    } else {
      assert a[0] in b && b != [] && b[0] in a;
      var i :| 0 <= i < |b| && b[i] == a[0];
      var j :| 0 <= j < |a| && a[j] == b[0];
      assert a[0] == b[0];
      RisingRest(a);
      RisingRest(b);
      RisingSame(a[1..], b[1..]);
    }
  }

  lemma RisingRest(a: seq<Event>)
    requires Rising(a) && a != []
    ensures Rising(a[1..]) && forall e :: e in a[1..] <==> e in a && e != a[0]
  {
    assert a == [a[0]] + a[1..];
    forall e | e in a[1..]
      ensures e != a[0]
    {
      var k :| 0 <= k < |a[1..]| && a[1..][k] == e;
      assert a[k + 1] == e;
    }
  }

  /** Every event is the history's one of its number, and no number comes twice. */
  ghost predicate Placed(events: seq<Event>, history: seq<Event>) {
    && (forall i :: 0 <= i < |events| ==> 1 <= events[i].sequence <= |history| && history[events[i].sequence - 1] == events[i])
    && (forall i, j :: 0 <= i < j < |events| ==> events[i].sequence != events[j].sequence)
  }

  /** The channel from the attach position on, once everything is sent: its numbers above `seen` are those not replayed. */
  ghost predicate Rest(events: seq<Event>, history: seq<Event>, seen: nat) {
    && seen <= |history| && Placed(events, history)
    && (forall k :: seen <= k < |history| ==> history[k] in events)
  }

  lemma RisingFrom(history: seq<Event>, start: nat)
    requires Counted(history) && start <= |history|
    ensures Rising(history[start..])
  {
    forall i, j | 0 <= i < j < |history[start..]|
      ensures history[start..][i].sequence < history[start..][j].sequence
    {
      CountedFrom(history, start, i);
      CountedFrom(history, start, j);
    }
  }

  lemma KeptIsNew(events: seq<Event>, history: seq<Event>, seen: nat, e: Event)
    requires Placed(events, history) && seen <= |history| && e in Kept(events, seen)
    ensures e in history[seen..]
  {
    KeptAbove(events, seen, e);
    var j :| 0 <= j < |events| && events[j] == e && e.sequence > seen;
    InDropped(history, seen, e.sequence - 1);
  }

  lemma InDropped(history: seq<Event>, seen: nat, k: nat)
    requires seen <= k < |history|
    ensures history[k] in history[seen..]
  {
    assert history[seen..][k - seen] == history[k];
  }

  lemma NewIsKept(events: seq<Event>, history: seq<Event>, seen: nat, k: nat)
    requires Rest(events, history, seen) && Ascends(events, seen) && Counted(history) && k < |history| - seen
    ensures history[seen..][k] in Kept(events, seen)
  {
    CountedFrom(history, seen, k);
    assert history[seen..][k] == history[seen + k];
    var j :| 0 <= j < |events| && events[j] == history[seen + k];
    KeptAll(events, seen, j);
  }

  lemma KeptComplete(events: seq<Event>, history: seq<Event>, seen: nat)
    requires Rest(events, history, seen) && Ascends(events, seen) && Counted(history)
    ensures Kept(events, seen) == history[seen..]
  {
    KeptRises(events, seen);
    forall e | e in Kept(events, seen)
      ensures e in history[seen..]
    {
      KeptIsNew(events, history, seen, e);
    }
    forall k | 0 <= k < |history[seen..]|
      ensures history[seen..][k] in Kept(events, seen)
    {
      NewIsKept(events, history, seen, k);
    }
    RisingFrom(history, seen);
    RisingSame(Kept(events, seen), history[seen..]);
  }

  lemma CompleteAscends(events: seq<Event>, history: seq<Event>, seen: nat)
    requires Rest(events, history, seen) && Kept(events, seen) == history[seen..]
    ensures Ascends(events, seen)
  {
    forall i, j | 0 <= i < j < |events| && events[i].sequence > seen && events[j].sequence > seen
      ensures events[i].sequence < events[j].sequence
    {
      assert history[seen..][events[j].sequence - 1 - seen] == events[j];
      KeptAbove(events, seen, events[j]);
      var m :| 0 <= m < |events| && events[m] == events[j] && forall l :: 0 <= l < m ==> events[l].sequence < events[j].sequence;
      assert m == j;
    }
  }

  lemma CountTwice(events: seq<Event>, i: nat, j: nat)
    requires i < j < |events| && events[i] == events[j]
    ensures multiset(events)[events[i]] >= 2
  {
    assert events == events[..j] + [events[j]] + events[j + 1..];
    assert events[..j][i] == events[i];
    assert events[i] in multiset(events[..j]);
  }

  lemma {:induction false} CountOnce(history: seq<Event>, e: Event)
    requires Counted(history)
    ensures multiset(history)[e] <= 1
  {
    if history != [] {
      var front, last := history[..|history| - 1], history[|history| - 1];
      assert history == front + [last];
      CountOnce(front, e);
      if e in front {
        var k :| 0 <= k < |front| && front[k] == e;
        CountedAt(history, k);
      }
    }
  }

  /** A rearrangement of the numbered history has every event in its place in the numbering, once. */
  lemma RearrangedIsPlaced(events: seq<Event>, history: seq<Event>)
    requires Counted(history) && multiset(events) == multiset(history)
    ensures Placed(events, history)
  {
    forall i | 0 <= i < |events|
      ensures 1 <= events[i].sequence <= |history| && history[events[i].sequence - 1] == events[i]
    {
      assert events[i] in multiset(history);
      var k :| 0 <= k < |history| && history[k] == events[i];
      CountedAt(history, k);
    }
    forall i, j | 0 <= i < j < |events|
      ensures events[i].sequence != events[j].sequence
    {
      CountOnce(history, events[i]);
      if events[i] == events[j] {
        CountTwice(events, i, j);
      }
    }
  }

  lemma PlacedFrom(events: seq<Event>, history: seq<Event>, from: nat)
    requires Placed(events, history) && from <= |events|
    ensures Placed(events[from..], history)
  {
    assert forall i :: 0 <= i < |events[from..]| ==> events[from..][i] == events[from + i];
  }

  lemma StillToCome(events: seq<Event>, from: nat, seen: nat, e: Event)
    requires from <= |events| && e in events && e.sequence > seen
    requires forall i :: 0 <= i < from ==> events[i].sequence <= seen
    ensures e in events[from..]
  {
    var i :| 0 <= i < |events| && events[i] == e;
    assert events[from..][i - from] == e;
  }

  lemma RestOfChannel(b: Bus, from: nat, seen: nat)
    requires BusGood(b) && b.unsent == [] && from <= |b.sent| && seen <= |b.history|
    requires forall i :: 0 <= i < from ==> b.sent[i].sequence <= seen
    ensures Rest(b.sent[from..], b.history, seen)
  {
    assert b.sent + b.unsent == b.sent;
    RearrangedIsPlaced(b.sent, b.history);
    PlacedFrom(b.sent, b.history, from);
    forall k | seen <= k < |b.history|
      ensures b.history[k] in b.sent[from..]
    {
      CountedAt(b.history, k);
      assert b.history[k] in multiset(b.sent);
      StillToCome(b.sent, from, seen, b.history[k]);
    }
  }

  /**
    Exactly when nothing is lost. The send happens after the lock is released, so publishers may send in
    another order than they were numbered. For every interleaving in which the subscription has not ended with
    an error, once everything is sent and polled the subscriber holds the whole history from its start if and
    only if the events numbered after its replay were sent in the order of their numbers.
   */
  lemma EverythingArrivesIff(capacity: nat, actions: seq<Action>)
    requires var w := Trace(World(New(capacity), Away), actions); Drained(w) && w.bus.unsent == []
    ensures var w := Trace(World(New(capacity), Away), actions);
            && w.client.start <= |w.bus.history| && w.client.from <= |w.bus.sent|
            && (w.client.got == w.bus.history[w.client.start..] <==> Ascends(w.bus.sent[w.client.from..], w.client.seen))
  {
    var w0 := World(New(capacity), Away);
    RunGood(w0, actions);
    ArrivedIff(Trace(w0, actions));
  }

  lemma ArrivedIff(w: World)
    requires Good(w) && Drained(w) && w.bus.unsent == []
    ensures w.client.got == w.bus.history[w.client.start..] <==> Ascends(w.bus.sent[w.client.from..], w.client.seen)
  {
    var b, c := w.bus, w.client;
    var rest := b.sent[c.from..];
    assert b.sent[c.from..c.subscription.position] == rest;
    RestOfChannel(b, c.from, c.seen);
    SplitSame(b.history, c.start, c.seen, Kept(rest, c.seen));
    if Ascends(rest, c.seen) {
      KeptComplete(rest, b.history, c.seen);
    } else if Kept(rest, c.seen) == b.history[c.seen..] {
      CompleteAscends(rest, b.history, c.seen);
    }
  }

  lemma SplitSame(history: seq<Event>, i: nat, j: nat, rest: seq<Event>)
    requires i <= j <= |history|
    ensures history[i..j] + rest == history[i..] <==> rest == history[j..]
  {
    assert history[i..] == history[i..j] + history[j..];
    assert (history[i..j] + rest)[j - i..] == rest && history[i..][j - i..] == history[j..];
  }

  const OVERTAKING: seq<Action> :=
    [DoAttach(Some(0)), DoReplay, DoAssign("a"), DoAssign("b"), DoSend(1), DoSend(0), DoPoll, DoPoll]

  /** The failing family in one run of the bus: the second publisher overtakes, and event 1 is never seen. */
  lemma OvertakingLosesAnEvent()
    ensures
      var w := Trace(World(New(8), Away), OVERTAKING);
      w.client.Reading? && w.client.got == [Event(2, "b")] && w.client.subscription.position == |w.bus.sent| == 2
  {
    var a, b := Event(1, "a"), Event(2, "b");
    OvertakingNumbers(a, b);
    var w4 := World(Bus(8, 2, [a, b], [a, b], [], [a, b], true), Reading(Subscription([], 0, 0), 0, 0, 0, []));
    OvertakingSends(w4, a, b);
    OvertakingPolls(w4.(bus := w4.bus.(unsent := [], sent := [b, a])), a, b);
  }

  lemma OvertakingSends(w: World, a: Event, b: Event)
    requires w.bus.unsent == [a, b] && w.bus.sent == []
    ensures Trace(w, OVERTAKING[4..]) == Trace(w.(bus := w.bus.(unsent := [], sent := [b, a])), OVERTAKING[6..])
  {
    var w5 := w.(bus := w.bus.(unsent := [a], sent := [b]));
    assert [a, b][..1] + [a, b][2..] == [a] && [] + [b] == [b];
    assert Act(w, DoSend(1)) == w5;
    assert [a][..0] + [a][1..] == [] && [b] + [a] == [b, a];
    assert Act(w5, DoSend(0)) == w.(bus := w.bus.(unsent := [], sent := [b, a]));
    TraceStep(w, OVERTAKING, 4);
    TraceStep(w5, OVERTAKING, 5);
  }

  lemma OvertakingNumbers(a: Event, b: Event)
    requires a == Event(1, "a") && b == Event(2, "b")
    ensures Trace(World(New(8), Away), OVERTAKING)
            == Trace(World(Bus(8, 2, [a, b], [a, b], [], [a, b], true), Reading(Subscription([], 0, 0), 0, 0, 0, [])), OVERTAKING[4..])
  {
    var w0 := World(New(8), Away);
    var w1 := World(New(8), Attached(Some(0), 0));
    var w2 := World(New(8), Reading(Subscription([], 0, 0), 0, 0, 0, []));
    assert Act(w0, DoAttach(Some(0))) == w1 && Act(w1, DoReplay) == w2;
    var w3 := World(Bus(8, 1, [a], [a], [], [a], true), w2.client);
    NumberingOne(New(8), a);
    var w4 := World(Bus(8, 2, [a, b], [a, b], [], [a, b], true), w2.client);
    NumberingOne(w3.bus, b);
    assert [] + [a] == [a] && [a] + [b] == [a, b];
    TraceStep(w0, OVERTAKING, 0);
    TraceStep(w1, OVERTAKING, 1);
    TraceStep(w2, OVERTAKING, 2);
    TraceStep(w3, OVERTAKING, 3);
    assert OVERTAKING[0..] == OVERTAKING;
  }

  lemma NumberingOne(b: Bus, e: Event)
    requires b.sequence < U64_MAX && e.sequence == b.sequence + 1 && |b.ring| < b.capacity
    ensures Assign(b, e.body)
            == b.(sequence := e.sequence, ring := b.ring + [e], unsent := b.unsent + [e], history := b.history + [e])
  {
  }

  lemma OvertakingPolls(w: World, a: Event, b: Event)
    requires a.sequence == 1 && b.sequence == 2
    requires w == World(Bus(8, 2, [a, b], [], [b, a], [a, b], true), Reading(Subscription([], 0, 0), 0, 0, 0, []))
    ensures Trace(w, OVERTAKING[6..]) == World(w.bus, Reading(Subscription([], 2, 2), 0, 0, 0, [b]))
  {
    var w7 := World(w.bus, Reading(Subscription([], 1, 2), 0, 0, 0, [b]));
    assert [] + [b] == [b];
    assert Act(w, DoPoll) == w7;
    var w8 := World(w.bus, Reading(Subscription([], 2, 2), 0, 0, 0, [b]));
    assert Act(w7, DoPoll) == w8;
    TraceStep(w, OVERTAKING, 6);
    TraceStep(w7, OVERTAKING, 7);
    assert OVERTAKING[8..] == [];
  }

  lemma TraceStep(w: World, all: seq<Action>, i: nat)
    requires i < |all|
    ensures Trace(w, all[i..]) == Trace(Act(w, all[i]), all[i + 1..])
  {
    assert all[i..][1..] == all[i + 1..];
  }

  // ---------------------------------------------------------------- what a publish and a poll mean

  /** An event gets the next number and its text, waits to be sent, and stands last among the newest kept for replay. */
  lemma AssignIs(b: Bus, body: string)
    requires Numbered(b) && b.sequence < U64_MAX
    ensures
      var t, e := Assign(b, body), Event(|b.history| + 1, body);
      && t.history == b.history + [e] && t.unsent == b.unsent + [e] && t.sent == b.sent
      && t.sequence == b.sequence + 1 && t.capacity == b.capacity && t.open == b.open
      && |t.ring| == (if |t.history| < b.capacity then |t.history| else b.capacity)
      && t.ring == t.history[|t.history| - |t.ring|..]
  {
    var e := Event(|b.history| + 1, body);
    AssignNumbered(b, body);
    SuffixIs(b.ring, b.history);
    SuffixIs(Assign(b, body).ring, Assign(b, body).history);
    SuffixMore(b.ring, b.history, e);
    NewestIsSuffix(b.ring + [e], b.capacity, b.history + [e]);
  }

  /** A publish is the two steps of its publisher, one right after the other. */
  lemma PublishIsSteps(b: Bus, e: Event)
    requires b.sequence < U64_MAX && e.sequence == b.sequence + 1
    ensures Send(Assign(b, e.body), |b.unsent|)
            == b.(sequence := b.sequence + 1, ring := Newest(b.ring + [e], b.capacity), history := b.history + [e], sent := b.sent + [e])
  {
    assert (b.unsent + [e])[..|b.unsent|] + (b.unsent + [e])[|b.unsent| + 1..] == b.unsent;
  }

  /** The channel is the least power of two that holds the capacity. */
  function Power(k: nat): (r: nat)
    ensures r > 0
  {
    if k == 0 then 1 else 2 * Power(k - 1)
  }

  lemma {:induction false} ChannelFrom(capacity: nat, k: nat) returns (n: nat)
    requires k == 0 || Power(k - 1) < capacity
    ensures ChannelSize(capacity, Power(k)) == Power(n) >= capacity
    ensures n == 0 || Power(n - 1) < capacity
    decreases if Power(k) < capacity then capacity - Power(k) else 0
  {
    n := k;
    if Power(k) < capacity {
      assert Power(k + 1) == 2 * Power(k);
      n := ChannelFrom(capacity, k + 1);
    }
  }

  lemma ChannelIs(capacity: nat) returns (n: nat)
    ensures ChannelSize(capacity, 1) == Power(n) >= capacity && (n == 0 || Power(n - 1) < capacity)
  {
    n := ChannelFrom(capacity, 0);
  }

  /** What a subscription still has before it: the rest of its replay, then the rest of the channel. */
  function Ahead(b: Bus, s: Subscription): seq<Event>
    requires s.position <= |b.sent|
  {
    s.replay + b.sent[s.position..]
  }

  predicate Behind(b: Bus, s: Subscription) {
    s.position + ChannelSize(b.capacity, 1) < |b.sent|
  }

  /** The first event before the subscription that is newer than the last one seen is at `k`. */
  ghost predicate NewerAt(ahead: seq<Event>, last: nat, k: nat) {
    k < |ahead| && last < ahead[k].sequence && forall j :: 0 <= j < k ==> ahead[j].sequence <= last
  }

  lemma AheadLess(b: Bus, s: Subscription)
    requires s.position <= |b.sent| && Ahead(b, s) != []
    ensures var t := if s.replay != [] then s.(replay := s.replay[1..]) else s.(position := s.position + 1);
            t.position <= |b.sent| && Ahead(b, s) == [Ahead(b, s)[0]] + Ahead(b, t)
  {
  }

  /**
    What a subscriber that has not fallen behind gets next: the first event before it that it has not seen, all
    before that one being skipped; without one it has seen everything and waits, or the bus is closed.
   */
  lemma {:induction false} NextIs(b: Bus, s: Subscription) returns (k: nat)
    requires s.position <= |b.sent| && !Behind(b, s)
    ensures var (polled, t) := Next(b, s);
            && t.position <= |b.sent|
            && (if k == |Ahead(b, s)| then
                  && (forall e :: e in Ahead(b, s) ==> e.sequence <= s.last)
                  && Ahead(b, t) == [] && t.last == s.last && polled == if b.open then Waiting else Closed
                else
                  && NewerAt(Ahead(b, s), s.last, k) && polled == Delivered(Ahead(b, s)[k])
                  && t.last == Ahead(b, s)[k].sequence && Ahead(b, t) == Ahead(b, s)[k + 1..])
    decreases |s.replay|, |b.sent| - s.position
  {
    k := 0;
    if Ahead(b, s) != [] {
      AheadLess(b, s);
      var (polled, t) := Poll(b, s);
      if polled.Skipped? {
        var j := NextIs(b, t);
        k := j + 1;
      }
    }
  }

  /** One that has fallen behind first sees the rest of its replay, and then is told how many events it has missed. */
  lemma {:induction false} LagIs(b: Bus, s: Subscription)
    requires Behind(b, s) && forall e :: e in s.replay ==> e.sequence <= s.last
    ensures var (polled, t) := Next(b, s);
            && t == Subscription([], |b.sent| - ChannelSize(b.capacity, 1), s.last)
            && polled == Lagged(t.position - s.position)
    decreases |s.replay|
  {
    if s.replay != [] {
      assert s.replay[0] in s.replay;
      LagIs(b, s.(replay := s.replay[1..]));
    }
  }

  // ---------------------------------------------------------------- the objects

  class GatewayEventBus {
    var bus: Bus

    constructor (capacity: nat)
      ensures bus == New(capacity)
    {
      bus := New(capacity);
    }

    /** `publish` without another publisher in between: numbered, kept for replay and sent, or refused at the limit. */
    method Publish(body: string) returns (r: Option<Event>)
      requires Numbered(bus)
      modifies this
      ensures Numbered(bus)
      ensures r.None? <==> old(bus).sequence >= U64_MAX
      ensures r.None? ==> bus == old(bus)
      ensures r.Some? ==> bus.ring == Newest(old(bus).ring + [r.value], bus.capacity) && bus.capacity == old(bus).capacity
      ensures r.Some? ==> r.value == Event(|old(bus).history| + 1, body)
      ensures r.Some? ==> bus.history == old(bus).history + [r.value] && bus.sent == old(bus).sent + [r.value]
      ensures bus.unsent == old(bus).unsent
      ensures r.Some? ==> bus == Send(Assign(old(bus), body), |old(bus).unsent|)
    {
      if bus.sequence >= U64_MAX {
        return None;
      }
      AssignNumbered(bus, body);
      var e := Event(bus.sequence + 1, body);
      PublishIsSteps(bus, e);
      var ring := Trim(bus.ring + [e], bus.capacity);
      bus := bus.(sequence := bus.sequence + 1, ring := ring, history := bus.history + [e], sent := bus.sent + [e]);
      return Some(e);
    }
  }

  /** The trimming loop of `publish`. */
  method Trim(full: seq<Event>, capacity: nat) returns (ring: seq<Event>)
    ensures ring == Newest(full, capacity)
  {
    ring := full;
    while |ring| > capacity
      invariant Newest(ring, capacity) == Newest(full, capacity)
    {
      ring := ring[1..];
    }
  }

  class GatewayEventSubscription {
    var state: Subscription

    constructor (replay: seq<Event>, position: nat, last: nat)
      ensures state == Subscription(replay, position, last)
    {
      state := Subscription(replay, position, last);
    }

    /**
      `next_event` against a bus that stays put: skips what was seen and returns the first newer event,
      a lag, the end of a closed bus, or nothing when it would wait.
     */
    method NextEvent(bus: Bus) returns (r: Polled)
      modifies this
      ensures (r, state) == Next(bus, old(state))
      ensures !r.Skipped?
      ensures r.Delivered? ==> old(state).last < r.event.sequence == state.last
      ensures r.Waiting? || r.Closed? ==> state.replay == [] && state.position >= |bus.sent| && (r.Closed? <==> !bus.open)
      ensures r.Lagged? ==> state.replay == [] && r.skipped > 0 && state.position + ChannelSize(bus.capacity, 1) == |bus.sent|
      ensures !r.Delivered? ==> state.last == old(state).last
    {
      while true
        invariant state.last == old(state).last && Next(bus, state) == Next(bus, old(state))
        decreases |state.replay|, if state.position <= |bus.sent| then |bus.sent| - state.position else 0
      {
        var (polled, next) := Poll(bus, state);
        state := next;
        if !polled.Skipped? {
          return polled;
        }
      }
    }
  }
}
