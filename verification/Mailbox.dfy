/**
  The signaling mailbox: clients post offers and batches of ICE candidates, the host collects them and
  answers once. `pending` is the insertion-ordered dictionary of offers; every accepted offer gets a
  serial number, so that an offer and a later one under the same key are told apart.
 */
module Mailbox {
  import opened Results

  const MAX_PENDING := 128
  const MAX_PER_CLIENT := 12
  const MAX_UPDATES := 128
  const MAX_PAYLOAD := 16000
  const MAX_TOTAL := 128 * 1024
  const MAX_ENVELOPE := 90000
  const PAGE := 4

  datatype Key = Key(host: string, client: string, attempt: string)

  /** The opaque signed payload. A request whose envelope has another shape carries none. */
  datatype Envelope = Envelope(payload: string, signature: string)

  datatype Entry = Entry(
    key: Key, serial: nat, envelope: Envelope, answer: Option<Envelope>, delivered: bool, updates: seq<Envelope>, deadline: real)

  datatype Pending = Pending(entries: seq<Entry>, accepted: nat)

  datatype Fault = BadRequest | NotFound | Conflict | TooLarge | Unavailable

  predicate Sealed(e: Option<Envelope>) {
    e.Some? && |e.value.payload| <= MAX_ENVELOPE && |e.value.signature| == 88
  }

  function Total(updates: seq<Envelope>): nat {
    if updates == [] then 0 else Total(updates[..|updates| - 1]) + |updates[|updates| - 1].payload|
  }

  function Find(entries: seq<Entry>, key: Key): (r: Option<nat>)
    ensures r.Some? ==> r.value < |entries| && entries[r.value].key == key
    ensures r.None? ==> forall i :: 0 <= i < |entries| ==> entries[i].key != key
  {
    if entries == [] then None
    else if entries[|entries| - 1].key == key then Some(|entries| - 1)
    else Find(entries[..|entries| - 1], key)
  }

  function Count(entries: seq<Entry>, host: string, client: string): nat {
    if entries == [] then 0
    else Count(entries[..|entries| - 1], host, client)
         + var k := entries[|entries| - 1].key; if k.host == host && k.client == client then 1 else 0
  }

  function Filter(entries: seq<Entry>, keep: Entry -> bool): seq<Entry> {
    if entries == [] then []
    else Filter(entries[..|entries| - 1], keep)
         + if keep(entries[|entries| - 1]) then [entries[|entries| - 1]] else []
  }

  // ---------------------------------------------------------------- the operations on values

  function Expired(m: Pending, now: real): Pending {
    m.(entries := Filter(m.entries, (e: Entry) => !(e.deadline < now)))
  }

  function Cancelled(m: Pending, key: Key): Pending {
    m.(entries := Filter(m.entries, (e: Entry) => e.key != key))
  }

  /** The host has replaced its clients; offers of the others go. */
  function Dropped(m: Pending, host: string, valid: set<string>): Pending {
    m.(entries := Filter(m.entries, (e: Entry) => !(e.key.host == host && e.key.client !in valid)))
  }

  function Offered(m: Pending, key: Key, envelope: Option<Envelope>, now: real): Result<Pending, Fault> {
    if Find(m.entries, key).Some? then Err(Conflict)
    else if |m.entries| >= MAX_PENDING || Count(m.entries, key.host, key.client) >= MAX_PER_CLIENT then Err(Unavailable)
    else if !Sealed(envelope) then Err(BadRequest)
    else Ok(Pending(m.entries + [Entry(key, m.accepted, envelope.value, None, false, [], now + 60.0)], m.accepted + 1))
  }

  predicate Waiting(e: Entry, host: string) {
    e.key.host == host && !e.delivered
  }

  /** The entries after at most `limit` waiting ones were marked, from the front. */
  function Delivered(entries: seq<Entry>, host: string, limit: nat): seq<Entry> {
    if entries == [] || limit == 0 then entries
    else if Waiting(entries[0], host) then [entries[0].(delivered := true)] + Delivered(entries[1..], host, limit - 1)
    else [entries[0]] + Delivered(entries[1..], host, limit)
  }

  function Picked(entries: seq<Entry>, host: string, limit: nat): seq<Entry> {
    if entries == [] || limit == 0 then []
    else if Waiting(entries[0], host) then [entries[0]] + Picked(entries[1..], host, limit - 1)
    else Picked(entries[1..], host, limit)
  }

  lemma DeliverHead(entries: seq<Entry>, host: string, limit: nat)
    requires entries != [] && limit > 0
    ensures var e, rest := entries[0], entries[1..];
            if Waiting(e, host) then
              && Delivered(entries, host, limit) == [e.(delivered := true)] + Delivered(rest, host, limit - 1)
              && Picked(entries, host, limit) == [e] + Picked(rest, host, limit - 1)
            else
              && Delivered(entries, host, limit) == [e] + Delivered(rest, host, limit)
              && Picked(entries, host, limit) == Picked(rest, host, limit)
  {
  }

  /** In the middle of a delivery: what is done and what is still to be seen make up the whole. */
  ghost predicate DeliveryAt(entries: seq<Entry>, host: string, limit: nat, i: nat, done: seq<Entry>, result: seq<Entry>)
    requires i <= |entries| && |result| <= limit
  {
    && Delivered(entries, host, limit) == done + Delivered(entries[i..], host, limit - |result|)
    && Picked(entries, host, limit) == result + Picked(entries[i..], host, limit - |result|)
  }

  lemma DeliverOn(entries: seq<Entry>, host: string, limit: nat, i: nat, done: seq<Entry>, result: seq<Entry>)
    requires i < |entries| && |result| < limit && DeliveryAt(entries, host, limit, i, done, result)
    ensures var e := entries[i];
            if Waiting(e, host) then DeliveryAt(entries, host, limit, i + 1, done + [e.(delivered := true)], result + [e])
            else DeliveryAt(entries, host, limit, i + 1, done + [e], result)
  {
    var e, left := entries[i], limit - |result|;
    DeliverHead(entries[i..], host, left);
    assert entries[i..][0] == e && entries[i..][1..] == entries[i + 1..];
    if Waiting(e, host) {
      assert done + ([e.(delivered := true)] + Delivered(entries[i + 1..], host, left - 1))
             == done + [e.(delivered := true)] + Delivered(entries[i + 1..], host, left - 1);
      assert result + ([e] + Picked(entries[i + 1..], host, left - 1)) == result + [e] + Picked(entries[i + 1..], host, left - 1);
    } else {
      assert done + ([e] + Delivered(entries[i + 1..], host, left)) == done + [e] + Delivered(entries[i + 1..], host, left);
    }
  }

  lemma MarkOne(marked: seq<Entry>, done: seq<Entry>, entries: seq<Entry>, i: nat, e: Entry)
    requires |done| == i < |entries| && marked == done + entries[i..]
    ensures |marked| == |entries| && marked[i] == entries[i] && marked[i := e] == done + [e] + entries[i + 1..]
    ensures e == entries[i] ==> marked == done + [e] + entries[i + 1..]
  {
  }

  lemma DeliverEnd(entries: seq<Entry>, host: string, limit: nat, i: nat, done: seq<Entry>, result: seq<Entry>)
    requires i <= |entries| && |result| <= limit && DeliveryAt(entries, host, limit, i, done, result)
    requires i == |entries| || |result| == limit
    ensures Delivered(entries, host, limit) == done + entries[i..] && Picked(entries, host, limit) == result
  {
    assert Delivered(entries[i..], host, limit - |result|) == entries[i..];
    assert Picked(entries[i..], host, limit - |result|) == [] && result + [] == result;
  }

  function Answered(m: Pending, key: Key, envelope: Option<Envelope>): Result<Pending, Fault> {
    var i := Find(m.entries, key);
    if i.None? || m.entries[i.value].answer.Some? then Err(Conflict)
    else if !Sealed(envelope) then Err(BadRequest)
    else Ok(m.(entries := m.entries[i.value := m.entries[i.value].(answer := envelope)]))
  }

  function Updated(m: Pending, key: Key, sequence: int, envelope: Option<Envelope>): Result<Pending, Fault> {
    var i := Find(m.entries, key);
    if i.None? then Err(NotFound)
    else if !(0 <= sequence < MAX_UPDATES) || !Sealed(envelope) then Err(BadRequest)
    else if |envelope.value.payload| > MAX_PAYLOAD then Err(TooLarge)
    else
      var updates := m.entries[i.value].updates;
      if sequence < |updates| then (if updates[sequence] != envelope.value then Err(Conflict) else Ok(m))
      else if sequence > |updates| then Err(Conflict)
      else if Total(updates) + |envelope.value.payload| > MAX_TOTAL then Err(TooLarge)
      else Ok(m.(entries := m.entries[i.value := m.entries[i.value].(updates := updates + [envelope.value])]))
  }

  function Collected(m: Pending, key: Key, after: int): Result<seq<Envelope>, Fault> {
    var i := Find(m.entries, key);
    if i.None? then Err(NotFound)
    else
      var updates := m.entries[i.value].updates;
      if !(0 <= after <= |updates|) then Err(BadRequest)
      else Ok(updates[after..if after + PAGE <= |updates| then after + PAGE else |updates|])
  }

  function AnswerOf(m: Pending, key: Key): Result<Option<Envelope>, Fault> {
    var i := Find(m.entries, key);
    if i.None? then Err(NotFound) else Ok(m.entries[i.value].answer)
  }

  // ---------------------------------------------------------------- the handlers

  class Rendezvous {
    var pending: seq<Entry>
    /** How many offers were ever accepted. */
    var accepted: nat

    ghost function State(): Pending
      reads this
    {
      Pending(pending, accepted)
    }

    constructor ()
      ensures State() == Pending([], 0)
    {
      pending, accepted := [], 0;
    }

    /** Deletes the entries that do not satisfy `keep`, in a pass over the dictionary. */
    method Retain(keep: Entry -> bool)
      modifies this
      ensures State() == old(State()).(entries := Filter(old(pending), keep))
    {
      var kept: seq<Entry> := [];
      for i := 0 to |pending|
        invariant pending == old(pending) && accepted == old(accepted)
        invariant kept == Filter(pending[..i], keep)
      {
        assert pending[..i + 1][..i] == pending[..i];
        if keep(pending[i]) {
          kept := kept + [pending[i]];
        }
      }
      assert pending[..|pending|] == pending;
      pending := kept;
    }

    method Offer(key: Key, envelope: Option<Envelope>, now: real) returns (r: Result<(), Fault>)
      modifies this
      ensures var target := Offered(old(State()), key, envelope, now);
              if target.Err? then r == Err(target.error) && State() == old(State()) else r == Ok(()) && State() == target.value
    {
      if Find(pending, key).Some? {
        return Err(Conflict);
      }
      var same := 0;
      for i := 0 to |pending|
        invariant same == Count(pending[..i], key.host, key.client)
      {
        assert pending[..i + 1][..i] == pending[..i];
        if pending[i].key.host == key.host && pending[i].key.client == key.client {
          same := same + 1;
        }
      }
      assert pending[..|pending|] == pending;
      if |pending| >= MAX_PENDING || same >= MAX_PER_CLIENT {
        return Err(Unavailable);
      }
      if !Sealed(envelope) {
        return Err(BadRequest);
      }
      pending := pending + [Entry(key, accepted, envelope.value, None, false, [], now + 60.0)];
      accepted := accepted + 1;
      r := Ok(());
    }

    /** Hands the host its undelivered offers, oldest first and at most `limit`, and marks them. */
    method Offers(host: string, limit: int) returns (r: Result<seq<Entry>, Fault>)
      modifies this
      ensures if 1 <= limit <= 32
              then r == Ok(Picked(old(pending), host, limit)) && State() == old(State()).(entries := Delivered(old(pending), host, limit))
              else r == Err(BadRequest) && State() == old(State())
    {
      if !(1 <= limit <= 32) {
        return Err(BadRequest);
      }
      var result: seq<Entry>;
      pending, result := MarkAndCollect(pending, host, limit);
      r := Ok(result);
    }

    static method MarkAndCollect(entries: seq<Entry>, host: string, limit: nat) returns (marked: seq<Entry>, result: seq<Entry>)
      ensures marked == Delivered(entries, host, limit) && result == Picked(entries, host, limit)
    {
      marked, result := entries, [];
      ghost var done := [];
      var i := 0;
      while i < |marked|
        invariant 0 <= i <= |entries| && |result| <= limit
        invariant |done| == i && marked == done + entries[i..]
        invariant DeliveryAt(entries, host, limit, i, done, result)
        decreases |entries| - i
      {
        if |result| >= limit {
          break;
        }
        var e := marked[i];
        assert e == entries[i];
        DeliverOn(entries, host, limit, i, done, result);
        MarkOne(marked, done, entries, i, if Waiting(e, host) then e.(delivered := true) else e);
        if e.key.host == host && !e.delivered {
          result := result + [e];
          marked := marked[i := e.(delivered := true)];
          done := done + [e.(delivered := true)];
        } else {
          done := done + [e];
        }
        i := i + 1;
      }
      DeliverEnd(entries, host, limit, i, done, result);
    }

    method Answer(key: Key, envelope: Option<Envelope>) returns (r: Result<(), Fault>)
      modifies this
      ensures var target := Answered(old(State()), key, envelope);
              if target.Err? then r == Err(target.error) && State() == old(State()) else r == Ok(()) && State() == target.value
    {
      var i := Find(pending, key);
      if i.None? || pending[i.value].answer.Some? {
        return Err(Conflict);
      }
      if !Sealed(envelope) {
        return Err(BadRequest);
      }
      pending := pending[i.value := pending[i.value].(answer := envelope)];
      r := Ok(());
    }

    method IceUpdate(key: Key, sequence: int, envelope: Option<Envelope>) returns (r: Result<(), Fault>)
      modifies this
      ensures var target := Updated(old(State()), key, sequence, envelope);
              if target.Err? then r == Err(target.error) && State() == old(State()) else r == Ok(()) && State() == target.value
    {
      var i := Find(pending, key);
      if i.None? {
        return Err(NotFound);
      }
      if !(0 <= sequence < MAX_UPDATES) || !Sealed(envelope) {
        return Err(BadRequest);
      }
      if |envelope.value.payload| > MAX_PAYLOAD {
        return Err(TooLarge);
      }
      var updates := pending[i.value].updates;
      if sequence < |updates| {
        return if updates[sequence] != envelope.value then Err(Conflict) else Ok(());
      } else if sequence > |updates| {
        return Err(Conflict);
      }
      var total := 0;
      for j := 0 to |updates|
        invariant total == Total(updates[..j])
      {
        assert updates[..j + 1][..j] == updates[..j];
        total := total + |updates[j].payload|;
      }
      assert updates[..|updates|] == updates;
      if total + |envelope.value.payload| > MAX_TOTAL {
        return Err(TooLarge);
      }
      pending := pending[i.value := pending[i.value].(updates := updates + [envelope.value])];
      r := Ok(());
    }
  }

  // ---------------------------------------------------------------- what every state satisfies

  ghost predicate Sorted(entries: seq<Entry>) {
    forall i, j :: 0 <= i < j < |entries| ==> entries[i].serial < entries[j].serial && entries[i].key != entries[j].key
  }

  ghost predicate Bounded(e: Entry) {
    && |e.updates| <= MAX_UPDATES && Total(e.updates) <= MAX_TOTAL
    && forall u :: u in e.updates ==> |u.payload| <= MAX_PAYLOAD
  }

  ghost predicate Roomy(entries: seq<Entry>) {
    && |entries| <= MAX_PENDING
    && forall host, client :: Count(entries, host, client) <= MAX_PER_CLIENT
  }

  ghost predicate Valid(m: Pending) {
    && Sorted(m.entries) && Roomy(m.entries)
    && (forall e :: e in m.entries ==> Bounded(e) && e.serial < m.accepted)
  }

  lemma {:induction false} FilterMembers(entries: seq<Entry>, keep: Entry -> bool)
    ensures forall e :: e in Filter(entries, keep) <==> e in entries && keep(e)
    ensures |Filter(entries, keep)| <= |entries|
  {
    if entries != [] {
      var front, last := entries[..|entries| - 1], entries[|entries| - 1];
      assert entries == front + [last];
      FilterMembers(front, keep);
    }
  }

  /**
    What leaves the mailbox and why: a guard removes exactly the offers past their deadline, a cancel exactly
    the offer under its key, and a new list of clients exactly the offers of clients no longer on it.
   */
  lemma RemovalsAreExact(m: Pending, e: Entry, now: real, key: Key, host: string, valid: set<string>)
    requires e in m.entries
    ensures e in Expired(m, now).entries <==> e.deadline >= now
    ensures e in Cancelled(m, key).entries <==> e.key != key
    ensures e in Dropped(m, host, valid).entries <==> (e.key.host == host ==> e.key.client in valid)
  {
    FilterMembers(m.entries, (o: Entry) => !(o.deadline < now));
    FilterMembers(m.entries, (o: Entry) => o.key != key);
    FilterMembers(m.entries, (o: Entry) => !(o.key.host == host && o.key.client !in valid));
  }

  lemma {:induction false} FilterSorted(entries: seq<Entry>, keep: Entry -> bool)
    requires Sorted(entries)
    ensures Sorted(Filter(entries, keep))
  {
    if entries != [] {
      var front, last := entries[..|entries| - 1], entries[|entries| - 1];
      FilterSorted(front, keep);
      FilterMembers(front, keep);
      var kept := Filter(front, keep);
      forall i | 0 <= i < |kept|
        ensures kept[i].serial < last.serial && kept[i].key != last.key
      {
        assert kept[i] in front;
      }
    }
  }

  lemma CountMore(entries: seq<Entry>, e: Entry, host: string, client: string)
    ensures Count(entries + [e], host, client)
            == Count(entries, host, client) + if e.key.host == host && e.key.client == client then 1 else 0
  {
    assert (entries + [e])[..|entries|] == entries;
  }

  lemma {:induction false} FilterCounts(entries: seq<Entry>, keep: Entry -> bool, host: string, client: string)
    ensures Count(Filter(entries, keep), host, client) <= Count(entries, host, client)
  {
    if entries != [] {
      var front, last := entries[..|entries| - 1], entries[|entries| - 1];
      FilterCounts(front, keep, host, client);
      CountMore(Filter(front, keep), last, host, client);
      assert Filter(front, keep) + [] == Filter(front, keep);
    }
  }

  lemma FilterValid(m: Pending, keep: Entry -> bool)
    requires Valid(m)
    ensures Valid(m.(entries := Filter(m.entries, keep)))
  {
    FilterMembers(m.entries, keep);
    FilterSorted(m.entries, keep);
    forall host, client
      ensures Count(Filter(m.entries, keep), host, client) <= MAX_PER_CLIENT
    {
      FilterCounts(m.entries, keep, host, client);
    }
  }

  /** The same offer later on: its batches only grew, an answer stays, a delivery stays, nothing else moved. */
  predicate Later(a: Entry, b: Entry) {
    && a.key == b.key && a.serial == b.serial && a.envelope == b.envelope && a.deadline == b.deadline
    && a.updates <= b.updates && (a.answer.Some? ==> b.answer == a.answer) && (a.delivered ==> b.delivered)
  }

  function Holder(entries: seq<Entry>, serial: nat): (r: Option<Entry>)
    ensures r.Some? ==> r.value in entries && r.value.serial == serial
    ensures r.None? ==> forall e :: e in entries ==> e.serial != serial
  {
    if entries == [] then None
    else if entries[|entries| - 1].serial == serial then Some(entries[|entries| - 1])
    else
      assert entries == entries[..|entries| - 1] + [entries[|entries| - 1]];
      Holder(entries[..|entries| - 1], serial)
  }

  lemma HolderIs(entries: seq<Entry>, i: nat)
    requires Sorted(entries) && i < |entries|
    ensures Holder(entries, entries[i].serial) == Some(entries[i])
  {
    assert entries[i] in entries;
    var r := Holder(entries, entries[i].serial).value;
    var j :| 0 <= j < |entries| && entries[j] == r;
  }

  /** What a step or a run owes the offer with this serial, if the offer was accepted before it. */
  ghost predicate Evolves(m: Pending, t: Pending, serial: nat) {
    && Valid(t) && m.accepted <= t.accepted
    && (Holder(t.entries, serial).Some? ==>
          && Holder(m.entries, serial).Some? && Later(Holder(m.entries, serial).value, Holder(t.entries, serial).value))
  }

  lemma FilterEvolves(m: Pending, keep: Entry -> bool, serial: nat)
    requires Valid(m)
    ensures Evolves(m, m.(entries := Filter(m.entries, keep)), serial)
  {
    FilterValid(m, keep);
    FilterMembers(m.entries, keep);
    var r := Holder(Filter(m.entries, keep), serial);
    if r.Some? {
      assert r.value in m.entries;
      var i :| 0 <= i < |m.entries| && m.entries[i] == r.value;
      HolderIs(m.entries, i);
    }
  }

  lemma {:induction false} CountSameKeys(a: seq<Entry>, b: seq<Entry>, host: string, client: string)
    requires |a| == |b| && forall i :: 0 <= i < |a| ==> a[i].key == b[i].key
    ensures Count(a, host, client) == Count(b, host, client)
  {
    if a != [] {
      CountSameKeys(a[..|a| - 1], b[..|b| - 1], host, client);
    }
  }

  ghost predicate EachLater(a: seq<Entry>, b: seq<Entry>) {
    |a| == |b| && forall i :: 0 <= i < |a| ==> Later(a[i], b[i])
  }

  lemma EachLaterSorted(a: seq<Entry>, b: seq<Entry>)
    requires EachLater(a, b) && Sorted(a)
    ensures Sorted(b)
  {
    forall i, j | 0 <= i < j < |b|
      ensures b[i].serial < b[j].serial && b[i].key != b[j].key
    {
      assert Later(a[i], b[i]) && Later(a[j], b[j]);
    }
  }

  lemma EachLaterHolder(a: seq<Entry>, b: seq<Entry>, serial: nat)
    requires EachLater(a, b) && Sorted(a) && Sorted(b) && Holder(b, serial).Some?
    ensures Holder(a, serial).Some? && Later(Holder(a, serial).value, Holder(b, serial).value)
  {
    var r := Holder(b, serial).value;
    var i :| 0 <= i < |b| && b[i] == r;
    HolderIs(a, i);
  }

  lemma EachLaterRoomy(a: seq<Entry>, b: seq<Entry>)
    requires EachLater(a, b) && Roomy(a)
    ensures Roomy(b)
  {
    forall host, client
      ensures Count(b, host, client) <= MAX_PER_CLIENT
    {
      CountSameKeys(a, b, host, client);
    }
  }

  lemma InPlaceEvolves(m: Pending, entries: seq<Entry>, serial: nat)
    requires Valid(m) && EachLater(m.entries, entries) && forall e :: e in entries ==> Bounded(e)
    ensures Evolves(m, m.(entries := entries), serial)
  {
    EachLaterSorted(m.entries, entries);
    EachLaterRoomy(m.entries, entries);
    forall i | 0 <= i < |entries|
      ensures entries[i].serial < m.accepted
    {
      assert m.entries[i] in m.entries;
    }
    if Holder(entries, serial).Some? {
      EachLaterHolder(m.entries, entries, serial);
    }
  }

  lemma UpdateEvolves(m: Pending, i: nat, e: Entry, serial: nat)
    requires Valid(m) && i < |m.entries| && Later(m.entries[i], e) && Bounded(e)
    ensures Evolves(m, m.(entries := m.entries[i := e]), serial)
  {
    InPlaceEvolves(m, m.entries[i := e], serial);
  }

  lemma {:induction false} DeliverPointwise(entries: seq<Entry>, host: string, limit: nat)
    ensures |Delivered(entries, host, limit)| == |entries|
    ensures forall i :: 0 <= i < |entries| ==>
              Delivered(entries, host, limit)[i] == entries[i] || Delivered(entries, host, limit)[i] == entries[i].(delivered := true)
  {
    if entries != [] && limit != 0 {
      DeliverPointwise(entries[1..], host, if Waiting(entries[0], host) then limit - 1 else limit);
    }
  }

  lemma DeliverEvolves(m: Pending, host: string, limit: nat, serial: nat)
    requires Valid(m)
    ensures Evolves(m, m.(entries := Delivered(m.entries, host, limit)), serial)
  {
    DeliverPointwise(m.entries, host, limit);
    forall i | 0 <= i < |m.entries|
      ensures Bounded(Delivered(m.entries, host, limit)[i])
    {
      assert m.entries[i] in m.entries;
    }
    InPlaceEvolves(m, Delivered(m.entries, host, limit), serial);
  }

  lemma OfferedEntry(m: Pending, t: Pending, key: Key, envelope: Option<Envelope>, now: real)
    requires Offered(m, key, envelope, now) == Ok(t)
    ensures var e := Entry(key, m.accepted, envelope.value, None, false, [], now + 60.0);
            && t == Pending(m.entries + [e], m.accepted + 1) && Bounded(e)
            && |m.entries| < MAX_PENDING && Count(m.entries, key.host, key.client) < MAX_PER_CLIENT
            && forall o :: o in m.entries ==> o.key != key
  {
  }

  lemma AppendSorted(m: Pending, e: Entry)
    requires Sorted(m.entries) && forall o :: o in m.entries ==> o.serial < e.serial && o.key != e.key
    ensures Sorted(m.entries + [e])
  {
  }

  lemma AppendRoomy(entries: seq<Entry>, e: Entry)
    requires Roomy(entries) && |entries| < MAX_PENDING && Count(entries, e.key.host, e.key.client) < MAX_PER_CLIENT
    ensures Roomy(entries + [e])
  {
    forall host, client
      ensures Count(entries + [e], host, client) <= MAX_PER_CLIENT
    {
      CountMore(entries, e, host, client);
    }
  }

  lemma OfferEvolves(m: Pending, t: Pending, key: Key, envelope: Option<Envelope>, now: real, serial: nat)
    requires Valid(m) && serial < m.accepted && Offered(m, key, envelope, now) == Ok(t)
    ensures Evolves(m, t, serial)
  {
    OfferedEntry(m, t, key, envelope, now);
    var e := Entry(key, m.accepted, envelope.value, None, false, [], now + 60.0);
    AppendSorted(m, e);
    AppendRoomy(m.entries, e);
    assert t.entries[..|m.entries|] == m.entries && t.entries[|t.entries| - 1] == e;
    assert Holder(t.entries, serial) == Holder(m.entries, serial);
  }

  lemma AnswerEvolves(m: Pending, t: Pending, key: Key, envelope: Option<Envelope>, serial: nat)
    requires Valid(m) && Answered(m, key, envelope) == Ok(t)
    ensures Evolves(m, t, serial)
  {
    var i := Find(m.entries, key).value;
    assert m.entries[i] in m.entries;
    UpdateEvolves(m, i, m.entries[i].(answer := envelope), serial);
  }

  lemma IceEvolves(m: Pending, t: Pending, key: Key, sequence: int, envelope: Option<Envelope>, serial: nat)
    requires Valid(m) && Updated(m, key, sequence, envelope) == Ok(t)
    ensures Evolves(m, t, serial)
  {
    var i := Find(m.entries, key).value;
    assert m.entries[i] in m.entries;
    var updates := m.entries[i].updates;
    if sequence == |updates| {
      assert (updates + [envelope.value])[..|updates|] == updates;
      UpdateEvolves(m, i, m.entries[i].(updates := updates + [envelope.value]), serial);
    } else {
      UpdateEvolves(m, i, m.entries[i], serial);
      assert m.entries[i := m.entries[i]] == m.entries;
    }
  }

  // ---------------------------------------------------------------- runs

  datatype Action =
    | Expire(now: real)
    | Offer(key: Key, offer: Option<Envelope>, at: real)
    | Deliver(host: string, limit: nat)
    | Answer(key: Key, answer: Option<Envelope>)
    | Cancel(key: Key)
    | Update(key: Key, sequence: int, batch: Option<Envelope>)
    | Drop(host: string, valid: set<string>)

  function Settled(m: Pending, r: Result<Pending, Fault>): Pending {
    if r.Ok? then r.value else m
  }

  function Act(m: Pending, a: Action): Pending {
    match a
    case Expire(now) => Expired(m, now)
    case Offer(key, envelope, at) => Settled(m, Offered(m, key, envelope, at))
    case Deliver(host, limit) => m.(entries := Delivered(m.entries, host, limit))
    case Answer(key, envelope) => Settled(m, Answered(m, key, envelope))
    case Cancel(key) => Cancelled(m, key)
    case Update(key, sequence, batch) => Settled(m, Updated(m, key, sequence, batch))
    case Drop(host, valid) => Dropped(m, host, valid)
  }

  function After(m: Pending, actions: seq<Action>): Pending {
    if actions == [] then m else Act(After(m, actions[..|actions| - 1]), actions[|actions| - 1])
  }

  lemma SameEvolves(m: Pending, serial: nat)
    requires Valid(m)
    ensures Evolves(m, m, serial)
  {
  }

  lemma StepEvolves(m: Pending, a: Action, serial: nat)
    requires Valid(m) && serial < m.accepted
    ensures Evolves(m, Act(m, a), serial)
  {
    SameEvolves(m, serial);
    match a
    case Expire(now) => FilterEvolves(m, (e: Entry) => !(e.deadline < now), serial);
    case Offer(key, envelope, at) =>
      if Offered(m, key, envelope, at).Ok? {
        OfferEvolves(m, Act(m, a), key, envelope, at, serial);
      }
    case Deliver(host, limit) => DeliverEvolves(m, host, limit, serial);
    case Answer(key, envelope) =>
      if Answered(m, key, envelope).Ok? {
        AnswerEvolves(m, Act(m, a), key, envelope, serial);
      }
    case Cancel(key) => FilterEvolves(m, (e: Entry) => e.key != key, serial);
    case Update(key, sequence, batch) =>
      if Updated(m, key, sequence, batch).Ok? {
        IceEvolves(m, Act(m, a), key, sequence, batch, serial);
      }
    case Drop(host, valid) => FilterEvolves(m, (e: Entry) => !(e.key.host == host && e.key.client !in valid), serial);
  }

  /**
    The mailbox theorem: along every run an accepted offer only moves forward. Its accepted batches stay
    and keep their places, its answer and its delivery mark stay, its deadline is never extended, and all
    size limits hold; an offer that is gone does not come back.
   */
  lemma {:induction false} RunEvolves(m: Pending, actions: seq<Action>, serial: nat)
    requires Valid(m) && serial < m.accepted
    ensures Evolves(m, After(m, actions), serial)
    decreases |actions|
  {
    if actions == [] {
      SameEvolves(m, serial);
    } else {
      RunEvolves(m, actions[..|actions| - 1], serial);
      StepEvolves(After(m, actions[..|actions| - 1]), actions[|actions| - 1], serial);
    }
  }

  /** The offer now under a key, by the serial of its acceptance. */
  ghost predicate Under(m: Pending, key: Key, serial: nat) {
    var i := Find(m.entries, key);
    i.Some? && m.entries[i.value].serial == serial
  }

  function BatchesOf(m: Pending, key: Key): seq<Envelope> {
    var i := Find(m.entries, key);
    if i.Some? then m.entries[i.value].updates else []
  }

  /** The same offer under its key before and after a run. */
  lemma RunKeepsOffer(m: Pending, actions: seq<Action>, key: Key, serial: nat)
    requires Valid(m) && serial < m.accepted && Under(After(m, actions), key, serial)
    ensures Under(m, key, serial) && Valid(After(m, actions))
    ensures Later(m.entries[Find(m.entries, key).value],
                  After(m, actions).entries[Find(After(m, actions).entries, key).value])
  {
    RunEvolves(m, actions, serial);
    var t := After(m, actions);
    HolderIs(t.entries, Find(t.entries, key).value);
    var e := Holder(m.entries, serial).value;
    var i :| 0 <= i < |m.entries| && m.entries[i] == e;
    assert Find(m.entries, key).Some?;
    assert Find(m.entries, key).value == i;
  }

  // ---------------------------------------------------------------- the host's copy of the batches

  /** The host polls after each round of other requests, with `after` the number of batches it holds. */
  function HostRun(m: Pending, key: Key, rounds: seq<seq<Action>>): (Pending, seq<Envelope>)
    decreases |rounds|
  {
    if rounds == [] then (m, [])
    else
      var (before, got) := HostRun(m, key, rounds[..|rounds| - 1]);
      var t := After(before, rounds[|rounds| - 1]);
      var r := Collected(t, key, |got|);
      (t, if r.Ok? then got + r.value else got)
  }

  lemma {:induction false} RunValid(m: Pending, actions: seq<Action>)
    requires Valid(m)
    ensures Valid(After(m, actions))
    decreases |actions|
  {
    if actions != [] {
      RunValid(m, actions[..|actions| - 1]);
      StepValid(After(m, actions[..|actions| - 1]), actions[|actions| - 1]);
    }
  }

  lemma {:induction false} HostRunValid(m: Pending, key: Key, rounds: seq<seq<Action>>)
    requires Valid(m)
    ensures Valid(HostRun(m, key, rounds).0)
    decreases |rounds|
  {
    if rounds != [] {
      HostRunValid(m, key, rounds[..|rounds| - 1]);
      RunValid(HostRun(m, key, rounds[..|rounds| - 1]).0, rounds[|rounds| - 1]);
    }
  }

  /** The requests that take the offer under a key away: a guard after its deadline, a cancel, a new list of clients. */
  predicate Removes(m: Pending, key: Key, a: Action) {
    var i := Find(m.entries, key);
    i.Some? && match a
      case Expire(now) => m.entries[i.value].deadline < now
      case Cancel(k) => k == key
      case Drop(host, valid) => key.host == host && key.client !in valid
      case _ => false
  }

  datatype Removal = Expiry | Cancelling | NewList

  function RemovalOf(a: Action): Removal
    requires a.Expire? || a.Cancel? || a.Drop?
  {
    if a.Expire? then Expiry else if a.Cancel? then Cancelling else NewList
  }

  /** The requests take the offer under a key away in the listed ways only. */
  predicate Spares(kinds: set<Removal>, m: Pending, key: Key, actions: seq<Action>)
    decreases |actions|
  {
    actions == []
    || (Spares(kinds, m, key, actions[..|actions| - 1])
        && var t, a := After(m, actions[..|actions| - 1]), actions[|actions| - 1];
           Removes(t, key, a) ==> RemovalOf(a) in kinds)
  }

  predicate Undisturbed(m: Pending, key: Key, actions: seq<Action>) {
    Spares({}, m, key, actions)
  }

  /** As long as the host holds a batch, the offer goes in the listed ways only. */
  predicate Obeys(kinds: set<Removal>, m: Pending, key: Key, rounds: seq<seq<Action>>)
    decreases |rounds|
  {
    rounds == []
    || (Obeys(kinds, m, key, rounds[..|rounds| - 1])
        && var (before, got) := HostRun(m, key, rounds[..|rounds| - 1]);
           got != [] ==> Spares(kinds, before, key, rounds[|rounds| - 1]))
  }

  /** What the host has collected is a prefix of the batches of the offer that is there. */
  predicate HoldsPrefix(m: Pending, key: Key, rounds: seq<seq<Action>>) {
    HostRun(m, key, rounds).1 <= BatchesOf(HostRun(m, key, rounds).0, key)
  }

  lemma FoundAt(m: Pending, key: Key, i: nat)
    requires Sorted(m.entries) && i < |m.entries| && m.entries[i].key == key
    ensures Under(m, key, m.entries[i].serial)
  {
    FindStays(m.entries, i, m.entries[i]);
  }

  lemma FilterKeepsOffer(m: Pending, keep: Entry -> bool, key: Key, serial: nat)
    requires Valid(m) && Under(m, key, serial)
    ensures
      var i, t := Find(m.entries, key).value, m.(entries := Filter(m.entries, keep));
      if keep(m.entries[i]) then Under(t, key, serial) else Find(t.entries, key).None?
  {
    var i, kept := Find(m.entries, key).value, Filter(m.entries, keep);
    FilterMembers(m.entries, keep);
    FilterSorted(m.entries, keep);
    if keep(m.entries[i]) {
      assert m.entries[i] in kept;
      var k :| 0 <= k < |kept| && kept[k] == m.entries[i];
      FoundAt(m.(entries := kept), key, k);
    } else {
      forall k | 0 <= k < |kept|
        ensures kept[k].key != key
      {
        assert kept[k] in m.entries;
        var j :| 0 <= j < |m.entries| && m.entries[j] == kept[k];
        assert j != i;
      }
    }
  }

  lemma PlaceKeepsOffer(m: Pending, t: Pending, key: Key, serial: nat)
    requires Valid(m) && Under(m, key, serial) && Sorted(t.entries) && |m.entries| <= |t.entries|
    requires forall i :: 0 <= i < |m.entries| ==> t.entries[i].key == m.entries[i].key && t.entries[i].serial == m.entries[i].serial
    ensures Under(t, key, serial)
  {
    FoundAt(t, key, Find(m.entries, key).value);
  }

  /** Whether an offer is still under its key after a request, request by request. */
  lemma RemovedIff(m: Pending, a: Action, key: Key, serial: nat)
    requires Valid(m) && Under(m, key, serial) && serial < m.accepted
    ensures Removes(m, key, a) <==> Find(Act(m, a).entries, key).None?
    ensures !Removes(m, key, a) ==> Under(Act(m, a), key, serial)
  {
    match a
    case Expire(now) => FilterKeepsOffer(m, (e: Entry) => !(e.deadline < now), key, serial);
    case Cancel(k) => FilterKeepsOffer(m, (e: Entry) => e.key != k, key, serial);
    case Drop(host, valid) => FilterKeepsOffer(m, (e: Entry) => !(e.key.host == host && e.key.client !in valid), key, serial);
    case _ =>
      StepEvolves(m, a, serial);
      ActsInPlace(m, a);
      PlaceKeepsOffer(m, Act(m, a), key, serial);
  }

  lemma ActsInPlace(m: Pending, a: Action)
    requires a.Deliver? || a.Offer? || a.Answer? || a.Update?
    ensures
      var t := Act(m, a);
      && |m.entries| <= |t.entries|
      && forall i :: 0 <= i < |m.entries| ==> t.entries[i].key == m.entries[i].key && t.entries[i].serial == m.entries[i].serial
  {
    if a.Deliver? {
      DeliverPointwise(m.entries, a.host, a.limit);
    }
  }

  lemma {:induction false} UndisturbedKeeps(m: Pending, key: Key, actions: seq<Action>, serial: nat)
    requires Valid(m) && Under(m, key, serial) && serial < m.accepted && Undisturbed(m, key, actions)
    ensures Under(After(m, actions), key, serial)
    decreases |actions|
  {
    if actions != [] {
      var front := actions[..|actions| - 1];
      UndisturbedKeeps(m, key, front, serial);
      RunEvolves(m, front, serial);
      RemovedIff(After(m, front), actions[|actions| - 1], key, serial);
    }
  }

  /** The batches of an offer that stays only grow. */
  lemma BatchesGrow(m: Pending, key: Key, actions: seq<Action>)
    requires Valid(m) && Find(m.entries, key).Some? && Undisturbed(m, key, actions)
    ensures Find(After(m, actions).entries, key).Some? && BatchesOf(m, key) <= BatchesOf(After(m, actions), key)
  {
    var e := m.entries[Find(m.entries, key).value];
    assert e in m.entries;
    UndisturbedKeeps(m, key, actions, e.serial);
    RunKeepsOffer(m, actions, key, e.serial);
  }

  /**
    The host's copy is a prefix. Whenever and from whatever mailbox the host begins to poll, as long as no
    cancel, new client list or expiry takes the offer away once the host holds a batch of it, what it has
    collected is a prefix of the batches accepted from the client, in order and without repetition, whatever
    retries, other offers, answers and polls came in between.
   */
  lemma {:induction false} HostHoldsPrefix(m: Pending, key: Key, rounds: seq<seq<Action>>)
    requires Valid(m) && Obeys({}, m, key, rounds)
    ensures HoldsPrefix(m, key, rounds)
    decreases |rounds|
  {
    if rounds != [] {
      var front, last := rounds[..|rounds| - 1], rounds[|rounds| - 1];
      HostHoldsPrefix(m, key, front);
      HostRunValid(m, key, front);
      var (before, got) := HostRun(m, key, front);
      if got != [] {
        BatchesGrow(before, key, last);
      }
      PollKeepsPrefix(After(before, last), key, got);
    }
  }

  lemma PollKeepsPrefix(m: Pending, key: Key, got: seq<Envelope>)
    requires got <= BatchesOf(m, key)
    ensures var r := Collected(m, key, |got|); (if r.Ok? then got + r.value else got) <= BatchesOf(m, key)
  {
    if Find(m.entries, key).Some? {
      PollExtends(m, key, got);
    }
  }

  /** One poll from a prefix: always answered, and it extends the prefix by four batches or to the end. */
  lemma PollExtends(m: Pending, key: Key, got: seq<Envelope>)
    requires Find(m.entries, key).Some? && got <= BatchesOf(m, key)
    ensures var r := Collected(m, key, |got|);
            && r.Ok? && got + r.value <= BatchesOf(m, key)
            && (|r.value| == PAGE || got + r.value == BatchesOf(m, key))
  {
  }

  /** One request of each kind: a guard after the deadline, a cancel, a client list without the client. */
  function RemovalBy(kind: Removal, key: Key, now: real): Action {
    match kind
    case Expiry => Expire(now + 61.0)
    case Cancelling => Cancel(key)
    case NewList => Drop(key.host, {})
  }

  /**
    After the offer has gone in any of the three ways and a second one came under the same attempt, a host
    that goes on polling holds a batch of the first offer that is no batch of the second, and its poll is
    answered.
   */
  lemma ReofferMixesBatches(kind: Removal, key: Key, a: Envelope, b: Envelope, now: real)
    requires Small(a) && Small(b) && a != b
    ensures var (m, got) := HostRun(Pending([], 0), key, Mixing(kind, key, a, b, now));
            got == [a] && BatchesOf(m, key) == [b] && Collected(m, key, |got|) == Ok([])
    ensures Obeys({kind}, Pending([], 0), key, Mixing(kind, key, a, b, now))
  {
    HostAfterFirst(key, a, now);
    HostAfterSecond(kind, key, a, b, now);
    OneEntry(Fresh(key, 1, a, [b], now + 61.0), 2);
    MixingObeys(kind, key, a, b, now);
  }

  predicate Small(e: Envelope) {
    |e.payload| <= MAX_PAYLOAD && |e.signature| == 88
  }

  function Mixing(kind: Removal, key: Key, a: Envelope, b: Envelope, now: real): seq<seq<Action>> {
    [FirstOffer(key, a, now), SecondOffer(kind, key, a, b, now)]
  }

  lemma MixingObeys(kind: Removal, key: Key, a: Envelope, b: Envelope, now: real)
    requires Small(a) && Small(b)
    ensures Obeys({kind}, Pending([], 0), key, Mixing(kind, key, a, b, now))
  {
    var rounds := Mixing(kind, key, a, b, now);
    var r, o, u := RemovalBy(kind, key, now), Offer(key, Some(a), now + 61.0), Update(key, 0, Some(b));
    var m := Pending([Fresh(key, 0, a, [a], now)], 1);
    HostAfterFirst(key, a, now);
    assert rounds[..1] == [FirstOffer(key, a, now)] && rounds[..1][..0] == [];
    assert rounds[1] == [r, o, u];
    SparesOnlyFirst({kind}, m, key, r, o, u);
  }

  lemma SparesAlso(kinds: set<Removal>, m: Pending, key: Key, actions: seq<Action>, a: Action)
    requires Spares(kinds, m, key, actions)
    requires Removes(After(m, actions), key, a) ==> RemovalOf(a) in kinds
    ensures Spares(kinds, m, key, actions + [a])
  {
    assert (actions + [a])[..|actions|] == actions;
  }

  lemma SparesOnlyFirst(kinds: set<Removal>, m: Pending, key: Key, r: Action, o: Action, u: Action)
    requires o.Offer? && u.Update? && (Removes(m, key, r) ==> RemovalOf(r) in kinds)
    ensures Spares(kinds, m, key, [r, o, u])
  {
    SparesAlso(kinds, m, key, [], r);
    assert [] + [r] == [r] && [r] + [o] == [r, o] && [r, o] + [u] == [r, o, u];
    SparesAlso(kinds, m, key, [r], o);
    SparesAlso(kinds, m, key, [r, o], u);
  }

  /**
    The exact condition. Let a set of ways say how an offer may go once the host holds a batch of it: over all
    runs from the empty mailbox the host's copy is always a prefix if and only if the set is empty.
   */
  lemma PrefixKeptIff(kinds: set<Removal>, key: Key)
    ensures (forall rounds :: Obeys(kinds, Pending([], 0), key, rounds) ==> HoldsPrefix(Pending([], 0), key, rounds)) <==> kinds == {}
  {
    if kinds == {} {
      forall rounds | Obeys(kinds, Pending([], 0), key, rounds)
        ensures HoldsPrefix(Pending([], 0), key, rounds)
      {
        HostHoldsPrefix(Pending([], 0), key, rounds);
      }
    } else {
      var kind :| kind in kinds;
      var a, b := Envelope("", seq(88, _ => 'a')), Envelope("", seq(88, _ => 'b'));
      assert a.signature[0] != b.signature[0];
      ReofferMixesBatches(kind, key, a, b, 0.0);
      assert [a][0] != [b][0];
      assert !HoldsPrefix(Pending([], 0), key, Mixing(kind, key, a, b, 0.0));
      ObeysMore({kind}, kinds, Pending([], 0), key, Mixing(kind, key, a, b, 0.0));
    }
  }

  lemma {:induction false} SparesMore(some: set<Removal>, more: set<Removal>, m: Pending, key: Key, actions: seq<Action>)
    requires some <= more && Spares(some, m, key, actions)
    ensures Spares(more, m, key, actions)
    decreases |actions|
  {
    if actions != [] {
      SparesMore(some, more, m, key, actions[..|actions| - 1]);
    }
  }

  lemma {:induction false} ObeysMore(some: set<Removal>, more: set<Removal>, m: Pending, key: Key, rounds: seq<seq<Action>>)
    requires some <= more && Obeys(some, m, key, rounds)
    ensures Obeys(more, m, key, rounds)
    decreases |rounds|
  {
    if rounds != [] {
      var front := rounds[..|rounds| - 1];
      ObeysMore(some, more, m, key, front);
      if HostRun(m, key, front).1 != [] {
        SparesMore(some, more, HostRun(m, key, front).0, key, rounds[|rounds| - 1]);
      }
    }
  }

  lemma OneEntry(e: Entry, accepted: nat)
    ensures BatchesOf(Pending([e], accepted), e.key) == e.updates
    ensures |e.updates| == 1 ==>
              && Collected(Pending([e], accepted), e.key, 0) == Ok(e.updates)
              && Collected(Pending([e], accepted), e.key, 1) == Ok([])
  {
    assert Find([e], e.key) == Some(0);
    if |e.updates| == 1 {
      assert e.updates[0..1] == e.updates && e.updates[1..1] == [];
    }
  }

  lemma HostOneRound(m: Pending, key: Key, round: seq<Action>)
    ensures var r := Collected(After(m, round), key, 0);
            HostRun(m, key, [round]) == (After(m, round), if r.Ok? then r.value else [])
  {
    HostRunMore(m, key, [], round);
    assert [] + [round] == [round];
    var r := Collected(After(m, round), key, 0);
    assert r.Ok? ==> [] + r.value == r.value;
  }

  lemma HostAfterFirst(key: Key, a: Envelope, now: real)
    requires Small(a)
    ensures HostRun(Pending([], 0), key, [FirstOffer(key, a, now)]) == (Pending([Fresh(key, 0, a, [a], now)], 1), [a])
  {
    AfterFirstOffer(key, a, now);
    HostOneRound(Pending([], 0), key, FirstOffer(key, a, now));
    OneEntry(Fresh(key, 0, a, [a], now), 1);
  }

  lemma AfterFirstOffer(key: Key, a: Envelope, now: real)
    requires Small(a)
    ensures After(Pending([], 0), FirstOffer(key, a, now)) == Pending([Fresh(key, 0, a, [a], now)], 1)
  {
    OfferThenUpdate(0, key, a, a, now);
    RunTwo(Pending([], 0), Offer(key, Some(a), now), Update(key, 0, Some(a)));
  }

  lemma HostAfterSecond(kind: Removal, key: Key, a: Envelope, b: Envelope, now: real)
    requires Small(a) && Small(b)
    ensures HostRun(Pending([], 0), key, Mixing(kind, key, a, b, now)) == (Pending([Fresh(key, 1, a, [b], now + 61.0)], 2), [a])
  {
    HostAfterFirst(key, a, now);
    AfterReoffer(kind, key, a, b, now);
    HostRunMore(Pending([], 0), key, [FirstOffer(key, a, now)], SecondOffer(kind, key, a, b, now));
    OneEntry(Fresh(key, 1, a, [b], now + 61.0), 2);
    assert [FirstOffer(key, a, now)] + [SecondOffer(kind, key, a, b, now)] == Mixing(kind, key, a, b, now);
    assert [a] + [] == [a];
  }

  function FirstOffer(key: Key, a: Envelope, now: real): seq<Action> {
    [Offer(key, Some(a), now), Update(key, 0, Some(a))]
  }

  function SecondOffer(kind: Removal, key: Key, a: Envelope, b: Envelope, now: real): seq<Action> {
    [RemovalBy(kind, key, now), Offer(key, Some(a), now + 61.0), Update(key, 0, Some(b))]
  }

  lemma HostRunMore(m: Pending, key: Key, rounds: seq<seq<Action>>, round: seq<Action>)
    ensures var (before, got) := HostRun(m, key, rounds);
            var t := After(before, round);
            var r := Collected(t, key, |got|);
            HostRun(m, key, rounds + [round]) == (t, if r.Ok? then got + r.value else got)
  {
    assert (rounds + [round])[..|rounds|] == rounds;
  }

  lemma AfterReoffer(kind: Removal, key: Key, a: Envelope, b: Envelope, now: real)
    requires Small(a) && Small(b)
    ensures After(Pending([Fresh(key, 0, a, [a], now)], 1), SecondOffer(kind, key, a, b, now))
            == Pending([Fresh(key, 1, a, [b], now + 61.0)], 2)
  {
    var m2 := Pending([Fresh(key, 0, a, [a], now)], 1);
    OfferThenUpdate(1, key, a, b, now + 61.0);
    RemovalEmpties(kind, m2, key, now);
    RunThree(m2, RemovalBy(kind, key, now), Offer(key, Some(a), now + 61.0), Update(key, 0, Some(b)));
  }

  function Fresh(key: Key, serial: nat, offer: Envelope, updates: seq<Envelope>, now: real): Entry {
    Entry(key, serial, offer, None, false, updates, now + 60.0)
  }

  lemma OfferAlone(serial: nat, key: Key, offer: Envelope, now: real)
    requires Small(offer)
    ensures Act(Pending([], serial), Offer(key, Some(offer), now)) == Pending([Fresh(key, serial, offer, [], now)], serial + 1)
  {
    assert [] + [Fresh(key, serial, offer, [], now)] == [Fresh(key, serial, offer, [], now)];
  }

  lemma UpdateAlone(serial: nat, key: Key, offer: Envelope, batch: Envelope, now: real)
    requires Small(batch)
    ensures Act(Pending([Fresh(key, serial, offer, [], now)], serial + 1), Update(key, 0, Some(batch)))
            == Pending([Fresh(key, serial, offer, [batch], now)], serial + 1)
  {
    var e := Fresh(key, serial, offer, [], now);
    assert Find([e], key) == Some(0) && [] + [batch] == [batch] && Total([]) == 0;
    assert [e][0 := e.(updates := [batch])] == [e.(updates := [batch])];
  }

  lemma OfferThenUpdate(serial: nat, key: Key, offer: Envelope, batch: Envelope, now: real)
    requires Small(offer) && Small(batch)
    ensures Act(Act(Pending([], serial), Offer(key, Some(offer), now)), Update(key, 0, Some(batch)))
            == Pending([Fresh(key, serial, offer, [batch], now)], serial + 1)
  {
    OfferAlone(serial, key, offer, now);
    UpdateAlone(serial, key, offer, batch, now);
  }

  lemma RemovalEmpties(kind: Removal, m: Pending, key: Key, now: real)
    requires |m.entries| == 1 && m.entries[0].key == key && m.entries[0].deadline == now + 60.0
    ensures Act(m, RemovalBy(kind, key, now)) == Pending([], m.accepted)
  {
    assert m.entries[..0] == [];
    match kind
    case Expiry => FilterNothing(m.entries, (e: Entry) => !(e.deadline < now + 61.0));
    case Cancelling => FilterNothing(m.entries, (e: Entry) => e.key != key);
    case NewList => DropEmpties(m, key.host, {});
  }

  lemma DropEmpties(m: Pending, host: string, valid: set<string>)
    requires |m.entries| == 1 && m.entries[0].key.host == host && m.entries[0].key.client !in valid
    ensures Dropped(m, host, valid) == Pending([], m.accepted)
  {
    FilterNothing(m.entries, (e: Entry) => !(e.key.host == host && e.key.client !in valid));
  }

  lemma FilterNothing(entries: seq<Entry>, keep: Entry -> bool)
    requires |entries| == 1 && !keep(entries[0])
    ensures Filter(entries, keep) == []
  {
    assert entries[..0] == [] && Filter(entries[..0], keep) == [];
  }

  lemma RunTwo(m: Pending, a: Action, b: Action)
    ensures After(m, [a, b]) == Act(Act(m, a), b)
  {
    assert [a, b][..1] == [a] && [a][..0] == [];
    assert After(m, [a]) == Act(m, a);
  }

  lemma RunThree(m: Pending, a: Action, b: Action, c: Action)
    ensures After(m, [a, b, c]) == Act(Act(Act(m, a), b), c)
  {
    RunTwo(m, a, b);
    assert [a, b, c][..2] == [a, b];
  }

  lemma FindStays(entries: seq<Entry>, i: nat, e: Entry)
    requires Sorted(entries) && i < |entries| && e.key == entries[i].key
    ensures Find(entries, e.key) == Some(i) && Find(entries[i := e], e.key) == Some(i)
  {
    var b := entries[i := e];
    assert b[i].key == e.key;
    assert forall j :: 0 <= j < |b| && b[j].key == e.key ==> entries[j].key == entries[i].key && j == i;
  }

  /** An accepted batch sits where its sequence number says. */
  lemma UpdateLands(m: Pending, t: Pending, key: Key, sequence: int, batch: Envelope, serial: nat)
    requires Valid(m) && Updated(m, key, sequence, Some(batch)) == Ok(t) && Under(m, key, serial)
    ensures Under(t, key, serial) && 0 <= sequence < |BatchesOf(t, key)| && BatchesOf(t, key)[sequence] == batch
  {
    var i := Find(m.entries, key).value;
    var updates := m.entries[i].updates;
    FindStays(m.entries, i, m.entries[i].(updates := updates + [batch]));
  }

  lemma RetryDecides(m: Pending, key: Key, sequence: int, retry: Envelope)
    requires Find(m.entries, key).Some? && 0 <= sequence < |BatchesOf(m, key)| <= MAX_UPDATES
    requires |retry.payload| <= MAX_PAYLOAD && |retry.signature| == 88
    ensures Updated(m, key, sequence, Some(retry)) == if retry == BatchesOf(m, key)[sequence] then Ok(m) else Err(Conflict)
  {
  }

  /** A client that retries is told the truth: the same batch again is accepted without effect, another one is refused. */
  lemma AcceptedBatchIsFixed(m: Pending, t: Pending, key: Key, sequence: int, batch: Envelope, actions: seq<Action>, retry: Envelope)
    requires Valid(m) && Updated(m, key, sequence, Some(batch)) == Ok(t)
    requires Undisturbed(t, key, actions) && |retry.payload| <= MAX_PAYLOAD && |retry.signature| == 88
    ensures Updated(After(t, actions), key, sequence, Some(retry))
            == if retry == batch then Ok(After(t, actions)) else Err(Conflict)
  {
    assert m.entries[Find(m.entries, key).value] in m.entries;
    var serial := m.entries[Find(m.entries, key).value].serial;
    IceEvolves(m, t, key, sequence, Some(batch), serial);
    UpdateLands(m, t, key, sequence, batch, serial);
    UndisturbedKeeps(t, key, actions, serial);
    RunKeepsOffer(t, actions, key, serial);
    var u := After(t, actions);
    assert u.entries[Find(u.entries, key).value] in u.entries;
    RetryDecides(u, key, sequence, retry);
  }

  /** The answer is written once: it is what the client reads from then on, and a second answer is refused. */
  lemma AnswerIsFixed(m: Pending, t: Pending, key: Key, answer: Envelope, actions: seq<Action>, other: Option<Envelope>)
    requires Valid(m) && Answered(m, key, Some(answer)) == Ok(t) && Undisturbed(t, key, actions)
    ensures AnswerOf(After(t, actions), key) == Ok(Some(answer))
    ensures Answered(After(t, actions), key, other) == Err(Conflict)
  {
    var i := Find(m.entries, key).value;
    assert m.entries[i] in m.entries;
    var serial := m.entries[i].serial;
    AnswerEvolves(m, t, key, Some(answer), serial);
    FindStays(m.entries, i, m.entries[i].(answer := Some(answer)));
    UndisturbedKeeps(t, key, actions, serial);
    RunKeepsOffer(t, actions, key, serial);
  }

  /** No offer outlives its minute: the first guard after the deadline removes it, for good. */
  lemma NoOfferOutlivesItsMinute(
    m: Pending, t: Pending, key: Key, offer: Option<Envelope>, at: real, actions: seq<Action>, now: real, more: seq<Action>)
    requires Valid(m) && Offered(m, key, offer, at) == Ok(t) && now > at + 60.0
    ensures Holder(After(Expired(After(t, actions), now), more).entries, m.accepted) == None
  {
    OfferedEntry(m, t, key, offer, at);
    var e := t.entries[|m.entries|];
    AppendSorted(m, e);
    AppendRoomy(m.entries, e);
    HolderIs(t.entries, |m.entries|);
    RunEvolves(t, actions, m.accepted);
    var u := After(t, actions);
    FilterEvolves(u, (o: Entry) => !(o.deadline < now), m.accepted);
    FilterMembers(u.entries, (o: Entry) => !(o.deadline < now));
    assert Holder(Expired(u, now).entries, m.accepted) == None;
    RunEvolves(Expired(u, now), more, m.accepted);
  }

  // ---------------------------------------------------------------- delivery

  function Serials(entries: seq<Entry>): seq<nat> {
    seq(|entries|, i requires 0 <= i < |entries| => entries[i].serial)
  }

  /** The serials handed to a host along a run. */
  function Handed(m: Pending, actions: seq<Action>, host: string): seq<nat>
    decreases |actions|
  {
    if actions == [] then []
    else
      var a := actions[|actions| - 1];
      Handed(m, actions[..|actions| - 1], host) + HandedBy(After(m, actions[..|actions| - 1]), a, host)
  }

  ghost predicate Rising(s: seq<nat>) {
    forall i, j :: 0 <= i < j < |s| ==> s[i] < s[j]
  }

  ghost predicate Above(m: Pending, host: string, serial: nat) {
    forall e :: e in m.entries && Waiting(e, host) ==> serial < e.serial
  }

  lemma StepKeepsAbove(m: Pending, a: Action, host: string, serial: nat)
    requires Valid(m) && serial < m.accepted && Above(m, host, serial)
    ensures Above(Act(m, a), host, serial)
  {
    StepEvolves(m, a, serial);
    var t := Act(m, a);
    forall e | e in t.entries && Waiting(e, host)
      ensures serial < e.serial
    {
      if e.serial < m.accepted {
        StepEvolves(m, a, e.serial);
        var i :| 0 <= i < |t.entries| && t.entries[i] == e;
        HolderIs(t.entries, i);
      }
    }
  }

  lemma {:induction false} DeliverSerials(entries: seq<Entry>, host: string, limit: nat)
    ensures forall e :: e in Delivered(entries, host, limit) ==> exists o :: o in entries && o.serial == e.serial
  {
    DeliverPointwise(entries, host, limit);
    forall e | e in Delivered(entries, host, limit)
      ensures exists o :: o in entries && o.serial == e.serial
    {
      var i :| 0 <= i < |entries| && Delivered(entries, host, limit)[i] == e;
      assert entries[i] in entries;
    }
  }

  lemma {:induction false} PickedFrom(entries: seq<Entry>, host: string, limit: nat)
    ensures forall p :: p in Picked(entries, host, limit) ==> p in entries && Waiting(p, host)
  {
    if entries != [] && limit != 0 {
      PickedFrom(entries[1..], host, if Waiting(entries[0], host) then limit - 1 else limit);
    }
  }

  lemma {:induction false} PickedRises(entries: seq<Entry>, host: string, limit: nat)
    requires Sorted(entries)
    ensures Rising(Serials(Picked(entries, host, limit)))
  {
    if entries != [] && limit != 0 {
      var rest, left := entries[1..], if Waiting(entries[0], host) then limit - 1 else limit;
      PickedRises(rest, host, left);
      PickedFrom(rest, host, left);
      var more := Picked(rest, host, left);
      forall i | 0 <= i < |more|
        ensures entries[0].serial < more[i].serial
      {
        assert more[i] in rest;
      }
      assert Serials([entries[0]] + more) == [entries[0].serial] + Serials(more);
    }
  }

  /** Offers are picked oldest first: whatever still waits afterwards is younger than all of them. */
  lemma {:induction false} PickedBelow(entries: seq<Entry>, host: string, limit: nat, p: Entry, e: Entry)
    requires Sorted(entries) && p in Picked(entries, host, limit)
    requires e in Delivered(entries, host, limit) && Waiting(e, host)
    ensures p.serial < e.serial
    decreases |entries|
  {
    var head, rest := entries[0], entries[1..];
    var left := if Waiting(head, host) then limit - 1 else limit;
    DeliverHead(entries, host, limit);
    if e in Delivered(rest, host, left) {
      DeliverSerials(rest, host, left);
      var o :| o in rest && o.serial == e.serial;
      if p in Picked(rest, host, left) {
        PickedBelow(rest, host, left, p, e);
      }
    }
  }

  lemma RisingConcat(a: seq<nat>, b: seq<nat>)
    requires Rising(a) && Rising(b) && forall x, y :: x in a && y in b ==> x < y
    ensures Rising(a + b)
  {
    forall i, j | 0 <= i < j < |a + b|
      ensures (a + b)[i] < (a + b)[j]
    {
      if i < |a| <= j {
        assert a[i] in a && b[j - |a|] in b;
      }
    }
  }

  ghost predicate Delivering(m: Pending, host: string, log: seq<nat>) {
    Valid(m) && Rising(log) && forall d :: d in log ==> d < m.accepted && Above(m, host, d)
  }

  function HandedBy(m: Pending, a: Action, host: string): seq<nat> {
    if a.Deliver? && a.host == host then Serials(Picked(m.entries, host, a.limit)) else []
  }

  /**
    First come, first served, and once: along every run the offers handed to a host come in the order of
    their acceptance, so none is handed out twice, and no older one is left waiting.
   */
  lemma {:induction false} DeliveredInOrderOnce(m: Pending, actions: seq<Action>, host: string)
    requires Valid(m)
    ensures Delivering(After(m, actions), host, Handed(m, actions, host))
    decreases |actions|
  {
    if actions != [] {
      var front, a := actions[..|actions| - 1], actions[|actions| - 1];
      DeliveredInOrderOnce(m, front, host);
      DeliveryStep(After(m, front), a, host, Handed(m, front, host));
    }
  }

  lemma DeliveryStep(m: Pending, a: Action, host: string, log: seq<nat>)
    requires Delivering(m, host, log)
    ensures Delivering(Act(m, a), host, log + HandedBy(m, a, host))
  {
    StepValid(m, a);
    forall d | d in log
      ensures Above(Act(m, a), host, d)
    {
      StepKeepsAbove(m, a, host, d);
    }
    if a.Deliver? && a.host == host {
      DeliverStep(m, host, a.limit, log);
    } else {
      assert log + [] == log;
    }
  }

  lemma DeliverStep(m: Pending, host: string, limit: nat, log: seq<nat>)
    requires Delivering(m, host, log)
    ensures var t, more := m.(entries := Delivered(m.entries, host, limit)), Serials(Picked(m.entries, host, limit));
            Rising(log + more) && forall d :: d in more ==> d < m.accepted && Above(t, host, d)
  {
    var t, picked := m.(entries := Delivered(m.entries, host, limit)), Picked(m.entries, host, limit);
    PickedFrom(m.entries, host, limit);
    PickedRises(m.entries, host, limit);
    forall d | d in Serials(picked)
      ensures d < m.accepted && Above(t, host, d) && forall x :: x in log ==> x < d
    {
      var i :| 0 <= i < |picked| && Serials(picked)[i] == d;
      assert picked[i] in picked && picked[i] in m.entries;
      forall e | e in t.entries && Waiting(e, host)
        ensures d < e.serial
      {
        PickedBelow(m.entries, host, limit, picked[i], e);
      }
      assert forall x :: x in log ==> Above(m, host, x);
    }
    RisingConcat(log, Serials(picked));
  }

  lemma StepValid(m: Pending, a: Action)
    requires Valid(m)
    ensures Valid(Act(m, a)) && m.accepted <= Act(m, a).accepted
  {
    assert m.entries != [] ==> m.entries[0] in m.entries && m.entries[0].serial < m.accepted;
    if m.accepted > 0 {
      StepEvolves(m, a, 0);
    } else {
      assert m.entries == [];
      if a.Offer? && Offered(m, a.key, a.offer, a.at).Ok? {
        OfferedEntry(m, Act(m, a), a.key, a.offer, a.at);
        var e := Entry(a.key, m.accepted, a.offer.value, None, false, [], a.at + 60.0);
        AppendSorted(m, e);
        AppendRoomy(m.entries, e);
      }
    }
  }
}
