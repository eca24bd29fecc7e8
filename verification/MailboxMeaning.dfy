/** What each request to the mailbox is answered, and what exactly it changes. */
module MailboxMeaning {
  import opened Results
  import opened Mailbox

  /** The one entry under a key, if there is one. */
  ghost predicate At(entries: seq<Entry>, key: Key, i: nat) {
    i < |entries| && entries[i].key == key
  }

  ghost predicate Absent(entries: seq<Entry>, key: Key) {
    forall e :: e in entries ==> e.key != key
  }

  /** A well-formed envelope: its parts have the sizes of a sealed one. */
  predicate WellSized(e: Option<Envelope>) {
    e.Some? && |e.value.payload| <= 90000 && |e.value.signature| == 88
  }

  function OffersOf(entries: seq<Entry>, host: string, client: string): set<nat> {
    set i: nat | i < |entries| && entries[i].key.host == host && entries[i].key.client == client
  }

  /** The number counted for a client is that of its offers. */
  lemma {:induction false} CountIs(entries: seq<Entry>, host: string, client: string)
    ensures Count(entries, host, client) == |OffersOf(entries, host, client)|
  {
    if entries != [] {
      var k := |entries| - 1;
      CountIs(entries[..k], host, client);
      var mine := entries[k].key.host == host && entries[k].key.client == client;
      assert OffersOf(entries, host, client) == OffersOf(entries[..k], host, client) + if mine then {k} else {};
    }
  }

  /** The size counted for an offer is that of its batches laid end to end. */
  function Joined(updates: seq<Envelope>): string {
    if updates == [] then "" else updates[0].payload + Joined(updates[1..])
  }

  lemma {:induction false} TotalIs(updates: seq<Envelope>)
    ensures Total(updates) == |Joined(updates)|
    decreases |updates|
  {
    if updates != [] {
      TotalOfRest(updates);
      TotalIs(updates[1..]);
    }
  }

  lemma {:induction false} TotalOfRest(updates: seq<Envelope>)
    requires updates != []
    ensures Total(updates) == |updates[0].payload| + Total(updates[1..])
    decreases |updates|
  {
    var front := updates[..|updates| - 1];
    if front != [] {
      TotalOfRest(front);
      assert updates[1..][..|updates[1..]| - 1] == front[1..];
    } else {
      assert Total(front) == 0;
    }
  }

  lemma FindIs(entries: seq<Entry>, key: Key, i: nat)
    requires Sorted(entries)
    ensures Find(entries, key) == Some(i) <==> At(entries, key, i)
    ensures Find(entries, key).None? <==> Absent(entries, key)
  {
    if Find(entries, key).Some? {
      assert entries[Find(entries, key).value] in entries;
    }
  }

  // ---------------------------------------------------------------- offers

  /** An offer is taken exactly under a free key, with room for it, and sealed; then it stands behind the others. */
  lemma OfferIs(m: Pending, key: Key, envelope: Option<Envelope>, now: real)
    requires Valid(m)
    ensures
      var r := Offered(m, key, envelope, now);
      var room := |m.entries| < 128 && |OffersOf(m.entries, key.host, key.client)| < 12;
      if !Absent(m.entries, key) then r == Err(Conflict)
      else if !room then r == Err(Unavailable)
      else if !WellSized(envelope) then r == Err(BadRequest)
      else
        && r.Ok? && r.value.accepted == m.accepted + 1 && r.value.entries[..|m.entries|] == m.entries
        && r.value.entries[|m.entries|..] == [Entry(key, m.accepted, envelope.value, None, false, [], now + 60.0)]
  {
    CountIs(m.entries, key.host, key.client);
    FindIs(m.entries, key, 0);
  }

  // ---------------------------------------------------------------- delivery

  /** How many offers wait for the host before a place. */
  function Ahead(entries: seq<Entry>, host: string, i: nat): nat
    requires i <= |entries|
  {
    if i == 0 then 0
    else (if entries[0].key.host == host && !entries[0].delivered then 1 else 0) + Ahead(entries[1..], host, i - 1)
  }

  /**
    A delivery hands out the oldest waiting offers of the host, as many as there are up to the limit, in their
    order, and marks exactly those.
   */
  lemma {:induction false} DeliveryIs(entries: seq<Entry>, host: string, limit: nat, i: nat)
    requires i < |entries|
    ensures
      var after, handed, place := Delivered(entries, host, limit), Picked(entries, host, limit), Ahead(entries, host, i);
      var chosen := entries[i].key.host == host && !entries[i].delivered && place < limit;
      && |after| == |entries| && after[i] == (if chosen then entries[i].(delivered := true) else entries[i])
      && (chosen ==> place < |handed| && handed[place] == entries[i])
    decreases |entries|
  {
    if limit > 0 {
      var rest := entries[1..];
      DeliverHead(entries, host, limit);
      if i > 0 {
        DeliveryIs(rest, host, if Waiting(entries[0], host) then limit - 1 else limit, i - 1);
      } else {
        DeliveredLength(rest, host, if Waiting(entries[0], host) then limit - 1 else limit);
      }
    }
  }

  lemma {:induction false} DeliveredLength(entries: seq<Entry>, host: string, limit: nat)
    ensures |Delivered(entries, host, limit)| == |entries|
    ensures |Picked(entries, host, limit)| == Min(limit, Ahead(entries, host, |entries|))
    decreases |entries|
  {
    if entries != [] && limit > 0 {
      DeliverHead(entries, host, limit);
      DeliveredLength(entries[1..], host, if Waiting(entries[0], host) then limit - 1 else limit);
    }
  }

  function Min(a: nat, b: nat): nat {
    if a < b then a else b
  }

  // ---------------------------------------------------------------- answers and batches

  /** Only the entry at one place is different. */
  ghost predicate OnlyAt(m: Pending, t: Pending, i: nat, e: Entry) {
    && i < |m.entries| == |t.entries| && t.entries[i] == e && t.accepted == m.accepted
    && forall j :: 0 <= j < |m.entries| && j != i ==> t.entries[j] == m.entries[j]
  }

  /** An answer is taken exactly for an offer without one, and sealed. */
  lemma AnswerIs(m: Pending, key: Key, envelope: Option<Envelope>, i: nat)
    requires Valid(m)
    ensures Absent(m.entries, key) ==> Answered(m, key, envelope) == Err(Conflict)
    ensures At(m.entries, key, i) ==>
              var r := Answered(m, key, envelope);
              if m.entries[i].answer.Some? then r == Err(Conflict)
              else if !WellSized(envelope) then r == Err(BadRequest)
              else r.Ok? && OnlyAt(m, r.value, i, m.entries[i].(answer := envelope))
  {
    FindIs(m.entries, key, i);
  }

  /**
    A batch is taken exactly in its turn and within the limits, and then stands behind the others; one of an
    earlier turn is welcome only if it is the batch of that turn, and changes nothing.
   */
  lemma UpdateIs(m: Pending, key: Key, sequence: int, envelope: Option<Envelope>, i: nat)
    requires Valid(m)
    ensures Absent(m.entries, key) ==> Updated(m, key, sequence, envelope) == Err(NotFound)
    ensures At(m.entries, key, i) ==>
              var r := Updated(m, key, sequence, envelope);
              var updates := m.entries[i].updates;
              if !(0 <= sequence < 128) || !WellSized(envelope) then r == Err(BadRequest)
              else if |envelope.value.payload| > 16000 then r == Err(TooLarge)
              else if sequence < |updates| then r == if updates[sequence] == envelope.value then Ok(m) else Err(Conflict)
              else if sequence > |updates| then r == Err(Conflict)
              else if |Joined(updates + [envelope.value])| > 131072 then r == Err(TooLarge)
              else r.Ok? && OnlyAt(m, r.value, i, m.entries[i].(updates := updates + [envelope.value]))
  {
    FindIs(m.entries, key, i);
    if At(m.entries, key, i) && envelope.Some? {
      var updates := m.entries[i].updates;
      TotalIs(updates + [envelope.value]);
      assert (updates + [envelope.value])[..|updates|] == updates;
    }
  }

  /** A poll from a known place is answered with the batches behind it, at most four. */
  lemma CollectIs(m: Pending, key: Key, after: int, i: nat)
    requires Valid(m)
    ensures Absent(m.entries, key) ==> Collected(m, key, after) == Err(NotFound) && AnswerOf(m, key) == Err(NotFound)
    ensures At(m.entries, key, i) ==>
              var r := Collected(m, key, after);
              var updates := m.entries[i].updates;
              && AnswerOf(m, key) == Ok(m.entries[i].answer)
              && if !(0 <= after <= |updates|) then r == Err(BadRequest)
                 else
                   && r.Ok? && r.value <= updates[after..] && |r.value| <= 4
                   && (|r.value| == 4 || r.value == updates[after..])
  {
    FindIs(m.entries, key, i);
  }
}
