/** Which messages one extraction job is given: a bounded window over the eligible messages. */
module Batching {
  import opened Results
  import opened Domain

  const LOOKBACK_MS := 48 * 60 * 60 * 1000
  const MESSAGE_CHARS := 2500
  const BATCH_CHARS := 5000
  const BATCH_MESSAGES := 6
  const EXCERPT_MARK := "\n[Input excerpt ends here; remaining text was not supplied.]"

  predicate Recent(m: Message, now: int) {
    && m.timestamp.Some? && m.timestamp.value.millis.Some?
    && now - LOOKBACK_MS <= m.timestamp.value.millis.value <= now
  }

  predicate Eligible(m: Message, now: int) {
    !m.role.OtherRole? && Recent(m, now)
  }

  function Chars(m: Message): nat {
    if |m.text| < MESSAGE_CHARS then |m.text| else MESSAGE_CHARS
  }

  /** The text handed to the model: long messages are cut and marked. */
  function Excerpt(m: Message): (r: Message)
    ensures r == m.(text := r.text) && m.text[..Chars(m)] <= r.text
    ensures |m.text| <= MESSAGE_CHARS ==> r == m
  {
    if |m.text| > MESSAGE_CHARS then m.(text := m.text[..MESSAGE_CHARS] + EXCERPT_MARK) else m
  }

  function TotalChars(log: seq<Message>, picked: seq<nat>): nat
    requires forall i :: 0 <= i < |picked| ==> picked[i] < |log|
  {
    if picked == [] then 0
    else TotalChars(log, picked[..|picked| - 1]) + Chars(log[picked[|picked| - 1]])
  }

  /** `picked` are eligible messages in log order. */
  ghost predicate Picked(log: seq<Message>, now: int, picked: seq<nat>) {
    && (forall i :: 0 <= i < |picked| ==> picked[i] < |log| && Eligible(log[picked[i]], now))
    && (forall i, j :: 0 <= i < j < |picked| ==> picked[i] < picked[j])
  }

  /** Every eligible message from `lo` to `hi` is picked. */
  ghost predicate Covers(log: seq<Message>, now: int, lo: nat, hi: nat, picked: seq<nat>)
    requires hi <= |log|
  {
    forall i: nat {:trigger i in picked} :: lo <= i < hi && Eligible(log[i], now) ==> i in picked
  }

  ghost predicate NoneEligible(log: seq<Message>, now: int, lo: nat, hi: nat)
    requires hi <= |log|
  {
    forall i: nat :: lo <= i < hi ==> !Eligible(log[i], now)
  }

  /** `j` is the first eligible message at or after `from`. */
  ghost predicate NextEligible(log: seq<Message>, now: int, from: nat, j: nat) {
    && from <= j < |log| && Eligible(log[j], now)
    && NoneEligible(log, now, from, j)
  }

  /** Only the newest eligible message already extracted leads the batch, and it does when there is one. */
  ghost predicate Overlaps(log: seq<Message>, extracted: nat, now: int, picked: seq<nat>)
    requires extracted <= |log| && picked != []
  {
    && (forall i :: 0 < i < |picked| ==> extracted <= picked[i])
    && (picked[0] < extracted ==> NoneEligible(log, now, picked[0] + 1, extracted))
    && (extracted <= picked[0] ==> NoneEligible(log, now, 0, extracted))
  }

  /** The batch stops only where the next eligible message would not fit. */
  ghost predicate Maximal(log: seq<Message>, now: int, picked: seq<nat>, end: nat)
    requires Picked(log, now, picked)
  {
    forall j: nat :: NextEligible(log, now, end, j) ==>
      |picked| == BATCH_MESSAGES || TotalChars(log, picked) + Chars(log[j]) > BATCH_CHARS
  }

  /** The batch for the messages from `extracted` on: `picked` are the supplied ones, `end` the new count. */
  ghost predicate IsBatch(log: seq<Message>, extracted: nat, now: int, picked: seq<nat>, end: nat)
    requires extracted <= |log|
  {
    && Picked(log, now, picked)
    && 1 <= |picked| <= BATCH_MESSAGES
    && TotalChars(log, picked) <= BATCH_CHARS
    && extracted < end <= |log| && end == picked[|picked| - 1] + 1
    && Overlaps(log, extracted, now, picked)
    && Covers(log, now, extracted, end, picked)
    && Maximal(log, now, picked, end)
  }

  method EligibleIndexes(log: seq<Message>, now: int) returns (eligible: seq<nat>)
    ensures Picked(log, now, eligible)
    ensures Covers(log, now, 0, |log|, eligible)
  {
    eligible := [];
    for i := 0 to |log|
      invariant Picked(log, now, eligible)
      invariant forall j :: 0 <= j < |eligible| ==> eligible[j] < i
      invariant Covers(log, now, 0, i, eligible)
    {
      if Eligible(log[i], now) {
        eligible := eligible + [i];
      }
    }
  }

  /** The position of the first message at or after `extracted`. */
  method FirstNew(eligible: seq<nat>, extracted: nat) returns (first: nat)
    ensures first <= |eligible|
    ensures forall i :: 0 <= i < first ==> eligible[i] < extracted
    ensures first < |eligible| ==> extracted <= eligible[first]
  {
    first := 0;
    while first < |eligible| && eligible[first] < extracted
      invariant 0 <= first <= |eligible|
      invariant forall i :: 0 <= i < first ==> eligible[i] < extracted
    {
      first := first + 1;
    }
  }

  function Start(first: nat): nat {
    if first == 0 then 0 else first - 1
  }

  /** The window the selection ends with: from the overlap up to, not including, position `k`. */
  ghost predicate Window(log: seq<Message>, extracted: nat, eligible: seq<nat>, first: nat, k: nat)
    requires forall i :: 0 <= i < |eligible| ==> eligible[i] < |log|
  {
    && first < k <= |eligible| && extracted <= eligible[first]
    && (forall i :: 0 <= i < first ==> eligible[i] < extracted)
    && k - Start(first) <= BATCH_MESSAGES
    && TotalChars(log, eligible[Start(first)..k]) <= BATCH_CHARS
    && (k < |eligible| ==>
          k - Start(first) == BATCH_MESSAGES
          || TotalChars(log, eligible[Start(first)..k]) + Chars(log[eligible[k]]) > BATCH_CHARS)
  }

  method Grow(log: seq<Message>, extracted: nat, eligible: seq<nat>, first: nat)
    returns (input: seq<nat>, end: nat, k: nat)
    requires forall i :: 0 <= i < |eligible| ==> eligible[i] < |log|
    requires forall i, j :: 0 <= i < j < |eligible| ==> eligible[i] < eligible[j]
    requires first < |eligible| && extracted <= eligible[first]
    requires forall i :: 0 <= i < first ==> eligible[i] < extracted
    ensures Window(log, extracted, eligible, first, k)
    ensures input == eligible[Start(first)..k] && end == eligible[k - 1] + 1
  {
    var chars := 0;
    end := extracted;
    input := [];
    var at := Start(first);
    while at < |eligible|
      invariant Start(first) <= at <= |eligible|
      invariant input == eligible[Start(first)..at]
      invariant chars == TotalChars(log, input)
      invariant at == Start(first) ==> end == extracted
      invariant at > Start(first) ==> end == eligible[at - 1] + 1
      invariant at <= first ==> chars <= MESSAGE_CHARS && |input| <= 1
      invariant at > first ==> |input| <= BATCH_MESSAGES && chars <= BATCH_CHARS
    {
      var index := eligible[at];
      var n := Chars(log[index]);
      if index >= extracted && input != [] && end > extracted && (|input| >= BATCH_MESSAGES || chars + n > BATCH_CHARS) {
        break;
      }
      assert eligible[Start(first)..at + 1] == input + [index];
      assert (input + [index])[..|input|] == input;
      chars, end, input := chars + n, index + 1, input + [index];
      at := at + 1;
    }
    k := at;
  }

  /** The selection of `extract_scoped`: no batch exactly when nothing new is eligible. */
  method SelectBatch(log: seq<Message>, extracted: nat, now: int) returns (r: Option<(seq<nat>, nat)>)
    requires extracted <= |log|
    ensures r.None? <==> NoneEligible(log, now, extracted, |log|)
    ensures r.Some? ==> IsBatch(log, extracted, now, r.value.0, r.value.1)
  {
    var eligible := EligibleIndexes(log, now);
    var first := FirstNew(eligible, extracted);
    if first == |eligible| {
      assert forall i: nat :: i in eligible ==> i < extracted;
      assert forall i: nat {:trigger log[i]} :: extracted <= i < |log| ==> i !in eligible;
      return None;
    }
    assert Eligible(log[eligible[first]], now);
    var input, end, k := Grow(log, extracted, eligible, first);
    WindowIsBatch(log, extracted, now, eligible, first, k);
    return Some((input, end));
  }

  lemma WindowCovers(log: seq<Message>, extracted: nat, now: int, eligible: seq<nat>, first: nat, k: nat)
    requires extracted <= |log| && Picked(log, now, eligible) && Covers(log, now, 0, |log|, eligible)
    requires Window(log, extracted, eligible, first, k)
    ensures Covers(log, now, extracted, eligible[k - 1] + 1, eligible[Start(first)..k])
  {
    var input := eligible[Start(first)..k];
    forall i: nat | extracted <= i < eligible[k - 1] + 1 && Eligible(log[i], now)
      ensures i in input
    {
      assert i in eligible;
      var p :| 0 <= p < |eligible| && eligible[p] == i;
      assert input[p - Start(first)] == i;
    }
  }

  lemma WindowOverlaps(log: seq<Message>, extracted: nat, now: int, eligible: seq<nat>, first: nat, k: nat)
    requires extracted <= |log| && Picked(log, now, eligible) && Covers(log, now, 0, |log|, eligible)
    requires Window(log, extracted, eligible, first, k)
    ensures Overlaps(log, extracted, now, eligible[Start(first)..k])
  {
    var lo := if first == 0 then 0 else eligible[first - 1] + 1;
    forall i: nat | lo <= i < extracted
      ensures !Eligible(log[i], now)
    {
      assert i !in eligible;
    }
  }

  lemma WindowMaximal(log: seq<Message>, extracted: nat, now: int, eligible: seq<nat>, first: nat, k: nat)
    requires extracted <= |log| && Picked(log, now, eligible) && Covers(log, now, 0, |log|, eligible)
    requires Window(log, extracted, eligible, first, k)
    ensures Maximal(log, now, eligible[Start(first)..k], eligible[k - 1] + 1)
  {
    var input := eligible[Start(first)..k];
    forall j: nat | NextEligible(log, now, eligible[k - 1] + 1, j)
      ensures |input| == BATCH_MESSAGES || TotalChars(log, input) + Chars(log[j]) > BATCH_CHARS
    {
      NextIsNext(log, now, eligible, k, j);
    }
  }

  /** The first eligible message behind a listed one is the next listed one. */
  lemma NextIsNext(log: seq<Message>, now: int, eligible: seq<nat>, k: nat, j: nat)
    requires Picked(log, now, eligible) && Covers(log, now, 0, |log|, eligible)
    requires 0 < k <= |eligible| && NextEligible(log, now, eligible[k - 1] + 1, j)
    ensures k < |eligible| && eligible[k] == j
  {
    assert j in eligible;
    var p :| 0 <= p < |eligible| && eligible[p] == j;
    assert p >= k;
    FirstIsLeast(log, now, eligible[k - 1] + 1, j, eligible[k]);
  }

  lemma FirstIsLeast(log: seq<Message>, now: int, from: nat, j: nat, i: nat)
    requires NextEligible(log, now, from, j) && from <= i < |log| && Eligible(log[i], now)
    ensures j <= i
  {
  }

  lemma PickedSlice(log: seq<Message>, now: int, picked: seq<nat>, lo: nat, hi: nat)
    requires Picked(log, now, picked) && lo <= hi <= |picked|
    ensures Picked(log, now, picked[lo..hi])
  {
  }

  lemma WindowIsBatch(log: seq<Message>, extracted: nat, now: int, eligible: seq<nat>, first: nat, k: nat)
    requires extracted <= |log| && Picked(log, now, eligible) && Covers(log, now, 0, |log|, eligible)
    requires Window(log, extracted, eligible, first, k)
    ensures IsBatch(log, extracted, now, eligible[Start(first)..k], eligible[k - 1] + 1)
  {
    var input := eligible[Start(first)..k];
    PickedSlice(log, now, eligible, Start(first), k);
    WindowShape(log, extracted, eligible, first, k);
    WindowCovers(log, extracted, now, eligible, first, k);
    WindowOverlaps(log, extracted, now, eligible, first, k);
    WindowMaximal(log, extracted, now, eligible, first, k);
    PartsMakeBatch(log, extracted, now, input, eligible[k - 1] + 1);
  }

  lemma WindowShape(log: seq<Message>, extracted: nat, eligible: seq<nat>, first: nat, k: nat)
    requires (forall i :: 0 <= i < |eligible| ==> eligible[i] < |log|) && forall i, j :: 0 <= i < j < |eligible| ==> eligible[i] < eligible[j]
    requires Window(log, extracted, eligible, first, k)
    ensures var input := eligible[Start(first)..k];
            && 1 <= |input| <= BATCH_MESSAGES && input[|input| - 1] == eligible[k - 1]
            && extracted < eligible[k - 1] + 1 <= |log| && TotalChars(log, input) <= BATCH_CHARS
  {
  }

  lemma PartsMakeBatch(log: seq<Message>, extracted: nat, now: int, picked: seq<nat>, end: nat)
    requires extracted <= |log| && Picked(log, now, picked) && 1 <= |picked| <= BATCH_MESSAGES
    requires TotalChars(log, picked) <= BATCH_CHARS && extracted < end <= |log| && end == picked[|picked| - 1] + 1
    requires Overlaps(log, extracted, now, picked) && Covers(log, now, extracted, end, picked) && Maximal(log, now, picked, end)
    ensures IsBatch(log, extracted, now, picked, end)
  {
  }

  /** A batch is fully determined: two selections for the same log, count and time are the same. */
  lemma BatchUnique(log: seq<Message>, extracted: nat, now: int, a: seq<nat>, aEnd: nat, b: seq<nat>, bEnd: nat)
    requires extracted <= |log|
    requires IsBatch(log, extracted, now, a, aEnd) && IsBatch(log, extracted, now, b, bEnd)
    ensures a == b && aEnd == bEnd
  {
    if aEnd <= bEnd {
      BatchPrefix(log, extracted, now, a, aEnd, b, bEnd);
    } else {
      BatchPrefix(log, extracted, now, b, bEnd, a, aEnd);
    }
  }

  /** Two pickings that cover the same stretch agree on what lies in it, message by message. */
  lemma {:induction false} SamePrefix(log: seq<Message>, now: int, a: seq<nat>, b: seq<nat>, lo: nat, hi: nat, n: nat)
    requires hi <= |log| && Picked(log, now, a) && Picked(log, now, b)
    requires 1 <= n <= |a| && n <= |b| && a[0] == b[0]
    requires forall i :: 0 < i < |a| ==> lo <= a[i]
    requires forall i :: 0 < i < |b| ==> lo <= b[i]
    requires n > 1 ==> a[n - 1] < hi
    requires Covers(log, now, lo, hi, a) && Covers(log, now, lo, hi, b)
    ensures a[..n] == b[..n]
    ensures forall p :: 0 <= p < n ==> a[p] == b[p]
  {
    if n > 1 {
      SamePrefix(log, now, a, b, lo, hi, n - 1);
      assert a[n - 1] in b;
      assert b[n - 1] <= a[n - 1] && Eligible(log[b[n - 1]], now);
      assert b[n - 1] in a;
    }
  }

  /** Between two neighbours of a covering picking nothing is eligible. */
  lemma NextPicked(log: seq<Message>, now: int, picked: seq<nat>, lo: nat, hi: nat, n: nat)
    requires hi <= |log| && Picked(log, now, picked) && Covers(log, now, lo, hi, picked)
    requires 0 < n < |picked| && lo <= picked[n - 1] + 1 && picked[n] < hi
    ensures NextEligible(log, now, picked[n - 1] + 1, picked[n])
  {
    forall i: nat | picked[n - 1] + 1 <= i < picked[n]
      ensures !Eligible(log[i], now)
    {
      assert i !in picked;
    }
  }

  /** A maximal batch has no proper extension that still fits. */
  lemma NoLonger(log: seq<Message>, now: int, a: seq<nat>, aEnd: nat, b: seq<nat>)
    requires Picked(log, now, a) && Picked(log, now, b) && Maximal(log, now, a, aEnd)
    requires |a| < |b| && a == b[..|a|] && NextEligible(log, now, aEnd, b[|a|])
    ensures BATCH_MESSAGES < |b| || BATCH_CHARS < TotalChars(log, b)
  {
    TotalCharsGrow(log, b, |a| + 1);
    assert b[..|a| + 1][..|a|] == a;
  }

  lemma NotShorter(log: seq<Message>, extracted: nat, now: int, a: seq<nat>, aEnd: nat, b: seq<nat>, bEnd: nat)
    requires extracted <= |log|
    requires IsBatch(log, extracted, now, a, aEnd) && IsBatch(log, extracted, now, b, bEnd)
    requires aEnd <= bEnd && a[0] == b[0]
    ensures |a| <= |b|
  {
    if |b| < |a| {
      SamePrefix(log, now, a, b, extracted, aEnd, |b|);
    }
  }

  lemma NotLonger(log: seq<Message>, extracted: nat, now: int, a: seq<nat>, aEnd: nat, b: seq<nat>, bEnd: nat)
    requires extracted <= |log|
    requires IsBatch(log, extracted, now, a, aEnd) && IsBatch(log, extracted, now, b, bEnd)
    requires |a| < |b| ==> a == b[..|a|]
    ensures |b| <= |a|
  {
    if |a| < |b| {
      NextPicked(log, now, b, extracted, bEnd, |a|);
      NoLonger(log, now, a, aEnd, b);
    }
  }

  lemma EarlierIsPrefix(log: seq<Message>, extracted: nat, now: int, a: seq<nat>, aEnd: nat, b: seq<nat>, bEnd: nat)
    requires extracted <= |log|
    requires IsBatch(log, extracted, now, a, aEnd) && IsBatch(log, extracted, now, b, bEnd)
    requires aEnd <= bEnd
    ensures |a| <= |b| && a == b[..|a|]
  {
    SameFirst(log, extracted, now, a, aEnd, b, bEnd);
    NotShorter(log, extracted, now, a, aEnd, b, bEnd);
    SameAsPrefix(log, now, a, b, extracted, aEnd);
  }

  lemma SameAsPrefix(log: seq<Message>, now: int, a: seq<nat>, b: seq<nat>, lo: nat, hi: nat)
    requires hi <= |log| && Picked(log, now, a) && Picked(log, now, b)
    requires 1 <= |a| <= |b| && a[0] == b[0] && a[|a| - 1] < hi
    requires forall i :: 0 < i < |a| ==> lo <= a[i]
    requires forall i :: 0 < i < |b| ==> lo <= b[i]
    requires Covers(log, now, lo, hi, a) && Covers(log, now, lo, hi, b)
    ensures a == b[..|a|]
  {
    SamePrefix(log, now, a, b, lo, hi, |a|);
    assert a[..|a|] == a;
  }

  lemma BatchPrefix(log: seq<Message>, extracted: nat, now: int, a: seq<nat>, aEnd: nat, b: seq<nat>, bEnd: nat)
    requires extracted <= |log|
    requires IsBatch(log, extracted, now, a, aEnd) && IsBatch(log, extracted, now, b, bEnd)
    requires aEnd <= bEnd
    ensures a == b
  {
    EarlierIsPrefix(log, extracted, now, a, aEnd, b, bEnd);
    NotLonger(log, extracted, now, a, aEnd, b, bEnd);
    assert b[..|b|] == b;
  }

  lemma SameFirst(log: seq<Message>, extracted: nat, now: int, a: seq<nat>, aEnd: nat, b: seq<nat>, bEnd: nat)
    requires extracted <= |log|
    requires IsBatch(log, extracted, now, a, aEnd) && IsBatch(log, extracted, now, b, bEnd)
    ensures a[0] == b[0]
  {
    var x, y := a[0], b[0];
    assert Eligible(log[x], now) && Eligible(log[y], now);
    assert x in a && y in b;
    assert extracted <= x < bEnd ==> x in b;
    assert extracted <= y < aEnd ==> y in a;
  }

  lemma {:induction false} TotalCharsGrow(log: seq<Message>, picked: seq<nat>, n: nat)
    requires forall i :: 0 <= i < |picked| ==> picked[i] < |log|
    requires n <= |picked|
    ensures TotalChars(log, picked[..n]) <= TotalChars(log, picked)
    decreases |picked| - n
  {
    if n < |picked| {
      assert picked[..n + 1][..n] == picked[..n];
      TotalCharsGrow(log, picked, n + 1);
    } else {
      assert picked[..n] == picked;
    }
  }
}
