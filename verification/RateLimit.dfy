/** The request limiter of the signaling service: a fixed window per bearer token and category of route. */
module RateLimit {
  import opened Results

  const WINDOW := 60.0

  datatype Category = Turn | Trickle | Signal

  datatype Key = Key(token: string, category: Category)

  /** When the window opened, and how many requests passed in it. */
  datatype Window = Window(start: real, count: nat)

  type Rates = map<Key, Window>

  datatype Request = Request(key: Key, now: real)

  function Limit(c: Category): (r: nat)
    ensures r > 0
  {
    match c
    case Turn => 12
    case Trickle => 600
    case Signal => 180
  }

  function CategoryOf(path: string): Category {
    if path == "/v1/ice-updates" then Trickle else if path == "/v1/ice" then Turn else Signal
  }

  function Purged(rates: Rates, now: real): Rates {
    map k | k in rates && !(rates[k].start < now - WINDOW) :: rates[k]
  }

  function Current(rates: Rates, key: Key, now: real): Window {
    if key in rates then rates[key] else Window(now, 0)
  }

  predicate Passes(rates: Rates, r: Request) {
    Current(Purged(rates, r.now), r.key, r.now).count < Limit(r.key.category)
  }

  function Guarded(rates: Rates, r: Request): Rates {
    var kept := Purged(rates, r.now);
    var w := Current(kept, r.key, r.now);
    if w.count >= Limit(r.key.category) then kept else kept[r.key := Window(w.start, w.count + 1)]
  }

  class Limiter {
    var rates: Rates

    constructor ()
      ensures rates == map[]
    {
      rates := map[];
    }

    /** The rate part of `guard`: drops every stale window, then counts the request or refuses it. */
    method Admit(token: string, path: string, now: real) returns (passed: bool)
      modifies this
      ensures var r := Request(Key(token, CategoryOf(path)), now);
              passed == Passes(old(rates), r) && rates == Guarded(old(rates), r)
    {
      var left := rates.Keys;
      ghost var before := rates;
      while left != {}
        invariant left <= before.Keys
        invariant rates == map k | k in before && (k in left || !(before[k].start < now - WINDOW)) :: before[k]
        decreases |left|
      {
        var k :| k in left;
        if rates[k].start < now - WINDOW {
          rates := rates - {k};
        }
        left := left - {k};
      }
      assert rates == Purged(before, now);
      var category := if path == "/v1/ice-updates" then Trickle else if path == "/v1/ice" then Turn else Signal;
      var key := Key(token, category);
      var window := if key in rates then rates[key] else Window(now, 0);
      var limit := match category { case Turn => 12 case Trickle => 600 case Signal => 180 };
      if window.count >= limit {
        return false;
      }
      rates := rates[key := Window(window.start, window.count + 1)];
      passed := true;
    }
  }

  // ---------------------------------------------------------------- runs

  function After(requests: seq<Request>): Rates {
    if requests == [] then map[] else Guarded(After(requests[..|requests| - 1]), requests[|requests| - 1])
  }

  /** When requests of one key passed. */
  function Passed(requests: seq<Request>, key: Key): seq<real> {
    if requests == [] then []
    else
      var front, r := requests[..|requests| - 1], requests[|requests| - 1];
      Passed(front, key) + if r.key == key && Passes(After(front), r) then [r.now] else []
  }

  ghost predicate Ordered(requests: seq<Request>) {
    forall i, j :: 0 <= i < j < |requests| ==> requests[i].now <= requests[j].now
  }

  ghost predicate Rising(times: seq<real>, now: real) {
    && (forall i, j :: 0 <= i < j < |times| ==> times[i] <= times[j])
    && forall i :: 0 <= i < |times| ==> times[i] <= now
  }

  /** Any `2 * limit` passes span more than a window. */
  ghost predicate Spread(times: seq<real>, limit: nat) {
    forall i, j :: 0 <= i < j < |times| && j - i >= 2 * limit - 1 ==> times[j] > times[i] + WINDOW
  }

  /** Every pass that lies `gap` or more places behind the end is more than a window before `time`. */
  ghost predicate Behind(times: seq<real>, gap: nat, time: real) {
    forall i :: 0 <= i < |times| && i + gap <= |times| ==> times[i] + WINDOW < time
  }

  /** The open window holds the last passes, and those more than a limit before its first are long gone. */
  ghost predicate Explains(times: seq<real>, limit: nat, w: Option<Window>, now: real) {
    if w.None? then Behind(times, limit, now)
    else
      && 1 <= w.value.count <= limit && w.value.count <= |times| && times[|times| - w.value.count] == w.value.start <= now
      && Behind(times, w.value.count + limit, w.value.start)
  }

  ghost predicate Inv(times: seq<real>, limit: nat, w: Option<Window>, now: real) {
    Rising(times, now) && Spread(times, limit) && Explains(times, limit, w, now)
  }

  function WindowOf(rates: Rates, key: Key): Option<Window> {
    if key in rates then Some(rates[key]) else None
  }

  /** Time passes, and the window goes stale or stays. */
  lemma PurgeKeeps(times: seq<real>, limit: nat, w: Option<Window>, before: real, now: real)
    requires Inv(times, limit, w, before) && before <= now && limit > 0
    ensures Inv(times, limit, if w.Some? && w.value.start < now - WINDOW then None else w, now)
  {
    if w.Some? && w.value.start < now - WINDOW {
      forall i | 0 <= i < |times| && i + limit <= |times|
        ensures times[i] + WINDOW < now
      {
        assert i <= |times| - w.value.count;
        assert times[i] <= w.value.start;
      }
    }
  }

  lemma PassKeeps(times: seq<real>, limit: nat, w: Option<Window>, now: real)
    requires Inv(times, limit, w, now) && limit > 0 && (w.Some? ==> w.value.count < limit)
    ensures Inv(times + [now], limit, Some(if w.Some? then Window(w.value.start, w.value.count + 1) else Window(now, 1)), now)
  {
    var more := times + [now];
    forall i, j | 0 <= i < j < |more| && j - i >= 2 * limit - 1
      ensures more[j] > more[i] + WINDOW
    {
      if j == |times| {
        assert w.Some? ==> i + (w.value.count + limit) <= |times|;
        assert w.None? ==> i + limit <= |times|;
      }
    }
  }

  lemma {:induction false} RunKeeps(requests: seq<Request>, key: Key, now: real)
    requires Ordered(requests) && forall i :: 0 <= i < |requests| ==> requests[i].now <= now
    ensures exists t :: t <= now && Inv(Passed(requests, key), Limit(key.category), WindowOf(After(requests), key), t)
  {
    var limit := Limit(key.category);
    if requests == [] {
      assert Inv(Passed(requests, key), limit, WindowOf(After(requests), key), now);
    } else {
      var front, r := requests[..|requests| - 1], requests[|requests| - 1];
      RunKeeps(front, key, r.now);
      var t :| t <= r.now && Inv(Passed(front, key), limit, WindowOf(After(front), key), t);
      assert requests == front + [r];
      RequestKeeps(front, r, key, t);
    }
  }

  lemma PurgedWindow(rates: Rates, now: real, key: Key)
    ensures var w := WindowOf(rates, key);
            WindowOf(Purged(rates, now), key) == if w.Some? && w.value.start < now - WINDOW then None else w
  {
  }

  lemma RequestKeeps(front: seq<Request>, r: Request, key: Key, t: real)
    requires t <= r.now && Inv(Passed(front, key), Limit(key.category), WindowOf(After(front), key), t)
    ensures Inv(Passed(front + [r], key), Limit(key.category), WindowOf(After(front + [r]), key), r.now)
  {
    PurgeKeeps(Passed(front, key), Limit(key.category), WindowOf(After(front), key), t, r.now);
    PurgedWindow(After(front), r.now, key);
    GuardKeeps(front, r, key);
  }

  /** The window of a key after one request more. */
  lemma GuardedWindow(front: seq<Request>, r: Request, key: Key)
    ensures
      var kept, w := WindowOf(Purged(After(front), r.now), key), WindowOf(After(front + [r]), key);
      if r.key == key && Passes(After(front), r)
      then w == Some(if kept.Some? then Window(kept.value.start, kept.value.count + 1) else Window(r.now, 1))
           && (kept.Some? ==> kept.value.count < Limit(key.category))
      else w == kept
  {
    assert (front + [r])[..|front|] == front;
  }

  lemma PassedMore(front: seq<Request>, r: Request, key: Key)
    ensures Passed(front + [r], key) == if r.key == key && Passes(After(front), r) then Passed(front, key) + [r.now] else Passed(front, key)
  {
    assert (front + [r])[..|front|] == front;
  }

  lemma GuardKeeps(front: seq<Request>, r: Request, key: Key)
    requires Inv(Passed(front, key), Limit(key.category), WindowOf(Purged(After(front), r.now), key), r.now)
    ensures Inv(Passed(front + [r], key), Limit(key.category), WindowOf(After(front + [r]), key), r.now)
  {
    GuardedWindow(front, r, key);
    PassedMore(front, r, key);
    if r.key == key && Passes(After(front), r) {
      PassKeeps(Passed(front, key), Limit(key.category), WindowOf(Purged(After(front), r.now), key), r.now);
    }
  }

  /**
    The bound: over every request trace with a clock that does not go back, the passes of one token and
    category that fall into any closed interval of 60 seconds are fewer than twice the limit.
   */
  lemma AnyMinuteBound(requests: seq<Request>, key: Key, i: nat, j: nat, from: real)
    requires Ordered(requests) && i <= j <= |Passed(requests, key)|
    requires forall k :: i <= k < j ==> from <= Passed(requests, key)[k] <= from + WINDOW
    ensures j - i <= 2 * Limit(key.category) - 1
  {
    if requests != [] {
      RunKeeps(requests, key, requests[|requests| - 1].now);
    }
    if j - i >= 2 {
      assert Passed(requests, key)[j - 1] <= Passed(requests, key)[i] + WINDOW;
    }
  }

  /** The other direction: a request is refused only when the limit has already passed within the last 60 seconds. */
  lemma RefusedOnlyWhenFull(requests: seq<Request>, r: Request)
    requires Ordered(requests + [r]) && !Passes(After(requests), r)
    ensures var times, limit := Passed(requests, r.key), Limit(r.key.category);
            limit <= |times| && forall k :: |times| - limit <= k < |times| ==> r.now - WINDOW <= times[k] <= r.now
  {
    assert forall i :: 0 <= i < |requests| ==> requests[i] == (requests + [r])[i];
    assert (requests + [r])[|requests|] == r;
    RunKeeps(requests, r.key, r.now);
    var times, limit, w := Passed(requests, r.key), Limit(r.key.category), WindowOf(After(requests), r.key);
    var t :| t <= r.now && Inv(times, limit, w, t);
    RefusedWindow(After(requests), r);
    FullWindow(times, limit, w.value, t, r.now);
  }

  lemma RefusedWindow(rates: Rates, r: Request)
    requires !Passes(rates, r)
    ensures var w := WindowOf(rates, r.key); w.Some? && w.value.start >= r.now - WINDOW && w.value.count >= Limit(r.key.category)
  {
  }

  lemma FullWindow(times: seq<real>, limit: nat, w: Window, t: real, now: real)
    requires Inv(times, limit, Some(w), t) && t <= now && w.start >= now - WINDOW && w.count >= limit
    ensures limit <= |times| && forall k :: |times| - limit <= k < |times| ==> now - WINDOW <= times[k] <= now
  {
  }

  // ---------------------------------------------------------------- the bound is met

  function Repeat(r: Request, n: nat): seq<Request> {
    seq(n, _ => r)
  }

  /** The window a request would meet. */
  function Met(requests: seq<Request>, r: Request): Window {
    Current(Purged(After(requests), r.now), r.key, r.now)
  }

  lemma PassOnce(requests: seq<Request>, r: Request)
    requires Met(requests, r).count < Limit(r.key.category) && Met(requests, r).start >= r.now - WINDOW
    ensures Passed(requests + [r], r.key) == Passed(requests, r.key) + [r.now]
    ensures After(requests + [r]) == Guarded(After(requests), r)
    ensures Met(requests + [r], r) == Window(Met(requests, r).start, Met(requests, r).count + 1)
  {
    var all := requests + [r];
    assert all[..|all| - 1] == requests;
    assert After(all)[r.key] == Window(Met(requests, r).start, Met(requests, r).count + 1);
  }

  /** A burst of the same request, as far as the limit allows, passes as a whole. */
  lemma {:induction false} BurstPasses(requests: seq<Request>, r: Request, n: nat)
    requires Met(requests, r).count + n <= Limit(r.key.category) && Met(requests, r).start >= r.now - WINDOW
    ensures Passed(requests + Repeat(r, n), r.key) == Passed(requests, r.key) + seq(n, _ => r.now)
    ensures Met(requests + Repeat(r, n), r) == Window(Met(requests, r).start, Met(requests, r).count + n)
  {
    if n == 0 {
      assert requests + Repeat(r, 0) == requests;
    } else {
      BurstPasses(requests, r, n - 1);
      BurstMore(requests + Repeat(r, n - 1), r, n, Passed(requests, r.key));
      RepeatMore(requests, r, n);
    }
  }

  lemma RepeatMore(requests: seq<Request>, r: Request, n: nat)
    requires n > 0
    ensures requests + Repeat(r, n) == requests + Repeat(r, n - 1) + [r]
  {
  }

  lemma BurstMore(all: seq<Request>, r: Request, n: nat, before: seq<real>)
    requires n > 0 && Met(all, r).count < Limit(r.key.category) && Met(all, r).start >= r.now - WINDOW
    requires Passed(all, r.key) == before + seq(n - 1, _ => r.now)
    ensures Passed(all + [r], r.key) == before + seq(n, _ => r.now)
    ensures Met(all + [r], r) == Window(Met(all, r).start, Met(all, r).count + 1)
  {
    PassOnce(all, r);
    assert seq(n, _ => r.now) == seq(n - 1, _ => r.now) + [r.now];
  }

  function Trace(key: Key): seq<Request> {
    Repeat(Request(key, 0.0), 1) + Repeat(Request(key, 60.0), Limit(key.category) - 1) + Repeat(Request(key, 60.5), Limit(key.category))
  }

  /** The first window of the trace: its first request at once, the rest at its very end. */
  lemma FirstWindow(key: Key)
    ensures var limit := Limit(key.category);
            var two := Repeat(Request(key, 0.0), 1) + Repeat(Request(key, 60.0), limit - 1);
            && Passed(two, key) == [0.0] + seq(limit - 1, _ => 60.0)
            && key in After(two) && After(two)[key] == Window(0.0, limit)
  {
    var a, b := Request(key, 0.0), Request(key, 60.0);
    var one := Repeat(a, 1);
    assert [] + one == one && [] + seq(1, _ => 0.0) == [0.0];
    assert Passed([], key) == [] && Met([], a) == Window(0.0, 0);
    BurstPasses([], a, 1);
    assert Met(one, b) == Window(0.0, 1);
    BurstPasses(one, b, Limit(key.category) - 1);
  }

  lemma TraceOrdered(key: Key)
    ensures Ordered(Trace(key))
  {
  }

  /** No smaller bound holds: half a second after a window closes, `2 * limit - 1` requests have passed within a minute. */
  lemma BoundIsMet(key: Key)
    ensures Ordered(Trace(key))
    ensures Passed(Trace(key), key) == [0.0] + seq(Limit(key.category) - 1, _ => 60.0) + seq(Limit(key.category), _ => 60.5)
  {
    var limit, c := Limit(key.category), Request(key, 60.5);
    var two := Repeat(Request(key, 0.0), 1) + Repeat(Request(key, 60.0), limit - 1);
    TraceOrdered(key);
    FirstWindow(key);
    assert key !in Purged(After(two), 60.5);
    assert Met(two, c) == Window(60.5, 0);
    BurstPasses(two, c, limit);
  }

  // ---------------------------------------------------------------- one request

  /** The routes and their limits: 12 for `/v1/ice`, 600 for `/v1/ice-updates`, 180 for all others. */
  lemma LimitsAre(path: string)
    ensures Limit(CategoryOf(path)) == if path == "/v1/ice" then 12 else if path == "/v1/ice-updates" then 600 else 180
    ensures forall other :: CategoryOf(path) == CategoryOf(other) <==>
              path == other || (path !in {"/v1/ice", "/v1/ice-updates"} && other !in {"/v1/ice", "/v1/ice-updates"})
  {
  }

  /** A window that opened at most 60 seconds ago. */
  predicate Alive(rates: Rates, key: Key, now: real) {
    key in rates && now - 60.0 <= rates[key].start
  }

  /**
    A request passes unless a window of its key is open and full; it is counted in that window or opens one. No
    other window is touched, but for those that are over.
   */
  lemma GuardIs(rates: Rates, r: Request)
    ensures Passes(rates, r) <==> (Alive(rates, r.key, r.now) ==> rates[r.key].count < Limit(r.key.category))
    ensures
      var after := Guarded(rates, r);
      && (forall k :: k != r.key ==> (k in after <==> Alive(rates, k, r.now)))
      && (forall k :: k in after && k != r.key ==> after[k] == rates[k])
      && r.key in after
      && after[r.key] ==
         if !Alive(rates, r.key, r.now) then Window(r.now, 1)
         else if rates[r.key].count < Limit(r.key.category) then Window(rates[r.key].start, rates[r.key].count + 1)
         else rates[r.key]
  {
  }
}
