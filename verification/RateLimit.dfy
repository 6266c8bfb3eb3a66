/** The fixed-window rate limiter, and what it allows within any interval. */
module RateLimit {
  import opened Common

  /** A stored counter lives until it expires; one without an expiry lives for ever. */
  datatype Counter = Counter(count: nat, expiresAt: Option<int>)

  /** Which of the store's two writes fails, if it is attempted. */
  datatype Fault = Fine | IncrFails | ExpireFails

  datatype Error = LimiterUnavailable

  datatype Verdict = Verdict(allowed: bool, limit: nat, remaining: nat, retryAfter: int)

  predicate Live(counters: map<string, Counter>, key: string, now: int) {
    key in counters && (counters[key].expiresAt.None? || now < counters[key].expiresAt.value)
  }

  /** The counter after an increment that succeeds; the first one sets the expiry. */
  function Hit(counters: map<string, Counter>, key: string, now: int, window: int, fault: Fault): Counter {
    if Live(counters, key, now) then Counter(counters[key].count + 1, counters[key].expiresAt)
    else Counter(1, if fault.ExpireFails? then None else Some(now + window))
  }

  function Stored(counters: map<string, Counter>, key: string, now: int, window: int, fault: Fault)
    : map<string, Counter>
  {
    if fault.IncrFails? then counters else counters[key := Hit(counters, key, now, window, fault)]
  }

  /** A write that was attempted failed. */
  predicate Unavailable(counters: map<string, Counter>, key: string, now: int, fault: Fault) {
    fault.IncrFails? || (fault.ExpireFails? && !Live(counters, key, now))
  }

  predicate Counted(counters: map<string, Counter>) {
    forall key :: key in counters ==> counters[key].count >= 1
  }

  function KeyOf(key: string): string {
    if key == "" then "anonymous" else key
  }

  /** The counters differ at most under this name. */
  ghost predicate OthersKept(before: map<string, Counter>, after: map<string, Counter>, name: string) {
    forall k :: k != name ==> (k in after <==> k in before) && (k in before ==> after[k] == before[k])
  }

  /** The name's counter went up by one; if it had run out, it starts again, to run out a window from now. */
  predicate WentUp(before: map<string, Counter>, after: map<string, Counter>, name: string, now: int, window: int,
                   fault: Fault) {
    && name in after
    && if name in before && (before[name].expiresAt == None || now < before[name].expiresAt.value)
       then after[name] == Counter(before[name].count + 1, before[name].expiresAt)
       else after[name] == Counter(1, if fault == ExpireFails then None else Some(now + window))
  }

  class Limiter {
    const limit: nat
    const window: int
    var counters: map<string, Counter>

    constructor (limit: nat, window: int)
      requires limit > 0 && window > 0
      ensures this.limit == limit && this.window == window && counters == map[]
    {
      this.limit, this.window := limit, window;
      counters := map[];
    }

    /** Increment, set the expiry on first use, compare; ttlUp tells whether the remaining time can be read. */
    method Allow(key: string, now: int, fault: Fault, ttlUp: bool) returns (r: Result<Verdict, Error>)
      requires limit > 0 && window > 0 && Counted(counters)
      modifies this
      ensures Counted(counters)
      ensures counters == Stored(old(counters), KeyOf(key), now, window, fault)
      ensures OthersKept(old(counters), counters, if key == "" then "anonymous" else key)
      ensures if fault.IncrFails? then counters == old(counters)
              else WentUp(old(counters), counters, if key == "" then "anonymous" else key, now, window, fault)
      ensures r.Err? <==> Unavailable(old(counters), KeyOf(key), now, fault)
      ensures r.Ok? ==>
                var v, c := r.value, counters[KeyOf(key)];
                && (v.allowed <==> c.count <= limit)
                && v.limit == limit && v.remaining + Min(c.count, limit) == limit
                && (v.allowed ==> v.retryAfter == 0)
                && (!v.allowed && ttlUp && c.expiresAt.Some? ==>
                      v.retryAfter > 0 && !Live(counters, KeyOf(key), now + v.retryAfter)
                      && forall later :: now <= later < now + v.retryAfter ==> Live(counters, KeyOf(key), later))
                && (!v.allowed && !(ttlUp && c.expiresAt.Some?) ==> v.retryAfter == window)
    {
      var name := if key == "" then "anonymous" else key;
      if fault.IncrFails? {
        return Err(LimiterUnavailable);
      }
      var c := if name in counters && (counters[name].expiresAt.None? || now < counters[name].expiresAt.value)
               then counters[name] else Counter(0, None);
      c := c.(count := c.count + 1);
      counters := counters[name := c];
      if c.count == 1 {
        if fault.ExpireFails? {
          return Err(LimiterUnavailable);
        }
        c := c.(expiresAt := Some(now + window));
        counters := counters[name := c];
      }
      var remaining := if limit < c.count then 0 else limit - c.count;
      var retryAfter := 0;
      if limit < c.count {
        retryAfter := if ttlUp && c.expiresAt.Some? then c.expiresAt.value - now else window;
      }
      return Ok(Verdict(c.count <= limit, limit, remaining, retryAfter));
    }
  }

  // ----- traces -----

  datatype Request = Request(key: string, at: int, fault: Fault)

  ghost predicate Timed(trace: seq<Request>) {
    forall i, j :: 0 <= i < j < |trace| ==> trace[i].at <= trace[j].at
  }

  function After(window: int, trace: seq<Request>): map<string, Counter> {
    if trace == [] then map[]
    else
      var before := After(window, trace[..|trace| - 1]);
      var q := trace[|trace| - 1];
      Stored(before, q.key, q.at, window, q.fault)
  }

  /** Whether the last request of a trace is allowed. */
  predicate LastAllowed(limit: nat, window: int, trace: seq<Request>)
    requires trace != []
  {
    var before, q := After(window, trace[..|trace| - 1]), trace[|trace| - 1];
    !Unavailable(before, q.key, q.at, q.fault) && Hit(before, q.key, q.at, window, q.fault).count <= limit
  }

  /** The requests of one key. */
  function Only(trace: seq<Request>, key: string): seq<Request> {
    if trace == [] then []
    else Only(trace[..|trace| - 1], key) + if trace[|trace| - 1].key == key then [trace[|trace| - 1]] else []
  }

  predicate SameCounter(a: map<string, Counter>, b: map<string, Counter>, key: string) {
    (key in a <==> key in b) && (key in a ==> a[key] == b[key])
  }

  predicate In(q: Request, key: string, from: int, to: int) {
    q.key == key && from <= q.at < to
  }

  /** The allowed requests of a key within an interval. */
  function AllowedIn(limit: nat, window: int, trace: seq<Request>, key: string, from: int, to: int): nat {
    if trace == [] then 0
    else
      AllowedIn(limit, window, trace[..|trace| - 1], key, from, to)
      + (if In(trace[|trace| - 1], key, from, to) && LastAllowed(limit, window, trace) then 1 else 0)
  }

  lemma TimedPrefix(trace: seq<Request>)
    requires Timed(trace) && trace != []
    ensures Timed(trace[..|trace| - 1])
    ensures forall q :: q in trace[..|trace| - 1] ==> q.at <= trace[|trace| - 1].at
  {}

  lemma {:induction false} NoneBefore(limit: nat, window: int, trace: seq<Request>, key: string, from: int, to: int)
    requires forall q :: q in trace ==> q.at < from
    ensures AllowedIn(limit, window, trace, key, from, to) == 0
  {
    if trace != [] {
      var n := |trace| - 1;
      assert trace[n] in trace;
      NoneBefore(limit, window, trace[..n], key, from, to);
    }
  }

  /** A counter was opened by a request in the past. */
  lemma {:induction false} CounterOpened(window: int, trace: seq<Request>, key: string, now: int)
    requires window > 0 && key in After(window, trace) && forall q :: q in trace ==> q.at <= now
    ensures var c := After(window, trace)[key];
            c.count >= 1 && (c.expiresAt.Some? ==> c.expiresAt.value <= now + window)
  {
    var n := |trace| - 1;
    assert trace[n] in trace;
    if key in After(window, trace[..n]) {
      CounterOpened(window, trace[..n], key, now);
    }
  }

  /** What the state of the counter says about the allowed requests since the interval began. */
  predicate Bounded(limit: nat, window: int, counters: map<string, Counter>, key: string, from: int, allowed: nat) {
    if key !in counters then allowed == 0
    else
      var c := counters[key];
      c.count >= 1 && allowed <= Min(c.count, limit) + Slack(limit, window, c, from)
  }

  /** Allowed requests beyond those the counter shows: of the window before it, less the one that opened its own. */
  function Slack(limit: nat, window: int, c: Counter, from: int): int {
    if c.expiresAt.None? then limit - 2
    else if c.expiresAt.value - window < from then -1
    else limit - 1
  }

  lemma StepBounded(limit: nat, window: int, counters: map<string, Counter>, key: string, from: int, allowed: nat,
                    now: int,
                    fault: Fault)
    requires limit > 0 && window > 0 && from <= now < from + window
    requires Bounded(limit, window, counters, key, from, allowed)
    ensures var ok := !Unavailable(counters, key, now, fault) && Hit(counters, key, now, window, fault).count <= limit;
            var more := if ok then 1 else 0;
            Bounded(limit, window, Stored(counters, key, now, window, fault), key, from, allowed + more)
  {}

  /** Until the interval ends, the allowed requests are bounded by the counter's state. */
  lemma {:induction false} AllowedBounded(limit: nat, window: int, trace: seq<Request>, key: string, from: int, to: int)
    requires limit > 0 && window > 0 && to <= from + window && Timed(trace)
    requires forall q :: q in trace ==> q.at < from + window
    ensures Bounded(limit, window, After(window, trace), key, from, AllowedIn(limit, window, trace, key, from, to))
    decreases |trace|
  {
    if trace != [] {
      var n := |trace| - 1;
      var q := trace[n];
      assert q in trace;
      TimedPrefix(trace);
      AllowedBounded(limit, window, trace[..n], key, from, to);
      if q.key == key {
        if q.at < from {
          NoneBefore(limit, window, trace, key, from, to);
          if key in After(window, trace) {
            CounterOpened(window, trace, key, q.at);
          }
        } else {
          StepBounded(limit, window, After(window, trace[..n]), key, from,
                      AllowedIn(limit, window, trace[..n], key, from, to), q.at, q.fault);
        }
      }
    }
  }

  /**
    Rate bound: in any half-open interval no longer than one window, a key has fewer than twice the
    limit of its requests allowed.
   */
  lemma {:induction false} RateBound(limit: nat, window: int, trace: seq<Request>, key: string, from: int, to: int)
    requires limit > 0 && window > 0 && to <= from + window && Timed(trace)
    ensures AllowedIn(limit, window, trace, key, from, to) <= 2 * limit - 1
    decreases |trace|
  {
    if trace != [] {
      var n := |trace| - 1;
      TimedPrefix(trace);
      if trace[n].at < from + window {
        AllowedBounded(limit, window, trace, key, from, to);
      } else {
        RateBound(limit, window, trace[..n], key, from, to);
      }
    }
  }

  /** n requests of a key at one instant. */
  function Burst(key: string, at: int, n: nat): seq<Request> {
    if n == 0 then [] else Burst(key, at, n - 1) + [Request(key, at, Fine)]
  }

  lemma LastOf(limit: nat, window: int, trace: seq<Request>, q: Request, key: string, from: int, to: int)
    ensures After(window, trace + [q]) == Stored(After(window, trace), q.key, q.at, window, q.fault)
    ensures AllowedIn(limit, window, trace + [q], key, from, to) == AllowedIn(limit, window, trace, key, from, to)
            + if In(q, key, from, to) && LastAllowed(limit, window, trace + [q]) then 1 else 0
    ensures LastAllowed(limit, window, trace + [q]) <==>
            !Unavailable(After(window, trace), q.key, q.at, q.fault)
            && Hit(After(window, trace), q.key, q.at, window, q.fault).count <= limit
  {
    assert (trace + [q])[..|trace|] == trace;
  }

  lemma SameHit(a: map<string, Counter>, b: map<string, Counter>, key: string, q: Request, window: int)
    requires SameCounter(a, b, key)
    ensures q.key != key ==> SameCounter(Stored(a, q.key, q.at, window, q.fault), b, key)
    ensures q.key == key ==>
              && SameCounter(Stored(a, key, q.at, window, q.fault), Stored(b, key, q.at, window, q.fault), key)
              && (Unavailable(a, key, q.at, q.fault) <==> Unavailable(b, key, q.at, q.fault))
              && Hit(a, key, q.at, window, q.fault) == Hit(b, key, q.at, window, q.fault)
  {}

  /** Every key has its own counter: what a key is allowed does not depend on the requests of the others. */
  lemma {:induction false} OwnCounter(limit: nat, window: int, trace: seq<Request>, key: string, from: int, to: int)
    ensures SameCounter(After(window, trace), After(window, Only(trace, key)), key)
    ensures AllowedIn(limit, window, trace, key, from, to) == AllowedIn(limit, window, Only(trace, key), key, from, to)
    decreases |trace|
  {
    hide After, AllowedIn, LastAllowed, Stored, Unavailable, Hit, SameCounter;
    if trace == [] {
      SameItself(After(window, []), key);
    } else {
      var n := |trace| - 1;
      var q := trace[n];
      OwnCounter(limit, window, trace[..n], key, from, to);
      SameHit(After(window, trace[..n]), After(window, Only(trace[..n], key)), key, q, window);
      assert trace == trace[..n] + [q];
      assert q.key != key ==> Only(trace, key) == Only(trace[..n], key);
      LastOf(limit, window, trace[..n], q, key, from, to);
      LastOf(limit, window, Only(trace[..n], key), q, key, from, to);
    }
  }

  lemma SameItself(a: map<string, Counter>, key: string)
    ensures SameCounter(a, a, key)
  {}

  lemma BurstMore(trace: seq<Request>, key: string, at: int, n: nat)
    ensures n == 0 ==> trace + Burst(key, at, n) == trace
    ensures n > 0 ==> trace + Burst(key, at, n) == trace + Burst(key, at, n - 1) + [Request(key, at, Fine)]
  {
    if n == 0 {
      assert trace + Burst(key, at, n) == trace;
    } else {
      assert trace + Burst(key, at, n) == trace + Burst(key, at, n - 1) + [Request(key, at, Fine)];
    }
  }

  /** A burst inside a live window is allowed as far as the limit reaches. */
  lemma {:induction false} BurstAllowed(limit: nat, window: int, trace: seq<Request>, key: string, at: int, n: nat,
                                        from: int, to: int)
    requires from <= at < to && Live(After(window, trace), key, at)
    ensures var c := After(window, trace)[key];
            var out := trace + Burst(key, at, n);
            && key in After(window, out) && After(window, out)[key] == Counter(c.count + n, c.expiresAt)
            && AllowedIn(limit, window, out, key, from, to)
               == AllowedIn(limit, window, trace, key, from, to) + Min(c.count + n, limit) - Min(c.count, limit)
    decreases n
  {
    BurstMore(trace, key, at, n);
    hide After, AllowedIn, LastAllowed, Burst;
    if n != 0 {
      BurstAllowed(limit, window, trace, key, at, n - 1, from, to);
      LastOf(limit, window, trace + Burst(key, at, n - 1), Request(key, at, Fine), key, from, to);
    }
  }

  lemma {:induction false} BurstTimed(trace: seq<Request>, key: string, at: int, n: nat)
    requires Timed(trace) && forall q :: q in trace ==> q.at <= at
    ensures Timed(trace + Burst(key, at, n)) && forall q :: q in trace + Burst(key, at, n) ==> q.at <= at
    decreases n
  {
    if n == 0 {
      assert trace + Burst(key, at, 0) == trace;
    } else {
      BurstTimed(trace, key, at, n - 1);
      assert trace + Burst(key, at, n) == trace + Burst(key, at, n - 1) + [Request(key, at, Fine)];
    }
  }

  /** Opens a window at 0, fills it in its last tick, and fills the next one in its first. */
  function Edge(limit: nat, window: int): seq<Request>
    requires limit > 0
  {
    FullWindow(limit, window) + [Request("k", window, Fine)] + Burst("k", window, limit - 1)
  }

  /** The bound is reached for every limit, around the change of windows at least two ticks long. */
  lemma BoundReached(limit: nat, window: int)
    requires limit > 0 && window >= 2
    ensures Timed(Edge(limit, window))
    ensures AllowedIn(limit, window, Edge(limit, window), "k", window - 1, 2 * window - 1) == 2 * limit - 1
  {
    hide After, AllowedIn, LastAllowed, Burst, Timed;
    EdgeTimed(limit, window);
    var from, to := window - 1, 2 * window - 1;
    var two := FullWindow(limit, window);
    FirstWindow(limit, window, from, to);
    LastOf(limit, window, two, Request("k", window, Fine), "k", from, to);
    BurstAllowed(limit, window, two + [Request("k", window, Fine)], "k", window, limit - 1, from, to);
  }

  /** A window opened at 0 and filled in its last tick. */
  function FullWindow(limit: nat, window: int): seq<Request>
    requires limit > 0
  {
    [Request("k", 0, Fine)] + Burst("k", window - 1, limit - 1)
  }

  lemma FirstWindow(limit: nat, window: int, from: int, to: int)
    requires limit > 0 && window >= 2 && from == window - 1 < to
    ensures var two := FullWindow(limit, window);
            && "k" in After(window, two) && After(window, two)["k"] == Counter(limit, Some(window))
            && AllowedIn(limit, window, two, "k", from, to) == limit - 1
  {
    var one := [Request("k", 0, Fine)];
    assert [] + one == one && After(window, []) == map[] && AllowedIn(limit, window, [], "k", from, to) == 0;
    hide After, AllowedIn, LastAllowed, Burst;
    LastOf(limit, window, [], one[0], "k", from, to);
    BurstAllowed(limit, window, one, "k", window - 1, limit - 1, from, to);
  }

  lemma EdgeTimed(limit: nat, window: int)
    requires limit > 0 && window >= 2
    ensures Timed(Edge(limit, window))
  {
    var one := [Request("k", 0, Fine)];
    assert Timed(one);
    hide Burst, Timed;
    BurstTimed(one, "k", window - 1, limit - 1);
    TimedMore(FullWindow(limit, window), Request("k", window, Fine));
    BurstTimed(FullWindow(limit, window) + [Request("k", window, Fine)], "k", window, limit - 1);
  }

  lemma TimedMore(trace: seq<Request>, q: Request)
    requires Timed(trace) && forall x :: x in trace ==> x.at <= q.at
    ensures Timed(trace + [q]) && forall x :: x in trace + [q] ==> x.at <= q.at
  {}

  // ----- one window -----

  /** Request i found no live counter, and opened a window, with or without its expiry. */
  predicate Opens(window: int, trace: seq<Request>, i: nat) {
    i < |trace| && !trace[i].fault.IncrFails? && !Live(After(window, trace[..i]), trace[i].key, trace[i].at)
  }

  /** The increments, and the allowed requests, of trace[i]'s key from i on. */
  function RequestsFrom(trace: seq<Request>, key: string, i: nat): nat {
    if |trace| <= i then 0
    else
      var q := trace[|trace| - 1];
      RequestsFrom(trace[..|trace| - 1], key, i) + if q.key == key && !q.fault.IncrFails? then 1 else 0
  }

  function AllowedFrom(limit: nat, window: int, trace: seq<Request>, key: string, i: nat): nat {
    if |trace| <= i then 0
    else
      AllowedFrom(limit, window, trace[..|trace| - 1], key, i)
      + if trace[|trace| - 1].key == key && LastAllowed(limit, window, trace) then 1 else 0
  }

  /**
    An opened window allows exactly its first `limit` increments: as long as the trace stays inside the
    window, the allowed requests are as many as the increments, capped at the limit.
   */
  lemma {:induction false} WindowExact(limit: nat, window: int, trace: seq<Request>, i: nat)
    requires limit > 0 && window > 0 && Opens(window, trace, i) && !trace[i].fault.ExpireFails?
    requires forall j :: i <= j < |trace| ==> trace[j].at < trace[i].at + window
    ensures var key := trace[i].key;
            && key in After(window, trace)
            && After(window, trace)[key] == Counter(RequestsFrom(trace, key, i), Some(trace[i].at + window))
            && AllowedFrom(limit, window, trace, key, i) == Min(RequestsFrom(trace, key, i), limit)
    decreases |trace|
  {
    var n := |trace| - 1;
    if i == n {
      assert RequestsFrom(trace[..n], trace[i].key, i) == 0;
    } else {
      assert trace[..n][..i] == trace[..i];
      WindowExact(limit, window, trace[..n], i);
    }
  }

  /**
    If setting the expiry fails, the window never closes: of all later requests of the key, however
    late, only limit - 1 are ever allowed.
   */
  lemma {:induction false} WithoutExpiry(limit: nat, window: int, trace: seq<Request>, i: nat)
    requires limit > 0 && window > 0 && Opens(window, trace, i) && trace[i].fault.ExpireFails?
    ensures var key := trace[i].key;
            && key in After(window, trace)
            && After(window, trace)[key] == Counter(RequestsFrom(trace, key, i), None)
            && AllowedFrom(limit, window, trace, key, i) == Min(RequestsFrom(trace, key, i), limit) - 1
    decreases |trace|
  {
    var n := |trace| - 1;
    if i == n {
      assert RequestsFrom(trace[..n], trace[i].key, i) == 0;
    } else {
      assert trace[..n][..i] == trace[..i];
      WithoutExpiry(limit, window, trace[..n], i);
    }
  }
}
