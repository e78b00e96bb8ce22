/** The adaptive request pacer and the retry loop that drives it. Slots are exact points in time, in seconds. */
module RateLimiter {
  import opened Options
  import opened Collections

  const MAX_BACKOFF_LEVEL: nat := 3
  const MILLISECOND: nat := 1_000_000
  const U64_MAX: nat := 0xFFFF_FFFF_FFFF_FFFF
  /** The largest duration: 64 bits of seconds, less one nanosecond. */
  const DURATION_MAX: nat := (U64_MAX + 1) * 1_000_000_000 - 1

  /** A duration in nanoseconds. */
  type Duration = n: nat | n <= DURATION_MAX

  /** The pacer's locked state. */
  datatype Pace = Pace(configured: nat, current: nat, baseline: Option<Duration>, level: nat, next: real)

  function AtLeastOne(n: nat): nat {
    if n == 0 then 1 else n
  }

  function BackoffRps(configured: nat, level: nat): nat {
    if level == 0 then AtLeastOne(configured)
    else if level == 1 then AtLeastOne(configured / 2)
    else if level <= 3 then AtLeastOne(configured / 4)
    else 1
  }

  function SaturatingTriple(d: Duration): Duration {
    if 3 * d > DURATION_MAX then DURATION_MAX else 3 * d
  }

  predicate IsThrottled(status: Option<nat>, elapsed: Duration, baseline: Duration) {
    status == Some(429) || elapsed > SaturatingTriple(baseline)
  }

  function NewPace(rps: nat, now: real): Pace {
    Pace(AtLeastOne(rps), AtLeastOne(rps), None, 0, now)
  }

  // ----- one step -----

  function SlotOf(p: Pace, now: real): real {
    if now > p.next then now else p.next
  }

  function Interval(rate: nat): real {
    1.0 / AtLeastOne(rate) as real
  }

  function Reserve(p: Pace, now: real): Pace {
    p.(next := SlotOf(p, now) + Interval(p.current))
  }

  function FirstBaseline(elapsed: Duration): Duration {
    if elapsed > MILLISECOND then elapsed else MILLISECOND
  }

  function Mixed(current: Duration, elapsed: Duration): Duration {
    var mixed := (current * 7 + elapsed) / 8;
    if mixed > U64_MAX then U64_MAX else mixed
  }

  /** The baseline a response is judged against. */
  function Yardstick(p: Pace, elapsed: Duration): Duration {
    if p.baseline.Some? then p.baseline.value else FirstBaseline(elapsed)
  }

  predicate Throttles(p: Pace, status: Option<nat>, elapsed: Duration) {
    IsThrottled(status, elapsed, Yardstick(p, elapsed))
  }

  /** The sample enters the baseline. */
  predicate Accepts(p: Pace, status: Option<nat>, elapsed: Duration) {
    p.baseline.None? || !Throttles(p, status, elapsed)
  }

  function NextBaseline(p: Pace, status: Option<nat>, elapsed: Duration): Duration {
    if p.baseline.None? then FirstBaseline(elapsed)
    else if Accepts(p, status, elapsed) then Mixed(p.baseline.value, elapsed)
    else p.baseline.value
  }

  function NextLevel(p: Pace, status: Option<nat>, elapsed: Duration): nat {
    if Throttles(p, status, elapsed) then if p.level + 1 > MAX_BACKOFF_LEVEL then MAX_BACKOFF_LEVEL else p.level + 1
    else if p.level > 0 then p.level - 1
    else 0
  }

  function Observe(p: Pace, status: Option<nat>, elapsed: Duration): Pace {
    var level := NextLevel(p, status, elapsed);
    p.(baseline := Some(NextBaseline(p, status, elapsed)), level := level,
       current := if Throttles(p, status, elapsed) || p.level > 0 then BackoffRps(p.configured, level) else p.current)
  }

  // ----- one response, in numbers -----

  /** Too many requests, or three times slower than usual; the first response cannot be slow. */
  ghost predicate IsOverload(baseline: Option<Duration>, status: Option<nat>, elapsed: Duration) {
    status == Some(429) || (baseline.Some? && elapsed > 3 * baseline.value)
  }

  /** `rate` is the `parts`-th part of `configured`, rounded down, and at least one. */
  ghost predicate IsPart(configured: nat, parts: nat, rate: nat) {
    rate >= 1 && (rate * parts <= configured || rate == 1) && configured < (rate + 1) * parts
  }

  /** The rate at a level: all of the configured one, half of it, a quarter, a quarter. */
  ghost predicate IsRateOf(configured: nat, level: nat, rate: nat) {
    && level <= 3
    && IsPart(configured, if level == 0 then 1 else if level == 1 then 2 else 4, rate)
  }

  /** One level up, to 3 at most, on an overload; one level down, to 0 at least, on any other response. */
  ghost predicate IsNextLevel(before: nat, overload: bool, after: nat) {
    && (overload ==> after == before + 1 || (before >= 3 && after == 3))
    && (!overload ==> after + 1 == before || (before == 0 && after == 0))
  }

  /**
   The first response sets the baseline, to a millisecond at least; an overload leaves it; any other response moves
   it by an eighth of the way, rounded down, and to 64 bits of nanoseconds at most.
   */
  ghost predicate IsNextBaseline(before: Option<Duration>, overload: bool, elapsed: Duration, after: Option<Duration>) {
    after.Some? &&
    match before
    case None => after.value >= 1_000_000 && after.value >= elapsed
      && (after.value == elapsed || after.value == 1_000_000)
    case Some(b) =>
      if overload then after.value == b
      else
        && after.value <= 0xFFFF_FFFF_FFFF_FFFF && 8 * after.value <= 7 * b + elapsed
        && (7 * b + elapsed < 8 * after.value + 8 || after.value == 0xFFFF_FFFF_FFFF_FFFF)
  }

  ghost predicate IsJudged(p: Pace, status: Option<nat>, elapsed: Duration, q: Pace) {
    var overload := IsOverload(p.baseline, status, elapsed);
    && q.configured == p.configured && q.next == p.next
    && IsNextLevel(p.level, overload, q.level) && IsRateOf(q.configured, q.level, q.current)
    && IsNextBaseline(p.baseline, overload, elapsed, q.baseline)
  }

  lemma OverloadIs(p: Pace, status: Option<nat>, elapsed: Duration)
    ensures IsOverload(p.baseline, status, elapsed) <==> Throttles(p, status, elapsed)
  {
  }

  lemma RateIsPositive(p: Pace)
    requires PaceOk(p)
    ensures p.current >= 1
  {
  }

  lemma ReserveKeeps(p: Pace, now: real)
    requires PaceOk(p)
    ensures PaceOk(Reserve(p, now))
  {
  }

  lemma RateIs(configured: nat, level: nat)
    requires configured >= 1 && level <= 3
    ensures IsRateOf(configured, level, BackoffRps(configured, level))
  {
  }

  lemma JudgedIs(p: Pace, status: Option<nat>, elapsed: Duration)
    requires PaceOk(p)
    ensures IsJudged(p, status, elapsed, Observe(p, status, elapsed))
  {
    OverloadIs(p, status, elapsed);
    var q := Observe(p, status, elapsed);
    StepKeepsPace(p, Observed(status, elapsed));
    RateIs(q.configured, q.level);
    hide BackoffRps, IsRateOf, IsOverload, Throttles;
  }

  // ----- runs: callers take the lock in any order -----

  datatype Event = Reserved(now: real) | Observed(status: Option<nat>, elapsed: Duration)

  function Apply(p: Pace, e: Event): Pace {
    match e
    case Reserved(now) => Reserve(p, now)
    case Observed(status, elapsed) => Observe(p, status, elapsed)
  }

  function Run(p: Pace, events: seq<Event>): Pace
    decreases |events|
  {
    if events == [] then p else Run(Apply(p, events[0]), events[1..])
  }

  lemma {:induction false} RunAppend(p: Pace, a: seq<Event>, b: seq<Event>)
    ensures Run(p, a + b) == Run(Run(p, a), b)
    decreases |a|
  {
    if a == [] {
      assert a + b == b;
    } else {
      assert (a + b)[1..] == a[1..] + b;
      RunAppend(Apply(p, a[0]), a[1..], b);
    }
  }

  /** A slot handed out: when it was asked for, when it is, and the rate in force. */
  datatype Grant = Grant(asked: real, slot: real, rate: nat)

  function Grants(p: Pace, events: seq<Event>): seq<Grant>
    decreases |events|
  {
    if events == [] then []
    else
      var rest := Grants(Apply(p, events[0]), events[1..]);
      if events[0].Reserved? then [Grant(events[0].now, SlotOf(p, events[0].now), p.current)] + rest else rest
  }

  predicate PaceOk(p: Pace) {
    p.configured >= 1 && p.level <= MAX_BACKOFF_LEVEL && p.current == BackoffRps(p.configured, p.level)
  }

  lemma StepKeepsPace(p: Pace, e: Event)
    requires PaceOk(p)
    ensures PaceOk(Apply(p, e)) && Apply(p, e).configured == p.configured
  {
  }

  /**
   Over every run the level stays within 0 to 3 and the rate is the one of that level, between 1 and the
   configured rate.
   */
  lemma {:induction false} PaceAlways(rps: nat, start: real, events: seq<Event>)
    ensures
      var p := Run(NewPace(rps, start), events);
      && p.level <= 3 && p.configured == AtLeastOne(rps)
      && p.current == BackoffRps(p.configured, p.level) && 1 <= p.current <= p.configured
      && IsRateOf(p.configured, p.level, p.current)
  {
    RunKeepsPace(NewPace(rps, start), events);
    var p := Run(NewPace(rps, start), events);
    RateIs(p.configured, p.level);
  }

  lemma {:induction false} RunKeepsPace(p: Pace, events: seq<Event>)
    requires PaceOk(p)
    ensures PaceOk(Run(p, events)) && Run(p, events).configured == p.configured
    decreases |events|
  {
    if events != [] {
      RunKeepsPace(Apply(p, events[0]), events[1..]);
    }
  }

  // ----- slots in a window -----

  /** Each slot is the later of the moment it was asked for and one interval after the slot before. */
  predicate Paced(next: real, grants: seq<Grant>)
    decreases |grants|
  {
    grants != [] ==>
      && grants[0].slot == (if grants[0].asked > next then grants[0].asked else next)
      && Paced(grants[0].slot + Interval(grants[0].rate), grants[1..])
  }

  lemma {:induction false} GrantsArePaced(p: Pace, events: seq<Event>)
    requires PaceOk(p)
    ensures Paced(p.next, Grants(p, events))
    ensures forall g :: g in Grants(p, events) ==> 1 <= g.rate <= p.configured
    decreases |events|
  {
    if events != [] {
      GrantsArePaced(Apply(p, events[0]), events[1..]);
      if events[0].Reserved? {
        assert Grants(p, events)[1..] == Grants(Apply(p, events[0]), events[1..]);
      }
    }
  }

  /** Two consecutive slots, wherever they are in the run. */
  lemma {:induction false} ConsecutiveSlots(next: real, grants: seq<Grant>, i: nat)
    requires Paced(next, grants) && i + 1 < |grants|
    ensures
      var earliest := grants[i].slot + Interval(grants[i].rate);
      grants[i + 1].slot == if grants[i + 1].asked > earliest then grants[i + 1].asked else earliest
    decreases |grants|
  {
    var rest := grants[1..];
    if i == 0 {
      assert rest[0] == grants[1];
    } else {
      ConsecutiveSlots(grants[0].slot + Interval(grants[0].rate), rest, i - 1);
      assert rest[i - 1] == grants[i] && rest[i] == grants[i + 1];
    }
  }

  /** How many slots fall between `a` and `b`, both included. */
  function CountBetween(grants: seq<Grant>, a: real, b: real): nat {
    if grants == [] then 0
    else (if a <= grants[0].slot <= b then 1 else 0) + CountBetween(grants[1..], a, b)
  }

  lemma {:induction false} LaterStart(next: real, grants: seq<Grant>, a: real, a': real, b: real)
    requires Paced(next, grants) && a <= a' <= next
    ensures CountBetween(grants, a, b) == CountBetween(grants, a', b)
    ensures b < next ==> CountBetween(grants, a, b) == 0
    decreases |grants|
  {
    if grants != [] {
      LaterStart(grants[0].slot + Interval(grants[0].rate), grants[1..], a, a', b);
    }
  }

  lemma Reciprocal(r: real, l: real)
    requires 0.0 < r <= l
    ensures 1.0 / r >= 1.0 / l > 0.0
  {
    var (x, y) := (1.0 / r, 1.0 / l);
    assert x * r == 1.0 && y * l == 1.0;
    assert y * l == y * r + y * (l - r) && (y - x) * r == y * r - x * r;
    Product(1.0, l);
    if y > 0.0 {
      Product(y, l - r);
    }
    if x < y {
      Product(y - x, r);
    }
  }

  lemma Product(x: real, y: real)
    requires x >= 0.0 && y >= 0.0
    ensures x * y >= 0.0
    ensures x > 0.0 && y > 0.0 ==> x * y > 0.0
  {
  }

  lemma SlowerIsFurther(rate: nat, limit: nat)
    requires 1 <= rate <= limit
    ensures Interval(rate) >= Interval(limit) > 0.0
  {
    Reciprocal(rate as real, limit as real);
  }

  /** How many slots `w` seconds allow at `limit` a second. */
  function Allowance(limit: nat, w: real): real {
    limit as real * w
  }

  lemma AllowanceOf(limit: nat, a: real, s: real, b: real)
    requires limit >= 1 && a <= b
    ensures Allowance(limit, b - a) >= 0.0
    ensures a <= s ==> Allowance(limit, b - (s + Interval(limit))) + 1.0 <= Allowance(limit, b - a)
  {
    var (l, interval) := (limit as real, Interval(limit));
    Product(l, b - a);
    assert l * interval == 1.0;
    if a <= s {
      Product(l, s - a);
      assert l * (b - (s + interval)) == l * (b - a) - l * (s - a) - l * interval;
    }
  }

  lemma PacedTail(next: real, grants: seq<Grant>)
    requires Paced(next, grants) && grants != []
    ensures Paced(grants[0].slot + Interval(grants[0].rate), grants[1..])
  {
  }

  lemma CountTail(grants: seq<Grant>, a: real, b: real)
    requires grants != []
    ensures CountBetween(grants, a, b) == (if a <= grants[0].slot <= b then 1 else 0) + CountBetween(grants[1..], a, b)
  {
  }

  ghost predicate RateWithin(grants: seq<Grant>, limit: nat, a: real, b: real) {
    forall g :: g in grants && a <= g.slot <= b ==> 1 <= g.rate <= limit
  }

  /** Slots handed out at no more than `limit` a second: a window of `w` seconds holds at most `limit * w + 1`. */
  lemma {:induction false} WindowBound(next: real, grants: seq<Grant>, limit: nat, a: real, b: real)
    requires Paced(next, grants) && limit >= 1 && a <= b
    requires RateWithin(grants, limit, a, b)
    ensures CountBetween(grants, a, b) as real <= Allowance(limit, b - a) + 1.0
    decreases |grants|
  {
    hide Paced, Allowance, Interval, CountBetween;
    if grants == [] {
      AllowanceOf(limit, a, a, b);
      assert CountBetween([], a, b) == 0 by {
        CountNone(a, b);
      }
    } else {
      var g, rest := grants[0], grants[1..];
      PacedTail(next, grants);
      CountTail(grants, a, b);
      assert RateWithin(rest, limit, a, b);
      AllowanceOf(limit, a, g.slot, b);
      if a <= g.slot <= b {
        SlowerIsFurther(g.rate, limit);
        var a' := g.slot + Interval(limit);
        LaterStart(g.slot + Interval(g.rate), rest, a, a', b);
        if a' <= b {
          WindowBound(g.slot + Interval(g.rate), rest, limit, a', b);
        }
      } else {
        WindowBound(g.slot + Interval(g.rate), rest, limit, a, b);
      }
    }
  }

  lemma CountNone(a: real, b: real)
    ensures CountBetween([], a, b) == 0
  {
  }

  lemma WindowLaw(p: Pace, events: seq<Event>, a: real, b: real)
    requires PaceOk(p) && a <= b
    ensures CountBetween(Grants(p, events), a, b) as real <= Allowance(p.configured, b - a) + 1.0
  {
    GrantsArePaced(p, events);
    assert RateWithin(Grants(p, events), p.configured, a, b);
    hide Grants, Paced, CountBetween, Allowance, Interval;
    WindowBound(p.next, Grants(p, events), p.configured, a, b);
  }

  /**
   Whatever the interleaving of reservations and observations, a window of `b - a` seconds holds at most
   the configured rate times its length, plus one.
   */
  lemma ConfiguredRateHolds(rps: nat, start: real, events: seq<Event>, a: real, b: real)
    requires a <= b
    ensures CountBetween(Grants(NewPace(rps, start), events), a, b) as real <= Allowance(AtLeastOne(rps), b - a) + 1.0
  {
    var p := NewPace(rps, start);
    assert PaceOk(p) && p.configured == AtLeastOne(rps);
    hide *;
    WindowLaw(p, events, a, b);
  }

  function Burst(now: real, n: nat): seq<Event> {
    if n == 0 then [] else [Reserved(now)] + Burst(now, n - 1)
  }

  /** The `k`-th slot of a burst that starts at `first`. */
  function Evenly(first: real, rate: nat, k: nat): real {
    first + k as real * Interval(rate)
  }

  lemma EvenlyShifted(first: real, rate: nat, k: nat)
    ensures Evenly(first, rate, 0) == first && Evenly(first + Interval(rate), rate, k) == Evenly(first, rate, k + 1)
  {
    assert (k + 1) as real * Interval(rate) == k as real * Interval(rate) + Interval(rate);
  }

  lemma BurstStep(p: Pace, now: real, n: nat)
    requires PaceOk(p) && now <= p.next && n > 0
    ensures
      var p' := Reserve(p, now);
      && PaceOk(p') && p'.next == p.next + Interval(p.current) && p'.current == p.current && now <= p'.next
      && Grants(p, Burst(now, n)) == [Grant(now, p.next, p.current)] + Grants(p', Burst(now, n - 1))
  {
    SlowerIsFurther(p.current, p.configured);
    assert Burst(now, n)[1..] == Burst(now, n - 1);
  }

  lemma {:induction false} AllAreCounted(grants: seq<Grant>, a: real, b: real)
    requires forall i :: 0 <= i < |grants| ==> a <= grants[i].slot <= b
    ensures CountBetween(grants, a, b) == |grants|
  {
    if grants != [] {
      AllAreCounted(grants[1..], a, b);
    }
  }

  lemma EvenlyIsMonotone(start: real, rate: nat, i: nat, j: nat)
    requires i <= j
    ensures start <= Evenly(start, rate, i) <= Evenly(start, rate, j)
  {
    IntervalIsPositive(rate);
    Product(i as real, Interval(rate));
    Product((j - i) as real, Interval(rate));
    assert j as real * Interval(rate) == i as real * Interval(rate) + (j - i) as real * Interval(rate);
  }

  lemma IntervalIsPositive(rate: nat)
    ensures Interval(rate) > 0.0
  {
  }

  /** A window that ends `k` intervals after it starts allows exactly `k` more than its first slot. */
  lemma AllowanceOfIntervals(start: real, rate: nat, k: nat)
    requires rate >= 1
    ensures Allowance(rate, Evenly(start, rate, k) - start) == k as real
  {
    var (r, i) := (rate as real, Interval(rate));
    assert r * i == 1.0;
    Regroup(r, k as real, i);
  }

  lemma Regroup(x: real, y: real, z: real)
    ensures x * (y * z) == (x * z) * y
  {
  }

  /**
   The bound is attained: a burst of `n` requests fills the window from its first slot to its last, at the
   current rate, with exactly what `WindowBound` allows.
   */
  lemma BurstAttainsTheBound(p: Pace, now: real, n: nat)
    requires PaceOk(p) && now <= p.next && n > 0
    ensures
      var (grants, last) := (Grants(p, Burst(now, n)), Evenly(p.next, p.current, n - 1));
      && CountBetween(grants, p.next, last) == n
      && CountBetween(grants, p.next, last) as real == Allowance(p.current, last - p.next) + 1.0
  {
    var (grants, last) := (Grants(p, Burst(now, n)), Evenly(p.next, p.current, n - 1));
    BurstIsEven(p, now, n);
    assert p.current >= 1;
    hide *;
    forall i | 0 <= i < n
      ensures p.next <= grants[i].slot <= last
    {
      EvenlyIsMonotone(p.next, p.current, i, n - 1);
    }
    AllAreCounted(grants, p.next, last);
    AllowanceOfIntervals(p.next, p.current, n - 1);
  }

  /** A burst of requests on a limiter that is not throttled meanwhile is spread exactly one interval apart. */
  lemma {:induction false} BurstIsEven(p: Pace, now: real, n: nat)
    requires PaceOk(p) && now <= p.next
    ensures |Grants(p, Burst(now, n))| == n
    ensures forall i :: 0 <= i < n ==> Grants(p, Burst(now, n))[i].slot == Evenly(p.next, p.current, i)
    decreases n
  {
    if n > 0 {
      var p' := Reserve(p, now);
      BurstStep(p, now, n);
      hide *;
      BurstIsEven(p', now, n - 1);
      var grants, rest := Grants(p, Burst(now, n)), Grants(p', Burst(now, n - 1));
      forall i | 0 <= i < n
        ensures grants[i].slot == Evenly(p.next, p.current, i)
      {
        if i == 0 {
          EvenlyShifted(p.next, p.current, 0);
        } else {
          EvenlyShifted(p.next, p.current, i - 1);
          assert grants[i] == rest[i - 1];
        }
      }
    } else {
      assert Burst(now, 0) == [];
    }
  }

  // ----- backing off and recovering -----

  function Observations(events: seq<Event>): nat {
    if events == [] then 0 else (if events[0].Observed? then 1 else 0) + Observations(events[1..])
  }

  /** Every response observed during the run was (or was not) throttled. */
  predicate AllJudged(p: Pace, events: seq<Event>, throttled: bool)
    decreases |events|
  {
    events != [] ==>
      && (events[0].Observed? ==> Throttles(p, events[0].status, events[0].elapsed) == throttled)
      && AllJudged(Apply(p, events[0]), events[1..], throttled)
  }

  /** Every response observed during the run was (or was not) an overload when it came. */
  ghost predicate AllOverload(p: Pace, events: seq<Event>, overload: bool) {
    forall i :: 0 <= i < |events| && events[i].Observed? ==>
      (IsOverload(Run(p, events[..i]).baseline, events[i].status, events[i].elapsed) <==> overload)
  }

  lemma AllOverloadRest(p: Pace, events: seq<Event>, overload: bool)
    requires events != [] && AllOverload(p, events, overload)
    ensures events[0].Observed? ==> (IsOverload(p.baseline, events[0].status, events[0].elapsed) <==> overload)
    ensures AllOverload(Apply(p, events[0]), events[1..], overload)
  {
    hide IsOverload, Apply;
    assert events[..0] == [] && Run(p, []) == p;
    var rest := events[1..];
    forall i | 0 <= i < |rest| && rest[i].Observed?
      ensures IsOverload(Run(Apply(p, events[0]), rest[..i]).baseline, rest[i].status, rest[i].elapsed) <==> overload
    {
      var longer := events[..i + 1];
      assert longer[0] == events[0] && longer[1..] == rest[..i];
      assert Run(p, longer) == Run(Apply(p, events[0]), rest[..i]);
      assert events[i + 1] == rest[i];
    }
  }

  lemma {:induction false} AllOverloadIs(p: Pace, events: seq<Event>, overload: bool)
    requires AllOverload(p, events, overload)
    ensures AllJudged(p, events, overload)
    decreases |events|
  {
    if events != [] {
      AllOverloadRest(p, events, overload);
      if events[0].Observed? {
        OverloadIs(p, events[0].status, events[0].elapsed);
      }
      AllOverloadIs(Apply(p, events[0]), events[1..], overload);
      hide AllOverload, Throttles, IsOverload, Apply;
    }
  }

  /** Status 429 is an overload whatever the time it took. */
  lemma TooManyRequestsBackOff(p: Pace, events: seq<Event>)
    requires PaceOk(p)
    requires forall i :: 0 <= i < |events| && events[i].Observed? ==> events[i].status == Some(429)
    ensures
      var (n, q) := (Observations(events), Run(p, events));
      q.level == (if p.level + n < 3 then p.level + n else 3) && IsRateOf(p.configured, q.level, q.current)
  {
    assert AllOverload(p, events, true) by {
      hide Run;
    }
    OverloadsBackOff(p, events);
  }

  /** `n` overloads in a run, with reservations in between, take the level up by `n`, to 3 at most. */
  lemma OverloadsBackOff(p: Pace, events: seq<Event>)
    requires PaceOk(p) && AllOverload(p, events, true)
    ensures
      var (n, q) := (Observations(events), Run(p, events));
      q.level == (if p.level + n < 3 then p.level + n else 3) && IsRateOf(p.configured, q.level, q.current)
  {
    AllOverloadIs(p, events, true);
    ThrottlingBacksOff(p, events);
    RunKeepsPace(p, events);
    RateIs(p.configured, Run(p, events).level);
    hide Run, IsRateOf, BackoffRps, AllOverload, AllJudged, Observations;
  }

  /** `n` other responses take the level down by `n`, to 0 at least, where the rate is the configured one. */
  lemma OthersRestore(p: Pace, events: seq<Event>)
    requires PaceOk(p) && AllOverload(p, events, false)
    ensures
      var (n, q) := (Observations(events), Run(p, events));
      && q.level == (if p.level > n then p.level - n else 0) && IsRateOf(p.configured, q.level, q.current)
      && (q.level == 0 ==> q.current == p.configured)
  {
    AllOverloadIs(p, events, false);
    CalmRestores(p, events);
    RunKeepsPace(p, events);
    RateIs(p.configured, Run(p, events).level);
    CalmRate(Run(p, events));
    hide Run, IsRateOf, BackoffRps, AllOverload, AllJudged, Observations;
  }

  /**
   `n` calm responses, with reservations in between, take the level down by `n`; three restore the configured
   rate.
   */
  lemma {:induction false} CalmRestores(p: Pace, events: seq<Event>)
    requires PaceOk(p) && AllJudged(p, events, false)
    ensures Run(p, events).level == if p.level > Observations(events) then p.level - Observations(events) else 0
    ensures Observations(events) >= 3 ==> Run(p, events).current == p.configured
    decreases |events|
  {
    RunKeepsPace(p, events);
    hide Throttles, NextBaseline, BackoffRps, SlotOf, Interval;
    if events != [] {
      assert PaceOk(Apply(p, events[0])) by {
        StepKeepsPace(p, events[0]);
      }
      CalmRestores(Apply(p, events[0]), events[1..]);
    }
    assert Run(p, events).level == 0 ==> Run(p, events).current == p.configured by {
      CalmRate(Run(p, events));
    }
  }

  lemma CalmRate(p: Pace)
    requires PaceOk(p)
    ensures p.level == 0 ==> p.current == p.configured
  {
  }

  /** `n` throttled responses take the level up by `n`, no further than 3; three quarter the rate. */
  lemma {:induction false} ThrottlingBacksOff(p: Pace, events: seq<Event>)
    requires PaceOk(p) && AllJudged(p, events, true)
    ensures Run(p, events).level == if p.level + Observations(events) < 3 then p.level + Observations(events) else 3
    ensures Observations(events) >= 3 ==> Run(p, events).current == AtLeastOne(p.configured / 4)
    decreases |events|
  {
    RunKeepsPace(p, events);
    if events != [] {
      assert PaceOk(Apply(p, events[0])) by {
        StepKeepsPace(p, events[0]);
      }
      hide Throttles, NextBaseline, BackoffRps, SlotOf, Interval;
      ThrottlingBacksOff(Apply(p, events[0]), events[1..]);
    }
  }

  // ----- the latency baseline -----

  /** The samples that entered the baseline, the first one raised to a millisecond. */
  function AcceptedSamples(p: Pace, events: seq<Event>): seq<Duration>
    decreases |events|
  {
    if events == [] then []
    else
      var (e, rest) := (events[0], AcceptedSamples(Apply(p, events[0]), events[1..]));
      if e.Reserved? then rest
      else if p.baseline.None? then [FirstBaseline(e.elapsed)] + rest
      else if Accepts(p, e.status, e.elapsed) then [e.elapsed] + rest
      else rest
  }

  function Least(a: nat, b: nat): nat {
    if a < b then a else b
  }

  /**
   One accepted sample moves the baseline towards it, up by a quarter at most, and never past 64 bits of
   nanoseconds.
   */
  lemma MixedIsBetween(current: Duration, elapsed: Duration)
    ensures Least(U64_MAX, Least(current, elapsed)) <= Mixed(current, elapsed)
    ensures Mixed(current, elapsed) <= current || Mixed(current, elapsed) <= elapsed
    ensures elapsed <= SaturatingTriple(current) ==> 4 * Mixed(current, elapsed) <= 5 * current
  {
  }

  lemma {:induction false} BaselineFrom(p: Pace, events: seq<Event>, low: nat, high: nat)
    requires p.baseline.Some? ==> Least(U64_MAX, low) <= p.baseline.value <= high
    requires forall i :: 0 <= i < |AcceptedSamples(p, events)| ==> low <= AcceptedSamples(p, events)[i] <= high
    ensures
      var end := Run(p, events).baseline;
      && (end.Some? ==> Least(U64_MAX, low) <= end.value <= high)
      && (end.Some? <==> p.baseline.Some? || Observations(events) > 0)
    decreases |events|
  {
    if events != [] {
      var (e, q) := (events[0], Apply(p, events[0]));
      var (all, rest) := (AcceptedSamples(p, events), AcceptedSamples(q, events[1..]));
      hide AcceptedSamples, Mixed, FirstBaseline, Throttles, NextLevel, BackoffRps, Interval, SlotOf, IsThrottled;
      assert all == rest || (|all| == |rest| + 1 && all[1..] == rest) by {
        AcceptedUnrolled(p, events);
      }
      forall i | 0 <= i < |rest|
        ensures low <= rest[i] <= high
      {
        assert rest[i] == all[if all == rest then i else i + 1];
      }
      if e.Observed? && Accepts(p, e.status, e.elapsed) {
        AcceptedUnrolled(p, events);
        assert low <= all[0] <= high;
        if p.baseline.Some? {
          MixedIsBetween(p.baseline.value, e.elapsed);
        }
      }
      BaselineFrom(q, events[1..], low, high);
    }
  }

  lemma AcceptedUnrolled(p: Pace, events: seq<Event>)
    requires events != []
    ensures
      var rest := AcceptedSamples(Apply(p, events[0]), events[1..]);
      AcceptedSamples(p, events) ==
        if events[0].Reserved? || !Accepts(p, events[0].status, events[0].elapsed) then rest
        else [if p.baseline.None? then FirstBaseline(events[0].elapsed) else events[0].elapsed] + rest
  {
  }

  /** The smallest and the largest of some samples. */
  function Smallest(samples: seq<Duration>): (d: Duration)
    requires samples != []
    ensures d in samples && forall i :: 0 <= i < |samples| ==> d <= samples[i]
  {
    if |samples| == 1 then samples[0]
    else
      var rest := Smallest(samples[1..]);
      assert forall i :: 0 < i < |samples| ==> samples[i] == samples[1..][i - 1];
      if samples[0] < rest then samples[0] else rest
  }

  function Largest(samples: seq<Duration>): (d: Duration)
    requires samples != []
    ensures d in samples && forall i :: 0 <= i < |samples| ==> samples[i] <= d
  {
    if |samples| == 1 then samples[0]
    else
      var rest := Largest(samples[1..]);
      assert forall i :: 0 < i < |samples| ==> samples[i] == samples[1..][i - 1];
      if samples[0] > rest then samples[0] else rest
  }

  /** Once there is a baseline, it stays as it is until a sample is accepted, and every mixed one fits in 64 bits. */
  lemma {:induction false} BaselineClamped(p: Pace, events: seq<Event>)
    requires p.baseline.Some?
    ensures Run(p, events).baseline.Some?
    ensures
      if AcceptedSamples(p, events) == [] then Run(p, events).baseline == p.baseline
      else Run(p, events).baseline.value <= U64_MAX
    decreases |events|
  {
    if events != [] {
      var q := Apply(p, events[0]);
      AcceptedUnrolled(p, events);
      hide AcceptedSamples, Throttles, NextLevel, BackoffRps, Interval, SlotOf, IsThrottled, FirstBaseline;
      BaselineClamped(q, events[1..]);
      assert events[0].Observed? && Accepts(p, events[0].status, events[0].elapsed) ==> q.baseline.value <= U64_MAX;
    }
  }

  /** The first response seen sets the baseline; with no other sample accepted, it is that sample. */
  lemma {:induction false} BaselineFromNew(p: Pace, events: seq<Event>)
    requires p.baseline.None?
    ensures
      var (samples, end) := (AcceptedSamples(p, events), Run(p, events).baseline);
      && (end.Some? <==> samples != [])
      && (|samples| == 1 ==> end == Some(samples[0]))
      && (|samples| > 1 ==> end.value <= U64_MAX)
    decreases |events|
  {
    if events != [] {
      var q := Apply(p, events[0]);
      AcceptedUnrolled(p, events);
      hide AcceptedSamples, Throttles, NextLevel, BackoffRps, Interval, SlotOf, IsThrottled, FirstBaseline, Mixed;
      if events[0].Reserved? {
        BaselineFromNew(q, events[1..]);
      } else {
        BaselineClamped(q, events[1..]);
      }
    }
  }

  /**
   From a new limiter, the baseline lies between the smallest and the largest accepted sample, except when
   there are two samples or more and none of them fits in 64 bits of nanoseconds: then, and only then, it is
   below the smallest, at the largest 64-bit value.
   */
  lemma BaselineIsBetweenSamples(rps: nat, start: real, events: seq<Event>)
    ensures
      var (samples, end) := (AcceptedSamples(NewPace(rps, start), events), Run(NewPace(rps, start), events).baseline);
      && (end.Some? <==> samples != [])
      && (samples != [] ==>
            && end.value <= Largest(samples)
            && (Smallest(samples) <= end.value <==> !(|samples| >= 2 && Smallest(samples) > U64_MAX))
            && (Smallest(samples) > end.value ==> end.value == U64_MAX))
  {
    var p := NewPace(rps, start);
    var samples := AcceptedSamples(p, events);
    BaselineFromNew(p, events);
    if samples != [] {
      var (low, high) := (Smallest(samples), Largest(samples));
      hide AcceptedSamples, Run, Smallest, Largest;
      assert low <= high;
      BaselineFrom(p, events, low, high);
    }
  }

  /** For example: two responses of 2^65 nanoseconds each leave a baseline of 2^64 - 1. */
  lemma BaselineBelowSamples(rps: nat, start: real)
    ensures
      var slow := Observed(Some(200), 2 * (U64_MAX + 1));
      && AcceptedSamples(NewPace(rps, start), [slow, slow]) == [slow.elapsed, slow.elapsed]
      && Run(NewPace(rps, start), [slow, slow]).baseline == Some(U64_MAX)
  {
    var slow := Observed(Some(200), 2 * (U64_MAX + 1));
    var p := NewPace(rps, start);
    var q := Apply(p, slow);
    assert q.baseline == Some(slow.elapsed) && !Throttles(q, slow.status, slow.elapsed);
    var r := Apply(q, slow);
    assert r.baseline == Some(U64_MAX);
    assert [slow, slow][1..] == [slow] && [slow][1..] == [];
    assert Run(q, [slow]) == Run(r, []) == r;
    assert AcceptedSamples(q, [slow]) == [slow.elapsed] + AcceptedSamples(r, []);
  }

  /** A baseline never jumps up: one event raises it by a quarter at most. */
  lemma BaselineGrowsSlowly(p: Pace, e: Event)
    requires p.baseline.Some?
    ensures Apply(p, e).baseline.Some? && 4 * Apply(p, e).baseline.value <= 5 * p.baseline.value
  {
    if e.Observed? {
      MixedIsBetween(p.baseline.value, e.elapsed);
      hide Mixed;
    }
  }

  // ----- the limiter object -----

  function Met(hosts: set<string>, host: Option<string>): set<string> {
    if host.Some? then hosts + {host.value} else hosts
  }

  /** The pacer's state and the limiter's counters. */
  datatype Gauge = Gauge(pace: Pace, active: nat, total: nat, retries: nat, hosts: set<string>, reused: nat) {
    function Begun(host: Option<string>, now: real): Gauge {
      Gauge(Reserve(pace, now), active + 1, total + 1, retries, Met(hosts, host),
            if host.Some? && host.value in hosts then reused + 1 else reused)
    }

    function Finished(): Gauge {
      this.(active := if active > 0 then active - 1 else 0)
    }

    function Retried(): Gauge {
      this.(retries := retries + 1)
    }

    function Judged(status: Option<nat>, elapsed: Duration): Gauge {
      this.(pace := Observe(pace, status, elapsed))
    }
  }

  class AdaptiveRateLimiter {
    var configuredRps: nat
    var currentRps: nat
    var baselineLatency: Option<Duration>
    var backoffLevel: nat
    var nextAllowedAt: real
    var hostsSeen: set<string>
    var reusedConnections: nat
    var activeConnections: nat
    var totalRequests: nat
    var retryCount: nat

    function State(): Gauge
      reads this
    {
      Gauge(Pace(configuredRps, currentRps, baselineLatency, backoffLevel, nextAllowedAt),
            activeConnections, totalRequests, retryCount, hostsSeen, reusedConnections)
    }

    /** No request counts as a reuse of a host the first time that host is seen. */
    predicate Valid()
      reads this
    {
      PaceOk(State().pace) && reusedConnections + |hostsSeen| <= totalRequests
    }

    constructor (rps: nat, now: real)
      ensures Valid() && State() == Gauge(NewPace(rps, now), 0, 0, 0, {}, 0)
      ensures configuredRps == currentRps && configuredRps == (if rps >= 1 then rps else 1)
      ensures baselineLatency == None && backoffLevel == 0 && nextAllowedAt == now
    {
      configuredRps, currentRps := AtLeastOne(rps), AtLeastOne(rps);
      baselineLatency, backoffLevel, nextAllowedAt := None, 0, now;
      hostsSeen, reusedConnections := {}, 0;
      activeConnections, totalRequests, retryCount := 0, 0, 0;
    }

    /** Returns the slot the caller sleeps until. */
    method BeforeRequest(host: Option<string>, now: real) returns (slot: real)
      requires Valid()
      modifies this
      ensures Valid() && State() == old(State()).Begun(host, now) && slot == SlotOf(old(State()).pace, now)
      ensures now <= slot && old(nextAllowedAt) <= slot && (slot == now || slot == old(nextAllowedAt))
      ensures currentRps == old(currentRps) >= 1 && nextAllowedAt == slot + 1.0 / currentRps as real
      ensures totalRequests == old(totalRequests) + 1 && activeConnections == old(activeConnections) + 1
      ensures hostsSeen == old(hostsSeen) + (if host.Some? then {host.value} else {})
      ensures reusedConnections
           == old(reusedConnections) + if host.Some? && host.value in old(hostsSeen) then 1 else 0
    {
      RateIsPositive(State().pace);
      ReserveKeeps(State().pace, now);
      hide BackoffRps, PaceOk;
      if host.Some? {
        if host.value in hostsSeen {
          assert hostsSeen + {host.value} == hostsSeen;
          reusedConnections := reusedConnections + 1;
        } else {
          hostsSeen := hostsSeen + {host.value};
        }
      }
      slot := if nextAllowedAt > now then nextAllowedAt else now;
      nextAllowedAt := slot + 1.0 / AtLeastOne(currentRps) as real;
      totalRequests := totalRequests + 1;
      activeConnections := activeConnections + 1;
    }

    method FinishRequest()
      requires Valid()
      modifies this`activeConnections
      ensures Valid() && State() == old(State()).Finished()
      ensures activeConnections + 1 == old(activeConnections) || (activeConnections == 0 && old(activeConnections) == 0)
    {
      if activeConnections > 0 {
        activeConnections := activeConnections - 1;
      }
    }

    method RecordRetry()
      requires Valid()
      modifies this`retryCount
      ensures Valid() && State() == old(State()).Retried() && retryCount == old(retryCount) + 1
    {
      retryCount := retryCount + 1;
    }

    /** Returns whether the caller should pause: only when this response was throttled, and the level is 3. */
    method ObserveResponse(status: Option<nat>, elapsed: Duration) returns (pause: bool)
      requires Valid()
      modifies this`baselineLatency, this`backoffLevel, this`currentRps
      ensures Valid() && State() == old(State()).Judged(status, elapsed)
      ensures pause <==> IsOverload(old(baselineLatency), status, elapsed) && backoffLevel == 3
      ensures IsJudged(old(State()).pace, status, elapsed, State().pace)
    {
      OverloadIs(State().pace, status, elapsed);
      JudgedIs(State().pace, status, elapsed);
      hide IsOverload, IsJudged;
      var baseline: Duration;
      match baselineLatency {
        case Some(current) =>
          if !IsThrottled(status, elapsed, current) {
            var mixed := (current * 7 + elapsed) / 8;
            baselineLatency := Some(if mixed > U64_MAX then U64_MAX else mixed);
          }
          baseline := current;
        case None =>
          baselineLatency := Some(FirstBaseline(elapsed));
          baseline := FirstBaseline(elapsed);
      }
      if IsThrottled(status, elapsed, baseline) {
        backoffLevel := if backoffLevel + 1 < MAX_BACKOFF_LEVEL then backoffLevel + 1 else MAX_BACKOFF_LEVEL;
        currentRps := BackoffRps(configuredRps, backoffLevel);
        return backoffLevel == MAX_BACKOFF_LEVEL;
      }
      if backoffLevel > 0 {
        backoffLevel := backoffLevel - 1;
        currentRps := BackoffRps(configuredRps, backoffLevel);
      }
      pause := false;
    }
  }

  // ----- the retry loop -----

  const MAX_RETRIES: nat := 3

  /** How one send ends. */
  datatype Outcome = Response(status: nat, elapsed: Duration) | Failure(transient: bool, elapsed: Duration)

  /** What each attempt would meet, and when it would ask for its slot. */
  type Net = s: seq<Outcome> | |s| == MAX_RETRIES + 1 witness seq(MAX_RETRIES + 1, _ => Failure(false, 0))
  type Clock = s: seq<real> | |s| == MAX_RETRIES + 1 witness seq(MAX_RETRIES + 1, _ => 0.0)

  predicate Retries(o: Outcome, attempt: nat) {
    attempt < MAX_RETRIES && if o.Response? then o.status == 429 else o.transient
  }

  /** The number of sends, from attempt `k` on: up to the first outcome that is not retried. */
  function Sends(net: Net, k: nat): (n: nat)
    requires k <= MAX_RETRIES
    ensures k < n <= MAX_RETRIES + 1
    ensures !Retries(net[n - 1], n - 1) && forall i :: k <= i < n - 1 ==> Retries(net[i], i)
    decreases MAX_RETRIES - k
  {
    if Retries(net[k], k) then Sends(net, k + 1) else k + 1
  }

  /** What attempt `i` does to the limiter. A failure that ends the loop is not observed. */
  function AttemptEvents(net: Net, clock: Clock, i: nat): seq<Event>
    requires i <= MAX_RETRIES
  {
    [Reserved(clock[i])]
    + match net[i]
      case Response(status, elapsed) => [Observed(Some(status), elapsed)]
      case Failure(_, elapsed) => if Retries(net[i], i) then [Observed(None, elapsed)] else []
  }

  function SendEvents(net: Net, clock: Clock, n: nat): seq<Event>
    requires n <= MAX_RETRIES + 1
  {
    if n == 0 then [] else SendEvents(net, clock, n - 1) + AttemptEvents(net, clock, n - 1)
  }

  /** The limiter's state through one attempt. */
  function AfterAttempt(p: Pace, net: Net, clock: Clock, i: nat): Pace
    requires i <= MAX_RETRIES
  {
    match net[i]
    case Response(status, elapsed) => Observe(Reserve(p, clock[i]), Some(status), elapsed)
    case Failure(_, elapsed) =>
      if Retries(net[i], i) then Observe(Reserve(p, clock[i]), None, elapsed) else Reserve(p, clock[i])
  }

  lemma OneMoreAttempt(p: Pace, net: Net, clock: Clock, n: nat)
    requires n <= MAX_RETRIES
    ensures Run(p, SendEvents(net, clock, n + 1)) == AfterAttempt(Run(p, SendEvents(net, clock, n)), net, clock, n)
  {
    var events := AttemptEvents(net, clock, n);
    RunAppend(p, SendEvents(net, clock, n), events);
    var q := Run(p, SendEvents(net, clock, n));
    assert Run(q, events) == AfterAttempt(q, net, clock, n) by {
      RunOne(q, Reserved(clock[n]));
      if |events| == 2 {
        RunTwo(q, Reserved(clock[n]), events[1]);
      }
    }
  }

  lemma RunOne(p: Pace, e: Event)
    ensures Run(p, [e]) == Apply(p, e)
  {
    assert [e][1..] == [];
  }

  lemma RunTwo(p: Pace, e: Event, e': Event)
    ensures Run(p, [e, e']) == Apply(Apply(p, e), e')
  {
    assert [e, e'] == [e] + [e'];
    RunAppend(p, [e], [e']);
    RunOne(p, e);
    RunOne(Apply(p, e), e');
  }

  lemma SendsFrom(net: Net, k: nat)
    requires k <= MAX_RETRIES
    ensures if Retries(net[k], k) then k < MAX_RETRIES && Sends(net, k) == Sends(net, k + 1) else Sends(net, k) == k + 1
  {
  }

  lemma NothingSent(p: Pace, net: Net, clock: Clock)
    ensures Run(p, SendEvents(net, clock, 0)) == p
  {
  }

  /** The limiter after `n` sends and `retries` retries of one call: every begin has its finish. */
  function After(g: Gauge, net: Net, clock: Clock, host: Option<string>, n: nat, retries: nat): Gauge
    requires n <= MAX_RETRIES + 1
  {
    Gauge(Run(g.pace, SendEvents(net, clock, n)), g.active, g.total + n, g.retries + retries,
          if n > 0 then Met(g.hosts, host) else g.hosts, g.reused + Reuses(g.hosts, host, n))
  }

  /** All sends to a host are reuses, except the very first. */
  function Reuses(hosts: set<string>, host: Option<string>, n: nat): nat {
    if host.None? || n == 0 then 0 else if host.value in hosts then n else n - 1
  }

  /** One pass through the loop: a send that is retried, or the last one. */
  lemma AttemptCounts(g: Gauge, net: Net, clock: Clock, host: Option<string>, n: nat)
    requires n <= MAX_RETRIES
    ensures
      var sent := After(g, net, clock, host, n, n).Begun(host, clock[n]).Finished();
      match net[n]
      case Response(status, elapsed) =>
        var judged := sent.Judged(Some(status), elapsed);
        if status == 429 && n < MAX_RETRIES then judged.Retried() == After(g, net, clock, host, n + 1, n + 1)
        else judged == After(g, net, clock, host, n + 1, n)
      case Failure(transient, elapsed) =>
        if transient && n < MAX_RETRIES
        then sent.Retried().Judged(None, elapsed) == After(g, net, clock, host, n + 1, n + 1)
        else sent == After(g, net, clock, host, n + 1, n)
    ensures Sends(net, n) ==
      if n < MAX_RETRIES && (if net[n].Response? then net[n].status == 429 else net[n].transient)
      then Sends(net, n + 1)
      else n + 1
  {
    OneMoreAttempt(g.pace, net, clock, n);
    SendsFrom(net, n);
    hide Run, SendEvents, AttemptEvents, Observe, Reserve, Sends;
  }

  /** A refusal for sending too much, or a failure that may not happen again. */
  ghost predicate IsRetryable(o: Outcome) {
    (o.Response? && o.status == 429) || (o.Failure? && o.transient)
  }

  lemma SendsAreCounted(limiter: AdaptiveRateLimiter, g: Gauge, net: Net, clock: Clock, host: Option<string>, n: nat,
      retries: nat)
    requires n <= MAX_RETRIES + 1 && limiter.State() == After(g, net, clock, host, n, retries)
    ensures limiter.totalRequests == g.total + n && limiter.retryCount == g.retries + retries
    ensures limiter.activeConnections == g.active
  {
    hide Run, SendEvents, Met, Reuses;
  }

  lemma SendsMeans(net: Net)
    ensures
      var sends := Sends(net, 0);
      && (forall i :: 0 <= i < sends - 1 ==> IsRetryable(net[i]))
      && (sends == 4 || !IsRetryable(net[sends - 1]))
  {
    hide Sends;
    var sends := Sends(net, 0);
    forall i | 0 <= i < sends - 1
      ensures IsRetryable(net[i])
    {
      assert Retries(net[i], i);
    }
  }

  /** The `i`-th send was reserved, and then judged by its own outcome, if anything follows. */
  ghost predicate IsHeard(events: seq<Event>, net: Net, clock: Clock, i: nat)
    requires i <= MAX_RETRIES
  {
    && 2 * i < |events| && events[2 * i] == Reserved(clock[i])
    && (2 * i + 1 < |events| ==>
          events[2 * i + 1] == Observed(if net[i].Response? then Some(net[i].status) else None, net[i].elapsed))
  }

  lemma HeardStays(before: seq<Event>, own: seq<Event>, net: Net, clock: Clock, n: nat)
    requires n <= MAX_RETRIES && |before| == 2 * n && forall i :: 0 <= i < n ==> IsHeard(before, net, clock, i)
    ensures forall i :: 0 <= i < n ==> IsHeard(before + own, net, clock, i)
  {
    forall i | 0 <= i < n
      ensures IsHeard(before + own, net, clock, i)
    {
      assert IsHeard(before, net, clock, i);
    }
  }

  lemma AttemptIsHeard(before: seq<Event>, net: Net, clock: Clock, n: nat)
    requires n <= MAX_RETRIES && |before| == 2 * n
    ensures
      var own := AttemptEvents(net, clock, n);
      && |own| == (if net[n].Failure? && !Retries(net[n], n) then 1 else 2)
      && IsHeard(before + own, net, clock, n)
  {
    hide Retries;
  }

  /**
   What the limiter gets to see: a reservation for every send, and then the outcome, except that a failure which
   ends the call is not observed.
   */
  lemma EverySendIsObserved(net: Net, clock: Clock, n: nat)
    requires n < Sends(net, 0)
    ensures
      var (events, last) := (SendEvents(net, clock, n + 1), n + 1 == Sends(net, 0));
      && |events| == 2 * n + (if last && net[n].Failure? then 1 else 2)
      && forall i :: 0 <= i <= n ==> IsHeard(events, net, clock, i)
  {
    hide Sends, IsHeard, Retries, AttemptEvents;
    assert n + 1 < Sends(net, 0) ==> Retries(net[n], n);
    assert n + 1 == Sends(net, 0) ==> !Retries(net[n], n);
    if n > 0 {
      EverySendIsObserved(net, clock, n - 1);
    } else {
      assert SendEvents(net, clock, 0) == [];
    }
    var (before, own) := (SendEvents(net, clock, n), AttemptEvents(net, clock, n));
    AttemptIsHeard(before, net, clock, n);
    HeardStays(before, own, net, clock, n);
    assert SendEvents(net, clock, n + 1) == before + own;
  }

  /** One pass through the loop: a send, and whether the loop goes on. */
  method SendOnce(limiter: AdaptiveRateLimiter, ghost g: Gauge, net: Net, clock: Clock, host: Option<string>,
                  attempt: nat)
    returns (goesOn: bool, response: Option<nat>)
    requires limiter.Valid() && attempt <= MAX_RETRIES
    requires limiter.State() == After(g, net, clock, host, attempt, attempt)
    modifies limiter
    ensures limiter.Valid()
    ensures goesOn ==> attempt < MAX_RETRIES && Sends(net, attempt) == Sends(net, attempt + 1)
    ensures !goesOn ==> Sends(net, attempt) == attempt + 1
    ensures limiter.State() == After(g, net, clock, host, attempt + 1, if goesOn then attempt + 1 else attempt)
    ensures !goesOn ==> response == if net[attempt].Response? then Some(net[attempt].status) else None
  {
    AttemptCounts(g, net, clock, host, attempt);
    hide *;
    var slot := limiter.BeforeRequest(host, clock[attempt]);
    var outcome := net[attempt];
    limiter.FinishRequest();
    match outcome {
      case Response(status, elapsed) =>
        var pause := limiter.ObserveResponse(Some(status), elapsed);
        if status == 429 && attempt < MAX_RETRIES {
          limiter.RecordRetry();
          return true, None;
        }
        return false, Some(status);
      case Failure(transient, elapsed) =>
        if transient && attempt < MAX_RETRIES {
          limiter.RecordRetry();
          var pause := limiter.ObserveResponse(None, elapsed);
          return true, None;
        }
        return false, None;
    }
  }

  /**
   At most four sends; the last outcome is the first one not retried, and its response is what is returned.
   Every begin is paired with a finish, and retries are the sends less one.
   */
  method SendGetWithResilience(limiter: AdaptiveRateLimiter, net: Net, clock: Clock, host: Option<string>)
    returns (response: Option<nat>, sends: nat)
    requires limiter.Valid()
    modifies limiter
    ensures limiter.Valid() && 1 <= sends <= 4 && sends == Sends(net, 0)
    ensures response == if net[sends - 1].Response? then Some(net[sends - 1].status) else None
    ensures limiter.State() == After(old(limiter.State()), net, clock, host, sends, sends - 1)
    ensures forall i :: 0 <= i < sends - 1 ==> IsRetryable(net[i])
    ensures sends == 4 || !IsRetryable(net[sends - 1])
    ensures limiter.totalRequests == old(limiter.totalRequests) + sends
    ensures limiter.retryCount == old(limiter.retryCount) + sends - 1
    ensures limiter.activeConnections == old(limiter.activeConnections)
  {
    SendsMeans(net);
    ghost var before := limiter.State();
    NothingSent(before.pace, net, clock);
    assert limiter.State() == After(before, net, clock, host, 0, 0);
    SendsAreCounted(limiter, before, net, clock, host, 0, 0);
    assert MAX_RETRIES == 3;
    hide *;
    for attempt := 0 to MAX_RETRIES + 1
      invariant limiter.Valid()
      invariant attempt <= MAX_RETRIES && Sends(net, 0) == Sends(net, attempt)
      invariant limiter.State() == After(before, net, clock, host, attempt, attempt)
    {
      var goesOn, answer := SendOnce(limiter, before, net, clock, host, attempt);
      if !goesOn {
        SendsAreCounted(limiter, before, net, clock, host, attempt + 1, attempt);
        return answer, attempt + 1;
      }
    }
    assert false;
  }

  // ----- many callers at once -----

  /** Where one call of the retry loop is: about to send, sending, or deciding what to do with the outcome. */
  datatype Caller =
    | Ready(attempt: nat)
    | Flying(attempt: nat)
    | Landed(attempt: nat, outcome: Outcome)
    | Done(sends: nat)

  datatype Fleet = Fleet(callers: seq<Caller>, active: nat, total: nat, retries: nat)

  datatype Move = Start | Begin(caller: nat) | Finish(caller: nat, outcome: Outcome) | Settle(caller: nat)

  predicate CanMove(f: Fleet, m: Move) {
    match m
    case Start => true
    case Begin(i) => i < |f.callers| && f.callers[i].Ready?
    case Finish(i, _) => i < |f.callers| && f.callers[i].Flying?
    case Settle(i) => i < |f.callers| && f.callers[i].Landed?
  }

  function Moved(f: Fleet, m: Move): Fleet
    requires CanMove(f, m)
  {
    match m
    case Start => f.(callers := f.callers + [Ready(0)])
    case Begin(i) =>
      f.(callers := f.callers[i := Flying(f.callers[i].attempt)], active := f.active + 1, total := f.total + 1)
    case Finish(i, outcome) =>
      f.(callers := f.callers[i := Landed(f.callers[i].attempt, outcome)],
         active := if f.active > 0 then f.active - 1 else 0)
    case Settle(i) =>
      var c := f.callers[i];
      if Retries(c.outcome, c.attempt)
      then f.(callers := f.callers[i := Ready(c.attempt + 1)], retries := f.retries + 1)
      else f.(callers := f.callers[i := Done(c.attempt + 1)])
  }

  ghost predicate Moves(f: Fleet, moves: seq<Move>, f': Fleet)
    decreases |moves|
  {
    if moves == [] then f' == f
    else CanMove(f, moves[0]) && Moves(Moved(f, moves[0]), moves[1..], f')
  }

  function InFlight(c: Caller): nat {
    if c.Flying? then 1 else 0
  }

  function Sent(c: Caller): nat {
    match c
    case Ready(k) => k
    case Flying(k) => k + 1
    case Landed(k, _) => k + 1
    case Done(n) => n
  }

  function Retried(c: Caller): nat {
    match c
    case Ready(k) => k
    case Flying(k) => k
    case Landed(k, _) => k
    case Done(n) => if n > 0 then n - 1 else 0
  }

  predicate CallerOk(c: Caller) {
    match c
    case Ready(k) => k <= MAX_RETRIES
    case Flying(k) => k <= MAX_RETRIES
    case Landed(k, _) => k <= MAX_RETRIES
    case Done(n) => 1 <= n <= MAX_RETRIES + 1
  }

  ghost predicate FleetOk(f: Fleet) {
    && (forall i :: 0 <= i < |f.callers| ==> CallerOk(f.callers[i]))
    && f.active == Sum(f.callers, InFlight)
    && f.total == Sum(f.callers, Sent)
    && f.retries == Sum(f.callers, Retried)
  }

  lemma MoveKeeps(f: Fleet, m: Move)
    requires FleetOk(f) && CanMove(f, m)
    ensures FleetOk(Moved(f, m))
  {
    hide Sum;
    var f' := Moved(f, m);
    if m.Start? {
      SumAppend(f.callers, Ready(0), InFlight);
      SumAppend(f.callers, Ready(0), Sent);
      SumAppend(f.callers, Ready(0), Retried);
    } else {
      var (i, c) := (m.caller, f'.callers[m.caller]);
      assert f'.callers == f.callers[i := c];
      SumUpdate(f.callers, i, c, InFlight);
      SumUpdate(f.callers, i, c, Sent);
      SumUpdate(f.callers, i, c, Retried);
      SumCovers(f.callers, i, InFlight);
    }
  }

  lemma {:induction false} FleetAlways(f: Fleet, moves: seq<Move>, f': Fleet)
    requires FleetOk(f) && Moves(f, moves, f')
    ensures FleetOk(f')
    decreases |moves|
  {
    if moves != [] {
      MoveKeeps(f, moves[0]);
      hide FleetOk, Moved, CanMove;
      FleetAlways(Moved(f, moves[0]), moves[1..], f');
    }
  }

  /**
   However calls overlap: the active count is the number of sends in flight (so a finish never finds it at
   zero), no call sends more than four times, and once all calls are done nothing is active and every
   send but the first of each call is a recorded retry.
   */
  lemma CountersAreExact(moves: seq<Move>, f: Fleet)
    requires Moves(Fleet([], 0, 0, 0), moves, f)
    ensures f.active == Sum(f.callers, InFlight)
    ensures forall i, o :: CanMove(f, Finish(i, o)) ==> f.active > 0
    ensures forall i :: 0 <= i < |f.callers| ==> Sent(f.callers[i]) <= 4
    ensures (forall i :: 0 <= i < |f.callers| ==> f.callers[i].Done?)
      ==> f.active == 0 && f.total == f.retries + |f.callers|
  {
    FleetAlways(Fleet([], 0, 0, 0), moves, f);
    forall i, o | CanMove(f, Finish(i, o))
      ensures f.active > 0
    {
      SumCovers(f.callers, i, InFlight);
    }
    if forall i :: 0 <= i < |f.callers| ==> f.callers[i].Done? {
      SumZero(f.callers, InFlight);
      SentIsRetriedAndOne(f.callers);
    }
  }

  lemma {:induction false} SentIsRetriedAndOne(callers: seq<Caller>)
    requires forall i :: 0 <= i < |callers| ==> callers[i].Done? && CallerOk(callers[i])
    ensures Sum(callers, Sent) == Sum(callers, Retried) + |callers|
  {
    if callers != [] {
      SentIsRetriedAndOne(callers[1..]);
    }
  }
}
