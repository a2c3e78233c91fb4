/**
  server/server.go, Heartbeat: one heartbeat at once, then one per tick for as long as they
  succeed; and how its default period keeps a server in the registry.
 */
module Heartbeat {
  import opened Registry

  const SECOND := 1000
  const MINUTE := 60 * SECOND
  const DEFAULT_TIMEOUT := 2 * MINUTE
  const DEFAULT_PERIOD := DEFAULT_TIMEOUT - MINUTE

  /** One heartbeat: how late the loop was in taking its tick, how long the message took to reach
      the registry, how long until the answer was back, and whether it was an error. */
  datatype Exchange = Exchange(late: nat, latency: nat, duration: nat, ok: bool)

  /** A ticker ticks once per period after its creation and keeps at most one tick; so a loop that
      took a tick at time `taken` takes the first one after that next. */
  function NextTick(created: Time, period: nat, taken: Time): (tick: Time)
    requires period > 0 && created <= taken
    ensures taken < tick <= taken + period
    decreases taken - created
  {
    if taken < created + period then created + period else NextTick(created + period, period, taken)
  }

  /** Every tick lies a whole number of periods after the ticker was made; so the one after the i-th
      is at the earliest the next. */
  lemma {:induction false} TicksOnTheGrid(created: Time, period: nat, taken: Time, i: nat)
    requires period > 0 && created + i * period <= taken
    ensures exists m: nat :: m > i && NextTick(created, period, taken) == created + m * period
    ensures NextTick(created, period, taken) >= created + (i + 1) * period
    decreases taken - created
  {
    if i > 0 || taken >= created + period {
      assert created + period <= taken by {
        assert i > 0 ==> i * period >= period;
      }
      var before := if i > 0 then i - 1 else 0;
      assert i > 0 ==> before * period == i * period - period;
      TicksOnTheGrid(created + period, period, taken, before);
      var m: nat :| m > before && NextTick(created + period, period, taken) == created + period + m * period;
      assert (m + 1) * period == m * period + period;
      assert (before + 1) * period == before * period + period;
      assert (i + 1) * period == i * period + period;
    } else {
      assert NextTick(created, period, taken) == created + 1 * period;
    }
  }

  function Max(a: int, b: int): int {
    if a < b then b else a
  }

  /** The heartbeats that are sent: up to and including the first that fails. */
  function Sent(exchanges: seq<Exchange>): (n: nat)
    ensures n <= |exchanges|
    ensures forall k :: 0 <= k < n - 1 ==> exchanges[k].ok
    ensures n < |exchanges| ==> n > 0 && !exchanges[n - 1].ok
  {
    if exchanges == [] then 0
    else if !exchanges[0].ok then 1
    else 1 + Sent(exchanges[1..])
  }

  /** When the ticker is made: the first exchange is over. */
  function Created(start: Time, exchanges: seq<Exchange>): Time
    requires exchanges != []
  {
    start + exchanges[0].duration
  }

  /** When the tick for heartbeat k is taken; the first heartbeat waits for none. */
  function Taken(period: nat, start: Time, exchanges: seq<Exchange>, k: nat): (t: Time)
    requires period > 0 && k < |exchanges|
    ensures t >= Created(start, exchanges)
  {
    if k == 0 then Created(start, exchanges)
    else
      var before := Taken(period, start, exchanges, k - 1);
      var tick := NextTick(Created(start, exchanges), period, before);
      Max(Over(before, exchanges, k - 1), tick) + exchanges[k].late
  }

  /** When exchange k is over, if its tick was taken at `taken`. */
  function Over(taken: Time, exchanges: seq<Exchange>, k: nat): Time
    requires k < |exchanges|
  {
    if k == 0 then taken else taken + exchanges[k].duration
  }

  /** When heartbeat k is sent. */
  function SendTime(period: nat, start: Time, exchanges: seq<Exchange>, k: nat): Time
    requires period > 0 && k < |exchanges|
  {
    if k == 0 then start else Taken(period, start, exchanges, k)
  }

  /** When the first n heartbeats reach the registry. */
  function FirstArrivals(period: nat, start: Time, exchanges: seq<Exchange>, n: nat): seq<Time>
    requires period > 0 && n <= |exchanges|
  {
    if n == 0 then []
    else FirstArrivals(period, start, exchanges, n - 1)
         + [SendTime(period, start, exchanges, n - 1) + exchanges[n - 1].latency]
  }

  lemma {:induction false} ArrivalAt(period: nat, start: Time, exchanges: seq<Exchange>, n: nat, k: nat)
    requires period > 0 && k < n <= |exchanges|
    ensures |FirstArrivals(period, start, exchanges, n)| == n
    ensures FirstArrivals(period, start, exchanges, n)[k]
            == SendTime(period, start, exchanges, k) + exchanges[k].latency
  {
    if n > 1 {
      ArrivalAt(period, start, exchanges, n - 1, if k < n - 1 then k else 0);
    }
  }

  /** When those that are sent do. */
  function Arrivals(period: nat, start: Time, exchanges: seq<Exchange>): seq<Time>
    requires period > 0
  {
    FirstArrivals(period, start, exchanges, Sent(exchanges))
  }

  method Heartbeat(heartRate: nat, start: Time, exchanges: seq<Exchange>) returns (arrivals: seq<Time>)
    ensures heartRate > 0 ==> arrivals == Arrivals(heartRate, start, exchanges)
    ensures heartRate == 0 ==> arrivals == Arrivals(DEFAULT_PERIOD, start, exchanges)
  {
    var period := heartRate;
    if heartRate == 0 {
      period := DEFAULT_PERIOD;
    }
    if exchanges == [] {
      return [];
    }
    arrivals := KeepBeating(period, start, exchanges);
  }

  /** The first heartbeat, and then the loop of the goroutine that Heartbeat starts. */
  method KeepBeating(period: nat, start: Time, exchanges: seq<Exchange>) returns (arrivals: seq<Time>)
    requires period > 0 && exchanges != []
    ensures arrivals == Arrivals(period, start, exchanges)
  {
    arrivals := [start + exchanges[0].latency];
    var now := start + exchanges[0].duration;
    var failed := !exchanges[0].ok;
    var created, taken := now, now;
    while !failed && |arrivals| < |exchanges|
      invariant 0 < |arrivals| <= |exchanges|
      invariant forall k :: 0 <= k < |arrivals| - 1 ==> exchanges[k].ok
      invariant failed == !exchanges[|arrivals| - 1].ok
      invariant taken == Taken(period, start, exchanges, |arrivals| - 1)
      invariant now == Over(taken, exchanges, |arrivals| - 1)
      invariant arrivals == FirstArrivals(period, start, exchanges, |arrivals|)
      decreases |exchanges| - |arrivals|, !failed
    {
      var e := exchanges[|arrivals|];
      var tick := NextTick(created, period, taken);
      taken := Max(now, tick) + e.late;
      now := taken + e.duration;
      failed := !e.ok;
      arrivals := arrivals + [taken + e.latency];
    }
    SentIs(exchanges, |arrivals|);
  }

  lemma {:induction false} SentIs(exchanges: seq<Exchange>, n: nat)
    requires n <= |exchanges|
    requires forall k :: 0 <= k < n - 1 ==> exchanges[k].ok
    requires n < |exchanges| ==> n > 0 && !exchanges[n - 1].ok
    ensures Sent(exchanges) == n
  {
    if n > 1 {
      assert exchanges[0].ok;
      SentIs(exchanges[1..], n - 1);
    }
  }

  /** A heartbeat is sent at once and the others one at a time, none before its tick: the next one
      waits until the exchange before it is over, and heartbeat k for k whole periods. */
  lemma {:induction false} SendsInTurn(period: nat, start: Time, exchanges: seq<Exchange>, k: nat)
    requires period > 0 && k < |exchanges|
    ensures k == 0 ==> SendTime(period, start, exchanges, k) == start
    ensures k > 0 ==>
              SendTime(period, start, exchanges, k)
              >= SendTime(period, start, exchanges, k - 1) + exchanges[k - 1].duration + exchanges[k].late
    ensures k > 0 ==>
              SendTime(period, start, exchanges, k)
              >= start + exchanges[0].duration + k * period + exchanges[k].late
    ensures Taken(period, start, exchanges, k) >= Created(start, exchanges) + k * period
  {
    if k > 0 {
      SendsInTurn(period, start, exchanges, k - 1);
      TicksOnTheGrid(Created(start, exchanges), period, Taken(period, start, exchanges, k - 1), k - 1);
    }
  }

  /** What exchange and scheduling add to the period between two arrivals. */
  function Extra(e: Exchange, next: Exchange): int {
    e.duration - e.latency + next.late + next.latency
  }

  lemma {:induction false} ArrivalCount(period: nat, start: Time, exchanges: seq<Exchange>, n: nat)
    requires period > 0 && n <= |exchanges|
    ensures |FirstArrivals(period, start, exchanges, n)| == n
  {
    if n > 0 {
      ArrivalCount(period, start, exchanges, n - 1);
    }
  }

  lemma ArrivalGap(period: nat, start: Time, exchanges: seq<Exchange>, i: nat)
    requires period > 0 && i + 1 < Sent(exchanges)
    ensures
      var arrivals := Arrivals(period, start, exchanges);
      |arrivals| == Sent(exchanges) &&
      arrivals[i + 1] - arrivals[i] <= period + Extra(exchanges[i], exchanges[i + 1])
  {
    var taken, next := Taken(period, start, exchanges, i), Taken(period, start, exchanges, i + 1);
    var tick := NextTick(Created(start, exchanges), period, taken);
    assert next == Max(Over(taken, exchanges, i), tick) + exchanges[i + 1].late;
    ArrivalAt(period, start, exchanges, Sent(exchanges), i);
    ArrivalAt(period, start, exchanges, Sent(exchanges), i + 1);
  }

  /** With the default period and the default registry timeout, a server whose exchanges add less
      than a minute stays in every GET answer from its first heartbeat until the timeout after
      the last one that has arrived. */
  lemma DefaultPeriodKeepsAlive(start: Time, exchanges: seq<Exchange>, ops: seq<Op>, k: nat, a: string)
    requires forall i :: 0 <= i < |exchanges| - 1 ==> Extra(exchanges[i], exchanges[i + 1]) < MINUTE
    requires Timed(ops) && k < |ops| && ops[k].Get?
    requires PostTimes(ops, a) <= Arrivals(DEFAULT_PERIOD, start, exchanges) && PostTimes(ops[..k], a) != []
    requires PostTimes(ops, a) != [] && ops[k].judged(a) < Last(PostTimes(ops, a)) + DEFAULT_TIMEOUT
    ensures a in AliveSet(Servers(ops[..k], DEFAULT_TIMEOUT), DEFAULT_TIMEOUT, ops[k].judged)
  {
    var times, arrivals := PostTimes(ops, a), Arrivals(DEFAULT_PERIOD, start, exchanges);
    ArrivalCount(DEFAULT_PERIOD, start, exchanges, Sent(exchanges));
    forall i | 0 <= i < |times| - 1 ensures times[i + 1] - times[i] < DEFAULT_TIMEOUT {
      ArrivalGap(DEFAULT_PERIOD, start, exchanges, i);
      assert times[i + 1] == arrivals[i + 1] && times[i] == arrivals[i];
    }
    HeartbeatContinuity(ops, k, DEFAULT_TIMEOUT, a);
  }
}
