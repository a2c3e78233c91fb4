/**
  loadBalancer/load_balancer_registry_side.go: a balancer that caches the registry's list for a
  while, and how stale that cache can be.

  The HTTP request is a parameter: its answer's header, or nothing for an error, and the time at
  which the answer is back.
 */
module RegistryBalancer {
  import opened Wrappers
  import opened Strings
  import opened Registry
  import opened LoadBalancer

  const DEFAULT_UPDATE_TIMEOUT := 10_000

  /** lastUpdate is None for the zero time, which lies before every deadline. */
  datatype Cache = Cache(balancer: Balancer, timeout: int, lastUpdate: Option<Time>)

  predicate IsFresh(c: Cache, now: Time) {
    c.lastUpdate.Some? && c.lastUpdate.value + c.timeout > now
  }

  function Refreshed(c: Cache, now: Time, header: Option<string>, after: Time): Cache {
    if IsFresh(c, now) || header.None? then c
    else c.(balancer := c.balancer.(list := Parse(header.value)), lastUpdate := Some(after))
  }

  predicate Accepts(c: Cache, now: Time, header: Option<string>) {
    IsFresh(c, now) || header.Some?
  }

  /** What updates, refreshes and picks of other goroutines make of the fields. */
  datatype Others = Others(list: seq<string>, index: nat, lastUpdate: Option<Time>) {
    predicate Fits() {
      index + 1 <= MAX_INT32 && |list| <= MAX_INT32
    }
  }

  function LeftBy(c: Cache, others: Option<Others>): Cache {
    match others
    case None => c
    case Some(o) => c.(balancer := Balancer(o.list, o.index), lastUpdate := o.lastUpdate)
  }

  class LoadBalancerRegistrySide {
    const side: LoadBalancerClientSide
    const timeout: int
    var lastUpdate: Option<Time>

    ghost predicate Valid()
      reads this, side
    {
      side.Valid()
    }

    function View(): Cache
      requires 0 <= side.serverIndex
      reads this, side
    {
      Cache(side.View(), timeout, lastUpdate)
    }

    constructor (timeout: int, random: nat)
      requires random < MAX_INT32 - 1
      ensures Valid() && fresh(side)
      ensures side.serverList == [] && side.serverIndex == random && lastUpdate == None
      ensures this.timeout == if timeout == 0 then DEFAULT_UPDATE_TIMEOUT else timeout
    {
      side := new LoadBalancerClientSide([], random);
      this.timeout := if timeout == 0 then DEFAULT_UPDATE_TIMEOUT else timeout;
      lastUpdate := None;
    }

    method UpdateServerList(servers: seq<string>, now: Time)
      requires Valid() && |servers| <= MAX_INT32
      modifies this`lastUpdate, side`serverList
      ensures Valid()
      ensures side.serverList == servers && lastUpdate == Some(now)
    {
      side.serverList := servers;
      lastUpdate := Some(now);
    }

    /** The cache may still be served at this time. */
    ghost predicate Fresh(now: Time)
      reads this
    {
      lastUpdate.Some? && now < lastUpdate.value + timeout
    }

    method RefreshServerList(now: Time, header: Option<string>, after: Time) returns (ok: bool)
      requires Valid() && (header.Some? ==> |Split(header.value)| <= MAX_INT32)
      modifies this`lastUpdate, side`serverList
      ensures Valid()
      ensures View() == Refreshed(old(View()), now, header, after)
      ensures ok == Accepts(old(View()), now, header)
      ensures old(Fresh(now)) ==> ok && side.serverList == old(side.serverList) && lastUpdate == old(lastUpdate)
      ensures !old(Fresh(now)) && header.None? ==>
                !ok && side.serverList == old(side.serverList) && lastUpdate == old(lastUpdate)
      ensures !old(Fresh(now)) && header.Some? ==>
                ok && side.serverList == Parse(header.value) && lastUpdate == Some(after)
    {
      if lastUpdate.Some? && lastUpdate.value + timeout > now {
        return true;
      }
      if header.None? {
        return false;
      }
      var servers := Split(header.value);
      side.serverList := [];
      for i := 0 to |servers|
        invariant Valid() && |side.serverList| <= i
        invariant lastUpdate == old(lastUpdate) && side.serverIndex == old(side.serverIndex)
        invariant side.serverList == KeepNonEmpty(servers[..i])
      {
        assert servers[..i + 1][..i] == servers[..i];
        if TrimSpace(servers[i]) != "" {
          side.serverList := side.serverList + [TrimSpace(servers[i])];
        }
      }
      assert servers[..|servers|] == servers;
      lastUpdate := Some(after);
      ok := true;
    }

    /** Other goroutines have the mutex between two sections, and leave the fields like this. */
    method LetOthers(others: Option<Others>)
      requires Valid() && (others.Some? ==> others.value.Fits())
      modifies this`lastUpdate, side`serverList, side`serverIndex
      ensures Valid() && View() == LeftBy(old(View()), others)
    {
      if others.Some? {
        side.serverList, side.serverIndex := others.value.list, others.value.index;
        lastUpdate := others.value.lastUpdate;
      }
    }

    /** Refreshes in one section and selects in another; `others` is what happens in between. */
    method GetServer(
      mode: Mode, now: Time, header: Option<string>, after: Time, others: Option<Others>, draw: nat -> nat)
      returns (r: Option<Result<string, SelectError>>)
      requires Valid() && (header.Some? ==> |Split(header.value)| <= MAX_INT32)
      requires (others.Some? ==> others.value.Fits()) && forall n: nat :: n > 0 ==> draw(n) < n
      modifies this`lastUpdate, side
      ensures Valid()
      ensures !old(Fresh(now)) && header.None? ==>
                r == None && side.serverList == old(side.serverList) && side.serverIndex == old(side.serverIndex)
                && lastUpdate == old(lastUpdate)
      ensures old(Fresh(now)) || header.Some? ==>
                var list := if others.Some? then others.value.list
                            else if old(Fresh(now)) then old(side.serverList) else Parse(header.value);
                var index := if others.Some? then others.value.index else old(side.serverIndex);
                && r.Some? && side.serverList == list
                && lastUpdate == (if others.Some? then others.value.lastUpdate
                                  else if old(Fresh(now)) then old(lastUpdate) else Some(after))
                && (list == [] ==> r.value == Failure(NoServers) && side.serverIndex == index)
                && (list != [] && mode == RoundRobinSelect ==>
                      && r.value == Success(list[index % |list|])
                      && side.serverIndex == (index + 1) % |list|)
                && (list != [] && mode != RoundRobinSelect ==>
                      && r.value == (if mode == RandomSelect then Success(list[draw(|list|)]) else Failure(UnknownMode))
                      && side.serverIndex == index)
    {
      var ok := RefreshServerList(now, header, after);
      if !ok {
        return None;
      }
      LetOthers(others);
      var selected := side.GetServer(mode, if side.serverList == [] then 0 else draw(|side.serverList|));
      r := Some(selected);
    }

    /** Refreshes in one section and copies in another; `others` is what happens in between. */
    method GetServerList(now: Time, header: Option<string>, after: Time, others: Option<Others>)
      returns (r: Option<seq<string>>)
      requires Valid() && (header.Some? ==> |Split(header.value)| <= MAX_INT32)
      requires others.Some? ==> others.value.Fits()
      modifies this`lastUpdate, side`serverList, side`serverIndex
      ensures Valid()
      ensures !old(Fresh(now)) && header.None? ==>
                r == None && side.serverList == old(side.serverList) && side.serverIndex == old(side.serverIndex)
                && lastUpdate == old(lastUpdate)
      ensures old(Fresh(now)) || header.Some? ==>
                && side.serverList == (if others.Some? then others.value.list
                                       else if old(Fresh(now)) then old(side.serverList) else Parse(header.value))
                && side.serverIndex == (if others.Some? then others.value.index else old(side.serverIndex))
                && r == Some(side.serverList)
    {
      var ok := RefreshServerList(now, header, after);
      if !ok {
        return None;
      }
      LetOthers(others);
      var list := side.GetServerList();
      r := Some(list);
    }
  }

  // ----- a registry and a balancer that refreshes from it -----

  datatype World = World(ops: seq<Op>, cache: Cache)

  /** An answered GET: when the registry judged each entry, when it was done with the list, and
      the list it returned. The registry goes on from `end`, while the answer is under way. */
  datatype Fetch = Fetch(judged: string -> Time, end: Time, alive: seq<string>)

  datatype Event =
    | AtRegistry(op: Op)
    | Refresh(now: Time, fetch: Option<Fetch>, after: Time)

  function Start(timeout: int, random: nat): World {
    World([], Cache(Balancer([], random), timeout, None))
  }

  function Header(fetch: Option<Fetch>): Option<string> {
    if fetch.None? then None else Some(Join(fetch.value.alive))
  }

  /** The balancer asks the registry only when its cache is not fresh. */
  predicate Asks(w: World, e: Event)
    requires e.Refresh?
  {
    !IsFresh(w.cache, e.now) && e.fetch.Some?
  }

  /** Posted addresses are clean or empty; a GET happens between the request and its answer, which
      takes at most `latency`, and returns what Registry.GetAliveServerList promises. */
  ghost predicate Allowed(w: World, registryTimeout: int, latency: int, e: Event) {
    match e
    case AtRegistry(op) => Timed(w.ops + [op]) && (op.Post? && op.address != "" ==> Clean(op.address))
    case Refresh(now, fetch, after) =>
      Asks(w, e) ==>
        && Timed(w.ops + [Get(fetch.value.judged, fetch.value.end)])
        && (forall a :: now <= fetch.value.judged(a))
        && fetch.value.end <= after <= now + latency
        && Lists(fetch.value.alive, AliveSet(Servers(w.ops, registryTimeout), registryTimeout, fetch.value.judged))
  }

  function Step(w: World, e: Event): World {
    match e
    case AtRegistry(op) => w.(ops := w.ops + [op])
    case Refresh(now, fetch, after) =>
      World(if Asks(w, e) then w.ops + [Get(fetch.value.judged, fetch.value.end)] else w.ops,
            Refreshed(w.cache, now, Header(fetch), after))
  }

  /** When RefreshServerList returns without an error. */
  function AcceptedAt(w: World, e: Event): Time
    requires e.Refresh?
  {
    if IsFresh(w.cache, e.now) then e.now else e.after
  }

  ghost predicate CanRun(w: World, registryTimeout: int, latency: int, events: seq<Event>)
    decreases |events|
  {
    events == [] ||
    (&& Allowed(w, registryTimeout, latency, events[0])
     && CanRun(Step(w, events[0]), registryTimeout, latency, events[1..]))
  }

  function Run(w: World, events: seq<Event>): World
    decreases |events|
  {
    if events == [] then w else Run(Step(w, events[0]), events[1..])
  }

  // ----- the invariant -----

  /** Some heartbeat of a arrived later than t. */
  ghost predicate BeatAfter(ops: seq<Op>, a: string, t: int) {
    exists h :: h in PostTimes(ops, a) && h > t
  }

  ghost predicate PostsClean(ops: seq<Op>) {
    forall i :: 0 <= i < |ops| && ops[i].Post? && ops[i].address != "" ==> Clean(ops[i].address)
  }

  ghost predicate Inv(w: World, registryTimeout: int, latency: int) {
    && PostsClean(w.ops)
    && (w.cache.lastUpdate.None? ==> w.cache.balancer.list == [])
    && (w.cache.lastUpdate.Some? ==>
          forall a :: a in w.cache.balancer.list ==>
            BeatAfter(w.ops, a, w.cache.lastUpdate.value - registryTimeout - latency))
  }

  lemma {:induction false} PostedAreClean(ops: seq<Op>, a: string)
    requires PostsClean(ops) && PostTimes(ops, a) != []
    ensures Clean(a)
  {
    var init := ops[..|ops| - 1];
    assert forall i :: 0 <= i < |init| ==> init[i] == ops[i];
    if PostTimes(init, a) != [] {
      PostedAreClean(init, a);
    }
  }

  lemma BeatsStay(ops: seq<Op>, op: Op, a: string, t: int)
    requires BeatAfter(ops, a, t)
    ensures BeatAfter(ops + [op], a, t)
  {
    assert (ops + [op])[..|ops|] == ops;
    var h :| h in PostTimes(ops, a) && h > t;
    assert h in PostTimes(ops + [op], a);
  }

  /** A fetched list is the registry's, and each server in it has a recent heartbeat. */
  lemma FetchedAreRecent(w: World, registryTimeout: int, latency: int, e: Event, a: string)
    requires Inv(w, registryTimeout, latency) && registryTimeout != 0
    requires e.Refresh? && Asks(w, e) && Allowed(w, registryTimeout, latency, e)
    requires a in Parse(Join(e.fetch.value.alive))
    ensures BeatAfter(w.ops, a, e.after - registryTimeout - latency)
  {
    var f := e.fetch.value;
    LazyEvictionUnobservable(w.ops, registryTimeout, f.judged, f.end);
    forall x | x in f.alive ensures Clean(x) && RecordedAlive(w.ops, x, registryTimeout, f.judged(x)) {
      PostedAreClean(w.ops, x);
    }
    ListRoundTrip(f.alive);
    assert Last(PostTimes(w.ops, a)) in PostTimes(w.ops, a);
  }

  /** After a refresh that asked the registry the cache holds the registry's list, and with it exactly
      the servers that a record which never evicts counts as alive when they were judged. */
  lemma RefreshTakesTheAnswer(w: World, registryTimeout: int, latency: int, e: Event)
    requires Inv(w, registryTimeout, latency)
    requires e.Refresh? && Asks(w, e) && Allowed(w, registryTimeout, latency, e)
    ensures Step(w, e).cache.balancer.list == e.fetch.value.alive
    ensures Step(w, e).cache.lastUpdate == Some(e.after)
    ensures forall a :: a in Step(w, e).cache.balancer.list <==>
                          RecordedAlive(w.ops, a, registryTimeout, e.fetch.value.judged(a))
  {
    var f := e.fetch.value;
    LazyEvictionUnobservable(w.ops, registryTimeout, f.judged, f.end);
    forall x | x in f.alive ensures Clean(x) {
      PostedAreClean(w.ops, x);
    }
    ListRoundTrip(f.alive);
  }

  /** A cache that is still fresh, or a registry that is down, leaves the list as it is; a fresh one
      is served without an error even then. */
  lemma OtherwiseTheCacheStays(w: World, now: Time, fetch: Option<Fetch>, after: Time)
    ensures
      var isFresh := w.cache.lastUpdate.Some? && now < w.cache.lastUpdate.value + w.cache.timeout;
      && (isFresh || fetch.None? ==> Step(w, Refresh(now, fetch, after)).cache == w.cache)
      && (Accepts(w.cache, now, Header(fetch)) <==> isFresh || fetch.Some?)
      && (Asks(w, Refresh(now, fetch, after)) <==> !isFresh && fetch.Some?)
  {
  }

  lemma StepKeepsInv(w: World, registryTimeout: int, latency: int, e: Event)
    requires Inv(w, registryTimeout, latency) && registryTimeout != 0 && Allowed(w, registryTimeout, latency, e)
    ensures Inv(Step(w, e), registryTimeout, latency)
  {
    var n := Step(w, e);
    if n.cache.lastUpdate.Some? {
      var t := n.cache.lastUpdate.value - registryTimeout - latency;
      forall a | a in n.cache.balancer.list ensures BeatAfter(n.ops, a, t) {
        if e.Refresh? && Asks(w, e) {
          FetchedAreRecent(w, registryTimeout, latency, e, a);
        }
        if n.ops != w.ops {
          BeatsStay(w.ops, n.ops[|w.ops|], a, t);
        }
      }
    }
  }

  lemma {:induction false} RunKeepsInv(w: World, registryTimeout: int, latency: int, events: seq<Event>)
    requires Inv(w, registryTimeout, latency) && registryTimeout != 0 && CanRun(w, registryTimeout, latency, events)
    ensures Inv(Run(w, events), registryTimeout, latency)
    ensures Run(w, events).cache.timeout == w.cache.timeout
    decreases |events|
  {
    if events != [] {
      StepKeepsInv(w, registryTimeout, latency, events[0]);
      RunKeepsInv(Step(w, events[0]), registryTimeout, latency, events[1..]);
    }
  }

  /** Staleness bound: whenever RefreshServerList accepts a list at time t, each server in it has a
      heartbeat h with t - h below the registry's timeout plus the balancer's plus the latency. */
  lemma StalenessBound(
    timeout: int, random: nat, registryTimeout: int, latency: int, events: seq<Event>, e: Event, a: string)
    requires registryTimeout != 0 && CanRun(Start(timeout, random), registryTimeout, latency, events)
    requires
      var w := Run(Start(timeout, random), events);
      && Allowed(w, registryTimeout, latency, e) && e.Refresh? && Accepts(w.cache, e.now, Header(e.fetch))
      && a in Step(w, e).cache.balancer.list
    ensures
      var w := Run(Start(timeout, random), events);
      exists h :: h in PostTimes(Step(w, e).ops, a)
        && AcceptedAt(w, e) - h < registryTimeout + (if timeout > 0 then timeout else 0) + latency
  {
    var w := Run(Start(timeout, random), events);
    RunKeepsInv(Start(timeout, random), registryTimeout, latency, events);
    StepKeepsInv(w, registryTimeout, latency, e);
    var n := Step(w, e);
    var t := n.cache.lastUpdate.value - registryTimeout - latency;
    assert BeatAfter(n.ops, a, t);
  }
}
