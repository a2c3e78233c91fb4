/**
  registry/registry.go: the map of servers, which GET evicts from lazily, compared with a record
  of heartbeats that never forgets anything.

  Times are integers. A GET reads the clock once per entry, in no particular order, so the time
  at which an entry is judged is a function of its address.
 */
module Registry {
  import opened Strings

  type Time = int

  /** No timeout means that every server counts as alive. */
  predicate Alive(last: Time, timeout: int, now: Time) {
    timeout == 0 || last + timeout > now
  }

  function AliveSet(servers: map<string, Time>, timeout: int, judged: string -> Time): set<string> {
    set a | a in servers && Alive(servers[a], timeout, judged(a))
  }

  function Evict(servers: map<string, Time>, timeout: int, judged: string -> Time): map<string, Time> {
    map a | a in servers && Alive(servers[a], timeout, judged(a)) :: servers[a]
  }

  datatype Method = GET | POST | OTHER

  datatype Response = Ok | AliveServers(header: string) | InternalServerError | MethodNotAllowed

  class Registry {
    const timeout: int
    var servers: map<string, Time>  // RpcServerAddressToServerInfoMap, to lastUpdateTime

    constructor (timeout: int)
      ensures this.timeout == timeout && servers == map[]
    {
      this.timeout := timeout;
      servers := map[];
    }

    method RegisterServer(address: string, now: Time)
      modifies this`servers
      ensures servers == old(servers)[address := now]
    {
      if address !in servers {
        servers := servers[address := now];
      } else {
        servers := servers[address := now];
      }
    }

    /** Entries are visited in an arbitrary order; dead ones are deleted on the way. */
    method GetAliveServerList(judged: string -> Time) returns (alive: seq<string>)
      modifies this`servers
      ensures servers == Evict(old(servers), timeout, judged)
      ensures Lists(alive, AliveSet(old(servers), timeout, judged))
      ensures forall a :: a in alive <==>
                a in old(servers) && (timeout == 0 || judged(a) < old(servers)[a] + timeout)
      ensures forall a :: a in alive <==> a in servers
      ensures forall a :: a in servers ==> servers[a] == old(servers)[a]
    {
      alive := [];
      var todo := servers.Keys;
      while todo != {}
        invariant todo <= old(servers).Keys
        invariant servers == map a | a in old(servers) && (a in todo || Alive(old(servers)[a], timeout, judged(a)))
                               :: old(servers)[a]
        invariant NoDuplicates(alive)
        invariant forall a :: a in alive <==> a in AliveSet(old(servers), timeout, judged) && a !in todo
        decreases |todo|
      {
        var address :| address in todo;
        if timeout == 0 || servers[address] + timeout > judged(address) {
          alive := alive + [address];
        } else {
          servers := servers - {address};
        }
        todo := todo - {address};
      }
      SortLists(alive, AliveSet(old(servers), timeout, judged));
      alive := Sort(alive);
    }

    method ServeHTTP(kind: Method, address: string, now: Time, judged: string -> Time) returns (r: Response)
      modifies this`servers
      ensures kind == GET ==> servers == After(old(servers), Get(judged, now), timeout)
      ensures kind == POST ==> servers == After(old(servers), Post(address, now), timeout)
      ensures kind == GET ==>
                && servers == Evict(old(servers), timeout, judged)
                && exists alive ::
                     Lists(alive, AliveSet(old(servers), timeout, judged)) && r == AliveServers(Join(alive))
      ensures kind == POST && address == "" ==> r == InternalServerError && servers == old(servers)
      ensures kind == POST && address != "" ==> r == Ok && servers == old(servers)[address := now]
      ensures kind == OTHER ==> r == MethodNotAllowed && servers == old(servers)
    {
      match kind
      case GET =>
        var alive := GetAliveServerList(judged);
        r := AliveServers(Join(alive));
      case POST =>
        if address == "" {
          return InternalServerError;
        }
        RegisterServer(address, now);
        r := Ok;
      case OTHER =>
        r := MethodNotAllowed;
    }
  }

  // ----- histories of requests -----

  /** A GET ends at `end`, after its last look at the clock. */
  datatype Op = Post(address: string, time: Time) | Get(judged: string -> Time, end: Time)

  function End(op: Op): Time {
    match op
    case Post(_, time) => time
    case Get(_, end) => end
  }

  ghost predicate NotBefore(op: Op, t: Time) {
    match op
    case Post(_, time) => t <= time
    case Get(judged, end) => t <= end && forall a :: t <= judged(a)
  }

  /** The clock never runs backwards. */
  ghost predicate Timed(ops: seq<Op>) {
    && (forall i, j :: 0 <= i < j < |ops| ==> NotBefore(ops[j], End(ops[i])))
    && (forall i :: 0 <= i < |ops| && ops[i].Get? ==> forall a :: ops[i].judged(a) <= ops[i].end)
  }

  /** What one request makes of the registry's map. */
  function After(before: map<string, Time>, op: Op, timeout: int): map<string, Time> {
    match op
    case Post(address, time) => if address == "" then before else before[address := time]
    case Get(judged, _) => Evict(before, timeout, judged)
  }

  /** The registry's map after a history. */
  function Servers(ops: seq<Op>, timeout: int): map<string, Time> {
    if ops == [] then map[] else After(Servers(ops[..|ops| - 1], timeout), ops[|ops| - 1], timeout)
  }

  /** The record that never evicts: when a server's heartbeats arrived, in order. */
  function PostTimes(ops: seq<Op>, a: string): seq<Time> {
    if ops == [] then []
    else
      PostTimes(ops[..|ops| - 1], a)
      + match ops[|ops| - 1]
        case Post(address, time) => if address == a && a != "" then [time] else []
        case Get(_, _) => []
  }

  function Last(times: seq<Time>): Time
    requires times != []
  {
    times[|times| - 1]
  }

  /** Alive according to the record alone. */
  predicate RecordedAlive(ops: seq<Op>, a: string, timeout: int, now: Time) {
    PostTimes(ops, a) != [] && Alive(Last(PostTimes(ops, a)), timeout, now)
  }

  /** The map agrees with the record, and what it has forgotten was dead by the end. */
  lemma {:induction false} MapAgreesWithRecord(ops: seq<Op>, timeout: int, a: string)
    requires Timed(ops)
    ensures a in Servers(ops, timeout) ==>
              PostTimes(ops, a) != [] && Servers(ops, timeout)[a] == Last(PostTimes(ops, a))
    ensures a !in Servers(ops, timeout) && PostTimes(ops, a) != [] ==>
              timeout != 0 && Last(PostTimes(ops, a)) + timeout <= End(ops[|ops| - 1])
  {
    if ops != [] {
      var init, op := ops[..|ops| - 1], ops[|ops| - 1];
      assert forall i :: 0 <= i < |init| ==> init[i] == ops[i];
      MapAgreesWithRecord(init, timeout, a);
      if init != [] {
        assert NotBefore(ops[|ops| - 1], End(ops[|init| - 1]));
      }
    }
  }

  /** Lazy eviction is unobservable: after any history, a GET answers with exactly the servers
      whose latest heartbeat makes them alive when they are judged. */
  lemma LazyEvictionUnobservable(ops: seq<Op>, timeout: int, judged: string -> Time, end: Time)
    requires Timed(ops + [Get(judged, end)])
    ensures forall a ::
              a in AliveSet(Servers(ops, timeout), timeout, judged) <==> RecordedAlive(ops, a, timeout, judged(a))
  {
    var all := ops + [Get(judged, end)];
    assert forall i :: 0 <= i < |ops| ==> all[i] == ops[i];
    assert all[|ops|] == Get(judged, end);
    forall a
      ensures a in AliveSet(Servers(ops, timeout), timeout, judged) <==> RecordedAlive(ops, a, timeout, judged(a))
    {
      MapAgreesWithRecord(ops, timeout, a);
      if ops != [] {
        assert NotBefore(all[|ops|], End(all[|ops| - 1]));
      }
    }
  }

  // ----- heartbeats -----

  ghost predicate GapsBelow(times: seq<Time>, bound: int) {
    forall i :: 0 <= i < |times| - 1 ==> times[i + 1] - times[i] < bound
  }

  lemma {:induction false} PostTimesSplit(ops: seq<Op>, k: nat, a: string)
    requires k <= |ops|
    ensures PostTimes(ops, a) == PostTimes(ops[..k], a) + PostTimes(ops[k..], a)
    decreases |ops|
  {
    if k == |ops| {
      assert ops[..k] == ops && PostTimes(ops[k..], a) == [];
    } else {
      var init := ops[..|ops| - 1];
      PostTimesSplit(init, k, a);
      assert init[..k] == ops[..k];
      assert ops[k..][..|ops| - k - 1] == init[k..];
    }
  }

  lemma {:induction false} PostTimesNotBefore(ops: seq<Op>, a: string, t: Time)
    requires forall i :: 0 <= i < |ops| ==> NotBefore(ops[i], t)
    ensures forall h :: h in PostTimes(ops, a) ==> t <= h
  {
    if ops != [] {
      var init := ops[..|ops| - 1];
      assert forall i :: 0 <= i < |init| ==> init[i] == ops[i];
      PostTimesNotBefore(init, a, t);
    }
  }

  /** The heartbeats around a GET: those before it, then those that arrive once it has ended. */
  lemma PostTimesAround(ops: seq<Op>, k: nat, a: string)
    requires Timed(ops) && k < |ops| && ops[k].Get?
    ensures PostTimes(ops, a) == PostTimes(ops[..k], a) + PostTimes(ops[k + 1..], a)
    ensures PostTimes(ops[k + 1..], a) != [] ==> ops[k].end <= PostTimes(ops[k + 1..], a)[0]
  {
    PostTimesSplit(ops, k + 1, a);
    assert ops[..k + 1][..k] == ops[..k];
    PostTimesNotBefore(ops[k + 1..], a, ops[k].end);
    assert PostTimes(ops[k + 1..], a) != [] ==> PostTimes(ops[k + 1..], a)[0] in PostTimes(ops[k + 1..], a);
  }

  /** Heartbeat continuity: if a server's heartbeats arrive less than the timeout apart, it is in
      every GET answer from its first heartbeat until the timeout after its last. */
  lemma HeartbeatContinuity(ops: seq<Op>, k: nat, timeout: int, a: string)
    requires Timed(ops) && k < |ops| && ops[k].Get?
    requires PostTimes(ops[..k], a) != [] && PostTimes(ops, a) != []
    requires timeout == 0 || GapsBelow(PostTimes(ops, a), timeout)
    requires timeout == 0 || ops[k].judged(a) < Last(PostTimes(ops, a)) + timeout
    ensures a in AliveSet(Servers(ops[..k], timeout), timeout, ops[k].judged)
  {
    var before, after := PostTimes(ops[..k], a), PostTimes(ops[k + 1..], a);
    var op := ops[k];
    PostTimesAround(ops, k, a);
    if after != [] && timeout != 0 {
      assert PostTimes(ops, a)[|before|] - PostTimes(ops, a)[|before| - 1] < timeout;
    }
    assert ops[..k] + [Get(op.judged, op.end)] == ops[..k + 1];
    LazyEvictionUnobservable(ops[..k], timeout, op.judged, op.end);
  }
}
