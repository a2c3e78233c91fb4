/**
  loadBalancer/load_balancer_client_side.go: selection of a server from a list that may change.
  Randomness is a parameter that lies in [0, length).
 */
module LoadBalancer {
  import opened Wrappers

  const MAX_INT32 := 0x7fff_ffff

  datatype Mode = RandomSelect | RoundRobinSelect | WeightRoundRobinSelect | ConsistentHashSelect

  datatype SelectError = NoServers | UnknownMode

  /** The two fields that readWriteMutex protects. */
  datatype Balancer = Balancer(list: seq<string>, index: nat)

  predicate IsRoundRobin(b: Balancer, mode: Mode) {
    b.list != [] && mode == RoundRobinSelect
  }

  /** The position that a round-robin pick takes. */
  function Position(b: Balancer): (p: nat)
    requires b.list != []
    ensures p < |b.list|
  {
    b.index % |b.list|
  }

  /** A round-robin pick moves the index to the position after the one it took. */
  function Advance(b: Balancer): Balancer
    requires b.list != []
  {
    b.(index := (b.index + 1) % |b.list|)
  }

  class LoadBalancerClientSide {
    var serverList: seq<string>
    var serverIndex: int

    /** serverIndex + 1 fits a 32-bit int, as any index into a list does there. */
    ghost predicate Valid()
      reads this
    {
      0 <= serverIndex && serverIndex + 1 <= MAX_INT32 && |serverList| <= MAX_INT32
    }

    function View(): Balancer
      requires 0 <= serverIndex
      reads this
    {
      Balancer(serverList, serverIndex)
    }

    constructor (serverList: seq<string>, random: nat)
      requires |serverList| <= MAX_INT32 && random < MAX_INT32 - 1
      ensures Valid() && this.serverList == serverList && serverIndex == random
    {
      this.serverList, serverIndex := serverList, random;
    }

    method GetServer(mode: Mode, random: nat) returns (r: Result<string, SelectError>)
      requires Valid()
      requires serverList != [] ==> random < |serverList|
      modifies this`serverIndex
      ensures Valid()
      ensures View() == if IsRoundRobin(old(View()), mode) then Advance(old(View())) else old(View())
      ensures serverList == [] ==> r == Failure(NoServers) && serverIndex == old(serverIndex)
      ensures serverList != [] && mode == RoundRobinSelect ==>
                && r == Success(serverList[old(serverIndex) % |serverList|])
                && serverIndex == (old(serverIndex) + 1) % |serverList|
      ensures serverList != [] && mode != RoundRobinSelect ==>
                && r == (if mode == RandomSelect then Success(serverList[random]) else Failure(UnknownMode))
                && serverIndex == old(serverIndex)
    {
      var length := |serverList|;
      if length == 0 {
        return Failure(NoServers);
      }
      match mode
      case RandomSelect =>
        r := Success(serverList[random]);
      case RoundRobinSelect =>
        var server := serverList[serverIndex % length];
        serverIndex := (serverIndex + 1) % length;
        r := Success(server);
      case _ =>
        r := Failure(UnknownMode);
    }

    method GetServerList() returns (list: seq<string>)
      ensures list == serverList
    {
      list := serverList;
    }

    method UpdateServerList(servers: seq<string>)
      requires Valid() && |servers| <= MAX_INT32
      modifies this`serverList
      ensures Valid() && serverList == servers && View() == old(View()).(list := servers)
    {
      serverList := servers;
    }
  }

  // ----- runs -----

  datatype Action = Select(mode: Mode) | Update(servers: seq<string>)

  function Step(b: Balancer, action: Action): Balancer {
    match action
    case Select(mode) => if IsRoundRobin(b, mode) then Advance(b) else b
    case Update(servers) => b.(list := servers)
  }

  /** A pick in round-robin mode moves the index to the position after the one it takes; a pick in
      any other mode, or from an empty list, moves nothing. An update replaces the list alone. */
  lemma StepMeaning(b: Balancer, mode: Mode, servers: seq<string>)
    ensures b.list != [] ==> Step(b, Select(RoundRobinSelect)) == Balancer(b.list, (b.index + 1) % |b.list|)
    ensures mode != RoundRobinSelect || b.list == [] ==> Step(b, Select(mode)) == b
    ensures Step(b, Update(servers)) == Balancer(servers, b.index)
  {
  }

  /** The positions taken by the round-robin picks of a run. */
  function Positions(b: Balancer, actions: seq<Action>): seq<nat>
    decreases |actions|
  {
    if actions == [] then []
    else
      (if actions[0] == Select(RoundRobinSelect) && b.list != [] then [b.index % |b.list|] else [])
      + Positions(Step(b, actions[0]), actions[1..])
  }

  function Count(positions: seq<nat>, p: nat): nat {
    if positions == [] then 0
    else Count(positions[..|positions| - 1], p) + if positions[|positions| - 1] == p then 1 else 0
  }

  /** Updates replace the list by one of n servers. */
  predicate KeepsLength(actions: seq<Action>, n: nat) {
    forall action :: action in actions && action.Update? ==> |action.servers| == n
  }

  // ----- arithmetic -----

  lemma MulAtLeast(k: int, n: int)
    requires k >= 1 && n > 0
    ensures k * n >= n
  {
  }

  lemma MulMinus(a: int, b: int, n: int)
    ensures (a - b) * n == a * n - b * n
  {
  }

  lemma DivModIs(x: int, n: int, q: int, r: int)
    requires n > 0 && x == q * n + r && 0 <= r < n
    ensures x / n == q && x % n == r
  {
    var d, m := x / n, x % n;
    assert x == d * n + m && 0 <= m < n;
    MulMinus(d, q, n);
    MulMinus(q, d, n);
    if d > q {
      MulAtLeast(d - q, n);
    } else if d < q {
      MulAtLeast(q - d, n);
    }
  }

  lemma ModAdd(a: nat, b: nat, n: nat)
    requires n > 0
    ensures (a % n + b) % n == (a + b) % n
  {
    var q, r := (a % n + b) / n, (a % n + b) % n;
    assert a == (a / n) * n + a % n;
    assert a + b == (a / n + q) * n + r;
    DivModIs(a + b, n, a / n + q, r);
  }

  /** Moving one further crosses a multiple of n exactly when it lands on one. */
  lemma DivNext(x: nat, n: nat)
    requires n > 0
    ensures (x + 1) / n == x / n + if (x + 1) % n == 0 then 1 else 0
  {
    var q, r := x / n, x % n;
    assert x == q * n + r;
    if r == n - 1 {
      assert x + 1 == (q + 1) * n + 0;
      DivModIs(x + 1, n, q + 1, 0);
    } else {
      DivModIs(x + 1, n, q, r + 1);
    }
  }

  lemma DivMonotone(x: nat, y: nat, n: nat)
    requires n > 0 && x <= y
    ensures x / n <= y / n
  {
    var d, e := x / n, y / n;
    assert x == d * n + x % n && y == e * n + y % n;
    if d > e {
      MulMinus(d, e, n);
      MulAtLeast(d - e, n);
    }
  }

  // ----- balance -----

  /** The k-th round-robin pick takes position (index + k) mod n. */
  lemma {:induction false} PositionsFollow(b: Balancer, actions: seq<Action>, n: nat)
    requires n > 0 && |b.list| == n && KeepsLength(actions, n)
    ensures forall k :: 0 <= k < |Positions(b, actions)| ==> Positions(b, actions)[k] == (b.index + k) % n
    decreases |actions|
  {
    if actions != [] {
      var next := Step(b, actions[0]);
      assert actions[0].Update? ==> actions[0] in actions;
      PositionsFollow(next, actions[1..], n);
      if actions[0] == Select(RoundRobinSelect) {
        StepMeaning(b, RoundRobinSelect, []);
        var rest := Positions(next, actions[1..]);
        forall k | 0 <= k < |rest| + 1 ensures Positions(b, actions)[k] == (b.index + k) % n {
          if k > 0 {
            assert Positions(b, actions)[k] == rest[k - 1] == (next.index + (k - 1)) % n;
            ModAdd(b.index + 1, k - 1, n);
          }
        }
      }
    }
  }

  /** How far position p is ahead of the index. */
  function Ahead(index: nat, p: nat, n: nat): (d: nat)
    requires p < n
    ensures d < n
  {
    (p + n - index % n) % n
  }

  lemma Wrap(x: nat, n: nat)
    requires x < 2 * n
    ensures x % n == if x < n then x else x - n
  {
    if x < n {
      DivModIs(x, n, 0, x);
    } else {
      DivModIs(x, n, 1, x - n);
    }
  }

  lemma HitsWithin(a: nat, r: nat, p: nat, n: nat)
    requires a < n && r < n && p < n
    ensures (r + a) % n == p <==> r == (p + n - a) % n
    ensures (r + (n - p)) % n == 0 <==> r == p
  {
    Wrap(r + a, n);
    Wrap(p + n - a, n);
    Wrap(r + (n - p), n);
  }

  lemma HitsAhead(index: nat, k: nat, p: nat, n: nat)
    requires p < n
    ensures (index + k) % n == p <==> k % n == Ahead(index, p, n)
  {
    ModAdd(index, k, n);
    ModAdd(k, index % n, n);
    HitsWithin(index % n, k % n, p, n);
  }

  lemma NextHit(k: nat, d: nat, n: nat)
    requires d < n
    ensures (k + n - d) / n == (k + n - 1 - d) / n + if k % n == d then 1 else 0
  {
    DivNext(k + n - 1 - d, n);
    ModAdd(k, n - d, n);
    HitsWithin(0, k % n, d, n);
  }

  lemma {:induction false} CountExactly(positions: seq<nat>, index: nat, p: nat, n: nat)
    requires p < n
    requires forall k :: 0 <= k < |positions| ==> positions[k] == (index + k) % n
    ensures Count(positions, p) == (|positions| + n - 1 - Ahead(index, p, n)) / n
  {
    var m, d := |positions|, Ahead(index, p, n);
    if m == 0 {
      DivModIs(n - 1 - d, n, 0, n - 1 - d);
    } else {
      var init := positions[..m - 1];
      CountExactly(init, index, p, n);
      HitsAhead(index, m - 1, p, n);
      NextHit(m - 1, d, n);
    }
  }

  /** Round-robin balance: whatever random picks and same-length updates come between, any run
      of m round-robin picks takes each position floor(m/n) or ceil(m/n) times, from any index. */
  lemma RoundRobinBalance(b: Balancer, actions: seq<Action>, p: nat)
    requires p < |b.list| && KeepsLength(actions, |b.list|)
    ensures
      var m, n := |Positions(b, actions)|, |b.list|;
      && m / n <= Count(Positions(b, actions), p) <= (m + n - 1) / n
      && Count(Positions(b, actions), p) == (m + n - 1 - Ahead(b.index, p, n)) / n
  {
    var m, n := |Positions(b, actions)|, |b.list|;
    PositionsFollow(b, actions, n);
    CountExactly(Positions(b, actions), b.index, p, n);
    DivMonotone(m, m + n - 1 - Ahead(b.index, p, n), n);
    DivMonotone(m + n - 1 - Ahead(b.index, p, n), m + n - 1, n);
  }
}
