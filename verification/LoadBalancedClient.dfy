/**
  client/load_balanced_client.go: the cache of one client per server address, and the merge of
  the replies to a broadcast. What XMakeDial returns and how the calls end are parameters.
 */
module LoadBalancedClient {
  import opened Wrappers
  import opened Coder
  import opened Client
  import Tables = ClientTables

  class LoadBalancedClient {
    var clients: map<string, Client>       // serverAddressToClientMap
    ghost var dialed: map<Client, string>  // history: every client XMakeDial returned, and for whom

    /** A client that was ever dialed is either the one entry of its address or closed, not both.
        Other goroutines may shut clients down at any time; this does not depend on it. */
    ghost predicate Valid()
      reads this, dialed.Keys
    {
      && (forall a :: a in clients ==> clients[a] in dialed && dialed[clients[a]] == a)
      && (forall c :: c in dialed ==> (c.isClosed <==> !(dialed[c] in clients && clients[dialed[c]] == c)))
    }

    constructor ()
      ensures Valid() && clients == map[] && dialed == map[]
    {
      clients, dialed := map[], map[];
    }

    ghost predicate Hit(address: string)
      reads this, clients.Values
    {
      address in clients && Tables.IsAvailable(clients[address].View())
    }

    ghost function Cached(address: string): set<Client>
      reads this
    {
      if address in clients then {clients[address]} else {}
    }

    ghost function CachedCoder(address: string): set<JsonCoder>
      reads this
    {
      if address in clients then {clients[address].coder} else {}
    }

    /** Closes the cached client of an address and forgets it. */
    method Drop(address: string)
      requires Valid() && address in clients
      modifies this`clients, Cached(address)`isClosed, CachedCoder(address)`isClosed
      ensures Valid()
      ensures clients == old(clients) - {address}
      ensures old(clients)[address].isClosed
    {
      var client := clients[address];
      var _ := client.Close();
      clients := clients - {address};
    }

    method Cache(address: string, client: Client)
      requires Valid() && address !in clients && client !in dialed && !client.isClosed
      modifies this
      ensures Valid()
      ensures clients == old(clients)[address := client] && dialed == old(dialed)[client := address]
    {
      clients := clients[address := client];
      dialed := dialed[client := address];
    }

    method Dial(address: string, made: Option<Client>) returns (client: Option<Client>)
      requires Valid()
      requires made.Some? ==> made.value !in dialed && !made.value.isClosed
      modifies this, Cached(address)`isClosed, CachedCoder(address)`isClosed
      ensures Valid()
      ensures old(Hit(address)) <==>
                address in old(clients) && old(!clients[address].isClosed && !clients[address].isShutdown)
      ensures old(Hit(address)) ==>
                && client == Some(old(clients)[address])
                && clients == old(clients) && dialed == old(dialed)
                && !client.value.isClosed && !client.value.isShutdown
      ensures !old(Hit(address)) ==>
                && client == made
                && clients == (if made.Some? then old(clients)[address := made.value] else old(clients) - {address})
                && dialed == (if made.Some? then old(dialed)[made.value := address] else old(dialed))
                && (address in old(clients) ==> old(clients)[address].isClosed)
    {
      if address in clients {
        var cached := clients[address];
        var available := cached.IsAvailable();
        if available {
          return Some(cached);
        }
        Drop(address);
      }
      if made.None? {
        return None;
      }
      Cache(address, made.value);
      client := made;
    }

    method Close()
      requires Valid()
      modifies this`clients
      modifies (set a | a in clients :: clients[a])`isClosed
      modifies (set a | a in clients :: clients[a].coder)`isClosed
      ensures Valid() && clients == map[]
      ensures forall c :: c in dialed ==> c.isClosed
    {
      while clients != map[]
        invariant Valid() && clients.Keys <= old(clients).Keys
        invariant forall a :: a in clients ==> clients[a] == old(clients)[a]
        decreases |clients|
      {
        var address :| address in clients;
        Drop(address);
      }
    }
  }

  // ----- broadcast -----

  /** How one server's call ended: the reply it filled in, or an error. */
  type CallResult = Result<Value, string>

  /** The first error, in the order in which the goroutines took the mutex. */
  function FirstError(results: seq<CallResult>): Option<string> {
    if results == [] then None
    else
      var earlier := FirstError(results[..|results| - 1]);
      if earlier.Some? then earlier
      else match results[|results| - 1]
           case Failure(e) => Some(e)
           case Success(_) => None
  }

  function FirstSuccess(results: seq<CallResult>): Option<Value> {
    if results == [] then None
    else
      var earlier := FirstSuccess(results[..|results| - 1]);
      if earlier.Some? then earlier
      else match results[|results| - 1]
           case Failure(_) => None
           case Success(v) => Some(v)
  }

  lemma {:induction false} FirstErrorMeaning(results: seq<CallResult>)
    ensures FirstError(results) == None <==> forall i :: 0 <= i < |results| ==> results[i].Success?
    ensures FirstError(results).Some? ==>
              exists i :: 0 <= i < |results| && results[i] == Failure(FirstError(results).value)
                && forall k :: 0 <= k < i ==> results[k].Success?
  {
    if results != [] {
      var init := results[..|results| - 1];
      FirstErrorMeaning(init);
      assert forall i :: 0 <= i < |init| ==> init[i] == results[i];
      if FirstError(init).Some? {
        var i :| && 0 <= i < |init| && init[i] == Failure(FirstError(init).value)
                 && forall k :: 0 <= k < i ==> init[k].Success?;
        assert results[i] == Failure(FirstError(results).value);
      } else if results[|init|].Failure? {
        assert results[|init|] == Failure(FirstError(results).value);
      }
    }
  }

  lemma {:induction false} FirstSuccessMeaning(results: seq<CallResult>)
    ensures FirstSuccess(results) == None <==> forall i :: 0 <= i < |results| ==> results[i].Failure?
    ensures FirstSuccess(results).Some? ==>
              exists i :: 0 <= i < |results| && results[i] == Success(FirstSuccess(results).value)
                && forall k :: 0 <= k < i ==> results[k].Failure?
  {
    if results != [] {
      var init := results[..|results| - 1];
      FirstSuccessMeaning(init);
      assert forall i :: 0 <= i < |init| ==> init[i] == results[i];
      if FirstSuccess(init).Some? {
        var i :| && 0 <= i < |init| && init[i] == Success(FirstSuccess(init).value)
                 && forall k :: 0 <= k < i ==> init[k].Failure?;
        assert results[i] == Success(FirstSuccess(results).value);
      } else if results[|init|].Success? {
        assert results[|init|] == Success(FirstSuccess(results).value);
      }
    }
  }

  /** The variables that the goroutines of one BroadcastCall share. */
  class Broadcast {
    const wanted: bool                  // output is not nil
    var broadcastError: Option<string>
    var replyDone: bool
    var output: Option<Value>           // what *output was set to, if it was
    var assignments: nat
    var cancelled: bool

    ghost predicate Merged(results: seq<CallResult>)
      reads this
    {
      && broadcastError == FirstError(results)
      && output == (if wanted then FirstSuccess(results) else None)
      && assignments == (if output.Some? then 1 else 0)
      && replyDone == (!wanted || output.Some?)
      && cancelled == broadcastError.Some?
    }

    constructor (wanted: bool)
      ensures this.wanted == wanted && Merged([])
    {
      this.wanted := wanted;
      broadcastError, replyDone, output, assignments, cancelled := None, !wanted, None, 0, false;
    }

    /** The section under the mutex at the end of one goroutine. */
    method Finish(result: CallResult, ghost earlier: seq<CallResult>)
      requires Merged(earlier)
      modifies this
      ensures Merged(earlier + [result])
      ensures broadcastError == match old(broadcastError)
                                case Some(e) => Some(e)
                                case None => if result.Failure? then Some(result.error) else None
      ensures output == if result.Success? && !old(replyDone) then Some(result.value) else old(output)
      ensures assignments == old(assignments) + if result.Success? && !old(replyDone) then 1 else 0
      ensures replyDone == (old(replyDone) || result.Success?)
      ensures cancelled == (old(cancelled) || result.Failure?)
    {
      assert (earlier + [result])[..|earlier|] == earlier;
      if result.Failure? && broadcastError == None {
        broadcastError := Some(result.error);
        cancelled := true;
      }
      if result.Success? && !replyDone {
        output := Some(result.value);
        assignments := assignments + 1;
        replyDone := true;
      }
    }
  }

  /** Each server's goroutine takes the mutex once, in some order. */
  ghost predicate CompletionOrder(order: seq<nat>, n: nat) {
    |order| == n && (forall i :: 0 <= i < |order| ==> order[i] < n) && forall s :: 0 <= s < n ==> s in order
  }

  /** Whatever the completion order: no error exactly when every call succeeded, otherwise the
      first error in that order; a wanted output is assigned at most once, to the first reply in
      that order, and is untouched exactly when every call failed. */
  method BroadcastCall(servers: Result<seq<string>, string>, results: seq<CallResult>, order: seq<nat>, wanted: bool)
    returns (error: Option<string>, output: Option<Value>, assignments: nat)
    requires servers.Success? ==> |results| == |servers.value| && CompletionOrder(order, |results|)
    ensures servers.Failure? ==> error == Some(servers.error) && output == None
    ensures servers.Success? ==> (error == None <==> forall s :: 0 <= s < |results| ==> results[s].Success?)
    ensures servers.Success? && error.Some? ==>
              exists i :: 0 <= i < |order| && results[order[i]] == Failure(error.value)
                && forall k :: 0 <= k < i ==> results[order[k]].Success?
    ensures assignments == if output.Some? then 1 else 0
    ensures !wanted ==> output == None
    ensures servers.Success? && wanted ==> (output == None <==> forall s :: 0 <= s < |results| ==> results[s].Failure?)
    ensures output.Some? ==>
              servers.Success? &&
              exists i :: 0 <= i < |order| && results[order[i]] == Success(output.value)
                && forall k :: 0 <= k < i ==> results[order[k]].Failure?
  {
    if servers.Failure? {
      return Some(servers.error), None, 0;
    }
    var shared := new Broadcast(wanted);
    ghost var done: seq<CallResult> := [];
    for i := 0 to |order|
      invariant fresh(shared) && shared.wanted == wanted
      invariant |done| == i && forall k :: 0 <= k < i ==> done[k] == results[order[k]]
      invariant shared.Merged(done)
    {
      shared.Finish(results[order[i]], done);
      done := done + [results[order[i]]];
    }
    FirstErrorMeaning(done);
    FirstSuccessMeaning(done);
    forall s: nat | s < |results| ensures exists i :: 0 <= i < |done| && done[i] == results[s] {
      assert s in order;
      var i :| 0 <= i < |order| && order[i] == s;
      assert done[i] == results[s];
    }
    return shared.broadcastError, shared.output, shared.assignments;
  }
}
