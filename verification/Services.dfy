/**
  server/server.go, search_service: "Service.Method" is split at its last dot and looked up.
  A missing method is not reported as an error, so the caller gets a nil method.
 */
module Services {
  import opened Wrappers

  datatype Search<M> = NoDot | NoService | NilMethod | Found(matched: M)

  /** strings.LastIndex(name, "."). */
  function LastDot(name: string): (i: Option<nat>)
    ensures i.Some? ==> i.value < |name| && name[i.value] == '.' && '.' !in name[i.value + 1..]
    ensures i.None? <==> '.' !in name
  {
    if name == "" then None
    else if name[|name| - 1] == '.' then Some(|name| - 1)
    else
      var i := LastDot(name[..|name| - 1]);
      assert name == name[..|name| - 1] + [name[|name| - 1]];
      assert i.Some? ==> name[i.value + 1..] == name[..|name| - 1][i.value + 1..] + [name[|name| - 1]];
      i
  }

  function SearchService<M>(services: map<string, map<string, M>>, name: string): Search<M> {
    var split := LastDot(name);
    if split.None? then NoDot
    else
      var service, member := name[..split.value], name[split.value + 1..];
      if service !in services then NoService
      else if member !in services[service] then NilMethod
      else Found(services[service][member])
  }

  /** The one way to read a name as service, dot, member with no dot in the method. */
  ghost predicate Splits(name: string, service: string, member: string) {
    name == service + "." + member && '.' !in member
  }

  lemma SplitIsUnique(name: string, service: string, member: string)
    requires Splits(name, service, member)
    ensures LastDot(name) == Some(|service|) && name[..|service|] == service && name[|service| + 1..] == member
  {
    assert name[|service|] == '.';
    assert name[|service| + 1..] == member;
  }

  /** What the result says about the registered services, in both directions. */
  lemma SearchServiceMeaning<M>(services: map<string, map<string, M>>, name: string, m: M)
    ensures SearchService(services, name) == Found(m) <==>
              exists service, member :: Splits(name, service, member)
                && service in services && member in services[service] && services[service][member] == m
    ensures SearchService(services, name) == NilMethod <==>
              exists service, member :: Splits(name, service, member)
                && service in services && member !in services[service]
    ensures SearchService(services, name) == NoDot <==> forall service, member :: !Splits(name, service, member)
  {
    forall service, member | Splits(name, service, member)
      ensures LastDot(name) == Some(|service|) && name[..|service|] == service && name[|service| + 1..] == member
    {
      SplitIsUnique(name, service, member);
    }
    var split := LastDot(name);
    if split.Some? {
      assert Splits(name, name[..split.value], name[split.value + 1..]);
    }
  }
}
