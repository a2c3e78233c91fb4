/**
  Runs of EndToEnd with a coder that cannot decode into nil, as JSON, and with given names: what the
  concrete runs are built with.
 */
module Runs {
  import opened Wrappers
  import opened Coder
  import opened EndToEnd
  import C = CallProtocol
  import S = Connection

  predicate JsonEvent(s: State, e: Event) {
    e.AtClient? ==> C.JsonStep(s.client, e.c)
  }

  predicate JsonRun(env: Env, s: State, events: seq<Event>)
    requires CanRun(env, s, events)
    decreases |events|
  {
    events == [] || (JsonEvent(s, events[0]) && JsonRun(env, Apply(env, s, events[0]), events[1..]))
  }

  predicate Named(names: set<string>, e: Event) {
    e.AtClient? && e.c.Start? ==> e.c.name in names
  }

  ghost predicate AllNamed(names: set<string>, events: seq<Event>) {
    forall i {:trigger events[i]} :: 0 <= i < |events| ==> Named(names, events[i])
  }

  /** Some such run, whose calls are all called one of these names, ends in s. */
  ghost predicate JsonReachable(env: Env, names: set<string>, s: State) {
    exists limit, events ::
      && CanRun(env, Init(limit), events) && Run(env, Init(limit), events) == s
      && AllNamed(names, events) && JsonRun(env, Init(limit), events)
  }

  lemma {:induction false} JsonSnoc(env: Env, s: State, events: seq<Event>, e: Event)
    requires CanRun(env, s, events) && Allowed(env, Run(env, s, events), e)
    requires JsonRun(env, s, events) && JsonEvent(Run(env, s, events), e)
    ensures CanRun(env, s, events + [e]) && JsonRun(env, s, events + [e])
    ensures Run(env, s, events + [e]) == Apply(env, Run(env, s, events), e)
    decreases |events|
  {
    if events == [] {
      assert [e][1..] == [];
    } else {
      assert (events + [e])[1..] == events[1..] + [e];
      JsonSnoc(env, Apply(env, s, events[0]), events[1..], e);
    }
  }

  lemma Extend(env: Env, names: set<string>, s: State, e: Event)
    requires JsonReachable(env, names, s) && Allowed(env, s, e) && JsonEvent(s, e) && Named(names, e)
    ensures JsonReachable(env, names, Apply(env, s, e))
  {
    var limit, events :|
      && CanRun(env, Init(limit), events) && Run(env, Init(limit), events) == s
      && AllNamed(names, events) && JsonRun(env, Init(limit), events);
    JsonSnoc(env, Init(limit), events, e);
    var more := events + [e];
    assert AllNamed(names, more);
    assert CanRun(env, Init(limit), more) && Run(env, Init(limit), more) == Apply(env, s, e);
  }

  lemma ClientStep(env: Env, names: set<string>, s: State, e: C.Event, n: C.State)
    requires JsonReachable(env, names, s) && ClientAllowed(env, s, e) && n == C.Apply(s.client, e)
    requires C.JsonStep(s.client, e) && (e.Start? ==> e.name in names)
    ensures JsonReachable(env, names, AfterClient(s, e, n))
  {
    Extend(env, names, s, AtClient(e));
  }

  lemma ServerStep(env: Env, names: set<string>, s: State, e: S.Event, n: S.State)
    requires JsonReachable(env, names, s) && ServerAllowed(env, s, e) && n == S.Apply(s.server, e)
    ensures JsonReachable(env, names, AfterServer(s, e, n))
  {
    Extend(env, names, s, AtServer(e));
  }

  lemma Start(env: Env, names: set<string>, limit: nat)
    ensures JsonReachable(env, names, Init(limit))
  {
    var none: seq<Event> := [];
    assert CanRun(env, Init(limit), none) && Run(env, Init(limit), none) == Init(limit);
    assert AllNamed(names, none) && JsonRun(env, Init(limit), none);
  }

  /** If the names are those of registered services, the results about every run apply. */
  lemma IsReachable(env: Env, names: set<string>, s: State)
    requires JsonReachable(env, names, s) && forall name :: name in names ==> Resolves(env, name)
    ensures Reachable(env, s)
  {
    var limit, events :|
      && CanRun(env, Init(limit), events) && Run(env, Init(limit), events) == s
      && AllNamed(names, events) && JsonRun(env, Init(limit), events);
    assert AllGood(env, events);
  }
}
