/**
  search_service returns a nil method without an error (server/server.go:207-211) and read_request
  uses it (server/server.go:162): which requests crash the server, over every run of EndToEnd, and
  a concrete one.
 */
module MissingMethod {
  import opened Wrappers
  import opened Coder
  import opened Services
  import opened EndToEnd
  import opened Runs
  import opened OneCall
  import C = CallProtocol
  import S = Connection

  predicate IsMissing(env: Env, request: Frame) {
    SearchService(env.services, request.header.serviceDotMethod).NilMethod?
  }

  /** How many requests search_service has been asked about. */
  function Searched(v: S.State): int {
    v.requestsRead - Bit(v.reader == S.Searching)
  }

  ghost predicate CrashInv(env: Env, requests: seq<Frame>, v: S.State) {
    && v.requestsRead <= |requests|
    && (v.reader == S.Crashed ==> v.requestsRead > 0 && IsMissing(env, requests[v.requestsRead - 1]))
    && (v.reader != S.Crashed ==>
          forall i {:trigger requests[i]} :: 0 <= i < Searched(v) ==> !IsMissing(env, requests[i]))
  }

  lemma HeaderKeepsCrash(env: Env, s: State, h: MessageHeader)
    requires RequestInv(s.client.attempts, s.client.asked, s.server, s.toServer) && C.WireInv(s.client)
    requires s.server.reader == S.ReadingHeader && !s.server.lost && Next(Requests(s), s.toServer, HeaderToken(h))
    requires CrashInv(env, Begun(s.client.attempts), s.server)
    ensures CrashInv(env, Begun(s.client.attempts), S.DecodeHeader(s.server, h))
  {
    HeaderKeepsRequests(s, h);
  }

  lemma SearchKeepsCrash(env: Env, requests: seq<Frame>, v: S.State, found: S.Found)
    requires CrashInv(env, requests, v) && v.reader == S.Searching && v.requestsRead > 0
    requires v.rejecting == requests[v.requestsRead - 1].header && found != S.FoundNoService
    requires found == FoundOf(env, v.rejecting.serviceDotMethod)
    ensures CrashInv(env, requests, S.Search(v, found))
  {
  }

  lemma OthersKeepCrash(env: Env, requests: seq<Frame>, v: S.State, e: S.Event)
    requires CrashInv(env, requests, v) && S.Enabled(v, e) && !e.Header? && !e.SearchEnds?
    ensures CrashInv(env, requests, S.Apply(v, e))
  {
  }

  ghost predicate Known(env: Env, s: State) {
    Inv(env, s) && CrashInv(env, Begun(s.client.attempts), s.server)
  }

  lemma MoreRequestsKeepCrash(env: Env, requests: seq<Frame>, more: seq<Frame>, v: S.State)
    requires CrashInv(env, requests, v) && requests <= more
    ensures CrashInv(env, more, v)
  {
  }

  lemma ClientKeepsKnown(env: Env, s: State, e: C.Event, n: C.State)
    requires Known(env, s) && ClientAllowed(env, s, e) && Good(env, AtClient(e)) && n == C.Apply(s.client, e)
    ensures Known(env, AfterClient(s, e, n))
  {
    ClientStepKeepsInv(env, s, e, n);
    RequestsGrow(s.client, e);
    MoreRequestsKeepCrash(env, Begun(s.client.attempts), Begun(n.attempts), s.server);
  }

  lemma ServerKeepsCrash(env: Env, s: State, e: S.Event)
    requires RequestInv(s.client.attempts, s.client.asked, s.server, s.toServer) && C.WireInv(s.client)
    requires AskedInv(env, s.client.asked) && ServerAllowed(env, s, e)
    requires CrashInv(env, Begun(s.client.attempts), s.server)
    ensures CrashInv(env, Begun(s.client.attempts), S.Apply(s.server, e))
  {
    if e.Header? {
      AlignedHeader(env, s, e.header);
      HeaderKeepsCrash(env, s, e.header);
    } else if e.SearchEnds? {
      AskedIsFound(env, s.client.asked, s.server.rejecting);
      SearchKeepsCrash(env, Begun(s.client.attempts), s.server, e.found);
    } else {
      OthersKeepCrash(env, Begun(s.client.attempts), s.server, e);
    }
  }

  lemma ServerKeepsKnown(env: Env, s: State, e: S.Event, n: S.State)
    requires Known(env, s) && ServerAllowed(env, s, e) && n == S.Apply(s.server, e)
    ensures Known(env, AfterServer(s, e, n))
  {
    ServerStepKeepsInv(env, s, e, n);
    ServerKeepsCrash(env, s, e);
  }

  lemma ClientSteps(env: Env)
    ensures forall x, c, n ::
              Known(env, x) && Good(env, AtClient(c)) && ClientAllowed(env, x, c) && n == C.Apply(x.client, c) ==>
                Known(env, AfterClient(x, c, n))
  {
    forall x, c, n | Known(env, x) && Good(env, AtClient(c)) && ClientAllowed(env, x, c) && n == C.Apply(x.client, c)
      ensures Known(env, AfterClient(x, c, n))
    {
      ClientKeepsKnown(env, x, c, n);
    }
  }

  lemma ServerSteps(env: Env)
    ensures forall x, v, n ::
              Known(env, x) && ServerAllowed(env, x, v) && n == S.Apply(x.server, v) ==>
                Known(env, AfterServer(x, v, n))
  {
    forall x, v, n | Known(env, x) && ServerAllowed(env, x, v) && n == S.Apply(x.server, v)
      ensures Known(env, AfterServer(x, v, n))
    {
      ServerKeepsKnown(env, x, v, n);
    }
  }

  lemma ReachableKnown(env: Env, s: State)
    requires Reachable(env, s)
    ensures Known(env, s)
  {
    var limit, events :|
      CanRun(env, Init(limit), events) && AllGood(env, events) && Run(env, Init(limit), events) == s;
    C.InitInv();
    S.InitInv(limit);
    InitJoint(env, limit);
    ClientSteps(env);
    ServerSteps(env);
    RunKeeps(env, x => Known(env, x), e => Good(env, e), Init(limit), events);
  }

  /** The server has crashed if and only if one of the requests that it has searched a method for
      names a registered service without that method. */
  lemma CrashesExactly(env: Env, s: State)
    requires Reachable(env, s)
    ensures s.server.requestsRead <= |Begun(s.client.attempts)|
    ensures s.server.reader == S.Crashed <==>
              exists i {:trigger Begun(s.client.attempts)[i]} :: 0 <= i < Searched(s.server)
                && IsMissing(env, Begun(s.client.attempts)[i])
  {
    ReachableKnown(env, s);
  }

  // ----- a concrete crash -----

  /** A service A without any method. */
  const EMPTY_SERVICE := Env(map["A" := map[]], _ => None, _ => "{}")

  const CRASHED := S1.(reader := S.Crashed)

  lemma MethodIsMissing()
    ensures SearchService(EMPTY_SERVICE.services, "A.B") == NilMethod
    ensures Resolves(EMPTY_SERVICE, "A.B") && FoundOf(EMPTY_SERVICE, "A.B") == S.FoundNilMethod
  {
    SplitIsUnique("A.B", "A", "B");
    assert "A.B"[..1] == "A" && "A.B"[2..] == "B";
  }

  /** One call of a method that does not exist crashes the server. */
  lemma OneCallCrashesTheServer()
    ensures SearchService(EMPTY_SERVICE.services, "A.B") == NilMethod
    ensures Reachable(EMPTY_SERVICE, State(C5(true), CRASHED, 1, 0))
    ensures C5(true).calls[0].name == "A.B" && CRASHED.reader == S.Crashed
  {
    MethodIsMissing();
    ReachSearching(EMPTY_SERVICE, true);
    var e := S.SearchEnds(S.FoundNilMethod);
    assert S.Enabled(S1, e) && S.Apply(S1, e) == CRASHED;
    ServerStep(EMPTY_SERVICE, NAMES, State(C5(true), S1, 1, 0), e, CRASHED);
    IsReachable(EMPTY_SERVICE, NAMES, State(C5(true), CRASHED, 1, 0));
  }
}
