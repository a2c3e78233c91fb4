/**
  One client and one server joined by their two wires: every decode reads the next token that the
  other side has written. Steps of the two protocols interleave freely, with any names, handler
  order, server timers, client contexts, Close, read failures, bodies that do not decode, and writes
  and flushes that fail.

  One thing is assumed, and visible in Allowed: every body has a JSON text (Coder.FramingRoundTrip
  says what happens otherwise). The results about every run are about runs whose calls name a
  registered service, whose method may be missing; Misread says what happens otherwise.
 */
module EndToEnd {
  import opened Wrappers
  import opened Coder
  import opened Services
  import C = CallProtocol
  import S = Connection
  import T = ClientTables

  /** A service method: a total function from its input to an output or an error text. */
  type Method = Value -> Result<Value, string>

  type ServiceMap = map<string, map<string, Method>>

  /** What the two sides run in: the registered services, what a body decodes to when it is read as
      a header, and what a header decodes to when it is read as a body. */
  datatype Env = Env(services: ServiceMap, headerOf: Value -> Option<MessageHeader>, bodyOf: MessageHeader -> Value)

  datatype State = State(client: C.State, server: S.State, toServer: nat, toClient: nat)

  datatype Event = AtClient(c: C.Event) | AtServer(s: S.Event)

  function Init(limit: nat): State {
    State(C.Init, S.Init(limit), 0, 0)
  }

  /** What the named method does on this input, if the name resolves. */
  function MethodOutcome(env: Env, name: string, input: Value): Option<Result<Value, string>> {
    match SearchService(env.services, name)
    case Found(m) => Some(m(input))
    case _ => None
  }

  /** The lookup returns no error: it finds the method, or a nil method of a registered service. */
  predicate Resolves(env: Env, name: string) {
    SearchService(env.services, name).Found? || SearchService(env.services, name).NilMethod?
  }

  function FoundOf(env: Env, name: string): S.Found {
    match SearchService(env.services, name)
    case Found(_) => S.FoundMethod
    case NilMethod => S.FoundNilMethod
    case _ => S.FoundNoService
  }

  function Requests(s: State): seq<Token> {
    EncodeAll(s.client.attempts).sent
  }

  function Responses(s: State): seq<Token> {
    s.server.wire.sent
  }

  predicate Next(tokens: seq<Token>, position: nat, token: Token) {
    position < |tokens| && tokens[position] == token
  }

  /** The decoder does not know what a JSON value was meant to be. */
  predicate NextHeader(env: Env, tokens: seq<Token>, position: nat, h: MessageHeader) {
    && position < |tokens|
    && (|| tokens[position] == HeaderToken(h)
        || (tokens[position].BodyToken? && env.headerOf(tokens[position].body) == Some(h)))
  }

  predicate NextBody(env: Env, tokens: seq<Token>, position: nat, body: Value) {
    && position < |tokens|
    && (|| tokens[position] == BodyToken(body)
        || (tokens[position].HeaderToken? && env.bodyOf(tokens[position].header) == body))
  }

  predicate ClientAllowed(env: Env, s: State, e: C.Event) {
    && C.Enabled(s.client, e)
    && match e
       case EncodeCall(outcome) => !outcome.BodyFailed?
       case DecodeHeader(h) => NextHeader(env, Responses(s), s.toClient, h)
       case DiscardBody(ok) => ok ==> s.toClient < |Responses(s)|
       case DecodeOutput(body) => body.Some? ==> NextBody(env, Responses(s), s.toClient, body.value)
       case _ => true
  }

  predicate ServerAllowed(env: Env, s: State, e: S.Event) {
    && S.Enabled(s.server, e)
    && match e
       case Header(h) => NextHeader(env, Requests(s), s.toServer, h)
       case SearchEnds(found) => found == FoundOf(env, s.server.rejecting.serviceDotMethod)
       case Body(input) => NextBody(env, Requests(s), s.toServer, input)
       case BodyError(lost) => !lost ==> s.toServer < |Requests(s)|
       case MethodEnds(j, r) =>
         MethodOutcome(env, s.server.jobs[j].request.serviceDotMethod, s.server.jobs[j].input) == Some(r)
       case BodyWrite(outcome) => !outcome.BodyFailed?
       case _ => true
  }

  predicate Allowed(env: Env, s: State, e: Event) {
    match e
    case AtClient(c) => ClientAllowed(env, s, c)
    case AtServer(v) => ServerAllowed(env, s, v)
  }

  /** A call of a registered service. */
  predicate Good(env: Env, e: Event) {
    e.AtClient? && e.c.Start? ==> Resolves(env, e.c.name)
  }

  predicate ClientReads(e: C.Event) {
    e.DecodeHeader? || (e.DiscardBody? && e.ok) || (e.DecodeOutput? && e.body.Some?)
  }

  predicate ServerReads(e: S.Event) {
    e.Header? || e.Body? || (e.BodyError? && !e.lost)
  }

  /** n is the client after e. */
  function AfterClient(s: State, e: C.Event, n: C.State): State {
    s.(client := n, toClient := s.toClient + Bit(ClientReads(e)))
  }

  /** n is the server after e. */
  function AfterServer(s: State, e: S.Event, n: S.State): State {
    s.(server := n, toServer := s.toServer + Bit(ServerReads(e)))
  }

  function Apply(env: Env, s: State, e: Event): State
    requires Allowed(env, s, e)
  {
    match e
    case AtClient(c) => AfterClient(s, c, C.Apply(s.client, c))
    case AtServer(v) => AfterServer(s, v, S.Apply(s.server, v))
  }

  predicate CanRun(env: Env, s: State, events: seq<Event>)
    decreases |events|
  {
    events == [] ||
    (Allowed(env, s, events[0]) && CanRun(env, Apply(env, s, events[0]), events[1..]))
  }

  function Run(env: Env, s: State, events: seq<Event>): State
    requires CanRun(env, s, events)
    decreases |events|
  {
    if events == [] then s else Run(env, Apply(env, s, events[0]), events[1..])
  }

  lemma {:induction false} RunAppend(env: Env, s: State, events: seq<Event>, more: seq<Event>)
    requires CanRun(env, s, events) && CanRun(env, Run(env, s, events), more)
    ensures CanRun(env, s, events + more)
    ensures Run(env, s, events + more) == Run(env, Run(env, s, events), more)
    decreases |events|
  {
    if events == [] {
      assert events + more == more;
    } else {
      assert (events + more)[1..] == events[1..] + more;
      RunAppend(env, Apply(env, s, events[0]), events[1..], more);
    }
  }

  // ----- what the wires and the services add to the two protocols -----

  /** Every step of either protocol is a step of the whole, except that a decode that succeeds needs
      the next token, a lookup and a method answer as the services do, and every body has a text. */
  lemma OtherStepsAreAllowed(env: Env, s: State, c: C.Event, v: S.Event)
    ensures !c.DecodeHeader? && c != C.DiscardBody(true) && !(c.DecodeOutput? && c.body.Some?)
            && !(c.EncodeCall? && c.outcome.BodyFailed?) ==>
              (Allowed(env, s, AtClient(c)) <==> C.Enabled(s.client, c))
    ensures !v.Header? && !v.SearchEnds? && !v.Body? && v != S.BodyError(false) && !v.MethodEnds?
            && !(v.BodyWrite? && v.outcome.BodyFailed?) ==>
              (Allowed(env, s, AtServer(v)) <==> S.Enabled(s.server, v))
    ensures v == S.BodyError(false) && s.toServer < |Requests(s)| ==>
              (Allowed(env, s, AtServer(v)) <==> S.Enabled(s.server, v))
  {
  }

  // ----- aligned reading -----

  lemma {:induction false} EvenIsHeader(
    env: Env, tokens: seq<Token>, frames: seq<Frame>, position: nat, h: MessageHeader)
    requires tokens <= Tokens(frames) && position % 2 == 0 && NextHeader(env, tokens, position, h)
    ensures position / 2 < |frames| && h == frames[position / 2].header
    ensures Next(tokens, position, HeaderToken(h))
  {
    TokenCount(frames);
    TokenAt(frames, position / 2);
  }

  lemma {:induction false} OddIsBody(env: Env, tokens: seq<Token>, frames: seq<Frame>, position: nat, body: Value)
    requires tokens <= Tokens(frames) && position % 2 == 1 && NextBody(env, tokens, position, body)
    ensures position / 2 < |frames| && body == frames[position / 2].body
    ensures Next(tokens, position, BodyToken(body))
  {
    TokenCount(frames);
    TokenAt(frames, position / 2);
  }

  // ----- what is known about requests, jobs and responses -----

  predicate IsAsked(asked: map<nat, C.Ask>, h: MessageHeader) {
    h.sequenceNumber in asked && h == MessageHeader(asked[h.sequenceNumber].name, h.sequenceNumber, "")
  }

  predicate JobKnown(env: Env, asked: map<nat, C.Ask>, b: S.Job) {
    && IsAsked(asked, b.request)
    && b.input == asked[b.request.sequenceNumber].inputs
    && (b.result.Some? ==> MethodOutcome(env, b.request.serviceDotMethod, b.input) == b.result)
  }

  /** A response answers its own request: a rejection, a timeout, or the method's outcome. */
  predicate Explained(env: Env, asked: map<nat, C.Ask>, f: Frame) {
    var n := f.header.sequenceNumber;
    && n in asked
    && var request := MessageHeader(asked[n].name, n, "");
    var r := MethodOutcome(env, asked[n].name, asked[n].inputs);
    || f == Frame(request.(error := S.BAD_BODY), S.INVALID_REQUEST)
    || f == Frame(request.(error := S.TIMEOUT), S.INVALID_REQUEST)
    || (r.Some? && f == Frame(S.ResultHeader(request, r.value), S.ResultBody(r.value)))
  }

  /** What a call may hold: an output only from a success, or from a failure whose text is empty. */
  predicate ResultOk(env: Env, c: C.Call) {
    var r := MethodOutcome(env, c.name, c.inputs);
    && (c.output.Some? ==>
          && r.Some? && (r.value.Success? || r.value.error == "")
          && c.output.value == S.ResultBody(r.value))
    && (c.error.Some? && c.error.value.Remote? ==>
          var text := c.error.value.text;
          text == S.BAD_BODY || text == S.TIMEOUT || r == Some(Failure(text)))
  }

  // ----- the invariant -----

  ghost predicate CallsInv(env: Env, client: C.State) {
    forall id {:trigger client.calls[id]} :: id in client.calls ==>
      Resolves(env, client.calls[id].name) && ResultOk(env, client.calls[id])
  }

  ghost predicate AskedInv(env: Env, asked: map<nat, C.Ask>) {
    forall n :: n in asked ==> Resolves(env, asked[n].name)
  }

  /** The requests are well framed, and the server's reader stands where its state says. */
  ghost predicate RequestInv(attempts: seq<Attempt>, asked: map<nat, C.Ask>, server: S.State, toServer: nat) {
    var frames := Begun(attempts);
    && NoBodyFailure(attempts) && Possible(attempts)
    && EncodeAll(attempts).sent <= Tokens(frames)
    && (server.reader == S.Searching || server.reader == S.ReadingBody || server.reader == S.Crashed ==>
          && toServer == 2 * server.requestsRead - 1 && 1 <= server.requestsRead <= |frames|
          && server.rejecting == frames[server.requestsRead - 1].header
          && IsAsked(asked, server.rejecting))
    && ((server.reader == S.ReadingHeader || server.reader == S.Rejecting) && !server.lost ==>
          toServer == 2 * server.requestsRead)
    && (server.reader == S.Rejecting ==>
          && server.rejecting.error == S.BAD_BODY
          && IsAsked(asked, server.rejecting.(error := "")))
  }

  ghost predicate ServerInv(env: Env, asked: map<nat, C.Ask>, server: S.State) {
    && NoBodyFailure(server.attempts)
    && (forall j {:trigger server.jobs[j]} :: 0 <= j < |server.jobs| ==> JobKnown(env, asked, server.jobs[j]))
    && forall i {:trigger server.frames[i]} :: 0 <= i < |server.frames| ==>
         Explained(env, asked, server.frames[i])
  }

  /** The client's receiver stands where its phase says. */
  ghost predicate ResponseInv(client: C.State, server: S.State, toClient: nat) {
    && server.wire.sent <= Tokens(server.frames)
    && (client.phase == C.AwaitHeader || (client.phase == C.Finishing && !client.stop) ==> toClient % 2 == 0)
    && (client.phase == C.GotHeader || client.phase == C.Discarding || client.phase == C.FillingOutput ==>
          toClient % 2 == 1 && toClient / 2 < |server.frames|)
    && (client.phase == C.GotHeader || client.phase == C.FillingOutput ==>
          client.reply == server.frames[toClient / 2].header)
    && (client.phase == C.FillingOutput ==>
          && client.reply.error == "" && client.reply.sequenceNumber in client.asked
          && client.claim == Some(client.asked[client.reply.sequenceNumber].id))
  }

  /** What relates the two sides; each side also keeps its own invariant. */
  ghost predicate Joint(env: Env, client: C.State, server: S.State, toServer: nat, toClient: nat) {
    && CallsInv(env, client)
    && AskedInv(env, client.asked)
    && RequestInv(client.attempts, client.asked, server, toServer)
    && ServerInv(env, client.asked, server)
    && ResponseInv(client, server, toClient)
  }

  lemma InitJoint(env: Env, limit: nat)
    ensures Joint(env, C.Init, S.Init(limit), 0, 0)
  {
  }

  // ----- what a step of the client leaves alone -----

  lemma ClientStepAsked(c: C.State, e: C.Event)
    requires C.Enabled(c, e)
    ensures !e.Add? ==> C.Apply(c, e).asked == c.asked
    ensures e.Add? ==>
      var n := C.AddCall(c);
      || n.asked == c.asked
      || (&& c.holder.Sender? && c.holder.id in c.calls
          && var who := c.calls[c.holder.id];
          n.asked == c.asked[c.tables.next := C.Ask(c.holder.id, who.name, who.inputs)])
  {
  }

  lemma ClientStepAttempts(c: C.State, e: C.Event)
    requires C.Enabled(c, e)
    ensures !e.EncodeCall? ==> C.Apply(c, e).attempts == c.attempts
    ensures e.EncodeCall? ==>
              && C.SenderExists(c)
              && C.Apply(c, e).attempts == c.attempts + [Attempt(C.Request(c), e.outcome)]
  {
  }

  lemma RequestsGrow(c: C.State, e: C.Event)
    requires C.Enabled(c, e)
    ensures Begun(c.attempts) <= Begun(C.Apply(c, e).attempts)
  {
    ClientStepAttempts(c, e);
    if e.EncodeCall? {
      AttemptAppended(c.attempts, Attempt(C.Request(c), e.outcome));
    }
  }

  predicate SameName(a: C.Call, b: C.Call) {
    a.name == b.name && a.inputs == b.inputs
  }

  predicate SameResult(a: C.Call, b: C.Call) {
    SameName(a, b) && a.output == b.output
    && (a.error == b.error || (b.error.Some? && !b.error.value.Remote?))
  }

  lemma FinishingStepCall(c: C.State, e: C.Event, id: C.CallId)
    requires C.Enabled(c, e) && id in c.calls && (e.FinishRefusal? || e.RetractCall? || e.FinishFailure?)
    ensures id in C.Apply(c, e).calls && SameResult(c.calls[id], C.Apply(c, e).calls[id])
  {
  }

  lemma SenderStepCall(c: C.State, e: C.Event, id: C.CallId)
    requires C.Enabled(c, e) && id in c.calls && C.BySender(e)
    ensures id in C.Apply(c, e).calls && SameResult(c.calls[id], C.Apply(c, e).calls[id])
  {
    if e.FinishRefusal? || e.RetractCall? || e.FinishFailure? {
      FinishingStepCall(c, e, id);
    }
  }

  lemma OtherStepCall(c: C.State, e: C.Event, id: C.CallId)
    requires C.Enabled(c, e) && id in c.calls && !C.BySender(e) && !e.DecodeOutput? && !e.Claim?
    ensures id in C.Apply(c, e).calls && SameResult(c.calls[id], C.Apply(c, e).calls[id])
  {
  }

  lemma ClaimStepCall(c: C.State, id: C.CallId)
    requires C.PendingExist(c) && id in c.calls
    ensures
      var n := C.ClaimReply(c);
      && id in n.calls
      && (|| n.calls[id] == c.calls[id]
          || (T.Lookup(c.tables, c.reply.sequenceNumber) == Some(id) && c.reply.error != ""
              && n.calls[id] == C.Failed(c.calls[id], T.Remote(c.reply.error))))
  {
  }

  lemma OutputStepCall(c: C.State, body: Option<Value>, id: C.CallId)
    requires C.Claims(c, c.claim) && id in c.calls
    ensures
      var n := C.FillOutput(c, body);
      && id in n.calls
      && (|| SameResult(c.calls[id], n.calls[id])
          || (c.claim == Some(id) && body.Some? && n.calls[id] == c.calls[id].(output := body)))
  {
  }

  lemma ClientStepNewCall(c: C.State, e: C.Event, id: C.CallId)
    requires C.Enabled(c, e) && id !in c.calls && id in C.Apply(c, e).calls
    ensures e.Start? && e.id == id && C.Apply(c, e).calls[id].name == e.name
    ensures C.Apply(c, e).calls[id].output == None && C.Apply(c, e).calls[id].error == None
  {
  }

  predicate MovesReceiver(e: C.Event) {
    e.DecodeHeader? || e.Claim? || e.DiscardBody? || e.DecodeOutput? || e.FinishClaim?
  }

  lemma ClientStepReceiver(c: C.State, e: C.Event)
    requires C.Enabled(c, e) && !MovesReceiver(e)
    ensures
      var n := C.Apply(c, e);
      || n.phase == C.Stopping || n.phase == C.StopLocked || n.phase == C.Draining || n.phase == C.Stopped
      || (n.phase == c.phase && n.reply == c.reply && n.claim == c.claim && n.stop == c.stop)
  {
  }

  // ----- a step of the client keeps the invariant -----

  /** The frame whose header the receiver holds, and the call that asked for it. */
  lemma ReplyMatchesCall(env: Env, c: C.State, f: Frame, id: C.CallId)
    requires C.TablesInv(c) && Explained(env, c.asked, f)
    requires c.asked[f.header.sequenceNumber].id == id
    requires id in c.calls && C.CallInv(c, id)
    ensures c.calls[id].number == f.header.sequenceNumber
    ensures
      var r := MethodOutcome(env, c.calls[id].name, c.calls[id].inputs);
      if f.header.error == "" then
        r.Some? && (r.value.Success? || r.value.error == "") && f.body == S.ResultBody(r.value)
      else f.header.error == S.BAD_BODY || f.header.error == S.TIMEOUT || r == Some(Failure(f.header.error))
  {
    assert S.BAD_BODY != "" && S.TIMEOUT != "";
  }

  /** A call that is claimed by a reply with an error. */
  lemma ClaimKeepsResult(env: Env, c: C.State, f: Frame, id: C.CallId)
    requires C.TablesInv(c) && Explained(env, c.asked, f)
    requires id in c.calls && C.CallInv(c, id) && ResultOk(env, c.calls[id])
    requires T.Lookup(c.tables, f.header.sequenceNumber) == Some(id) && f.header.error != ""
    ensures ResultOk(env, C.Failed(c.calls[id], T.Remote(f.header.error)))
  {
    ReplyMatchesCall(env, c, f, id);
  }

  /** The call whose output is decoded from a reply without one. */
  lemma OutputKeepsResult(env: Env, c: C.State, f: Frame, id: C.CallId)
    requires C.TablesInv(c) && Explained(env, c.asked, f)
    requires id in c.calls && C.CallInv(c, id) && ResultOk(env, c.calls[id])
    requires c.asked[f.header.sequenceNumber].id == id && f.header.error == ""
    ensures ResultOk(env, c.calls[id].(output := Some(f.body)))
  {
    ReplyMatchesCall(env, c, f, id);
  }

  lemma ClaimKeepsCall(env: Env, c: C.State, server: S.State, toClient: nat, id: C.CallId)
    requires C.TablesInv(c) && ServerInv(env, c.asked, server) && ResponseInv(c, server, toClient)
    requires C.PendingExist(c) && c.phase == C.GotHeader
    requires id in c.calls && C.CallInv(c, id) && ResultOk(env, c.calls[id])
    ensures id in C.ClaimReply(c).calls && SameName(c.calls[id], C.ClaimReply(c).calls[id])
    ensures ResultOk(env, C.ClaimReply(c).calls[id])
  {
    ClaimStepCall(c, id);
    if C.ClaimReply(c).calls[id] != c.calls[id] {
      ClaimKeepsResult(env, c, server.frames[toClient / 2], id);
    }
  }

  lemma OutputKeepsCall(
    env: Env, c: C.State, server: S.State, toClient: nat, body: Option<Value>, id: C.CallId)
    requires C.TablesInv(c) && ServerInv(env, c.asked, server) && ResponseInv(c, server, toClient)
    requires C.Claims(c, c.claim) && c.phase == C.FillingOutput
    requires body.Some? ==> Next(server.wire.sent, toClient, BodyToken(body.value))
    requires id in c.calls && C.CallInv(c, id) && ResultOk(env, c.calls[id])
    ensures id in C.FillOutput(c, body).calls && SameName(c.calls[id], C.FillOutput(c, body).calls[id])
    ensures ResultOk(env, C.FillOutput(c, body).calls[id])
  {
    OutputStepCall(c, body, id);
    if !SameResult(c.calls[id], C.FillOutput(c, body).calls[id]) {
      TokenAt(server.frames, toClient / 2);
      OutputKeepsResult(env, c, server.frames[toClient / 2], id);
    }
  }

  lemma ClientKeepsCalls(env: Env, s: State, e: C.Event)
    requires C.Inv(s.client) && ServerInv(env, s.client.asked, s.server)
    requires ResponseInv(s.client, s.server, s.toClient)
    requires CallsInv(env, s.client) && ClientAllowed(env, s, e) && Good(env, AtClient(e))
    ensures CallsInv(env, C.Apply(s.client, e))
  {
    var n := C.Apply(s.client, e);
    forall id | id in n.calls ensures Resolves(env, n.calls[id].name) && ResultOk(env, n.calls[id]) {
      if id !in s.client.calls {
        ClientStepNewCall(s.client, e, id);
      } else if e.Claim? {
        assert C.CallInv(s.client, id);
        ClaimKeepsCall(env, s.client, s.server, s.toClient, id);
      } else if e.DecodeOutput? {
        assert C.CallInv(s.client, id);
        if e.body.Some? {
          OddIsBody(env, Responses(s), s.server.frames, s.toClient, e.body.value);
        }
        OutputKeepsCall(env, s.client, s.server, s.toClient, e.body, id);
      } else if C.BySender(e) {
        SenderStepCall(s.client, e, id);
      } else {
        OtherStepCall(s.client, e, id);
      }
    }
  }

  ghost predicate Extends(asked: map<nat, C.Ask>, more: map<nat, C.Ask>) {
    forall n :: n in asked ==> n in more && more[n] == asked[n]
  }

  lemma ClientKeepsAsked(env: Env, c: C.State, e: C.Event)
    requires C.TablesInv(c) && CallsInv(env, c) && AskedInv(env, c.asked) && C.Enabled(c, e)
    ensures AskedInv(env, C.Apply(c, e).asked) && Extends(c.asked, C.Apply(c, e).asked)
  {
    ClientStepAsked(c, e);
  }

  lemma ServerInvExtends(env: Env, asked: map<nat, C.Ask>, more: map<nat, C.Ask>, server: S.State)
    requires ServerInv(env, asked, server) && Extends(asked, more)
    ensures ServerInv(env, more, server)
  {
    forall i | 0 <= i < |server.frames| ensures Explained(env, more, server.frames[i]) {
      assert Explained(env, asked, server.frames[i]);
    }
  }

  lemma RequestInvExtends(
    attempts: seq<Attempt>, a: seq<Attempt>, asked: map<nat, C.Ask>, more: map<nat, C.Ask>,
    server: S.State, toServer: nat)
    requires RequestInv(attempts, asked, server, toServer) && Extends(asked, more)
    requires |a| <= 1 && (a != [] ==> !a[0].outcome.BodyFailed? && CanEnd(EncodeAll(attempts), a[0].outcome))
    ensures RequestInv(attempts + a, more, server, toServer)
  {
    if a == [] {
      assert attempts + a == attempts;
    } else {
      assert a == [a[0]];
      AttemptAppended(attempts, a[0]);
      CleanStream(attempts + a);
    }
  }

  lemma ClientKeepsRequests(env: Env, s: State, e: C.Event)
    requires RequestInv(s.client.attempts, s.client.asked, s.server, s.toServer) && ClientAllowed(env, s, e)
    requires Extends(s.client.asked, C.Apply(s.client, e).asked)
    ensures RequestInv(C.Apply(s.client, e).attempts, C.Apply(s.client, e).asked, s.server, s.toServer)
  {
    var n := C.Apply(s.client, e);
    ClientStepAttempts(s.client, e);
    var added := if e.EncodeCall? then [Attempt(C.Request(s.client), e.outcome)] else [];
    RequestInvExtends(s.client.attempts, added, s.client.asked, n.asked, s.server, s.toServer);
    assert n.attempts == s.client.attempts + added;
  }

  lemma DecodeHeaderKeepsResponses(env: Env, c: C.State, server: S.State, toClient: nat, h: MessageHeader)
    requires ResponseInv(c, server, toClient) && c.phase == C.AwaitHeader
    requires NextHeader(env, server.wire.sent, toClient, h)
    ensures ResponseInv(C.ReadHeader(c, h), server, toClient + 1)
    ensures toClient / 2 < |server.frames| && h == server.frames[toClient / 2].header
  {
    EvenIsHeader(env, server.wire.sent, server.frames, toClient, h);
  }

  lemma ClaimKeepsResponses(c: C.State, server: S.State, toClient: nat)
    requires C.TablesInv(c) && ResponseInv(c, server, toClient) && c.phase == C.GotHeader
    ensures ResponseInv(C.ClaimReply(c), server, toClient)
  {
  }

  lemma BodyKeepsResponses(c: C.State, server: S.State, toClient: nat, ok: bool, body: Option<Value>)
    requires ResponseInv(c, server, toClient)
    ensures c.phase == C.Discarding ==> ResponseInv(C.Discard(c, ok), server, toClient + Bit(ok))
    ensures c.phase == C.FillingOutput && C.Claims(c, c.claim) ==>
              ResponseInv(C.FillOutput(c, body), server, toClient + Bit(body.Some?))
  {
  }

  lemma ReceiverKeepsResponses(env: Env, s: State, e: C.Event)
    requires C.TablesInv(s.client) && ResponseInv(s.client, s.server, s.toClient)
    requires ClientAllowed(env, s, e) && MovesReceiver(e)
    ensures ResponseInv(C.Apply(s.client, e), s.server, s.toClient + Bit(ClientReads(e)))
  {
    match e
    case DecodeHeader(h) => DecodeHeaderKeepsResponses(env, s.client, s.server, s.toClient, h);
    case Claim => ClaimKeepsResponses(s.client, s.server, s.toClient);
    case DiscardBody(ok) => BodyKeepsResponses(s.client, s.server, s.toClient, ok, None);
    case DecodeOutput(body) => BodyKeepsResponses(s.client, s.server, s.toClient, true, body);
    case FinishClaim =>
  }

  lemma OthersKeepResponses(env: Env, s: State, e: C.Event)
    requires ResponseInv(s.client, s.server, s.toClient)
    requires C.Enabled(s.client, e) && !MovesReceiver(e)
    requires Extends(s.client.asked, C.Apply(s.client, e).asked)
    ensures ResponseInv(C.Apply(s.client, e), s.server, s.toClient)
  {
    ClientStepReceiver(s.client, e);
  }

  lemma ClientKeepsJoint(env: Env, s: State, e: C.Event, n: C.State)
    requires C.Inv(s.client) && Joint(env, s.client, s.server, s.toServer, s.toClient)
    requires ClientAllowed(env, s, e) && Good(env, AtClient(e)) && n == C.Apply(s.client, e)
    ensures Joint(env, n, s.server, s.toServer, s.toClient + Bit(ClientReads(e)))
  {
    ClientKeepsCalls(env, s, e);
    ClientKeepsAsked(env, s.client, e);
    ServerInvExtends(env, s.client.asked, n.asked, s.server);
    ClientKeepsRequests(env, s, e);
    if MovesReceiver(e) {
      ReceiverKeepsResponses(env, s, e);
    } else {
      OthersKeepResponses(env, s, e);
    }
  }

  // ----- a step of the server keeps the invariant -----

  lemma ServerKeepsJobs(env: Env, s: State, e: S.Event)
    requires ServerInv(env, s.client.asked, s.server)
    requires ServerAllowed(env, s, e) && !e.Body?
    ensures
      var n := S.Apply(s.server, e);
      forall j {:trigger n.jobs[j]} :: 0 <= j < |n.jobs| ==> JobKnown(env, s.client.asked, n.jobs[j])
  {
  }

  lemma DispatchKeepsJobs(env: Env, s: State, input: Value)
    requires RequestInv(s.client.attempts, s.client.asked, s.server, s.toServer)
    requires ServerInv(env, s.client.asked, s.server) && C.WireInv(s.client)
    requires s.server.reader == S.ReadingBody && Next(Requests(s), s.toServer, BodyToken(input))
    ensures
      var n := S.Dispatch(s.server, input);
      forall j {:trigger n.jobs[j]} :: 0 <= j < |n.jobs| ==> JobKnown(env, s.client.asked, n.jobs[j])
  {
    RequestAt(s.client, s.server.requestsRead - 1);
    TokenAt(Begun(s.client.attempts), s.server.requestsRead - 1);
  }

  /** The request in position i is the call's that asked under its number. */
  lemma RequestAt(c: C.State, i: nat)
    requires C.WireInv(c) && i < |Begun(c.attempts)|
    ensures C.IsRequest(c.asked, Begun(c.attempts)[i])
  {
    C.BegunComeFromAttempts(c.attempts);
    assert Begun(c.attempts)[i] in Begun(c.attempts);
  }

  lemma MessageIsExplained(env: Env, asked: map<nat, C.Ask>, server: S.State)
    requires ServerInv(env, asked, server) && S.JobsInv(server) && S.Wants(server, server.lock)
    requires server.reader == S.Rejecting ==>
               server.rejecting.error == S.BAD_BODY && IsAsked(asked, server.rejecting.(error := ""))
    ensures Explained(env, asked, S.Message(server))
  {
  }

  lemma ServerKeepsFrames(env: Env, s: State, e: S.Event)
    requires RequestInv(s.client.attempts, s.client.asked, s.server, s.toServer)
    requires ServerInv(env, s.client.asked, s.server) && S.JobsInv(s.server)
    requires ServerAllowed(env, s, e)
    ensures
      var n := S.Apply(s.server, e);
      && NoBodyFailure(n.attempts) && s.server.frames <= n.frames
      && forall i {:trigger n.frames[i]} :: 0 <= i < |n.frames| ==> Explained(env, s.client.asked, n.frames[i])
  {
    if e.BodyWrite? {
      MessageIsExplained(env, s.client.asked, s.server);
    }
  }

  lemma AlignedHeader(env: Env, s: State, h: MessageHeader)
    requires RequestInv(s.client.attempts, s.client.asked, s.server, s.toServer)
    requires s.server.reader == S.ReadingHeader && !s.server.lost && NextHeader(env, Requests(s), s.toServer, h)
    ensures Next(Requests(s), s.toServer, HeaderToken(h))
  {
    assert s.toServer == 2 * s.server.requestsRead;
    assert s.toServer % 2 == 0;
    EvenIsHeader(env, Requests(s), Begun(s.client.attempts), s.toServer, h);
  }

  lemma AlignedBody(env: Env, s: State, input: Value)
    requires RequestInv(s.client.attempts, s.client.asked, s.server, s.toServer)
    requires s.server.reader == S.ReadingBody && NextBody(env, Requests(s), s.toServer, input)
    ensures Next(Requests(s), s.toServer, BodyToken(input))
  {
    OddIsBody(env, Requests(s), Begun(s.client.attempts), s.toServer, input);
  }

  lemma HeaderKeepsRequests(s: State, h: MessageHeader)
    requires RequestInv(s.client.attempts, s.client.asked, s.server, s.toServer) && C.WireInv(s.client)
    requires s.server.reader == S.ReadingHeader && !s.server.lost && Next(Requests(s), s.toServer, HeaderToken(h))
    ensures RequestInv(s.client.attempts, s.client.asked, S.DecodeHeader(s.server, h), s.toServer + 1)
  {
    var frames := Begun(s.client.attempts);
    if frames != [] {
      TokenAt(frames, if s.server.requestsRead < |frames| then s.server.requestsRead else 0);
    }
    RequestAt(s.client, s.server.requestsRead);
  }

  predicate MovesReader(e: S.Event) {
    e.Header? || e.SearchEnds? || e.Body? || e.BodyError?
  }

  lemma ServerStepReader(v: S.State, e: S.Event)
    requires S.Enabled(v, e) && !MovesReader(e)
    ensures
      var n := S.Apply(v, e);
      && n.rejecting == v.rejecting && n.lost == v.lost && n.requestsRead == v.requestsRead
      && (|| n.reader == v.reader || n.reader == S.Waiting || n.reader == S.Closed
          || (v.reader == S.Rejecting && n.reader == S.ReadingHeader))
  {
  }

  lemma AskedIsFound(env: Env, asked: map<nat, C.Ask>, h: MessageHeader)
    requires AskedInv(env, asked) && IsAsked(asked, h)
    ensures FoundOf(env, h.serviceDotMethod) != S.FoundNoService
  {
  }

  lemma SearchKeepsRequests(
    attempts: seq<Attempt>, asked: map<nat, C.Ask>, server: S.State, toServer: nat, found: S.Found)
    requires RequestInv(attempts, asked, server, toServer)
    requires server.reader == S.Searching && found != S.FoundNoService
    ensures RequestInv(attempts, asked, S.Search(server, found), toServer)
  {
  }

  lemma DispatchKeepsRequests(
    attempts: seq<Attempt>, asked: map<nat, C.Ask>, server: S.State, toServer: nat, input: Value)
    requires RequestInv(attempts, asked, server, toServer) && server.reader == S.ReadingBody
    ensures RequestInv(attempts, asked, S.Dispatch(server, input), toServer + 1)
  {
  }

  lemma BodyFailsKeepsRequests(
    attempts: seq<Attempt>, asked: map<nat, C.Ask>, server: S.State, toServer: nat, lost: bool)
    requires RequestInv(attempts, asked, server, toServer) && server.reader == S.ReadingBody
    ensures RequestInv(attempts, asked, S.BodyFails(server, lost), toServer + Bit(!lost))
  {
  }

  lemma ServerKeepsRequests(env: Env, s: State, e: S.Event)
    requires RequestInv(s.client.attempts, s.client.asked, s.server, s.toServer)
    requires S.Enabled(s.server, e) && !MovesReader(e)
    ensures RequestInv(s.client.attempts, s.client.asked, S.Apply(s.server, e), s.toServer)
  {
    ServerStepReader(s.server, e);
  }

  lemma ReadKeepsRequests(env: Env, s: State, h: MessageHeader)
    requires RequestInv(s.client.attempts, s.client.asked, s.server, s.toServer) && C.WireInv(s.client)
    requires s.server.reader == S.ReadingHeader && !s.server.lost && NextHeader(env, Requests(s), s.toServer, h)
    ensures RequestInv(s.client.attempts, s.client.asked, S.DecodeHeader(s.server, h), s.toServer + 1)
  {
    AlignedHeader(env, s, h);
    HeaderKeepsRequests(s, h);
  }

  lemma SearchStepKeepsRequests(env: Env, s: State, found: S.Found)
    requires RequestInv(s.client.attempts, s.client.asked, s.server, s.toServer) && AskedInv(env, s.client.asked)
    requires s.server.reader == S.Searching && found == FoundOf(env, s.server.rejecting.serviceDotMethod)
    ensures RequestInv(s.client.attempts, s.client.asked, S.Search(s.server, found), s.toServer)
  {
    AskedIsFound(env, s.client.asked, s.server.rejecting);
    SearchKeepsRequests(s.client.attempts, s.client.asked, s.server, s.toServer, found);
  }

  lemma ReaderKeepsRequests(env: Env, s: State, e: S.Event)
    requires RequestInv(s.client.attempts, s.client.asked, s.server, s.toServer)
    requires AskedInv(env, s.client.asked) && C.WireInv(s.client)
    requires ServerAllowed(env, s, e) && MovesReader(e)
    ensures RequestInv(s.client.attempts, s.client.asked, S.Apply(s.server, e), s.toServer + Bit(ServerReads(e)))
  {
    if e.Header? {
      ReadKeepsRequests(env, s, e.header);
    } else if e.SearchEnds? {
      SearchStepKeepsRequests(env, s, e.found);
    } else if e.Body? {
      DispatchKeepsRequests(s.client.attempts, s.client.asked, s.server, s.toServer, e.input);
    } else {
      BodyFailsKeepsRequests(s.client.attempts, s.client.asked, s.server, s.toServer, e.lost);
    }
  }

  lemma ServerKeepsResponses(client: C.State, server: S.State, n: S.State, toClient: nat)
    requires ResponseInv(client, server, toClient)
    requires server.frames <= n.frames && n.wire.sent <= Tokens(n.frames)
    ensures ResponseInv(client, n, toClient)
  {
  }

  lemma ServerKeepsServerInv(env: Env, s: State, e: S.Event)
    requires RequestInv(s.client.attempts, s.client.asked, s.server, s.toServer)
    requires ServerInv(env, s.client.asked, s.server) && C.WireInv(s.client) && S.JobsInv(s.server)
    requires ServerAllowed(env, s, e)
    ensures ServerInv(env, s.client.asked, S.Apply(s.server, e)) && s.server.frames <= S.Apply(s.server, e).frames
  {
    if e.Body? {
      AlignedBody(env, s, e.input);
      DispatchKeepsJobs(env, s, e.input);
    } else {
      ServerKeepsJobs(env, s, e);
    }
    ServerKeepsFrames(env, s, e);
  }

  // ----- runs -----

  ghost predicate Inv(env: Env, s: State) {
    && C.Inv(s.client)
    && S.Inv(s.server)
    && Joint(env, s.client, s.server, s.toServer, s.toClient)
  }

  lemma CleanWire(server: S.State)
    requires S.WireInv(server) && S.LockInv(server) && NoBodyFailure(server.attempts)
    ensures server.wire.sent <= Tokens(server.frames)
  {
    CleanStream(server.attempts);
  }

  lemma InvAfterClient(env: Env, s: State, e: C.Event, n: C.State)
    requires C.Inv(n) && S.Inv(s.server)
    requires Joint(env, n, s.server, s.toServer, s.toClient + Bit(ClientReads(e)))
    ensures Inv(env, AfterClient(s, e, n))
  {
  }

  lemma ClientStepKeepsInv(env: Env, s: State, e: C.Event, n: C.State)
    requires Inv(env, s) && ClientAllowed(env, s, e) && Good(env, AtClient(e)) && n == C.Apply(s.client, e)
    ensures Inv(env, AfterClient(s, e, n))
  {
    C.StepKeepsInv(s.client, e);
    ClientKeepsJoint(env, s, e, n);
    InvAfterClient(env, s, e, n);
  }

  lemma ServerStepKeepsInv(env: Env, s: State, e: S.Event, n: S.State)
    requires Inv(env, s) && ServerAllowed(env, s, e) && n == S.Apply(s.server, e)
    ensures Inv(env, AfterServer(s, e, n))
  {
    S.StepKeepsInv(s.server, e);
    ServerKeepsServerInv(env, s, e);
    if MovesReader(e) {
      ReaderKeepsRequests(env, s, e);
    } else {
      ServerKeepsRequests(env, s, e);
    }
    CleanWire(n);
    ServerKeepsResponses(s.client, s.server, n, s.toClient);
  }

  /** What the steps of each side keep, as long as they are in G, every run of such steps keeps. */
  lemma {:induction false} RunKeeps(
    env: Env, P: State -> bool, G: Event -> bool, s: State, events: seq<Event>)
    requires P(s) && CanRun(env, s, events) && forall i {:trigger events[i]} :: 0 <= i < |events| ==> G(events[i])
    requires forall x, c, n ::
               P(x) && G(AtClient(c)) && ClientAllowed(env, x, c) && n == C.Apply(x.client, c) ==>
                 P(AfterClient(x, c, n))
    requires forall x, v, n ::
               P(x) && G(AtServer(v)) && ServerAllowed(env, x, v) && n == S.Apply(x.server, v) ==>
                 P(AfterServer(x, v, n))
    ensures P(Run(env, s, events))
    decreases |events|
  {
    if events != [] {
      RunKeeps(env, P, G, Apply(env, s, events[0]), events[1..]);
    }
  }

  lemma ClientKeepsInv(env: Env)
    ensures forall x, c, n ::
              Inv(env, x) && Good(env, AtClient(c)) && ClientAllowed(env, x, c) && n == C.Apply(x.client, c) ==>
                Inv(env, AfterClient(x, c, n))
  {
    forall x, c, n | Inv(env, x) && Good(env, AtClient(c)) && ClientAllowed(env, x, c) && n == C.Apply(x.client, c)
      ensures Inv(env, AfterClient(x, c, n))
    {
      ClientStepKeepsInv(env, x, c, n);
    }
  }

  lemma ServerKeepsInv(env: Env)
    ensures forall x, v, n ::
              Inv(env, x) && ServerAllowed(env, x, v) && n == S.Apply(x.server, v) ==>
                Inv(env, AfterServer(x, v, n))
  {
    forall x, v, n | Inv(env, x) && ServerAllowed(env, x, v) && n == S.Apply(x.server, v)
      ensures Inv(env, AfterServer(x, v, n))
    {
      ServerStepKeepsInv(env, x, v, n);
    }
  }

  ghost predicate AllGood(env: Env, events: seq<Event>) {
    forall i {:trigger events[i]} :: 0 <= i < |events| ==> Good(env, events[i])
  }

  lemma RunKeepsInv(env: Env, s: State, events: seq<Event>)
    requires Inv(env, s) && CanRun(env, s, events) && AllGood(env, events)
    ensures Inv(env, Run(env, s, events))
  {
    ClientKeepsInv(env);
    ServerKeepsInv(env);
    RunKeeps(env, x => Inv(env, x), e => Good(env, e), s, events);
  }

  /** Some run whose calls all name a registered service ends in s. */
  ghost predicate Reachable(env: Env, s: State) {
    exists limit, events ::
      CanRun(env, Init(limit), events) && AllGood(env, events) && Run(env, Init(limit), events) == s
  }

  lemma ReachableInv(env: Env, s: State)
    requires Reachable(env, s)
    ensures Inv(env, s)
  {
    var limit, events :|
      CanRun(env, Init(limit), events) && AllGood(env, events) && Run(env, Init(limit), events) == s;
    C.InitInv();
    S.InitInv(limit);
    InitJoint(env, limit);
    RunKeepsInv(env, Init(limit), events);
  }

  /** Each side of a run is a run of its own protocol, so what those promise holds here too. */
  ghost predicate SidesReachable(s: State) {
    C.Reachable(s.client) && S.Reachable(s.server)
  }

  lemma StepsKeepSides(env: Env)
    ensures forall x, c, n :: SidesReachable(x) && ClientAllowed(env, x, c) && n == C.Apply(x.client, c) ==>
                                SidesReachable(AfterClient(x, c, n))
    ensures forall x, v, n :: SidesReachable(x) && ServerAllowed(env, x, v) && n == S.Apply(x.server, v) ==>
                                SidesReachable(AfterServer(x, v, n))
  {
    forall x, c, n | SidesReachable(x) && ClientAllowed(env, x, c) && n == C.Apply(x.client, c)
      ensures SidesReachable(AfterClient(x, c, n))
    {
      C.StepIsReachable(x.client, c);
    }
    forall x, v, n | SidesReachable(x) && ServerAllowed(env, x, v) && n == S.Apply(x.server, v)
      ensures SidesReachable(AfterServer(x, v, n))
    {
      S.StepIsReachable(x.server, v);
    }
  }

  lemma SidesAreRuns(env: Env, limit: nat, events: seq<Event>)
    requires CanRun(env, Init(limit), events)
    ensures SidesReachable(Run(env, Init(limit), events))
  {
    assert C.CanRun(C.Init, []) && C.Run(C.Init, []) == C.Init;
    assert S.CanRun(S.Init(limit), []) && S.Run(S.Init(limit), []) == S.Init(limit);
    StepsKeepSides(env);
    RunKeeps(env, x => SidesReachable(x), _ => true, Init(limit), events);
  }

  lemma ReachableSides(env: Env, s: State)
    requires Reachable(env, s)
    ensures SidesReachable(s)
  {
    var limit, events :|
      CanRun(env, Init(limit), events) && AllGood(env, events) && Run(env, Init(limit), events) == s;
    SidesAreRuns(env, limit, events);
  }

  // ----- what holds in every run -----

  /** Correlation: a call that returns without an error holds what its own method produced from
      its own inputs, or the method failed with an empty error text. */
  lemma Correlation(env: Env, s: State, id: C.CallId)
    requires Reachable(env, s) && id in s.client.calls
    requires s.client.calls[id].caller == C.Returned(false) && s.client.calls[id].error == None
    ensures
      var c := s.client.calls[id];
      var r := MethodOutcome(env, c.name, c.inputs);
      && r.Some? && (r.value.Success? || r.value == Failure(""))
      && c.output == Some(S.ResultBody(r.value))
  {
    ReachableInv(env, s);
    assert C.CallInv(s.client, id);
  }

  /** The exact condition: such a call carries its method's result if and only if the method does
      not fail with an empty text on its inputs. */
  lemma CarriesResultExactly(env: Env, s: State, id: C.CallId)
    requires Reachable(env, s) && id in s.client.calls
    requires s.client.calls[id].caller == C.Returned(false) && s.client.calls[id].error == None
    ensures
      var c := s.client.calls[id];
      (c.output.Some? && MethodOutcome(env, c.name, c.inputs) == Some(Success(c.output.value)))
      <==> MethodOutcome(env, c.name, c.inputs) != Some(Failure(""))
  {
    Correlation(env, s, id);
  }

  /** When the receiver has read a reply, the reply answers a request of this client, the only call
      it can claim is the one that sent that request, and if that call's caller has given up and
      returned, or the call is finished already, the reply claims nothing and touches no call. */
  lemma LateReplyIsDropped(env: Env, s: State)
    requires Reachable(env, s) && s.client.phase == C.GotHeader
    ensures
      var n := s.client.reply.sequenceNumber;
      && n in s.client.asked
      && var id := s.client.asked[n].id;
      && id in s.client.calls && s.client.calls[id].number == n
      && (n in s.client.tables.pending ==> s.client.tables.pending[n] == id)
      && (s.client.calls[id].caller == C.Returned(true) || s.client.calls[id].finishes > 0 ==>
            n !in s.client.tables.pending)
      && (n !in s.client.tables.pending ==>
            C.Enabled(s.client, C.Claim) && C.Apply(s.client, C.Claim).calls == s.client.calls
            && C.Apply(s.client, C.Claim).claim == s.client.claim)
  {
    ReachableInv(env, s);
    ReachableSides(env, s);
    var i := s.toClient / 2;
    assert Explained(env, s.client.asked, s.server.frames[i]);
    var id := s.client.asked[s.client.reply.sequenceNumber].id;
    assert C.CallInv(s.client, id);
    if s.client.calls[id].caller == C.Returned(true) {
      C.AbandonedIsNotPending(s.client, id);
    }
  }
}
