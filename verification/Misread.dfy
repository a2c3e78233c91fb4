/**
  read_request leaves the body of a call unread when its service is not registered
  (server/server.go:156-160), so the next header is decoded from that body. If the body is shaped
  like a header, the rejection that it earns goes to whatever call has the number in it: a caller is
  told of an error that is not its own.

  This needs a coder that can discard a body. With JSON the first rejection already ends the client
  (CallProtocol.JsonReceiverSurvivesExactly).
 */
module Misread {
  import opened Wrappers
  import opened Coder
  import opened EndToEnd
  import opened Runs
  import opened Answers
  import C = CallProtocol
  import S = Connection
  import T = ClientTables

  /** Some run whose calls are all called one of these names ends in s. */
  ghost predicate NamedReachable(env: Env, names: set<string>, s: State) {
    exists limit, events ::
      CanRun(env, Init(limit), events) && Run(env, Init(limit), events) == s && AllNamed(names, events)
  }

  lemma Grow(env: Env, names: set<string>, s: State, e: Event)
    requires NamedReachable(env, names, s) && Allowed(env, s, e) && Named(names, e)
    ensures NamedReachable(env, names, Apply(env, s, e))
  {
    var limit, events :|
      CanRun(env, Init(limit), events) && Run(env, Init(limit), events) == s && AllNamed(names, events);
    assert [e][1..] == [];
    RunAppend(env, Init(limit), events, [e]);
    var more := events + [e];
    assert AllNamed(names, more);
    assert CanRun(env, Init(limit), more) && Run(env, Init(limit), more) == Apply(env, s, e);
  }

  lemma AtTheClient(env: Env, names: set<string>, s: State, e: C.Event, n: C.State)
    requires NamedReachable(env, names, s) && ClientAllowed(env, s, e) && n == C.Apply(s.client, e)
    requires e.Start? ==> e.name in names
    ensures NamedReachable(env, names, AfterClient(s, e, n))
  {
    Grow(env, names, s, AtClient(e));
  }

  lemma AtTheServer(env: Env, names: set<string>, s: State, e: S.Event, n: S.State)
    requires NamedReachable(env, names, s) && ServerAllowed(env, s, e) && n == S.Apply(s.server, e)
    ensures NamedReachable(env, names, AfterServer(s, e, n))
  {
    Grow(env, names, s, AtServer(e));
  }

  // ----- call 0 names no registered service; call 1 does -----

  /** Call 0 is a call of `bad` with inputs v, call 1 one of `good` with inputs x. */
  datatype Case = Case(bad: string, v: Value, good: string, x: Value)

  function Names(k: Case): set<string> {
    {k.bad, k.good}
  }

  function Queued(name: string, inputs: Value): C.Call {
    C.Call(name, inputs, true, 0, None, None, 0, C.Queued, 0, false)
  }

  function Sent0(k: Case): C.Call {
    Queued(k.bad, k.v).(number := 1, caller := C.Selecting)
  }

  function Sent1(k: Case): C.Call {
    Queued(k.good, k.x).(number := 2, caller := C.Selecting)
  }

  function Header0(k: Case): MessageHeader {
    MessageHeader(k.bad, 1, "")
  }

  function Header1(k: Case): MessageHeader {
    MessageHeader(k.good, 2, "")
  }

  /** What the body of call 0 decodes to when it is read as a header: it carries call 1's number. */
  function Shaped(k: Case): MessageHeader {
    MessageHeader(k.bad, 2, "")
  }

  const ONE: T.Tables<C.CallId> := T.Tables(2, map[1 := 0], false, false)
  const BOTH: T.Tables<C.CallId> := T.Tables(3, map[1 := 0, 2 := 1], false, false)
  const SECOND: T.Tables<C.CallId> := T.Tables(3, map[2 := 1], false, false)
  const NONE: T.Tables<C.CallId> := T.Tables(3, map[], false, false)

  function Asked0(k: Case): map<nat, C.Ask> {
    map[1 := C.Ask(0, k.bad, k.v)]
  }

  function Asked1(k: Case): map<nat, C.Ask> {
    map[1 := C.Ask(0, k.bad, k.v), 2 := C.Ask(1, k.good, k.x)]
  }

  function Attempts0(k: Case): seq<Attempt> {
    [Attempt(Frame(Header0(k), k.v), Sent)]
  }

  function Attempts1(k: Case): seq<Attempt> {
    [Attempt(Frame(Header0(k), k.v), Sent), Attempt(Frame(Header1(k), k.x), Sent)]
  }

  function A1(k: Case): C.State {
    C.Init.(calls := map[0 := Queued(k.bad, k.v)])
  }

  function A2(k: Case): C.State {
    C.Init.(calls := map[0 := Queued(k.bad, k.v).(caller := C.Sending)], holder := C.Sender(0))
  }

  function A3(k: Case): C.State {
    C.State(
      ONE, map[0 := Queued(k.bad, k.v).(number := 1, caller := C.Sending)], C.Sender(0), C.FillingHeader, None,
      C.NO_HEADER, C.AwaitHeader, C.NO_HEADER, None, false, {}, [], Asked0(k))
  }

  function A4(k: Case): C.State {
    A3(k).(header := Header0(k), stage := C.Encoding)
  }

  function A5(k: Case): C.State {
    C.State(
      ONE, map[0 := Sent0(k)], C.Free, C.Encoding, None, Header0(k), C.AwaitHeader, C.NO_HEADER, None, false, {},
      Attempts0(k), Asked0(k))
  }

  function B1(k: Case): C.State {
    A5(k).(calls := map[0 := Sent0(k), 1 := Queued(k.good, k.x)])
  }

  function B2(k: Case): C.State {
    A5(k).(
      calls := map[0 := Sent0(k), 1 := Queued(k.good, k.x).(caller := C.Sending)], holder := C.Sender(1),
      stage := C.Adding)
  }

  function B3(k: Case): C.State {
    C.State(
      BOTH, map[0 := Sent0(k), 1 := Queued(k.good, k.x).(number := 2, caller := C.Sending)], C.Sender(1),
      C.FillingHeader, None, Header0(k), C.AwaitHeader, C.NO_HEADER, None, false, {}, Attempts0(k), Asked1(k))
  }

  function B4(k: Case): C.State {
    B3(k).(header := Header1(k), stage := C.Encoding)
  }

  function B5(k: Case): C.State {
    C.State(
      BOTH, map[0 := Sent0(k), 1 := Sent1(k)], C.Free, C.Encoding, None, Header1(k), C.AwaitHeader, C.NO_HEADER,
      None, false, {}, Attempts1(k), Asked1(k))
  }

  lemma FirstStarts(k: Case)
    ensures C.Enabled(C.Init, C.Start(0, k.bad, k.v, true)) && C.Apply(C.Init, C.Start(0, k.bad, k.v, true)) == A1(k)
    ensures C.Enabled(A1(k), C.Lock(0)) && C.Apply(A1(k), C.Lock(0)) == A2(k)
  {
  }

  lemma FirstRegisters(k: Case)
    ensures C.Enabled(A2(k), C.Add) && C.Apply(A2(k), C.Add) == A3(k)
    ensures C.Enabled(A3(k), C.Fill) && C.Apply(A3(k), C.Fill) == A4(k)
  {
  }

  lemma FirstStream(k: Case)
    ensures EncodeAll(Attempts0(k)) == Stream([HeaderToken(Header0(k)), BodyToken(k.v)], [], false)
  {
    assert Attempts0(k)[..0] == [];
    assert [] + [HeaderToken(Header0(k))] + [BodyToken(k.v)] == [HeaderToken(Header0(k)), BodyToken(k.v)];
  }

  lemma FirstIsSent(k: Case)
    ensures C.Enabled(A4(k), C.EncodeCall(Sent)) && C.Apply(A4(k), C.EncodeCall(Sent)) == A5(k)
  {
  }

  lemma SecondStarts(k: Case)
    ensures C.Enabled(A5(k), C.Start(1, k.good, k.x, true)) && C.Apply(A5(k), C.Start(1, k.good, k.x, true)) == B1(k)
    ensures C.Enabled(B1(k), C.Lock(1)) && C.Apply(B1(k), C.Lock(1)) == B2(k)
  {
  }

  lemma SecondRegisters(k: Case)
    ensures C.Enabled(B2(k), C.Add) && C.Apply(B2(k), C.Add) == B3(k)
    ensures C.Enabled(B3(k), C.Fill) && C.Apply(B3(k), C.Fill) == B4(k)
  {
  }

  lemma SecondIsSent(k: Case)
    ensures C.Enabled(B4(k), C.EncodeCall(Sent)) && C.Apply(B4(k), C.EncodeCall(Sent)) == B5(k)
  {
    FirstStream(k);
  }

  lemma BothStream(k: Case)
    ensures EncodeAll(Attempts1(k)).sent ==
            [HeaderToken(Header0(k)), BodyToken(k.v), HeaderToken(Header1(k)), BodyToken(k.x)]
  {
    FirstStream(k);
    assert Attempts1(k)[..1] == Attempts0(k);
    assert [] + [HeaderToken(Header1(k))] + [BodyToken(k.x)] == [HeaderToken(Header1(k)), BodyToken(k.x)];
  }

  lemma ReachFirst(env: Env, k: Case)
    ensures NamedReachable(env, Names(k), State(A2(k), S.Init(0), 0, 0))
  {
    var none: seq<Event> := [];
    assert CanRun(env, Init(0), none) && Run(env, Init(0), none) == Init(0) && AllNamed(Names(k), none);
    FirstStarts(k);
    AtTheClient(env, Names(k), Init(0), C.Start(0, k.bad, k.v, true), A1(k));
    AtTheClient(env, Names(k), State(A1(k), S.Init(0), 0, 0), C.Lock(0), A2(k));
  }

  lemma ReachFirstFilled(env: Env, k: Case)
    ensures NamedReachable(env, Names(k), State(A4(k), S.Init(0), 0, 0))
  {
    ReachFirst(env, k);
    FirstRegisters(k);
    AtTheClient(env, Names(k), State(A2(k), S.Init(0), 0, 0), C.Add, A3(k));
    AtTheClient(env, Names(k), State(A3(k), S.Init(0), 0, 0), C.Fill, A4(k));
  }

  lemma ReachSecond(env: Env, k: Case)
    ensures NamedReachable(env, Names(k), State(B1(k), S.Init(0), 0, 0))
  {
    ReachFirstFilled(env, k);
    FirstIsSent(k);
    SecondStarts(k);
    AtTheClient(env, Names(k), State(A4(k), S.Init(0), 0, 0), C.EncodeCall(Sent), A5(k));
    AtTheClient(env, Names(k), State(A5(k), S.Init(0), 0, 0), C.Start(1, k.good, k.x, true), B1(k));
  }

  lemma ReachSecondRegistered(env: Env, k: Case)
    ensures NamedReachable(env, Names(k), State(B3(k), S.Init(0), 0, 0))
  {
    ReachSecond(env, k);
    SecondStarts(k);
    SecondRegisters(k);
    AtTheClient(env, Names(k), State(B1(k), S.Init(0), 0, 0), C.Lock(1), B2(k));
    AtTheClient(env, Names(k), State(B2(k), S.Init(0), 0, 0), C.Add, B3(k));
  }

  lemma ReachBothSent(env: Env, k: Case)
    ensures NamedReachable(env, Names(k), State(B5(k), S.Init(0), 0, 0))
  {
    ReachSecondRegistered(env, k);
    SecondRegisters(k);
    SecondIsSent(k);
    AtTheClient(env, Names(k), State(B3(k), S.Init(0), 0, 0), C.Fill, B4(k));
    AtTheClient(env, Names(k), State(B4(k), S.Init(0), 0, 0), C.EncodeCall(Sent), B5(k));
  }

  // ----- the server rejects call 0, and takes its body for the next header -----

  /** The server has answered with these frames, and its reader has read so many headers. */
  function Idle(frames: seq<Frame>, sent: seq<Token>): S.State {
    S.Init(0).(
      rejecting := if frames == [] then S.NO_REQUEST else frames[|frames| - 1].header,
      wire := Stream(sent, [], false),
      attempts := seq(|frames|, i requires 0 <= i < |frames| => Attempt(frames[i], Sent)),
      frames := frames, origins := seq(|frames|, _ => None), requestsRead := |frames|, rejected := |frames|)
  }

  function Rejection(h: MessageHeader): Frame {
    Frame(h.(error := S.NO_SERVICE), S.INVALID_REQUEST)
  }

  function Searching(v: S.State, h: MessageHeader): S.State {
    v.(reader := S.Searching, rejecting := h, requestsRead := v.requestsRead + 1)
  }

  function Rejecting(v: S.State, h: MessageHeader): S.State {
    v.(reader := S.Rejecting, rejecting := h.(error := S.NO_SERVICE), requestsRead := v.requestsRead + 1)
  }

  function Writing(v: S.State, h: MessageHeader): S.State {
    Rejecting(v, h).(
      lock := S.TheReader, headerWritten := true, wire := BufferHeader(v.wire, h.(error := S.NO_SERVICE)))
  }

  function After(frames: seq<Frame>, sent: seq<Token>, h: MessageHeader): S.State {
    Idle(frames + [Rejection(h)], sent + [HeaderToken(Rejection(h).header), BodyToken(S.INVALID_REQUEST)])
  }

  lemma ReadAndSearch(v: S.State, h: MessageHeader)
    requires v.reader == S.ReadingHeader && !v.lost
    ensures S.Enabled(v, S.Header(h)) && S.Apply(v, S.Header(h)) == Searching(v, h)
    ensures S.Enabled(Searching(v, h), S.SearchEnds(S.FoundNoService))
    ensures S.Apply(Searching(v, h), S.SearchEnds(S.FoundNoService)) == Rejecting(v, h)
  {
  }

  lemma LockAndWrite(v: S.State, h: MessageHeader)
    requires v.lock == S.Nobody && !v.headerWritten && !v.wire.broken
    ensures
      var locked := Rejecting(v, h).(lock := S.TheReader);
      && S.Enabled(Rejecting(v, h), S.TakeSendMutex(S.TheReader))
      && S.Apply(Rejecting(v, h), S.TakeSendMutex(S.TheReader)) == locked
      && S.Enabled(locked, S.HeaderWrite) && S.Apply(locked, S.HeaderWrite) == Writing(v, h)
  {
  }

  lemma WriteRest(frames: seq<Frame>, sent: seq<Token>, h: MessageHeader)
    ensures
      var v := Writing(Idle(frames, sent), h);
      S.Enabled(v, S.BodyWrite(Sent)) && S.Apply(v, S.BodyWrite(Sent)) == After(frames, sent, h)
  {
    var v, n := Writing(Idle(frames, sent), h), After(frames, sent, h);
    var m := S.Apply(v, S.BodyWrite(Sent));
    assert m.attempts == n.attempts && m.origins == n.origins && m.frames == n.frames;
    assert [] + [HeaderToken(Rejection(h).header)] + [BodyToken(S.INVALID_REQUEST)]
        == [HeaderToken(Rejection(h).header), BodyToken(S.INVALID_REQUEST)];
    assert m.wire == n.wire;
  }

  /** One rejection, from the header to the answer. */
  lemma RejectOne(
    env: Env, names: set<string>, c: C.State, toServer: nat, frames: seq<Frame>, sent: seq<Token>, h: MessageHeader)
    requires NamedReachable(env, names, State(c, Idle(frames, sent), toServer, 0))
    requires NextHeader(env, EncodeAll(c.attempts).sent, toServer, h)
    requires FoundOf(env, h.serviceDotMethod) == S.FoundNoService
    ensures NamedReachable(env, names, State(c, After(frames, sent, h), toServer + 1, 0))
  {
    var v := Idle(frames, sent);
    ReadAndSearch(v, h);
    LockAndWrite(v, h);
    WriteRest(frames, sent, h);
    AtTheServer(env, names, State(c, v, toServer, 0), S.Header(h), Searching(v, h));
    RejectRest(env, names, c, toServer + 1, v, h);
    AtTheServer(env, names, State(c, Writing(v, h), toServer + 1, 0), S.BodyWrite(Sent), After(frames, sent, h));
  }

  lemma RejectRest(env: Env, names: set<string>, c: C.State, toServer: nat, v: S.State, h: MessageHeader)
    requires NamedReachable(env, names, State(c, Searching(v, h), toServer, 0))
    requires FoundOf(env, h.serviceDotMethod) == S.FoundNoService
    requires v.lock == S.Nobody && !v.headerWritten && !v.wire.broken && v.reader == S.ReadingHeader && !v.lost
    ensures NamedReachable(env, names, State(c, Writing(v, h), toServer, 0))
  {
    ReadAndSearch(v, h);
    LockAndWrite(v, h);
    var locked := Rejecting(v, h).(lock := S.TheReader);
    AtTheServer(env, names, State(c, Searching(v, h), toServer, 0), S.SearchEnds(S.FoundNoService), Rejecting(v, h));
    AtTheServer(env, names, State(c, Rejecting(v, h), toServer, 0), S.TakeSendMutex(S.TheReader), locked);
    AtTheServer(env, names, State(c, locked, toServer, 0), S.HeaderWrite, Writing(v, h));
  }

  /** Both rejections: the second is for the header that the body of call 0 was taken for. */
  function Rejected(k: Case): S.State {
    After(
      [Rejection(Header0(k))], [HeaderToken(Rejection(Header0(k)).header), BodyToken(S.INVALID_REQUEST)], Shaped(k))
  }

  lemma ReachRejected(env: Env, k: Case)
    requires FoundOf(env, k.bad) == S.FoundNoService && env.headerOf(k.v) == Some(Shaped(k))
    ensures NamedReachable(env, Names(k), State(B5(k), Rejected(k), 2, 0))
  {
    ReachBothSent(env, k);
    BothStream(k);
    assert Idle([], []) == S.Init(0);
    RejectOne(env, Names(k), B5(k), 0, [], [], Header0(k));
    assert [] + [Rejection(Header0(k))] == [Rejection(Header0(k))];
    assert [] + [HeaderToken(Rejection(Header0(k)).header), BodyToken(S.INVALID_REQUEST)]
        == [HeaderToken(Rejection(Header0(k)).header), BodyToken(S.INVALID_REQUEST)];
    RejectOne(
      env, Names(k), B5(k), 1, [Rejection(Header0(k))],
      [HeaderToken(Rejection(Header0(k)).header), BodyToken(S.INVALID_REQUEST)], Shaped(k));
  }

  // ----- the client reads both rejections -----

  function Told(c: C.Call): C.Call {
    c.(error := Some(T.Remote(S.NO_SERVICE)))
  }

  function E1(k: Case): C.State {
    B5(k).(phase := C.GotHeader, reply := Rejection(Header0(k)).header)
  }

  function E2(k: Case): C.State {
    C.State(
      SECOND, map[0 := Told(Sent0(k)), 1 := Sent1(k)], C.Free, C.Encoding, None, Header1(k), C.Discarding,
      Rejection(Header0(k)).header, Some(0), false, {}, Attempts1(k), Asked1(k))
  }

  function E3(k: Case): C.State {
    E2(k).(phase := C.Finishing)
  }

  function E4(k: Case): C.State {
    C.State(
      SECOND, map[0 := Told(Sent0(k)).(channel := 1, finishes := 1), 1 := Sent1(k)], C.Free, C.Encoding, None,
      Header1(k), C.AwaitHeader, Rejection(Header0(k)).header, None, false, {}, Attempts1(k), Asked1(k))
  }

  function E5(k: Case): C.State {
    E4(k).(phase := C.GotHeader, reply := Rejection(Shaped(k)).header)
  }

  function E6(k: Case): C.State {
    C.State(
      NONE, map[0 := Told(Sent0(k)).(channel := 1, finishes := 1), 1 := Told(Sent1(k))], C.Free, C.Encoding, None,
      Header1(k), C.Discarding, Rejection(Shaped(k)).header, Some(1), false, {}, Attempts1(k), Asked1(k))
  }

  lemma ReadFirst(k: Case)
    ensures C.Enabled(B5(k), C.DecodeHeader(Rejection(Header0(k)).header))
    ensures C.Apply(B5(k), C.DecodeHeader(Rejection(Header0(k)).header)) == E1(k)
    ensures C.Enabled(E1(k), C.Claim) && C.Apply(E1(k), C.Claim) == E2(k)
  {
  }

  lemma FinishFirst(k: Case)
    ensures C.Enabled(E2(k), C.DiscardBody(true)) && C.Apply(E2(k), C.DiscardBody(true)) == E3(k)
    ensures C.Enabled(E3(k), C.FinishClaim) && C.Apply(E3(k), C.FinishClaim) == E4(k)
  {
  }

  lemma ReadSecond(k: Case)
    ensures C.Enabled(E4(k), C.DecodeHeader(Rejection(Shaped(k)).header))
    ensures C.Apply(E4(k), C.DecodeHeader(Rejection(Shaped(k)).header)) == E5(k)
    ensures C.Enabled(E5(k), C.Claim) && C.Apply(E5(k), C.Claim) == E6(k)
  {
  }

  lemma RejectionsSent(k: Case)
    ensures Rejected(k).wire.sent ==
            [HeaderToken(Rejection(Header0(k)).header), BodyToken(S.INVALID_REQUEST),
             HeaderToken(Rejection(Shaped(k)).header), BodyToken(S.INVALID_REQUEST)]
    ensures Rejected(k).frames == [Rejection(Header0(k)), Rejection(Shaped(k))]
  {
  }

  lemma ReachFirstTold(env: Env, k: Case)
    requires FoundOf(env, k.bad) == S.FoundNoService && env.headerOf(k.v) == Some(Shaped(k))
    ensures NamedReachable(env, Names(k), State(E2(k), Rejected(k), 2, 1))
  {
    ReachRejected(env, k);
    RejectionsSent(k);
    ReadFirst(k);
    AtTheClient(
      env, Names(k), State(B5(k), Rejected(k), 2, 0), C.DecodeHeader(Rejection(Header0(k)).header), E1(k));
    AtTheClient(env, Names(k), State(E1(k), Rejected(k), 2, 1), C.Claim, E2(k));
  }

  lemma ReachFirstFinished(env: Env, k: Case)
    requires FoundOf(env, k.bad) == S.FoundNoService && env.headerOf(k.v) == Some(Shaped(k))
    ensures NamedReachable(env, Names(k), State(E4(k), Rejected(k), 2, 2))
  {
    ReachFirstTold(env, k);
    RejectionsSent(k);
    FinishFirst(k);
    AtTheClient(env, Names(k), State(E2(k), Rejected(k), 2, 1), C.DiscardBody(true), E3(k));
    AtTheClient(env, Names(k), State(E3(k), Rejected(k), 2, 2), C.FinishClaim, E4(k));
  }

  lemma ReachSecondTold(env: Env, k: Case)
    requires FoundOf(env, k.bad) == S.FoundNoService && env.headerOf(k.v) == Some(Shaped(k))
    ensures NamedReachable(env, Names(k), State(E6(k), Rejected(k), 2, 3))
  {
    ReachFirstFinished(env, k);
    RejectionsSent(k);
    ReadSecond(k);
    AtTheClient(
      env, Names(k), State(E4(k), Rejected(k), 2, 2), C.DecodeHeader(Rejection(Shaped(k)).header), E5(k));
    AtTheClient(env, Names(k), State(E5(k), Rejected(k), 2, 3), C.Claim, E6(k));
  }

  // ----- the exact condition -----

  /** In every run with these names a remote error is the call's own. */
  ghost predicate ErrorsAreOwn(env: Env, names: set<string>) {
    forall s, id, text ::
      NamedReachable(env, names, s) && id in s.client.calls && s.client.calls[id].error == Some(T.Remote(text)) ==>
        IsOwn(env, s.server, s.client.calls[id], text)
  }

  ghost predicate IsOwn(env: Env, server: S.State, c: C.Call, text: string) {
    exists i :: OwnError(env, server, c, text, i)
  }

  lemma NoOwnFrame(env: Env, server: S.State, bad: string, c: C.Call, text: string)
    requires forall i {:trigger server.frames[i]} :: 0 <= i < |server.frames| ==>
               server.frames[i].header.serviceDotMethod == bad
    requires c.name != bad
    ensures !IsOwn(env, server, c, text)
  {
  }

  lemma RejectionsAreOfBad(k: Case)
    ensures forall i {:trigger Rejected(k).frames[i]} :: 0 <= i < |Rejected(k).frames| ==>
              Rejected(k).frames[i].header.serviceDotMethod == k.bad
  {
    RejectionsSent(k);
  }

  /** Call 1 is told of an error that is not its own, although its name resolves. */
  lemma ErrorIsMisdirected(env: Env, k: Case)
    requires FoundOf(env, k.bad) == S.FoundNoService && env.headerOf(k.v) == Some(Shaped(k)) && k.good != k.bad
    ensures !ErrorsAreOwn(env, Names(k))
  {
    ReachSecondTold(env, k);
    RejectionsAreOfBad(k);
    NoOwnFrame(env, Rejected(k), k.bad, Told(Sent1(k)), S.NO_SERVICE);
    var s := State(E6(k), Rejected(k), 2, 3);
    assert s.client.calls[1] == Told(Sent1(k));
  }

  lemma ResolvedErrorsAreOwn(env: Env, names: set<string>)
    requires forall name :: name in names ==> Resolves(env, name)
    ensures ErrorsAreOwn(env, names)
  {
    forall s, id, text | NamedReachable(env, names, s) && id in s.client.calls
                         && s.client.calls[id].error == Some(T.Remote(text))
      ensures IsOwn(env, s.server, s.client.calls[id], text)
    {
      var limit, events :|
        CanRun(env, Init(limit), events) && Run(env, Init(limit), events) == s && AllNamed(names, events);
      assert AllGood(env, events);
      assert Reachable(env, s);
      RemoteErrorIsOwn(env, s, id, text);
    }
  }

  /** Where bodies can be shaped like headers, remote errors are the callers' own in every run of
      calls of `name` and of a name that resolves, if and only if `name` resolves too. */
  lemma ErrorsAreOwnExactly(env: Env, name: string, other: string)
    requires Resolves(env, other)
    requires exists v :: env.headerOf(v) == Some(MessageHeader(name, 2, ""))
    ensures ErrorsAreOwn(env, {name, other}) <==> Resolves(env, name)
  {
    if Resolves(env, name) {
      ResolvedErrorsAreOwn(env, {name, other});
    } else {
      var v :| env.headerOf(v) == Some(MessageHeader(name, 2, ""));
      ErrorIsMisdirected(env, Case(name, v, other, ""));
    }
  }
}
