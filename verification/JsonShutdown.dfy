/**
  Concrete runs of EndToEnd with JSON in which one reply ends the client, because the decoder is given
  nil (coder/json_coder.go:36-38): the reply carries an error (client/client.go:350-353), or its call
  has no output (client/client.go:357). The receiver stops, and call 1, whose method would succeed,
  is terminated (client/client.go:366-367).
 */
module JsonShutdown {
  import opened Wrappers
  import opened Coder
  import opened EndToEnd
  import opened Runs
  import opened OneCall
  import C = CallProtocol
  import S = Connection
  import T = ClientTables

  // ----- call 0 is claimed, and call 1 is sent meanwhile -----

  const SECOND := C.Call("A.B", "2", true, 0, None, None, 0, C.Queued, 0, false)
  const SECOND_HEADER := MessageHeader("A.B", 2, "")
  const SECOND_SENT := SECOND.(number := 2, caller := C.Selecting)

  const NONE_PENDING: T.Tables<C.CallId> := T.Tables(2, map[], false, false)
  const SECOND_PENDING: T.Tables<C.CallId> := T.Tables(3, map[2 := 1], false, false)
  const ALL_OVER: T.Tables<C.CallId> := T.Tables(3, map[2 := 1], false, true)
  const ASKED_BOTH := map[1 := C.Ask(0, "A.B", "1"), 2 := C.Ask(1, "A.B", "2")]
  const SENT_BOTH := [Attempt(Frame(HEADER, "1"), Sent), Attempt(Frame(SECOND_HEADER, "2"), Sent)]

  /** Call 0 is `first`, claimed by a reply, and the receiver is in this phase. */
  function D0(first: C.Call, phase: C.Phase, reply: MessageHeader): C.State {
    C.State(
      NONE_PENDING, map[0 := first], C.Free, C.Encoding, None, HEADER, phase, reply, Some(0), false, {},
      SENT_FIRST, ASKED_FIRST)
  }

  function D1(first: C.Call, phase: C.Phase, reply: MessageHeader): C.State {
    D0(first, phase, reply).(calls := map[0 := first, 1 := SECOND])
  }

  function D2(first: C.Call, phase: C.Phase, reply: MessageHeader): C.State {
    D0(first, phase, reply).(
      calls := map[0 := first, 1 := SECOND.(caller := C.Sending)], holder := C.Sender(1), stage := C.Adding)
  }

  function D3(first: C.Call, phase: C.Phase, reply: MessageHeader): C.State {
    C.State(
      SECOND_PENDING, map[0 := first, 1 := SECOND.(number := 2, caller := C.Sending)], C.Sender(1), C.FillingHeader,
      None, HEADER, phase, reply, Some(0), false, {}, SENT_FIRST, ASKED_BOTH)
  }

  function D4(first: C.Call, phase: C.Phase, reply: MessageHeader): C.State {
    D3(first, phase, reply).(header := SECOND_HEADER, stage := C.Encoding)
  }

  function D5(first: C.Call, phase: C.Phase, reply: MessageHeader): C.State {
    C.State(
      SECOND_PENDING, map[0 := first, 1 := SECOND_SENT], C.Free, C.Encoding, None, SECOND_HEADER, phase, reply,
      Some(0), false, {}, SENT_BOTH, ASKED_BOTH)
  }

  predicate Claimed(phase: C.Phase) {
    phase == C.Discarding || phase == C.FillingOutput
  }

  lemma StartSecond(f: C.Call, p: C.Phase, h: MessageHeader)
    requires Claimed(p)
    ensures C.Enabled(D0(f, p, h), C.Start(1, "A.B", "2", true))
    ensures C.Apply(D0(f, p, h), C.Start(1, "A.B", "2", true)) == D1(f, p, h)
  {
  }

  lemma LockSecond(f: C.Call, p: C.Phase, h: MessageHeader)
    requires Claimed(p)
    ensures C.Enabled(D1(f, p, h), C.Lock(1)) && C.Apply(D1(f, p, h), C.Lock(1)) == D2(f, p, h)
  {
  }

  lemma AddSecond(f: C.Call, p: C.Phase, h: MessageHeader)
    requires Claimed(p)
    ensures C.Enabled(D2(f, p, h), C.Add) && C.Apply(D2(f, p, h), C.Add) == D3(f, p, h)
  {
  }

  lemma FillSecond(f: C.Call, p: C.Phase, h: MessageHeader)
    requires Claimed(p)
    ensures C.Enabled(D3(f, p, h), C.Fill) && C.Apply(D3(f, p, h), C.Fill) == D4(f, p, h)
  {
  }

  lemma EncodeSecond(f: C.Call, p: C.Phase, h: MessageHeader)
    requires Claimed(p)
    ensures C.Enabled(D4(f, p, h), C.EncodeCall(Sent)) && C.Apply(D4(f, p, h), C.EncodeCall(Sent)) == D5(f, p, h)
  {
    RequestsSent();
  }

  lemma ReachStarted(env: Env, v: S.State, f: C.Call, p: C.Phase, h: MessageHeader)
    requires Claimed(p) && JsonReachable(env, NAMES, State(D0(f, p, h), v, 2, 1))
    ensures JsonReachable(env, NAMES, State(D2(f, p, h), v, 2, 1))
  {
    StartSecond(f, p, h);
    LockSecond(f, p, h);
    ClientStep(env, NAMES, State(D0(f, p, h), v, 2, 1), C.Start(1, "A.B", "2", true), D1(f, p, h));
    ClientStep(env, NAMES, State(D1(f, p, h), v, 2, 1), C.Lock(1), D2(f, p, h));
  }

  lemma ReachFilled(env: Env, v: S.State, f: C.Call, p: C.Phase, h: MessageHeader)
    requires Claimed(p) && JsonReachable(env, NAMES, State(D2(f, p, h), v, 2, 1))
    ensures JsonReachable(env, NAMES, State(D4(f, p, h), v, 2, 1))
  {
    AddSecond(f, p, h);
    FillSecond(f, p, h);
    ClientStep(env, NAMES, State(D2(f, p, h), v, 2, 1), C.Add, D3(f, p, h));
    ClientStep(env, NAMES, State(D3(f, p, h), v, 2, 1), C.Fill, D4(f, p, h));
  }

  lemma ReachSecondSent(env: Env, v: S.State, f: C.Call, p: C.Phase, h: MessageHeader)
    requires Claimed(p) && JsonReachable(env, NAMES, State(D0(f, p, h), v, 2, 1))
    ensures JsonReachable(env, NAMES, State(D5(f, p, h), v, 2, 1))
  {
    ReachStarted(env, v, f, p, h);
    ReachFilled(env, v, f, p, h);
    EncodeSecond(f, p, h);
    ClientStep(env, NAMES, State(D4(f, p, h), v, 2, 1), C.EncodeCall(Sent), D5(f, p, h));
  }

  // ----- the body has not been decoded, and the client shuts down -----

  const TERMINATED := SECOND_SENT.(error := Some(T.Terminated), channel := 1, finishes := 1)

  function Finished(first: C.Call): C.Call {
    first.(channel := 1, finishes := 1)
  }

  function D6(first: C.Call, reply: MessageHeader): C.State {
    D5(first, C.Finishing, reply).(stop := true)
  }

  function D7(first: C.Call, reply: MessageHeader): C.State {
    C.State(
      SECOND_PENDING, map[0 := Finished(first), 1 := SECOND_SENT], C.Free, C.Encoding, None, SECOND_HEADER,
      C.Stopping, reply, None, true, {}, SENT_BOTH, ASKED_BOTH)
  }

  function D8(first: C.Call, reply: MessageHeader): C.State {
    D7(first, reply).(holder := C.Terminator, phase := C.StopLocked)
  }

  function D9(first: C.Call, reply: MessageHeader): C.State {
    C.State(
      ALL_OVER, map[0 := Finished(first), 1 := SECOND_SENT], C.Terminator, C.Encoding, None, SECOND_HEADER,
      C.Draining, reply, None, true, {2}, SENT_BOTH, ASKED_BOTH)
  }

  function D10(first: C.Call, reply: MessageHeader): C.State {
    D9(first, reply).(calls := map[0 := Finished(first), 1 := TERMINATED], todo := {})
  }

  function D11(first: C.Call, reply: MessageHeader): C.State {
    C.State(
      ALL_OVER, map[0 := Finished(first), 1 := TERMINATED], C.Free, C.Encoding, None, SECOND_HEADER,
      C.Stopped, reply, None, true, {}, SENT_BOTH, ASKED_BOTH)
  }

  function D12(first: C.Call, reply: MessageHeader): C.State {
    D11(first, reply).(
      calls := map[0 := Finished(first), 1 := TERMINATED.(channel := 0, caller := C.Returned(false))])
  }

  lemma FinishStep(f: C.Call, h: MessageHeader)
    requires f.channel == 0 && f.finishes == 0
    ensures C.Enabled(D6(f, h), C.FinishClaim) && C.Apply(D6(f, h), C.FinishClaim) == D7(f, h)
  {
  }

  lemma StopStep(f: C.Call, h: MessageHeader)
    ensures C.Enabled(D7(f, h), C.StopTakesLock) && C.Apply(D7(f, h), C.StopTakesLock) == D8(f, h)
  {
  }

  lemma EntityStep(f: C.Call, h: MessageHeader)
    ensures C.Enabled(D8(f, h), C.StopTakesEntity) && C.Apply(D8(f, h), C.StopTakesEntity) == D9(f, h)
  {
  }

  lemma TerminateStep(f: C.Call, h: MessageHeader)
    ensures C.Enabled(D9(f, h), C.Terminate(2)) && C.Apply(D9(f, h), C.Terminate(2)) == D10(f, h)
  {
  }

  lemma ReleaseStep(f: C.Call, h: MessageHeader)
    ensures C.Enabled(D10(f, h), C.StopReleases) && C.Apply(D10(f, h), C.StopReleases) == D11(f, h)
  {
  }

  lemma ReturnStep(f: C.Call, h: MessageHeader)
    ensures C.Enabled(D11(f, h), C.ReceiveFinish(1)) && C.Apply(D11(f, h), C.ReceiveFinish(1)) == D12(f, h)
  {
  }

  lemma ReachStopping(env: Env, v: S.State, to: nat, f: C.Call, h: MessageHeader)
    requires JsonReachable(env, NAMES, State(D6(f, h), v, 2, to)) && f.channel == 0 && f.finishes == 0
    ensures JsonReachable(env, NAMES, State(D8(f, h), v, 2, to))
  {
    FinishStep(f, h);
    StopStep(f, h);
    ClientStep(env, NAMES, State(D6(f, h), v, 2, to), C.FinishClaim, D7(f, h));
    ClientStep(env, NAMES, State(D7(f, h), v, 2, to), C.StopTakesLock, D8(f, h));
  }

  lemma ReachTerminated(env: Env, v: S.State, to: nat, f: C.Call, h: MessageHeader)
    requires JsonReachable(env, NAMES, State(D8(f, h), v, 2, to))
    ensures JsonReachable(env, NAMES, State(D10(f, h), v, 2, to))
  {
    EntityStep(f, h);
    TerminateStep(f, h);
    ClientStep(env, NAMES, State(D8(f, h), v, 2, to), C.StopTakesEntity, D9(f, h));
    ClientStep(env, NAMES, State(D9(f, h), v, 2, to), C.Terminate(2), D10(f, h));
  }

  lemma ReachReturned(env: Env, v: S.State, to: nat, f: C.Call, h: MessageHeader)
    requires JsonReachable(env, NAMES, State(D6(f, h), v, 2, to)) && f.channel == 0 && f.finishes == 0
    ensures JsonReachable(env, NAMES, State(D12(f, h), v, 2, to))
  {
    ReachStopping(env, v, to, f, h);
    ReachTerminated(env, v, to, f, h);
    ReleaseStep(f, h);
    ReturnStep(f, h);
    ClientStep(env, NAMES, State(D10(f, h), v, 2, to), C.StopReleases, D11(f, h));
    ClientStep(env, NAMES, State(D11(f, h), v, 2, to), C.ReceiveFinish(1), D12(f, h));
  }

  /** Call 1 returned with the termination error, although its request was sent, nothing was wrong
      with it, and its method succeeds on its inputs; and the client is gone. */
  predicate SecondTerminated(env: Env, c: C.State) {
    && 1 in c.calls && c.calls[1].caller == C.Returned(false) && c.calls[1].error == Some(T.Terminated)
    && MethodOutcome(env, c.calls[1].name, c.calls[1].inputs) == Some(Success("ok"))
    && !T.IsAvailable(c.tables)
  }

  // ----- a reply with an error -----

  const NO: Result<Value, string> := Failure("no")
  const REFUSED := SentCall(true).(error := Some(T.Remote("no")))

  lemma ClaimError()
    ensures C.Enabled(C6(NO, true), C.Claim)
    ensures C.Apply(C6(NO, true), C.Claim) == D0(REFUSED, C.Discarding, Reply(NO).header)
  {
  }

  lemma DiscardFails(f: C.Call, h: MessageHeader)
    ensures C.Enabled(D5(f, C.Discarding, h), C.DiscardBody(false))
    ensures C.Apply(D5(f, C.Discarding, h), C.DiscardBody(false)) == D6(f, h)
  {
  }

  lemma ReachErrorEnd()
    ensures JsonReachable(World(NO), NAMES, State(D12(REFUSED, Reply(NO).header), S9(NO), 2, 1))
  {
    var h := Reply(NO).header;
    ReachReply(NO, true);
    ClaimError();
    ClientStep(World(NO), NAMES, State(C6(NO, true), S9(NO), 2, 1), C.Claim, D0(REFUSED, C.Discarding, h));
    ReachSecondSent(World(NO), S9(NO), REFUSED, C.Discarding, h);
    DiscardFails(REFUSED, h);
    ClientStep(
      World(NO), NAMES, State(D5(REFUSED, C.Discarding, h), S9(NO), 2, 1), C.DiscardBody(false), D6(REFUSED, h));
    ReachReturned(World(NO), S9(NO), 1, REFUSED, h);
  }

  /** One method's error ends the client. */
  lemma OneErrorEndsTheClient()
    ensures
      var s := State(D12(REFUSED, Reply(NO).header), S9(NO), 2, 1);
      && JsonReachable(World(NO), NAMES, s) && Reachable(World(NO), s)
      && s.client.calls[0].error == Some(T.Remote("no"))
      && SecondTerminated(World(NO), s.client)
  {
    ReachErrorEnd();
    MethodOf(NO, "2");
    IsReachable(World(NO), NAMES, State(D12(REFUSED, Reply(NO).header), S9(NO), 2, 1));
  }

  // ----- a success for a call without an output -----

  const YES: Result<Value, string> := Success("yes")

  lemma ClaimSuccess()
    ensures C.Enabled(C6(YES, false), C.Claim)
    ensures C.Apply(C6(YES, false), C.Claim) == D0(SentCall(false), C.FillingOutput, HEADER)
  {
  }

  const UNFILLED := SentCall(false).(error := Some(T.BadBody))

  lemma DecodeFails()
    ensures C.Enabled(D5(SentCall(false), C.FillingOutput, HEADER), C.DecodeOutput(None))
    ensures C.Apply(D5(SentCall(false), C.FillingOutput, HEADER), C.DecodeOutput(None)) == D6(UNFILLED, HEADER)
  {
  }

  lemma ReachNilEnd()
    ensures JsonReachable(World(YES), NAMES, State(D12(UNFILLED, HEADER), S9(YES), 2, 1))
  {
    var f := SentCall(false);
    ReachReply(YES, false);
    ClaimSuccess();
    ClientStep(World(YES), NAMES, State(C6(YES, false), S9(YES), 2, 1), C.Claim, D0(f, C.FillingOutput, HEADER));
    ReachSecondSent(World(YES), S9(YES), f, C.FillingOutput, HEADER);
    DecodeFails();
    ClientStep(
      World(YES), NAMES, State(D5(f, C.FillingOutput, HEADER), S9(YES), 2, 1), C.DecodeOutput(None),
      D6(UNFILLED, HEADER));
    ReachReturned(World(YES), S9(YES), 1, UNFILLED, HEADER);
  }

  /** One call with a nil output ends the client, although its method succeeded, and is told that
      its reply could not be decoded. */
  lemma OneNilOutputEndsTheClient()
    ensures
      var s := State(D12(UNFILLED, HEADER), S9(YES), 2, 1);
      && JsonReachable(World(YES), NAMES, s) && Reachable(World(YES), s)
      && !s.client.calls[0].hasOutput && s.client.calls[0].error == Some(T.BadBody)
      && MethodOutcome(World(YES), s.client.calls[0].name, s.client.calls[0].inputs) == Some(Success("yes"))
      && SecondTerminated(World(YES), s.client)
  {
    ReachNilEnd();
    MethodOf(YES, "1");
    MethodOf(YES, "2");
    IsReachable(World(YES), NAMES, State(D12(UNFILLED, HEADER), S9(YES), 2, 1));
  }
}
