/**
  A concrete run of EndToEnd in which a method fails and its caller is told that it succeeded:
  the method's error has an empty text, so the response header looks like that of a success
  (server/server.go:232-235) and the client takes the success branch (client/client.go:349-364).
 */
module EmptyErrorText {
  import opened Wrappers
  import opened Coder
  import opened EndToEnd
  import opened Runs
  import opened OneCall
  import C = CallProtocol
  import S = Connection
  import T = ClientTables

  const EMPTY: Result<Value, string> := Failure("")
  const FILLED := SentCall(true).(output := Some(S.INVALID_REQUEST))
  const NONE_PENDING: T.Tables<C.CallId> := T.Tables(2, map[], false, false)

  const C7 := C6(EMPTY, true).(tables := NONE_PENDING, claim := Some(0), phase := C.FillingOutput)
  const C8 := C.State(
    NONE_PENDING, map[0 := FILLED], C.Free, C.Encoding, None, HEADER, C.Finishing, HEADER, Some(0), false,
    {}, SENT_FIRST, ASKED_FIRST)
  const C9 := C8.(calls := map[0 := FILLED.(channel := 1, finishes := 1)], claim := None, phase := C.AwaitHeader)
  const C10 := C.State(
    NONE_PENDING, map[0 := FILLED.(finishes := 1, caller := C.Returned(false))], C.Free, C.Encoding, None, HEADER,
    C.AwaitHeader, HEADER, None, false, {}, SENT_FIRST, ASKED_FIRST)

  lemma ClaimStep()
    ensures C.Enabled(C6(EMPTY, true), C.Claim) && C.Apply(C6(EMPTY, true), C.Claim) == C7
  {
  }

  lemma FillingStep()
    ensures C.Enabled(C7, C.DecodeOutput(Some(S.INVALID_REQUEST)))
    ensures C.Apply(C7, C.DecodeOutput(Some(S.INVALID_REQUEST))) == C8
  {
  }

  lemma FinishingStep()
    ensures C.Enabled(C8, C.FinishClaim) && C.Apply(C8, C.FinishClaim) == C9
  {
  }

  lemma ReturningStep()
    ensures C.Enabled(C9, C.ReceiveFinish(0)) && C.Apply(C9, C.ReceiveFinish(0)) == C10
  {
  }

  lemma ReachClaimed()
    ensures JsonReachable(World(EMPTY), NAMES, State(C7, S9(EMPTY), 2, 1))
  {
    ReachReply(EMPTY, true);
    ClaimStep();
    ClientStep(World(EMPTY), NAMES, State(C6(EMPTY, true), S9(EMPTY), 2, 1), C.Claim, C7);
  }

  lemma ReachFilled()
    ensures JsonReachable(World(EMPTY), NAMES, State(C8, S9(EMPTY), 2, 2))
  {
    ReachClaimed();
    FillingStep();
    ClientStep(World(EMPTY), NAMES, State(C7, S9(EMPTY), 2, 1), C.DecodeOutput(Some(S.INVALID_REQUEST)), C8);
  }

  lemma ReachReturned()
    ensures JsonReachable(World(EMPTY), NAMES, State(C10, S9(EMPTY), 2, 2))
  {
    ReachFilled();
    FinishingStep();
    ReturningStep();
    ClientStep(World(EMPTY), NAMES, State(C8, S9(EMPTY), 2, 2), C.FinishClaim, C9);
    ClientStep(World(EMPTY), NAMES, State(C9, S9(EMPTY), 2, 2), C.ReceiveFinish(0), C10);
  }

  /** Call 0 returns without an error and with an output, although its method failed. */
  lemma FailureReportedAsSuccess()
    ensures JsonReachable(World(EMPTY), NAMES, State(C10, S9(EMPTY), 2, 2))
    ensures Reachable(World(EMPTY), State(C10, S9(EMPTY), 2, 2))
    ensures
      var c := C10.calls[0];
      && c.caller == C.Returned(false) && c.error == None && c.output == Some(S.INVALID_REQUEST)
      && MethodOutcome(World(EMPTY), c.name, c.inputs) == Some(Failure(""))
  {
    ReachReturned();
    MethodOf(EMPTY, "1");
    IsReachable(World(EMPTY), NAMES, State(C10, S9(EMPTY), 2, 2));
  }
}
