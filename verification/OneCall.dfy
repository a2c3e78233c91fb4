/**
  The part that the concrete runs of EndToEnd share: a call of A.B is sent, its method returns r, and
  the server answers.
 */
module OneCall {
  import opened Wrappers
  import opened Coder
  import opened Services
  import opened EndToEnd
  import opened Runs
  import C = CallProtocol
  import S = Connection
  import T = ClientTables

  const NAMES := {"A.B"}

  /** The method returns r on the input "1", and succeeds on any other. */
  function Answering(r: Result<Value, string>): Method {
    (input: Value) => if input == "1" then r else Success("ok")
  }

  function World(r: Result<Value, string>): Env {
    Env(map["A" := map["B" := Answering(r)]], _ => None, _ => "{}")
  }

  lemma MethodOf(r: Result<Value, string>, input: Value)
    ensures MethodOutcome(World(r), "A.B", input) == Some(if input == "1" then r else Success("ok"))
    ensures Resolves(World(r), "A.B") && FoundOf(World(r), "A.B") == S.FoundMethod
  {
    SplitIsUnique("A.B", "A", "B");
    assert "A.B"[..1] == "A" && "A.B"[2..] == "B";
  }

  // ----- the client sends -----

  const HEADER := MessageHeader("A.B", 1, "")

  function Fresh(hasOutput: bool): C.Call {
    C.Call("A.B", "1", hasOutput, 0, None, None, 0, C.Queued, 0, false)
  }

  function Registered(hasOutput: bool): C.Call {
    Fresh(hasOutput).(number := 1, caller := C.Sending)
  }

  function SentCall(hasOutput: bool): C.Call {
    Registered(hasOutput).(caller := C.Selecting)
  }

  const REGISTERED_FIRST := T.Tables(2, map[1 := 0], false, false)
  const ASKED_FIRST := map[1 := C.Ask(0, "A.B", "1")]
  const SENT_FIRST := [Attempt(Frame(HEADER, "1"), Sent)]

  const C0 := C.Init

  function C1(hasOutput: bool): C.State {
    C0.(calls := map[0 := Fresh(hasOutput)])
  }

  function C2(hasOutput: bool): C.State {
    C0.(calls := map[0 := Fresh(hasOutput).(caller := C.Sending)], holder := C.Sender(0))
  }

  function C3(hasOutput: bool): C.State {
    C.State(
      REGISTERED_FIRST, map[0 := Registered(hasOutput)], C.Sender(0), C.FillingHeader, None, C.NO_HEADER,
      C.AwaitHeader, C.NO_HEADER, None, false, {}, [], ASKED_FIRST)
  }

  function C4(hasOutput: bool): C.State {
    C3(hasOutput).(header := HEADER, stage := C.Encoding)
  }

  function C5(hasOutput: bool): C.State {
    C.State(
      REGISTERED_FIRST, map[0 := SentCall(hasOutput)], C.Free, C.Encoding, None, HEADER, C.AwaitHeader, C.NO_HEADER,
      None, false, {}, SENT_FIRST, ASKED_FIRST)
  }

  lemma StartStep(w: bool)
    ensures C.Enabled(C0, C.Start(0, "A.B", "1", w)) && C.Apply(C0, C.Start(0, "A.B", "1", w)) == C1(w)
    ensures C.Enabled(C1(w), C.Lock(0)) && C.Apply(C1(w), C.Lock(0)) == C2(w)
  {
  }

  lemma AddStep(w: bool)
    ensures C.Enabled(C2(w), C.Add) && C.Apply(C2(w), C.Add) == C3(w)
  {
  }

  lemma EncodeStep(w: bool)
    ensures C.Enabled(C3(w), C.Fill) && C.Apply(C3(w), C.Fill) == C4(w)
    ensures C.Enabled(C4(w), C.EncodeCall(Sent)) && C.Apply(C4(w), C.EncodeCall(Sent)) == C5(w)
  {
  }

  lemma ReachStarted(env: Env, w: bool)
    ensures JsonReachable(env, NAMES, State(C1(w), S.Init(0), 0, 0))
  {
    Start(env, NAMES, 0);
    StartStep(w);
    ClientStep(env, NAMES, Init(0), C.Start(0, "A.B", "1", w), C1(w));
  }

  lemma ReachLocked(env: Env, w: bool)
    ensures JsonReachable(env, NAMES, State(C2(w), S.Init(0), 0, 0))
  {
    ReachStarted(env, w);
    StartStep(w);
    ClientStep(env, NAMES, State(C1(w), S.Init(0), 0, 0), C.Lock(0), C2(w));
  }

  lemma ReachRegistered(env: Env, w: bool)
    ensures JsonReachable(env, NAMES, State(C3(w), S.Init(0), 0, 0))
  {
    ReachLocked(env, w);
    AddStep(w);
    ClientStep(env, NAMES, State(C2(w), S.Init(0), 0, 0), C.Add, C3(w));
  }

  lemma ReachFilled(env: Env, w: bool)
    ensures JsonReachable(env, NAMES, State(C4(w), S.Init(0), 0, 0))
  {
    ReachRegistered(env, w);
    EncodeStep(w);
    ClientStep(env, NAMES, State(C3(w), S.Init(0), 0, 0), C.Fill, C4(w));
  }

  lemma ReachSent(env: Env, w: bool)
    ensures JsonReachable(env, NAMES, State(C5(w), S.Init(0), 0, 0))
  {
    ReachFilled(env, w);
    EncodeStep(w);
    ClientStep(env, NAMES, State(C4(w), S.Init(0), 0, 0), C.EncodeCall(Sent), C5(w));
  }

  // ----- the server reads, runs the method and answers -----

  const JOB := S.Job(HEADER, HEADER, "1", None, S.Working, S.Selecting, 0)

  const S0 := S.Init(0)
  const S1 := S0.(reader := S.Searching, rejecting := HEADER, requestsRead := 1)
  const S2 := S1.(reader := S.ReadingBody)
  const S3 := S2.(reader := S.ReadingHeader, open := 1, jobs := [JOB])

  function Reply(r: Result<Value, string>): Frame {
    Frame(S.ResultHeader(HEADER, r), S.ResultBody(r))
  }

  function Done(r: Result<Value, string>): S.Job {
    JOB.(watcher := S.Watching, result := Some(r))
  }

  function S4(r: Result<Value, string>): S.State {
    S3.(jobs := [JOB.(worker := S.Offering, result := Some(r))])
  }

  function S5(r: Result<Value, string>): S.State {
    S3.(jobs := [Done(r).(worker := S.Met)])
  }

  function S6(r: Result<Value, string>): S.State {
    S3.(jobs := [Done(r).(worker := S.Replying, header := Reply(r).header)])
  }

  function S7(r: Result<Value, string>): S.State {
    S6(r).(lock := S.WorkerOf(0))
  }

  function S8(r: Result<Value, string>): S.State {
    S7(r).(headerWritten := true, wire := Stream([], [HeaderToken(Reply(r).header)], false))
  }

  function S9(r: Result<Value, string>): S.State {
    S6(r).(
      jobs := [Done(r).(worker := S.Reporting, header := Reply(r).header, attempts := 1)],
      wire := Stream([HeaderToken(Reply(r).header), BodyToken(Reply(r).body)], [], false),
      attempts := [Attempt(Reply(r), Sent)], frames := [Reply(r)], origins := [Some(0)])
  }

  lemma ReadingSteps()
    ensures S.Enabled(S0, S.Header(HEADER)) && S.Apply(S0, S.Header(HEADER)) == S1
    ensures S.Enabled(S1, S.SearchEnds(S.FoundMethod)) && S.Apply(S1, S.SearchEnds(S.FoundMethod)) == S2
    ensures S.Enabled(S2, S.Body("1")) && S.Apply(S2, S.Body("1")) == S3
  {
  }

  lemma HandlingSteps(r: Result<Value, string>)
    ensures S.Enabled(S3, S.MethodEnds(0, r)) && S.Apply(S3, S.MethodEnds(0, r)) == S4(r)
    ensures S.Enabled(S4(r), S.Rendezvous(0)) && S.Apply(S4(r), S.Rendezvous(0)) == S5(r)
    ensures S.Enabled(S5(r), S.SetHeader(0)) && S.Apply(S5(r), S.SetHeader(0)) == S6(r)
  {
  }

  lemma LockingSteps(r: Result<Value, string>)
    ensures
      var e := S.TakeSendMutex(S.WorkerOf(0));
      S.Enabled(S6(r), e) && S.Apply(S6(r), e) == S7(r)
    ensures S.Enabled(S7(r), S.HeaderWrite) && S.Apply(S7(r), S.HeaderWrite) == S8(r)
  {
  }

  lemma AnsweringStep(r: Result<Value, string>)
    ensures S.Enabled(S8(r), S.BodyWrite(Sent)) && S.Apply(S8(r), S.BodyWrite(Sent)) == S9(r)
  {
  }

  lemma RequestsSent()
    ensures EncodeAll(SENT_FIRST) == Stream([HeaderToken(HEADER), BodyToken("1")], [], false)
  {
    assert SENT_FIRST[..0] == [];
    assert [] + [HeaderToken(HEADER)] + [BodyToken("1")] == [HeaderToken(HEADER), BodyToken("1")];
  }

  lemma ReachSearching(env: Env, w: bool)
    ensures JsonReachable(env, NAMES, State(C5(w), S1, 1, 0))
  {
    ReachSent(env, w);
    ReadingSteps();
    RequestsSent();
    ServerStep(env, NAMES, State(C5(w), S0, 0, 0), S.Header(HEADER), S1);
  }

  lemma ReachRead(r: Result<Value, string>, w: bool)
    ensures JsonReachable(World(r), NAMES, State(C5(w), S3, 2, 0))
  {
    MethodOf(r, "1");
    ReachSearching(World(r), w);
    ReadingSteps();
    RequestsSent();
    ServerStep(World(r), NAMES, State(C5(w), S1, 1, 0), S.SearchEnds(S.FoundMethod), S2);
    ServerStep(World(r), NAMES, State(C5(w), S2, 1, 0), S.Body("1"), S3);
  }

  lemma ReachHandled(r: Result<Value, string>, w: bool)
    ensures JsonReachable(World(r), NAMES, State(C5(w), S4(r), 2, 0))
  {
    ReachRead(r, w);
    MethodOf(r, "1");
    HandlingSteps(r);
    ServerStep(World(r), NAMES, State(C5(w), S3, 2, 0), S.MethodEnds(0, r), S4(r));
  }

  lemma ReachReplying(r: Result<Value, string>, w: bool)
    ensures JsonReachable(World(r), NAMES, State(C5(w), S6(r), 2, 0))
  {
    ReachHandled(r, w);
    HandlingSteps(r);
    ServerStep(World(r), NAMES, State(C5(w), S4(r), 2, 0), S.Rendezvous(0), S5(r));
    ServerStep(World(r), NAMES, State(C5(w), S5(r), 2, 0), S.SetHeader(0), S6(r));
  }

  lemma ReachWriting(r: Result<Value, string>, w: bool)
    ensures JsonReachable(World(r), NAMES, State(C5(w), S8(r), 2, 0))
  {
    ReachReplying(r, w);
    LockingSteps(r);
    ServerStep(World(r), NAMES, State(C5(w), S6(r), 2, 0), S.TakeSendMutex(S.WorkerOf(0)), S7(r));
    ServerStep(World(r), NAMES, State(C5(w), S7(r), 2, 0), S.HeaderWrite, S8(r));
  }

  lemma ReachAnswered(r: Result<Value, string>, w: bool)
    ensures JsonReachable(World(r), NAMES, State(C5(w), S9(r), 2, 0))
  {
    ReachWriting(r, w);
    AnsweringStep(r);
    ServerStep(World(r), NAMES, State(C5(w), S8(r), 2, 0), S.BodyWrite(Sent), S9(r));
  }

  // ----- the client reads the response's header -----

  function C6(r: Result<Value, string>, hasOutput: bool): C.State {
    C.State(
      REGISTERED_FIRST, map[0 := SentCall(hasOutput)], C.Free, C.Encoding, None, HEADER, C.GotHeader, Reply(r).header,
      None, false, {}, SENT_FIRST, ASKED_FIRST)
  }

  lemma ReachReply(r: Result<Value, string>, w: bool)
    ensures JsonReachable(World(r), NAMES, State(C6(r, w), S9(r), 2, 1))
  {
    ReachAnswered(r, w);
    var e := C.DecodeHeader(Reply(r).header);
    assert C.Enabled(C5(w), e) && C.Apply(C5(w), e) == C6(r, w);
    ClientStep(World(r), NAMES, State(C5(w), S9(r), 2, 0), e, C6(r, w));
  }
}
