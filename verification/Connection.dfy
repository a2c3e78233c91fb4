/**
  server/server.go, serveCoder and below, as a protocol on one connection: the request loop, and
  for every dispatched request a worker goroutine that runs the method and a watcher goroutine
  that waits for it or for the timer.

  A step is one decode, one channel operation, one acquisition of sendMutex, one write to the
  coder, or the worker's assignment to its header; the watcher's assignment goes with the timer
  that it follows. Any goroutine may take the next step. When a method returns and with what, when
  a timer fires, and which writes and flushes fail are all free.
 */
module Connection {
  import opened Wrappers
  import opened Coder

  datatype Worker =
    | Working
    | Offering   // blocked on the unbuffered serviceCallTimeoutChannel
    | Met        // the watcher received; header not yet updated
    | Replying   // in send_response
    | Reporting  // blocked on responseSendTimeoutChannel
    | Gone

  datatype Watcher =
    | Selecting
    | Watching   // received from the worker, waits for its report
    | TimedOut   // the timer fired; in send_response
    | Leaving    // past the select; waitGroup.Done is still to run
    | Left

  /** One dispatched request. `request` is the header as decoded, `header` the shared one that
      worker and watcher may change; `attempts` counts completed send_response calls. */
  datatype Job = Job(
    request: MessageHeader, header: MessageHeader, input: Value,
    result: Option<Result<Value, string>>, worker: Worker, watcher: Watcher, attempts: nat)

  datatype Reader =
    | ReadingHeader | Searching | ReadingBody
    | Rejecting      // in send_response for an invalid request
    | Waiting        // left the loop, in waitGroup.Wait
    | Closed
    | Crashed        // used the nil method; over HTTP net/http recovers and the workers go on

  datatype Who = Nobody | TheReader | WorkerOf(job: nat) | WatcherOf(job: nat)

  datatype State = State(
    limit: nat,                   // ProcessingTimeout
    reader: Reader,
    rejecting: MessageHeader,     // the header the reader works on
    lost: bool,                   // the decoder has met an input error, so it fails from now on
    jobs: seq<Job>,
    open: int,                    // waitGroup's counter
    lock: Who,                    // holder of sendMutex
    headerWritten: bool,          // the holder is between the two writes of one response
    wire: Stream,
    attempts: seq<Attempt>,       // history: the responses handed to the coder, and how each encode ended
    frames: seq<Frame>,           // history: those that were begun on the wire
    origins: seq<Option<nat>>,    // history: the job of each of these, None for a rejection
    requestsRead: nat,            // history
    rejected: nat)                // history: completed rejections

  const INVALID_REQUEST: Value := "{}"
  const NO_SERVICE := "serviceName does not exist"
  const BAD_BODY := "invalid request"
  const TIMEOUT := "processing time limit exceeded"
  const NO_REQUEST := MessageHeader("", 0, "")

  function Init(limit: nat): State {
    State(limit, ReadingHeader, NO_REQUEST, false, [], 0, Nobody, false, EmptyStream, [], [], [], 0, 0)
  }

  datatype Found = FoundMethod | FoundNoService | FoundNilMethod

  function ResultBody(r: Result<Value, string>): Value {
    match r
    case Success(output) => output
    case Failure(_) => INVALID_REQUEST
  }

  /** The worker writes the header only when the method returned an error. */
  function ResultHeader(request: MessageHeader, r: Result<Value, string>): MessageHeader {
    match r
    case Success(_) => request
    case Failure(text) => request.(error := text)
  }

  predicate LostTheRace(b: Job) {
    b.worker == Working || b.worker == Offering
  }

  /** What send_response is given for this job, by whichever goroutine calls it. */
  function Response(b: Job): Frame {
    Frame(b.header, if LostTheRace(b) || b.result.None? then INVALID_REQUEST else ResultBody(b.result.value))
  }

  predicate IsJob(s: State, j: nat) {
    j < |s.jobs|
  }

  predicate Wants(s: State, who: Who) {
    match who
    case Nobody => false
    case TheReader => s.reader == Rejecting
    case WorkerOf(j) => IsJob(s, j) && s.jobs[j].worker == Replying
    case WatcherOf(j) => IsJob(s, j) && s.jobs[j].watcher == TimedOut
  }

  /** The frame that the holder of sendMutex is writing. */
  function Message(s: State): Frame
    requires Wants(s, s.lock)
  {
    match s.lock
    case TheReader => Frame(s.rejecting, INVALID_REQUEST)
    case WorkerOf(j) => Response(s.jobs[j])
    case WatcherOf(j) => Response(s.jobs[j])
  }

  function Origin(who: Who): Option<nat> {
    match who
    case WorkerOf(j) => Some(j)
    case WatcherOf(j) => Some(j)
    case _ => None
  }

  // ----- the reader, in serveCoder and read_request -----

  function DecodeHeader(s: State, h: MessageHeader): State {
    s.(reader := Searching, rejecting := h, requestsRead := s.requestsRead + 1)
  }

  function StopReading(s: State): State {
    s.(reader := Waiting)
  }

  function Reject(s: State, text: string): State {
    s.(reader := Rejecting, rejecting := s.rejecting.(error := text))
  }

  function Search(s: State, found: Found): State {
    match found
    case FoundMethod => s.(reader := ReadingBody)
    case FoundNoService => Reject(s, NO_SERVICE)
    case FoundNilMethod => s.(reader := Crashed)
  }

  function Dispatch(s: State, input: Value): State {
    s.(reader := ReadingHeader, open := s.open + 1,
       jobs := s.jobs + [Job(s.rejecting, s.rejecting, input, None, Working, Selecting, 0)])
  }

  function BodyFails(s: State, lost: bool): State {
    Reject(s, BAD_BODY).(lost := s.lost || lost)
  }

  function CloseMessage(s: State): State {
    s.(reader := Closed)
  }

  // ----- one goroutine of one job, in request_handle -----

  function SetJob(s: State, j: nat, b: Job): State
    requires IsJob(s, j)
  {
    s.(jobs := s.jobs[j := b])
  }

  function MethodReturns(b: Job, r: Result<Value, string>): Job {
    b.(worker := Offering, result := Some(r))
  }

  function Meet(b: Job): Job {
    b.(worker := Met, watcher := Watching)
  }

  function NoteResult(b: Job): Job
    requires b.result.Some?
  {
    b.(worker := Replying, header := ResultHeader(b.header, b.result.value))
  }

  function FireTimer(b: Job): Job {
    b.(watcher := TimedOut, header := b.header.(error := TIMEOUT))
  }

  function Report(b: Job): Job {
    b.(worker := Gone, watcher := Leaving)
  }

  function Leave(s: State, j: nat): State
    requires IsJob(s, j)
  {
    s.(jobs := s.jobs[j := s.jobs[j].(watcher := Left)], open := s.open - 1)
  }

  // ----- send_response -----

  function Acquire(s: State, who: Who): State {
    s.(lock := who, headerWritten := false)
  }

  function Returned(s: State, lock: Who): seq<Job>
    requires Wants(s, lock)
  {
    match lock
    case WorkerOf(j) => s.jobs[j := s.jobs[j].(worker := Reporting, attempts := s.jobs[j].attempts + 1)]
    case WatcherOf(j) => s.jobs[j := s.jobs[j].(watcher := Leaving, attempts := s.jobs[j].attempts + 1)]
    case TheReader => s.jobs
  }

  /** send_response returns, whether its encode succeeded or not. */
  function ReleaseSend(s: State, outcome: Outcome): State
    requires Wants(s, s.lock)
  {
    s.(jobs := Returned(s, s.lock), lock := Nobody, headerWritten := false,
       attempts := s.attempts + [Attempt(Message(s), outcome)],
       reader := if s.lock.TheReader? then ReadingHeader else s.reader,
       rejected := if s.lock.TheReader? then s.rejected + 1 else s.rejected)
  }

  function WriteHeader(s: State): State
    requires Wants(s, s.lock)
  {
    s.(headerWritten := true, wire := BufferHeader(s.wire, Message(s).header))
  }

  function FailHeader(s: State, written: nat): State
    requires Wants(s, s.lock)
  {
    ReleaseSend(s, HeaderFailed(written)).(wire := EndHeader(s.wire, written))
  }

  function WriteBody(s: State, outcome: Outcome): State
    requires Wants(s, s.lock)
  {
    var begun := Begins(outcome);
    ReleaseSend(s, outcome).(wire := EndBody(s.wire, Message(s).body, outcome),
                             frames := s.frames + if begun then [Message(s)] else [],
                             origins := s.origins + if begun then [Origin(s.lock)] else [])
  }

  // ----- events and runs -----

  datatype Event =
    | Header(header: MessageHeader)
    | HeaderEnds
    | SearchEnds(found: Found)
    | Body(input: Value)
    | BodyError(lost: bool)
    | TakeSendMutex(who: Who)
    | HeaderWrite
    | HeaderFails(written: nat)
    | BodyWrite(outcome: Outcome)
    | MethodEnds(job: nat, result: Result<Value, string>)
    | Rendezvous(job: nat)
    | SetHeader(job: nat)
    | Timer(job: nat)
    | ReportSent(job: nat)
    | Done(job: nat)
    | Close

  predicate Enabled(s: State, e: Event) {
    match e
    case Header(_) => s.reader == ReadingHeader && !s.lost
    case HeaderEnds => s.reader == ReadingHeader
    case SearchEnds(_) => s.reader == Searching
    case Body(_) => s.reader == ReadingBody
    case BodyError(_) => s.reader == ReadingBody
    case TakeSendMutex(who) => s.lock == Nobody && Wants(s, who)
    case HeaderWrite => Wants(s, s.lock) && !s.headerWritten && !s.wire.broken
    case HeaderFails(_) => Wants(s, s.lock) && !s.headerWritten
    case BodyWrite(outcome) => Wants(s, s.lock) && s.headerWritten && !outcome.HeaderFailed?
    case MethodEnds(j, _) => IsJob(s, j) && s.jobs[j].worker == Working
    case Rendezvous(j) => IsJob(s, j) && s.jobs[j].worker == Offering && s.jobs[j].watcher == Selecting
    case SetHeader(j) => IsJob(s, j) && s.jobs[j].worker == Met && s.jobs[j].result.Some?
    case Timer(j) => IsJob(s, j) && s.limit > 0 && s.jobs[j].watcher == Selecting
    case ReportSent(j) => IsJob(s, j) && s.jobs[j].worker == Reporting && s.jobs[j].watcher == Watching
    case Done(j) => IsJob(s, j) && s.limit > 0 && s.jobs[j].watcher == Leaving
    case Close => s.reader == Waiting && s.open == 0
  }

  function Apply(s: State, e: Event): State
    requires Enabled(s, e)
  {
    match e
    case Header(h) => DecodeHeader(s, h)
    case HeaderEnds => StopReading(s)
    case SearchEnds(found) => Search(s, found)
    case Body(input) => Dispatch(s, input)
    case BodyError(lost) => BodyFails(s, lost)
    case TakeSendMutex(who) => Acquire(s, who)
    case HeaderWrite => WriteHeader(s)
    case HeaderFails(written) => FailHeader(s, written)
    case BodyWrite(outcome) => WriteBody(s, outcome)
    case MethodEnds(j, r) => SetJob(s, j, MethodReturns(s.jobs[j], r))
    case Rendezvous(j) => SetJob(s, j, Meet(s.jobs[j]))
    case SetHeader(j) => SetJob(s, j, NoteResult(s.jobs[j]))
    case Timer(j) => SetJob(s, j, FireTimer(s.jobs[j]))
    case ReportSent(j) => SetJob(s, j, Report(s.jobs[j]))
    case Done(j) => Leave(s, j)
    case Close => CloseMessage(s)
  }

  predicate CanRun(s: State, events: seq<Event>)
    decreases |events|
  {
    events == [] || (Enabled(s, events[0]) && CanRun(Apply(s, events[0]), events[1..]))
  }

  function Run(s: State, events: seq<Event>): State
    requires CanRun(s, events)
    decreases |events|
  {
    if events == [] then s else Run(Apply(s, events[0]), events[1..])
  }

  lemma RunCons(s: State, e: Event, rest: seq<Event>)
    requires Enabled(s, e) && CanRun(Apply(s, e), rest)
    ensures CanRun(s, [e] + rest) && Run(s, [e] + rest) == Run(Apply(s, e), rest)
  {
    assert ([e] + rest)[1..] == rest;
  }

  // ----- sums over the jobs -----

  function Sum(jobs: seq<Job>, weight: Job -> nat): nat {
    if jobs == [] then 0 else Sum(jobs[..|jobs| - 1], weight) + weight(jobs[|jobs| - 1])
  }

  lemma {:induction false} SumUpdate(jobs: seq<Job>, weight: Job -> nat, j: nat, b: Job)
    requires j < |jobs|
    ensures Sum(jobs[j := b], weight) + weight(jobs[j]) == Sum(jobs, weight) + weight(b)
  {
    var init := jobs[..|jobs| - 1];
    if j == |init| {
      assert jobs[j := b][..|init|] == init;
    } else {
      assert jobs[j := b][..|init|] == init[j := b];
      SumUpdate(init, weight, j, b);
    }
  }

  lemma {:induction false} SumIsZero(jobs: seq<Job>, weight: Job -> nat)
    ensures Sum(jobs, weight) == 0 <==> forall j :: 0 <= j < |jobs| ==> weight(jobs[j]) == 0
  {
    if jobs != [] {
      var init := jobs[..|jobs| - 1];
      SumIsZero(init, weight);
      assert forall j :: 0 <= j < |init| ==> init[j] == jobs[j];
    }
  }

  /** 1 while the job still counts in waitGroup. */
  const OpenWeight: Job -> nat := (b: Job) => if b.watcher == Left then 0 else 1

  // ----- the invariant -----

  /** The header belongs to the winner of the race between worker and watcher. */
  predicate HeaderOk(b: Job) {
    if b.watcher == Selecting || b.worker == Met then b.header == b.request
    else if LostTheRace(b) then b.header == b.request.(error := TIMEOUT)
    else b.result.Some? && b.header == ResultHeader(b.request, b.result.value)
  }

  predicate JobOk(b: Job) {
    && HeaderOk(b)
    && (b.worker == Working || b.result.Some?)
    && match b.watcher
       case Selecting => LostTheRace(b) && b.attempts == 0
       case Watching =>
         && (b.worker == Met || b.worker == Replying || b.worker == Reporting)
         && b.attempts == Bit(b.worker == Reporting)
       case TimedOut => LostTheRace(b) && b.attempts == 0
       case _ => (LostTheRace(b) || b.worker == Gone) && b.attempts == 1
  }

  ghost predicate JobsInv(s: State) {
    forall j {:trigger s.jobs[j]} :: 0 <= j < |s.jobs| ==> JobOk(s.jobs[j])
  }

  ghost predicate CountInv(s: State) {
    && s.open == Sum(s.jobs, OpenWeight)
    && (s.limit == 0 ==> s.open == |s.jobs|)
    && (s.reader == Closed ==> s.open == 0)
    && s.requestsRead == |s.jobs| + s.rejected
         + Bit(s.reader == Searching || s.reader == ReadingBody || s.reader == Rejecting || s.reader == Crashed)
  }

  ghost predicate LockInv(s: State) {
    && (s.lock != Nobody ==> Wants(s, s.lock))
    && (s.headerWritten ==> s.lock != Nobody && !s.wire.broken)
  }

  /** Each complete response is its job's one response. */
  ghost predicate FramesInv(s: State) {
    && |s.frames| == |s.origins|
    && (forall i :: 0 <= i < |s.frames| && s.origins[i].Some? ==>
          && IsJob(s, s.origins[i].value)
          && s.jobs[s.origins[i].value].attempts == 1
          && s.frames[i] == Response(s.jobs[s.origins[i].value]))
    && (forall i, k :: 0 <= i < k < |s.frames| && s.origins[i].Some? ==> s.origins[i] != s.origins[k])
  }

  /** The wire is what whole encodes, one after the other, would have left, plus the header of
      the one in progress. */
  ghost predicate WireInv(s: State) {
    && Possible(s.attempts)
    && s.frames == Begun(s.attempts)
    && (s.headerWritten && Wants(s, s.lock) ==> s.wire == BufferHeader(EncodeAll(s.attempts), Message(s).header))
    && (!s.headerWritten ==> s.wire == EncodeAll(s.attempts))
  }

  ghost predicate Inv(s: State) {
    JobsInv(s) && CountInv(s) && LockInv(s) && FramesInv(s) && WireInv(s)
  }

  // ----- each step keeps the invariant -----

  /** Replacing job j by b disturbs neither a finished response nor one in progress. */
  ghost predicate SafeUpdate(s: State, j: nat, b: Job)
    requires IsJob(s, j)
  {
    && JobOk(b)
    && b.attempts == s.jobs[j].attempts
    && (b.attempts == 1 ==> Response(b) == Response(s.jobs[j]))
    && (s.lock == WorkerOf(j) ==> b.worker == Replying && Response(b) == Response(s.jobs[j]))
    && (s.lock == WatcherOf(j) ==> b.watcher == TimedOut && Response(b) == Response(s.jobs[j]))
  }

  lemma UpdateKeepsInv(s: State, j: nat, b: Job)
    requires Inv(s) && IsJob(s, j) && SafeUpdate(s, j, b)
    requires OpenWeight(b) == OpenWeight(s.jobs[j])
    ensures Inv(SetJob(s, j, b))
  {
    SumUpdate(s.jobs, OpenWeight, j, b);
  }

  lemma LeaveKeepsInv(s: State, j: nat)
    requires Inv(s) && Enabled(s, Done(j))
    ensures Inv(Leave(s, j))
  {
    var b := s.jobs[j].(watcher := Left);
    SumUpdate(s.jobs, OpenWeight, j, b);
    assert SafeUpdate(s, j, b);
    SumIsZero(s.jobs, OpenWeight);
  }

  lemma JobStepIsSafe(s: State, e: Event)
    requires JobsInv(s) && LockInv(s) && Enabled(s, e)
    ensures e.MethodEnds? ==> SafeUpdate(s, e.job, MethodReturns(s.jobs[e.job], e.result))
    ensures e.Rendezvous? ==> SafeUpdate(s, e.job, Meet(s.jobs[e.job]))
    ensures e.SetHeader? ==> SafeUpdate(s, e.job, NoteResult(s.jobs[e.job]))
    ensures e.Timer? ==> SafeUpdate(s, e.job, FireTimer(s.jobs[e.job]))
    ensures e.ReportSent? ==> SafeUpdate(s, e.job, Report(s.jobs[e.job]))
  {
  }

  lemma DispatchKeepsInv(s: State, input: Value)
    requires Inv(s) && s.reader == ReadingBody
    ensures Inv(Dispatch(s, input))
  {
    var n := Dispatch(s, input);
    assert n.jobs[..|s.jobs|] == s.jobs;
    forall j | 0 <= j < |n.jobs| ensures JobOk(n.jobs[j]) {
      if j < |s.jobs| {
        assert n.jobs[j] == s.jobs[j];
      }
    }
  }

  lemma ReaderMoveKeepsInv(s: State, n: State)
    requires Inv(s) && CountInv(n) && s.lock != TheReader
    requires n == s.(reader := n.reader, rejecting := n.rejecting, lost := n.lost, requestsRead := n.requestsRead)
    ensures Inv(n)
  {
    assert s.headerWritten ==> Message(n) == Message(s);
  }

  lemma DecodeHeaderKeepsInv(s: State, h: MessageHeader)
    requires Inv(s) && s.reader == ReadingHeader
    ensures Inv(DecodeHeader(s, h))
  {
    ReaderMoveKeepsInv(s, DecodeHeader(s, h));
  }

  lemma StopReadingKeepsInv(s: State)
    requires Inv(s) && s.reader == ReadingHeader
    ensures Inv(StopReading(s))
  {
    ReaderMoveKeepsInv(s, StopReading(s));
  }

  lemma SearchKeepsInv(s: State, found: Found)
    requires Inv(s) && s.reader == Searching
    ensures Inv(Search(s, found))
  {
    ReaderMoveKeepsInv(s, Search(s, found));
  }

  lemma BodyFailsKeepsInv(s: State, lost: bool)
    requires Inv(s) && s.reader == ReadingBody
    ensures Inv(BodyFails(s, lost))
  {
    ReaderMoveKeepsInv(s, BodyFails(s, lost));
  }

  lemma CloseKeepsInv(s: State)
    requires Inv(s) && s.reader == Waiting && s.open == 0
    ensures Inv(CloseMessage(s))
  {
    ReaderMoveKeepsInv(s, CloseMessage(s));
  }

  lemma AcquireKeepsInv(s: State, who: Who)
    requires Inv(s) && s.lock == Nobody && Wants(s, who)
    ensures Inv(Acquire(s, who))
  {
  }

  lemma WriteHeaderKeepsInv(s: State)
    requires Inv(s) && Wants(s, s.lock) && !s.headerWritten && !s.wire.broken
    ensures Inv(WriteHeader(s))
  {
  }

  lemma ReleaseKeepsLock(s: State, outcome: Outcome)
    requires JobsInv(s) && LockInv(s) && Wants(s, s.lock)
    ensures JobsInv(ReleaseSend(s, outcome)) && LockInv(ReleaseSend(s, outcome))
  {
  }

  lemma ReleaseKeepsCount(s: State, outcome: Outcome)
    requires JobsInv(s) && CountInv(s) && Wants(s, s.lock)
    ensures CountInv(ReleaseSend(s, outcome))
  {
    if s.lock.WorkerOf? || s.lock.WatcherOf? {
      var j := s.lock.job;
      assert JobOk(s.jobs[j]);
      SumUpdate(s.jobs, OpenWeight, j, Returned(s, s.lock)[j]);
      assert Returned(s, s.lock) == s.jobs[j := Returned(s, s.lock)[j]];
    }
  }

  lemma ReleaseKeepsFrames(s: State, outcome: Outcome)
    requires JobsInv(s) && FramesInv(s) && Wants(s, s.lock)
    ensures FramesInv(ReleaseSend(s, outcome))
    ensures forall i :: 0 <= i < |s.frames| && s.origins[i].Some? ==> s.origins[i] != Origin(s.lock)
    ensures s.lock.WorkerOf? || s.lock.WatcherOf? ==>
              && ReleaseSend(s, outcome).jobs[s.lock.job].attempts == 1
              && Response(ReleaseSend(s, outcome).jobs[s.lock.job]) == Message(s)
  {
  }

  lemma FailHeaderKeepsInv(s: State, written: nat)
    requires Inv(s) && Wants(s, s.lock) && !s.headerWritten
    ensures Inv(FailHeader(s, written))
  {
    ReleaseKeepsLock(s, HeaderFailed(written));
    ReleaseKeepsCount(s, HeaderFailed(written));
    ReleaseKeepsFrames(s, HeaderFailed(written));
    AttemptAppended(s.attempts, Attempt(Message(s), HeaderFailed(written)));
  }

  lemma WriteBodyKeepsWire(s: State, outcome: Outcome)
    requires LockInv(s) && WireInv(s) && Wants(s, s.lock) && s.headerWritten && !outcome.HeaderFailed?
    ensures WireInv(WriteBody(s, outcome))
  {
    AttemptAppended(s.attempts, Attempt(Message(s), outcome));
  }

  lemma WriteBodyKeepsFrames(s: State, outcome: Outcome)
    requires JobsInv(s) && FramesInv(s) && Wants(s, s.lock)
    ensures FramesInv(WriteBody(s, outcome))
  {
    ReleaseKeepsFrames(s, outcome);
  }

  lemma WriteBodyKeepsInv(s: State, outcome: Outcome)
    requires Inv(s) && Wants(s, s.lock) && s.headerWritten && !outcome.HeaderFailed?
    ensures Inv(WriteBody(s, outcome))
  {
    ReleaseKeepsLock(s, outcome);
    ReleaseKeepsCount(s, outcome);
    WriteBodyKeepsFrames(s, outcome);
    WriteBodyKeepsWire(s, outcome);
  }

  lemma StepKeepsInv(s: State, e: Event)
    requires Inv(s) && Enabled(s, e)
    ensures Inv(Apply(s, e))
  {
    match e
    case Body(input) => DispatchKeepsInv(s, input);
    case TakeSendMutex(who) => AcquireKeepsInv(s, who);
    case HeaderWrite => WriteHeaderKeepsInv(s);
    case HeaderFails(written) => FailHeaderKeepsInv(s, written);
    case BodyWrite(outcome) => WriteBodyKeepsInv(s, outcome);
    case MethodEnds(j, r) => JobStepIsSafe(s, e); UpdateKeepsInv(s, j, MethodReturns(s.jobs[j], r));
    case Rendezvous(j) => JobStepIsSafe(s, e); UpdateKeepsInv(s, j, Meet(s.jobs[j]));
    case SetHeader(j) => JobStepIsSafe(s, e); UpdateKeepsInv(s, j, NoteResult(s.jobs[j]));
    case Timer(j) => JobStepIsSafe(s, e); UpdateKeepsInv(s, j, FireTimer(s.jobs[j]));
    case ReportSent(j) => JobStepIsSafe(s, e); UpdateKeepsInv(s, j, Report(s.jobs[j]));
    case Done(j) => LeaveKeepsInv(s, j);
    case Header(h) => DecodeHeaderKeepsInv(s, h);
    case HeaderEnds => StopReadingKeepsInv(s);
    case SearchEnds(found) => SearchKeepsInv(s, found);
    case BodyError(lost) => BodyFailsKeepsInv(s, lost);
    case Close => CloseKeepsInv(s);
  }

  lemma InitInv(limit: nat)
    ensures Inv(Init(limit))
  {
  }

  lemma {:induction false} RunKeepsInv(s: State, events: seq<Event>)
    requires Inv(s) && CanRun(s, events)
    ensures Inv(Run(s, events))
    decreases |events|
  {
    if events != [] {
      StepKeepsInv(s, events[0]);
      RunKeepsInv(Apply(s, events[0]), events[1..]);
    }
  }

  ghost predicate Reachable(s: State) {
    exists limit, events :: CanRun(Init(limit), events) && Run(Init(limit), events) == s
  }

  lemma ReachableInv(s: State)
    requires Reachable(s)
    ensures Inv(s)
  {
    var limit, events :| CanRun(Init(limit), events) && Run(Init(limit), events) == s;
    RunKeepsInv(Init(limit), events);
  }

  lemma {:induction false} RunSnoc(s: State, events: seq<Event>, e: Event)
    requires CanRun(s, events) && Enabled(Run(s, events), e)
    ensures CanRun(s, events + [e]) && Run(s, events + [e]) == Apply(Run(s, events), e)
    decreases |events|
  {
    if events == [] {
      assert [e][1..] == [];
    } else {
      assert (events + [e])[1..] == events[1..] + [e];
      RunSnoc(Apply(s, events[0]), events[1..], e);
    }
  }

  lemma StepIsReachable(s: State, e: Event)
    requires Reachable(s) && Enabled(s, e)
    ensures Reachable(Apply(s, e))
  {
    var limit, events :| CanRun(Init(limit), events) && Run(Init(limit), events) == s;
    RunSnoc(Init(limit), events, e);
  }

  // ----- what is left to the environment -----

  /** Headers, bodies, the ends of methods, reads and writes, and timers are free: whenever its
      goroutine is there, any of them may happen. */
  lemma EnvironmentIsFree(s: State, j: nat)
    ensures s.reader == ReadingHeader ==> Enabled(s, HeaderEnds) && (!s.lost ==> forall h :: Enabled(s, Header(h)))
    ensures s.reader == Searching ==> forall found :: Enabled(s, SearchEnds(found))
    ensures s.reader == ReadingBody ==> Enabled(s, BodyError(true)) && Enabled(s, BodyError(false))
    ensures s.reader == ReadingBody ==> forall input :: Enabled(s, Body(input))
    ensures j < |s.jobs| && s.jobs[j].worker == Working ==> forall r :: Enabled(s, MethodEnds(j, r))
    ensures j < |s.jobs| && s.jobs[j].watcher == Selecting ==> (Enabled(s, Timer(j)) <==> s.limit > 0)
    ensures Wants(s, s.lock) && !s.headerWritten ==> forall written :: Enabled(s, HeaderFails(written))
    ensures Wants(s, s.lock) && s.headerWritten ==>
              forall outcome: Outcome :: !outcome.HeaderFailed? ==> Enabled(s, BodyWrite(outcome))
  {
  }

  // ----- what holds in every run -----

  /** One response per request: a job has at most one send_response, at most one frame on the
      wire comes from it, and that frame is what the winner of its race had to say. */
  lemma OneResponsePerRequest(s: State, j: nat)
    requires Reachable(s) && IsJob(s, j)
    ensures s.jobs[j].attempts <= 1
    ensures |s.origins| == |s.frames|
    ensures forall i, k :: 0 <= i < k < |s.frames| && s.origins[i] == Some(j) ==> s.origins[k] != Some(j)
    ensures
      forall i :: 0 <= i < |s.frames| && s.origins[i] == Some(j) ==>
        var b := s.jobs[j];
        (b.result.Some? || LostTheRace(b)) &&
        s.frames[i] == if LostTheRace(b) then Frame(b.request.(error := TIMEOUT), INVALID_REQUEST)
                       else Frame(ResultHeader(b.request, b.result.value), ResultBody(b.result.value))
  {
    ReachableInv(s);
    assert JobOk(s.jobs[j]);
  }

  /** The job's timer has won the race. */
  predicate TimerWon(b: Job) {
    b.watcher != Selecting && LostTheRace(b)
  }

  /** The steps that write to a job; the others only add jobs. */
  predicate WritesJob(e: Event) {
    e.MethodEnds? || e.Rendezvous? || e.SetHeader? || e.Timer? || e.ReportSent? || e.Done?
    || e.HeaderFails? || e.BodyWrite?
  }

  lemma OtherStepsKeepJob(s: State, e: Event, j: nat)
    requires Enabled(s, e) && IsJob(s, j) && !WritesJob(e)
    ensures IsJob(Apply(s, e), j) && Apply(s, e).jobs[j] == s.jobs[j]
  {
  }

  lemma LoserStaysOutStep(s: State, e: Event, j: nat)
    requires Enabled(s, e) && IsJob(s, j) && JobOk(s.jobs[j]) && TimerWon(s.jobs[j])
    ensures IsJob(Apply(s, e), j) && TimerWon(Apply(s, e).jobs[j])
    ensures Apply(s, e).jobs[j].header == s.jobs[j].header
  {
    if !WritesJob(e) {
      OtherStepsKeepJob(s, e, j);
    }
  }

  /** A worker that lost the rendezvous never reaches send_response and never touches the header
      again, however the run goes on. */
  lemma {:induction false} LoserStaysOut(s: State, events: seq<Event>, j: nat)
    requires Inv(s) && CanRun(s, events) && IsJob(s, j) && TimerWon(s.jobs[j])
    ensures IsJob(Run(s, events), j) && TimerWon(Run(s, events).jobs[j])
    ensures Run(s, events).jobs[j].header == s.jobs[j].request.(error := TIMEOUT)
    decreases |events|
  {
    assert JobOk(s.jobs[j]);
    if events != [] {
      StepKeepsInv(s, events[0]);
      LoserStaysOutStep(s, events[0], j);
      assert JobOk(Apply(s, events[0]).jobs[j]);
      LoserStaysOut(Apply(s, events[0]), events[1..], j);
      assert HeaderOk(s.jobs[j]);
    }
  }

  /** Framing: for any number of goroutines interleaving at send_response, the peer reads exactly the
      responses reported as written, unmixed and in the order in which sendMutex was held, if and
      only if none was reported after one whose body has no text and all that were reported arrived;
      without such bodies it reads a prefix of them. */
  lemma ResponsesOnTheWire(s: State)
    requires Reachable(s)
    ensures Read(s.wire.sent) == Delivered(s.attempts)
            <==> NoSuccessAfterBodyFailure(s.attempts) && NothingLost(s.attempts)
    ensures NoSuccessAfterBodyFailure(s.attempts) ==> Read(s.wire.sent) <= Delivered(s.attempts)
  {
    ReachableInv(s);
    FramingRoundTrip(s.attempts);
    if NoSuccessAfterBodyFailure(s.attempts) {
      PeerReadsAPrefix(s.attempts);
    }
  }

  /** Drain before close: when message.Close has run, every request whose header was read has had
      exactly one response attempt, and no goroutine holds or wants sendMutex. */
  lemma DrainBeforeClose(s: State)
    requires Reachable(s) && s.reader == Closed
    ensures s.requestsRead == |s.jobs| + s.rejected
    ensures forall j {:trigger s.jobs[j]} :: 0 <= j < |s.jobs| ==> s.jobs[j].attempts == 1
    ensures s.lock == Nobody && forall who :: !Wants(s, who)
  {
    ReachableInv(s);
    SumIsZero(s.jobs, OpenWeight);
    forall j | 0 <= j < |s.jobs| ensures s.jobs[j].watcher == Left && JobOk(s.jobs[j]) {
      assert OpenWeight(s.jobs[j]) == 0;
    }
  }

  // ----- the wait ends -----

  function WorkerRank(b: Job): nat {
    match b.worker
    case Working => 7
    case Offering => 6
    case Met => 5
    case Replying => 4
    case Reporting => 1
    case Gone => 0
  }

  function WatcherRank(b: Job): nat {
    match b.watcher
    case Selecting => 5
    case Watching => 2
    case TimedOut => 4
    case Leaving => 1
    case Left => 0
  }

  const Rank: Job -> nat := (b: Job) => WorkerRank(b) + WatcherRank(b)

  /** Bounds the number of steps still possible once the reader has stopped. */
  function Measure(s: State): nat {
    Sum(s.jobs, Rank)
    + (if s.lock == Nobody then 2 else if s.headerWritten then 0 else 1)
    + Bit(s.reader == Waiting)
  }

  lemma UpdateDecreases(s: State, j: nat, b: Job)
    requires IsJob(s, j) && Rank(b) < Rank(s.jobs[j])
    ensures Measure(SetJob(s, j, b)) < Measure(s)
  {
    SumUpdate(s.jobs, Rank, j, b);
  }

  lemma ReleaseDecreases(s: State, outcome: Outcome)
    requires JobsInv(s) && Wants(s, s.lock) && (s.reader == Waiting || s.reader == Closed)
    ensures ReleaseSend(s, outcome).reader == s.reader && Measure(ReleaseSend(s, outcome)) < Measure(s)
  {
    var j := s.lock.job;
    assert JobOk(s.jobs[j]);
    SumUpdate(s.jobs, Rank, j, Returned(s, s.lock)[j]);
    assert Returned(s, s.lock) == s.jobs[j := Returned(s, s.lock)[j]];
  }

  lemma JobStepDecreases(s: State, e: Event)
    requires Enabled(s, e)
    ensures e.MethodEnds? || e.Rendezvous? || e.SetHeader? || e.Timer? || e.ReportSent? || e.Done? ==>
              Apply(s, e).reader == s.reader && Measure(Apply(s, e)) < Measure(s)
  {
    match e
    case MethodEnds(j, r) => UpdateDecreases(s, j, MethodReturns(s.jobs[j], r));
    case Rendezvous(j) => UpdateDecreases(s, j, Meet(s.jobs[j]));
    case SetHeader(j) => UpdateDecreases(s, j, NoteResult(s.jobs[j]));
    case Timer(j) => UpdateDecreases(s, j, FireTimer(s.jobs[j]));
    case ReportSent(j) => UpdateDecreases(s, j, Report(s.jobs[j]));
    case Done(j) => UpdateDecreases(s, j, s.jobs[j].(watcher := Left)); assert Measure(Leave(s, j)) < Measure(s);
    case _ =>
  }

  lemma DrainStepDecreases(s: State, e: Event)
    requires Inv(s) && Enabled(s, e) && (s.reader == Waiting || s.reader == Closed)
    ensures Apply(s, e).reader == Waiting || Apply(s, e).reader == Closed
    ensures Measure(Apply(s, e)) < Measure(s)
  {
    match e
    case HeaderFails(written) => ReleaseDecreases(s, HeaderFailed(written));
    case BodyWrite(outcome) => ReleaseDecreases(s, outcome);
    case _ => JobStepDecreases(s, e);
  }

  /** Once reading has stopped, every continuation is finite: it has at most Measure(s) steps. */
  lemma {:induction false} DrainIsBounded(s: State, events: seq<Event>)
    requires Inv(s) && (s.reader == Waiting || s.reader == Closed) && CanRun(s, events)
    ensures |events| <= Measure(s)
    decreases |events|
  {
    if events != [] {
      StepKeepsInv(s, events[0]);
      DrainStepDecreases(s, events[0]);
      DrainIsBounded(Apply(s, events[0]), events[1..]);
    }
  }

  /** A step that can be taken while the connection waits; none of them needs a method to return. */
  function DrainStep(s: State, j: nat): Event {
    if s.lock != Nobody then
      if s.headerWritten then BodyWrite(Sent) else if s.wire.broken then HeaderFails(0) else HeaderWrite
    else if !IsJob(s, j) then Close
    else match s.jobs[j].watcher
      case Selecting => Timer(j)
      case TimedOut => TakeSendMutex(WatcherOf(j))
      case Leaving => Done(j)
      case _ =>
        if s.jobs[j].worker == Met then SetHeader(j)
        else if s.jobs[j].worker == Replying then TakeSendMutex(WorkerOf(j))
        else ReportSent(j)
  }

  lemma NextDrainStep(s: State) returns (j: nat)
    requires Inv(s) && s.reader == Waiting && (s.limit > 0 || s.jobs == [])
    ensures Enabled(s, DrainStep(s, j)) && !DrainStep(s, j).MethodEnds?
  {
    SumIsZero(s.jobs, OpenWeight);
    if s.lock != Nobody || s.open == 0 {
      j := |s.jobs|;
    } else {
      j :| 0 <= j < |s.jobs| && OpenWeight(s.jobs[j]) != 0;
      assert JobOk(s.jobs[j]);
    }
  }

  /** The wait never sticks if the limit is positive or nothing was dispatched: until the
      connection is closed a step is possible that needs no method to return. */
  lemma DrainNeverStuck(s: State)
    requires Reachable(s) && s.reader == Waiting
    requires s.limit > 0 || s.jobs == []
    ensures exists j :: Enabled(s, DrainStep(s, j)) && !DrainStep(s, j).MethodEnds?
  {
    ReachableInv(s);
    var j := NextDrainStep(s);
  }

  /** A run that closes the connection, if the wait can end. */
  lemma {:induction false} DrainCanFinish(s: State)
    requires Inv(s) && s.reader == Waiting && (s.limit > 0 || s.jobs == [])
    ensures exists events :: CanRun(s, events) && Run(s, events).reader == Closed
    decreases Measure(s)
  {
    var j := NextDrainStep(s);
    var e := DrainStep(s, j);
    var n := Apply(s, e);
    StepKeepsInv(s, e);
    DrainStepDecreases(s, e);
    ghost var rest: seq<Event> := [];
    if n.reader != Closed {
      StepKeepsLimit(s, e);
      DrainCanFinish(n);
      rest :| CanRun(n, rest) && Run(n, rest).reader == Closed;
    }
    RunCons(s, e, rest);
  }

  lemma DrainStepStays(s: State, e: Event)
    requires Enabled(s, e) && (s.reader == Waiting || s.reader == Closed)
    ensures Apply(s, e).reader == Waiting || Apply(s, e).reader == Closed
  {
  }

  lemma {:induction false} DrainGoesOn(s: State, events: seq<Event>)
    requires (s.reader == Waiting || s.reader == Closed) && CanRun(s, events)
    ensures
      var n := Run(s, events);
      && (n.reader == Waiting || n.reader == Closed)
      && n.limit == s.limit && |n.jobs| == |s.jobs|
    decreases |events|
  {
    if events != [] {
      DrainStepStays(s, events[0]);
      StepKeepsLimit(s, events[0]);
      DrainGoesOn(Apply(s, events[0]), events[1..]);
    }
  }

  /** The wait always ends: once reading has stopped every run is finite, and one that is left with
      no step has closed the connection, if the limit is positive or nothing was dispatched. */
  lemma DrainAlwaysEnds(s: State, events: seq<Event>)
    requires Reachable(s) && s.reader == Waiting && (s.limit > 0 || s.jobs == [])
    requires CanRun(s, events)
    ensures |events| <= Measure(s)
    ensures (forall e :: !Enabled(Run(s, events), e)) ==> Run(s, events).reader == Closed
  {
    ReachableInv(s);
    DrainIsBounded(s, events);
    RunKeepsInv(s, events);
    DrainGoesOn(s, events);
    var n := Run(s, events);
    if n.reader == Waiting {
      var j := NextDrainStep(n);
      assert Enabled(n, DrainStep(n, j));
    }
  }

  lemma StepKeepsLimit(s: State, e: Event)
    requires Enabled(s, e)
    ensures Apply(s, e).limit == s.limit
    ensures e.Body? || |Apply(s, e).jobs| == |s.jobs|
    ensures |s.jobs| <= |Apply(s, e).jobs|
    ensures s.reader == Waiting || s.reader == Closed ==> !e.Body?
  {
  }

  /** With no limit waitGroup.Done is never reached. */
  lemma {:induction false} ZeroLimitNeverCloses(s: State, events: seq<Event>)
    requires Inv(s) && s.limit == 0 && s.jobs != [] && CanRun(s, events)
    ensures Run(s, events).reader != Closed
    decreases |events|
  {
    if events != [] {
      StepKeepsInv(s, events[0]);
      StepKeepsLimit(s, events[0]);
      ZeroLimitNeverCloses(Apply(s, events[0]), events[1..]);
    }
  }

  /** Exactly when a connection that has stopped reading can still be closed: the limit is
      positive or nothing was dispatched on it. The default limit is 0. */
  lemma ClosesExactly(s: State)
    requires Reachable(s) && s.reader == Waiting
    ensures (exists events :: CanRun(s, events) && Run(s, events).reader == Closed) <==> (s.limit > 0 || s.jobs == [])
  {
    ReachableInv(s);
    if s.limit > 0 || s.jobs == [] {
      DrainCanFinish(s);
    } else {
      forall events | CanRun(s, events) ensures Run(s, events).reader != Closed {
        ZeroLimitNeverCloses(s, events);
      }
    }
  }

  function Leaked(h: MessageHeader, input: Value): State {
    StopReading(Dispatch(Search(DecodeHeader(Init(0), h), FoundMethod), input))
  }

  lemma LeakedIsReached(h: MessageHeader, input: Value)
    ensures
      var events := [Header(h)] + ([SearchEnds(FoundMethod)] + ([Body(input)] + ([HeaderEnds] + [])));
      CanRun(Init(0), events) && Run(Init(0), events) == Leaked(h, input)
  {
    var s1 := DecodeHeader(Init(0), h);
    var s2 := Search(s1, FoundMethod);
    var s3 := Dispatch(s2, input);
    RunCons(s3, HeaderEnds, []);
    RunCons(s2, Body(input), [HeaderEnds] + []);
    RunCons(s1, SearchEnds(FoundMethod), [Body(input)] + ([HeaderEnds] + []));
    RunCons(Init(0), Header(h), [SearchEnds(FoundMethod)] + ([Body(input)] + ([HeaderEnds] + [])));
  }

  /** A concrete connection that is never closed: no limit, one request, then the end of input. */
  lemma ZeroLimitLeaks(h: MessageHeader, input: Value)
    ensures Reachable(Leaked(h, input)) && Leaked(h, input).reader == Waiting
    ensures forall more :: CanRun(Leaked(h, input), more) ==> Run(Leaked(h, input), more).reader != Closed
  {
    LeakedIsReached(h, input);
    ClosesExactly(Leaked(h, input));
  }
}
