/**
  Which answer belongs to which call, over every run of EndToEnd: a remote error is the text of a
  response to the call's own request and has its own cause, a method runs at most once for a call,
  and no two responses carry the same sequence number.
 */
module Answers {
  import opened Wrappers
  import opened Coder
  import opened EndToEnd
  import C = CallProtocol
  import S = Connection
  import T = ClientTables

  // ----- remote errors -----

  predicate IsRemote(c: C.Call) {
    c.error.Some? && c.error.value.Remote?
  }

  /** The server wrote a response to this call's request with this text. */
  ghost predicate HeardFrom(frames: seq<Frame>, c: C.Call, text: string) {
    text != "" &&
    exists i {:trigger frames[i]} :: 0 <= i < |frames| && frames[i].header == MessageHeader(c.name, c.number, text)
  }

  ghost predicate Heard(client: C.State, frames: seq<Frame>) {
    forall id {:trigger client.calls[id]} :: id in client.calls && IsRemote(client.calls[id]) ==>
      HeardFrom(frames, client.calls[id], client.calls[id].error.value.text)
  }

  /** A response that comes from no job is a rejection. */
  ghost predicate RejectionsSay(server: S.State) {
    && |server.origins| == |server.frames|
    && forall i {:trigger server.origins[i]} :: 0 <= i < |server.frames| && server.origins[i].None? ==>
         server.frames[i].header.error == S.BAD_BODY
  }

  lemma SenderNumberStep(c: C.State, e: C.Event, id: C.CallId)
    requires C.Enabled(c, e) && id in c.calls && C.BySender(e)
    ensures id in C.Apply(c, e).calls
    ensures C.Apply(c, e).calls[id].number == c.calls[id].number || (e.Add? && c.holder == C.Sender(id))
  {
  }

  lemma NumberStep(c: C.State, e: C.Event, id: C.CallId)
    requires C.Enabled(c, e) && id in c.calls
    ensures id in C.Apply(c, e).calls
    ensures C.Apply(c, e).calls[id].number == c.calls[id].number || (e.Add? && c.holder == C.Sender(id))
  {
    if C.BySender(e) {
      SenderNumberStep(c, e, id);
    }
  }

  /** The sender that is about to register its call has not heard anything. */
  lemma NewCallHasHeardNothing(env: Env, c: C.State, server: S.State, id: C.CallId)
    requires C.TablesInv(c) && C.SenderInv(c) && ServerInv(env, c.asked, server)
    requires c.holder == C.Sender(id) && c.stage == C.Adding && Heard(c, server.frames)
    ensures !IsRemote(c.calls[id])
  {
    forall i | 0 <= i < |server.frames| ensures server.frames[i].header.sequenceNumber != 0 {
      assert Explained(env, c.asked, server.frames[i]);
    }
  }

  lemma ClaimHears(env: Env, c: C.State, server: S.State, toClient: nat, id: C.CallId)
    requires C.TablesInv(c) && ServerInv(env, c.asked, server) && ResponseInv(c, server, toClient)
    requires C.PendingExist(c) && c.phase == C.GotHeader
    requires id in c.calls && C.CallInv(c, id) && Heard(c, server.frames)
    ensures id in C.ClaimReply(c).calls
    ensures
      var n := C.ClaimReply(c).calls[id];
      IsRemote(n) ==> HeardFrom(server.frames, n, n.error.value.text)
  {
    ClaimStepCall(c, id);
    if C.ClaimReply(c).calls[id] != c.calls[id] {
      assert Explained(env, c.asked, server.frames[toClient / 2]);
    }
  }

  lemma StepHears(env: Env, s: State, e: C.Event, id: C.CallId)
    requires C.TablesInv(s.client) && C.SenderInv(s.client) && ServerInv(env, s.client.asked, s.server)
    requires C.Enabled(s.client, e) && !e.Claim? && id in s.client.calls && Heard(s.client, s.server.frames)
    ensures id in C.Apply(s.client, e).calls
    ensures
      var n := C.Apply(s.client, e).calls[id];
      IsRemote(n) ==> HeardFrom(s.server.frames, n, n.error.value.text)
  {
    NumberStep(s.client, e, id);
    if e.DecodeOutput? {
      OutputStepCall(s.client, e.body, id);
    } else if C.BySender(e) {
      SenderStepCall(s.client, e, id);
    } else {
      OtherStepCall(s.client, e, id);
    }
    if e.Add? && s.client.holder == C.Sender(id) {
      NewCallHasHeardNothing(env, s.client, s.server, id);
    }
  }

  lemma ClientKeepsHeard(env: Env, s: State, e: C.Event, n: C.State)
    requires Inv(env, s) && ClientAllowed(env, s, e) && n == C.Apply(s.client, e)
    requires Heard(s.client, s.server.frames)
    ensures Heard(n, s.server.frames)
  {
    forall id | id in n.calls && IsRemote(n.calls[id])
      ensures HeardFrom(s.server.frames, n.calls[id], n.calls[id].error.value.text)
    {
      if id !in s.client.calls {
        ClientStepNewCall(s.client, e, id);
      } else if e.Claim? {
        assert C.CallInv(s.client, id);
        ClaimHears(env, s.client, s.server, s.toClient, id);
      } else {
        StepHears(env, s, e, id);
      }
    }
  }

  lemma HeardStays(client: C.State, frames: seq<Frame>, more: seq<Frame>)
    requires Heard(client, frames) && frames <= more
    ensures Heard(client, more)
  {
    forall id | id in client.calls && IsRemote(client.calls[id])
      ensures HeardFrom(more, client.calls[id], client.calls[id].error.value.text)
    {
      var c := client.calls[id];
      var i :| 0 <= i < |frames| && frames[i].header == MessageHeader(c.name, c.number, c.error.value.text);
      assert more[i] == frames[i];
    }
  }

  lemma ServerKeepsRejections(
    attempts: seq<Attempt>, asked: map<nat, C.Ask>, server: S.State, toServer: nat, e: S.Event)
    requires RequestInv(attempts, asked, server, toServer) && S.Enabled(server, e) && RejectionsSay(server)
    ensures RejectionsSay(S.Apply(server, e)) && server.frames <= S.Apply(server, e).frames
  {
  }

  // ----- sequence numbers -----

  function Number(f: Frame): nat {
    f.header.sequenceNumber
  }

  predicate Busy(server: S.State) {
    server.reader == S.Searching || server.reader == S.ReadingBody || server.reader == S.Rejecting
    || server.reader == S.Crashed
  }

  /** The number was read before the request that the reader works on, or is not after the last. */
  predicate Behind(requests: seq<Frame>, read: nat, busy: bool, n: nat) {
    0 < read <= |requests| && if busy then n < Number(requests[read - 1]) else n <= Number(requests[read - 1])
  }

  ghost predicate JobsNumbered(requests: seq<Frame>, read: nat, busy: bool, jobs: seq<S.Job>) {
    && (forall j {:trigger jobs[j]} :: 0 <= j < |jobs| ==> Behind(requests, read, busy, jobs[j].request.sequenceNumber))
    && forall j, k :: 0 <= j < k < |jobs| ==> jobs[j].request.sequenceNumber < jobs[k].request.sequenceNumber
  }

  ghost predicate FramesNumbered(requests: seq<Frame>, read: nat, busy: bool, frames: seq<Frame>) {
    && (forall i {:trigger frames[i]} :: 0 <= i < |frames| ==> Behind(requests, read, busy, Number(frames[i])))
    && forall i, k :: 0 <= i < k < |frames| ==> Number(frames[i]) != Number(frames[k])
  }

  /** No job has the number of a rejected request. */
  ghost predicate RejectedHaveNoJob(frames: seq<Frame>, origins: seq<Option<nat>>, jobs: seq<S.Job>) {
    && |origins| == |frames|
    && forall i, j {:trigger frames[i], jobs[j]} :: 0 <= i < |frames| && 0 <= j < |jobs| && origins[i].None? ==>
         Number(frames[i]) != jobs[j].request.sequenceNumber
  }

  ghost predicate Numbered(requests: seq<Frame>, server: S.State) {
    && server.requestsRead <= |requests|
    && (Busy(server) ==>
          0 < server.requestsRead && server.rejecting.sequenceNumber == Number(requests[server.requestsRead - 1]))
    && JobsNumbered(requests, server.requestsRead, Busy(server), server.jobs)
    && FramesNumbered(requests, server.requestsRead, Busy(server), server.frames)
    && RejectedHaveNoJob(server.frames, server.origins, server.jobs)
  }

  lemma MoreRequestsKeepNumbered(requests: seq<Frame>, more: seq<Frame>, server: S.State)
    requires Numbered(requests, server) && requests <= more
    ensures Numbered(more, server)
  {
  }

  lemma HeaderKeepsNumbered(requests: seq<Frame>, server: S.State, h: MessageHeader)
    requires Numbered(requests, server) && !Busy(server)
    requires server.requestsRead < |requests| && h == requests[server.requestsRead].header
    requires forall i, j :: 0 <= i < j < |requests| ==> Number(requests[i]) < Number(requests[j])
    ensures Numbered(requests, S.DecodeHeader(server, h))
  {
  }

  lemma ReadKeepsNumbered(s: State, h: MessageHeader)
    requires RequestInv(s.client.attempts, s.client.asked, s.server, s.toServer) && C.WireInv(s.client)
    requires s.server.reader == S.ReadingHeader && !s.server.lost && Next(Requests(s), s.toServer, HeaderToken(h))
    requires Numbered(Begun(s.client.attempts), s.server)
    ensures Numbered(Begun(s.client.attempts), S.DecodeHeader(s.server, h))
  {
    HeaderKeepsRequests(s, h);
    C.BegunIncreases(s.client.attempts);
    HeaderKeepsNumbered(Begun(s.client.attempts), s.server, h);
  }

  lemma DispatchKeepsNumbered(requests: seq<Frame>, server: S.State, input: Value)
    requires Numbered(requests, server) && server.reader == S.ReadingBody
    ensures Numbered(requests, S.Dispatch(server, input))
  {
  }

  /** One goroutine's response has its own job's number, which no earlier response has. */
  lemma MessageIsNew(server: S.State)
    requires S.JobsInv(server) && S.FramesInv(server) && S.Wants(server, server.lock)
    requires server.lock.WorkerOf? || server.lock.WatcherOf?
    requires RejectedHaveNoJob(server.frames, server.origins, server.jobs)
    requires forall j, k :: 0 <= j < k < |server.jobs| ==>
               server.jobs[j].request.sequenceNumber < server.jobs[k].request.sequenceNumber
    ensures Number(S.Message(server)) == server.jobs[server.lock.job].request.sequenceNumber
    ensures forall i :: 0 <= i < |server.frames| ==> Number(server.frames[i]) != Number(S.Message(server))
  {
    assert S.JobOk(server.jobs[server.lock.job]);
    forall i | 0 <= i < |server.frames| ensures Number(server.frames[i]) != Number(S.Message(server)) {
      if server.origins[i].Some? {
        assert S.JobOk(server.jobs[server.origins[i].value]);
      }
    }
  }

  lemma FailKeepsNumbered(requests: seq<Frame>, server: S.State, written: nat)
    requires Numbered(requests, server) && S.Wants(server, server.lock)
    ensures Numbered(requests, S.FailHeader(server, written))
  {
  }

  lemma UnbegunKeepsNumbered(requests: seq<Frame>, server: S.State, outcome: Outcome)
    requires Numbered(requests, server) && S.Wants(server, server.lock) && !Begins(outcome)
    ensures Numbered(requests, S.WriteBody(server, outcome))
  {
  }

  lemma WriteKeepsNumbered(requests: seq<Frame>, server: S.State, outcome: Outcome)
    requires Numbered(requests, server) && S.Wants(server, server.lock) && Begins(outcome)
    requires S.JobsInv(server) && S.FramesInv(server)
    ensures Numbered(requests, S.WriteBody(server, outcome))
  {
    if !server.lock.TheReader? {
      MessageIsNew(server);
    }
  }

  lemma JobKeepsNumbered(requests: seq<Frame>, server: S.State, j: nat, b: S.Job)
    requires Numbered(requests, server) && S.IsJob(server, j) && b.request == server.jobs[j].request
    ensures Numbered(requests, S.SetJob(server, j, b))
  {
  }

  lemma OneJobKeepsNumbered(requests: seq<Frame>, server: S.State, e: S.Event)
    requires Numbered(requests, server) && S.Enabled(server, e)
    requires e.MethodEnds? || e.Rendezvous? || e.SetHeader? || e.Timer? || e.ReportSent? || e.Done?
    ensures Numbered(requests, S.Apply(server, e))
  {
    JobKeepsNumbered(requests, server, e.job, S.Apply(server, e).jobs[e.job]);
  }

  lemma OthersKeepNumbered(requests: seq<Frame>, server: S.State, e: S.Event)
    requires Numbered(requests, server) && S.Enabled(server, e)
    requires e.HeaderEnds? || e.SearchEnds? || e.BodyError? || e.TakeSendMutex? || e.Close?
    ensures Numbered(requests, S.Apply(server, e))
  {
  }

  lemma ServerKeepsNumbered(requests: seq<Frame>, server: S.State, e: S.Event)
    requires S.JobsInv(server) && S.FramesInv(server) && Numbered(requests, server)
    requires S.Enabled(server, e) && !e.Header?
    ensures Numbered(requests, S.Apply(server, e))
  {
    match e
    case Body(input) => DispatchKeepsNumbered(requests, server, input);
    case HeaderWrite =>
    case HeaderFails(written) => FailKeepsNumbered(requests, server, written);
    case BodyWrite(outcome) =>
      if Begins(outcome) {
        WriteKeepsNumbered(requests, server, outcome);
      } else {
        UnbegunKeepsNumbered(requests, server, outcome);
      }
    case _ =>
      if e.HeaderEnds? || e.SearchEnds? || e.BodyError? || e.TakeSendMutex? || e.Close? {
        OthersKeepNumbered(requests, server, e);
      } else {
        OneJobKeepsNumbered(requests, server, e);
      }
  }

  // ----- runs -----

  ghost predicate Answered(env: Env, s: State) {
    && Inv(env, s)
    && Heard(s.client, s.server.frames)
    && RejectionsSay(s.server)
    && Numbered(Begun(s.client.attempts), s.server)
  }

  lemma ClientKeepsAnswered(env: Env, s: State, e: C.Event, n: C.State)
    requires Answered(env, s) && ClientAllowed(env, s, e) && Good(env, AtClient(e)) && n == C.Apply(s.client, e)
    ensures Answered(env, AfterClient(s, e, n))
  {
    ClientStepKeepsInv(env, s, e, n);
    ClientKeepsHeard(env, s, e, n);
    RequestsGrow(s.client, e);
    MoreRequestsKeepNumbered(Begun(s.client.attempts), Begun(n.attempts), s.server);
  }

  lemma ServerKeepsAnswered(env: Env, s: State, e: S.Event, n: S.State)
    requires Answered(env, s) && ServerAllowed(env, s, e) && n == S.Apply(s.server, e)
    ensures Answered(env, AfterServer(s, e, n))
  {
    ServerStepKeepsInv(env, s, e, n);
    ServerKeepsRejections(s.client.attempts, s.client.asked, s.server, s.toServer, e);
    HeardStays(s.client, s.server.frames, n.frames);
    if e.Header? {
      AlignedHeader(env, s, e.header);
      ReadKeepsNumbered(s, e.header);
    } else {
      ServerKeepsNumbered(Begun(s.client.attempts), s.server, e);
    }
  }

  lemma ClientSteps(env: Env)
    ensures forall x, c, n ::
              Answered(env, x) && Good(env, AtClient(c)) && ClientAllowed(env, x, c) && n == C.Apply(x.client, c) ==>
                Answered(env, AfterClient(x, c, n))
  {
    forall x, c, n | Answered(env, x) && Good(env, AtClient(c)) && ClientAllowed(env, x, c)
                     && n == C.Apply(x.client, c)
      ensures Answered(env, AfterClient(x, c, n))
    {
      ClientKeepsAnswered(env, x, c, n);
    }
  }

  lemma ServerSteps(env: Env)
    ensures forall x, v, n ::
              Answered(env, x) && ServerAllowed(env, x, v) && n == S.Apply(x.server, v) ==>
                Answered(env, AfterServer(x, v, n))
  {
    forall x, v, n | Answered(env, x) && ServerAllowed(env, x, v) && n == S.Apply(x.server, v)
      ensures Answered(env, AfterServer(x, v, n))
    {
      ServerKeepsAnswered(env, x, v, n);
    }
  }

  lemma InitAnswered(env: Env, limit: nat)
    ensures Answered(env, Init(limit))
  {
    C.InitInv();
    S.InitInv(limit);
    InitJoint(env, limit);
  }

  lemma ReachableAnswered(env: Env, s: State)
    requires Reachable(env, s)
    ensures Answered(env, s)
  {
    var limit, events :|
      CanRun(env, Init(limit), events) && AllGood(env, events) && Run(env, Init(limit), events) == s;
    InitAnswered(env, limit);
    ClientSteps(env);
    ServerSteps(env);
    RunKeeps(env, x => Answered(env, x), e => Good(env, e), Init(limit), events);
  }

  // ----- what holds in every run -----

  /** Response i of the server answers this call, and says why it is the error `text`: the call's
      own inputs were rejected, its own timer won, or its own method failed with that text. */
  predicate OwnError(env: Env, server: S.State, c: C.Call, text: string, i: nat) {
    && i < |server.frames| && i < |server.origins|
    && server.frames[i] == Frame(MessageHeader(c.name, c.number, text), S.INVALID_REQUEST)
    && match server.origins[i]
       case None => text == S.BAD_BODY
       case Some(j) =>
         && j < |server.jobs|
         && server.jobs[j].request == MessageHeader(c.name, c.number, "")
         && server.jobs[j].input == c.inputs
         && if S.TimerWon(server.jobs[j]) then text == S.TIMEOUT
            else server.jobs[j].result == Some(Failure(text))
                 && MethodOutcome(env, c.name, c.inputs) == Some(Failure(text))
  }

  lemma OwnJob(env: Env, s: State, c: C.Call, text: string, i: nat)
    requires S.FramesInv(s.server) && S.JobsInv(s.server) && ServerInv(env, s.client.asked, s.server)
    requires RejectionsSay(s.server) && text != ""
    requires i < |s.server.frames| && s.server.frames[i].header == MessageHeader(c.name, c.number, text)
    requires c.number in s.client.asked ==>
               s.client.asked[c.number].name == c.name && s.client.asked[c.number].inputs == c.inputs
    ensures OwnError(env, s.server, c, text, i)
  {
    assert Explained(env, s.client.asked, s.server.frames[i]);
    if s.server.origins[i].Some? {
      var b := s.server.jobs[s.server.origins[i].value];
      assert S.JobOk(b) && JobKnown(env, s.client.asked, b);
    }
  }

  /** A remote error a caller sees came with a response to its own request, and its cause is the
      caller's own: its rejected inputs, its timer, or its method. */
  lemma RemoteErrorIsOwn(env: Env, s: State, id: C.CallId, text: string)
    requires Reachable(env, s) && id in s.client.calls
    requires s.client.calls[id].error == Some(T.Remote(text))
    ensures exists i :: OwnError(env, s.server, s.client.calls[id], text, i)
  {
    ReachableAnswered(env, s);
    var c := s.client.calls[id];
    assert C.CallInv(s.client, id);
    var i :| 0 <= i < |s.server.frames| && s.server.frames[i].header == MessageHeader(c.name, c.number, text);
    assert Explained(env, s.client.asked, s.server.frames[i]);
    OwnJob(env, s, c, text, i);
  }

  /** A method is run at most once for a call, and no two responses carry the same number, whatever
      is rejected, times out or is lost on the way. */
  lemma OneAnswerPerNumber(env: Env, s: State)
    requires Reachable(env, s)
    ensures forall j, k :: 0 <= j < k < |s.server.jobs| ==>
              s.server.jobs[j].request.sequenceNumber < s.server.jobs[k].request.sequenceNumber
    ensures forall i, k :: 0 <= i < k < |s.server.frames| ==>
              s.server.frames[i].header.sequenceNumber != s.server.frames[k].header.sequenceNumber
  {
    ReachableAnswered(env, s);
    assert FramesNumbered(
        Begun(s.client.attempts), s.server.requestsRead, Busy(s.server), s.server.frames);
    forall i, k | 0 <= i < k < |s.server.frames|
      ensures s.server.frames[i].header.sequenceNumber != s.server.frames[k].header.sequenceNumber
    {
      assert Number(s.server.frames[i]) != Number(s.server.frames[k]);
    }
  }
}
