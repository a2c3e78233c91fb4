/**
  Nobody waits forever: if the server reads on and nothing that is written gets lost, a run of
  EndToEnd that is left with no step to take has brought every call back to its caller. Methods may
  fail, timers and contexts may fire, inputs may be rejected, and the client may fail to read or to
  decode anything at any moment.
 */
module Quiescence {
  import opened Wrappers
  import opened Coder
  import opened Services
  import opened EndToEnd
  import C = CallProtocol
  import S = Connection

  // ----- runs in which nothing is lost -----

  /** The server does not stop reading, every write is flushed, and calls name a method that exists. */
  predicate Healthy(env: Env, e: Event) {
    match e
    case AtClient(c) =>
      (match c
       case Start(_, name, _, _) => SearchService(env.services, name).Found?
       case EncodeCall(outcome) => outcome == Sent
       case _ => true)
    case AtServer(v) =>
      (match v
       case HeaderEnds => false
       case BodyError(lost) => !lost
       case HeaderFails(_) => false
       case BodyWrite(outcome) => outcome == Sent
       case _ => true)
  }

  /** A step that goes on with what has been started. Contexts and timers may fire, inputs may be
      rejected and reading may fail, but nothing below relies on it. */
  predicate Progress(env: Env, e: Event) {
    && Healthy(env, e)
    && match e
       case AtClient(c) => !c.Start? && !c.Close? && !c.ContextDone? && !c.DecodeHeaderFails?
       case AtServer(v) => !v.Timer? && !v.BodyError?
  }

  ghost predicate Quiet(env: Env, s: State) {
    forall e :: Progress(env, e) ==> !Allowed(env, s, e)
  }

  ghost predicate HealthyRun(env: Env, limit: nat, events: seq<Event>) {
    && CanRun(env, Init(limit), events)
    && forall i {:trigger events[i]} :: 0 <= i < |events| ==> Healthy(env, events[i])
  }

  // ----- streams of encodes that all succeeded -----

  ghost predicate AllSent(attempts: seq<Attempt>) {
    forall i {:trigger attempts[i]} :: 0 <= i < |attempts| ==> attempts[i].outcome == Sent
  }

  lemma {:induction false} AllBegun(attempts: seq<Attempt>)
    requires AllSent(attempts)
    ensures |Begun(attempts)| == |attempts|
    ensures forall i {:trigger attempts[i]} :: 0 <= i < |attempts| ==> Begun(attempts)[i] == attempts[i].frame
  {
    if attempts != [] {
      var init := attempts[..|attempts| - 1];
      assert forall i :: 0 <= i < |init| ==> init[i] == attempts[i];
      AllBegun(init);
    }
  }

  lemma WholeStream(attempts: seq<Attempt>)
    requires AllSent(attempts) && Possible(attempts)
    ensures !EncodeAll(attempts).broken && EncodeAll(attempts).sent == Tokens(Begun(attempts))
  {
    AllUnbroken(attempts);
    CleanStream(attempts);
  }

  lemma {:induction false} AllUnbroken(attempts: seq<Attempt>)
    requires AllSent(attempts)
    ensures !EncodeAll(attempts).broken
  {
    if attempts != [] {
      var init := attempts[..|attempts| - 1];
      assert forall i :: 0 <= i < |init| ==> init[i] == attempts[i];
      AllUnbroken(init);
    }
  }

  // ----- the invariant -----

  /** The requests sent are those of calls 1, 2, 3 and so on. */
  ghost predicate Consecutive(attempts: seq<Attempt>, below: int) {
    && |attempts| == below - 1
    && forall i {:trigger attempts[i]} :: 0 <= i < |attempts| ==> attempts[i].frame.header.sequenceNumber == i + 1
  }

  predicate Receiving(c: C.State) {
    && !c.stop
    && (c.phase == C.AwaitHeader || c.phase == C.GotHeader || c.phase == C.Discarding || c.phase == C.FillingOutput
        || c.phase == C.Finishing)
  }

  ghost predicate NamesFound(env: Env, c: C.State) {
    && (forall id {:trigger c.calls[id]} :: id in c.calls ==> SearchService(env.services, c.calls[id].name).Found?)
    && forall n {:trigger c.asked[n]} :: n in c.asked ==> SearchService(env.services, c.asked[n].name).Found?
  }

  predicate StageOk(c: C.State) {
    c.holder.Sender? ==> c.stage != C.Retracting && c.stage != C.Failing
  }

  ghost predicate ClientFlows(env: Env, c: C.State) {
    && AllSent(c.attempts)
    && Consecutive(c.attempts, C.EncodedBelow(c))
    && Receiving(c)
    && StageOk(c)
    && NamesFound(env, c)
  }

  predicate Reading(v: S.State) {
    v.reader == S.Searching || v.reader == S.ReadingBody
  }

  predicate Busy(v: S.State) {
    Reading(v) || v.reader == S.Rejecting
  }

  ghost predicate HasFrame(v: S.State, j: nat) {
    exists i {:trigger v.origins[i]} :: 0 <= i < |v.origins| && v.origins[i] == Some(j)
  }

  ghost predicate HasAnswer(frames: seq<Frame>, n: nat) {
    exists i {:trigger frames[i]} :: 0 <= i < |frames| && frames[i].header.sequenceNumber == n
  }

  ghost predicate HasJob(jobs: seq<S.Job>, n: nat) {
    exists j {:trigger jobs[j]} :: 0 <= j < |jobs| && jobs[j].request.sequenceNumber == n
  }

  /** Every request read is a job or has been rejected with an answer, but for the one in progress. */
  ghost predicate RequestsTaken(requests: seq<Frame>, done: int, jobs: seq<S.Job>, frames: seq<Frame>) {
    forall i {:trigger requests[i]} :: 0 <= i < done && i < |requests| ==>
      HasJob(jobs, requests[i].header.sequenceNumber) || HasAnswer(frames, requests[i].header.sequenceNumber)
  }

  /** Every job that has responded has its frame. */
  ghost predicate JobsFramed(v: S.State) {
    && |v.origins| == |v.frames|
    && forall j {:trigger v.jobs[j]} :: 0 <= j < |v.jobs| && v.jobs[j].attempts > 0 ==> HasFrame(v, j)
  }

  predicate ReaderFlows(requests: seq<Frame>, v: S.State) {
    && (v.reader == S.ReadingHeader || Busy(v)) && !v.lost
    && v.requestsRead <= |requests|
    && (Busy(v) ==>
          && 0 < v.requestsRead
          && v.rejecting.sequenceNumber == requests[v.requestsRead - 1].header.sequenceNumber)
  }

  ghost predicate ServerFlows(requests: seq<Frame>, v: S.State) {
    && AllSent(v.attempts)
    && ReaderFlows(requests, v)
    && RequestsTaken(requests, v.requestsRead - Bit(Busy(v)), v.jobs, v.frames)
    && JobsFramed(v)
  }

  /** How many responses the receiver has looked up. */
  function LookedUp(phase: C.Phase, toClient: nat): nat {
    if phase == C.GotHeader then toClient / 2 else (toClient + 1) / 2
  }

  ghost predicate RepliesFlow(c: C.State, frames: seq<Frame>, toClient: nat) {
    && toClient <= 2 * |frames|
    && forall i {:trigger frames[i]} :: 0 <= i < LookedUp(c.phase, toClient) && i < |frames| ==>
         frames[i].header.sequenceNumber !in c.tables.pending
  }

  ghost predicate Flows(env: Env, s: State) {
    && Inv(env, s)
    && ClientFlows(env, s.client)
    && ServerFlows(Begun(s.client.attempts), s.server)
    && RepliesFlow(s.client, s.server.frames, s.toClient)
  }

  // ----- the client's steps keep it -----

  lemma EncodeKeepsConsecutive(c: C.State)
    requires C.TablesInv(c) && C.SenderInv(c) && C.AtStage(c, C.Encoding)
    requires AllSent(c.attempts) && Consecutive(c.attempts, C.EncodedBelow(c))
    ensures
      var n := C.EncodeSucceeds(c, Sent);
      AllSent(n.attempts) && Consecutive(n.attempts, C.EncodedBelow(n))
  {
    var n := C.EncodeSucceeds(c, Sent);
    assert C.EncodedBelow(n) == C.EncodedBelow(c) + 1;
    assert c.header.sequenceNumber == C.EncodedBelow(c);
    assert n.attempts == c.attempts + [Attempt(C.Request(c), Sent)];
  }

  lemma SenderKeepsAttempts(c: C.State, e: C.Event)
    requires C.Enabled(c, e) && !e.EncodeCall? && C.BySender(e)
    ensures C.Apply(c, e).attempts == c.attempts && C.EncodedBelow(C.Apply(c, e)) == C.EncodedBelow(c)
  {
  }

  lemma OthersKeepAttempts(c: C.State, e: C.Event)
    requires C.Enabled(c, e) && !C.BySender(e) && Receiving(c)
    ensures C.Apply(c, e).attempts == c.attempts && C.EncodedBelow(C.Apply(c, e)) == C.EncodedBelow(c)
  {
  }

  lemma SenderKeepsPhase(env: Env, c: C.State, e: C.Event)
    requires C.Enabled(c, e) && C.BySender(e) && Healthy(env, AtClient(e))
    requires Receiving(c) && StageOk(c)
    ensures Receiving(C.Apply(c, e)) && StageOk(C.Apply(c, e))
  {
  }

  lemma OthersKeepPhase(c: C.State, e: C.Event)
    requires C.Enabled(c, e) && !C.BySender(e) && Receiving(c) && StageOk(c)
    ensures Receiving(C.Apply(c, e)) || C.Ending(C.Apply(c, e))
    ensures StageOk(C.Apply(c, e))
  {
  }

  lemma NameStays(c: C.State, e: C.Event, id: C.CallId)
    requires C.Enabled(c, e) && id in c.calls
    ensures id in C.Apply(c, e).calls && C.Apply(c, e).calls[id].name == c.calls[id].name
  {
    if C.BySender(e) {
      SenderStepCall(c, e, id);
    } else if e.Claim? {
      ClaimStepCall(c, id);
    } else if e.DecodeOutput? {
      OutputStepCall(c, e.body, id);
    } else {
      OtherStepCall(c, e, id);
    }
  }

  lemma NamesStay(env: Env, c: C.State, e: C.Event)
    requires C.Enabled(c, e) && Healthy(env, AtClient(e)) && NamesFound(env, c)
    ensures NamesFound(env, C.Apply(c, e))
  {
    var n := C.Apply(c, e);
    ClientStepAsked(c, e);
    forall id | id in n.calls ensures SearchService(env.services, n.calls[id].name).Found? {
      if id in c.calls {
        NameStays(c, e, id);
      } else {
        ClientStepNewCall(c, e, id);
      }
    }
  }

  lemma ClientKeepsItsFlows(env: Env, c: C.State, e: C.Event, n: C.State)
    requires C.TablesInv(c) && C.SenderInv(c) && ClientFlows(env, c)
    requires C.Enabled(c, e) && Healthy(env, AtClient(e)) && n == C.Apply(c, e) && Receiving(n)
    ensures ClientFlows(env, n)
  {
    if e.EncodeCall? {
      EncodeKeepsConsecutive(c);
    } else if C.BySender(e) {
      SenderKeepsAttempts(c, e);
    } else {
      OthersKeepAttempts(c, e);
    }
    if C.BySender(e) {
      SenderKeepsPhase(env, c, e);
    } else {
      OthersKeepPhase(c, e);
    }
    NamesStay(env, c, e);
  }

  /** Where the receiver is, and what is pending. */
  lemma SenderStepPending(c: C.State, e: C.Event)
    requires C.Enabled(c, e) && C.BySender(e)
    ensures C.Apply(c, e).phase == c.phase
    ensures forall k :: k in C.Apply(c, e).tables.pending ==> k in c.tables.pending || k == c.tables.next
  {
  }

  lemma ClientStepPending(c: C.State, e: C.Event)
    requires C.Enabled(c, e) && !MovesReceiver(e)
    ensures C.Apply(c, e).phase == c.phase || !Receiving(C.Apply(c, e))
    ensures forall k :: k in C.Apply(c, e).tables.pending ==> k in c.tables.pending || k == c.tables.next
  {
    if C.BySender(e) {
      SenderStepPending(c, e);
    }
  }

  lemma ReadKeepsReplies(c: C.State, server: S.State, toClient: nat, h: MessageHeader)
    requires ResponseInv(c, server, toClient) && RepliesFlow(c, server.frames, toClient)
    requires c.phase == C.AwaitHeader && toClient / 2 < |server.frames|
    ensures RepliesFlow(C.ReadHeader(c, h), server.frames, toClient + 1)
  {
  }

  lemma ClaimKeepsReplies(c: C.State, server: S.State, toClient: nat)
    requires ResponseInv(c, server, toClient) && RepliesFlow(c, server.frames, toClient)
    requires C.PendingExist(c) && c.phase == C.GotHeader
    ensures RepliesFlow(C.ClaimReply(c), server.frames, toClient)
  {
  }

  lemma BodyKeepsReplies(c: C.State, server: S.State, toClient: nat, body: Value)
    requires ResponseInv(c, server, toClient) && RepliesFlow(c, server.frames, toClient)
    ensures c.phase == C.Discarding ==> RepliesFlow(C.Discard(c, true), server.frames, toClient + 1)
    ensures c.phase == C.FillingOutput && C.Claims(c, c.claim) ==>
              RepliesFlow(C.FillOutput(c, Some(body)), server.frames, toClient + 1)
    ensures c.phase == C.Finishing && !c.stop && C.Claims(c, c.claim) ==>
              RepliesFlow(C.FinishClaimed(c), server.frames, toClient)
  {
  }

  lemma OthersKeepReplies(env: Env, s: State, e: C.Event)
    requires C.TablesInv(s.client) && ServerInv(env, s.client.asked, s.server)
    requires RepliesFlow(s.client, s.server.frames, s.toClient)
    requires C.Enabled(s.client, e) && Receiving(C.Apply(s.client, e)) && !MovesReceiver(e)
    ensures RepliesFlow(C.Apply(s.client, e), s.server.frames, s.toClient)
  {
    ClientStepPending(s.client, e);
    forall i | 0 <= i < |s.server.frames| ensures s.server.frames[i].header.sequenceNumber != s.client.tables.next {
      assert Explained(env, s.client.asked, s.server.frames[i]);
    }
  }

  lemma ReceiverKeepsReplies(env: Env, s: State, e: C.Event, n: C.State)
    requires ResponseInv(s.client, s.server, s.toClient) && RepliesFlow(s.client, s.server.frames, s.toClient)
    requires ClientAllowed(env, s, e) && n == C.Apply(s.client, e) && MovesReceiver(e)
    requires Receiving(s.client) && Receiving(n)
    ensures RepliesFlow(n, s.server.frames, s.toClient + Bit(ClientReads(e)))
  {
    match e
    case DecodeHeader(h) =>
      DecodeHeaderKeepsResponses(env, s.client, s.server, s.toClient, h);
      ReadKeepsReplies(s.client, s.server, s.toClient, h);
    case Claim => ClaimKeepsReplies(s.client, s.server, s.toClient);
    case DiscardBody(ok) =>
      if ok {
        BodyKeepsReplies(s.client, s.server, s.toClient, "");
      }
    case DecodeOutput(body) =>
      if body.Some? {
        BodyKeepsReplies(s.client, s.server, s.toClient, body.value);
      }
    case FinishClaim => BodyKeepsReplies(s.client, s.server, s.toClient, "");
  }

  lemma MoreRequestsKeepFlows(requests: seq<Frame>, more: seq<Frame>, v: S.State)
    requires ServerFlows(requests, v) && requests <= more
    ensures ServerFlows(more, v)
  {
  }

  lemma ClientKeepsAllReplies(env: Env, s: State, e: C.Event, n: C.State)
    requires C.TablesInv(s.client) && ServerInv(env, s.client.asked, s.server)
    requires ResponseInv(s.client, s.server, s.toClient) && RepliesFlow(s.client, s.server.frames, s.toClient)
    requires ClientAllowed(env, s, e) && n == C.Apply(s.client, e) && Receiving(s.client) && Receiving(n)
    ensures RepliesFlow(n, s.server.frames, s.toClient + Bit(ClientReads(e)))
  {
    if MovesReceiver(e) {
      ReceiverKeepsReplies(env, s, e, n);
    } else {
      OthersKeepReplies(env, s, e);
    }
  }

  lemma ClientKeepsParts(env: Env, s: State, e: C.Event, n: C.State)
    requires C.TablesInv(s.client) && C.SenderInv(s.client) && ServerInv(env, s.client.asked, s.server)
    requires ResponseInv(s.client, s.server, s.toClient) && RepliesFlow(s.client, s.server.frames, s.toClient)
    requires ClientFlows(env, s.client) && ServerFlows(Begun(s.client.attempts), s.server)
    requires ClientAllowed(env, s, e) && Healthy(env, AtClient(e)) && n == C.Apply(s.client, e) && Receiving(n)
    ensures ClientFlows(env, n) && ServerFlows(Begun(n.attempts), s.server)
    ensures RepliesFlow(n, s.server.frames, s.toClient + Bit(ClientReads(e)))
  {
    ClientKeepsItsFlows(env, s.client, e, n);
    ClientKeepsAllReplies(env, s, e, n);
    RequestsGrow(s.client, e);
    MoreRequestsKeepFlows(Begun(s.client.attempts), Begun(n.attempts), s.server);
  }

  lemma FlowsAfter(env: Env, s: State, e: C.Event, n: C.State)
    requires Inv(env, AfterClient(s, e, n))
    requires ClientFlows(env, n) && ServerFlows(Begun(n.attempts), s.server)
    requires RepliesFlow(n, s.server.frames, s.toClient + Bit(ClientReads(e)))
    ensures Flows(env, AfterClient(s, e, n))
  {
  }

  lemma ClientKeepsFlows(env: Env, s: State, e: C.Event, n: C.State)
    requires Flows(env, s) && ClientAllowed(env, s, e) && n == C.Apply(s.client, e)
    requires Healthy(env, AtClient(e)) && Receiving(n)
    ensures Flows(env, AfterClient(s, e, n))
  {
    ClientStepKeepsInv(env, s, e, n);
    ClientKeepsParts(env, s, e, n);
    FlowsAfter(env, s, e, n);
  }

  // ----- the client has met a failure -----

  /** The receiver is on its way out, and all requests have been sent. */
  ghost predicate Ended(env: Env, s: State) {
    Inv(env, s) && C.Ending(s.client) && AllSent(s.client.attempts)
  }

  lemma AllSentStays(c: C.State, e: C.Event)
    requires C.Enabled(c, e) && AllSent(c.attempts) && (e.EncodeCall? ==> e.outcome == Sent)
    ensures AllSent(C.Apply(c, e).attempts)
  {
    ClientStepAttempts(c, e);
  }

  lemma ClientKeepsEnded(env: Env, s: State, e: C.Event, n: C.State)
    requires Ended(env, s) && ClientAllowed(env, s, e) && n == C.Apply(s.client, e)
    requires Healthy(env, AtClient(e))
    ensures Ended(env, AfterClient(s, e, n))
  {
    ClientStepKeepsInv(env, s, e, n);
    C.EndingStays(s.client, e);
    AllSentStays(s.client, e);
  }

  lemma ClientEnds(env: Env, s: State, e: C.Event, n: C.State)
    requires Flows(env, s) && ClientAllowed(env, s, e) && n == C.Apply(s.client, e)
    requires Healthy(env, AtClient(e)) && !Receiving(n)
    ensures Ended(env, AfterClient(s, e, n))
  {
    ClientStepKeepsInv(env, s, e, n);
    if C.BySender(e) {
      SenderKeepsPhase(env, s.client, e);
    } else {
      OthersKeepPhase(s.client, e);
    }
    AllSentStays(s.client, e);
  }

  lemma ServerKeepsEnded(env: Env, s: State, e: S.Event, n: S.State)
    requires Ended(env, s) && ServerAllowed(env, s, e) && n == S.Apply(s.server, e)
    ensures Ended(env, AfterServer(s, e, n))
  {
    ServerStepKeepsInv(env, s, e, n);
  }

  // ----- the server's steps keep it -----

  lemma MoreJobsKeepTaken(requests: seq<Frame>, done: int, jobs: seq<S.Job>, more: seq<S.Job>, frames: seq<Frame>)
    requires RequestsTaken(requests, done, jobs, frames)
    requires |jobs| <= |more|
    requires forall j {:trigger more[j]} :: 0 <= j < |jobs| ==> more[j].request == jobs[j].request
    ensures RequestsTaken(requests, done, more, frames)
  {
    forall i | 0 <= i < done && i < |requests|
      ensures HasJob(more, requests[i].header.sequenceNumber) || HasAnswer(frames, requests[i].header.sequenceNumber)
    {
      var n := requests[i].header.sequenceNumber;
      if HasJob(jobs, n) {
        var j :| 0 <= j < |jobs| && jobs[j].request.sequenceNumber == n;
        assert more[j].request.sequenceNumber == n;
      }
    }
  }

  lemma MoreFramesKeepTaken(requests: seq<Frame>, done: int, jobs: seq<S.Job>, frames: seq<Frame>, more: seq<Frame>)
    requires RequestsTaken(requests, done, jobs, frames) && frames <= more
    ensures RequestsTaken(requests, done, jobs, more)
  {
    forall i | 0 <= i < done && i < |requests|
      ensures HasJob(jobs, requests[i].header.sequenceNumber) || HasAnswer(more, requests[i].header.sequenceNumber)
    {
      var n := requests[i].header.sequenceNumber;
      if HasAnswer(frames, n) {
        var k :| 0 <= k < |frames| && frames[k].header.sequenceNumber == n;
        assert more[k].header.sequenceNumber == n;
      }
    }
  }

  lemma ReadKeepsFlows(s: State, h: MessageHeader)
    requires RequestInv(s.client.attempts, s.client.asked, s.server, s.toServer) && C.WireInv(s.client)
    requires s.server.reader == S.ReadingHeader && Next(Requests(s), s.toServer, HeaderToken(h))
    requires ServerFlows(Begun(s.client.attempts), s.server)
    ensures ServerFlows(Begun(s.client.attempts), S.DecodeHeader(s.server, h))
  {
    HeaderKeepsRequests(s, h);
  }

  lemma SearchFinds(env: Env, c: C.State, v: S.State, toServer: nat)
    requires RequestInv(c.attempts, c.asked, v, toServer) && NamesFound(env, c) && v.reader == S.Searching
    ensures FoundOf(env, v.rejecting.serviceDotMethod) == S.FoundMethod
  {
    assert v.rejecting.serviceDotMethod == c.asked[v.rejecting.sequenceNumber].name;
  }

  lemma SearchKeepsFlows(requests: seq<Frame>, v: S.State)
    requires ServerFlows(requests, v) && v.reader == S.Searching
    ensures ServerFlows(requests, S.Search(v, S.FoundMethod))
  {
  }

  lemma DispatchKeepsFlows(requests: seq<Frame>, v: S.State, input: Value)
    requires ServerFlows(requests, v) && v.reader == S.ReadingBody
    ensures ServerFlows(requests, S.Dispatch(v, input))
  {
    var n := S.Dispatch(v, input);
    MoreJobsKeepTaken(requests, v.requestsRead - 1, v.jobs, n.jobs, v.frames);
    assert n.jobs[|v.jobs|].request.sequenceNumber == requests[v.requestsRead - 1].header.sequenceNumber;
    forall j | 0 <= j < |n.jobs| && n.jobs[j].attempts > 0 ensures HasFrame(n, j) {
      assert n.jobs[j] == v.jobs[j];
      SameFrames(v, n, j);
    }
  }

  lemma RejectKeepsFlows(requests: seq<Frame>, v: S.State)
    requires ServerFlows(requests, v) && v.reader == S.ReadingBody
    ensures ServerFlows(requests, S.BodyFails(v, false))
  {
    JobsStayFramed(v, S.BodyFails(v, false));
  }

  lemma JobsStayFramed(v: S.State, n: S.State)
    requires JobsFramed(v) && n.origins == v.origins && n.frames == v.frames && |n.jobs| == |v.jobs|
    requires forall j {:trigger n.jobs[j]} :: 0 <= j < |v.jobs| ==> n.jobs[j].attempts == v.jobs[j].attempts
    ensures JobsFramed(n)
  {
    forall j | 0 <= j < |n.jobs| && n.jobs[j].attempts > 0 ensures HasFrame(n, j) {
      assert v.jobs[j].attempts == n.jobs[j].attempts;
      SameFrames(v, n, j);
    }
  }

  lemma SameFrames(v: S.State, n: S.State, j: nat)
    requires HasFrame(v, j) && n.origins == v.origins
    ensures HasFrame(n, j)
  {
  }

  lemma WriteKeepsFramed(v: S.State)
    requires JobsFramed(v) && S.Wants(v, v.lock)
    ensures JobsFramed(S.WriteBody(v, Sent))
  {
    var n := S.WriteBody(v, Sent);
    assert n.origins[|v.origins|] == S.Origin(v.lock);
    forall j | 0 <= j < |n.jobs| && n.jobs[j].attempts > 0 ensures HasFrame(n, j) {
      if v.jobs[j].attempts > 0 {
        assert HasFrame(v, j);
        var i :| 0 <= i < |v.origins| && v.origins[i] == Some(j);
        assert n.origins[i] == Some(j);
      }
    }
  }

  lemma WriteKeepsTaken(requests: seq<Frame>, v: S.State)
    requires ServerFlows(requests, v) && S.Wants(v, v.lock)
    ensures
      var n := S.WriteBody(v, Sent);
      ReaderFlows(requests, n) && RequestsTaken(requests, n.requestsRead - Bit(Busy(n)), n.jobs, n.frames)
  {
    var n, done := S.WriteBody(v, Sent), v.requestsRead - Bit(Busy(v));
    MoreJobsKeepTaken(requests, done, v.jobs, n.jobs, v.frames);
    MoreFramesKeepTaken(requests, done, n.jobs, v.frames, n.frames);
    if v.lock.TheReader? {
      assert n.frames[|v.frames|].header.sequenceNumber == requests[done].header.sequenceNumber;
    }
  }

  lemma WriteKeepsFlows(requests: seq<Frame>, v: S.State)
    requires ServerFlows(requests, v) && S.Wants(v, v.lock)
    ensures ServerFlows(requests, S.WriteBody(v, Sent))
  {
    WriteKeepsTaken(requests, v);
    WriteKeepsFramed(v);
  }

  /** The steps that touch no attempt of a job and nothing written. */
  lemma OthersKeepServerFlows(env: Env, requests: seq<Frame>, v: S.State, e: S.Event)
    requires ServerFlows(requests, v) && S.Enabled(v, e) && Healthy(env, AtServer(e))
    requires !MovesReader(e) && !e.BodyWrite?
    ensures ServerFlows(requests, S.Apply(v, e))
  {
    var n := S.Apply(v, e);
    QuietJobs(env, v, e);
    MoreJobsKeepTaken(requests, v.requestsRead - Bit(Busy(v)), v.jobs, n.jobs, v.frames);
    JobsStayFramed(v, n);
  }

  lemma QuietJobs(env: Env, v: S.State, e: S.Event)
    requires S.Enabled(v, e) && Healthy(env, AtServer(e)) && !MovesReader(e) && !e.BodyWrite?
    requires v.reader != S.Waiting
    ensures
      var n := S.Apply(v, e);
      && n.origins == v.origins && n.frames == v.frames && n.attempts == v.attempts && |n.jobs| == |v.jobs|
      && n.reader == v.reader && n.lost == v.lost && n.requestsRead == v.requestsRead && n.rejecting == v.rejecting
      && forall j {:trigger n.jobs[j]} :: 0 <= j < |v.jobs| ==>
           n.jobs[j].attempts == v.jobs[j].attempts && n.jobs[j].request == v.jobs[j].request
  {
  }

  lemma MoreFramesKeepReplies(c: C.State, frames: seq<Frame>, more: seq<Frame>, toClient: nat)
    requires RepliesFlow(c, frames, toClient) && frames <= more
    ensures RepliesFlow(c, more, toClient)
  {
  }

  lemma ReaderKeepsItsFlows(env: Env, s: State, e: S.Event, n: S.State)
    requires RequestInv(s.client.attempts, s.client.asked, s.server, s.toServer) && C.WireInv(s.client)
    requires NamesFound(env, s.client) && ServerFlows(Begun(s.client.attempts), s.server)
    requires ServerAllowed(env, s, e) && Healthy(env, AtServer(e)) && n == S.Apply(s.server, e)
    requires MovesReader(e)
    ensures ServerFlows(Begun(s.client.attempts), n)
  {
    match e
    case Header(h) => AlignedHeader(env, s, h); ReadKeepsFlows(s, h);
    case SearchEnds(found) =>
      SearchFinds(env, s.client, s.server, s.toServer);
      SearchKeepsFlows(Begun(s.client.attempts), s.server);
    case Body(input) => DispatchKeepsFlows(Begun(s.client.attempts), s.server, input);
    case BodyError(lost) => RejectKeepsFlows(Begun(s.client.attempts), s.server);
  }

  lemma JobsKeepItsFlows(env: Env, requests: seq<Frame>, v: S.State, e: S.Event)
    requires ServerFlows(requests, v) && S.Enabled(v, e) && Healthy(env, AtServer(e)) && !MovesReader(e)
    ensures ServerFlows(requests, S.Apply(v, e))
  {
    if e.BodyWrite? {
      WriteKeepsFlows(requests, v);
    } else {
      OthersKeepServerFlows(env, requests, v, e);
    }
  }

  lemma ServerKeepsFlows(env: Env, s: State, e: S.Event, n: S.State)
    requires Flows(env, s) && ServerAllowed(env, s, e) && n == S.Apply(s.server, e)
    requires Healthy(env, AtServer(e))
    ensures Flows(env, AfterServer(s, e, n))
  {
    ServerStepKeepsInv(env, s, e, n);
    if MovesReader(e) {
      ReaderKeepsItsFlows(env, s, e, n);
    } else {
      JobsKeepItsFlows(env, Begun(s.client.attempts), s.server, e);
    }
    ServerKeepsServerInv(env, s, e);
    MoreFramesKeepReplies(s.client, s.server.frames, n.frames, s.toClient);
  }

  // ----- runs -----

  lemma InitFlows(env: Env, limit: nat)
    ensures Flows(env, Init(limit))
  {
    C.InitInv();
    S.InitInv(limit);
    InitJoint(env, limit);
  }

  ghost predicate Kept(env: Env, s: State) {
    Flows(env, s) || Ended(env, s)
  }

  lemma ClientKeeps(env: Env, s: State, e: C.Event, n: C.State)
    requires Kept(env, s) && ClientAllowed(env, s, e) && n == C.Apply(s.client, e) && Healthy(env, AtClient(e))
    ensures Kept(env, AfterClient(s, e, n))
  {
    if Ended(env, s) {
      ClientKeepsEnded(env, s, e, n);
    } else if Receiving(n) {
      ClientKeepsFlows(env, s, e, n);
    } else {
      ClientEnds(env, s, e, n);
    }
  }

  lemma ServerKeeps(env: Env, s: State, e: S.Event, n: S.State)
    requires Kept(env, s) && ServerAllowed(env, s, e) && n == S.Apply(s.server, e) && Healthy(env, AtServer(e))
    ensures Kept(env, AfterServer(s, e, n))
  {
    if Ended(env, s) {
      ServerKeepsEnded(env, s, e, n);
    } else {
      ServerKeepsFlows(env, s, e, n);
    }
  }

  lemma ClientSteps(env: Env)
    ensures forall x, c, n ::
              Kept(env, x) && Healthy(env, AtClient(c)) && ClientAllowed(env, x, c) ==>
                n == C.Apply(x.client, c) ==> Kept(env, AfterClient(x, c, n))
  {
    forall x, c, n | Kept(env, x) && Healthy(env, AtClient(c)) && ClientAllowed(env, x, c)
                     && n == C.Apply(x.client, c)
      ensures Kept(env, AfterClient(x, c, n))
    {
      ClientKeeps(env, x, c, n);
    }
  }

  lemma ServerSteps(env: Env)
    ensures forall x, v, n ::
              Kept(env, x) && Healthy(env, AtServer(v)) && ServerAllowed(env, x, v) ==>
                n == S.Apply(x.server, v) ==> Kept(env, AfterServer(x, v, n))
  {
    forall x, v, n | Kept(env, x) && Healthy(env, AtServer(v)) && ServerAllowed(env, x, v)
                     && n == S.Apply(x.server, v)
      ensures Kept(env, AfterServer(x, v, n))
    {
      ServerKeeps(env, x, v, n);
    }
  }

  lemma RunFlows(env: Env, limit: nat, events: seq<Event>)
    requires HealthyRun(env, limit, events)
    ensures Kept(env, Run(env, Init(limit), events))
  {
    InitFlows(env, limit);
    ClientSteps(env);
    ServerSteps(env);
    RunKeeps(env, x => Kept(env, x), e => Healthy(env, e), Init(limit), events);
  }

  // ----- what a quiet state looks like -----

  lemma NoClientStep(env: Env, s: State, e: C.Event)
    requires Quiet(env, s) && Progress(env, AtClient(e))
    ensures !ClientAllowed(env, s, e)
  {
    assert !Allowed(env, s, AtClient(e));
  }

  lemma NoServerStep(env: Env, s: State, e: S.Event)
    requires Quiet(env, s) && Progress(env, AtServer(e))
    ensures !ServerAllowed(env, s, e)
  {
    assert !Allowed(env, s, AtServer(e));
  }

  lemma SenderStepIsHealthy(env: Env, s: State)
    requires C.Enabled(s.client, C.SenderStep(s.client)) && !EncodeAll(s.client.attempts).broken
    ensures
      var e := C.SenderStep(s.client);
      Progress(env, AtClient(e)) && ClientAllowed(env, s, e)
  {
  }

  lemma SenderCanStep(c: C.State)
    requires C.Inv(c) && c.holder.Sender?
    ensures C.Enabled(c, C.SenderStep(c)) && Possible(c.attempts)
  {
    C.FinishHasRoom(c);
    C.SenderIsFree(c);
  }

  lemma NobodySendsRequests(env: Env, s: State)
    requires C.Inv(s.client) && AllSent(s.client.attempts) && Quiet(env, s)
    ensures !s.client.holder.Sender?
  {
    if s.client.holder.Sender? {
      SenderCanStep(s.client);
      WholeStream(s.client.attempts);
      SenderStepIsHealthy(env, s);
      NoClientStep(env, s, C.SenderStep(s.client));
    }
  }

  lemma NoClaimIsDue(env: Env, s: State)
    requires C.TablesInv(s.client) && Quiet(env, s)
    ensures s.client.phase != C.GotHeader
  {
    NoClientStep(env, s, C.Claim);
  }

  lemma NoCallIsHeld(env: Env, s: State)
    requires C.Inv(s.client) && Quiet(env, s)
    ensures s.client.phase != C.Finishing
  {
    C.FinishHasRoom(s.client);
    NoClientStep(env, s, C.FinishClaim);
  }

  lemma NoBodyIsDue(env: Env, s: State)
    requires C.ReceiverInv(s.client) && Quiet(env, s)
    requires ResponseInv(s.client, s.server, s.toClient) && Responses(s) == Tokens(s.server.frames)
    ensures s.client.phase != C.Discarding && s.client.phase != C.FillingOutput
  {
    var i := s.toClient / 2;
    if s.client.phase == C.Discarding {
      TokenAt(s.server.frames, i);
      NoClientStep(env, s, C.DiscardBody(true));
    } else if s.client.phase == C.FillingOutput {
      TokenAt(s.server.frames, i);
      NoClientStep(env, s, C.DecodeOutput(Some(s.server.frames[i].body)));
    }
  }

  lemma NoReplyIsDue(env: Env, s: State)
    requires s.client.phase == C.AwaitHeader && Quiet(env, s)
    requires ResponseInv(s.client, s.server, s.toClient) && Responses(s) == Tokens(s.server.frames)
    ensures s.toClient >= 2 * |s.server.frames|
  {
    var i := s.toClient / 2;
    if i < |s.server.frames| {
      TokenAt(s.server.frames, i);
      NoClientStep(env, s, C.DecodeHeader(s.server.frames[i].header));
    }
  }

  lemma ReceiverIsIdle(env: Env, s: State)
    requires C.Inv(s.client) && Receiving(s.client) && Quiet(env, s)
    requires ResponseInv(s.client, s.server, s.toClient) && Responses(s) == Tokens(s.server.frames)
    ensures s.client.phase == C.AwaitHeader && s.toClient >= 2 * |s.server.frames|
  {
    NoClaimIsDue(env, s);
    NoCallIsHeld(env, s);
    NoBodyIsDue(env, s);
    NoReplyIsDue(env, s);
  }

  lemma NobodyWrites(env: Env, s: State)
    requires Quiet(env, s)
    ensures !(S.Wants(s.server, s.server.lock) && !s.server.headerWritten && !s.server.wire.broken)
    ensures !(S.Wants(s.server, s.server.lock) && s.server.headerWritten)
  {
    NoServerStep(env, s, S.HeaderWrite);
    NoServerStep(env, s, S.BodyWrite(Sent));
  }

  lemma SendMutexIsFree(env: Env, s: State)
    requires S.LockInv(s.server) && S.WireInv(s.server) && AllSent(s.server.attempts) && Quiet(env, s)
    ensures s.server.lock == S.Nobody && Responses(s) == Tokens(s.server.frames)
  {
    WholeStream(s.server.attempts);
    NobodyWrites(env, s);
  }

  lemma NoSearchIsDue(env: Env, s: State)
    requires Quiet(env, s)
    ensures s.server.reader != S.Searching
  {
    NoServerStep(env, s, S.SearchEnds(FoundOf(env, s.server.rejecting.serviceDotMethod)));
  }

  lemma NoInputIsDue(env: Env, s: State)
    requires RequestInv(s.client.attempts, s.client.asked, s.server, s.toServer)
    requires Requests(s) == Tokens(Begun(s.client.attempts)) && Quiet(env, s)
    ensures s.server.reader != S.ReadingBody
  {
    var requests, read := Begun(s.client.attempts), s.server.requestsRead;
    if s.server.reader == S.ReadingBody {
      TokenAt(requests, read - 1);
      NoServerStep(env, s, S.Body(requests[read - 1].body));
    }
  }

  lemma NoRequestIsDue(env: Env, s: State)
    requires RequestInv(s.client.attempts, s.client.asked, s.server, s.toServer)
    requires Requests(s) == Tokens(Begun(s.client.attempts)) && Quiet(env, s)
    requires s.server.reader == S.ReadingHeader && !s.server.lost
    ensures s.server.requestsRead >= |Begun(s.client.attempts)|
  {
    var requests, read := Begun(s.client.attempts), s.server.requestsRead;
    if read < |requests| {
      TokenAt(requests, read);
      NoServerStep(env, s, S.Header(requests[read].header));
    }
  }

  lemma EveryRequestIsRead(env: Env, s: State)
    requires RequestInv(s.client.attempts, s.client.asked, s.server, s.toServer) && AllSent(s.client.attempts)
    requires ServerFlows(Begun(s.client.attempts), s.server) && Quiet(env, s) && s.server.lock == S.Nobody
    ensures RequestsTaken(Begun(s.client.attempts), |s.client.attempts|, s.server.jobs, s.server.frames)
  {
    WholeStream(s.client.attempts);
    AllBegun(s.client.attempts);
    NoSearchIsDue(env, s);
    NoInputIsDue(env, s);
    NobodySends(env, s, S.TheReader);
    NoRequestIsDue(env, s);
  }

  lemma WorkerIsDone(env: Env, s: State, j: nat)
    requires S.IsJob(s.server, j) && Quiet(env, s)
    requires JobKnown(env, s.client.asked, s.server.jobs[j]) && NamesFound(env, s.client)
    ensures s.server.jobs[j].worker != S.Working
  {
    var b := s.server.jobs[j];
    assert b.request.serviceDotMethod == s.client.asked[b.request.sequenceNumber].name;
    var r := MethodOutcome(env, b.request.serviceDotMethod, b.input);
    NoServerStep(env, s, S.MethodEnds(j, r.value));
  }

  lemma NobodyMeets(env: Env, s: State, j: nat)
    requires S.IsJob(s.server, j) && Quiet(env, s)
    ensures !(s.server.jobs[j].worker == S.Offering && s.server.jobs[j].watcher == S.Selecting)
    ensures !(s.server.jobs[j].worker == S.Met && s.server.jobs[j].result.Some?)
  {
    NoServerStep(env, s, S.Rendezvous(j));
    NoServerStep(env, s, S.SetHeader(j));
  }

  lemma NobodySends(env: Env, s: State, who: S.Who)
    requires Quiet(env, s) && s.server.lock == S.Nobody
    ensures !S.Wants(s.server, who)
  {
    NoServerStep(env, s, S.TakeSendMutex(who));
  }

  lemma EveryJobHasResponded(env: Env, s: State, j: nat)
    requires S.IsJob(s.server, j) && S.JobOk(s.server.jobs[j]) && Quiet(env, s)
    requires s.server.lock == S.Nobody
    requires JobKnown(env, s.client.asked, s.server.jobs[j]) && NamesFound(env, s.client)
    ensures s.server.jobs[j].attempts == 1
  {
    WorkerIsDone(env, s, j);
    NobodyMeets(env, s, j);
    NobodySends(env, s, S.WorkerOf(j));
    NobodySends(env, s, S.WatcherOf(j));
  }

  /** A job that has responded has given its request an answer. */
  lemma JobIsAnswered(v: S.State, j: nat)
    requires JobsFramed(v) && S.FramesInv(v) && S.JobsInv(v) && S.IsJob(v, j) && v.jobs[j].attempts == 1
    ensures HasAnswer(v.frames, v.jobs[j].request.sequenceNumber)
  {
    assert HasFrame(v, j);
    var i :| 0 <= i < |v.origins| && v.origins[i] == Some(j);
    assert v.frames[i] == S.Response(v.jobs[j]) && S.JobOk(v.jobs[j]);
    assert v.frames[i].header.sequenceNumber == v.jobs[j].request.sequenceNumber;
  }

  lemma EveryRequestIsAnswered(env: Env, s: State, i: nat)
    requires Flows(env, s) && Quiet(env, s) && i < |s.client.attempts|
    ensures HasAnswer(s.server.frames, i + 1)
  {
    SendMutexIsFree(env, s);
    EveryRequestIsRead(env, s);
    AllBegun(s.client.attempts);
    assert s.client.attempts[i].frame.header.sequenceNumber == i + 1;
    assert Begun(s.client.attempts)[i].header.sequenceNumber == i + 1;
    if !HasAnswer(s.server.frames, i + 1) {
      var j :| 0 <= j < |s.server.jobs| && s.server.jobs[j].request.sequenceNumber == i + 1;
      EveryJobHasResponded(env, s, j);
      JobIsAnswered(s.server, j);
    }
  }

  lemma NothingIsPending(c: C.State, frames: seq<Frame>, toClient: nat, n: nat)
    requires C.TablesInv(c) && RepliesFlow(c, frames, toClient)
    requires c.phase == C.AwaitHeader && toClient >= 2 * |frames|
    requires 1 <= n < c.tables.next ==> HasAnswer(frames, n)
    ensures n !in c.tables.pending
  {
    if 1 <= n < c.tables.next {
      var i :| 0 <= i < |frames| && frames[i].header.sequenceNumber == n;
    }
  }

  lemma CallerHasReturned(env: Env, s: State, id: C.CallId)
    requires C.Inv(s.client) && Receiving(s.client) && s.client.phase == C.AwaitHeader && Quiet(env, s)
    requires s.client.holder == C.Free && s.client.tables.pending == map[]
    requires id in s.client.calls
    ensures s.client.calls[id].caller.Returned?
  {
    assert C.CallInv(s.client, id);
    NoClientStep(env, s, C.Lock(id));
    NoClientStep(env, s, C.DeleteOwn(id));
    NoClientStep(env, s, C.ReceiveFinish(id));
  }

  lemma FlowingHasReturned(env: Env, s: State, id: C.CallId)
    requires Flows(env, s) && Quiet(env, s) && id in s.client.calls
    ensures s.client.calls[id].caller.Returned?
  {
    NobodySendsRequests(env, s);
    SendMutexIsFree(env, s);
    ReceiverIsIdle(env, s);
    forall n: nat ensures n !in s.client.tables.pending {
      if 1 <= n < s.client.tables.next {
        EveryRequestIsAnswered(env, s, n - 1);
      }
      NothingIsPending(s.client, s.server.frames, s.toClient, n);
    }
    assert s.client.tables.pending == map[];
    CallerHasReturned(env, s, id);
  }

  // ----- and if the client has ended -----

  lemma ShutdownStepIsHealthy(env: Env, s: State, k: nat)
    requires C.Enabled(s.client, C.ShutdownStep(s.client, k)) && C.ShuttingDown(s.client)
    requires !EncodeAll(s.client.attempts).broken
    ensures
      var e := C.ShutdownStep(s.client, k);
      Progress(env, AtClient(e)) && ClientAllowed(env, s, e)
  {
  }

  lemma ShutdownIsOver(env: Env, s: State)
    requires C.Inv(s.client) && AllSent(s.client.attempts) && Quiet(env, s)
    ensures !C.ShuttingDown(s.client)
  {
    if C.ShuttingDown(s.client) {
      WholeStream(s.client.attempts);
      var k: nat :| s.client.todo != {} ==> k in s.client.todo;
      C.ShutdownAdvances(s.client, k);
      ShutdownStepIsHealthy(env, s, k);
      NoClientStep(env, s, C.ShutdownStep(s.client, k));
    }
  }

  lemma EndedIsStopped(env: Env, s: State)
    requires C.Inv(s.client) && C.Ending(s.client) && AllSent(s.client.attempts) && Quiet(env, s)
    ensures s.client.phase == C.Stopped && s.client.holder == C.Free
  {
    NoCallIsHeld(env, s);
    ShutdownIsOver(env, s);
    NobodySendsRequests(env, s);
  }

  lemma EndedHasReturned(env: Env, s: State, id: C.CallId)
    requires C.Inv(s.client) && Quiet(env, s) && s.client.phase == C.Stopped && s.client.holder == C.Free
    requires id in s.client.calls
    ensures s.client.calls[id].caller.Returned?
  {
    assert C.CallInv(s.client, id);
    NoClientStep(env, s, C.Lock(id));
    NoClientStep(env, s, C.DeleteOwn(id));
    NoClientStep(env, s, C.ReceiveFinish(id));
  }

  /** If the server reads on, every write is flushed and every call names a method that exists, a run
      that is left with no step but new calls, Close and contexts has brought every call back, even
      if no timer fires. Whatever the client fails to read or decode only brings the end sooner. */
  lemma EveryCallReturns(env: Env, limit: nat, events: seq<Event>)
    requires HealthyRun(env, limit, events)
    requires Quiet(env, Run(env, Init(limit), events))
    ensures
      var s := Run(env, Init(limit), events);
      forall id :: id in s.client.calls ==> s.client.calls[id].caller.Returned?
  {
    var s := Run(env, Init(limit), events);
    RunFlows(env, limit, events);
    forall id | id in s.client.calls ensures s.client.calls[id].caller.Returned? {
      if Flows(env, s) {
        FlowingHasReturned(env, s, id);
      } else {
        EndedIsStopped(env, s);
        EndedHasReturned(env, s, id);
      }
    }
  }
}
