/**
  Every run of EndToEnd without new calls and Close is finite: each step of callers, receiver, reader,
  workers and watchers, each decode and each write, whatever it meets, uses something up. With
  Quiescence this means that every call returns.
 */
module Termination {
  import opened Wrappers
  import opened Coder
  import opened EndToEnd
  import opened Quiescence
  import C = CallProtocol
  import S = Connection

  // ----- weights -----

  /** A response token lets the receiver take so many steps at most. */
  const RESPONSE_TOKEN: nat := 4

  /** A request token lets the server take so many steps at most, those of the response included. */
  const REQUEST_TOKEN: nat := 9 + 2 * RESPONSE_TOKEN

  const REQUEST: nat := 2 * REQUEST_TOKEN

  function CallerRank(caller: C.Caller): nat {
    match caller
    case Queued => 12 + REQUEST
    case Sending => 3
    case Selecting => 2
    case GivingUp => 1
    case Returned(_) => 0
  }

  function StageRank(c: C.State): nat {
    if !c.holder.Sender? then 0
    else match c.stage
      case Adding => 8 + REQUEST
      case FillingHeader => 6 + REQUEST
      case Encoding => 5 + REQUEST
      case Retracting => 4
      case Failing => 3
      case Refused => 1
  }

  function PhaseRank(phase: C.Phase): nat {
    match phase
    case GotHeader => 7
    case Discarding => 6
    case FillingOutput => 6
    case Finishing => 5
    case AwaitHeader => 4
    case Stopping => 3
    case StopLocked => 2
    case Draining => 1
    case Stopped => 0
  }

  /** The entries that terminateCalls may still have to finish. */
  function Entries(c: C.State): nat {
    if c.phase == C.Draining || c.phase == C.Stopped then |c.todo| else |c.tables.pending|
  }

  /** The ranks of the callers of these calls. */
  function Callers(ids: seq<C.CallId>, calls: map<C.CallId, C.Call>): nat {
    if ids == [] then 0
    else
      var id := ids[|ids| - 1];
      Callers(ids[..|ids| - 1], calls) + if id in calls then CallerRank(calls[id].caller) else 0
  }

  function ClientMeasure(ids: seq<C.CallId>, c: C.State): nat {
    Callers(ids, c.calls) + StageRank(c) + PhaseRank(c.phase) + Entries(c)
  }

  const JobWeight: S.Job -> nat := (b: S.Job) => S.Rank(b) + if b.attempts == 0 then 2 * RESPONSE_TOKEN else 0

  function ReaderRank(reader: S.Reader): nat {
    match reader
    case Searching => 7 + 2 * RESPONSE_TOKEN
    case ReadingBody => 6 + 2 * RESPONSE_TOKEN
    case Rejecting => 5 + 2 * RESPONSE_TOKEN
    case ReadingHeader => 2
    case Waiting => 1
    case _ => 0
  }

  function LockRank(v: S.State): nat {
    if v.lock == S.Nobody then 2 else if v.headerWritten then 0 else 1
  }

  function ServerMeasure(v: S.State): nat {
    S.Sum(v.jobs, JobWeight) + LockRank(v) + ReaderRank(v.reader)
  }

  /** All of it: what each side may do by itself, and the tokens that are still to be read. */
  function Total(ids: seq<C.CallId>, s: State): int {
    ClientMeasure(ids, s.client)
    + ServerMeasure(s.server)
    + REQUEST_TOKEN * (2 * |Begun(s.client.attempts)| - s.toServer)
    + RESPONSE_TOKEN * (2 * |s.server.frames| - s.toClient)
  }

  /** ids are these calls, each once. */
  ghost predicate Lists(ids: seq<C.CallId>, keys: set<C.CallId>) {
    && (forall id :: id in keys <==> id in ids)
    && forall i, j :: 0 <= i < j < |ids| ==> ids[i] != ids[j]
  }

  ghost predicate Enumerates(ids: seq<C.CallId>, c: C.State) {
    Lists(ids, c.calls.Keys)
  }

  // ----- the callers -----

  lemma {:induction false} CallersSame(ids: seq<C.CallId>, calls: map<C.CallId, C.Call>, n: map<C.CallId, C.Call>)
    requires forall id :: id in ids ==> id in calls && id in n && n[id].caller == calls[id].caller
    ensures Callers(ids, n) == Callers(ids, calls)
  {
    if ids != [] {
      assert forall id :: id in ids[..|ids| - 1] ==> id in ids;
      CallersSame(ids[..|ids| - 1], calls, n);
    }
  }

  /** One caller has moved. */
  lemma {:induction false} CallersUpdate(
    ids: seq<C.CallId>, calls: map<C.CallId, C.Call>, n: map<C.CallId, C.Call>, w: C.CallId)
    requires w in ids && forall i, j :: 0 <= i < j < |ids| ==> ids[i] != ids[j]
    requires forall id :: id in ids ==> id in calls && id in n && (id != w ==> n[id].caller == calls[id].caller)
    ensures Callers(ids, n) + CallerRank(calls[w].caller) == Callers(ids, calls) + CallerRank(n[w].caller)
  {
    var init, last := ids[..|ids| - 1], ids[|ids| - 1];
    assert forall id :: id in init ==> id in ids;
    if last == w {
      forall id | id in init ensures n[id].caller == calls[id].caller {
        var i :| 0 <= i < |init| && init[i] == id;
        assert ids[i] != ids[|init|];
      }
      CallersSame(init, calls, n);
    } else {
      assert w in init by {
        var i :| 0 <= i < |ids| && ids[i] == w;
        assert init[i] == w;
      }
      CallersUpdate(init, calls, n, w);
    }
  }

  /** The call whose caller a step moves. */
  function Mover(c: C.State, e: C.Event): C.CallId {
    match e
    case Lock(id) => id
    case ContextDone(id) => id
    case DeleteOwn(id) => id
    case ReceiveFinish(id) => id
    case _ => if c.holder.Sender? then c.holder.id else 0
  }

  predicate Moves(e: C.Event) {
    C.BySender(e) || e.ContextDone? || e.DeleteOwn? || e.ReceiveFinish?
  }

  lemma SenderMovesOne(c: C.State, e: C.Event, id: C.CallId)
    requires C.Enabled(c, e) && id in c.calls && C.BySender(e) && id != Mover(c, e)
    ensures id in C.Apply(c, e).calls && C.Apply(c, e).calls[id].caller == c.calls[id].caller
  {
  }

  lemma OthersMoveOne(c: C.State, e: C.Event, id: C.CallId)
    requires C.Enabled(c, e) && id in c.calls && !C.BySender(e) && (Moves(e) ==> id != Mover(c, e))
    ensures id in C.Apply(c, e).calls && C.Apply(c, e).calls[id].caller == c.calls[id].caller
  {
  }

  lemma NoNewCalls(c: C.State, e: C.Event)
    requires C.Enabled(c, e) && !e.Start?
    ensures C.Apply(c, e).calls.Keys == c.calls.Keys
  {
    if C.BySender(e) {
      SenderKeepsKeys(c, e);
    }
  }

  lemma SenderKeepsKeys(c: C.State, e: C.Event)
    requires C.Enabled(c, e) && C.BySender(e)
    ensures C.Apply(c, e).calls.Keys == c.calls.Keys
  {
  }

  lemma CallersAfter(ids: seq<C.CallId>, c: C.State, e: C.Event)
    requires C.Enabled(c, e) && Enumerates(ids, c) && !e.Start?
    ensures !Moves(e) ==> Callers(ids, C.Apply(c, e).calls) == Callers(ids, c.calls)
    ensures Moves(e) && Mover(c, e) in c.calls && Mover(c, e) in C.Apply(c, e).calls ==>
              Callers(ids, C.Apply(c, e).calls) + CallerRank(c.calls[Mover(c, e)].caller)
              == Callers(ids, c.calls) + CallerRank(C.Apply(c, e).calls[Mover(c, e)].caller)
  {
    var n := C.Apply(c, e).calls;
    NoNewCalls(c, e);
    forall id | id in ids && (Moves(e) ==> id != Mover(c, e)) ensures id in n && n[id].caller == c.calls[id].caller {
      if C.BySender(e) {
        SenderMovesOne(c, e, id);
      } else {
        OthersMoveOne(c, e, id);
      }
    }
    if !Moves(e) {
      CallersSame(ids, c.calls, n);
    } else if Mover(c, e) in c.calls {
      CallersUpdate(ids, c.calls, n, Mover(c, e));
    }
  }

  // ----- the client's steps -----

  /** A sender's step uses up `extra` and more, the sum over the other callers aside. */
  predicate Uses(c: C.State, n: C.State, w: C.CallId, extra: nat) {
    && w in c.calls && w in n.calls && PhaseRank(n.phase) == PhaseRank(c.phase)
    && CallerRank(n.calls[w].caller) + StageRank(n) + Entries(n) + extra
       < CallerRank(c.calls[w].caller) + StageRank(c) + Entries(c)
  }

  lemma LockUses(c: C.State, id: C.CallId)
    requires C.CallerIs(c, id, C.Queued) && c.holder == C.Free
    ensures Uses(c, C.LockRequest(c, id), id, 0)
  {
  }

  predicate IsSender(c: C.State, stage: C.SendStage) {
    C.AtStage(c, stage) && c.calls[c.holder.id].caller == C.Sending
  }

  lemma AddUses(c: C.State)
    requires IsSender(c, C.Adding)
    ensures Uses(c, C.AddCall(c), c.holder.id, 0)
  {
  }

  lemma FillUses(c: C.State)
    requires IsSender(c, C.FillingHeader)
    ensures Uses(c, C.FillHeader(c), c.holder.id, 0)
  {
  }

  lemma EncodeUses(c: C.State, outcome: Outcome)
    requires IsSender(c, C.Encoding)
    ensures Uses(c, C.EncodeSucceeds(c, outcome), c.holder.id, REQUEST)
    ensures Uses(c, C.EncodeFails(c, outcome), c.holder.id, REQUEST)
  {
  }

  lemma RetractUses(c: C.State)
    requires IsSender(c, C.Retracting)
    ensures Uses(c, C.Retract(c), c.holder.id, 0)
  {
    RemoveShrinks(c.tables.pending, c.calls[c.holder.id].number);
  }

  lemma FinishUses(c: C.State)
    ensures IsSender(c, C.Refused) ==> Uses(c, C.FinishRefused(c), c.holder.id, 0)
    ensures IsSender(c, C.Failing) && c.sendClaim == Some(c.holder.id) ==>
              Uses(c, C.FinishFailed(c), c.holder.id, 0)
  {
  }

  /** How many tokens a step may put on the wire. */
  function Puts(e: C.Event): nat {
    if e.EncodeCall? && Begins(e.outcome) then REQUEST else 0
  }

  lemma SenderUses(c: C.State, e: C.Event)
    requires C.Enabled(c, e) && C.BySender(e)
    requires !e.Lock? ==> c.holder.Sender? && c.holder.id in c.calls && c.calls[c.holder.id].caller == C.Sending
    requires e.FinishFailure? ==> c.sendClaim == Some(c.holder.id)
    ensures Uses(c, C.Apply(c, e), Mover(c, e), Puts(e))
  {
    match e
    case Lock(id) => LockUses(c, id);
    case Add => AddUses(c);
    case Fill => FillUses(c);
    case EncodeCall(outcome) => EncodeUses(c, outcome);
    case RetractCall => RetractUses(c);
    case FinishRefusal => FinishUses(c);
    case FinishFailure => FinishUses(c);
  }

  lemma MoverIsSender(c: C.State, e: C.Event)
    requires C.SenderInv(c) && C.Enabled(c, e) && C.BySender(e)
    requires forall id {:trigger C.CallInv(c, id)} :: id in c.calls ==> C.CallInv(c, id)
    ensures !e.Lock? ==> c.holder.Sender? && c.holder.id in c.calls && c.calls[c.holder.id].caller == C.Sending
    ensures e.FinishFailure? ==> c.sendClaim == Some(c.holder.id)
  {
    if !e.Lock? {
      assert C.CallInv(c, c.holder.id);
    }
  }

  lemma RequestsAfter(c: C.State, e: C.Event)
    requires C.Enabled(c, e)
    ensures REQUEST * |Begun(C.Apply(c, e).attempts)| == REQUEST * |Begun(c.attempts)| + Puts(e)
  {
    ClientStepAttempts(c, e);
    if e.EncodeCall? {
      AttemptAppended(c.attempts, Attempt(C.Request(c), e.outcome));
    }
  }

  lemma SenderDecreases(ids: seq<C.CallId>, c: C.State, e: C.Event)
    requires C.Enabled(c, e) && C.BySender(e) && Enumerates(ids, c)
    requires Uses(c, C.Apply(c, e), Mover(c, e), Puts(e))
    ensures ClientMeasure(ids, C.Apply(c, e)) + Puts(e) < ClientMeasure(ids, c)
  {
    CallersAfter(ids, c, e);
  }

  predicate ByShutdown(e: C.Event) {
    e.StopTakesLock? || e.StopTakesEntity? || e.Terminate? || e.StopReleases?
  }

  lemma ShutdownUses(c: C.State, e: C.Event)
    requires C.ReceiverInv(c) && C.Enabled(c, e) && ByShutdown(e)
    ensures
      var n := C.Apply(c, e);
      && StageRank(n) == StageRank(c) && n.attempts == c.attempts
      && PhaseRank(n.phase) + Entries(n) < PhaseRank(c.phase) + Entries(c)
  {
  }

  lemma RemoveShrinks(pending: map<nat, C.CallId>, number: nat)
    ensures |pending - {number}| <= |pending|
  {
    assert (pending - {number}).Keys == pending.Keys - {number};
    assert |pending.Keys - {number}| <= |pending.Keys|;
  }

  /** A step of the receiver that moves nobody, writes nothing and takes it further. */
  predicate Advances(c: C.State, n: C.State) {
    && StageRank(n) == StageRank(c) && n.attempts == c.attempts
    && PhaseRank(n.phase) + Entries(n) < PhaseRank(c.phase) + Entries(c)
  }

  lemma ClaimNothingUses(c: C.State)
    requires c.phase == C.GotHeader
    ensures Advances(c, C.ClaimNothing(c))
  {
    RemoveShrinks(c.tables.pending, c.reply.sequenceNumber);
  }

  lemma ClaimForErrorUses(c: C.State, id: C.CallId)
    requires c.phase == C.GotHeader && id in c.calls
    ensures Advances(c, C.ClaimForError(c, id))
  {
    RemoveShrinks(c.tables.pending, c.reply.sequenceNumber);
  }

  lemma ClaimForOutputUses(c: C.State, id: C.CallId)
    requires c.phase == C.GotHeader
    ensures Advances(c, C.ClaimForOutput(c, id))
  {
    RemoveShrinks(c.tables.pending, c.reply.sequenceNumber);
  }

  lemma ClaimUses(c: C.State)
    requires C.PendingExist(c) && c.phase == C.GotHeader
    ensures Advances(c, C.ClaimReply(c))
  {
    ClaimNothingUses(c);
    if c.reply.sequenceNumber in c.tables.pending {
      ClaimForErrorUses(c, c.tables.pending[c.reply.sequenceNumber]);
      ClaimForOutputUses(c, c.tables.pending[c.reply.sequenceNumber]);
    }
  }

  /** The steps of the receiver; a decode that succeeds uses up a token as well. */
  lemma ReceiverUses(c: C.State, e: C.Event)
    requires C.Enabled(c, e) && C.ByReceiver(e) && !e.Claim?
    ensures
      var n := C.Apply(c, e);
      && StageRank(n) == StageRank(c) && n.attempts == c.attempts && Entries(n) == Entries(c)
      && PhaseRank(n.phase) < PhaseRank(c.phase) + RESPONSE_TOKEN * Bit(ClientReads(e))
  {
  }

  lemma CallerUses(c: C.State, e: C.Event)
    requires C.Enabled(c, e) && (e.ContextDone? || e.DeleteOwn? || e.ReceiveFinish?)
    ensures
      var n, w := C.Apply(c, e), Mover(c, e);
      && w in c.calls && w in n.calls && CallerRank(n.calls[w].caller) < CallerRank(c.calls[w].caller)
      && StageRank(n) == StageRank(c) && n.attempts == c.attempts
      && PhaseRank(n.phase) == PhaseRank(c.phase) && Entries(n) <= Entries(c)
  {
  }

  lemma OthersDecrease(ids: seq<C.CallId>, c: C.State, e: C.Event)
    requires C.ReceiverInv(c) && C.Enabled(c, e) && Enumerates(ids, c)
    requires !C.BySender(e) && !e.Start? && !e.Close?
    ensures ClientMeasure(ids, C.Apply(c, e)) < ClientMeasure(ids, c) + RESPONSE_TOKEN * Bit(ClientReads(e))
  {
    CallersAfter(ids, c, e);
    if Moves(e) {
      CallerUses(c, e);
    } else if ByShutdown(e) {
      ShutdownUses(c, e);
    } else if e.Claim? {
      ClaimUses(c);
    } else {
      ReceiverUses(c, e);
    }
  }

  lemma ClientDecreases(ids: seq<C.CallId>, c: C.State, e: C.Event)
    requires C.Inv(c) && C.Enabled(c, e) && Enumerates(ids, c) && !e.Start? && !e.Close?
    ensures ClientMeasure(ids, C.Apply(c, e)) + Puts(e) < ClientMeasure(ids, c) + RESPONSE_TOKEN * Bit(ClientReads(e))
  {
    if C.BySender(e) {
      MoverIsSender(c, e);
      SenderUses(c, e);
      SenderDecreases(ids, c, e);
    } else {
      OthersDecrease(ids, c, e);
    }
  }

  // ----- the server's steps -----

  lemma JobUses(v: S.State, j: nat, b: S.Job)
    requires S.IsJob(v, j) && JobWeight(b) < JobWeight(v.jobs[j])
    ensures S.Sum(v.jobs[j := b], JobWeight) < S.Sum(v.jobs, JobWeight)
  {
    S.SumUpdate(v.jobs, JobWeight, j, b);
  }

  lemma OneJobDecreases(v: S.State, e: S.Event)
    requires S.Enabled(v, e)
    requires e.MethodEnds? || e.Rendezvous? || e.SetHeader? || e.Timer? || e.ReportSent? || e.Done?
    ensures ServerMeasure(S.Apply(v, e)) < ServerMeasure(v) && S.Apply(v, e).frames == v.frames
  {
    var b := S.Apply(v, e).jobs[e.job];
    assert S.Apply(v, e).jobs == v.jobs[e.job := b];
    JobUses(v, e.job, b);
  }

  /** A response is over: the job or the reader pays for the tokens it leaves. */
  lemma ReleaseDecreases(v: S.State, outcome: Outcome)
    requires S.JobsInv(v) && S.Wants(v, v.lock)
    ensures ServerMeasure(S.ReleaseSend(v, outcome)) + 2 * RESPONSE_TOKEN < ServerMeasure(v)
  {
    var n := S.ReleaseSend(v, outcome);
    if v.lock.WorkerOf? || v.lock.WatcherOf? {
      var j := v.lock.job;
      assert S.JobOk(v.jobs[j]);
      assert n.jobs == v.jobs[j := n.jobs[j]];
      S.SumUpdate(v.jobs, JobWeight, j, n.jobs[j]);
    }
  }

  lemma DispatchUses(v: S.State, input: Value)
    requires v.reader == S.ReadingBody
    ensures ServerMeasure(S.Dispatch(v, input)) < ServerMeasure(v) + REQUEST_TOKEN
  {
    var n := S.Dispatch(v, input);
    assert n.jobs[..|v.jobs|] == v.jobs;
    assert JobWeight(n.jobs[|v.jobs|]) == 12 + 2 * RESPONSE_TOKEN;
  }

  lemma ReaderUses(v: S.State, e: S.Event)
    requires S.Enabled(v, e)
    requires e.Header? || e.HeaderEnds? || e.SearchEnds? || e.BodyError? || e.TakeSendMutex? || e.HeaderWrite?
             || e.Close?
    ensures ServerMeasure(S.Apply(v, e)) < ServerMeasure(v) + REQUEST_TOKEN * Bit(ServerReads(e))
    ensures S.Apply(v, e).frames == v.frames
  {
  }

  lemma ServerDecreases(v: S.State, e: S.Event)
    requires S.JobsInv(v) && S.Enabled(v, e)
    ensures
      var n := S.Apply(v, e);
      ServerMeasure(n) + 2 * RESPONSE_TOKEN * |n.frames|
      < ServerMeasure(v) + 2 * RESPONSE_TOKEN * |v.frames| + REQUEST_TOKEN * Bit(ServerReads(e))
  {
    match e
    case Body(input) => DispatchUses(v, input);
    case HeaderFails(written) => ReleaseDecreases(v, HeaderFailed(written));
    case BodyWrite(outcome) => ReleaseDecreases(v, outcome);
    case _ =>
      if e.MethodEnds? || e.Rendezvous? || e.SetHeader? || e.Timer? || e.ReportSent? || e.Done? {
        OneJobDecreases(v, e);
      } else {
        ReaderUses(v, e);
      }
  }

  // ----- both sides -----

  /** Every body has a text, and nobody has read more than there is. */
  ghost predicate Within(c: C.State, v: S.State, toServer: nat, toClient: nat) {
    && NoBodyFailure(c.attempts) && NoBodyFailure(v.attempts)
    && toServer <= |EncodeAll(c.attempts).sent| && toClient <= |v.wire.sent|
  }

  /** What holds in every run, whatever its names. */
  ghost predicate Sound(s: State) {
    && C.Inv(s.client)
    && S.Inv(s.server)
    && Within(s.client, s.server, s.toServer, s.toClient)
  }

  lemma TokensLeft(s: State)
    requires Possible(s.client.attempts) && S.WireInv(s.server) && S.LockInv(s.server)
    requires Within(s.client, s.server, s.toServer, s.toClient)
    ensures s.toServer <= 2 * |Begun(s.client.attempts)| && s.toClient <= 2 * |s.server.frames|
  {
    CleanStream(s.client.attempts);
    TokenCount(Begun(s.client.attempts));
    CleanWire(s.server);
    TokenCount(s.server.frames);
  }

  lemma RequestsOnlyGrow(c: C.State, e: C.Event)
    requires C.Enabled(c, e) && NoBodyFailure(c.attempts) && (e.EncodeCall? ==> !e.outcome.BodyFailed?)
    ensures NoBodyFailure(C.Apply(c, e).attempts)
    ensures EncodeAll(c.attempts).sent <= EncodeAll(C.Apply(c, e).attempts).sent
  {
    ClientStepAttempts(c, e);
    if e.EncodeCall? {
      AttemptAppended(c.attempts, Attempt(C.Request(c), e.outcome));
    }
  }

  lemma ResponsesOnlyGrow(v: S.State, e: S.Event)
    requires S.Enabled(v, e) && NoBodyFailure(v.attempts) && (e.BodyWrite? ==> !e.outcome.BodyFailed?)
    ensures NoBodyFailure(S.Apply(v, e).attempts) && v.wire.sent <= S.Apply(v, e).wire.sent
  {
  }

  lemma ClientStaysWithin(env: Env, s: State, e: C.Event)
    requires Within(s.client, s.server, s.toServer, s.toClient) && ClientAllowed(env, s, e)
    ensures Within(C.Apply(s.client, e), s.server, s.toServer, s.toClient + Bit(ClientReads(e)))
  {
    RequestsOnlyGrow(s.client, e);
  }

  lemma ServerStaysWithin(env: Env, s: State, e: S.Event)
    requires Within(s.client, s.server, s.toServer, s.toClient) && ServerAllowed(env, s, e)
    ensures Within(s.client, S.Apply(s.server, e), s.toServer + Bit(ServerReads(e)), s.toClient)
  {
    ResponsesOnlyGrow(s.server, e);
  }

  lemma SoundAfter(s: State)
    requires C.Inv(s.client) && S.Inv(s.server) && Within(s.client, s.server, s.toServer, s.toClient)
    ensures Sound(s)
  {
  }

  lemma ClientKeepsSound(env: Env, s: State, e: C.Event, n: C.State)
    requires Sound(s) && ClientAllowed(env, s, e) && n == C.Apply(s.client, e)
    ensures Sound(AfterClient(s, e, n))
  {
    C.StepKeepsInv(s.client, e);
    ClientStaysWithin(env, s, e);
    SoundAfter(AfterClient(s, e, n));
  }

  lemma ServerKeepsSound(env: Env, s: State, e: S.Event, n: S.State)
    requires Sound(s) && ServerAllowed(env, s, e) && n == S.Apply(s.server, e)
    ensures Sound(AfterServer(s, e, n))
  {
    S.StepKeepsInv(s.server, e);
    ServerStaysWithin(env, s, e);
    SoundAfter(AfterServer(s, e, n));
  }

  /** Neither a new call nor Close. */
  predicate Goes(e: Event) {
    e.AtClient? ==> !e.c.Start? && !e.c.Close?
  }

  lemma ClientTotal(ids: seq<C.CallId>, s: State, e: C.Event, n: C.State)
    requires ClientMeasure(ids, n) + Puts(e) < ClientMeasure(ids, s.client) + RESPONSE_TOKEN * Bit(ClientReads(e))
    requires REQUEST * |Begun(n.attempts)| == REQUEST * |Begun(s.client.attempts)| + Puts(e)
    ensures Total(ids, AfterClient(s, e, n)) < Total(ids, s)
  {
  }

  lemma ServerTotal(ids: seq<C.CallId>, s: State, e: S.Event, n: S.State)
    requires ServerMeasure(n) + 2 * RESPONSE_TOKEN * |n.frames|
             < ServerMeasure(s.server) + 2 * RESPONSE_TOKEN * |s.server.frames| + REQUEST_TOKEN * Bit(ServerReads(e))
    ensures Total(ids, AfterServer(s, e, n)) < Total(ids, s)
  {
  }

  lemma ClientStepUses(ids: seq<C.CallId>, s: State, e: C.Event, n: C.State)
    requires C.Inv(s.client) && C.Enabled(s.client, e) && n == C.Apply(s.client, e)
    requires Enumerates(ids, s.client) && Goes(AtClient(e))
    ensures Total(ids, AfterClient(s, e, n)) < Total(ids, s) && Enumerates(ids, n)
  {
    ClientDecreases(ids, s.client, e);
    RequestsAfter(s.client, e);
    ClientTotal(ids, s, e, n);
    NoNewCalls(s.client, e);
  }

  lemma ServerStepUses(ids: seq<C.CallId>, s: State, e: S.Event, n: S.State)
    requires S.JobsInv(s.server) && S.Enabled(s.server, e) && n == S.Apply(s.server, e)
    ensures Total(ids, AfterServer(s, e, n)) < Total(ids, s)
  {
    ServerDecreases(s.server, e);
    ServerTotal(ids, s, e, n);
  }

  /** If every step of the two sides lowers M and keeps P, M bounds the length of a run. */
  lemma {:induction false} RunIsBounded(env: Env, P: State -> bool, M: State -> int, s: State, events: seq<Event>)
    requires P(s) && CanRun(env, s, events) && AllGo(events)
    requires forall x :: P(x) ==> 0 <= M(x)
    requires forall x, c, n :: P(x) && Goes(AtClient(c)) && ClientAllowed(env, x, c) && n == C.Apply(x.client, c) ==>
                                 P(AfterClient(x, c, n)) && M(AfterClient(x, c, n)) < M(x)
    requires forall x, v, n :: P(x) && ServerAllowed(env, x, v) && n == S.Apply(x.server, v) ==>
                                 P(AfterServer(x, v, n)) && M(AfterServer(x, v, n)) < M(x)
    ensures |events| <= M(s)
    decreases |events|
  {
    if events != [] {
      assert Goes(events[0]) && AllGo(events[1..]);
      RunIsBounded(env, P, M, Apply(env, s, events[0]), events[1..]);
    }
  }

  ghost predicate AllGo(events: seq<Event>) {
    forall i {:trigger events[i]} :: 0 <= i < |events| ==> Goes(events[i])
  }

  ghost predicate Counted(ids: seq<C.CallId>, s: State) {
    Sound(s) && Enumerates(ids, s.client)
  }

  lemma TotalIsNat(ids: seq<C.CallId>, s: State)
    requires s.toServer <= 2 * |Begun(s.client.attempts)| && s.toClient <= 2 * |s.server.frames|
    ensures 0 <= Total(ids, s)
  {
  }

  lemma CountedIsNat(ids: seq<C.CallId>)
    ensures forall x :: Counted(ids, x) ==> 0 <= Total(ids, x)
  {
    forall x | Counted(ids, x) ensures 0 <= Total(ids, x) {
      TokensLeft(x);
      TotalIsNat(ids, x);
    }
  }

  lemma ClientStepsCount(env: Env, ids: seq<C.CallId>)
    ensures forall x, c, n ::
              Counted(ids, x) && Goes(AtClient(c)) && ClientAllowed(env, x, c) && n == C.Apply(x.client, c) ==>
                Counted(ids, AfterClient(x, c, n)) && Total(ids, AfterClient(x, c, n)) < Total(ids, x)
  {
    forall x, c, n | Counted(ids, x) && Goes(AtClient(c)) && ClientAllowed(env, x, c) && n == C.Apply(x.client, c)
      ensures Counted(ids, AfterClient(x, c, n)) && Total(ids, AfterClient(x, c, n)) < Total(ids, x)
    {
      ClientKeepsSound(env, x, c, n);
      ClientStepUses(ids, x, c, n);
    }
  }

  lemma ServerStepsCount(env: Env, ids: seq<C.CallId>)
    ensures forall x, v, n :: Counted(ids, x) && ServerAllowed(env, x, v) && n == S.Apply(x.server, v) ==>
                                Counted(ids, AfterServer(x, v, n)) && Total(ids, AfterServer(x, v, n)) < Total(ids, x)
  {
    forall x, v, n | Counted(ids, x) && ServerAllowed(env, x, v) && n == S.Apply(x.server, v)
      ensures Counted(ids, AfterServer(x, v, n)) && Total(ids, AfterServer(x, v, n)) < Total(ids, x)
    {
      ServerKeepsSound(env, x, v, n);
      ServerStepUses(ids, x, v, n);
    }
  }

  lemma RunUses(env: Env, ids: seq<C.CallId>, s: State, events: seq<Event>)
    requires Counted(ids, s) && CanRun(env, s, events) && AllGo(events)
    ensures |events| <= Total(ids, s)
  {
    CountedIsNat(ids);
    ClientStepsCount(env, ids);
    ServerStepsCount(env, ids);
    RunIsBounded(env, x => Counted(ids, x), x => Total(ids, x), s, events);
  }

  // ----- every run -----

  lemma InitSound(limit: nat)
    ensures Sound(Init(limit))
  {
    C.InitInv();
    S.InitInv(limit);
  }

  lemma ClientStepsSound(env: Env)
    ensures forall x, c, n :: Sound(x) && ClientAllowed(env, x, c) && n == C.Apply(x.client, c) ==>
                                Sound(AfterClient(x, c, n))
  {
    forall x, c, n | Sound(x) && ClientAllowed(env, x, c) && n == C.Apply(x.client, c)
      ensures Sound(AfterClient(x, c, n))
    {
      ClientKeepsSound(env, x, c, n);
    }
  }

  lemma ServerStepsSound(env: Env)
    ensures forall x, v, n :: Sound(x) && ServerAllowed(env, x, v) && n == S.Apply(x.server, v) ==>
                                Sound(AfterServer(x, v, n))
  {
    forall x, v, n | Sound(x) && ServerAllowed(env, x, v) && n == S.Apply(x.server, v)
      ensures Sound(AfterServer(x, v, n))
    {
      ServerKeepsSound(env, x, v, n);
    }
  }

  lemma RunIsSound(env: Env, limit: nat, events: seq<Event>)
    requires CanRun(env, Init(limit), events)
    ensures Sound(Run(env, Init(limit), events))
  {
    InitSound(limit);
    ClientStepsSound(env);
    ServerStepsSound(env);
    RunKeeps(env, x => Sound(x), _ => true, Init(limit), events);
  }

  /** The calls of any state can be enumerated. */
  lemma {:induction false} EnumerationExists(keys: set<C.CallId>) returns (ids: seq<C.CallId>)
    ensures Lists(ids, keys)
    decreases |keys|
  {
    ids := [];
    if k :| k in keys {
      var rest := EnumerationExists(keys - {k});
      ids := rest + [k];
      assert forall i :: 0 <= i < |rest| ==> rest[i] in rest;
    }
  }

  /** No continuation of s without new calls and Close is longer. */
  ghost predicate Bounds(env: Env, s: State, bound: int) {
    forall more {:trigger CanRun(env, s, more)} :: CanRun(env, s, more) && AllGo(more) ==> |more| <= bound
  }

  /** From any state that a run has come to, every continuation without new calls and Close is finite,
      with a bound on its length that depends on the state alone: whatever fails, and whatever the
      names. */
  lemma EveryRunEnds(env: Env, limit: nat, before: seq<Event>)
    requires CanRun(env, Init(limit), before)
    ensures exists bound :: Bounds(env, Run(env, Init(limit), before), bound)
  {
    var s := Run(env, Init(limit), before);
    RunIsSound(env, limit, before);
    var ids := EnumerationExists(s.client.calls.Keys);
    forall more | CanRun(env, s, more) && AllGo(more) ensures |more| <= Total(ids, s) {
      RunUses(env, ids, s, more);
    }
    assert Bounds(env, s, Total(ids, s));
  }

  // ----- with Quiescence -----

  ghost predicate AllReturned(s: State) {
    forall id {:trigger s.client.calls[id]} :: id in s.client.calls ==> s.client.calls[id].caller.Returned?
  }

  ghost predicate AllHealthy(env: Env, events: seq<Event>) {
    forall i {:trigger events[i]} :: 0 <= i < |events| ==> Healthy(env, events[i])
  }

  /** How a run goes on without new calls and Close. */
  ghost predicate GoesOn(env: Env, s: State, more: seq<Event>) {
    CanRun(env, s, more) && AllGo(more) && AllHealthy(env, more)
  }

  lemma HealthyAppend(env: Env, limit: nat, before: seq<Event>, more: seq<Event>)
    requires HealthyRun(env, limit, before) && GoesOn(env, Run(env, Init(limit), before), more)
    ensures HealthyRun(env, limit, before + more)
    ensures Run(env, Init(limit), before + more) == Run(env, Run(env, Init(limit), before), more)
  {
    RunAppend(env, Init(limit), before, more);
  }

  /** This continuation is not longer than the bound, and if it has come to an end every call has
      returned. */
  ghost predicate EndsWell(env: Env, s: State, bound: int, more: seq<Event>)
    requires CanRun(env, s, more)
  {
    |more| <= bound && (Quiet(env, Run(env, s, more)) ==> AllReturned(Run(env, s, more)))
  }

  ghost predicate AllEndWell(env: Env, s: State, bound: int) {
    forall more {:trigger GoesOn(env, s, more)} :: GoesOn(env, s, more) ==> EndsWell(env, s, bound, more)
  }

  lemma OneEndsWell(env: Env, limit: nat, before: seq<Event>, s: State, bound: int, more: seq<Event>)
    requires HealthyRun(env, limit, before) && s == Run(env, Init(limit), before)
    requires Bounds(env, s, bound) && GoesOn(env, s, more)
    ensures EndsWell(env, s, bound, more)
  {
    HealthyAppend(env, limit, before, more);
    if Quiet(env, Run(env, s, more)) {
      EveryCallReturns(env, limit, before + more);
    }
  }

  /** Whichever way a healthy run goes on without new calls and Close, it comes to an end within a
      bound, and there every call has returned. */
  lemma EveryEndHasReturned(env: Env, limit: nat, before: seq<Event>)
    requires HealthyRun(env, limit, before)
    ensures exists bound :: AllEndWell(env, Run(env, Init(limit), before), bound)
  {
    var s := Run(env, Init(limit), before);
    EveryRunEnds(env, limit, before);
    var bound :| Bounds(env, s, bound);
    forall more | GoesOn(env, s, more) ensures EndsWell(env, s, bound, more) {
      OneEndsWell(env, limit, before, s, bound, more);
    }
    assert AllEndWell(env, s, bound);
  }

  lemma OneStep(env: Env, s: State, e: Event, rest: seq<Event>)
    requires Allowed(env, s, e) && Progress(env, e) && GoesOn(env, Apply(env, s, e), rest)
    ensures GoesOn(env, s, [e] + rest) && Run(env, s, [e] + rest) == Run(env, Apply(env, s, e), rest)
  {
    assert ([e] + rest)[1..] == rest;
  }

  lemma BoundShrinks(env: Env, s: State, bound: int, e: Event)
    requires Bounds(env, s, bound) && Allowed(env, s, e) && Progress(env, e)
    ensures Bounds(env, Apply(env, s, e), bound - 1)
  {
    forall more | CanRun(env, Apply(env, s, e), more) && AllGo(more) ensures |more| <= bound - 1 {
      var longer := [e] + more;
      assert longer[1..] == more;
      assert CanRun(env, s, longer) && AllGo(longer);
    }
  }

  lemma {:induction false} QuietIsReached(env: Env, s: State, bound: int) returns (more: seq<Event>)
    requires Bounds(env, s, bound)
    ensures GoesOn(env, s, more) && Quiet(env, Run(env, s, more))
    decreases bound
  {
    more := [];
    assert CanRun(env, s, more) && AllGo(more);
    if e :| Progress(env, e) && Allowed(env, s, e) {
      BoundShrinks(env, s, bound, e);
      var rest := QuietIsReached(env, Apply(env, s, e), bound - 1);
      OneStep(env, s, e, rest);
      more := [e] + rest;
    }
  }

  /** And every healthy run can go on to such an end: every call can return. */
  lemma EveryCallCanReturn(env: Env, limit: nat, before: seq<Event>)
    requires HealthyRun(env, limit, before)
    ensures
      var s := Run(env, Init(limit), before);
      exists more :: GoesOn(env, s, more) && AllReturned(Run(env, s, more))
  {
    var s := Run(env, Init(limit), before);
    EveryRunEnds(env, limit, before);
    var bound :| Bounds(env, s, bound);
    var more := QuietIsReached(env, s, bound);
    OneEndsWell(env, limit, before, s, bound, more);
  }
}
