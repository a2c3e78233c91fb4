/**
  client/client.go as a protocol between any number of callers and one receiver.

  A step is one section under a mutex, one channel operation, or one encode or decode, together
  with the assignments to a call that only its claimant can reach; filling the shared request
  header is a step of its own. Any thread may take the next step. What the peer sends, how an
  encode or a decode ends, when a context fires and when Close is called are all free.
 */
module CallProtocol {
  import opened Wrappers
  import opened Coder
  import opened ClientTables

  type CallId = int

  /** Where the goroutine that runs Call is. */
  datatype Caller =
    | Queued                    // waits for requestMutex in sendCall
    | Sending                   // holds requestMutex
    | Selecting                 // in the select of Call
    | GivingUp                  // took the context branch, about to call deleteCall
    | Returned(timedOut: bool)

  /** A *Call. `hasOutput` tells whether its Output is not nil; if it is nil, `output` is what a coder
      that can decode into nil has discarded. `channel` counts values waiting in Finish. The fields `finishes` and
      `withdrawn` record history: how often finishCall ran, and whether the caller's own
      deleteCall removed the call while it was unfinished. */
  datatype Call = Call(
    name: string, inputs: Value, hasOutput: bool,
    number: nat, output: Option<Value>, error: Option<CallError>, channel: nat,
    caller: Caller, finishes: nat, withdrawn: bool)

  /** Call makes its Finish channel with this capacity. */
  const FINISH_CAPACITY := 1

  datatype Holder = Free | Sender(id: CallId) | Terminator

  /** The progress of the sender that holds requestMutex. */
  datatype SendStage = Adding | Refused | FillingHeader | Encoding | Retracting | Failing

  /** The progress of the goroutine that runs receiveCall and, at its end, terminateCalls. */
  datatype Phase =
    | AwaitHeader | GotHeader
    | Discarding      // in DecodeMessageBody(nil)
    | FillingOutput   // in DecodeMessageBody(call.Output)
    | Finishing
    | Stopping        // waits for requestMutex in terminateCalls
    | StopLocked      // has requestMutex, waits for entityMutex
    | Draining        // has both
    | Stopped

  /** History: who asked what under a sequence number. */
  datatype Ask = Ask(id: CallId, name: string, inputs: Value)

  datatype State = State(
    tables: Tables<CallId>,
    calls: map<CallId, Call>,
    holder: Holder,             // of requestMutex
    stage: SendStage,
    sendClaim: Option<CallId>,  // the call that sendCall is about to finish
    header: MessageHeader,      // client.requestHeader, shared by all senders
    phase: Phase,
    reply: MessageHeader,       // the response header receiveCall works on
    claim: Option<CallId>,      // the call that receiveCall took out of pendingCalls
    stop: bool,                 // receiveCall's err is not nil
    todo: set<nat>,             // keys that terminateCalls has not reached yet
    attempts: seq<Attempt>,     // history of encodes
    asked: map<nat, Ask>)       // history of successful addCalls

  const NO_HEADER := MessageHeader("", 0, "")

  const Init := State(
    NewTables(), map[], Free, Adding, None, NO_HEADER, AwaitHeader, NO_HEADER, None, false, {}, [], map[])

  // ----- updates of one call -----

  function Failed(c: Call, error: CallError): Call {
    c.(error := Some(error))
  }

  /** finishCall: one more value in the Finish channel. */
  function Finished(c: Call): Call {
    c.(channel := c.channel + 1, finishes := c.finishes + 1)
  }

  // ----- guards -----

  predicate SenderExists(s: State) {
    s.holder.Sender? && s.holder.id in s.calls
  }

  predicate AtStage(s: State, stage: SendStage) {
    SenderExists(s) && s.stage == stage
  }

  /** entityMutex is free: only terminateCalls holds it for longer than one step. */
  predicate EntityFree(s: State) {
    s.phase != Draining
  }

  predicate CallerIs(s: State, id: CallId, caller: Caller) {
    id in s.calls && s.calls[id].caller == caller
  }

  /** The channel send in finishCall does not block. */
  predicate HasRoom(s: State, id: CallId) {
    id in s.calls && s.calls[id].channel < FINISH_CAPACITY
  }

  predicate PendingExist(s: State) {
    forall k :: k in s.tables.pending ==> s.tables.pending[k] in s.calls
  }

  predicate Claims(s: State, claim: Option<CallId>) {
    claim.Some? && claim.value in s.calls
  }

  // ----- the sender, in sendCall -----

  function StartCall(s: State, id: CallId, name: string, inputs: Value, hasOutput: bool): State {
    s.(calls := s.calls[id := Call(name, inputs, hasOutput, 0, None, None, 0, Queued, 0, false)])
  }

  function LockRequest(s: State, id: CallId): State
    requires id in s.calls
  {
    s.(calls := s.calls[id := s.calls[id].(caller := Sending)], holder := Sender(id), stage := Adding)
  }

  /** sendCall returns: requestMutex is free again and Call enters its select. */
  function Unlock(s: State, id: CallId, calls: map<CallId, Call>): State
    requires id in calls
  {
    s.(calls := calls[id := calls[id].(caller := Selecting)], holder := Free, sendClaim := None)
  }

  /** addCall returned an error. */
  function RefuseCall(s: State, error: CallError): State
    requires SenderExists(s)
  {
    var id := s.holder.id;
    s.(calls := s.calls[id := Failed(s.calls[id], error)], stage := Refused, sendClaim := Some(id))
  }

  /** addCall returned a sequence number. */
  function RegisterCall(s: State): State
    requires SenderExists(s)
  {
    var id, number := s.holder.id, s.tables.next;
    var c := s.calls[id];
    s.(calls := s.calls[id := c.(number := number)],
       tables := Register(s.tables, id),
       stage := FillingHeader,
       asked := s.asked[number := Ask(id, c.name, c.inputs)])
  }

  function AddCall(s: State): State
    requires SenderExists(s)
  {
    match Refusal(s.tables)
    case Some(error) => RefuseCall(s, error)
    case None => RegisterCall(s)
  }

  function FinishRefused(s: State): State
    requires SenderExists(s)
  {
    var id := s.holder.id;
    Unlock(s, id, s.calls[id := Finished(s.calls[id])])
  }

  function FillHeader(s: State): State
    requires SenderExists(s)
  {
    var c := s.calls[s.holder.id];
    s.(header := MessageHeader(c.name, c.number, ""), stage := Encoding)
  }

  /** What the sender hands to the coder: the shared header and its own call's inputs. */
  function Request(s: State): Frame
    requires SenderExists(s)
  {
    Frame(s.header, s.calls[s.holder.id].inputs)
  }

  /** The encode returned no error, whether or not its flush reached the connection. */
  function EncodeSucceeds(s: State, outcome: Outcome): State
    requires SenderExists(s)
  {
    var id := s.holder.id;
    s.(attempts := s.attempts + [Attempt(Request(s), outcome)],
       calls := s.calls[id := s.calls[id].(caller := Selecting)], holder := Free)
  }

  function EncodeFails(s: State, outcome: Outcome): State
    requires SenderExists(s)
  {
    s.(attempts := s.attempts + [Attempt(Request(s), outcome)], stage := Retracting)
  }

  /** deleteCall after a failed encode found the call. */
  function RetractMatched(s: State): State
    requires SenderExists(s)
  {
    var number := s.calls[s.holder.id].number;
    s.(tables := Remove(s.tables, number), stage := Failing, sendClaim := Lookup(s.tables, number))
  }

  /** deleteCall after a failed encode found nothing: the receiver had taken the call. */
  function RetractUnmatched(s: State): State
    requires SenderExists(s)
  {
    Unlock(s.(tables := Remove(s.tables, s.calls[s.holder.id].number)), s.holder.id, s.calls)
  }

  function Retract(s: State): State
    requires SenderExists(s)
  {
    if Lookup(s.tables, s.calls[s.holder.id].number).Some? then RetractMatched(s) else RetractUnmatched(s)
  }

  function FinishFailed(s: State): State
    requires SenderExists(s) && Claims(s, s.sendClaim)
  {
    var matched := s.sendClaim.value;
    Unlock(s, s.holder.id, s.calls[matched := Finished(Failed(s.calls[matched], EncodeFailed))])
  }

  // ----- the caller, in Call -----

  function GiveUp(s: State, id: CallId): State
    requires id in s.calls
  {
    s.(calls := s.calls[id := s.calls[id].(caller := GivingUp)])
  }

  function Withdraw(s: State, id: CallId): State
    requires id in s.calls
  {
    var c := s.calls[id];
    s.(calls := s.calls[id := c.(caller := Returned(true), withdrawn := c.withdrawn || IsPending(s, id))],
       tables := Remove(s.tables, c.number))
  }

  function TakeResult(s: State, id: CallId): State
    requires id in s.calls && s.calls[id].channel > 0
  {
    var c := s.calls[id];
    s.(calls := s.calls[id := c.(caller := Returned(false), channel := c.channel - 1)])
  }

  // ----- the receiver, in receiveCall and terminateCalls -----

  function ReadHeader(s: State, h: MessageHeader): State {
    s.(phase := GotHeader, reply := h)
  }

  function ReadFails(s: State): State {
    s.(phase := Stopping, stop := true)
  }

  /** deleteCall on the response's number found nothing. */
  function ClaimNothing(s: State): State {
    s.(tables := Remove(s.tables, s.reply.sequenceNumber), phase := Discarding)
  }

  function ClaimForError(s: State, id: CallId): State
    requires id in s.calls
  {
    s.(tables := Remove(s.tables, s.reply.sequenceNumber), claim := Some(id),
       calls := s.calls[id := Failed(s.calls[id], Remote(s.reply.error))], phase := Discarding)
  }

  function ClaimForOutput(s: State, id: CallId): State {
    s.(tables := Remove(s.tables, s.reply.sequenceNumber), claim := Some(id), phase := FillingOutput)
  }

  function ClaimReply(s: State): State
    requires PendingExist(s)
  {
    match Lookup(s.tables, s.reply.sequenceNumber)
    case None => ClaimNothing(s)
    case Some(id) => if s.reply.error != "" then ClaimForError(s, id) else ClaimForOutput(s, id)
  }

  function Discard(s: State, ok: bool): State {
    s.(stop := !ok, phase := if s.claim.Some? then Finishing else if ok then AwaitHeader else Stopping)
  }

  function FillOutput(s: State, body: Option<Value>): State
    requires Claims(s, s.claim)
  {
    var id := s.claim.value;
    var c := s.calls[id];
    s.(calls := s.calls[id := if body.None? then Failed(c, BadBody) else c.(output := body)],
       stop := body.None?, phase := Finishing)
  }

  function FinishClaimed(s: State): State
    requires Claims(s, s.claim)
  {
    var id := s.claim.value;
    s.(calls := s.calls[id := Finished(s.calls[id])],
       claim := None, phase := if s.stop then Stopping else AwaitHeader)
  }

  function StopLock(s: State): State {
    s.(holder := Terminator, phase := StopLocked)
  }

  function ShutDownNow(s: State): State {
    s.(tables := s.tables.(isShutdown := true), phase := Draining, todo := s.tables.pending.Keys)
  }

  function Drain(s: State, k: nat): State
    requires k in s.tables.pending && s.tables.pending[k] in s.calls
  {
    var id := s.tables.pending[k];
    s.(calls := s.calls[id := Finished(Failed(s.calls[id], Terminated))], todo := s.todo - {k})
  }

  function Release(s: State): State {
    s.(holder := Free, phase := Stopped)
  }

  function CloseClient(s: State): State {
    s.(tables := s.tables.(isClosed := true))
  }

  // ----- where a call is -----

  /** terminateCalls finishes entries but leaves them in the map; those are no longer live. */
  predicate Live(s: State, k: nat) {
    !s.tables.isShutdown || k in s.todo
  }

  predicate Unregistered(s: State, id: CallId) {
    CallerIs(s, id, Queued) || (s.holder == Sender(id) && s.stage == Adding)
  }

  predicate IsPending(s: State, id: CallId) {
    && id in s.calls
    && var k := s.calls[id].number;
    k in s.tables.pending && s.tables.pending[k] == id && Live(s, k)
  }

  /** In how many places a call is, counting every finishCall it ever had. */
  function Places(s: State, id: CallId): nat
    requires id in s.calls
  {
    Bit(Unregistered(s, id)) + Bit(IsPending(s, id)) + Bit(s.claim == Some(id)) + Bit(s.sendClaim == Some(id))
    + s.calls[id].finishes + Bit(s.calls[id].withdrawn)
  }

  // ----- the invariant -----

  /** Exactly one of the five holds, or the call has been finished exactly once. */
  predicate OnePlace(a: bool, b: bool, c: bool, d: bool, e: bool, finishes: nat) {
    && (a ==> !b && !c && !d && !e && finishes == 0)
    && (b ==> !c && !d && !e && finishes == 0)
    && (c ==> !d && !e && finishes == 0)
    && (d ==> !e && finishes == 0)
    && (e ==> finishes == 0)
    && (a || b || c || d || e || finishes == 1)
  }

  ghost predicate CallInv(s: State, id: CallId)
    requires id in s.calls
  {
    var c := s.calls[id];
    && OnePlace(
         Unregistered(s, id), IsPending(s, id), s.claim == Some(id), s.sendClaim == Some(id), c.withdrawn, c.finishes)
    && c.channel + Bit(c.caller == Returned(false)) == c.finishes
    && (c.caller == Sending <==> s.holder == Sender(id))
    && (c.caller == Queued ==> c.number == 0)
    && (c.number != 0 ==> c.number in s.asked && s.asked[c.number] == Ask(id, c.name, c.inputs))
    && (c.withdrawn ==> c.caller == Returned(true))
    && (c.finishes > 0 && c.error.None? ==> c.output.Some?)
  }

  ghost predicate TablesInv(s: State) {
    && s.tables.next >= 1
    && (forall k :: k in s.asked <==> 1 <= k < s.tables.next)
    && (forall k :: k in s.asked ==> s.asked[k].id in s.calls && s.calls[s.asked[k].id].number == k)
    && (forall k :: k in s.tables.pending ==> k in s.asked && s.asked[k].id == s.tables.pending[k])
  }

  ghost predicate SenderInv(s: State) {
    && (s.sendClaim.Some? ==>
          s.holder.Sender? && s.sendClaim == Some(s.holder.id) && (s.stage == Refused || s.stage == Failing))
    && (s.holder.Sender? ==>
          && s.holder.id in s.calls
          && var c := s.calls[s.holder.id];
          && (s.stage == Refused ==> c.error.Some?)
          && (s.stage == Refused || s.stage == Failing ==> s.sendClaim == Some(s.holder.id))
          && if s.stage == Adding || s.stage == Refused then c.number == 0
             else
               && c.number in s.asked && s.asked[c.number].id == s.holder.id && !s.tables.isShutdown
               && (s.stage == FillingHeader || s.stage == Encoding ==> c.number == s.tables.next - 1)
               && (s.stage == Encoding ==> s.header == MessageHeader(c.name, c.number, "")))
  }

  ghost predicate ReceiverInv(s: State) {
    && (s.holder == Terminator <==> s.phase == StopLocked || s.phase == Draining)
    && (s.tables.isShutdown <==> s.phase == Draining || s.phase == Stopped)
    && s.todo <= s.tables.pending.Keys
    && (s.todo != {} ==> s.phase == Draining)
    && (s.claim.Some? ==>
          s.claim.value in s.calls && (s.phase == Discarding || s.phase == FillingOutput || s.phase == Finishing))
    && (s.phase == FillingOutput || s.phase == Finishing ==> s.claim.Some?)
    && (s.phase == Discarding && s.claim.Some? ==> s.calls[s.claim.value].error.Some?)
    && (s.phase == Finishing ==> s.calls[s.claim.value].error.None? ==> s.calls[s.claim.value].output.Some?)
  }

  /** A frame is the request of the call that asked under its number. */
  ghost predicate IsRequest(asked: map<nat, Ask>, f: Frame) {
    var n := f.header.sequenceNumber;
    n in asked && f == Frame(MessageHeader(asked[n].name, n, ""), asked[n].inputs)
  }

  function EncodedBelow(s: State): int {
    s.tables.next - Bit(s.holder.Sender? && (s.stage == FillingHeader || s.stage == Encoding))
  }

  /** The requests encoded so far are those of calls numbered below `below`, in order. */
  ghost predicate WireOk(attempts: seq<Attempt>, asked: map<nat, Ask>, below: int) {
    && Possible(attempts)
    && (forall i :: 0 <= i < |attempts| ==>
          IsRequest(asked, attempts[i].frame) && attempts[i].frame.header.sequenceNumber < below)
    && (forall i, j :: 0 <= i < j < |attempts| ==>
          attempts[i].frame.header.sequenceNumber < attempts[j].frame.header.sequenceNumber)
  }

  ghost predicate WireInv(s: State) {
    WireOk(s.attempts, s.asked, EncodedBelow(s))
  }

  ghost predicate Inv(s: State) {
    && TablesInv(s)
    && SenderInv(s)
    && ReceiverInv(s)
    && WireInv(s)
    && forall id {:trigger CallInv(s, id)} :: id in s.calls ==> CallInv(s, id)
  }

  // ----- each action keeps the invariant: first for one call, then for the whole state -----

  lemma StartKeepsCall(s: State, id: CallId, name: string, inputs: Value, hasOutput: bool, x: CallId)
    requires SenderInv(s) && ReceiverInv(s) && TablesInv(s) && id !in s.calls
    requires x in s.calls ==> CallInv(s, x)
    requires x in StartCall(s, id, name, inputs, hasOutput).calls
    ensures CallInv(StartCall(s, id, name, inputs, hasOutput), x)
  {
  }

  lemma StartKeepsInv(s: State, id: CallId, name: string, inputs: Value, hasOutput: bool)
    requires Inv(s) && id !in s.calls
    ensures Inv(StartCall(s, id, name, inputs, hasOutput))
  {
    forall x | x in StartCall(s, id, name, inputs, hasOutput).calls
      ensures CallInv(StartCall(s, id, name, inputs, hasOutput), x)
    {
      StartKeepsCall(s, id, name, inputs, hasOutput, x);
    }
  }

  lemma LockKeepsCall(s: State, id: CallId, x: CallId)
    requires SenderInv(s) && CallerIs(s, id, Queued) && s.holder == Free
    requires x in s.calls && CallInv(s, x) && CallInv(s, id)
    ensures CallInv(LockRequest(s, id), x)
  {
  }

  lemma LockKeepsInv(s: State, id: CallId)
    requires Inv(s) && CallerIs(s, id, Queued) && s.holder == Free
    ensures Inv(LockRequest(s, id))
  {
    assert CallInv(s, id);
    forall x | x in s.calls ensures CallInv(LockRequest(s, id), x) {
      LockKeepsCall(s, id, x);
    }
  }

  lemma RefuseKeepsCall(s: State, error: CallError, x: CallId)
    requires SenderInv(s) && AtStage(s, Adding)
    requires x in s.calls && CallInv(s, x)
    ensures CallInv(RefuseCall(s, error), x)
  {
  }

  lemma RefuseKeepsInv(s: State, error: CallError)
    requires Inv(s) && AtStage(s, Adding)
    ensures Inv(RefuseCall(s, error))
  {
    forall x | x in s.calls ensures CallInv(RefuseCall(s, error), x) {
      RefuseKeepsCall(s, error, x);
    }
  }

  lemma RegisterKeepsCall(s: State, x: CallId)
    requires TablesInv(s) && SenderInv(s) && AtStage(s, Adding) && Refusal(s.tables) == None
    requires x in s.calls && CallInv(s, x)
    ensures CallInv(RegisterCall(s), x)
  {
  }

  lemma RegisterKeepsWire(s: State)
    requires TablesInv(s) && WireInv(s) && AtStage(s, Adding)
    ensures WireInv(RegisterCall(s))
  {
  }

  lemma RegisterKeepsRest(s: State)
    requires TablesInv(s) && SenderInv(s) && ReceiverInv(s) && AtStage(s, Adding) && Refusal(s.tables) == None
    ensures TablesInv(RegisterCall(s)) && SenderInv(RegisterCall(s)) && ReceiverInv(RegisterCall(s))
  {
  }

  lemma RegisterKeepsInv(s: State)
    requires Inv(s) && AtStage(s, Adding) && Refusal(s.tables) == None
    ensures Inv(RegisterCall(s))
  {
    RegisterKeepsWire(s);
    RegisterKeepsRest(s);
    forall x | x in s.calls ensures CallInv(RegisterCall(s), x) {
      RegisterKeepsCall(s, x);
    }
  }

  lemma FinishRefusedKeepsCall(s: State, x: CallId)
    requires SenderInv(s) && AtStage(s, Refused)
    requires x in s.calls && CallInv(s, x)
    ensures CallInv(FinishRefused(s), x)
  {
  }

  lemma FinishRefusedKeepsInv(s: State)
    requires Inv(s) && AtStage(s, Refused)
    ensures Inv(FinishRefused(s))
  {
    forall x | x in s.calls ensures CallInv(FinishRefused(s), x) {
      FinishRefusedKeepsCall(s, x);
    }
  }

  lemma FillHeaderKeepsCall(s: State, x: CallId)
    requires AtStage(s, FillingHeader)
    requires x in s.calls && CallInv(s, x)
    ensures CallInv(FillHeader(s), x)
  {
  }

  lemma FillHeaderKeepsInv(s: State)
    requires Inv(s) && AtStage(s, FillingHeader)
    ensures Inv(FillHeader(s))
  {
    forall x | x in s.calls ensures CallInv(FillHeader(s), x) {
      FillHeaderKeepsCall(s, x);
    }
  }

  lemma WireGrows(attempts: seq<Attempt>, asked: map<nat, Ask>, below: int, a: Attempt)
    requires WireOk(attempts, asked, below) && CanEnd(EncodeAll(attempts), a.outcome)
    requires IsRequest(asked, a.frame) && a.frame.header.sequenceNumber == below
    ensures WireOk(attempts + [a], asked, below + 1)
  {
    AttemptAppended(attempts, a);
  }

  lemma RequestIsOwn(s: State)
    requires TablesInv(s) && SenderInv(s) && AtStage(s, Encoding) && CallInv(s, s.holder.id)
    ensures IsRequest(s.asked, Request(s)) && s.header.sequenceNumber == s.tables.next - 1
  {
  }

  lemma EncodeSucceedsKeepsWire(s: State, outcome: Outcome)
    requires WireInv(s) && AtStage(s, Encoding) && CanEnd(EncodeAll(s.attempts), outcome)
    requires IsRequest(s.asked, Request(s)) && s.header.sequenceNumber == s.tables.next - 1
    ensures WireInv(EncodeSucceeds(s, outcome))
  {
    WireGrows(s.attempts, s.asked, s.tables.next - 1, Attempt(Request(s), outcome));
    assert EncodedBelow(EncodeSucceeds(s, outcome)) == s.tables.next;
  }

  lemma EncodeFailsKeepsWire(s: State, outcome: Outcome)
    requires WireInv(s) && AtStage(s, Encoding) && CanEnd(EncodeAll(s.attempts), outcome)
    requires IsRequest(s.asked, Request(s)) && s.header.sequenceNumber == s.tables.next - 1
    ensures WireInv(EncodeFails(s, outcome))
  {
    WireGrows(s.attempts, s.asked, s.tables.next - 1, Attempt(Request(s), outcome));
    assert EncodedBelow(EncodeFails(s, outcome)) == s.tables.next;
  }

  lemma EncodeSucceedsKeepsCall(s: State, outcome: Outcome, x: CallId)
    requires SenderInv(s) && AtStage(s, Encoding)
    requires x in s.calls && CallInv(s, x)
    ensures CallInv(EncodeSucceeds(s, outcome), x)
  {
  }

  lemma EncodeSucceedsKeepsRest(s: State, outcome: Outcome)
    requires TablesInv(s) && SenderInv(s) && ReceiverInv(s) && AtStage(s, Encoding)
    ensures
      var n := EncodeSucceeds(s, outcome);
      TablesInv(n) && SenderInv(n) && ReceiverInv(n)
  {
  }

  lemma EncodeSucceedsKeepsInv(s: State, outcome: Outcome)
    requires Inv(s) && AtStage(s, Encoding) && CanEnd(EncodeAll(s.attempts), outcome)
    ensures Inv(EncodeSucceeds(s, outcome))
  {
    assert CallInv(s, s.holder.id);
    RequestIsOwn(s);
    EncodeSucceedsKeepsWire(s, outcome);
    EncodeSucceedsKeepsRest(s, outcome);
    forall x | x in s.calls ensures CallInv(EncodeSucceeds(s, outcome), x) {
      EncodeSucceedsKeepsCall(s, outcome, x);
    }
  }

  lemma EncodeFailsKeepsCall(s: State, outcome: Outcome, x: CallId)
    requires SenderInv(s) && AtStage(s, Encoding)
    requires x in s.calls && CallInv(s, x)
    ensures CallInv(EncodeFails(s, outcome), x)
  {
  }

  lemma EncodeFailsKeepsRest(s: State, outcome: Outcome)
    requires TablesInv(s) && SenderInv(s) && ReceiverInv(s) && AtStage(s, Encoding)
    ensures
      var n := EncodeFails(s, outcome);
      TablesInv(n) && SenderInv(n) && ReceiverInv(n)
  {
  }

  lemma EncodeFailsKeepsInv(s: State, outcome: Outcome)
    requires Inv(s) && AtStage(s, Encoding) && CanEnd(EncodeAll(s.attempts), outcome)
    ensures Inv(EncodeFails(s, outcome))
  {
    assert CallInv(s, s.holder.id);
    RequestIsOwn(s);
    EncodeFailsKeepsWire(s, outcome);
    EncodeFailsKeepsRest(s, outcome);
    forall x | x in s.calls ensures CallInv(EncodeFails(s, outcome), x) {
      EncodeFailsKeepsCall(s, outcome, x);
    }
  }

  lemma RetractMatchedKeepsCall(s: State, x: CallId)
    requires TablesInv(s) && SenderInv(s) && AtStage(s, Retracting)
    requires s.calls[s.holder.id].number in s.tables.pending
    requires x in s.calls && CallInv(s, x)
    ensures CallInv(RetractMatched(s), x)
  {
  }

  lemma RetractMatchedKeepsInv(s: State)
    requires Inv(s) && AtStage(s, Retracting)
    requires s.calls[s.holder.id].number in s.tables.pending
    ensures Inv(RetractMatched(s))
  {
    forall x | x in s.calls ensures CallInv(RetractMatched(s), x) {
      RetractMatchedKeepsCall(s, x);
    }
  }

  lemma RetractUnmatchedKeepsCall(s: State, x: CallId)
    requires TablesInv(s) && SenderInv(s) && AtStage(s, Retracting)
    requires s.calls[s.holder.id].number !in s.tables.pending
    requires x in s.calls && CallInv(s, x)
    ensures CallInv(RetractUnmatched(s), x)
  {
  }

  lemma RetractUnmatchedKeepsInv(s: State)
    requires Inv(s) && AtStage(s, Retracting)
    requires s.calls[s.holder.id].number !in s.tables.pending
    ensures Inv(RetractUnmatched(s))
  {
    forall x | x in s.calls ensures CallInv(RetractUnmatched(s), x) {
      RetractUnmatchedKeepsCall(s, x);
    }
  }

  lemma FinishFailedKeepsCall(s: State, x: CallId)
    requires SenderInv(s) && AtStage(s, Failing)
    requires x in s.calls && CallInv(s, x)
    ensures CallInv(FinishFailed(s), x)
  {
  }

  lemma FinishFailedKeepsInv(s: State)
    requires Inv(s) && AtStage(s, Failing)
    ensures Inv(FinishFailed(s))
  {
    forall x | x in s.calls ensures CallInv(FinishFailed(s), x) {
      FinishFailedKeepsCall(s, x);
    }
  }

  lemma GiveUpKeepsCall(s: State, id: CallId, x: CallId)
    requires CallerIs(s, id, Selecting)
    requires x in s.calls && CallInv(s, x) && CallInv(s, id)
    ensures CallInv(GiveUp(s, id), x)
  {
  }

  lemma GiveUpKeepsInv(s: State, id: CallId)
    requires Inv(s) && CallerIs(s, id, Selecting)
    ensures Inv(GiveUp(s, id))
  {
    assert CallInv(s, id);
    forall x | x in s.calls ensures CallInv(GiveUp(s, id), x) {
      GiveUpKeepsCall(s, id, x);
    }
  }

  lemma WithdrawKeepsCall(s: State, id: CallId, x: CallId)
    requires TablesInv(s) && ReceiverInv(s) && CallerIs(s, id, GivingUp) && EntityFree(s)
    requires x in s.calls && CallInv(s, x) && CallInv(s, id)
    ensures CallInv(Withdraw(s, id), x)
  {
  }

  lemma WithdrawKeepsInv(s: State, id: CallId)
    requires Inv(s) && CallerIs(s, id, GivingUp) && EntityFree(s)
    ensures Inv(Withdraw(s, id))
  {
    assert CallInv(s, id);
    forall x | x in s.calls ensures CallInv(Withdraw(s, id), x) {
      WithdrawKeepsCall(s, id, x);
    }
  }

  lemma TakeResultKeepsCall(s: State, id: CallId, x: CallId)
    requires CallerIs(s, id, Selecting) && s.calls[id].channel > 0
    requires x in s.calls && CallInv(s, x) && CallInv(s, id)
    ensures CallInv(TakeResult(s, id), x)
  {
  }

  lemma TakeResultKeepsInv(s: State, id: CallId)
    requires Inv(s) && CallerIs(s, id, Selecting) && s.calls[id].channel > 0
    ensures Inv(TakeResult(s, id))
  {
    assert CallInv(s, id);
    forall x | x in s.calls ensures CallInv(TakeResult(s, id), x) {
      TakeResultKeepsCall(s, id, x);
    }
  }

  lemma ClaimNothingKeepsCall(s: State, x: CallId)
    requires TablesInv(s) && ReceiverInv(s) && s.phase == GotHeader
    requires s.reply.sequenceNumber !in s.tables.pending
    requires x in s.calls && CallInv(s, x)
    ensures CallInv(ClaimNothing(s), x)
  {
  }

  lemma ClaimNothingKeepsInv(s: State)
    requires Inv(s) && s.phase == GotHeader
    requires s.reply.sequenceNumber !in s.tables.pending
    ensures Inv(ClaimNothing(s))
  {
    forall x | x in s.calls ensures CallInv(ClaimNothing(s), x) {
      ClaimNothingKeepsCall(s, x);
    }
  }

  lemma ClaimForErrorKeepsCall(s: State, id: CallId, x: CallId)
    requires TablesInv(s) && ReceiverInv(s) && s.phase == GotHeader
    requires Lookup(s.tables, s.reply.sequenceNumber) == Some(id)
    requires x in s.calls && CallInv(s, x)
    ensures CallInv(ClaimForError(s, id), x)
  {
  }

  lemma ClaimForErrorKeepsRest(s: State, id: CallId)
    requires TablesInv(s) && SenderInv(s) && ReceiverInv(s) && s.phase == GotHeader
    requires Lookup(s.tables, s.reply.sequenceNumber) == Some(id)
    ensures TablesInv(ClaimForError(s, id)) && SenderInv(ClaimForError(s, id)) && ReceiverInv(ClaimForError(s, id))
  {
  }

  lemma ClaimForErrorKeepsInv(s: State, id: CallId)
    requires Inv(s) && s.phase == GotHeader
    requires Lookup(s.tables, s.reply.sequenceNumber) == Some(id)
    ensures Inv(ClaimForError(s, id))
  {
    ClaimForErrorKeepsRest(s, id);
    forall x | x in s.calls ensures CallInv(ClaimForError(s, id), x) {
      ClaimForErrorKeepsCall(s, id, x);
    }
  }

  lemma ClaimForOutputKeepsCall(s: State, id: CallId, x: CallId)
    requires TablesInv(s) && ReceiverInv(s) && s.phase == GotHeader
    requires Lookup(s.tables, s.reply.sequenceNumber) == Some(id)
    requires x in s.calls && CallInv(s, x)
    ensures CallInv(ClaimForOutput(s, id), x)
  {
  }

  lemma ClaimForOutputKeepsRest(s: State, id: CallId)
    requires TablesInv(s) && SenderInv(s) && ReceiverInv(s) && s.phase == GotHeader
    requires Lookup(s.tables, s.reply.sequenceNumber) == Some(id)
    ensures TablesInv(ClaimForOutput(s, id)) && SenderInv(ClaimForOutput(s, id)) && ReceiverInv(ClaimForOutput(s, id))
  {
  }

  lemma ClaimForOutputKeepsInv(s: State, id: CallId)
    requires Inv(s) && s.phase == GotHeader
    requires Lookup(s.tables, s.reply.sequenceNumber) == Some(id)
    ensures Inv(ClaimForOutput(s, id))
  {
    ClaimForOutputKeepsRest(s, id);
    forall x | x in s.calls ensures CallInv(ClaimForOutput(s, id), x) {
      ClaimForOutputKeepsCall(s, id, x);
    }
  }

  lemma FillOutputKeepsCall(s: State, body: Option<Value>, x: CallId)
    requires ReceiverInv(s) && s.phase == FillingOutput
    requires x in s.calls && CallInv(s, x)
    ensures CallInv(FillOutput(s, body), x)
  {
  }

  lemma FillOutputKeepsInv(s: State, body: Option<Value>)
    requires Inv(s) && s.phase == FillingOutput
    ensures Inv(FillOutput(s, body))
  {
    forall x | x in s.calls ensures CallInv(FillOutput(s, body), x) {
      FillOutputKeepsCall(s, body, x);
    }
  }

  lemma FinishClaimedKeepsCall(s: State, x: CallId)
    requires ReceiverInv(s) && s.phase == Finishing
    requires x in s.calls && CallInv(s, x)
    ensures CallInv(FinishClaimed(s), x)
  {
  }

  lemma FinishClaimedKeepsInv(s: State)
    requires Inv(s) && s.phase == Finishing
    ensures Inv(FinishClaimed(s))
  {
    forall x | x in s.calls ensures CallInv(FinishClaimed(s), x) {
      FinishClaimedKeepsCall(s, x);
    }
  }

  lemma DrainKeepsCall(s: State, k: nat, x: CallId)
    requires TablesInv(s) && ReceiverInv(s) && k in s.todo
    requires x in s.calls && CallInv(s, x)
    ensures CallInv(Drain(s, k), x)
  {
  }

  lemma DrainKeepsInv(s: State, k: nat)
    requires Inv(s) && k in s.todo
    ensures Inv(Drain(s, k))
  {
    forall x | x in s.calls ensures CallInv(Drain(s, k), x) {
      DrainKeepsCall(s, k, x);
    }
  }

  /** The actions that write no call and move none. */
  lemma CallsStay(s: State, n: State)
    requires Inv(s)
    requires n.calls == s.calls && n.asked == s.asked && n.stage == s.stage
    requires n.claim == s.claim && n.sendClaim == s.sendClaim && n.tables.pending == s.tables.pending
    requires n.holder == s.holder || (!n.holder.Sender? && !s.holder.Sender?)
    requires forall k :: k in s.tables.pending ==> Live(s, k) == Live(n, k)
    ensures forall x {:trigger CallInv(n, x)} :: x in n.calls ==> CallInv(n, x)
  {
    forall x | x in n.calls ensures CallInv(n, x) {
      assert CallInv(s, x);
    }
  }

  lemma ReadHeaderKeepsInv(s: State, h: MessageHeader)
    requires Inv(s) && s.phase == AwaitHeader
    ensures Inv(ReadHeader(s, h))
  {
    CallsStay(s, ReadHeader(s, h));
  }

  lemma ReadFailsKeepsInv(s: State)
    requires Inv(s) && s.phase == AwaitHeader
    ensures Inv(ReadFails(s))
  {
    CallsStay(s, ReadFails(s));
  }

  lemma DiscardKeepsInv(s: State, ok: bool)
    requires Inv(s) && s.phase == Discarding
    ensures Inv(Discard(s, ok))
  {
    CallsStay(s, Discard(s, ok));
  }

  lemma StopLockKeepsInv(s: State)
    requires Inv(s) && s.phase == Stopping && s.holder == Free
    ensures Inv(StopLock(s))
  {
    CallsStay(s, StopLock(s));
  }

  lemma ShutDownKeepsInv(s: State)
    requires Inv(s) && s.phase == StopLocked
    ensures Inv(ShutDownNow(s))
  {
    CallsStay(s, ShutDownNow(s));
  }

  lemma ReleaseKeepsInv(s: State)
    requires Inv(s) && s.phase == Draining && s.todo == {}
    ensures Inv(Release(s))
  {
    CallsStay(s, Release(s));
  }

  lemma CloseKeepsInv(s: State)
    requires Inv(s)
    ensures Inv(CloseClient(s))
  {
    CallsStay(s, CloseClient(s));
  }

  // ----- events and runs -----

  datatype Event =
    | Start(id: CallId, name: string, inputs: Value, hasOutput: bool)
    | Lock(id: CallId)
    | Add
    | FinishRefusal
    | Fill
    | EncodeCall(outcome: Outcome)
    | RetractCall
    | FinishFailure
    | ContextDone(id: CallId)
    | DeleteOwn(id: CallId)
    | ReceiveFinish(id: CallId)
    | DecodeHeader(header: MessageHeader)
    | DecodeHeaderFails
    | Claim
    | DiscardBody(ok: bool)
    | DecodeOutput(body: Option<Value>)
    | FinishClaim
    | StopTakesLock
    | StopTakesEntity
    | Terminate(number: nat)
    | StopReleases
    | Close

  predicate Enabled(s: State, e: Event) {
    match e
    case Start(id, _, _, _) => id !in s.calls
    case Lock(id) => CallerIs(s, id, Queued) && s.holder == Free
    case Add => AtStage(s, Adding) && EntityFree(s)
    case FinishRefusal => AtStage(s, Refused) && HasRoom(s, s.holder.id)
    case Fill => AtStage(s, FillingHeader)
    case EncodeCall(outcome) => AtStage(s, Encoding) && CanEnd(EncodeAll(s.attempts), outcome)
    case RetractCall => AtStage(s, Retracting) && EntityFree(s)
    case FinishFailure => AtStage(s, Failing) && Claims(s, s.sendClaim) && HasRoom(s, s.sendClaim.value)
    case ContextDone(id) => CallerIs(s, id, Selecting)
    case DeleteOwn(id) => CallerIs(s, id, GivingUp) && EntityFree(s)
    case ReceiveFinish(id) => CallerIs(s, id, Selecting) && s.calls[id].channel > 0
    case DecodeHeader(_) => s.phase == AwaitHeader
    case DecodeHeaderFails => s.phase == AwaitHeader
    case Claim => s.phase == GotHeader && PendingExist(s)
    case DiscardBody(_) => s.phase == Discarding
    case DecodeOutput(_) => s.phase == FillingOutput && Claims(s, s.claim)
    case FinishClaim => s.phase == Finishing && Claims(s, s.claim) && HasRoom(s, s.claim.value)
    case StopTakesLock => s.phase == Stopping && s.holder == Free
    case StopTakesEntity => s.phase == StopLocked
    case Terminate(k) =>
      s.phase == Draining && k in s.todo && k in s.tables.pending && HasRoom(s, s.tables.pending[k])
    case StopReleases => s.phase == Draining && s.todo == {}
    case Close => EntityFree(s)
  }

  function Apply(s: State, e: Event): State
    requires Enabled(s, e)
  {
    match e
    case Start(id, name, inputs, hasOutput) => StartCall(s, id, name, inputs, hasOutput)
    case Lock(id) => LockRequest(s, id)
    case Add => AddCall(s)
    case FinishRefusal => FinishRefused(s)
    case Fill => FillHeader(s)
    case EncodeCall(outcome) => if Reported(outcome) then EncodeSucceeds(s, outcome) else EncodeFails(s, outcome)
    case RetractCall => Retract(s)
    case FinishFailure => FinishFailed(s)
    case ContextDone(id) => GiveUp(s, id)
    case DeleteOwn(id) => Withdraw(s, id)
    case ReceiveFinish(id) => TakeResult(s, id)
    case DecodeHeader(h) => ReadHeader(s, h)
    case DecodeHeaderFails => ReadFails(s)
    case Claim => ClaimReply(s)
    case DiscardBody(ok) => Discard(s, ok)
    case DecodeOutput(body) => FillOutput(s, body)
    case FinishClaim => FinishClaimed(s)
    case StopTakesLock => StopLock(s)
    case StopTakesEntity => ShutDownNow(s)
    case Terminate(k) => Drain(s, k)
    case StopReleases => Release(s)
    case Close => CloseClient(s)
  }

  predicate BySender(e: Event) {
    e.Lock? || e.Add? || e.FinishRefusal? || e.Fill? || e.EncodeCall? || e.RetractCall? || e.FinishFailure?
  }

  /** In the loop of receiveCall. */
  predicate ByReceiver(e: Event) {
    e.DecodeHeader? || e.DecodeHeaderFails? || e.Claim? || e.DiscardBody? || e.DecodeOutput? || e.FinishClaim?
  }

  predicate CanRun(s: State, events: seq<Event>)
    decreases |events|
  {
    events == [] || (Enabled(s, events[0]) && CanRun(Apply(s, events[0]), events[1..]))
  }

  function Run(s: State, events: seq<Event>): State
    requires CanRun(s, events)
    decreases |events|
  {
    if events == [] then s else Run(Apply(s, events[0]), events[1..])
  }

  lemma StepKeepsInv(s: State, e: Event)
    requires Inv(s) && Enabled(s, e)
    ensures Inv(Apply(s, e))
  {
    match e
    case Start(id, name, inputs, hasOutput) => StartKeepsInv(s, id, name, inputs, hasOutput);
    case Lock(id) => LockKeepsInv(s, id);
    case Add =>
      if Refusal(s.tables).Some? { RefuseKeepsInv(s, Refusal(s.tables).value); } else { RegisterKeepsInv(s); }
    case FinishRefusal => FinishRefusedKeepsInv(s);
    case Fill => FillHeaderKeepsInv(s);
    case EncodeCall(outcome) =>
      if Reported(outcome) { EncodeSucceedsKeepsInv(s, outcome); } else { EncodeFailsKeepsInv(s, outcome); }
    case RetractCall =>
      if s.calls[s.holder.id].number in s.tables.pending {
        RetractMatchedKeepsInv(s);
      } else {
        RetractUnmatchedKeepsInv(s);
      }
    case FinishFailure => FinishFailedKeepsInv(s);
    case ContextDone(id) => GiveUpKeepsInv(s, id);
    case DeleteOwn(id) => WithdrawKeepsInv(s, id);
    case ReceiveFinish(id) => TakeResultKeepsInv(s, id);
    case DecodeHeader(h) => ReadHeaderKeepsInv(s, h);
    case DecodeHeaderFails => ReadFailsKeepsInv(s);
    case Claim =>
      var claimed := Lookup(s.tables, s.reply.sequenceNumber);
      if claimed.None? { ClaimNothingKeepsInv(s); }
      else if s.reply.error != "" { ClaimForErrorKeepsInv(s, claimed.value); }
      else { ClaimForOutputKeepsInv(s, claimed.value); }
    case DiscardBody(ok) => DiscardKeepsInv(s, ok);
    case DecodeOutput(body) => FillOutputKeepsInv(s, body);
    case FinishClaim => FinishClaimedKeepsInv(s);
    case StopTakesLock => StopLockKeepsInv(s);
    case StopTakesEntity => ShutDownKeepsInv(s);
    case Terminate(k) => DrainKeepsInv(s, k);
    case StopReleases => ReleaseKeepsInv(s);
    case Close => CloseKeepsInv(s);
  }

  lemma InitInv()
    ensures Inv(Init)
  {
  }

  lemma {:induction false} RunKeepsInv(s: State, events: seq<Event>)
    requires Inv(s) && CanRun(s, events)
    ensures Inv(Run(s, events))
    decreases |events|
  {
    if events != [] {
      StepKeepsInv(s, events[0]);
      RunKeepsInv(Apply(s, events[0]), events[1..]);
    }
  }

  // ----- what holds in every run -----

  ghost predicate Reachable(s: State) {
    exists events :: CanRun(Init, events) && Run(Init, events) == s
  }

  lemma ReachableInv(s: State)
    requires Reachable(s)
    ensures Inv(s)
  {
    var events :| CanRun(Init, events) && Run(Init, events) == s;
    RunKeepsInv(Init, events);
  }

  /** Conservation: at any moment every started call is in exactly one place. */
  lemma Conservation(s: State, id: CallId)
    requires Reachable(s) && id in s.calls
    ensures Places(s, id) == 1
  {
    ReachableInv(s);
    assert CallInv(s, id);
  }

  /** Every key of pendingCalls is its call's SequenceNumber and was handed out by addCall. */
  lemma PendingKeys(s: State, k: nat)
    requires Reachable(s) && k in s.tables.pending
    ensures 1 <= k < s.tables.next && s.tables.pending[k] in s.calls && s.calls[s.tables.pending[k]].number == k
  {
    ReachableInv(s);
  }

  /** A caller that gives up takes its own entry out of pendingCalls, and nothing else; nothing at all
      if it was never registered. It then returns. */
  lemma WithdrawRemovesOnlyItself(s: State, id: CallId)
    requires Reachable(s) && Enabled(s, DeleteOwn(id))
    ensures
      var n := Apply(s, DeleteOwn(id));
      && n.tables.pending == (map k | k in s.tables.pending && s.tables.pending[k] != id :: s.tables.pending[k])
      && (s.calls[id].number == 0 ==> n.tables.pending == s.tables.pending)
      && n.tables.next == s.tables.next && n.tables.isClosed == s.tables.isClosed
      && n.tables.isShutdown == s.tables.isShutdown
      && id in n.calls && n.calls[id].caller == Returned(true)
      && n.calls[id].finishes == s.calls[id].finishes && n.calls[id].output == s.calls[id].output
  {
    ReachableInv(s);
    assert CallInv(s, id);
  }

  // ----- abandoned calls -----

  /** No entry belongs to a caller that has given up and returned. */
  ghost predicate NoneAbandoned(s: State) {
    forall k {:trigger s.tables.pending[k]} :: k in s.tables.pending ==>
      s.tables.pending[k] in s.calls && s.calls[s.tables.pending[k]].caller != Returned(true)
  }

  lemma SenderEntries(s: State, e: Event, k: nat)
    requires Enabled(s, e) && BySender(e) && k in Apply(s, e).tables.pending
    ensures
      || (k in s.tables.pending && Apply(s, e).tables.pending[k] == s.tables.pending[k])
      || (e.Add? && Apply(s, e).tables.pending[k] == s.holder.id)
  {
  }

  lemma ReceiverEntries(s: State, e: Event, k: nat)
    requires Enabled(s, e) && ByReceiver(e) && k in Apply(s, e).tables.pending
    ensures k in s.tables.pending && Apply(s, e).tables.pending[k] == s.tables.pending[k]
  {
  }

  lemma OthersEntries(s: State, e: Event, k: nat)
    requires Enabled(s, e) && !BySender(e) && k in Apply(s, e).tables.pending
    ensures k in s.tables.pending && Apply(s, e).tables.pending[k] == s.tables.pending[k]
    ensures e.DeleteOwn? ==> k != s.calls[e.id].number
  {
    if ByReceiver(e) {
      ReceiverEntries(s, e, k);
    }
  }

  lemma SenderCallers(s: State, e: Event, id: CallId)
    requires Enabled(s, e) && BySender(e) && id in s.calls
    ensures id in Apply(s, e).calls
    ensures Apply(s, e).calls[id].caller == Returned(true) ==> s.calls[id].caller == Returned(true)
  {
  }

  lemma OthersCallers(s: State, e: Event, id: CallId)
    requires Enabled(s, e) && !BySender(e) && id in s.calls
    ensures id in Apply(s, e).calls
    ensures Apply(s, e).calls[id].caller == Returned(true) ==>
              s.calls[id].caller == Returned(true) || e == DeleteOwn(id)
  {
  }

  lemma StepKeepsNoneAbandoned(s: State, e: Event)
    requires TablesInv(s) && NoneAbandoned(s) && Enabled(s, e)
    requires e.Add? ==> s.calls[s.holder.id].caller == Sending
    ensures NoneAbandoned(Apply(s, e))
  {
    var n := Apply(s, e);
    forall k | k in n.tables.pending
      ensures n.tables.pending[k] in n.calls && n.calls[n.tables.pending[k]].caller != Returned(true)
    {
      if BySender(e) {
        SenderEntries(s, e, k);
        SenderCallers(s, e, n.tables.pending[k]);
      } else {
        OthersEntries(s, e, k);
        OthersCallers(s, e, n.tables.pending[k]);
      }
    }
  }

  lemma {:induction false} RunKeepsNoneAbandoned(s: State, events: seq<Event>)
    requires Inv(s) && NoneAbandoned(s) && CanRun(s, events)
    ensures NoneAbandoned(Run(s, events))
    decreases |events|
  {
    if events != [] {
      StepKeepsInv(s, events[0]);
      if events[0].Add? {
        assert CallInv(s, s.holder.id);
      }
      StepKeepsNoneAbandoned(s, events[0]);
      RunKeepsNoneAbandoned(Apply(s, events[0]), events[1..]);
    }
  }

  /** Once a caller has given up and returned, no number leads to its call any more, in any run. */
  lemma AbandonedIsNotPending(s: State, id: CallId)
    requires Reachable(s) && CallerIs(s, id, Returned(true))
    ensures forall k :: k in s.tables.pending ==> s.tables.pending[k] != id
  {
    var events :| CanRun(Init, events) && Run(Init, events) == s;
    InitInv();
    RunKeepsNoneAbandoned(Init, events);
  }

  /** At-most-once completion: a call is put on its Finish channel at most once. */
  lemma AtMostOnce(s: State, id: CallId)
    requires Reachable(s) && id in s.calls
    ensures s.calls[id].finishes <= 1 && s.calls[id].channel <= 1 == FINISH_CAPACITY
  {
    ReachableInv(s);
    assert CallInv(s, id);
  }

  // ----- who may write to a call -----

  /** The one goroutine that holds the call takes this step. */
  predicate MayWrite(s: State, e: Event, id: CallId) {
    match e
    case Add => s.holder == Sender(id)
    case FinishFailure => s.sendClaim == Some(id)
    case Claim => Lookup(s.tables, s.reply.sequenceNumber) == Some(id)
    case DecodeOutput(_) => s.claim == Some(id)
    case Terminate(k) => Lookup(s.tables, k) == Some(id)
    case _ => false
  }

  /** Nothing that a waiting caller or the peer could tell has changed. */
  predicate SameResult(c: Call, d: Call) {
    && d.name == c.name && d.inputs == c.inputs && d.hasOutput == c.hasOutput
    && d.number == c.number && d.output == c.output && d.error == c.error
  }

  lemma SenderWrites(s: State, e: Event, id: CallId)
    requires Enabled(s, e) && BySender(e) && id in s.calls
    ensures id in Apply(s, e).calls && Apply(s, e).calls[id].finishes >= s.calls[id].finishes
    ensures SameResult(s.calls[id], Apply(s, e).calls[id]) || MayWrite(s, e, id)
  {
  }

  lemma ReceiverWrites(s: State, e: Event, id: CallId)
    requires Enabled(s, e) && ByReceiver(e) && id in s.calls
    ensures id in Apply(s, e).calls && Apply(s, e).calls[id].finishes >= s.calls[id].finishes
    ensures SameResult(s.calls[id], Apply(s, e).calls[id]) || MayWrite(s, e, id)
  {
  }

  lemma OthersWrite(s: State, e: Event, id: CallId)
    requires Enabled(s, e) && !BySender(e) && !ByReceiver(e) && id in s.calls
    ensures id in Apply(s, e).calls && Apply(s, e).calls[id].finishes >= s.calls[id].finishes
    ensures SameResult(s.calls[id], Apply(s, e).calls[id]) || MayWrite(s, e, id)
  {
  }

  lemma WriterHolds(s: State, e: Event, id: CallId)
    requires Inv(s) && Enabled(s, e) && MayWrite(s, e, id) && id in s.calls
    ensures s.calls[id].finishes == 0 && !s.calls[id].withdrawn
  {
    assert CallInv(s, id);
  }

  /** A step that changes a call's name, inputs, number, output or error is its holder's, and the
      call was then neither finished nor withdrawn. */
  lemma OnlyTheHolderWrites(s: State, e: Event, id: CallId)
    requires Inv(s) && Enabled(s, e) && id in s.calls
    ensures id in Apply(s, e).calls && Apply(s, e).calls[id].finishes >= s.calls[id].finishes
    ensures SameResult(s.calls[id], Apply(s, e).calls[id])
            || (MayWrite(s, e, id) && s.calls[id].finishes == 0 && !s.calls[id].withdrawn)
  {
    if BySender(e) {
      SenderWrites(s, e, id);
    } else if ByReceiver(e) {
      ReceiverWrites(s, e, id);
    } else {
      OthersWrite(s, e, id);
    }
    if MayWrite(s, e, id) {
      WriterHolds(s, e, id);
    }
  }

  lemma {:induction false} RunKeepsResult(s: State, events: seq<Event>, id: CallId)
    requires Inv(s) && CanRun(s, events) && id in s.calls && s.calls[id].finishes > 0
    ensures id in Run(s, events).calls && SameResult(s.calls[id], Run(s, events).calls[id])
    decreases |events|
  {
    if events != [] {
      OnlyTheHolderWrites(s, events[0], id);
      StepKeepsInv(s, events[0]);
      RunKeepsResult(Apply(s, events[0]), events[1..], id);
    }
  }

  /** What a finished call holds is final: its output and its error are the same in every
      continuation, whatever the peer, other callers or the shutdown do. */
  lemma FinishedIsFinal(s: State, events: seq<Event>, id: CallId)
    requires Reachable(s) && CanRun(s, events) && id in s.calls && s.calls[id].finishes > 0
    ensures id in Run(s, events).calls && SameResult(s.calls[id], Run(s, events).calls[id])
  {
    ReachableInv(s);
    RunKeepsResult(s, events, id);
  }

  lemma ClaimedHasRoom(s: State, id: CallId)
    requires Inv(s) && id in s.calls
    requires s.sendClaim == Some(id) || s.claim == Some(id) || IsPending(s, id)
    ensures HasRoom(s, id)
  {
    assert CallInv(s, id);
  }

  lemma FinishHasRoom(s: State)
    requires Inv(s)
    ensures AtStage(s, Refused) ==> Enabled(s, FinishRefusal)
    ensures AtStage(s, Failing) ==> Enabled(s, FinishFailure)
    ensures s.phase == Finishing ==> Enabled(s, FinishClaim)
    ensures s.phase == Draining ==> forall k :: k in s.todo ==> Enabled(s, Terminate(k))
  {
    if s.sendClaim.Some? {
      ClaimedHasRoom(s, s.sendClaim.value);
    }
    if s.claim.Some? {
      ClaimedHasRoom(s, s.claim.value);
    }
    forall k | k in s.todo ensures Enabled(s, Terminate(k)) {
      ClaimedHasRoom(s, s.tables.pending[k]);
    }
  }

  /** Whenever a thread is about to run finishCall the channel has room, so the send cannot block;
      this includes terminateCalls, which then holds both mutexes. */
  lemma FinishNeverBlocks(s: State)
    requires Reachable(s)
    ensures AtStage(s, Refused) ==> Enabled(s, FinishRefusal)
    ensures AtStage(s, Failing) ==> Enabled(s, FinishFailure)
    ensures s.phase == Finishing ==> Enabled(s, FinishClaim)
    ensures s.phase == Draining ==> forall k :: k in s.todo ==> Enabled(s, Terminate(k))
  {
    ReachableInv(s);
    FinishHasRoom(s);
  }

  /** The next step of the sender that holds requestMutex, if its encode returns. */
  function SenderStep(s: State): Event {
    match s.stage
    case Adding => Add
    case Refused => FinishRefusal
    case FillingHeader => Fill
    case Encoding => EncodeCall(if EncodeAll(s.attempts).broken then HeaderFailed(0) else Sent)
    case Retracting => RetractCall
    case Failing => FinishFailure
  }

  /** No deadlock: whoever holds requestMutex can take its next step, so the lock order
      requestMutex-then-entityMutex never closes a cycle. */
  lemma HolderNeverStuck(s: State)
    requires Reachable(s)
    ensures s.holder.Sender? ==> Enabled(s, SenderStep(s))
    ensures s.holder == Terminator ==>
              || Enabled(s, StopTakesEntity) || Enabled(s, StopReleases)
              || exists k :: k in s.todo && Enabled(s, Terminate(k))
  {
    ReachableInv(s);
    FinishNeverBlocks(s);
    if s.holder.Sender? {
      SenderIsFree(s);
    }
  }

  lemma SenderIsFree(s: State)
    requires SenderInv(s) && ReceiverInv(s) && s.holder.Sender?
    requires AtStage(s, Refused) ==> Enabled(s, FinishRefusal)
    requires AtStage(s, Failing) ==> Enabled(s, FinishFailure)
    ensures Enabled(s, SenderStep(s))
  {
  }

  /** receiveCall has left its loop, or will after finishing the call it holds. */
  predicate Ending(s: State) {
    s.phase == Stopping || s.phase == StopLocked || s.phase == Draining || s.phase == Stopped
    || (s.phase == Finishing && s.stop)
  }

  predicate TouchesReply(e: Event) {
    e.DecodeHeader? || e.Claim? || e.DiscardBody? || e.DecodeOutput?
  }

  lemma EndingStays(s: State, e: Event)
    requires Enabled(s, e) && Ending(s)
    ensures !TouchesReply(e) && Ending(Apply(s, e))
  {
  }

  lemma {:induction false} EndingIsForGood(s: State, events: seq<Event>)
    requires CanRun(s, events) && Ending(s)
    ensures forall i :: 0 <= i < |events| ==> !TouchesReply(events[i])
    decreases |events|
  {
    if events != [] {
      EndingStays(s, events[0]);
      EndingIsForGood(Apply(s, events[0]), events[1..]);
      assert forall i :: 1 <= i < |events| ==> events[i] == events[1..][i - 1];
    }
  }

  predicate FailedDecode(e: Event) {
    e.DecodeHeaderFails? || e == DiscardBody(false) || e == DecodeOutput(None)
  }

  /** After the first decode that fails, no reply is read or matched any more. JSON never decodes
      into nil, so there one response with an error, or to an abandoned call, is enough. */
  lemma {:induction false} FirstFailedDecodeIsLast(s: State, events: seq<Event>, i: nat, j: nat)
    requires CanRun(s, events) && i < j < |events| && FailedDecode(events[i])
    ensures !TouchesReply(events[j])
    decreases |events|
  {
    var n := Apply(s, events[0]);
    if i > 0 {
      FirstFailedDecodeIsLast(n, events[1..], i - 1, j - 1);
    } else {
      assert Ending(n);
      EndingIsForGood(n, events[1..]);
      assert events[j] == events[1..][j - 1];
    }
  }

  /** The next step towards the end of terminateCalls. */
  function ShutdownStep(s: State, k: nat): Event {
    match s.phase
    case Stopping => if s.holder.Sender? then SenderStep(s) else StopTakesLock
    case StopLocked => StopTakesEntity
    case _ => if s.todo == {} then StopReleases else Terminate(k)
  }

  function StageRank(stage: SendStage): nat {
    match stage
    case Adding => 5
    case FillingHeader => 4
    case Encoding => 3
    case Retracting => 2
    case _ => 1
  }

  function PhaseRank(s: State): nat {
    match s.phase
    case Stopping => 3
    case StopLocked => 2
    case Draining => 1
    case _ => 0
  }

  /** Steps left within the phase. */
  function InnerRank(s: State): nat {
    if s.phase == Stopping then (if s.holder.Sender? then StageRank(s.stage) else 0) else |s.todo|
  }

  predicate ShuttingDown(s: State) {
    s.phase == Stopping || s.phase == StopLocked || s.phase == Draining
  }

  lemma SenderAdvances(s: State)
    requires Inv(s) && s.phase == Stopping && s.holder.Sender?
    ensures Enabled(s, SenderStep(s))
    ensures
      var n := Apply(s, SenderStep(s));
      n.phase == Stopping && n.todo == s.todo && InnerRank(n) < InnerRank(s)
  {
    FinishHasRoom(s);
    SenderIsFree(s);
  }

  lemma ShutdownAdvances(s: State, k: nat)
    requires Inv(s) && ShuttingDown(s) && (s.todo != {} ==> k in s.todo)
    ensures Enabled(s, ShutdownStep(s, k))
    ensures
      var n := Apply(s, ShutdownStep(s, k));
      && (n.phase == Stopped || ShuttingDown(n))
      && (PhaseRank(n) < PhaseRank(s) || (PhaseRank(n) == PhaseRank(s) && InnerRank(n) < InnerRank(s)))
  {
    if s.phase == Stopping && s.holder.Sender? {
      SenderAdvances(s);
    } else if s.phase == Draining {
      FinishHasRoom(s);
    }
  }

  /** terminateCalls can always run to its end, with no help from any caller, context or peer. */
  lemma {:induction false} ShutdownCompletes(s: State)
    requires Inv(s) && ShuttingDown(s)
    ensures exists events :: CanRun(s, events) && Run(s, events).phase == Stopped
    decreases PhaseRank(s), InnerRank(s)
  {
    var k :| s.todo != {} ==> k in s.todo;
    ShutdownAdvances(s, k);
    var e := ShutdownStep(s, k);
    var n := Apply(s, e);
    ghost var rest: seq<Event> := [];
    if ShuttingDown(n) {
      StepKeepsInv(s, e);
      ShutdownCompletes(n);
      rest :| CanRun(n, rest) && Run(n, rest).phase == Stopped;
    }
    RunCons(s, e, rest);
  }

  lemma {:induction false} ShutdownGoesOn(s: State, events: seq<Event>)
    requires CanRun(s, events) && (ShuttingDown(s) || s.phase == Stopped)
    ensures ShuttingDown(Run(s, events)) || Run(s, events).phase == Stopped
    decreases |events|
  {
    if events != [] {
      EndingStays(s, events[0]);
      ShutdownGoesOn(Apply(s, events[0]), events[1..]);
    }
  }

  /** Every run that is left with no step of the holder of requestMutex or of the receiver has
      brought terminateCalls to its end. */
  lemma ShutdownFinishesIfRunToTheEnd(s: State, events: seq<Event>)
    requires Reachable(s) && ShuttingDown(s) && CanRun(s, events)
    requires forall k :: !Enabled(Run(s, events), ShutdownStep(Run(s, events), k))
    ensures Run(s, events).phase == Stopped
  {
    ReachableInv(s);
    RunKeepsInv(s, events);
    ShutdownGoesOn(s, events);
    var n := Run(s, events);
    if ShuttingDown(n) {
      var k: nat :| n.todo != {} ==> k in n.todo;
      ShutdownAdvances(n, k);
    }
  }

  // ----- a coder that cannot decode into nil -----

  /** Decoding into nil always fails, as it does with JSON: for DecodeMessageBody(nil), and for a
      call whose Output is nil. */
  predicate JsonStep(s: State, e: Event) {
    && e != DiscardBody(true)
    && (e.DecodeOutput? && e.body.Some? && Claims(s, s.claim) ==> s.calls[s.claim.value].hasOutput)
  }

  predicate JsonRun(s: State, events: seq<Event>)
    requires CanRun(s, events)
    decreases |events|
  {
    events == [] || (JsonStep(s, events[0]) && JsonRun(Apply(s, events[0]), events[1..]))
  }

  /** The receiver works on a reply that it cannot decode. */
  predicate Doomed(s: State) {
    || s.phase == Discarding
    || (s.phase == FillingOutput && Claims(s, s.claim) && !s.calls[s.claim.value].hasOutput)
    || Ending(s)
  }

  lemma HasOutputStays(s: State, e: Event, id: CallId)
    requires Enabled(s, e) && id in s.calls && !ByReceiver(e)
    ensures id in Apply(s, e).calls && Apply(s, e).calls[id].hasOutput == s.calls[id].hasOutput
  {
    if BySender(e) {
      SenderKeepsHasOutput(s, e, id);
    }
  }

  lemma SenderKeepsHasOutput(s: State, e: Event, id: CallId)
    requires Enabled(s, e) && id in s.calls && BySender(e)
    ensures id in Apply(s, e).calls && Apply(s, e).calls[id].hasOutput == s.calls[id].hasOutput
  {
  }

  lemma ReceiverStaysDoomed(s: State, e: Event)
    requires Enabled(s, e) && JsonStep(s, e) && Doomed(s) && ByReceiver(e)
    ensures Doomed(Apply(s, e))
  {
  }

  lemma OthersKeepReply(s: State, e: Event)
    requires Enabled(s, e) && !ByReceiver(e)
    ensures Apply(s, e).claim == s.claim && Apply(s, e).stop == s.stop
    ensures Apply(s, e).phase == s.phase || Ending(Apply(s, e))
  {
  }

  lemma DoomedStays(s: State, e: Event)
    requires Enabled(s, e) && JsonStep(s, e) && Doomed(s)
    ensures Doomed(Apply(s, e))
  {
    if ByReceiver(e) {
      ReceiverStaysDoomed(s, e);
    } else {
      OthersKeepReply(s, e);
      if Claims(s, s.claim) {
        HasOutputStays(s, e, s.claim.value);
      }
    }
  }

  lemma {:induction false} DoomedIsForGood(s: State, events: seq<Event>)
    requires CanRun(s, events) && JsonRun(s, events) && Doomed(s)
    ensures Doomed(Run(s, events))
    decreases |events|
  {
    if events != [] {
      DoomedStays(s, events[0]);
      DoomedIsForGood(Apply(s, events[0]), events[1..]);
    }
  }

  lemma JsonCons(s: State, e: Event, rest: seq<Event>)
    requires Enabled(s, e) && JsonStep(s, e) && CanRun(Apply(s, e), rest) && JsonRun(Apply(s, e), rest)
    ensures CanRun(s, [e] + rest) && JsonRun(s, [e] + rest)
    ensures Run(s, [e] + rest) == Run(Apply(s, e), rest)
  {
    assert ([e] + rest)[1..] == rest;
  }

  lemma OutputLeadsBack(s: State, id: CallId, body: Value)
    requires id in s.calls && s.phase == FillingOutput && s.claim == Some(id) && HasRoom(s, id)
    requires s.calls[id].hasOutput
    ensures
      var events := [DecodeOutput(Some(body))] + ([FinishClaim] + []);
      CanRun(s, events) && JsonRun(s, events) && Run(s, events).phase == AwaitHeader
  {
    var s1 := FillOutput(s, Some(body));
    JsonCons(s1, FinishClaim, []);
    JsonCons(s, DecodeOutput(Some(body)), [FinishClaim] + []);
  }

  /** How the receiver gets past a reply. */
  ghost predicate SurvivesReply(s: State) {
    exists events ::
      CanRun(s, [Claim] + events) && JsonRun(s, [Claim] + events) && Run(s, [Claim] + events).phase == AwaitHeader
  }

  lemma SuccessIsSurvived(s: State, id: CallId)
    requires PendingExist(s) && s.phase == GotHeader && s.reply.error == "" && HasRoom(s, id)
    requires Lookup(s.tables, s.reply.sequenceNumber) == Some(id) && s.calls[id].hasOutput
    ensures SurvivesReply(s)
  {
    OutputLeadsBack(ClaimForOutput(s, id), id, "");
    JsonCons(s, Claim, [DecodeOutput(Some(""))] + ([FinishClaim] + []));
  }

  lemma OtherRepliesAreNot(s: State)
    requires PendingExist(s) && s.phase == GotHeader && Doomed(ClaimReply(s))
    ensures !SurvivesReply(s)
  {
    forall events | CanRun(s, [Claim] + events) && JsonRun(s, [Claim] + events)
      ensures Run(s, [Claim] + events).phase != AwaitHeader
    {
      assert ([Claim] + events)[1..] == events;
      DoomedIsForGood(ClaimReply(s), events);
    }
  }

  /** With a coder that cannot decode into nil the receiver survives a reply if and only if the reply
      carries no error and claims a pending call that has an output: after any other reply it never
      reads again. */
  lemma JsonReceiverSurvivesExactly(s: State)
    requires Reachable(s) && s.phase == GotHeader
    ensures
      var n := s.reply.sequenceNumber;
      SurvivesReply(s) <==>
        && s.reply.error == "" && n in s.tables.pending && s.tables.pending[n] in s.calls
        && s.calls[s.tables.pending[n]].hasOutput
  {
    ReachableInv(s);
    var found := Lookup(s.tables, s.reply.sequenceNumber);
    if found.Some? && s.reply.error == "" && s.calls[found.value].hasOutput {
      ClaimedHasRoom(s, found.value);
      SuccessIsSurvived(s, found.value);
    } else {
      OtherRepliesAreNot(s);
    }
  }

  // ----- calls without an output -----

  ghost predicate NothingDecodedIntoNil(s: State) {
    forall id {:trigger s.calls[id]} :: id in s.calls && !s.calls[id].hasOutput ==> s.calls[id].output.None?
  }

  lemma SenderKeepsNil(s: State, e: Event)
    requires Enabled(s, e) && BySender(e) && NothingDecodedIntoNil(s)
    ensures NothingDecodedIntoNil(Apply(s, e))
  {
  }

  lemma OthersKeepNil(s: State, e: Event)
    requires Enabled(s, e) && !BySender(e) && JsonStep(s, e) && NothingDecodedIntoNil(s)
    ensures NothingDecodedIntoNil(Apply(s, e))
  {
  }

  lemma {:induction false} JsonRunKeepsNil(s: State, events: seq<Event>)
    requires CanRun(s, events) && JsonRun(s, events) && NothingDecodedIntoNil(s)
    ensures NothingDecodedIntoNil(Run(s, events))
    decreases |events|
  {
    if events != [] {
      if BySender(events[0]) {
        SenderKeepsNil(s, events[0]);
      } else {
        OthersKeepNil(s, events[0]);
      }
      JsonRunKeepsNil(Apply(s, events[0]), events[1..]);
    }
  }

  /** With such a coder a call without an output never succeeds, whatever the server answers. */
  lemma NilOutputNeverSucceeds(events: seq<Event>, id: CallId)
    requires CanRun(Init, events) && JsonRun(Init, events) && id in Run(Init, events).calls
    ensures
      var c := Run(Init, events).calls[id];
      !c.hasOutput && c.finishes > 0 ==> c.error.Some?
  {
    InitInv();
    RunKeepsInv(Init, events);
    JsonRunKeepsNil(Init, events);
    assert CallInv(Run(Init, events), id);
  }

  /** Once terminateCalls has returned, a call that was ever registered is finished or was
      withdrawn by its own caller, a waiting caller has its result ready, and addCall refuses. */
  lemma NoCallStranded(s: State, id: CallId)
    requires Reachable(s) && id in s.calls && s.phase == Stopped
    ensures Refusal(s.tables).Some?
    ensures s.calls[id].number != 0 ==>
              s.calls[id].finishes == 1 || (s.calls[id].withdrawn && s.calls[id].caller == Returned(true))
    ensures s.calls[id].caller == Selecting || s.calls[id].caller == GivingUp ==> s.calls[id].channel == 1
  {
    ReachableInv(s);
    assert CallInv(s, id);
  }

  /** terminateCalls finishes the calls it reaches with its own error, and leaves the rest alone. */
  lemma TerminateFinishes(s: State, k: nat)
    requires Reachable(s) && Enabled(s, Terminate(k))
    ensures
      var id, n := s.tables.pending[k], Apply(s, Terminate(k));
      && n.tables == s.tables && n.todo == s.todo - {k}
      && id in n.calls && n.calls == s.calls[id := n.calls[id]]
      && n.calls[id].error == Some(Terminated) && n.calls[id].output == s.calls[id].output
      && s.calls[id].finishes == 0 && n.calls[id].finishes == n.calls[id].channel == 1
  {
    ReachableInv(s);
    assert CallInv(s, s.tables.pending[k]);
  }

  lemma {:induction false} RunSnoc(s: State, events: seq<Event>, e: Event)
    requires CanRun(s, events) && Enabled(Run(s, events), e)
    ensures CanRun(s, events + [e]) && Run(s, events + [e]) == Apply(Run(s, events), e)
    decreases |events|
  {
    if events == [] {
      assert [e][1..] == [];
    } else {
      assert (events + [e])[1..] == events[1..] + [e];
      RunSnoc(Apply(s, events[0]), events[1..], e);
    }
  }

  lemma StepIsReachable(s: State, e: Event)
    requires Reachable(s) && Enabled(s, e)
    ensures Reachable(Apply(s, e))
  {
    var events :| CanRun(Init, events) && Run(Init, events) == s;
    RunSnoc(Init, events, e);
  }

  lemma RunCons(s: State, e: Event, rest: seq<Event>)
    requires Enabled(s, e) && CanRun(Apply(s, e), rest)
    ensures CanRun(s, [e] + rest) && Run(s, [e] + rest) == Run(Apply(s, e), rest)
  {
    assert ([e] + rest)[1..] == rest;
  }

  /** Every call made after the shutdown returns at once with an error and changes no table. */
  lemma LateCallFails(s: State, id: CallId)
    requires Reachable(s) && s.phase == Stopped && s.holder == Free && CallerIs(s, id, Queued)
    ensures Refusal(s.tables).Some?
    ensures
      var rest := [Lock(id)] + ([Add] + ([FinishRefusal] + ([ReceiveFinish(id)] + [])));
      && CanRun(s, rest)
      && id in Run(s, rest).calls
      && Run(s, rest).calls[id].caller == Returned(false)
      && Run(s, rest).calls[id].error == Refusal(s.tables)
      && Run(s, rest).tables == s.tables
  {
    ReachableInv(s);
    assert CallInv(s, id);
    LateCallSteps(s, id, Refusal(s.tables).value);
  }

  lemma LateCallSteps(s: State, id: CallId, error: CallError)
    requires s.phase == Stopped && s.holder == Free && CallerIs(s, id, Queued)
    requires Refusal(s.tables) == Some(error) && s.calls[id].channel == 0
    ensures
      var rest := [Lock(id)] + ([Add] + ([FinishRefusal] + ([ReceiveFinish(id)] + [])));
      && CanRun(s, rest)
      && id in Run(s, rest).calls
      && Run(s, rest).calls[id].caller == Returned(false)
      && Run(s, rest).calls[id].error == Some(error)
      && Run(s, rest).tables == s.tables
  {
    var s1 := LockRequest(s, id);
    var s2 := RefuseCall(s1, error);
    var s3 := FinishRefused(s2);
    RunCons(s3, ReceiveFinish(id), []);
    RunCons(s2, FinishRefusal, [ReceiveFinish(id)] + []);
    RunCons(s1, Add, [FinishRefusal] + ([ReceiveFinish(id)] + []));
    RunCons(s, Lock(id), [Add] + ([FinishRefusal] + ([ReceiveFinish(id)] + [])));
  }

  /** sendCall without interference, up to its encode. */
  function SendSteps(id: CallId, outcome: Outcome, rest: seq<Event>): seq<Event> {
    [Lock(id)] + ([Add] + ([Fill] + ([EncodeCall(outcome)] + rest)))
  }

  function Filled(s: State, id: CallId): State
    requires CallerIs(s, id, Queued)
  {
    FillHeader(RegisterCall(LockRequest(s, id)))
  }

  function Encoded(s: State, id: CallId, outcome: Outcome): State
    requires CallerIs(s, id, Queued)
  {
    if Reported(outcome) then EncodeSucceeds(Filled(s, id), outcome) else EncodeFails(Filled(s, id), outcome)
  }

  lemma SendPrefix(s: State, id: CallId, outcome: Outcome, rest: seq<Event>)
    requires CallerIs(s, id, Queued) && s.holder == Free && EntityFree(s) && Refusal(s.tables) == None
    requires CanEnd(EncodeAll(s.attempts), outcome) && CanRun(Encoded(s, id, outcome), rest)
    ensures CanRun(s, SendSteps(id, outcome, rest))
    ensures Run(s, SendSteps(id, outcome, rest)) == Run(Encoded(s, id, outcome), rest)
  {
    var s1 := LockRequest(s, id);
    var s2 := RegisterCall(s1);
    var s3 := FillHeader(s2);
    RunCons(s3, EncodeCall(outcome), rest);
    RunCons(s2, Fill, [EncodeCall(outcome)] + rest);
    RunCons(s1, Add, [Fill] + ([EncodeCall(outcome)] + rest));
    RunCons(s, Lock(id), [Add] + ([Fill] + ([EncodeCall(outcome)] + rest)));
  }

  lemma FailedSend(n: State, id: CallId)
    requires AtStage(n, Retracting) && n.holder.id == id && EntityFree(n) && n.calls[id].channel == 0
    requires Lookup(n.tables, n.calls[id].number) == Some(id)
    ensures CanRun(n, [RetractCall] + ([FinishFailure] + []))
    ensures Run(n, [RetractCall] + ([FinishFailure] + [])) == FinishFailed(RetractMatched(n))
  {
    var n1 := RetractMatched(n);
    RunCons(n1, FinishFailure, []);
    RunCons(n, RetractCall, [FinishFailure] + []);
  }

  function SendRest(outcome: Outcome): seq<Event> {
    if Reported(outcome) then [] else [RetractCall] + ([FinishFailure] + [])
  }

  /** What a send with this outcome does to the state: the contract of Client.Client.SendCall. */
  ghost predicate HasSent(s: State, n: State, id: CallId, outcome: Outcome)
    requires id in s.calls
  {
    var c := s.calls[id];
    && n.attempts == s.attempts + [Attempt(Frame(MessageHeader(c.name, s.tables.next, ""), c.inputs), outcome)]
    && n.holder == Free
    && id in n.calls && n.calls[id].number == s.tables.next && n.calls[id].caller == Selecting
    && if Reported(outcome) then
         n.tables == Register(s.tables, id) && n.calls[id].error == c.error && n.calls[id].channel == c.channel
       else
         && n.tables == s.tables.(next := s.tables.next + 1)
         && n.calls[id].error == Some(EncodeFailed) && n.calls[id].channel == c.channel + 1
  }

  lemma SendSucceeds(s: State, id: CallId, outcome: Outcome)
    requires CallerIs(s, id, Queued) && s.holder == Free && EntityFree(s) && Refusal(s.tables) == None
    requires CanEnd(EncodeAll(s.attempts), outcome) && Reported(outcome)
    ensures CanRun(s, SendSteps(id, outcome, [])) && HasSent(s, Run(s, SendSteps(id, outcome, [])), id, outcome)
  {
    SendPrefix(s, id, outcome, []);
  }

  lemma SendFails(s: State, id: CallId, outcome: Outcome)
    requires CallerIs(s, id, Queued) && s.holder == Free && EntityFree(s) && Refusal(s.tables) == None
    requires CanEnd(EncodeAll(s.attempts), outcome) && !Reported(outcome)
    requires s.calls[id].channel == 0 && s.tables.next !in s.tables.pending
    ensures
      var steps := SendSteps(id, outcome, [RetractCall] + ([FinishFailure] + []));
      CanRun(s, steps) && HasSent(s, Run(s, steps), id, outcome)
  {
    var n := Encoded(s, id, outcome);
    FailedSend(n, id);
    assert n.tables.pending - {s.tables.next} == s.tables.pending;
    SendPrefix(s, id, outcome, [RetractCall] + ([FinishFailure] + []));
  }

  /** The steps of a send that nothing disturbs do to the tables, the wire and the call what the
      contract of Client.Client.SendCall says. */
  lemma UndisturbedSend(s: State, id: CallId, outcome: Outcome)
    requires Reachable(s) && CallerIs(s, id, Queued) && s.holder == Free && EntityFree(s) && Refusal(s.tables) == None
    requires CanEnd(EncodeAll(s.attempts), outcome)
    ensures s.calls[id].channel == 0
    ensures
      var steps := SendSteps(id, outcome, SendRest(outcome));
      CanRun(s, steps) && HasSent(s, Run(s, steps), id, outcome)
  {
    ReachableInv(s);
    assert CallInv(s, id);
    if Reported(outcome) {
      SendSucceeds(s, id, outcome);
    } else {
      SendFails(s, id, outcome);
    }
  }

  // ----- a reply that nothing disturbs -----

  /** The receiver's steps with a reply, from its header on; no body means that decoding it fails. */
  function ReplySteps(s: State, body: Option<Value>): seq<Event> {
    if s.reply.sequenceNumber !in s.tables.pending then [Claim] + ([DiscardBody(body.Some?)] + [])
    else if s.reply.error != "" then [Claim] + ([DiscardBody(body.Some?)] + ([FinishClaim] + []))
    else [Claim] + ([DecodeOutput(body)] + ([FinishClaim] + []))
  }

  /** What these steps do: the contract of Client.Client.HandleReply. */
  ghost predicate HasHandled(s: State, n: State, body: Option<Value>) {
    var number := s.reply.sequenceNumber;
    && n.tables == s.tables.(pending := s.tables.pending - {number})
    && n.phase == (if body.Some? then AwaitHeader else Stopping)
    && n.claim == None
    && if number !in s.tables.pending then n.calls == s.calls
       else
         var id := s.tables.pending[number];
         && id in s.calls && id in n.calls && n.calls == s.calls[id := n.calls[id]]
         && n.calls[id].channel == s.calls[id].channel + 1 && n.calls[id].caller == s.calls[id].caller
         && if s.reply.error != "" then
              n.calls[id].error == Some(Remote(s.reply.error)) && n.calls[id].output == s.calls[id].output
            else if body.Some? then
              n.calls[id].error == s.calls[id].error && n.calls[id].output == body
            else
              n.calls[id].error == Some(BadBody) && n.calls[id].output == s.calls[id].output
  }

  lemma ErrorIsHandled(s: State, id: CallId, body: Option<Value>)
    requires PendingExist(s) && s.phase == GotHeader && s.claim == None && HasRoom(s, id) && s.reply.error != ""
    requires Lookup(s.tables, s.reply.sequenceNumber) == Some(id)
    ensures CanRun(s, ReplySteps(s, body)) && HasHandled(s, Run(s, ReplySteps(s, body)), body)
  {
    var s1 := ClaimForError(s, id);
    var s2 := Discard(s1, body.Some?);
    RunCons(s2, FinishClaim, []);
    RunCons(s1, DiscardBody(body.Some?), [FinishClaim] + []);
    RunCons(s, Claim, [DiscardBody(body.Some?)] + ([FinishClaim] + []));
  }

  lemma OutputRun(s: State, id: CallId, body: Option<Value>)
    requires PendingExist(s) && s.phase == GotHeader && HasRoom(s, id) && s.reply.error == ""
    requires Lookup(s.tables, s.reply.sequenceNumber) == Some(id)
    ensures CanRun(s, ReplySteps(s, body))
    ensures Run(s, ReplySteps(s, body)) == FinishClaimed(FillOutput(ClaimForOutput(s, id), body))
  {
    var s1 := ClaimForOutput(s, id);
    var s2 := FillOutput(s1, body);
    RunCons(s2, FinishClaim, []);
    RunCons(s1, DecodeOutput(body), [FinishClaim] + []);
    RunCons(s, Claim, [DecodeOutput(body)] + ([FinishClaim] + []));
  }

  lemma OutputIsHandled(s: State, id: CallId, body: Option<Value>)
    requires PendingExist(s) && s.phase == GotHeader && id in s.calls && s.reply.error == ""
    requires Lookup(s.tables, s.reply.sequenceNumber) == Some(id)
    ensures HasHandled(s, FinishClaimed(FillOutput(ClaimForOutput(s, id), body)), body)
  {
  }

  lemma NothingIsHandled(s: State, body: Option<Value>)
    requires PendingExist(s) && s.phase == GotHeader && s.claim == None
    requires s.reply.sequenceNumber !in s.tables.pending
    ensures CanRun(s, ReplySteps(s, body)) && HasHandled(s, Run(s, ReplySteps(s, body)), body)
  {
    var s1 := ClaimNothing(s);
    RunCons(s1, DiscardBody(body.Some?), []);
    RunCons(s, Claim, [DiscardBody(body.Some?)] + []);
  }

  /** The receiver's steps with a reply that nothing disturbs have the effect of the contract of
      Client.Client.HandleReply: the call under the number leaves pendingCalls and is finished with
      the remote error, the body, or the decode error, and any other reply touches no call. */
  lemma UndisturbedReply(s: State, body: Option<Value>)
    requires Reachable(s) && s.phase == GotHeader
    ensures CanRun(s, ReplySteps(s, body)) && HasHandled(s, Run(s, ReplySteps(s, body)), body)
  {
    ReachableInv(s);
    if s.reply.sequenceNumber in s.tables.pending {
      var id := s.tables.pending[s.reply.sequenceNumber];
      ClaimedHasRoom(s, id);
      if s.reply.error != "" {
        ErrorIsHandled(s, id, body);
      } else {
        OutputRun(s, id, body);
        OutputIsHandled(s, id, body);
      }
    } else {
      NothingIsHandled(s, body);
    }
  }

  // ----- what is left to the environment -----

  /** Contexts, Close, new calls and the ends of reads, decodes and encodes are free: whenever its
      goroutine is there, any of them may happen. */
  lemma EnvironmentIsFree(s: State, id: CallId)
    ensures forall name, inputs, hasOutput :: id !in s.calls ==> Enabled(s, Start(id, name, inputs, hasOutput))
    ensures CallerIs(s, id, Selecting) ==> Enabled(s, ContextDone(id))
    ensures s.phase != Draining ==> Enabled(s, Close)
    ensures s.phase == AwaitHeader ==>
              Enabled(s, DecodeHeaderFails) && Apply(s, DecodeHeaderFails) == s.(phase := Stopping, stop := true)
    ensures s.phase == AwaitHeader ==> forall h ::
              Enabled(s, DecodeHeader(h)) && Apply(s, DecodeHeader(h)) == s.(phase := GotHeader, reply := h)
    ensures s.phase == Discarding ==> forall ok :: Enabled(s, DiscardBody(ok))
    ensures s.phase == FillingOutput && s.claim.Some? && s.claim.value in s.calls ==>
              forall body :: Enabled(s, DecodeOutput(body))
    ensures s.holder.Sender? && s.holder.id in s.calls && s.stage == Encoding && !EncodeAll(s.attempts).broken ==>
              forall outcome :: Enabled(s, EncodeCall(outcome))
  {
  }

  /** A new call brings its own name, inputs and output, waits for requestMutex, and touches nothing. */
  lemma StartAddsACall(s: State, id: CallId, name: string, inputs: Value, hasOutput: bool)
    requires Enabled(s, Start(id, name, inputs, hasOutput))
    ensures
      var n := Apply(s, Start(id, name, inputs, hasOutput));
      && id in n.calls && n == s.(calls := s.calls[id := n.calls[id]])
      && n.calls[id].name == name && n.calls[id].inputs == inputs && n.calls[id].hasOutput == hasOutput
      && n.calls[id].caller == Queued && n.calls[id].number == 0
  {
  }

  // ----- calls made after Close, in every run -----

  /** The client is closed, and the call has no number and no error but Closed. */
  predicate ClosedFor(s: State, id: CallId) {
    && s.tables.isClosed
    && (id in s.calls ==>
          && s.calls[id].number == 0
          && (s.calls[id].finishes > 0 ==> s.calls[id].error == Some(Closed)))
    && (AtStage(s, Refused) && s.holder.id == id ==> s.calls[id].error == Some(Closed))
  }

  lemma AddKeepsClosed(s: State, id: CallId)
    requires AtStage(s, Adding) && ClosedFor(s, id)
    ensures AddCall(s) == RefuseCall(s, Closed) && ClosedFor(AddCall(s), id)
  {
  }

  lemma FinishKeepsClosed(s: State, id: CallId)
    requires ClosedFor(s, id) && (Claims(s, s.sendClaim) && s.sendClaim.value == id ==> s.stage == Refused)
    ensures AtStage(s, Refused) ==> ClosedFor(FinishRefused(s), id)
    ensures AtStage(s, Failing) && Claims(s, s.sendClaim) ==> ClosedFor(FinishFailed(s), id)
  {
  }

  lemma SenderKeepsClosed(s: State, e: Event, id: CallId)
    requires TablesInv(s) && SenderInv(s) && Enabled(s, e) && BySender(e) && ClosedFor(s, id)
    requires Claims(s, s.sendClaim) && s.sendClaim.value == id ==> s.stage == Refused
    ensures ClosedFor(Apply(s, e), id)
    ensures Apply(s, e).tables.next == s.tables.next && Apply(s, e).asked == s.asked
  {
    if e.Add? {
      AddKeepsClosed(s, id);
    } else if e.FinishRefusal? || e.FinishFailure? {
      FinishKeepsClosed(s, id);
    }
  }

  lemma ClaimKeepsClosed(s: State, id: CallId)
    requires TablesInv(s) && PendingExist(s) && ClosedFor(s, id)
    ensures ClosedFor(ClaimReply(s), id)
  {
  }

  lemma ReceiverKeepsClosed(s: State, e: Event, id: CallId)
    requires TablesInv(s) && Enabled(s, e) && ByReceiver(e) && ClosedFor(s, id)
    requires !(Claims(s, s.claim) && s.claim.value == id)
    ensures ClosedFor(Apply(s, e), id)
    ensures Apply(s, e).tables.next == s.tables.next && Apply(s, e).asked == s.asked
  {
    if e.Claim? {
      ClaimKeepsClosed(s, id);
    }
  }

  lemma DrainKeepsClosed(s: State, k: nat, id: CallId)
    requires TablesInv(s) && Enabled(s, Terminate(k)) && ClosedFor(s, id)
    ensures ClosedFor(Drain(s, k), id)
  {
  }

  lemma OthersKeepClosed(s: State, e: Event, id: CallId)
    requires SenderInv(s) && Enabled(s, e) && !BySender(e) && !ByReceiver(e) && !e.Terminate? && ClosedFor(s, id)
    ensures ClosedFor(Apply(s, e), id)
    ensures Apply(s, e).tables.next == s.tables.next && Apply(s, e).asked == s.asked
  {
  }

  /** A call without a number is claimed by nobody but its refused sender. */
  lemma UnnumberedIsUnclaimed(s: State, id: CallId)
    requires TablesInv(s) && SenderInv(s) && RefusedOnly(s) && (id in s.calls ==> s.calls[id].number == 0)
    ensures !(Claims(s, s.claim) && s.claim.value == id)
    ensures Claims(s, s.sendClaim) && s.sendClaim.value == id ==> s.stage == Refused
  {
  }

  lemma {:induction false} ClosedIsForGood(s: State, events: seq<Event>, id: CallId)
    requires Inv(s) && RefusedOnly(s) && CanRun(s, events) && ClosedFor(s, id)
    ensures ClosedFor(Run(s, events), id)
    ensures Run(s, events).tables.next == s.tables.next && Run(s, events).asked == s.asked
    decreases |events|
  {
    if events != [] {
      var e := events[0];
      StepKeepsInv(s, e);
      StepKeepsRefused(s, e);
      UnnumberedIsUnclaimed(s, id);
      if BySender(e) {
        SenderKeepsClosed(s, e, id);
      } else if ByReceiver(e) {
        ReceiverKeepsClosed(s, e, id);
      } else if e.Terminate? {
        DrainKeepsClosed(s, e.number, id);
      } else {
        OthersKeepClosed(s, e, id);
      }
      ClosedIsForGood(Apply(s, e), events[1..], id);
    }
  }

  lemma ReachableRefused(s: State)
    requires Reachable(s)
    ensures Inv(s) && RefusedOnly(s)
  {
    var events :| CanRun(Init, events) && Run(Init, events) == s;
    InitInv();
    RunKeepsInv(Init, events);
    RunKeepsRefused(Init, events);
  }

  lemma CloseCloses(s: State, id: CallId)
    requires Inv(s) && (id in s.calls ==> s.calls[id].caller == Queued)
    ensures ClosedFor(CloseClient(s), id)
    ensures CloseClient(s).tables.next == s.tables.next && CloseClient(s).asked == s.asked
  {
    if id in s.calls {
      assert CallInv(s, id);
    }
  }

  lemma ClosedOutcome(s: State, id: CallId)
    requires Inv(s) && ClosedFor(s, id) && id in s.calls
    ensures s.calls[id].caller == Returned(false) ==> s.calls[id].error == Some(Closed)
  {
    assert CallInv(s, id);
  }

  /** However a run goes on after Close, no call gets a number any more, and a call that is made
      later or has not reached addCall yet can only be finished by the refusal of a closed client. */
  lemma ClosedRefusesCalls(s: State, events: seq<Event>, id: CallId)
    requires Reachable(s) && Enabled(s, Close) && CanRun(Apply(s, Close), events)
    requires id !in s.calls || s.calls[id].caller == Queued
    requires id in Run(Apply(s, Close), events).calls
    ensures
      var n := Run(Apply(s, Close), events);
      && n.tables.isClosed && n.tables.next == s.tables.next && n.asked == s.asked
      && n.calls[id].number == 0
      && (n.calls[id].finishes > 0 ==> n.calls[id].error == Some(Closed))
      && (n.calls[id].caller == Returned(false) ==> n.calls[id].error == Some(Closed))
  {
    var c := Apply(s, Close);
    StepIsReachable(s, Close);
    ReachableInv(s);
    CloseCloses(s, id);
    ReachableRefused(c);
    ClosedIsForGood(c, events, id);
    RunKeepsInv(c, events);
    ClosedOutcome(Run(c, events), id);
  }

  // ----- calls made after the shutdown, in every run -----

  predicate IsRefusal(error: Option<CallError>) {
    error == Some(Closed) || error == Some(ShutDown)
  }

  /** A call that finishes without ever getting a number was refused. */
  ghost predicate RefusedOnly(s: State) {
    && (forall id {:trigger s.calls[id]} :: id in s.calls && s.calls[id].number == 0 && s.calls[id].finishes > 0 ==>
          IsRefusal(s.calls[id].error))
    && (AtStage(s, Refused) ==> IsRefusal(s.calls[s.holder.id].error))
    && (Claims(s, s.claim) ==> s.calls[s.claim.value].number != 0)
  }

  lemma AddKeepsRefused(s: State)
    requires TablesInv(s) && SenderInv(s) && RefusedOnly(s) && AtStage(s, Adding)
    ensures RefusedOnly(AddCall(s))
  {
  }

  lemma FinishKeepsRefused(s: State)
    requires TablesInv(s) && SenderInv(s) && RefusedOnly(s)
    ensures AtStage(s, Refused) ==> RefusedOnly(FinishRefused(s))
    ensures AtStage(s, Failing) && Claims(s, s.sendClaim) ==> RefusedOnly(FinishFailed(s))
  {
  }

  lemma SenderKeepsRefused(s: State, e: Event)
    requires TablesInv(s) && SenderInv(s) && RefusedOnly(s) && Enabled(s, e) && BySender(e)
    ensures RefusedOnly(Apply(s, e))
  {
    match e
    case Add => AddKeepsRefused(s);
    case FinishRefusal => FinishKeepsRefused(s);
    case FinishFailure => FinishKeepsRefused(s);
    case _ =>
  }

  lemma ClaimKeepsRefused(s: State)
    requires TablesInv(s) && SenderInv(s) && RefusedOnly(s) && PendingExist(s)
    ensures RefusedOnly(ClaimReply(s))
  {
    assert forall k :: k in s.tables.pending ==> s.calls[s.tables.pending[k]].number == k >= 1;
  }

  lemma ClaimantKeepsRefused(s: State, body: Option<Value>)
    requires SenderInv(s) && RefusedOnly(s) && Claims(s, s.claim)
    ensures RefusedOnly(FillOutput(s, body)) && RefusedOnly(FinishClaimed(s))
  {
  }

  lemma ReceiverKeepsRefused(s: State, e: Event)
    requires TablesInv(s) && SenderInv(s) && RefusedOnly(s) && Enabled(s, e) && ByReceiver(e)
    ensures RefusedOnly(Apply(s, e))
  {
    match e
    case Claim => ClaimKeepsRefused(s);
    case DecodeOutput(body) => ClaimantKeepsRefused(s, body);
    case FinishClaim => ClaimantKeepsRefused(s, None);
    case _ =>
  }

  lemma OthersKeepRefused(s: State, e: Event)
    requires TablesInv(s) && SenderInv(s) && ReceiverInv(s) && RefusedOnly(s) && Enabled(s, e)
    requires !BySender(e) && !ByReceiver(e)
    ensures RefusedOnly(Apply(s, e))
  {
  }

  lemma StepKeepsRefused(s: State, e: Event)
    requires TablesInv(s) && SenderInv(s) && ReceiverInv(s) && RefusedOnly(s) && Enabled(s, e)
    ensures RefusedOnly(Apply(s, e))
  {
    if BySender(e) {
      SenderKeepsRefused(s, e);
    } else if ByReceiver(e) {
      ReceiverKeepsRefused(s, e);
    } else {
      OthersKeepRefused(s, e);
    }
  }

  lemma {:induction false} RunKeepsRefused(s: State, events: seq<Event>)
    requires Inv(s) && RefusedOnly(s) && CanRun(s, events)
    ensures RefusedOnly(Run(s, events))
    decreases |events|
  {
    if events != [] {
      StepKeepsInv(s, events[0]);
      StepKeepsRefused(s, events[0]);
      RunKeepsRefused(Apply(s, events[0]), events[1..]);
    }
  }

  /** After the shutdown the call has no number and never gets one. */
  predicate Late(s: State, id: CallId) {
    s.phase == Stopped && s.tables.isShutdown && (id in s.calls ==> s.calls[id].number == 0)
  }

  lemma LateSenderStays(s: State, e: Event, id: CallId)
    requires Enabled(s, e) && Late(s, id) && BySender(e)
    ensures Late(Apply(s, e), id)
    ensures Apply(s, e).tables.next == s.tables.next && Apply(s, e).asked == s.asked
  {
  }

  lemma LateOthersStay(s: State, e: Event, id: CallId)
    requires Enabled(s, e) && Late(s, id) && !BySender(e)
    ensures Late(Apply(s, e), id)
    ensures Apply(s, e).tables.next == s.tables.next && Apply(s, e).asked == s.asked
  {
  }

  lemma {:induction false} LateIsForGood(s: State, events: seq<Event>, id: CallId)
    requires CanRun(s, events) && Late(s, id)
    ensures Late(Run(s, events), id)
    ensures Run(s, events).tables.next == s.tables.next && Run(s, events).asked == s.asked
    decreases |events|
  {
    if events != [] {
      if BySender(events[0]) {
        LateSenderStays(s, events[0], id);
      } else {
        LateOthersStay(s, events[0], id);
      }
      LateIsForGood(Apply(s, events[0]), events[1..], id);
    }
  }

  /** However a run goes on after the shutdown, a call that is made or registered too late never gets
      a number, and if it is finished it was refused. */
  lemma LateCallsAreRefused(s: State, events: seq<Event>, id: CallId)
    requires Reachable(s) && s.phase == Stopped && CanRun(s, events)
    requires id !in s.calls || s.calls[id].number == 0
    requires id in Run(s, events).calls
    ensures
      var n := Run(s, events);
      && n.phase == Stopped && n.tables.next == s.tables.next && n.asked == s.asked
      && n.calls[id].number == 0
      && (n.calls[id].finishes > 0 ==> IsRefusal(n.calls[id].error))
      && (n.calls[id].caller == Selecting ==> n.calls[id].channel == 1)
      && (n.calls[id].caller == Returned(false) ==> IsRefusal(n.calls[id].error))
  {
    var before :| CanRun(Init, before) && Run(Init, before) == s;
    InitInv();
    RunKeepsInv(Init, before);
    RunKeepsRefused(Init, before);
    RunKeepsInv(s, events);
    RunKeepsRefused(s, events);
    LateIsForGood(s, events, id);
    assert CallInv(Run(s, events), id);
  }

  lemma {:induction false} BegunComeFromAttempts(history: seq<Attempt>)
    ensures forall f :: f in Begun(history) ==> exists i :: 0 <= i < |history| && history[i].frame == f
  {
    if history != [] {
      var init := history[..|history| - 1];
      BegunComeFromAttempts(init);
      forall f | f in Begun(history) ensures exists i :: 0 <= i < |history| && history[i].frame == f {
        if f in Begun(init) {
          var i :| 0 <= i < |init| && init[i].frame == f;
          assert history[i].frame == f;
        } else {
          assert history[|init|].frame == f;
        }
      }
    }
  }

  lemma {:induction false} BegunIncreases(history: seq<Attempt>)
    requires forall i, j :: 0 <= i < j < |history| ==>
               history[i].frame.header.sequenceNumber < history[j].frame.header.sequenceNumber
    ensures forall i, j :: 0 <= i < j < |Begun(history)| ==>
               Begun(history)[i].header.sequenceNumber < Begun(history)[j].header.sequenceNumber
  {
    if history != [] {
      var init := history[..|history| - 1];
      BegunIncreases(init);
      BegunComeFromAttempts(init);
      forall i, j | 0 <= i < j < |Begun(history)|
        ensures Begun(history)[i].header.sequenceNumber < Begun(history)[j].header.sequenceNumber
      {
        assert Begun(init)[i] in Begun(init);
      }
    }
  }

  /** A frame begun on the wire is the request of exactly the call that holds its number. */
  lemma RequestBelongsToItsCall(s: State, f: Frame)
    requires Reachable(s) && f in Begun(s.attempts)
    ensures IsRequest(s.asked, f)
    ensures
      var id := s.asked[f.header.sequenceNumber].id;
      id in s.calls && f == Frame(MessageHeader(s.calls[id].name, s.calls[id].number, ""), s.calls[id].inputs)
  {
    ReachableInv(s);
    BegunComeFromAttempts(s.attempts);
    assert CallInv(s, s.asked[f.header.sequenceNumber].id);
  }

  /** Wire order: sequence numbers on the wire strictly increase although all senders share one
      header. The peer reads exactly the requests reported as sent if and only if none was reported
      after one whose body has no text and all that were reported arrived; without such bodies it
      reads a prefix of them. */
  lemma RequestsOnTheWire(s: State)
    requires Reachable(s)
    ensures
      forall i, j :: 0 <= i < j < |Begun(s.attempts)| ==>
        Begun(s.attempts)[i].header.sequenceNumber < Begun(s.attempts)[j].header.sequenceNumber
    ensures Read(EncodeAll(s.attempts).sent) == Delivered(s.attempts)
            <==> NoSuccessAfterBodyFailure(s.attempts) && NothingLost(s.attempts)
    ensures NoSuccessAfterBodyFailure(s.attempts) ==> Read(EncodeAll(s.attempts).sent) <= Delivered(s.attempts)
  {
    ReachableInv(s);
    BegunIncreases(s.attempts);
    FramingRoundTrip(s.attempts);
    if NoSuccessAfterBodyFailure(s.attempts) {
      PeerReadsAPrefix(s.attempts);
    }
  }
}
