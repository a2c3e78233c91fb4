/**
  client/client.go, the objects: Call and Client with the fields they update in place. Each
  section under entityMutex is one method, proved against ClientTables; SendCall and ReceiveCall
  are the two long-running functions without interference. CallProtocol adds the interference;
  its lemma UndisturbedSend says that the two agree on sendCall.
 */
module Client {
  import opened Wrappers
  import opened Coder
  import opened ClientTables

  class Call {
    const serviceDotMethod: string
    const inputs: Value
    var sequenceNumber: nat
    var output: Option<Value>
    var error: Option<CallError>
    var finish: seq<Call>  // what the Finish channel holds; its capacity is 1

    constructor (serviceDotMethod: string, inputs: Value)
      ensures this.serviceDotMethod == serviceDotMethod && this.inputs == inputs
      ensures sequenceNumber == 0 && output == None && error == None && finish == []
    {
      this.serviceDotMethod, this.inputs := serviceDotMethod, inputs;
      sequenceNumber, output, error, finish := 0, None, None, [];
    }

    method FinishCall()
      requires finish == []
      modifies this`finish
      ensures finish == [this]
    {
      finish := finish + [this];
    }
  }

  /** A response as receiveCall meets it; no body means that decoding it fails. */
  datatype Reply = Reply(header: MessageHeader, body: Option<Value>)

  /** What a reply makes of its call: the call's output and its error. */
  function Answered(r: Reply, output: Option<Value>): (Option<Value>, Option<CallError>) {
    if r.header.error != "" then (output, Some(Remote(r.header.error)))
    else if r.body.None? then (output, Some(BadBody))
    else (r.body, None)
  }

  /** What receiveCall, about to read reply i, makes of a pending call: its output and its error
      when it is finished. */
  function Settled(replies: seq<Reply>, i: nat, number: nat, output: Option<Value>)
    : (Option<Value>, Option<CallError>)
    decreases |replies| - i
  {
    if i >= |replies| then (output, Some(Terminated))
    else
      var r := replies[i];
      if r.header.sequenceNumber == number then Answered(r, output)
      else if r.body.None? then (output, Some(Terminated))
      else Settled(replies, i + 1, number, output)
  }

  /** Reply i is the first under this number, and the bodies of all replies before it decode. */
  ghost predicate Reaches(replies: seq<Reply>, number: nat, i: nat) {
    && i < |replies| && replies[i].header.sequenceNumber == number
    && forall j :: 0 <= j < i ==> replies[j].header.sequenceNumber != number && replies[j].body.Some?
  }

  /** From reply i on; no reply before it concerns the number. */
  lemma {:induction false} SettledFrom(replies: seq<Reply>, i: nat, number: nat, output: Option<Value>, k: nat)
    requires forall j :: 0 <= j < i && j < |replies| ==>
               replies[j].header.sequenceNumber != number && replies[j].body.Some?
    ensures Reaches(replies, number, k) ==> Settled(replies, i, number, output) == Answered(replies[k], output)
    ensures (forall j: nat :: !Reaches(replies, number, j)) ==>
              Settled(replies, i, number, output) == (output, Some(Terminated))
    decreases |replies| - i
  {
    if i < |replies| {
      if replies[i].header.sequenceNumber == number {
        assert Reaches(replies, number, i);
      } else if replies[i].body.Some? {
        SettledFrom(replies, i + 1, number, output, k);
      }
    }
  }

  lemma SettledMeaning(replies: seq<Reply>)
    ensures forall number, output, k: nat {:trigger Settled(replies, 0, number, output), Reaches(replies, number, k)} ::
              Reaches(replies, number, k) ==> Settled(replies, 0, number, output) == Answered(replies[k], output)
    ensures forall number, output {:trigger Settled(replies, 0, number, output)} ::
              (forall k: nat :: !Reaches(replies, number, k)) ==>
                Settled(replies, 0, number, output) == (output, Some(Terminated))
  {
    forall number, output, k: nat
      ensures Reaches(replies, number, k) ==> Settled(replies, 0, number, output) == Answered(replies[k], output)
      ensures (forall j: nat :: !Reaches(replies, number, j)) ==>
                Settled(replies, 0, number, output) == (output, Some(Terminated))
    {
      SettledFrom(replies, 0, number, output, k);
    }
  }

  /** The same when `stop` tells whether a decode has failed already. */
  function StillSettled(replies: seq<Reply>, i: nat, stop: bool, number: nat, output: Option<Value>)
    : (Option<Value>, Option<CallError>)
  {
    if stop then (output, Some(Terminated)) else Settled(replies, i, number, output)
  }

  class Client {
    const coder: JsonCoder
    var requestHeader: MessageHeader
    var sequenceNumber: nat
    var pendingCalls: map<nat, Call>
    var isClosed: bool
    var isShutdown: bool

    function View(): Tables<Call>
      reads this
    {
      Tables(sequenceNumber, pendingCalls, isClosed, isShutdown)
    }

    /** Keys are the calls' own numbers, and before shutdown no pending call is finished. */
    ghost predicate Valid()
      reads this, pendingCalls.Values
    {
      && sequenceNumber >= 1
      && forall k :: k in pendingCalls ==>
           && 1 <= k < sequenceNumber
           && pendingCalls[k].sequenceNumber == k
           && (!isShutdown ==> pendingCalls[k].finish == [] && pendingCalls[k].error == None)
    }

    constructor (coder: JsonCoder)
      ensures Valid() && View() == NewTables() && this.coder == coder
      ensures sequenceNumber == 1 && pendingCalls == map[] && !isClosed && !isShutdown
    {
      this.coder := coder;
      requestHeader := MessageHeader("", 0, "");
      sequenceNumber, pendingCalls, isClosed, isShutdown := 1, map[], false, false;
    }

    method Close() returns (ok: bool)
      modifies this`isClosed, coder`isClosed
      ensures ok == !old(isClosed) && isClosed
      ensures View() == old(View()).(isClosed := true)
      ensures coder.isClosed == (!old(isClosed) || old(coder.isClosed))
    {
      if isClosed {
        return false;
      }
      isClosed := true;
      coder.Close();
      ok := true;
    }

    method IsAvailable() returns (available: bool)
      ensures available == (!isClosed && !isShutdown) == ClientTables.IsAvailable(View())
    {
      available := !isShutdown && !isClosed;
    }

    method AddCall(call: Call) returns (number: nat, error: Option<CallError>)
      requires Valid() && call !in pendingCalls.Values && call.finish == [] && call.error == None
      modifies this`sequenceNumber, this`pendingCalls, call`sequenceNumber
      ensures Valid()
      ensures error == Refusal(old(View()))
      ensures isClosed ==> error == Some(Closed)
      ensures !isClosed && isShutdown ==> error == Some(ShutDown)
      ensures isClosed || isShutdown ==>
                && number == 0 && call.sequenceNumber == old(call.sequenceNumber)
                && pendingCalls == old(pendingCalls) && sequenceNumber == old(sequenceNumber)
      ensures !isClosed && !isShutdown ==>
                && error == None && number == call.sequenceNumber == old(sequenceNumber)
                && pendingCalls == old(pendingCalls)[number := call] && sequenceNumber == number + 1
                && View() == Register(old(View()), call)
    {
      if isClosed {
        return 0, Some(Closed);
      }
      if isShutdown {
        return 0, Some(ShutDown);
      }
      call.sequenceNumber := sequenceNumber;
      pendingCalls := pendingCalls[call.sequenceNumber := call];
      sequenceNumber := sequenceNumber + 1;
      number, error := call.sequenceNumber, None;
    }

    method DeleteCall(number: nat) returns (call: Call?)
      requires Valid()
      modifies this`pendingCalls
      ensures Valid()
      ensures View() == Remove(old(View()), number)
      ensures pendingCalls == old(pendingCalls) - {number}
      ensures call == if number in old(pendingCalls) then old(pendingCalls)[number] else null
    {
      call := if number in pendingCalls then pendingCalls[number] else null;
      pendingCalls := pendingCalls - {number};
    }

    /** Every pending call is finished with the error, and stays in the map. */
    method TerminateCalls(error: CallError)
      requires Valid() && !isShutdown
      modifies this`isShutdown, pendingCalls.Values`error, pendingCalls.Values`finish
      ensures Valid() && View() == old(View()).(isShutdown := true)
      ensures isShutdown && pendingCalls == old(pendingCalls)
      ensures forall k :: k in pendingCalls ==>
                pendingCalls[k].error == Some(error) && pendingCalls[k].finish == [pendingCalls[k]]
    {
      isShutdown := true;
      var todo := pendingCalls.Keys;
      while todo != {}
        invariant todo <= pendingCalls.Keys && View() == old(View()).(isShutdown := true)
        invariant forall k :: k in pendingCalls ==>
                    if k in todo then pendingCalls[k].finish == []
                    else pendingCalls[k].error == Some(error) && pendingCalls[k].finish == [pendingCalls[k]]
        decreases |todo|
      {
        var k :| k in todo;
        var call := pendingCalls[k];
        call.error := Some(error);
        call.FinishCall();
        todo := todo - {k};
      }
    }

    /** deleteCall after an encode that failed; the call it finds is finished. */
    method Retract(number: nat)
      requires Valid() && !isShutdown
      modifies this`pendingCalls, Matched(number)`error, Matched(number)`finish
      ensures Valid() && View() == Remove(old(View()), number)
      ensures forall call :: call in old(Matched(number)) ==>
                call.error == Some(EncodeFailed) && call.finish == [call]
    {
      var matched := DeleteCall(number);
      if matched != null {
        matched.error := Some(EncodeFailed);
        matched.FinishCall();
      }
    }

    /** sendCall when nothing interferes; `choice` tells how the encode would end. */
    method SendCall(call: Call, choice: Outcome)
      requires Valid() && call !in pendingCalls.Values && call.finish == [] && call.error == None
      modifies this`sequenceNumber, this`pendingCalls, this`requestHeader
      modifies call`sequenceNumber, call`error, call`finish
      modifies coder`connection, coder`buffer, coder`writeFailed
      ensures Valid()
      ensures
        var frame := Frame(MessageHeader(call.serviceDotMethod, old(sequenceNumber), ""), call.inputs);
        var outcome := old(coder.OutcomeOf(choice));
        if isClosed || isShutdown then
          && pendingCalls == old(pendingCalls) && sequenceNumber == old(sequenceNumber)
          && coder.Out() == old(coder.Out())
          && call.error == Some(if isClosed then Closed else ShutDown) && call.finish == [call]
        else
          && call.sequenceNumber == old(sequenceNumber) && sequenceNumber == old(sequenceNumber) + 1
          && coder.Out() == Encode(old(coder.Out()), Attempt(frame, outcome))
          && if outcome.Sent? || outcome.Unsent? then
               && pendingCalls == old(pendingCalls)[old(sequenceNumber) := call]
               && call.error == None && call.finish == []
             else
               && pendingCalls == old(pendingCalls)
               && call.error == Some(EncodeFailed) && call.finish == [call]
    {
      var number, error := AddCall(call);
      if error.Some? {
        call.error := error;
        call.FinishCall();
        return;
      }
      requestHeader := MessageHeader(call.serviceDotMethod, number, "");
      var outcome := coder.EncodeMessageHeaderAndBody(requestHeader, call.inputs, choice);
      if !Reported(outcome) {
        assert pendingCalls - {number} == old(pendingCalls);
        Retract(number);
      }
    }

    ghost function Matched(number: nat): set<Call>
      reads this
    {
      if number in pendingCalls then {pendingCalls[number]} else {}
    }

    /** One turn of receiveCall's loop: the matched call, if any, leaves the map and is finished. */
    method HandleReply(reply: Reply) returns (stop: bool)
      requires Valid() && !isShutdown
      modifies this`pendingCalls
      modifies Matched(reply.header.sequenceNumber)`output, Matched(reply.header.sequenceNumber)`error
      modifies Matched(reply.header.sequenceNumber)`finish
      ensures Valid()
      ensures stop == reply.body.None?
      ensures pendingCalls == old(pendingCalls) - {reply.header.sequenceNumber}
      ensures reply.header.sequenceNumber in old(pendingCalls) ==>
                var call := old(pendingCalls)[reply.header.sequenceNumber];
                && call.finish == [call]
                && if reply.header.error != "" then
                     call.error == Some(Remote(reply.header.error)) && call.output == old(call.output)
                   else if reply.body.Some? then
                     call.error == None && call.output == reply.body
                   else
                     call.error == Some(BadBody) && call.output == old(call.output)
    {
      var call := DeleteCall(reply.header.sequenceNumber);
      stop := reply.body.None?;
      if call != null {
        if reply.header.error != "" {
          call.error := Some(Remote(reply.header.error));
        } else if reply.body.Some? {
          call.output := reply.body;
        } else {
          call.error := Some(BadBody);
        }
        call.FinishCall();
      }
    }

    /** After i replies: of the calls in `start`, whose outputs were `outputs` then, those that have
        left the map are settled, and the others are to be settled by the rest. */
    ghost predicate Progress(
      start: map<nat, Call>, outputs: map<nat, Option<Value>>, replies: seq<Reply>, i: nat, stop: bool)
      requires i <= |replies| && outputs.Keys == start.Keys
      reads this, start.Values
    {
      && pendingCalls.Keys <= start.Keys
      && (forall k :: k in start ==> start[k].sequenceNumber == k)
      && (forall k :: k in pendingCalls ==> pendingCalls[k] == start[k])
      && (forall k :: k in pendingCalls ==>
            && start[k].output == outputs[k]
            && Settled(replies, 0, k, outputs[k]) == StillSettled(replies, i, stop, k, outputs[k]))
      && (forall k :: k in start && k !in pendingCalls ==>
            start[k].finish == [start[k]] && (start[k].output, start[k].error) == Settled(replies, 0, k, outputs[k]))
    }

    /** One turn of the loop brings the progress one reply further. */
    method Turn(
      replies: seq<Reply>, i: nat, ghost start: map<nat, Call>, ghost outputs: map<nat, Option<Value>>)
      returns (stop: bool)
      requires Valid() && !isShutdown && i < |replies| && outputs.Keys == start.Keys
      requires Progress(start, outputs, replies, i, false)
      modifies this`pendingCalls, start.Values`output, start.Values`error, start.Values`finish
      ensures Valid() && Progress(start, outputs, replies, i + 1, stop)
    {
      stop := HandleReply(replies[i]);
    }

    lemma ProgressEnds(
      start: map<nat, Call>, outputs: map<nat, Option<Value>>, replies: seq<Reply>, i: nat, stop: bool)
      requires i <= |replies| && outputs.Keys == start.Keys && (stop || i == |replies|)
      requires Progress(start, outputs, replies, i, stop)
      ensures Progress(start, outputs, replies, |replies|, true)
    {
    }

    /** The loop of receiveCall: a call is settled by the first reply under its number if the loop
        gets that far, and is left for terminateCalls otherwise. */
    method ReceiveReplies(replies: seq<Reply>, ghost outputs: map<nat, Option<Value>>)
      requires Valid() && !isShutdown && outputs == map k | k in pendingCalls :: pendingCalls[k].output
      modifies this`pendingCalls
      modifies pendingCalls.Values`output, pendingCalls.Values`error, pendingCalls.Values`finish
      ensures Valid() && !isShutdown && Progress(old(pendingCalls), outputs, replies, |replies|, true)
    {
      ghost var start := pendingCalls;
      var i, stop := 0, false;
      while !stop && i < |replies|
        invariant i <= |replies| && Valid() && !isShutdown && Progress(start, outputs, replies, i, stop)
        decreases |replies| - i, !stop
      {
        stop := Turn(replies, i, start, outputs);
        i := i + 1;
      }
      ProgressEnds(start, outputs, replies, i, stop);
    }

    /** receiveCall, in terms of Settled. */
    method ReceiveAll(replies: seq<Reply>)
      requires Valid() && !isShutdown
      modifies this`pendingCalls, this`isShutdown
      modifies pendingCalls.Values`output, pendingCalls.Values`error, pendingCalls.Values`finish
      ensures Valid() && isShutdown
      ensures forall k :: k in old(pendingCalls) ==>
                var call := old(pendingCalls)[k];
                call.finish == [call] && (call.output, call.error) == Settled(replies, 0, k, old(call.output))
    {
      ghost var outputs := map k | k in pendingCalls :: pendingCalls[k].output;
      ReceiveReplies(replies, outputs);
      TerminateCalls(Terminated);
    }

    /** receiveCall when nothing interferes, on any replies followed by a header that does not
        decode: every pending call is finished exactly once, with what the first reply under its
        number says if the loop gets that far, and with the termination error otherwise. */
    method ReceiveCall(replies: seq<Reply>)
      requires Valid() && !isShutdown
      modifies this`pendingCalls, this`isShutdown
      modifies pendingCalls.Values`output, pendingCalls.Values`error, pendingCalls.Values`finish
      ensures Valid() && isShutdown
      ensures forall k :: k in old(pendingCalls) ==> old(pendingCalls)[k].finish == [old(pendingCalls)[k]]
      ensures forall k, i: nat :: k in old(pendingCalls) && Reaches(replies, k, i) ==>
                var call, r := old(pendingCalls)[k], replies[i];
                if r.header.error != "" then
                  call.error == Some(Remote(r.header.error)) && call.output == old(call.output)
                else if r.body.Some? then
                  call.error == None && call.output == r.body
                else
                  call.error == Some(BadBody) && call.output == old(call.output)
      ensures forall k :: k in old(pendingCalls) && (forall i: nat :: !Reaches(replies, k, i)) ==>
                var call := old(pendingCalls)[k];
                call.error == Some(Terminated) && call.output == old(call.output)
    {
      SettledMeaning(replies);
      ReceiveAll(replies);
    }
  }
}
