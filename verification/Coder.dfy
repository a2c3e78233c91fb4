/**
  coder/coder.go and coder/json_coder.go: what one side of a connection writes, and
  what alternating header/body decodes on the other side read back.

  A JSON value is one opaque token, so the wire is a sequence of tokens.
 */
module Coder {
  import opened Wrappers

  /** The JSON text of a message body; it is never inspected. */
  type Value = string

  datatype MessageHeader = MessageHeader(serviceDotMethod: string, sequenceNumber: nat, error: string)

  datatype Token = HeaderToken(header: MessageHeader) | BodyToken(body: Value)

  datatype Frame = Frame(header: MessageHeader, body: Value)

  /** What has reached the connection, what still sits in the bufio.Writer, and whether a write
      has failed: the writer keeps its first error and refuses every write after it. */
  datatype Stream = Stream(sent: seq<Token>, buffer: seq<Token>, broken: bool)

  const EmptyStream := Stream([], [], false)

  /**
    How one encode of a header and a body can end. The writer flushes by itself when it is full, so
    every end but Sent tells how many of the tokens in the buffer have been written by then.
      Sent          both are encoded and flushed
      Unsent        the last flush failed; the coder drops that error and reports success
      HeaderFailed  a write failed while the header was encoded
      BodyFailed    the body has no JSON text; the writer is as good as before
      BodyLost      a write failed while the body was encoded
   */
  datatype Outcome =
    | Sent
    | Unsent(written: nat)
    | HeaderFailed(written: nat)
    | BodyFailed(written: nat)
    | BodyLost(written: nat)

  /** The encode returned no error. */
  predicate Reported(o: Outcome) {
    o.Sent? || o.Unsent?
  }

  /** The header was encoded, and no later frame can follow on it unless the body does. */
  predicate Begins(o: Outcome) {
    Reported(o) || o.BodyLost?
  }

  /** The outcomes that the writer's state leaves open. */
  predicate CanEnd(s: Stream, o: Outcome) {
    s.broken ==> o.HeaderFailed?
  }

  datatype Attempt = Attempt(frame: Frame, outcome: Outcome)

  /** The writer writes up to n tokens of its buffer; it may fail over that. */
  function Write(s: Stream, n: nat, fails: bool): Stream {
    var k := if n < |s.buffer| then n else |s.buffer|;
    Stream(s.sent + s.buffer[..k], s.buffer[k..], fails)
  }

  function BufferHeader(s: Stream, header: MessageHeader): Stream {
    s.(buffer := s.buffer + [HeaderToken(header)])
  }

  function BufferBody(s: Stream, body: Value): Stream {
    s.(buffer := s.buffer + [BodyToken(body)])
  }

  /** An encode that ends over its header. A writer that is broken already writes nothing. */
  function EndHeader(s: Stream, written: nat): Stream {
    if s.broken then s else Write(s, written, true)
  }

  /** The second half of an encode, with the header in the buffer. */
  function EndBody(s: Stream, body: Value, o: Outcome): Stream {
    match o
    case Sent => Write(BufferBody(s, body), |s.buffer| + 1, false)
    case Unsent(written) => Write(BufferBody(s, body), written, true)
    case BodyFailed(written) => Write(s, written, false)
    case BodyLost(written) => Write(s, written, true)
    case HeaderFailed(_) => s
  }

  function Encode(s: Stream, a: Attempt): Stream {
    if a.outcome.HeaderFailed? then EndHeader(s, a.outcome.written)
    else EndBody(BufferHeader(s, a.frame.header), a.frame.body, a.outcome)
  }

  /** The writer loses and invents nothing, and writes at most as much as it is told to. */
  lemma WriteMeaning(s: Stream, n: nat, fails: bool)
    ensures
      var w := Write(s, n, fails);
      && w.sent + w.buffer == s.sent + s.buffer && s.sent <= w.sent && w.broken == fails
      && |w.sent| == |s.sent| + if n < |s.buffer| then n else |s.buffer|
  {
  }

  /** What an encode leaves behind: a success has written everything, the writer keeps any error but
      that of the body's text, and nothing is lost or invented on the way. */
  lemma EncodeMeaning(s: Stream, f: Frame, o: Outcome)
    requires CanEnd(s, o)
    ensures
      var n, h := Encode(s, Attempt(f, o)), [HeaderToken(f.header)];
      && n.sent + n.buffer == s.sent + (if o.HeaderFailed? then s.buffer
                                        else if Reported(o) then s.buffer + h + [BodyToken(f.body)]
                                        else s.buffer + h)
      && (o.Sent? ==> n.buffer == [])
      && (n.broken <==> s.broken || !(o.Sent? || o.BodyFailed?))
      && (s.broken ==> n == s)
      && (!s.broken && !o.Sent? && o.written <= |s.buffer| ==> |n.sent| == |s.sent| + o.written)
  {
    var h := BufferHeader(s, f.header);
    match o
    case Sent => WriteMeaning(BufferBody(h, f.body), |h.buffer| + 1, false);
    case Unsent(written) => WriteMeaning(BufferBody(h, f.body), written, true);
    case BodyFailed(written) => WriteMeaning(h, written, false);
    case BodyLost(written) => WriteMeaning(h, written, true);
    case HeaderFailed(written) => WriteMeaning(s, written, true);
  }

  lemma NothingWritten(s: Stream, f: Frame, o: Outcome)
    requires s.broken || (!o.Sent? && o.written == 0)
    requires CanEnd(s, o)
    ensures Encode(s, Attempt(f, o)).sent == s.sent
  {
  }

  /** The stream after a whole history of encodes. */
  function EncodeAll(history: seq<Attempt>): Stream {
    if history == [] then EmptyStream
    else Encode(EncodeAll(history[..|history| - 1]), history[|history| - 1])
  }

  /** No encode gets further than the writer's kept error lets it. */
  predicate Possible(history: seq<Attempt>) {
    history == [] ||
    (Possible(history[..|history| - 1])
     && CanEnd(EncodeAll(history[..|history| - 1]), history[|history| - 1].outcome))
  }

  /** The frames whose encode reported success, in order. */
  function Delivered(history: seq<Attempt>): seq<Frame> {
    if history == [] then []
    else
      var last := history[|history| - 1];
      Delivered(history[..|history| - 1]) + if Reported(last.outcome) then [last.frame] else []
  }

  /** The frames that were begun: those reported, and those whose body was lost. */
  function Begun(history: seq<Attempt>): seq<Frame> {
    if history == [] then []
    else
      var last := history[|history| - 1];
      Begun(history[..|history| - 1]) + if Begins(last.outcome) then [last.frame] else []
  }

  /** Both tokens of a frame that found the buffer empty were written, perhaps all but the last
      line break. */
  predicate Arrives(o: Outcome) {
    o.Sent? || (o.Unsent? && o.written >= 2)
  }

  function Arrived(history: seq<Attempt>): seq<Frame> {
    if history == [] then []
    else
      var last := history[|history| - 1];
      Arrived(history[..|history| - 1]) + if Arrives(last.outcome) then [last.frame] else []
  }

  lemma AttemptAppended(history: seq<Attempt>, a: Attempt)
    ensures EncodeAll(history + [a]) == Encode(EncodeAll(history), a)
    ensures Delivered(history + [a]) == Delivered(history) + if Reported(a.outcome) then [a.frame] else []
    ensures Begun(history + [a]) == Begun(history) + if Begins(a.outcome) then [a.frame] else []
    ensures Possible(history + [a]) <==> Possible(history) && CanEnd(EncodeAll(history), a.outcome)
  {
    assert (history + [a])[..|history|] == history;
  }

  // ----- tokens -----

  function Tokens(frames: seq<Frame>): seq<Token> {
    if frames == [] then []
    else
      var last := frames[|frames| - 1];
      Tokens(frames[..|frames| - 1]) + [HeaderToken(last.header), BodyToken(last.body)]
  }

  /** What the peer makes of a stream by alternating DecodeMessageHeader and DecodeMessageBody: the
      frames it decodes before the first decode that fails. */
  function Read(tokens: seq<Token>): seq<Frame> {
    if |tokens| >= 2 && tokens[0].HeaderToken? && tokens[1].BodyToken?
    then [Frame(tokens[0].header, tokens[1].body)] + Read(tokens[2..])
    else []
  }

  /** Frame number i occupies tokens 2i and 2i+1. */
  lemma {:induction false} TokenAt(frames: seq<Frame>, i: nat)
    requires i < |frames|
    ensures |Tokens(frames)| == 2 * |frames|
    ensures Tokens(frames)[2 * i] == HeaderToken(frames[i].header)
    ensures Tokens(frames)[2 * i + 1] == BodyToken(frames[i].body)
  {
    var init := frames[..|frames| - 1];
    if init != [] {
      TokenAt(init, if i < |init| then i else 0);
    }
  }

  lemma TokenCount(frames: seq<Frame>)
    ensures |Tokens(frames)| == 2 * |frames|
  {
    if frames != [] {
      TokenAt(frames, 0);
    }
  }

  function FrameTokens(f: Frame): seq<Token> {
    [HeaderToken(f.header), BodyToken(f.body)]
  }

  lemma {:induction false} TokensTail(frames: seq<Frame>)
    requires frames != []
    ensures Tokens(frames) == FrameTokens(frames[0]) + Tokens(frames[1..])
  {
    var init, last := frames[..|frames| - 1], frames[|frames| - 1];
    if init == [] {
      assert Tokens(init) == [] && Tokens(frames[1..]) == [];
    } else {
      TokensTail(init);
      assert frames[1..][..|frames| - 2] == init[1..];
      assert Tokens(frames[1..]) == Tokens(init[1..]) + FrameTokens(last);
    }
  }

  lemma {:induction false} ReadFrame(f: Frame, more: seq<Token>)
    ensures Read(FrameTokens(f) + more) == [f] + Read(more)
  {
    assert (FrameTokens(f) + more)[2..] == more;
  }

  lemma Regroup<T>(a: seq<T>, b: seq<T>, c: seq<T>)
    ensures (a + b) + c == a + (b + c)
  {
  }

  /** The peer reads back whole frames, and goes on with what follows them. */
  lemma {:induction false} ReadTokens(frames: seq<Frame>, more: seq<Token>)
    ensures Read(Tokens(frames) + more) == frames + Read(more)
    decreases |frames|
  {
    if frames == [] {
      assert Tokens(frames) + more == more;
    } else {
      var first, rest := frames[0], frames[1..];
      TokensTail(frames);
      ReadTokens(rest, more);
      ReadFrame(first, Tokens(rest) + more);
      Regroup(FrameTokens(first), Tokens(rest), more);
      Regroup([first], rest, Read(more));
      assert frames == [first] + rest;
    }
  }

  /** Two headers in a row at this place: nothing behind it is ever read. */
  predicate StuckAt(tokens: seq<Token>, i: nat) {
    i + 1 < |tokens| && tokens[i].HeaderToken? && tokens[i + 1].HeaderToken?
  }

  lemma {:induction false} StuckStays(tokens: seq<Token>, more: seq<Token>)
    requires tokens <= more && StuckAt(tokens, 2 * |Read(tokens)|)
    ensures Read(more) == Read(tokens) && StuckAt(more, 2 * |Read(more)|)
    decreases |tokens|
  {
    if |tokens| >= 2 && tokens[0].HeaderToken? && tokens[1].BodyToken? {
      var n := 2 * |Read(tokens[2..])|;
      assert tokens[2..][n] == tokens[n + 2] && tokens[2..][n + 1] == tokens[n + 3];
      StuckStays(tokens[2..], more[2..]);
      assert more[2..][n] == more[n + 2] && more[2..][n + 1] == more[n + 3];
    }
  }

  predicate AllHeaders(tokens: seq<Token>) {
    forall i {:trigger tokens[i]} :: 0 <= i < |tokens| ==> tokens[i].HeaderToken?
  }

  // ----- framing -----

  /** No success was reported after an encode whose body had no text: its header is still there. */
  ghost predicate NoSuccessAfterBodyFailure(history: seq<Attempt>) {
    forall i, j :: 0 <= i < j < |history| && history[i].outcome.BodyFailed? ==> !Reported(history[j].outcome)
  }

  ghost predicate NoBodyFailure(history: seq<Attempt>) {
    forall i {:trigger history[i]} :: 0 <= i < |history| ==> !history[i].outcome.BodyFailed?
  }

  /** Every encode that reported success arrived. */
  ghost predicate NothingLost(history: seq<Attempt>) {
    forall i {:trigger history[i]} :: 0 <= i < |history| && Reported(history[i].outcome) ==> Arrives(history[i].outcome)
  }

  /** The stream is the frames that arrived and headers without bodies behind them. */
  ghost predicate Shape(s: Stream, arrived: seq<Frame>, orphans: bool) {
    var n := |Tokens(arrived)|;
    && Tokens(arrived) <= s.sent
    && AllHeaders(s.sent[n..])
    && (!s.broken ==> AllHeaders(s.buffer) && (orphans <==> s.sent[n..] + s.buffer != []))
  }

  lemma WriteKeepsShape(s: Stream, arrived: seq<Frame>, n: nat, fails: bool)
    requires Tokens(arrived) <= s.sent && AllHeaders(s.sent[|Tokens(arrived)|..]) && AllHeaders(s.buffer)
    ensures Shape(Write(s, n, fails), arrived, s.sent[|Tokens(arrived)|..] + s.buffer != [])
  {
    TokenCount(arrived);
    var k := if n < |s.buffer| then n else |s.buffer|;
    assert Write(s, n, fails).sent[|Tokens(arrived)|..] == s.sent[|Tokens(arrived)|..] + s.buffer[..k];
    assert s.buffer[..k] + s.buffer[k..] == s.buffer;
  }

  /** How much of a frame is written that finds nothing left behind. */
  function FrameWritten(o: Outcome): nat {
    if o.Unsent? && o.written < 2 then o.written else 2
  }

  lemma FrameIsWritten(s: Stream, a: Attempt)
    requires s.buffer == [] && !s.broken && Reported(a.outcome)
    ensures
      var n, f := FrameWritten(a.outcome), FrameTokens(a.frame);
      Encode(s, a) == Stream(s.sent + f[..n], f[n..], a.outcome.Unsent?)
  {
    assert [] + [HeaderToken(a.frame.header)] + [BodyToken(a.frame.body)] == FrameTokens(a.frame);
  }

  /** A frame that finds nothing left behind arrives as it should. */
  lemma SuccessKeepsShape(s: Stream, arrived: seq<Frame>, a: Attempt)
    requires Shape(s, arrived, false) && !s.broken && Reported(a.outcome)
    ensures Shape(Encode(s, a), arrived + if Arrives(a.outcome) then [a.frame] else [], false)
  {
    var n, f := FrameWritten(a.outcome), FrameTokens(a.frame);
    assert s.sent == Tokens(arrived) + s.sent[|Tokens(arrived)|..];
    assert s.sent == Tokens(arrived);
    FrameIsWritten(s, a);
    if Arrives(a.outcome) {
      assert (arrived + [a.frame])[..|arrived|] == arrived;
      assert Tokens(arrived + [a.frame]) == Tokens(arrived) + f == Encode(s, a).sent;
    } else {
      assert Encode(s, a).sent[|Tokens(arrived)|..] == f[..n];
      assert arrived + [] == arrived;
    }
  }

  lemma FailureKeepsShape(s: Stream, arrived: seq<Frame>, orphans: bool, a: Attempt)
    requires Shape(s, arrived, orphans) && CanEnd(s, a.outcome) && !Reported(a.outcome)
    ensures Shape(Encode(s, a), arrived, orphans || a.outcome.BodyFailed?)
  {
    if !s.broken {
      if a.outcome.HeaderFailed? {
        WriteKeepsShape(s, arrived, a.outcome.written, true);
      } else {
        var begun := BufferHeader(s, a.frame.header);
        WriteKeepsShape(begun, arrived, a.outcome.written, a.outcome.BodyLost?);
        assert |s.sent[|Tokens(arrived)|..] + begun.buffer| > 0;
      }
    }
  }

  lemma ShapeStep(s: Stream, arrived: seq<Frame>, orphans: bool, a: Attempt)
    requires Shape(s, arrived, orphans) && CanEnd(s, a.outcome) && (Reported(a.outcome) ==> !orphans)
    ensures Shape(
              Encode(s, a), arrived + if Arrives(a.outcome) then [a.frame] else [], orphans || a.outcome.BodyFailed?)
  {
    if Reported(a.outcome) {
      SuccessKeepsShape(s, arrived, a);
    } else {
      FailureKeepsShape(s, arrived, orphans, a);
      assert arrived + [] == arrived;
    }
  }

  lemma CleanStep(init: seq<Attempt>, last: Attempt)
    ensures NoBodyFailure(init + [last]) <==> NoBodyFailure(init) && !last.outcome.BodyFailed?
    ensures NoSuccessAfterBodyFailure(init + [last]) <==>
              NoSuccessAfterBodyFailure(init) && (Reported(last.outcome) ==> NoBodyFailure(init))
  {
    var history := init + [last];
    assert forall i :: 0 <= i < |init| ==> init[i] == history[i];
    assert history[|init|] == last;
  }

  lemma {:induction false} CleanShape(history: seq<Attempt>)
    requires Possible(history) && NoSuccessAfterBodyFailure(history)
    ensures Shape(EncodeAll(history), Arrived(history), !NoBodyFailure(history))
  {
    if history != [] {
      var init, last := history[..|history| - 1], history[|history| - 1];
      assert history == init + [last];
      CleanStep(init, last);
      CleanShape(init);
      ShapeStep(EncodeAll(init), Arrived(init), !NoBodyFailure(init), last);
    }
  }

  lemma ReadShape(s: Stream, arrived: seq<Frame>, orphans: bool)
    requires Shape(s, arrived, orphans)
    ensures Read(s.sent) == arrived
  {
    TokenCount(arrived);
    var rest := s.sent[|Tokens(arrived)|..];
    assert s.sent == Tokens(arrived) + rest;
    ReadTokens(arrived, rest);
    assert Read(rest) == [];
  }

  /** Until a write fails nothing is lost, and after that nothing is reported. */
  lemma {:induction false} ArrivedIsPrefix(history: seq<Attempt>)
    requires Possible(history)
    ensures Arrived(history) <= Delivered(history)
    ensures Arrived(history) == Delivered(history) <==> NothingLost(history)
    ensures !EncodeAll(history).broken ==> NothingLost(history)
  {
    if history != [] {
      var init, last := history[..|history| - 1], history[|history| - 1];
      assert forall i :: 0 <= i < |init| ==> init[i] == history[i];
      ArrivedIsPrefix(init);
      assert history[|init|] == last;
      if Reported(last.outcome) {
        assert NothingLost(history) <==> Arrives(last.outcome);
      } else {
        assert NothingLost(history) <==> NothingLost(init);
      }
    }
  }

  /** Once a success has followed a failed body the peer never gets past the header left behind. */
  lemma {:induction false} OrphanIsSeen(history: seq<Attempt>)
    requires Possible(history) && !NoSuccessAfterBodyFailure(history)
    ensures |Read(EncodeAll(history).sent)| < |Delivered(history)|
    ensures !EncodeAll(history).broken ==>
              StuckAt(EncodeAll(history).sent, 2 * |Read(EncodeAll(history).sent)|)
  {
    var init, last := history[..|history| - 1], history[|history| - 1];
    assert init + [last] == history;
    if NoSuccessAfterBodyFailure(init) {
      OrphanIsFirstSeen(init, last);
    } else {
      OrphanIsSeen(init);
      StaysStuck(EncodeAll(init), last);
      AttemptAppended(init, last);
    }
  }

  lemma StaysStuck(s: Stream, a: Attempt)
    requires CanEnd(s, a.outcome) && (!s.broken ==> StuckAt(s.sent, 2 * |Read(s.sent)|))
    ensures
      var n := Encode(s, a);
      Read(n.sent) == Read(s.sent) && (!n.broken ==> StuckAt(n.sent, 2 * |Read(n.sent)|))
  {
    if !s.broken {
      StuckStays(s.sent, Encode(s, a).sent);
    }
  }

  lemma OrphanIsFirstSeen(init: seq<Attempt>, last: Attempt)
    requires Possible(init + [last]) && NoSuccessAfterBodyFailure(init) && !NoSuccessAfterBodyFailure(init + [last])
    ensures
      var s := EncodeAll(init + [last]);
      && |Read(s.sent)| < |Delivered(init + [last])|
      && (!s.broken ==> StuckAt(s.sent, 2 * |Read(s.sent)|))
  {
    var history := init + [last];
    assert history[..|init|] == init;
    assert forall i :: 0 <= i < |init| ==> init[i] == history[i];
    var i, j :| 0 <= i < j < |history| && history[i].outcome.BodyFailed? && Reported(history[j].outcome);
    assert j == |init| && !NoBodyFailure(init);
    CleanShape(init);
    ArrivedIsPrefix(init);
    SuccessAfterOrphan(EncodeAll(init), Arrived(init), last);
  }

  lemma SuccessAfterOrphan(s: Stream, arrived: seq<Frame>, a: Attempt)
    requires Shape(s, arrived, true) && !s.broken && Reported(a.outcome)
    ensures Read(Encode(s, a).sent) == arrived
    ensures a.outcome.Sent? ==> StuckAt(Encode(s, a).sent, 2 * |arrived|)
  {
    TokenCount(arrived);
    var n := |Tokens(arrived)|;
    var orphans, h := s.sent[n..], HeaderToken(a.frame.header);
    var buffer := s.buffer + [h] + [BodyToken(a.frame.body)];
    var k := if a.outcome.Sent? || a.outcome.written > |buffer| then |buffer| else a.outcome.written;
    assert Encode(s, a).sent == s.sent + buffer[..k];
    Regroup(Tokens(arrived), orphans, buffer[..k]);
    assert s.sent == Tokens(arrived) + orphans;
    assert AllHeaders(orphans) && AllHeaders(s.buffer) && |orphans + s.buffer| > 0;
    HeadersComeFirst(orphans, s.buffer, h, a.frame.body, k);
    ReadTokens(arrived, orphans + buffer[..k]);
  }

  /** Of orphans, a buffer with or without more, and then a frame: the second token is a header too. */
  lemma HeadersComeFirst(orphans: seq<Token>, buffered: seq<Token>, h: Token, body: Value, k: nat)
    requires AllHeaders(orphans) && AllHeaders(buffered) && |orphans + buffered| > 0 && h.HeaderToken?
    requires k <= |buffered| + 2
    ensures
      var rest := orphans + (buffered + [h] + [BodyToken(body)])[..k];
      Read(rest) == [] && (k == |buffered| + 2 ==> StuckAt(rest, 0))
  {
    var rest := orphans + (buffered + [h] + [BodyToken(body)])[..k];
    forall i | 0 <= i < 2 && i < |rest| ensures rest[i].HeaderToken? {
      if i < |orphans| {
        assert rest[i] == orphans[i];
      } else {
        assert rest[i] == (buffered + [h])[i - |orphans|];
      }
    }
  }

  /**
    The framing round trip: the peer reads exactly the frames whose encode reported success if and
    only if no success was reported after an encode whose body had no text, for such a failure
    leaves its header behind, and every one that was reported arrived, for the coder drops the
    error of its last flush. Writes that fail sooner are reported and do no harm.
   */
  lemma FramingRoundTrip(history: seq<Attempt>)
    requires Possible(history)
    ensures Read(EncodeAll(history).sent) == Delivered(history)
            <==> NoSuccessAfterBodyFailure(history) && NothingLost(history)
  {
    if NoSuccessAfterBodyFailure(history) {
      PeerReadsAPrefix(history);
    } else {
      OrphanIsSeen(history);
    }
  }

  /** Writes that fail alone only cut the stream off: the peer reads what arrived, a prefix of what
      was reported. */
  lemma PeerReadsAPrefix(history: seq<Attempt>)
    requires Possible(history) && NoSuccessAfterBodyFailure(history)
    ensures Read(EncodeAll(history).sent) == Arrived(history) <= Delivered(history)
    ensures Arrived(history) == Delivered(history) <==> NothingLost(history)
  {
    CleanShape(history);
    ReadShape(EncodeAll(history), Arrived(history), !NoBodyFailure(history));
    ArrivedIsPrefix(history);
  }

  /** Without failed bodies a stream is the tokens of the frames begun, cut off where a write failed. */
  lemma {:induction false} CleanStream(history: seq<Attempt>)
    requires Possible(history) && NoBodyFailure(history)
    ensures EncodeAll(history).sent <= Tokens(Begun(history))
    ensures !EncodeAll(history).broken ==>
              EncodeAll(history).sent == Tokens(Begun(history)) && EncodeAll(history).buffer == []
  {
    if history != [] {
      var init, last := history[..|history| - 1], history[|history| - 1];
      assert history == init + [last];
      CleanStep(init, last);
      AttemptAppended(init, last);
      CleanStream(init);
      if Begins(last.outcome) {
        CleanStreamGrows(EncodeAll(init), Begun(init), last);
      } else {
        CleanStreamStays(EncodeAll(init), last);
        assert Begun(history) == Begun(init);
      }
    }
  }

  lemma CleanStreamStays(s: Stream, a: Attempt)
    requires s.broken || s.buffer == []
    requires a.outcome.HeaderFailed?
    ensures Encode(s, a).sent == s.sent && Encode(s, a).broken
  {
  }

  lemma BodyIsLost(s: Stream, a: Attempt)
    requires s.buffer == [] && a.outcome.BodyLost?
    ensures
      var n := if a.outcome.written == 0 then 0 else 1;
      Encode(s, a).sent == s.sent + FrameTokens(a.frame)[..n] && Encode(s, a).broken
  {
    assert [] + [HeaderToken(a.frame.header)] == FrameTokens(a.frame)[..1];
  }

  lemma CleanStreamGrows(s: Stream, begun: seq<Frame>, a: Attempt)
    requires s.sent == Tokens(begun) && s.buffer == [] && !s.broken && Begins(a.outcome)
    ensures
      var n, all := Encode(s, a), Tokens(begun + [a.frame]);
      n.sent <= all && (!n.broken ==> n.sent == all && n.buffer == [])
  {
    assert (begun + [a.frame])[..|begun|] == begun;
    assert Tokens(begun + [a.frame]) == Tokens(begun) + FrameTokens(a.frame);
    if Reported(a.outcome) {
      FrameIsWritten(s, a);
    } else {
      BodyIsLost(s, a);
    }
  }

  // ----- concrete histories -----

  /** A body that has no text, then one that has: two headers in a row, and the success is not read. */
  lemma FramingCounterexample(h1: MessageHeader, h2: MessageHeader, body: Value)
    ensures
      var history := [Attempt(Frame(h1, body), BodyFailed(0)), Attempt(Frame(h2, body), Sent)];
      && Possible(history) && Delivered(history) == [Frame(h2, body)]
      && EncodeAll(history).sent == [HeaderToken(h1), HeaderToken(h2), BodyToken(body)]
      && Read(EncodeAll(history).sent) == []
  {
    var first := [Attempt(Frame(h1, body), BodyFailed(0))];
    var history := [Attempt(Frame(h1, body), BodyFailed(0)), Attempt(Frame(h2, body), Sent)];
    assert first[..0] == [] && history[..1] == first;
    assert [] + [HeaderToken(h1)] == [HeaderToken(h1)] && [HeaderToken(h1)][..0] == [];
    assert EncodeAll(first) == Stream([], [HeaderToken(h1)], false);
    assert Possible(first) && Delivered(first) == [];
    assert [HeaderToken(h1)] + [HeaderToken(h2)] + [BodyToken(body)]
        == [HeaderToken(h1), HeaderToken(h2), BodyToken(body)];
  }

  /** A success whose flush fails: it reaches nobody, and every later encode fails. */
  lemma LostFlushCounterexample(f: Frame, next: Frame)
    ensures
      var history := [Attempt(f, Unsent(0)), Attempt(next, HeaderFailed(0))];
      && Possible(history) && Delivered(history) == [f] && EncodeAll(history).sent == []
      && forall o :: CanEnd(EncodeAll(history), o) <==> o.HeaderFailed?
  {
    var first := [Attempt(f, Unsent(0))];
    var history := [Attempt(f, Unsent(0)), Attempt(next, HeaderFailed(0))];
    assert first[..0] == [] && history[..1] == first;
    assert [] + [HeaderToken(f.header)] + [BodyToken(f.body)] == [HeaderToken(f.header), BodyToken(f.body)];
    assert EncodeAll(first) == Stream([], [HeaderToken(f.header), BodyToken(f.body)], true);
    assert Delivered(first) == [f];
    assert Possible(first);
  }

  /** A body longer than the writer's buffer, cut off by a failing write: its encode reports the
      failure, and its header alone is on the wire. */
  lemma LoneHeader(f: Frame)
    ensures
      var history := [Attempt(f, BodyLost(1))];
      && Possible(history) && Delivered(history) == []
      && EncodeAll(history).sent == [HeaderToken(f.header)] && Read(EncodeAll(history).sent) == []
  {
    var history := [Attempt(f, BodyLost(1))];
    assert history[..0] == [];
    assert EmptyStream.buffer + [HeaderToken(f.header)] == [HeaderToken(f.header)];
  }

  /** The coder over one connection. How an encode would end is the environment's choice. */
  class JsonCoder {
    var connection: seq<Token>  // everything written so far
    var buffer: seq<Token>
    var writeFailed: bool       // the error that the bufio.Writer keeps
    var isClosed: bool

    constructor ()
      ensures Out() == EmptyStream && !isClosed
    {
      connection, buffer, writeFailed, isClosed := [], [], false, false;
    }

    function Out(): Stream
      reads this
    {
      Stream(connection, buffer, writeFailed)
    }

    /** How an encode ends if this is the environment's choice: a broken writer refuses the header,
        and a closed connection every write. */
    function OutcomeOf(choice: Outcome): (o: Outcome)
      reads this
      ensures CanEnd(Out(), o)
      ensures isClosed ==> !Arrives(o)
      ensures isClosed && !writeFailed && (choice.Sent? || choice.Unsent?) ==> o == Unsent(0)
      ensures isClosed ==> o.Unsent? || o.HeaderFailed? || o.BodyFailed? || o.BodyLost?
      ensures isClosed && !o.Sent? ==> o.written == 0
      ensures !writeFailed && !isClosed ==> o == choice
    {
      if writeFailed then HeaderFailed(0)
      else if !isClosed then choice
      else match choice
        case Sent => Unsent(0)
        case Unsent(_) => Unsent(0)
        case HeaderFailed(_) => HeaderFailed(0)
        case BodyFailed(written) => if written == 0 then choice else HeaderFailed(0)
        case BodyLost(_) => BodyLost(0)
    }

    method EncodeMessageHeaderAndBody(header: MessageHeader, body: Value, choice: Outcome) returns (o: Outcome)
      modifies this`connection, this`buffer, this`writeFailed
      ensures o == old(OutcomeOf(choice))
      ensures Out() == Encode(old(Out()), Attempt(Frame(header, body), o))
      ensures old(writeFailed) || old(isClosed) ==> connection == old(connection)
    {
      o := OutcomeOf(choice);
      if writeFailed || isClosed {
        NothingWritten(Out(), Frame(header, body), o);
      }
      if o.HeaderFailed? {
        if !writeFailed {
          WriteOut(o.written, true);
        }
        return;
      }
      buffer := buffer + [HeaderToken(header)];
      if o.BodyFailed? {
        WriteOut(o.written, false);
        return;
      }
      if o.BodyLost? {
        WriteOut(o.written, true);
        return;
      }
      buffer := buffer + [BodyToken(body)];
      if o.Sent? {
        WriteOut(|buffer|, false);
      } else {
        WriteOut(o.written, true);
      }
    }

    /** The bufio.Writer writes to the connection, by itself or in Flush. */
    method WriteOut(n: nat, fails: bool)
      requires !writeFailed
      modifies this`connection, this`buffer, this`writeFailed
      ensures Out() == Write(old(Out()), n, fails)
    {
      var k := if n < |buffer| then n else |buffer|;
      connection, buffer, writeFailed := connection + buffer[..k], buffer[k..], fails;
    }

    /** From here on nothing arrives. */
    method Close()
      modifies this`isClosed
      ensures isClosed
    {
      isClosed := true;
    }
  }
}
