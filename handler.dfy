/**
  The streaming handler: a `ServerSentEventsHandler` object that receives the
  transport's chunk and completion notifications and calls the caller's
  `onEventReceived` and `onComplete` callbacks.

  Every observable effect of the handler is appended to `trace`: each callback
  invocation (with its argument) and each request to the transport (starting
  and cancelling the data task). The UTF-8 conversions and the JSON decoder
  are collaborators given to the handler as a `Codec`.
*/
module SseHandler {
  import opened Wrappers
  import opened SseLines
  import opened SseEvents

  type Byte = bv8
  type Bytes = seq<Byte>

  /** The collaborators the handler calls: text from bytes, bytes from text, and the JSON decoder. */
  datatype Codec<P, Err> = Codec(
    decodeUtf8: Bytes -> Option<string>,
    encodeUtf8: string -> Option<Bytes>,
    decodeJson: Bytes -> Result<P, Err>)

  /** The failures the handler reports through `onEventReceived`. */
  datatype StreamError<Err> = DecodingError(error: Err) | GenericError(error: Err)

  /** One observable effect of the handler. */
  datatype Action<P, Err> =
    | EventReceived(result: Result<P, StreamError<Err>>)  // a call of `onEventReceived`
    | Completed                                          // a call of `onComplete`
    | TaskStarted                                        // a data task created and resumed
    | TaskCancelled                                      // `cancel` requested on the data task

  /** An `onEventReceived` call that reports a transport failure. */
  predicate IsGenericFailure<P, Err>(a: Action<P, Err>) {
    a.EventReceived? && a.result.Failure? && a.result.error.GenericError?
  }

  /** What `onEventReceived` is given for one decoder outcome. */
  function EventOutcome<P, Err>(decoded: Result<P, Err>): Result<P, StreamError<Err>> {
    match decoded
    case Success(v) => Success(v)
    case Failure(e) => Failure(DecodingError(e))
  }

  /** The effect of `processEvent`: one `onEventReceived` call, if the callback is set. */
  function ProcessEventActions<P, Err>(codec: Codec<P, Err>, onEvent: bool, eventData: Bytes): seq<Action<P, Err>> {
    if onEvent then [EventReceived(EventOutcome(codec.decodeJson(eventData)))] else []
  }

  /** The effect of `disconnect`: a cancel request, if there is a data task. */
  function CancelActions<P, Err>(hasTask: bool): seq<Action<P, Err>> {
    if hasTask then [TaskCancelled] else []
  }

  /** The effect of one line of a chunk. */
  function LineActions<P, Err>(codec: Codec<P, Err>, onEvent: bool, hasTask: bool, line: string): seq<Action<P, Err>> {
    if IsEventLine(line) then
      match codec.encodeUtf8(EventPayload(line))
      case Some(eventData) => ProcessEventActions(codec, onEvent, eventData)
      case None => CancelActions(hasTask)
    else []
  }

  /** The effect of the lines of a chunk, one after the other. */
  function LinesActions<P, Err>(codec: Codec<P, Err>, onEvent: bool, hasTask: bool, lines: seq<string>): seq<Action<P, Err>> {
    if lines == [] then []
    else LineActions(codec, onEvent, hasTask, lines[0]) + LinesActions(codec, onEvent, hasTask, lines[1..])
  }

  /** The effect of one received chunk: nothing when it is not valid text, else that of its lines. */
  function ChunkActions<P, Err>(codec: Codec<P, Err>, onEvent: bool, hasTask: bool, data: Bytes): seq<Action<P, Err>> {
    match codec.decodeUtf8(data)
    case None => []
    case Some(text) => LinesActions(codec, onEvent, hasTask, SplitLines(text))
  }

  /**
    The effect of the transport's completion notification: a generic failure when it
    carries an error, a completion when it does not, never both and never more than one.
  */
  function CompletionActions<P, Err>(onEvent: bool, onComplete: bool, error: Option<Err>): (r: seq<Action<P, Err>>)
    ensures |r| <= 1
    ensures Completed in r <==> error.None? && onComplete
    ensures error.Some? ==> (onEvent <==> r == [EventReceived(Failure(GenericError(error.value)))])
    ensures error.None? ==> forall a :: a in r ==> !a.EventReceived?
    ensures r == [] <==> (error.Some? && !onEvent) || (error.None? && !onComplete)
  {
    match error
    case Some(e) => if onEvent then [EventReceived(Failure(GenericError(e)))] else []
    case None => if onComplete then [Completed] else []
  }

  /** The lines of a chunk act one after the other: the effect of two runs of lines is concatenated. */
  lemma {:induction false} LinesActionsAppend<P, Err>(
    codec: Codec<P, Err>, onEvent: bool, hasTask: bool, a: seq<string>, b: seq<string>)
    ensures LinesActions(codec, onEvent, hasTask, a + b)
         == LinesActions(codec, onEvent, hasTask, a) + LinesActions(codec, onEvent, hasTask, b)
  {
    if a == [] {
      assert a + b == b;
    } else {
      assert (a + b)[0] == a[0];
      assert (a + b)[1..] == a[1..] + b;
      LinesActionsAppend(codec, onEvent, hasTask, a[1..], b);
    }
  }

  /**
    A candidate whose text cannot be encoded cancels the task and does not stop
    the loop: the lines after it still act.
  */
  lemma EncodeFailureContinues<P, Err>(
    codec: Codec<P, Err>, onEvent: bool, hasTask: bool, before: seq<string>, line: string, after: seq<string>)
    requires IsEventLine(line) && codec.encodeUtf8(EventPayload(line)).None?
    ensures LinesActions(codec, onEvent, hasTask, before + [line] + after)
         == LinesActions(codec, onEvent, hasTask, before) + CancelActions(hasTask)
            + LinesActions(codec, onEvent, hasTask, after)
  {
    LinesActionsAppend(codec, onEvent, hasTask, before + [line], after);
    LinesActionsAppend(codec, onEvent, hasTask, before, [line]);
    assert LinesActions(codec, onEvent, hasTask, [line]) == CancelActions(hasTask) + [];
  }

  /** The `onEventReceived` call for a candidate whose text encodes. */
  function CandidateEvent<P, Err>(codec: Codec<P, Err>, c: string): Action<P, Err>
    requires codec.encodeUtf8(c).Some?
  {
    EventReceived(EventOutcome(codec.decodeJson(codec.encodeUtf8(c).value)))
  }

  /** Every text encodes: the condition under which each candidate reaches the decoder. */
  ghost predicate EncodesAll<P, Err>(codec: Codec<P, Err>) {
    forall s :: codec.encodeUtf8(s).Some?
  }

  lemma {:induction false} LinesActionsPerCandidate<P, Err>(
    codec: Codec<P, Err>, hasTask: bool, lines: seq<string>)
    requires EncodesAll(codec)
    ensures |LinesActions(codec, true, hasTask, lines)| == |Candidates(lines)|
    ensures forall k :: 0 <= k < |Candidates(lines)| ==>
      LinesActions(codec, true, hasTask, lines)[k] == CandidateEvent(codec, Candidates(lines)[k])
  {
    if lines != [] {
      LinesActionsPerCandidate(codec, hasTask, lines[1..]);
      assert codec.encodeUtf8(EventPayload(lines[0])).Some?;
    }
  }

  /**
    With the callback set and encoding never failing, a chunk makes exactly one
    `onEventReceived` call per candidate, in the candidates' order, each either
    the decoded payload or the decoder's error; a failed decode does not stop
    the candidates after it.
  */
  lemma ChunkActionsPerCandidate<P, Err>(codec: Codec<P, Err>, hasTask: bool, data: Bytes, text: string)
    requires EncodesAll(codec)
    requires codec.decodeUtf8(data) == Some(text)
    ensures |ChunkActions(codec, true, hasTask, data)| == |ChunkCandidates(text)|
    ensures forall k :: 0 <= k < |ChunkCandidates(text)| ==>
      ChunkActions(codec, true, hasTask, data)[k] == CandidateEvent(codec, ChunkCandidates(text)[k])
  {
    LinesActionsPerCandidate(codec, hasTask, SplitLines(text));
  }

  /** A chunk never completes the stream, reports a transport failure or starts a task. */
  lemma {:induction false} LinesActionsKinds<P, Err>(
    codec: Codec<P, Err>, onEvent: bool, hasTask: bool, lines: seq<string>)
    ensures forall a :: a in LinesActions(codec, onEvent, hasTask, lines) ==>
      a == TaskCancelled || (a.EventReceived? && !IsGenericFailure(a))
  {
    if lines != [] {
      LinesActionsKinds(codec, onEvent, hasTask, lines[1..]);
    }
  }

  /**
    A stream of well-formed data lines closed by the sentinel makes one successful
    `onEventReceived` call per payload, in order, when every payload decodes.
  */
  lemma ValidStreamSucceeds<P, Err>(codec: Codec<P, Err>, hasTask: bool, data: Bytes, ps: seq<string>)
    requires EncodesAll(codec) && Sendable(ps)
    requires codec.decodeUtf8(data) == Some(EncodeLines(DataLines(ps) + [DoneLine]))
    requires forall k :: 0 <= k < |ps| ==> codec.decodeJson(codec.encodeUtf8(ps[k]).value).Success?
    ensures |ChunkActions(codec, true, hasTask, data)| == |ps|
    ensures forall k :: 0 <= k < |ps| ==>
      ChunkActions(codec, true, hasTask, data)[k]
        == EventReceived(Success(codec.decodeJson(codec.encodeUtf8(ps[k]).value).value))
  {
    EncodedEventsRoundTrip(ps);
    ChunkActionsPerCandidate(codec, hasTask, data, EncodeLines(DataLines(ps) + [DoneLine]));
  }

  class ServerSentEventsHandler<P, Err> {
    /** The UTF-8 conversions and the JSON decoder the handler uses. */
    const codec: Codec<P, Err>
    /** Whether the caller has set `onEventReceived`; an unset callback is skipped. */
    var eventCallbackSet: bool
    /** Whether the caller has set `onComplete`. */
    var completeCallbackSet: bool
    /** Whether a data task exists (it does from the first `connect` on). */
    var hasTask: bool
    /** Every observable effect so far, oldest first. */
    var trace: seq<Action<P, Err>>

    constructor (codec: Codec<P, Err>)
      ensures this.codec == codec
      ensures !eventCallbackSet && !completeCallbackSet && !hasTask
      ensures trace == []
    {
      this.codec := codec;
      eventCallbackSet, completeCallbackSet, hasTask := false, false, false;
      trace := [];
    }

    /** Creates and resumes a new data task; callbacks are untouched. */
    method Connect()
      modifies this`hasTask, this`trace
      ensures hasTask
      ensures trace == old(trace) + [TaskStarted]
    {
      hasTask := true;
      trace := trace + [TaskStarted];
    }

    /** Requests cancellation of the data task; does nothing when there is none. */
    method Disconnect()
      modifies this`trace
      ensures trace == old(trace) + CancelActions(hasTask)
    {
      if hasTask {
        trace := trace + [TaskCancelled];
      }
    }

    /** Decodes one payload and reports the payload or the decoding error. */
    method ProcessEvent(eventData: Bytes)
      modifies this`trace
      ensures trace == old(trace) + ProcessEventActions(codec, eventCallbackSet, eventData)
    {
      var decoded := codec.decodeJson(eventData);
      if eventCallbackSet {
        match decoded
        case Success(res) =>
          trace := trace + [EventReceived(Success(res))];
        case Failure(e) =>
          trace := trace + [EventReceived(Failure(DecodingError(e)))];
      }
    }

    /** The transport delivered a chunk of the response body. */
    method DidReceive(data: Bytes)
      modifies this`trace
      ensures trace == old(trace) + ChunkActions(codec, eventCallbackSet, hasTask, data)
      ensures codec.decodeUtf8(data).None? ==> trace == old(trace)
    {
      match codec.decodeUtf8(data)
      case None =>
      case Some(eventString) =>
        var lines := SplitLines(eventString);
        for i := 0 to |lines|
          invariant trace == old(trace) + LinesActions(codec, eventCallbackSet, hasTask, lines[..i])
        {
          var line := lines[i];
          if IsEventLine(line) {
            match codec.encodeUtf8(EventPayload(line))
            case Some(eventData) =>
              ProcessEvent(eventData);
            case None =>
              Disconnect();
          }
          assert lines[..i + 1] == lines[..i] + [line];
          LinesActionsAppend(codec, eventCallbackSet, hasTask, lines[..i], [line]);
          assert LinesActions(codec, eventCallbackSet, hasTask, [line])
              == LineActions(codec, eventCallbackSet, hasTask, line) + [];
        }
        assert lines[..|lines|] == lines;
    }

    /** The transport finished the task, with or without an error. */
    method DidComplete(error: Option<Err>)
      modifies this`trace
      ensures trace == old(trace) + CompletionActions(eventCallbackSet, completeCallbackSet, error)
    {
      match error
      case Some(e) =>
        if eventCallbackSet {
          trace := trace + [EventReceived(Failure(GenericError(e)))];
        }
      case None =>
        if completeCallbackSet {
          trace := trace + [Completed];
        }
    }
  }
}
