/** The browser side of the stream (`streamChatRequest`): it reads the relay's
    `data: <json>` frames with the same line buffer, folds chunk, usage and
    error events into the reply text and the last usage record, calls
    `onChunk` once per chunk, and turns every failure into a thrown `Error`. */
module Client {
  import opened Wrappers
  import opened Text
  import opened Json
  import opened LineBuffer
  import opened Events

  const TimeoutMessage: string := "Request timed out after 60s. Try again or choose a faster model."
  const NoBodyMessage: string := "API did not return a stream body."
  const EmptyStreamMessage: string := "API returned an empty streamed response."
  const StreamFailedMessage: string := "Streaming request failed."
  /** How much of an unparsable relay error body the client quotes. */
  const ErrorExcerptLength: nat := 180

  /** What `streamChatRequest` resolves with. */
  datatype ChatResponse = ChatResponse(text: string, usage: Option<Usage>)

  /** `new Error(message)`. */
  function Fail(message: string): Thrown {
    Raised("Error", message)
  }

  /** The message for a non-OK relay response: the body's `error` field if it
      is a non-blank string; otherwise "API error N", followed by ": " and the
      first 180 characters of the body only when the body does not parse as
      JSON (or parses to `null`, whose `.error` throws) and is not blank. */
  function ClientErrorMessage(parse: string -> Option<Json>, status: nat, raw: string): (r: string)
    ensures var base := "API error " + NatToString(status);
      && (parse(raw).Some? && parse(raw).value != Null && Member(parse(raw), "error").Some?
          && Member(parse(raw), "error").value.Str? && !IsBlank(Member(parse(raw), "error").value.s)
          ==> r == Member(parse(raw), "error").value.s)
      && ((parse(raw).None? || parse(raw) == Some(Null)) && !IsBlank(raw)
          ==> r == base + ": " + Take(raw, ErrorExcerptLength))
      && ((parse(raw).None? || parse(raw) == Some(Null)) && IsBlank(raw) ==> r == base)
      && (parse(raw).Some? && parse(raw).value != Null
          && !(Member(parse(raw), "error").Some? && Member(parse(raw), "error").value.Str?
               && !IsBlank(Member(parse(raw), "error").value.s))
          ==> r == base)
  {
    var base := "API error " + NatToString(status);
    match parse(raw)
    case Some(data) =>
      if data == Null then
        (if !IsBlank(raw) then base + ": " + Take(raw, ErrorExcerptLength) else base)
      else
        (match Member(Some(data), "error")
         case Some(Str(e)) => if !IsBlank(e) then e else base
         case _ => base)
    case None => if !IsBlank(raw) then base + ": " + Take(raw, ErrorExcerptLength) else base
  }

  /** The relay event a frame line carries, if the client acts on it: a data
      line whose payload is non-empty, parses, is truthy and reads as an event.
      Unlike the relay, the client has no "[DONE]" sentinel. */
  function FrameEvent(parse: string -> Option<Json>, rawLine: string): (r: Option<StreamEvent>)
    ensures DataPayload(rawLine).None? || DataPayload(rawLine) == Some([]) ==> r.None?
    ensures DataPayload(rawLine).Some? && parse(DataPayload(rawLine).value).None? ==> r.None?
    ensures DataPayload(rawLine).Some? && DataPayload(rawLine).value != []
            && parse(DataPayload(rawLine).value).Some? && Truthy(parse(DataPayload(rawLine).value).value)
            ==> r == ReadEvent(parse(DataPayload(rawLine).value).value)
    ensures DataPayload(rawLine).Some? && parse(DataPayload(rawLine).value).Some?
            && !Truthy(parse(DataPayload(rawLine).value).value)
            ==> r.None?
  {
    match DataPayload(rawLine)
    case None => None
    case Some(payload) =>
      if payload == [] then None
      else
        match parse(payload)
        case None => None
        case Some(j) => if Truthy(j) then ReadEvent(j) else None
  }

  function FrameEventOf(parse: string -> Option<Json>): string -> Option<StreamEvent> {
    (line: string) => FrameEvent(parse, line)
  }

  /** The consumer's running state: the text so far, the last usage record, the
      `onChunk` calls made, in order, and the error an `error` event raised. */
  datatype ClientAcc = ClientAcc(text: string, usage: Option<Usage>, calls: seq<string>, failure: Option<string>)

  const Fresh: ClientAcc := ClientAcc([], None, [], None)

  /** One event. After an `error` event the loop has thrown, so nothing more
      happens; `done` changes nothing and does not stop the loop. */
  function Absorb(acc: ClientAcc, e: StreamEvent): (r: ClientAcc)
    ensures acc.failure.Some? ==> r == acc
    ensures acc.failure.None? && e.Chunk? ==> r == acc.(text := acc.text + e.text, calls := acc.calls + [e.text])
    ensures acc.failure.None? && e.UsageEvent? ==> r == acc.(usage := Some(e.usage))
    ensures acc.failure.None? && e.Error? ==> r == acc.(failure := Some(if e.error == [] then StreamFailedMessage else e.error))
    ensures e.Done? ==> r == acc
  {
    if acc.failure.Some? then acc
    else
      match e
      case Chunk(t) => acc.(text := acc.text + t, calls := acc.calls + [t])
      case UsageEvent(u) => acc.(usage := Some(u))
      case Done => acc
      case Error(message) => acc.(failure := Some(if message == [] then StreamFailedMessage else message))
  }

  function AbsorbAll(acc: ClientAcc, events: seq<StreamEvent>): ClientAcc
    decreases |events|
  {
    if |events| == 0 then acc else AbsorbAll(Absorb(acc, events[0]), events[1..])
  }

  function Decoder(decode: string -> Option<StreamEvent>): (ClientAcc, string) -> ClientAcc {
    (acc: ClientAcc, line: string) => match decode(line) case Some(e) => Absorb(acc, e) case None => acc
  }

  function ClientStep(parse: string -> Option<Json>): (ClientAcc, string) -> ClientAcc {
    Decoder(FrameEventOf(parse))
  }

  /** Reference: the events the lines carry, in line order. */
  function EventsOf(decode: string -> Option<StreamEvent>, lines: seq<string>): seq<StreamEvent> {
    if |lines| == 0 then []
    else (match decode(lines[0]) case Some(e) => [e] case None => []) + EventsOf(decode, lines[1..])
  }

  /** Folding the lines is folding the events they carry. */
  lemma {:induction false} FoldIsAbsorbAll(decode: string -> Option<StreamEvent>, acc: ClientAcc, lines: seq<string>)
    ensures FoldLines(Decoder(decode), acc, lines) == AbsorbAll(acc, EventsOf(decode, lines))
    decreases |lines|
  {
    if |lines| > 0 {
      var next := Decoder(decode)(acc, lines[0]);
      FoldIsAbsorbAll(decode, next, lines[1..]);
      match decode(lines[0])
      case Some(e) =>
        assert EventsOf(decode, lines) == [e] + EventsOf(decode, lines[1..]);
        assert ([e] + EventsOf(decode, lines[1..]))[1..] == EventsOf(decode, lines[1..]);
      case None =>
        assert EventsOf(decode, lines) == [] + EventsOf(decode, lines[1..]);
        assert [] + EventsOf(decode, lines[1..]) == EventsOf(decode, lines[1..]);
        assert next == acc;
        assert FoldLines(Decoder(decode), acc, lines) == FoldLines(Decoder(decode), next, lines[1..]);
    }
  }

  /** The texts of the chunk events, in order. */
  function ChunkTexts(events: seq<StreamEvent>): seq<string> {
    if |events| == 0 then []
    else (if events[0].Chunk? then [events[0].text] else []) + ChunkTexts(events[1..])
  }

  /** The usage record of the last usage event, if there is one. */
  function LastUsageEvent(events: seq<StreamEvent>): Option<Usage> {
    if |events| == 0 then None
    else
      var later := LastUsageEvent(events[1..]);
      if later.Some? then later
      else if events[0].UsageEvent? then Some(events[0].usage) else None
  }

  predicate NoErrors(events: seq<StreamEvent>) {
    forall i :: 0 <= i < |events| ==> !events[i].Error?
  }

  /** Without an `error` event, the consumer appends every chunk text to its
      text and its `onChunk` calls, in order, and ends with the last usage
      record seen (or the one it held). */
  lemma {:induction false} AbsorbWithoutErrors(acc: ClientAcc, events: seq<StreamEvent>)
    requires acc.failure.None? && NoErrors(events)
    ensures AbsorbAll(acc, events) == ClientAcc(
      acc.text + Concat(ChunkTexts(events)),
      if LastUsageEvent(events).Some? then LastUsageEvent(events) else acc.usage,
      acc.calls + ChunkTexts(events),
      None)
    decreases |events|
  {
    if |events| > 0 {
      var e := events[0];
      assert !e.Error?;
      AbsorbWithoutErrors(Absorb(acc, e), events[1..]);
      var rest := ChunkTexts(events[1..]);
      if e.Chunk? {
        assert ChunkTexts(events) == [e.text] + rest;
        assert Concat([e.text] + rest) == e.text + Concat(rest);
        assert acc.calls + [e.text] + rest == acc.calls + ([e.text] + rest);
      } else {
        assert ChunkTexts(events) == rest;
      }
    }
  }

  /** At the first `error` event the consumer stops: its failure is that
      event's message (or the default for an empty one), and the `onChunk`
      calls are exactly the chunks before it. */
  lemma {:induction false} AbsorbStopsAtError(acc: ClientAcc, events: seq<StreamEvent>, k: nat)
    requires acc.failure.None?
    requires k < |events| && events[k].Error? && NoErrors(events[..k])
    ensures AbsorbAll(acc, events).failure
         == Some(if events[k].error == [] then StreamFailedMessage else events[k].error)
    ensures AbsorbAll(acc, events).calls == acc.calls + ChunkTexts(events[..k])
    decreases k
  {
    if k == 0 {
      assert events[..0] == [];
      AbsorbAfterFailure(Absorb(acc, events[0]), events[1..]);
    } else {
      assert events[1..][..k - 1] == events[..k][1..];
      assert NoErrors(events[1..][..k - 1]);
      AbsorbStopsAtError(Absorb(acc, events[0]), events[1..], k - 1);
      assert events[..k] == [events[0]] + events[1..][..k - 1];
      var rest := ChunkTexts(events[1..][..k - 1]);
      if events[0].Chunk? {
        assert ChunkTexts(events[..k]) == [events[0].text] + rest;
        assert acc.calls + [events[0].text] + rest == acc.calls + ([events[0].text] + rest);
      } else {
        assert ChunkTexts(events[..k]) == rest;
      }
    }
  }

  lemma {:induction false} AbsorbAfterFailure(acc: ClientAcc, events: seq<StreamEvent>)
    requires acc.failure.Some?
    ensures AbsorbAll(acc, events) == acc
    decreases |events|
  {
    if |events| > 0 {
      AbsorbAfterFailure(acc, events[1..]);
    }
  }

  /** The consumer's outcome: the `onChunk` calls it made and what it returned
      or threw. */
  datatype ClientOutcome = ClientOutcome(calls: seq<string>, result: Result<ChatResponse, Thrown>)

  /** `streamChatRequest` given what its `fetch` of the relay produced. */
  function Consume(parse: string -> Option<Json>, reply: HttpReply): (o: ClientOutcome)
    ensures reply.Threw? ==> o == ClientOutcome([], Failure(if IsAbort(reply.thrown) then Fail(TimeoutMessage) else reply.thrown))
    ensures reply.Responded? && !IsOk(reply.status) && BodyText(reply.body).Success?
      ==> o == ClientOutcome([], Failure(Fail(ClientErrorMessage(parse, reply.status, BodyText(reply.body).value))))
    ensures reply.Responded? && !IsOk(reply.status) && BodyText(reply.body).Failure?
      ==> o == ClientOutcome([], Failure(BodyText(reply.body).error))
    ensures reply.Responded? && IsOk(reply.status) && reply.body.Absent? ==> o == ClientOutcome([], Failure(Fail(NoBodyMessage)))
    ensures reply.Responded? && IsOk(reply.status) && reply.body.Present?
      ==> o == Settle(ConsumedAcc(parse, reply.body.chunks), reply.body.ending)
    ensures o.result.Success? ==> o.result.value.text == Concat(o.calls) && !IsBlank(o.result.value.text)
  {
    match reply
    case Threw(t) => ClientOutcome([], Failure(if IsAbort(t) then Fail(TimeoutMessage) else t))
    case Responded(status, body) =>
      if !IsOk(status) then
        match BodyText(body)
        case Failure(t) => ClientOutcome([], Failure(t))
        case Success(raw) => ClientOutcome([], Failure(Fail(ClientErrorMessage(parse, status, raw))))
      else
        match body
        case Absent => ClientOutcome([], Failure(Fail(NoBodyMessage)))
        case Present(chunks, ending) => Settle(ConsumedAcc(parse, chunks), ending)
  }

  /** The end of the read loop: an error event wins, then a broken stream,
      then the empty-text check. */
  function Settle(acc: ClientAcc, ending: Ending): (o: ClientOutcome)
    ensures o.calls == acc.calls
    ensures o.result.Success? <==> acc.failure.None? && ending.Clean? && !IsBlank(acc.text)
    ensures o.result.Success? ==> o.result.value == ChatResponse(acc.text, acc.usage)
    ensures acc.failure.Some? ==> o.result == Failure(Fail(acc.failure.value))
    ensures acc.failure.None? && ending.Broken? ==> o.result == Failure(ending.thrown)
    ensures acc.failure.None? && ending.Clean? && IsBlank(acc.text) ==> o.result == Failure(Fail(EmptyStreamMessage))
  {
    var result :=
      if acc.failure.Some? then Failure(Fail(acc.failure.value))
      else if ending.Broken? then Failure(ending.thrown)
      else if IsBlank(acc.text) then Failure(Fail(EmptyStreamMessage))
      else Success(ChatResponse(acc.text, acc.usage));
    ClientOutcome(acc.calls, result)
  }

  /** The consumer's state after reading `chunks`: its text is the in-order
      concatenation of its `onChunk` calls, and it equals the state reached
      from the events of the complete lines of the concatenated input. */
  function ConsumedAcc(parse: string -> Option<Json>, chunks: seq<string>): (acc: ClientAcc)
    ensures acc.text == Concat(acc.calls)
    ensures acc == AbsorbAll(Fresh, EventsOf(FrameEventOf(parse), AllLines(Concat(chunks))))
  {
    var acc := Pump(ClientStep(parse), [], Fresh, chunks).acc;
    var lines := AllLines(Concat(chunks));
    PumpIsOneShot(ClientStep(parse), [], Fresh, chunks);
    assert [] + Concat(chunks) == Concat(chunks);
    FoldIsAbsorbAll(FrameEventOf(parse), Fresh, lines);
    AbsorbKeepsTextIsCalls(Fresh, EventsOf(FrameEventOf(parse), lines));
    acc
  }

  /** The text is always the in-order concatenation of the `onChunk` calls. */
  lemma {:induction false} AbsorbKeepsTextIsCalls(acc: ClientAcc, events: seq<StreamEvent>)
    requires acc.text == Concat(acc.calls)
    ensures AbsorbAll(acc, events).text == Concat(AbsorbAll(acc, events).calls)
    decreases |events|
  {
    if |events| > 0 {
      var next := Absorb(acc, events[0]);
      if next.calls != acc.calls {
        ConcatAppend(acc.calls, [events[0].text]);
      }
      AbsorbKeepsTextIsCalls(next, events[1..]);
    }
  }

  /** Chunk-boundary invariance of the client: the same calls and the same
      result however the relay's frames are cut. */
  lemma ClientRechunkInvariant(parse: string -> Option<Json>, status: nat, chunks: seq<string>, ending: Ending)
    ensures Consume(parse, Responded(status, Present(chunks, ending)))
         == Consume(parse, Responded(status, Present([Concat(chunks)], ending)))
  {
    assert Concat([Concat(chunks)]) == Concat(chunks);
    assert ConsumedAcc(parse, chunks) == ConsumedAcc(parse, [Concat(chunks)]);
    if IsOk(status) {
      assert Consume(parse, Responded(status, Present(chunks, ending))) == Settle(ConsumedAcc(parse, chunks), ending);
    } else {
      assert BodyText(Present(chunks, ending)) == BodyText(Present([Concat(chunks)], ending));
    }
  }
}
