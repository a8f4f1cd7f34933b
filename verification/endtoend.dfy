/** The relay and the client composed: what the relay writes with
    `data: ${JSON.stringify(payload)}\n\n` is what the client reads back,
    however the network cuts it. */
module EndToEnd {
  import opened Wrappers
  import opened Text
  import opened Json
  import opened LineBuffer
  import opened Events
  import opened Relay
  import opened Client

  /** A serialised payload as `JSON.stringify` writes an object: non-empty, on
      one line, and neither starting nor ending with white space. */
  predicate OneLine(x: string) {
    x != [] && '\n' !in x && !IsSpace(x[0]) && !IsSpace(x[|x| - 1])
  }

  /** `JSON.stringify` and `JSON.parse` as far as the stream needs them: every
      event payload serialises to one line that parses back to itself. */
  ghost predicate FaithfulCodec(parse: string -> Option<Json>, stringify: Json -> string) {
    forall e: StreamEvent ::
      OneLine(stringify(EventToJson(e))) && parse(stringify(EventToJson(e))) == Some(EventToJson(e))
  }

  /** The frame `writeEvent` writes for one event. */
  function Frame(stringify: Json -> string, e: StreamEvent): (f: string)
    ensures f == Terminated([DataLine(stringify)(e), []])
    ensures f[..6] == "data: " && f[|f| - 2..] == "\n\n"
  {
    PairTerminated(DataLine(stringify)(e), []);
    assert [DataLine(stringify)(e), []] + [] == [DataLine(stringify)(e), []];
    "data: " + stringify(EventToJson(e)) + "\n\n"
  }

  /** Everything the relay writes for a sequence of events. */
  function Frames(stringify: Json -> string, events: seq<StreamEvent>): string {
    if |events| == 0 then [] else Frame(stringify, events[0]) + Frames(stringify, events[1..])
  }

  /** The data line `writeEvent` writes for an event, without its newlines. */
  function DataLine(stringify: Json -> string): StreamEvent -> string {
    (e: StreamEvent) => "data: " + stringify(EventToJson(e))
  }

  /** Each event's line followed by an empty line. */
  function Paired(line: StreamEvent -> string, events: seq<StreamEvent>): seq<string> {
    if |events| == 0 then [] else [line(events[0]), []] + Paired(line, events[1..])
  }

  /** The lines of the frames: each event's data line followed by a blank line. */
  function FrameLines(stringify: Json -> string, events: seq<StreamEvent>): seq<string> {
    Paired(DataLine(stringify), events)
  }

  /** The relay's frames are newline-terminated, newline-free lines. */
  lemma FramesAreTerminatedLines(parse: string -> Option<Json>, stringify: Json -> string, events: seq<StreamEvent>)
    requires FaithfulCodec(parse, stringify)
    ensures Frames(stringify, events) == Terminated(FrameLines(stringify, events))
    ensures forall k :: 0 <= k < |FrameLines(stringify, events)| ==> '\n' !in FrameLines(stringify, events)[k]
  {
    FramesAreTerminated(stringify, events);
    forall e: StreamEvent
      ensures '\n' !in DataLine(stringify)(e)
    {
      assert OneLine(stringify(EventToJson(e)));
    }
    PairedNewlineFree(DataLine(stringify), events);
  }

  lemma {:induction false} FramesAreTerminated(stringify: Json -> string, events: seq<StreamEvent>)
    ensures Frames(stringify, events) == Terminated(FrameLines(stringify, events))
    decreases |events|
  {
    if |events| > 0 {
      FramesAreTerminated(stringify, events[1..]);
      PairTerminated(DataLine(stringify)(events[0]), FrameLines(stringify, events[1..]));
    }
  }

  /** A line and an empty line end in two newlines. */
  lemma PairTerminated(a: string, rest: seq<string>)
    ensures Terminated([a, []] + rest) == a + "\n\n" + Terminated(rest)
  {
    var lines := [a, []] + rest;
    assert lines[1..][1..] == rest;
  }

  lemma {:induction false} PairedNewlineFree(line: StreamEvent -> string, events: seq<StreamEvent>)
    requires forall e :: '\n' !in line(e)
    ensures forall k :: 0 <= k < |Paired(line, events)| ==> '\n' !in Paired(line, events)[k]
    decreases |events|
  {
    if |events| > 0 {
      PairedNewlineFree(line, events[1..]);
      var rest := Paired(line, events[1..]);
      assert forall k :: 2 <= k < |Paired(line, events)| ==> Paired(line, events)[k] == rest[k - 2];
    }
  }

  /** A data line of a frame reads as the event it was written for. */
  lemma DataLineReadsBack(parse: string -> Option<Json>, stringify: Json -> string, e: StreamEvent)
    requires FaithfulCodec(parse, stringify)
    ensures FrameEvent(parse, "data: " + stringify(EventToJson(e))) == Some(e)
  {
    var x := stringify(EventToJson(e));
    assert OneLine(x) && parse(x) == Some(EventToJson(e));
    DataPayloadOfFrame(x);
    assert DataPayload("data: " + x) == Some(x);
    ReadEventInvertsEventToJson(e);
    assert ReadEvent(EventToJson(e)) == Some(e);
    assert x != [] && Truthy(EventToJson(e));
  }

  /** The payload of "data: x" is x when x is one line with no padding. */
  lemma DataPayloadOfFrame(x: string)
    requires OneLine(x)
    ensures DataPayload("data: " + x) == Some(x)
  {
    var line := "data: " + x;
    assert |line| == 6 + |x| && line[..5] == "data:" && line[5..] == [' '] + x;
    assert line[0] == 'd' && line[|line| - 1] == x[|x| - 1];
    TrimOfUnpadded(line);
    TrimAfterSpace(' ', x);
    TrimOfUnpadded(x);
  }

  lemma FrameLinesReadBack(parse: string -> Option<Json>, stringify: Json -> string, events: seq<StreamEvent>)
    requires FaithfulCodec(parse, stringify)
    ensures EventsOf(FrameEventOf(parse), FrameLines(stringify, events)) == events
  {
    forall e: StreamEvent
      ensures FrameEventOf(parse)(DataLine(stringify)(e)) == Some(e)
    {
      DataLineReadsBack(parse, stringify, e);
    }
    assert FrameEventOf(parse)([]) == None;
    PairedReadsBack(FrameEventOf(parse), DataLine(stringify), events);
  }

  /** A decoder that reads every event's line back reads the paired lines as
      exactly the events. */
  lemma {:induction false} PairedReadsBack(decode: string -> Option<StreamEvent>, line: StreamEvent -> string, events: seq<StreamEvent>)
    requires forall e :: decode(line(e)) == Some(e)
    requires decode([]) == None
    ensures EventsOf(decode, Paired(line, events)) == events
    decreases |events|
  {
    if |events| > 0 {
      PairedReadsBack(decode, line, events[1..]);
      PairReadsBack(decode, line(events[0]), events[0], Paired(line, events[1..]));
      assert events == [events[0]] + events[1..];
    }
  }

  /** A line that decodes to an event followed by a blank line contributes that
      one event. */
  lemma PairReadsBack(decode: string -> Option<StreamEvent>, line: string, e: StreamEvent, rest: seq<string>)
    requires decode(line) == Some(e) && decode([]) == None
    ensures EventsOf(decode, [line, []] + rest) == [e] + EventsOf(decode, rest)
  {
    var lines := [line, []] + rest;
    assert lines[1..][1..] == rest;
  }

  /** Whatever chunking the frames arrive in, the client sees exactly the
      events the relay wrote. */
  lemma ClientSeesRelayEvents(parse: string -> Option<Json>, stringify: Json -> string, events: seq<StreamEvent>, received: seq<string>)
    requires FaithfulCodec(parse, stringify)
    requires Concat(received) == Frames(stringify, events)
    ensures ConsumedAcc(parse, received) == AbsorbAll(Fresh, events)
  {
    FramesAreTerminatedLines(parse, stringify, events);
    TerminatedLines(FrameLines(stringify, events));
    FrameLinesReadBack(parse, stringify, events);
  }

  /** The relay writes no `error` event on a clean stream; its chunk texts and
      usage record are those of the upstream lines. */
  lemma RelayEventsRead(parse: string -> Option<Json>, chunks: seq<string>)
    ensures NoErrors(RelayEvents(parse, chunks))
    ensures LastUsageEvent(RelayEvents(parse, chunks)) == LatestUsage(parse, AllLines(Concat(chunks)))
    ensures ChunkTexts(RelayEvents(parse, chunks)) == ChunkTexts(LineChunks(parse, AllLines(Concat(chunks))))
  {
    var lines := AllLines(Concat(chunks));
    ChunksAreChunks(EffectOf(parse), lines);
    TailFacts(LineChunks(parse, lines), Closing(LatestUsage(parse, lines)), LatestUsage(parse, lines));
  }

  lemma {:induction false} TailFacts(cs: seq<StreamEvent>, closing: seq<StreamEvent>, u: Option<Usage>)
    requires AllChunks(cs) && closing == Closing(u)
    ensures NoErrors(cs + closing)
    ensures LastUsageEvent(cs + closing) == u
    ensures ChunkTexts(cs + closing) == ChunkTexts(cs)
    decreases |cs|
  {
    if |cs| == 0 {
      assert cs + closing == closing;
      if u.Some? {
        assert closing == [UsageEvent(u.value), Done];
        assert closing[1..] == [Done];
        assert closing[1..][1..] == [];
        assert LastUsageEvent([Done]) == None;
        assert LastUsageEvent(closing) == u;
        assert ChunkTexts([Done]) == [];
      } else {
        assert closing == [Done];
        assert closing[1..] == [];
      }
    } else {
      assert (cs + closing)[1..] == cs[1..] + closing;
      TailFacts(cs[1..], closing, u);
    }
  }

  /** End to end on a cleanly ended stream, for any re-chunking on the way to
      the browser: `onChunk` is called with exactly the relay's chunk texts, in
      order; the call returns their concatenation with the latest valid
      upstream usage record, unless that text is blank, in which case it
      throws the empty-response error. */
  lemma StreamRoundTrip(parse: string -> Option<Json>, stringify: Json -> string, status: nat,
                        upstream: seq<string>, received: seq<string>)
    requires FaithfulCodec(parse, stringify)
    requires IsOk(status)
    requires Concat(received) == Frames(stringify, RelayEvents(parse, upstream))
    ensures var texts := ChunkTexts(LineChunks(parse, AllLines(Concat(upstream))));
            var o := Consume(parse, Responded(status, Present(received, Clean)));
            && o.calls == texts
            && (o.result.Success? <==> !IsBlank(Concat(texts)))
            && (o.result.Success? ==> o.result.value == ChatResponse(Concat(texts), LatestUsage(parse, AllLines(Concat(upstream)))))
            && (o.result.Failure? ==> o.result.error == Fail(EmptyStreamMessage))
  {
    var events := RelayEvents(parse, upstream);
    ClientSeesRelayEvents(parse, stringify, events, received);
    RelayEventsRead(parse, upstream);
    AbsorbWithoutErrors(Fresh, events);
    assert [] + ChunkTexts(events) == ChunkTexts(events);
    assert [] + Concat(ChunkTexts(events)) == Concat(ChunkTexts(events));
  }

  /** The body `res.status(s).json({ error })` sends with a refusal. */
  function ErrorBody(message: string): (j: Json)
    ensures j.Obj? && j.fields.Keys == {"error"}
    ensures Member(Some(j), "error") == Some(Str(message))
  {
    Obj(map["error" := Str(message)])
  }

  /** A refusal of the streaming endpoint reaches the browser as the error the
      call throws: the relay's message when it is not blank, and "API error N"
      for a blank one. Every refusal carries a status that is not OK. */
  lemma RefusalSurfaces(parse: string -> Option<Json>, stringify: Json -> string, apiKey: string,
                        body: Option<Json>, upstream: HttpReply, status: nat, message: string, received: seq<string>)
    requires HandleStream(parse, apiKey, body, upstream).reply == Refused(status, message)
    requires parse(stringify(ErrorBody(message))) == Some(ErrorBody(message))
    requires Concat(received) == stringify(ErrorBody(message))
    ensures !IsOk(status)
    ensures Consume(parse, Responded(status, Present(received, Clean)))
         == ClientOutcome([], Failure(Fail(if IsBlank(message) then "API error " + NatToString(status) else message)))
  {
    RefusedIsNotOk(parse, apiKey, body, upstream);
    ErrorBodyReadsBack(parse, stringify, status, message, received);
  }

  /** The streaming endpoint refuses only with a status that is not OK. */
  lemma RefusedIsNotOk(parse: string -> Option<Json>, apiKey: string, body: Option<Json>, upstream: HttpReply)
    ensures HandleStream(parse, apiKey, body, upstream).reply.Refused?
            ==> !IsOk(HandleStream(parse, apiKey, body, upstream).reply.status)
  {
  }

  /** An error body with a non-OK status is read back as its message, or as
      "API error N" when the message is blank. */
  lemma ErrorBodyReadsBack(parse: string -> Option<Json>, stringify: Json -> string,
                           status: nat, message: string, received: seq<string>)
    requires !IsOk(status)
    requires parse(stringify(ErrorBody(message))) == Some(ErrorBody(message))
    requires Concat(received) == stringify(ErrorBody(message))
    ensures Consume(parse, Responded(status, Present(received, Clean)))
         == ClientOutcome([], Failure(Fail(if IsBlank(message) then "API error " + NatToString(status) else message)))
  {
    var raw := stringify(ErrorBody(message));
    assert BodyText(Present(received, Clean)) == Success(raw);
    assert Member(parse(raw), "error") == Some(Str(message));
  }

  /** For the same `content`, the non-streaming completion is the trimmed text
      the stream's delta yields, whenever the content is a string or a list of
      at most one part (a longer list is joined with "\n" in one endpoint and
      with "" in the other). */
  lemma CompletionMatchesDelta(data: Option<Json>, payload: Json)
    requires ChoiceContent(data, "message") == ChoiceContent(Some(payload), "delta")
    requires ChoiceContent(data, "message").Some?
    requires ChoiceContent(data, "message").value.Str?
             || (ChoiceContent(data, "message").value.Arr? && |ChoiceContent(data, "message").value.items| <= 1)
    ensures CompletionText(data) == Trim(match DeltaText(payload) case Some(t) => t case None => [])
  {
    var c := ChoiceContent(data, "message").value;
    var streamed := match DeltaText(payload) case Some(t) => t case None => [];
    if c.Str? {
      assert streamed == c.s;
    } else {
      var texts := PartTexts(c.items);
      if |texts| == 1 {
        assert Concat(texts) == texts[0] + Concat(texts[1..]);
      }
      assert Join(texts, "\n") == Concat(texts);
      assert streamed == Concat(texts);
    }
  }
}
