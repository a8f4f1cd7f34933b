/** The relay's two chat endpoints. `/api/chat/stream` reframes the provider's
    `data: <json>` lines into the relay's own chunk/usage/done/error events;
    `/api/chat` answers with one JSON object. Both share the request
    normalisation and the usage rule. */
module Relay {
  import opened Wrappers
  import opened Text
  import opened Json
  import opened LineBuffer
  import opened Events
  import opened Request

  const MissingKeyMessage: string := "OPENROUTER_API_KEY is not set in your environment."
  const StreamUnavailableMessage: string := "OpenRouter stream is unavailable."
  const EmptyResponseMessage: string := "OpenRouter returned an empty response."
  const StreamTimeoutMessage: string := "OpenRouter timed out after 60s. Try again or switch models."
  const ChatTimeoutMessage: string := "OpenRouter timed out after 45s. Try again or switch models."
  const GenericFailureMessage: string := "Failed to call OpenRouter API."
  /** How much of an unparsable provider error body the streaming endpoint quotes. */
  const ErrorExcerptLength: nat := 200

  /** The provider event a line carries, if the relay acts on it: a data line
      whose payload is neither empty nor "[DONE]", parses, and is truthy. */
  function LinePayload(parse: string -> Option<Json>, rawLine: string): (r: Option<Json>)
    ensures !StartsWith(Trim(rawLine), "data:") ==> r.None?
    ensures DataPayload(rawLine) == Some([]) || DataPayload(rawLine) == Some("[DONE]") ==> r.None?
    ensures DataPayload(rawLine).Some? && parse(DataPayload(rawLine).value).None? ==> r.None?
    ensures r.Some? ==> Truthy(r.value) && parse(DataPayload(rawLine).value) == r
    ensures DataPayload(rawLine).Some? && DataPayload(rawLine).value != [] && DataPayload(rawLine).value != "[DONE]"
            && parse(DataPayload(rawLine).value).Some?
            ==> r == (if Truthy(parse(DataPayload(rawLine).value).value) then parse(DataPayload(rawLine).value) else None)
  {
    match DataPayload(rawLine)
    case None => None
    case Some(payload) =>
      if payload == [] || payload == "[DONE]" then None
      else
        match parse(payload)
        case None => None
        case Some(j) => if Truthy(j) then Some(j) else None
  }

  /** A part's text: its `text` field if that is a string, else "". */
  function PartText(part: Json): string {
    match Member(Some(part), "text")
    case Some(Str(t)) => t
    case _ => []
  }

  function PartTexts(parts: seq<Json>): (r: seq<string>)
    ensures |r| == |parts|
    ensures forall i :: 0 <= i < |parts| ==> r[i] == PartText(parts[i])
  {
    seq(|parts|, i requires 0 <= i < |parts| => PartText(parts[i]))
  }

  /** `x?.choices?.[0]?.<field>?.content`. */
  function ChoiceContent(x: Option<Json>, field: string): Option<Json> {
    Member(Member(Index(Member(x, "choices"), 0), field), "content")
  }

  /** The text one provider event contributes: a non-empty string delta as is;
      a list delta as its parts' texts joined with "", if that is non-empty;
      nothing for any other shape. */
  function DeltaText(payload: Json): (r: Option<string>)
    ensures r.Some? ==> r.value != []
    ensures r.Some? <==>
              var c := ChoiceContent(Some(payload), "delta");
              c.Some? && ((c.value.Str? && c.value.s != []) || (c.value.Arr? && Concat(PartTexts(c.value.items)) != []))
    ensures r.Some? && ChoiceContent(Some(payload), "delta").value.Str? ==> r.value == ChoiceContent(Some(payload), "delta").value.s
    ensures r.Some? && ChoiceContent(Some(payload), "delta").value.Arr?
            ==> r.value == Concat(PartTexts(ChoiceContent(Some(payload), "delta").value.items))
  {
    match ChoiceContent(Some(payload), "delta")
    case Some(Str(s)) => if |s| > 0 then Some(s) else None
    case Some(Arr(parts)) =>
      var text := Concat(PartTexts(parts));
      if |text| > 0 then Some(text) else None
    case _ => None
  }

  /** The usage record a provider event carries, if it is a valid one. */
  function LineUsage(payload: Json): (r: Option<Usage>)
    ensures r.Some? ==> Member(Some(payload), "usage").Some? && Truthy(Member(Some(payload), "usage").value)
    ensures r.Some? ==> r == ParseUsage(Member(Some(payload), "usage"))
  {
    var u := Member(Some(payload), "usage");
    if u.Some? && Truthy(u.value) then ParseUsage(u) else None
  }

  /** The truthiness test in front of the usage rule never changes its outcome:
      both endpoints apply the same rule. */
  lemma LineUsageIsParseUsage(payload: Json)
    ensures LineUsage(payload) == ParseUsage(Member(Some(payload), "usage"))
  {
  }

  /** What one line contributes: a valid usage record and a chunk text, each
      possibly absent. */
  datatype Effect = Effect(usage: Option<Usage>, chunk: Option<string>)

  /** The effect of one raw line on the streaming loop. Skipped lines (not a
      data line, empty or "[DONE]" payload, malformed or falsy payload)
      contribute nothing. */
  function LineEffect(parse: string -> Option<Json>, rawLine: string): (e: Effect)
    ensures LinePayload(parse, rawLine).None? ==> e == Effect(None, None)
    ensures LinePayload(parse, rawLine).Some? ==>
      e == Effect(LineUsage(LinePayload(parse, rawLine).value), DeltaText(LinePayload(parse, rawLine).value))
    ensures e.chunk.Some? ==> e.chunk.value != []
  {
    match LinePayload(parse, rawLine)
    case None => Effect(None, None)
    case Some(p) => Effect(LineUsage(p), DeltaText(p))
  }

  function EffectOf(parse: string -> Option<Json>): string -> Effect {
    (line: string) => LineEffect(parse, line)
  }

  /** What the streaming loop has gathered: the last valid usage record and the
      events written so far. */
  datatype RelayAcc = RelayAcc(usage: Option<Usage>, events: seq<StreamEvent>)

  /** One pass of the inner `for` loop: a valid usage record replaces the held
      one, and a delta with text appends one chunk event. */
  function Apply(acc: RelayAcc, e: Effect): (r: RelayAcc)
    ensures r.usage == (if e.usage.Some? then e.usage else acc.usage)
    ensures e.chunk.Some? ==> r.events == acc.events + [Chunk(e.chunk.value)]
    ensures e.chunk.None? ==> r.events == acc.events
  {
    RelayAcc(if e.usage.Some? then e.usage else acc.usage,
             match e.chunk case Some(t) => acc.events + [Chunk(t)] case None => acc.events)
  }

  function Stepper(effect: string -> Effect): (RelayAcc, string) -> RelayAcc {
    (acc: RelayAcc, line: string) => Apply(acc, effect(line))
  }

  function RelayStep(parse: string -> Option<Json>): (RelayAcc, string) -> RelayAcc {
    Stepper(EffectOf(parse))
  }

  /** Reference: the chunk event each line yields, in line order. */
  function ChunksOf(effect: string -> Effect, lines: seq<string>): seq<StreamEvent> {
    if |lines| == 0 then []
    else (match effect(lines[0]).chunk case Some(t) => [Chunk(t)] case None => []) + ChunksOf(effect, lines[1..])
  }

  /** Reference: the latest valid usage record among the lines, found by
      looking at later lines first. */
  function LatestUsageOf(effect: string -> Effect, lines: seq<string>): Option<Usage> {
    if |lines| == 0 then None
    else
      var later := LatestUsageOf(effect, lines[1..]);
      if later.Some? then later else effect(lines[0]).usage
  }

  /** The loop over complete lines appends exactly the lines' chunk events, in
      order, and holds the latest valid usage record, or keeps the earlier one
      if no line carries a valid record. */
  lemma {:induction false} FoldEffects(effect: string -> Effect, acc: RelayAcc, lines: seq<string>)
    ensures FoldLines(Stepper(effect), acc, lines)
         == RelayAcc(if LatestUsageOf(effect, lines).Some? then LatestUsageOf(effect, lines) else acc.usage,
                     acc.events + ChunksOf(effect, lines))
    decreases |lines|
  {
    if |lines| > 0 {
      var next := Apply(acc, effect(lines[0]));
      assert Stepper(effect)(acc, lines[0]) == next;
      FoldEffects(effect, next, lines[1..]);
    }
  }

  function LineChunks(parse: string -> Option<Json>, lines: seq<string>): seq<StreamEvent> {
    ChunksOf(EffectOf(parse), lines)
  }

  function LatestUsage(parse: string -> Option<Json>, lines: seq<string>): Option<Usage> {
    LatestUsageOf(EffectOf(parse), lines)
  }

  /** A line whose effect carries a usage record makes it the latest one. */
  lemma LatestUsageIsLast(effect: string -> Effect, lines: seq<string>, line: string)
    requires effect(line).usage.Some?
    ensures LatestUsageOf(effect, lines + [line]) == effect(line).usage
  {
    LatestUsageSuffix(effect, lines, line);
  }

  lemma {:induction false} LatestUsageSuffix(effect: string -> Effect, lines: seq<string>, line: string)
    ensures LatestUsageOf(effect, lines + [line])
         == if effect(line).usage.Some? then effect(line).usage else LatestUsageOf(effect, lines)
    decreases |lines|
  {
    if |lines| == 0 {
      assert lines + [line] == [line];
    } else {
      assert (lines + [line])[1..] == lines[1..] + [line];
      LatestUsageSuffix(effect, lines[1..], line);
    }
  }

  /** The events written after the loop: the held usage record, if any, then done. */
  function Closing(usage: Option<Usage>): (r: seq<StreamEvent>)
    ensures |r| == (if usage.Some? then 2 else 1) && r[|r| - 1] == Done
    ensures usage.Some? ==> r[0] == UsageEvent(usage.value)
  {
    (match usage case Some(u) => [UsageEvent(u)] case None => []) + [Done]
  }

  const Start: RelayAcc := RelayAcc(None, [])

  /** The events the streaming endpoint writes for an upstream body that ends
      cleanly after delivering `chunks`: every chunk event of the complete
      lines, in line order, then the latest valid usage record if there is
      one, then done. */
  function RelayEvents(parse: string -> Option<Json>, chunks: seq<string>): (r: seq<StreamEvent>)
    ensures r == LineChunks(parse, AllLines(Concat(chunks))) + Closing(LatestUsage(parse, AllLines(Concat(chunks))))
  {
    RelayAccAfter(parse, chunks);
    var acc := Pump(RelayStep(parse), [], Start, chunks).acc;
    acc.events + Closing(acc.usage)
  }

  /** The state the read loop ends in, as a function of the complete lines. */
  lemma RelayAccAfter(parse: string -> Option<Json>, chunks: seq<string>)
    ensures Pump(RelayStep(parse), [], Start, chunks).acc
         == RelayAcc(LatestUsage(parse, AllLines(Concat(chunks))), LineChunks(parse, AllLines(Concat(chunks))))
  {
    StepperAccAfter(EffectOf(parse), chunks);
  }

  /** The same for any per-line effect. */
  lemma StepperAccAfter(effect: string -> Effect, chunks: seq<string>)
    ensures Pump(Stepper(effect), [], Start, chunks).acc
         == RelayAcc(LatestUsageOf(effect, AllLines(Concat(chunks))), ChunksOf(effect, AllLines(Concat(chunks))))
  {
    var all := Concat(chunks);
    var lines := AllLines(all);
    PumpIsOneShot(Stepper(effect), [], Start, chunks);
    assert [] + all == all;
    var acc := Pump(Stepper(effect), [], Start, chunks).acc;
    assert acc == FoldLines(Stepper(effect), Start, lines);
    FoldEffects(effect, Start, lines);
    assert [] + ChunksOf(effect, lines) == ChunksOf(effect, lines);
  }

  /** Chunk-boundary invariance of the relay: the same events however the
      upstream bytes are cut. */
  lemma RelayRechunkInvariant(parse: string -> Option<Json>, chunks: seq<string>)
    ensures RelayEvents(parse, chunks) == RelayEvents(parse, [Concat(chunks)])
  {
    RechunkInvariant(RelayStep(parse), Start, chunks);
  }

  predicate AllChunks(events: seq<StreamEvent>) {
    forall i :: 0 <= i < |events| ==> events[i].Chunk?
  }

  lemma {:induction false} ChunksAreChunks(effect: string -> Effect, lines: seq<string>)
    requires forall l :: effect(l).chunk.Some? ==> effect(l).chunk.value != []
    ensures AllChunks(ChunksOf(effect, lines))
    ensures forall i :: 0 <= i < |ChunksOf(effect, lines)| ==> ChunksOf(effect, lines)[i].text != []
    decreases |lines|
  {
    if |lines| > 0 {
      ChunksAreChunks(effect, lines[1..]);
    }
  }

  /** The shape of a cleanly ended stream: chunk events, then at most one usage
      event, then exactly one done event. */
  predicate WellFramed(events: seq<StreamEvent>) {
    || (|events| >= 1 && events[|events| - 1] == Done && AllChunks(events[..|events| - 1]))
    || (|events| >= 2 && events[|events| - 1] == Done && events[|events| - 2].UsageEvent?
        && AllChunks(events[..|events| - 2]))
  }

  lemma RelayEventsWellFramed(parse: string -> Option<Json>, chunks: seq<string>)
    ensures WellFramed(RelayEvents(parse, chunks))
    ensures forall i :: 0 <= i < |RelayEvents(parse, chunks)| ==>
              RelayEvents(parse, chunks)[i].Chunk? ==> RelayEvents(parse, chunks)[i].text != []
  {
    var lines := AllLines(Concat(chunks));
    ChunksAreChunks(EffectOf(parse), lines);
    ClosedIsWellFramed(LineChunks(parse, lines), LatestUsage(parse, lines));
  }

  lemma ClosedIsWellFramed(cs: seq<StreamEvent>, u: Option<Usage>)
    requires AllChunks(cs)
    requires forall i :: 0 <= i < |cs| ==> cs[i].text != []
    ensures WellFramed(cs + Closing(u))
    ensures forall i :: 0 <= i < |cs + Closing(u)| ==> (cs + Closing(u))[i].Chunk? ==> (cs + Closing(u))[i].text != []
  {
    var es := cs + Closing(u);
    if u.Some? {
      assert es[..|es| - 2] == cs;
    } else {
      assert es[..|es| - 1] == cs;
    }
  }

  /** The message a failure in the streaming endpoint is reported with: the
      timeout notice for the abort, an error's own message, and a generic
      notice for a thrown value that is not an error. */
  function StreamFailureMessage(t: Thrown): (r: string)
    ensures IsAbort(t) ==> r == StreamTimeoutMessage
    ensures !IsAbort(t) && t.Raised? ==> r == t.message
    ensures t.NotAnError? ==> r == GenericFailureMessage
  {
    if IsAbort(t) then StreamTimeoutMessage
    else match t case Raised(_, message) => message case NotAnError => GenericFailureMessage
  }

  function StatusMessage(status: nat): string {
    "OpenRouter request failed with status " + NatToString(status) + "."
  }

  /** The streaming endpoint's reading of a non-OK provider body: the
      provider's `error.message` if it is a string; otherwise, if the body does
      not parse and is not blank, its first 200 characters; otherwise a
      message naming the status. */
  function StreamUpstreamError(parse: string -> Option<Json>, status: nat, raw: string): (r: string)
    ensures raw != [] && parse(raw).Some? && Member(Member(parse(raw), "error"), "message").Some?
      && Member(Member(parse(raw), "error"), "message").value.Str?
      ==> r == Member(Member(parse(raw), "error"), "message").value.s
    ensures raw != [] && parse(raw).None? && !IsBlank(raw) ==> r == Take(raw, ErrorExcerptLength)
    ensures raw == [] || (parse(raw).None? && IsBlank(raw)) ==> r == StatusMessage(status)
    ensures raw != [] && parse(raw).Some?
      && !(Member(Member(parse(raw), "error"), "message").Some? && Member(Member(parse(raw), "error"), "message").value.Str?)
      ==> r == StatusMessage(status)
    ensures r == StatusMessage(status) || r == Take(raw, ErrorExcerptLength)
      || (parse(raw).Some? && Member(Member(parse(raw), "error"), "message") == Some(Str(r)))
  {
    if raw == [] then StatusMessage(status)
    else match parse(raw)
      case None => if !IsBlank(raw) then Take(raw, ErrorExcerptLength) else StatusMessage(status)
      case Some(data) =>
        match Member(Member(Some(data), "error"), "message")
        case Some(Str(m)) => m
        case _ => StatusMessage(status)
  }

  /** What the streaming endpoint sends: a JSON error with a status before any
      event framing, or an event stream. */
  datatype StreamReply = Refused(status: nat, message: string) | Streamed(events: seq<StreamEvent>)

  /** The endpoint's outcome, with the provider request it issued, if any. */
  datatype StreamHandled = StreamHandled(request: Option<UpstreamRequest>, reply: StreamReply)

  /** `POST /api/chat/stream` given the credential (empty when unset), the
      request body and what the provider call produced. */
  function HandleStream(parse: string -> Option<Json>, apiKey: string, body: Option<Json>, upstream: HttpReply): (h: StreamHandled)
    ensures apiKey == [] ==> h == StreamHandled(None, Refused(500, MissingKeyMessage))
    ensures apiKey != [] ==> h.request == Some(ToUpstream(Normalise(body), true))
    ensures upstream.Threw? && apiKey != [] ==> h.reply == Refused(500, StreamFailureMessage(upstream.thrown))
    ensures apiKey != [] && upstream.Responded? && !IsOk(upstream.status) && BodyText(upstream.body).Success?
      ==> h.reply == Refused(upstream.status, StreamUpstreamError(parse, upstream.status, BodyText(upstream.body).value))
    ensures apiKey != [] && upstream.Responded? && !IsOk(upstream.status) && BodyText(upstream.body).Failure?
      ==> h.reply == Refused(500, StreamFailureMessage(BodyText(upstream.body).error))
    ensures apiKey != [] && upstream.Responded? && IsOk(upstream.status) && upstream.body.Absent?
      ==> h.reply == Refused(502, StreamUnavailableMessage)
    ensures apiKey != [] && upstream.Responded? && IsOk(upstream.status) && upstream.body.Present?
            && upstream.body.ending.Clean?
            ==> h.reply == Streamed(RelayEvents(parse, upstream.body.chunks))
    ensures apiKey != [] && upstream.Responded? && IsOk(upstream.status) && upstream.body.Present?
            && upstream.body.ending.Broken?
            ==> && h.reply.Streamed? && |h.reply.events| >= 1
                && h.reply.events[|h.reply.events| - 1] == Error(StreamFailureMessage(upstream.body.ending.thrown))
                && AllChunks(h.reply.events[..|h.reply.events| - 1])
    ensures apiKey != [] && upstream.Responded? && IsOk(upstream.status) && upstream.body.Present?
            && upstream.body.ending.Broken?
            ==> h.reply == Streamed(LineChunks(parse, AllLines(Concat(upstream.body.chunks)))
                                    + [Error(StreamFailureMessage(upstream.body.ending.thrown))])
  {
    if apiKey == [] then StreamHandled(None, Refused(500, MissingKeyMessage))
    else
      var request := Some(ToUpstream(Normalise(body), true));
      match upstream
      case Threw(t) => StreamHandled(request, Refused(500, StreamFailureMessage(t)))
      case Responded(status, upBody) =>
        if !IsOk(status) then
          match BodyText(upBody)
          case Failure(t) => StreamHandled(request, Refused(500, StreamFailureMessage(t)))
          case Success(raw) => StreamHandled(request, Refused(status, StreamUpstreamError(parse, status, raw)))
        else
          match upBody
          case Absent => StreamHandled(request, Refused(502, StreamUnavailableMessage))
          case Present(chunks, ending) =>
            match ending
            case Clean => StreamHandled(request, Streamed(RelayEvents(parse, chunks)))
            case Broken(t) =>
              var acc := Pump(RelayStep(parse), [], Start, chunks).acc;
              BrokenStreamChunks(parse, chunks);
              var events := acc.events + [Error(StreamFailureMessage(t))];
              assert events[..|events| - 1] == acc.events;
              StreamHandled(request, Streamed(events))
  }

  /** The events written before a mid-stream failure: the chunk events of the
      complete lines received, and nothing else. */
  lemma BrokenStreamChunks(parse: string -> Option<Json>, chunks: seq<string>)
    ensures Pump(RelayStep(parse), [], Start, chunks).acc.events == LineChunks(parse, AllLines(Concat(chunks)))
    ensures AllChunks(Pump(RelayStep(parse), [], Start, chunks).acc.events)
  {
    RelayAccAfter(parse, chunks);
    ChunksAreChunks(EffectOf(parse), AllLines(Concat(chunks)));
  }

  /** What the non-streaming endpoint answers. */
  datatype ChatReply = Answered(text: string, usage: Option<Usage>) | ChatRefused(status: nat, message: string)

  datatype ChatHandled = ChatHandled(request: Option<UpstreamRequest>, reply: ChatReply)

  /** The non-streaming endpoint's reading of the completion: a string content
      trimmed; a list content as its parts' texts joined with "\n", trimmed;
      anything else as "". */
  function CompletionText(data: Option<Json>): (r: string)
    ensures r == Trim(r)
    ensures ChoiceContent(data, "message").Some? && ChoiceContent(data, "message").value.Str?
      ==> r == Trim(ChoiceContent(data, "message").value.s)
    ensures ChoiceContent(data, "message").Some? && ChoiceContent(data, "message").value.Arr?
      ==> r == Trim(Join(PartTexts(ChoiceContent(data, "message").value.items), "\n"))
    ensures !(ChoiceContent(data, "message").Some? && (ChoiceContent(data, "message").value.Str? || ChoiceContent(data, "message").value.Arr?))
      ==> r == []
  {
    match ChoiceContent(data, "message")
    case Some(Str(s)) => TrimIdempotent(s); Trim(s)
    case Some(Arr(parts)) => TrimIdempotent(Join(PartTexts(parts), "\n")); Trim(Join(PartTexts(parts), "\n"))
    case _ => []
  }

  function ChatFailureMessage(t: Thrown): string {
    if IsAbort(t) then ChatTimeoutMessage
    else match t case Raised(_, message) => message case NotAnError => GenericFailureMessage
  }

  /** A throw in the non-streaming endpoint: 504 for the 45-second timeout,
      500 otherwise. */
  function ChatFailure(t: Thrown): (r: ChatReply)
    ensures r.ChatRefused? && (r.status == 504 <==> IsAbort(t))
    ensures IsAbort(t) ==> r == ChatRefused(504, ChatTimeoutMessage)
    ensures !IsAbort(t) ==> r.status == 500
    ensures !IsAbort(t) && t.Raised? ==> r.message == t.message
    ensures t.NotAnError? ==> r.message == GenericFailureMessage
  {
    ChatRefused(if IsAbort(t) then 504 else 500, ChatFailureMessage(t))
  }

  /** `rawText ? JSON.parse(rawText) : null`, with a parse failure read as null. */
  function BodyData(parse: string -> Option<Json>, raw: string): Option<Json> {
    if raw == [] then None else parse(raw)
  }

  /** The non-streaming endpoint's reading of a non-OK provider body: the
      provider's `error.message` if it is a string, else a message naming the
      status. Unlike the streaming endpoint it never quotes the body. */
  function ChatUpstreamError(parse: string -> Option<Json>, status: nat, raw: string): (r: string)
    ensures Member(Member(BodyData(parse, raw), "error"), "message").Some?
            && Member(Member(BodyData(parse, raw), "error"), "message").value.Str?
            ==> r == Member(Member(BodyData(parse, raw), "error"), "message").value.s
    ensures !(Member(Member(BodyData(parse, raw), "error"), "message").Some?
              && Member(Member(BodyData(parse, raw), "error"), "message").value.Str?)
            ==> r == StatusMessage(status)
  {
    match Member(Member(BodyData(parse, raw), "error"), "message")
    case Some(Str(m)) => m
    case _ => StatusMessage(status)
  }

  /** The answer to a provider response whose body was read: the status and
      message of a non-OK response, a 502 for an empty completion, or the
      trimmed completion with the usage record the shared rule accepts. */
  function ChatOutcome(parse: string -> Option<Json>, status: nat, raw: string): (r: ChatReply)
    ensures !IsOk(status) ==> r == ChatRefused(status, ChatUpstreamError(parse, status, raw))
    ensures IsOk(status) && CompletionText(BodyData(parse, raw)) == [] ==> r == ChatRefused(502, EmptyResponseMessage)
    ensures IsOk(status) && CompletionText(BodyData(parse, raw)) != [] ==>
              r == Answered(CompletionText(BodyData(parse, raw)), ParseUsage(Member(BodyData(parse, raw), "usage")))
    ensures r.Answered? ==>
              && IsOk(status) && r.text != [] && r.text == Trim(r.text)
              && r.text == CompletionText(BodyData(parse, raw))
              && r.usage == ParseUsage(Member(BodyData(parse, raw), "usage"))
  {
    if !IsOk(status) then ChatRefused(status, ChatUpstreamError(parse, status, raw))
    else
      var text := CompletionText(BodyData(parse, raw));
      if text == [] then ChatRefused(502, EmptyResponseMessage)
      else Answered(text, ParseUsage(Member(BodyData(parse, raw), "usage")))
  }

  /** `POST /api/chat` given the credential (empty when unset), the request
      body and what the provider call produced. */
  function HandleChat(parse: string -> Option<Json>, apiKey: string, body: Option<Json>, upstream: HttpReply): (h: ChatHandled)
    ensures apiKey == [] ==> h == ChatHandled(None, ChatRefused(500, MissingKeyMessage))
    ensures apiKey != [] ==> h.request == Some(ToUpstream(Normalise(body), false))
    ensures apiKey != [] && upstream.Threw? ==> h.reply == ChatFailure(upstream.thrown)
    ensures apiKey != [] && upstream.Responded? && BodyText(upstream.body).Failure?
            ==> h.reply == ChatFailure(BodyText(upstream.body).error)
    ensures apiKey != [] && upstream.Responded? && BodyText(upstream.body).Success?
            ==> h.reply == ChatOutcome(parse, upstream.status, BodyText(upstream.body).value)
  {
    if apiKey == [] then ChatHandled(None, ChatRefused(500, MissingKeyMessage))
    else
      var request := Some(ToUpstream(Normalise(body), false));
      match upstream
      case Threw(t) => ChatHandled(request, ChatFailure(t))
      case Responded(status, upBody) =>
        match BodyText(upBody)
        case Failure(t) => ChatHandled(request, ChatFailure(t))
        case Success(raw) => ChatHandled(request, ChatOutcome(parse, status, raw))
  }

  /** Both endpoints send the provider the same normalised request; only the
      streaming flag differs. */
  lemma EndpointsShareNormalisation(parse: string -> Option<Json>, apiKey: string, body: Option<Json>, upstream: HttpReply)
    requires apiKey != []
    ensures HandleChat(parse, apiKey, body, upstream).request.Some?
    ensures HandleStream(parse, apiKey, body, upstream).request.Some?
    ensures HandleStream(parse, apiKey, body, upstream).request.value
         == HandleChat(parse, apiKey, body, upstream).request.value.(stream := true)
  {
  }
}
