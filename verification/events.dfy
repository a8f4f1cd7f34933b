/** The vocabulary shared by the relay and the browser client: token usage
    records, the relay's tagged stream events and their JSON shape, errors as
    JavaScript throws them, and HTTP replies as the two sides observe them. */
module Events {
  import opened Wrappers
  import opened Text
  import opened Json

  /** A usage record accepted by the relay: all three counters finite and the
      total positive. */
  datatype Usage = Usage(promptTokens: int, completionTokens: int, totalTokens: int)

  /** The relay's own events: `{type:"chunk",text}`, `{type:"usage",usage}`,
      `{type:"done"}` and `{type:"error",error}`. */
  datatype StreamEvent =
    | Chunk(text: string)
    | UsageEvent(usage: Usage)
    | Done
    | Error(error: string)

  /** Reads a provider usage object: each counter is `Number(x ?? 0)`, and the
      record counts only if all three are finite and the total is positive.
      A missing or falsy usage value never yields a record. */
  function ParseUsage(usage: Option<Json>): (r: Option<Usage>)
    ensures r.Some? <==>
      && Counter(usage, "prompt_tokens").Finite?
      && Counter(usage, "completion_tokens").Finite?
      && Counter(usage, "total_tokens").Finite?
      && Counter(usage, "total_tokens").value > 0
    ensures r.Some? ==>
      && r.value.promptTokens == Counter(usage, "prompt_tokens").value
      && r.value.completionTokens == Counter(usage, "completion_tokens").value
      && r.value.totalTokens == Counter(usage, "total_tokens").value
    ensures usage.None? || !Truthy(usage.value) ==> r.None?
  {
    var p := Counter(usage, "prompt_tokens");
    var c := Counter(usage, "completion_tokens");
    var t := Counter(usage, "total_tokens");
    if p.Finite? && c.Finite? && t.Finite? && t.value > 0 then
      Some(Usage(p.value, c.value, t.value))
    else None
  }

  /** The JSON object the relay serialises for a usage record. */
  function UsageToJson(u: Usage): Json {
    Obj(map[
      "promptTokens" := Num(Finite(u.promptTokens)),
      "completionTokens" := Num(Finite(u.completionTokens)),
      "totalTokens" := Num(Finite(u.totalTokens))])
  }

  /** The payload object the relay passes to `writeEvent`. */
  function EventToJson(e: StreamEvent): (j: Json)
    ensures j.Obj? && "type" in j.fields
    ensures e.Chunk? <==> j.fields["type"] == Str("chunk")
    ensures e.UsageEvent? <==> j.fields["type"] == Str("usage")
    ensures e.Done? <==> j.fields["type"] == Str("done")
    ensures e.Error? <==> j.fields["type"] == Str("error")
    ensures e.Chunk? ==> Member(Some(j), "text") == Some(Str(e.text))
    ensures e.UsageEvent? ==> ReadUsage(Member(Some(j), "usage")) == Some(e.usage)
    ensures e.Error? ==> Member(Some(j), "error") == Some(Str(e.error))
  {
    match e
    case Chunk(text) => Obj(map["type" := Str("chunk"), "text" := Str(text)])
    case UsageEvent(u) => Obj(map["type" := Str("usage"), "usage" := UsageToJson(u)])
    case Done => Obj(map["type" := Str("done")])
    case Error(message) => Obj(map["type" := Str("error"), "error" := Str(message)])
  }

  /** The client's reading of a usage object received from the relay. */
  function ReadUsage(j: Option<Json>): (r: Option<Usage>)
    ensures r.Some? <==>
      && Member(j, "promptTokens").Some? && Member(j, "promptTokens").value.Num? && Member(j, "promptTokens").value.n.Finite?
      && Member(j, "completionTokens").Some? && Member(j, "completionTokens").value.Num? && Member(j, "completionTokens").value.n.Finite?
      && Member(j, "totalTokens").Some? && Member(j, "totalTokens").value.Num? && Member(j, "totalTokens").value.n.Finite?
    ensures r.Some? ==>
      && Member(j, "promptTokens") == Some(Num(Finite(r.value.promptTokens)))
      && Member(j, "completionTokens") == Some(Num(Finite(r.value.completionTokens)))
      && Member(j, "totalTokens") == Some(Num(Finite(r.value.totalTokens)))
  {
    match (Member(j, "promptTokens"), Member(j, "completionTokens"), Member(j, "totalTokens"))
    case (Some(Num(Finite(p))), Some(Num(Finite(c))), Some(Num(Finite(t)))) => Some(Usage(p, c, t))
    case _ => None
  }

  /** The client's reading of a parsed frame by its `type` field. An `error`
      whose message is not a string reads as the empty message, which the
      client replaces by its default. Values of any other shape, and unknown
      types, are ignored. */
  function ReadEvent(j: Json): (r: Option<StreamEvent>)
    ensures r.Some? ==> j.Obj? && "type" in j.fields
    ensures r.Some? && r.value.Chunk? <==>
              Member(Some(j), "type") == Some(Str("chunk")) && Member(Some(j), "text").Some? && Member(Some(j), "text").value.Str?
    ensures r.Some? && r.value.Chunk? ==> Member(Some(j), "text") == Some(Str(r.value.text))
    ensures r.Some? && r.value.UsageEvent? <==>
              Member(Some(j), "type") == Some(Str("usage")) && ReadUsage(Member(Some(j), "usage")).Some?
    ensures r.Some? && r.value.UsageEvent? ==> ReadUsage(Member(Some(j), "usage")) == Some(r.value.usage)
    ensures r == Some(Done) <==> Member(Some(j), "type") == Some(Str("done"))
    ensures r.Some? && r.value.Error? <==> Member(Some(j), "type") == Some(Str("error"))
    ensures r.Some? && r.value.Error? ==>
              r.value.error == (if Member(Some(j), "error").Some? && Member(Some(j), "error").value.Str?
                                then Member(Some(j), "error").value.s else [])
  {
    match Member(Some(j), "type")
    case Some(Str(tag)) =>
      if tag == "chunk" then
        match Member(Some(j), "text")
        case Some(Str(text)) => Some(Chunk(text))
        case _ => None
      else if tag == "usage" then
        match ReadUsage(Member(Some(j), "usage"))
        case Some(u) => Some(UsageEvent(u))
        case None => None
      else if tag == "done" then Some(Done)
      else if tag == "error" then
        match Member(Some(j), "error")
        case Some(Str(message)) => Some(Error(message))
        case _ => Some(Error([]))
      else None
    case _ => None
  }

  /** Every event the relay writes is read back as itself. */
  lemma ReadEventInvertsEventToJson(e: StreamEvent)
    ensures ReadEvent(EventToJson(e)) == Some(e)
  {
    match e
    case UsageEvent(u) =>
      assert ReadUsage(Some(UsageToJson(u))) == Some(u);
    case _ =>
  }

  /** The trimmed text after "data:" on a trimmed line, if it is a data line;
      both ends of the stream read their lines this way. */
  function DataPayload(rawLine: string): (r: Option<string>)
    ensures r.Some? <==> StartsWith(Trim(rawLine), "data:")
    ensures r.Some? ==> r.value == Trim(Trim(rawLine)[5..])
  {
    var line := Trim(rawLine);
    if StartsWith(line, "data:") then Some(Trim(line[5..])) else None
  }

  /** An exception as JavaScript code sees it: an `Error` with a name and a
      message (`AbortError` is the cancellation a timer triggers), or a thrown
      value that is not an `Error`. */
  datatype Thrown = Raised(name: string, message: string) | NotAnError

  predicate IsAbort(t: Thrown) {
    t.Raised? && t.name == "AbortError"
  }

  /** How reading a response body ended: cleanly, or with the read throwing. */
  datatype Ending = Clean | Broken(thrown: Thrown)

  /** A response body: absent, or the chunks it delivered and how it ended. */
  datatype Body = Absent | Present(chunks: seq<string>, ending: Ending)

  /** What a `fetch` produced: a throw, or a status with a body. */
  datatype HttpReply = Threw(thrown: Thrown) | Responded(status: nat, body: Body)

  /** `response.ok`. */
  predicate IsOk(status: nat) {
    200 <= status <= 299
  }

  /** `await response.text()`: the whole body, or the throw that ended it. */
  function BodyText(body: Body): (r: Result<string, Thrown>)
    ensures body.Present? && body.ending.Clean? ==> r == Success(Concat(body.chunks))
    ensures body.Absent? ==> r == Success([])
    ensures body.Present? && body.ending.Broken? ==> r == Failure(body.ending.thrown)
  {
    match body
    case Absent => Success([])
    case Present(chunks, Clean) => Success(Concat(chunks))
    case Present(_, Broken(t)) => Failure(t)
  }
}
