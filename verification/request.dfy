/** Normalisation of the untyped request body `{messages, settings}` that both
    relay endpoints perform before calling the provider: turn filtering and the
    20-turn window, the model and temperature defaults, the persona-derived
    system prompt and the `conciseMode` token budget. */
module Request {
  import opened Wrappers
  import opened Text
  import opened Json

  /** The number of most recent turns forwarded upstream. */
  const MaxTurns: nat := 20

  const DefaultModel: string := "openai/gpt-4.1-nano"
  const GenericPrompt: string := "You are a helpful AI assistant."
  const ConciseMaxTokens: nat := 220
  const FullMaxTokens: nat := 500

  datatype TurnRole = UserTurn | AssistantTurn

  datatype Turn = Turn(role: TurnRole, text: string)

  /** The temperature sent upstream: the caller's number, or the default 0.6
      (floating-point values are not modelled). */
  datatype Temperature = FromSettings(value: Numeric) | DefaultTemperature

  datatype ChatRequest = ChatRequest(
    turns: seq<Turn>,
    model: string,
    temperature: Temperature,
    maxTokens: nat,
    systemPrompt: string)

  /** One entry of the provider's `messages` array. */
  datatype ApiMessage = ApiMessage(role: string, content: string)

  /** The provider request body; `stream` also sets `stream_options.include_usage`. */
  datatype UpstreamRequest = UpstreamRequest(
    model: string,
    stream: bool,
    temperature: Temperature,
    maxTokens: nat,
    messages: seq<ApiMessage>)

  /** The turn an array entry stands for, if its role is "user" or "assistant"
      and its text is a string. */
  function TurnOf(entry: Json): Option<Turn> {
    match (Member(Some(entry), "role"), Member(Some(entry), "text"))
    case (Some(Str(role)), Some(Str(text))) =>
      if role == "user" then Some(Turn(UserTurn, text))
      else if role == "assistant" then Some(Turn(AssistantTurn, text))
      else None
    case _ => None
  }

  /** The entries that survive the role/text filter, in order. */
  function KeptTurns(entries: seq<Json>): seq<Turn> {
    if |entries| == 0 then []
    else (match TurnOf(entries[0]) case Some(t) => [t] case None => []) + KeptTurns(entries[1..])
  }

  /** The filter commutes with concatenation, so it keeps order. */
  lemma {:induction false} KeptTurnsAppend(a: seq<Json>, b: seq<Json>)
    ensures KeptTurns(a + b) == KeptTurns(a) + KeptTurns(b)
    decreases |a|
  {
    if |a| == 0 {
      assert a + b == b;
    } else {
      assert (a + b)[1..] == a[1..] + b;
      KeptTurnsAppend(a[1..], b);
    }
  }

  /** Every kept turn comes from an entry that passes the filter. */
  lemma {:induction false} KeptTurnsFromEntries(entries: seq<Json>)
    ensures forall t :: t in KeptTurns(entries) ==> exists i :: 0 <= i < |entries| && TurnOf(entries[i]) == Some(t)
    decreases |entries|
  {
    if |entries| > 0 {
      KeptTurnsFromEntries(entries[1..]);
      forall t | t in KeptTurns(entries)
        ensures exists i :: 0 <= i < |entries| && TurnOf(entries[i]) == Some(t)
      {
        if TurnOf(entries[0]) == Some(t) {
        } else {
          var i :| 0 <= i < |entries[1..]| && TurnOf(entries[1..][i]) == Some(t);
          assert TurnOf(entries[i + 1]) == Some(t);
        }
      }
    }
  }

  /** `messages.slice(-20)`. */
  function LastTurns(turns: seq<Turn>): (r: seq<Turn>)
    ensures |r| == if |turns| <= MaxTurns then |turns| else MaxTurns
    ensures turns == turns[..|turns| - |r|] + r
  {
    if |turns| <= MaxTurns then turns else turns[|turns| - MaxTurns..]
  }

  /** The conversation forwarded upstream: the kept entries of an array, the
      last 20 of them; anything but an array forwards nothing. */
  function ForwardedTurns(messages: Json): (r: seq<Turn>)
    ensures !messages.Arr? ==> r == []
    ensures messages.Arr? ==>
      var kept := KeptTurns(messages.items);
      && |r| == (if |kept| <= MaxTurns then |kept| else MaxTurns)
      && kept == kept[..|kept| - |r|] + r
  {
    match messages
    case Arr(entries) => LastTurns(KeptTurns(entries))
    case _ => []
  }

  /** The system instruction: the trimmed persona in a fixed sentence, or the
      generic instruction when the persona is not a string or is blank. */
  function SystemPrompt(persona: Option<Json>): (r: string)
    ensures persona.Some? && persona.value.Str? && !IsBlank(persona.value.s) ==>
      r == "You are " + Trim(persona.value.s) + ". Keep responses grounded and directly useful."
    ensures !(persona.Some? && persona.value.Str?) ==> r == GenericPrompt
    ensures persona.Some? && persona.value.Str? && IsBlank(persona.value.s) ==> r == GenericPrompt
  {
    match persona
    case Some(Str(p)) =>
      if |Trim(p)| > 0 then "You are " + Trim(p) + ". Keep responses grounded and directly useful."
      else GenericPrompt
    case _ => GenericPrompt
  }

  /** `const { messages = [], settings = {} } = req.body ?? {}`: a property that
      is absent (undefined) takes its default; a present `null` does not. */
  function BodyField(body: Option<Json>, key: string, default: Json): (r: Json)
    ensures body.Some? && body.value.Obj? && key in body.value.fields ==> r == body.value.fields[key]
    ensures !(body.Some? && body.value.Obj? && key in body.value.fields) ==> r == default
  {
    var b := if body.None? || body == Some(Null) then Obj(map[]) else body.value;
    match Member(Some(b), key)
    case Some(v) => v
    case None => default
  }

  /** The settings-dependent fields, read from a settings value that is not null. */
  function FromSettingsValue(turns: seq<Turn>, settings: Json): (r: ChatRequest)
    ensures r.turns == turns
    ensures Member(Some(settings), "model").Some? && Member(Some(settings), "model").value.Str?
      ==> r.model == Member(Some(settings), "model").value.s
    ensures !(Member(Some(settings), "model").Some? && Member(Some(settings), "model").value.Str?)
      ==> r.model == DefaultModel
    ensures Member(Some(settings), "temperature").Some? && Member(Some(settings), "temperature").value.Num?
      ==> r.temperature == FromSettings(Member(Some(settings), "temperature").value.n)
    ensures !(Member(Some(settings), "temperature").Some? && Member(Some(settings), "temperature").value.Num?)
      ==> r.temperature == DefaultTemperature
    ensures r.maxTokens == if Member(Some(settings), "conciseMode").Some? && Truthy(Member(Some(settings), "conciseMode").value)
      then ConciseMaxTokens else FullMaxTokens
    ensures r.systemPrompt == SystemPrompt(Member(Some(settings), "persona"))
  {
    var model := match Member(Some(settings), "model") case Some(Str(m)) => m case _ => DefaultModel;
    var temperature := match Member(Some(settings), "temperature") case Some(Num(n)) => FromSettings(n) case _ => DefaultTemperature;
    var concise := match Member(Some(settings), "conciseMode") case Some(v) => Truthy(v) case None => false;
    ChatRequest(turns, model, temperature, if concise then ConciseMaxTokens else FullMaxTokens,
                SystemPrompt(Member(Some(settings), "persona")))
  }

  /** The normalisation as written: reading `settings.model` throws a TypeError
      when the body carries `"settings": null`, because the destructuring
      default only replaces an absent value. */
  function NormaliseAsWritten(body: Option<Json>): (r: Result<ChatRequest, string>)
    ensures r.Failure? <==> BodyField(body, "settings", Obj(map[])) == Null
    ensures r.Success? ==> r.value.turns == ForwardedTurns(BodyField(body, "messages", Arr([])))
    ensures r.Success? ==> r.value == FromSettingsValue(ForwardedTurns(BodyField(body, "messages", Arr([]))),
                                                        BodyField(body, "settings", Obj(map[])))
  {
    var turns := ForwardedTurns(BodyField(body, "messages", Arr([])));
    var settings := BodyField(body, "settings", Obj(map[]));
    if settings == Null then Failure("TypeError")
    else Success(FromSettingsValue(turns, settings))
  }

  /** The normalisation as the design intends it: a settings value of any
      shape, `null` included, falls back field by field to the defaults. */
  function Normalise(body: Option<Json>): (r: ChatRequest)
    ensures r.turns == ForwardedTurns(BodyField(body, "messages", Arr([])))
    ensures NormaliseAsWritten(body).Success? ==> r == NormaliseAsWritten(body).value
    ensures BodyField(body, "settings", Obj(map[])).Obj?
      ==> r == FromSettingsValue(ForwardedTurns(BodyField(body, "messages", Arr([]))), BodyField(body, "settings", Obj(map[])))
    ensures BodyField(body, "settings", Obj(map[])) == Null
      ==> r == FromSettingsValue(ForwardedTurns(BodyField(body, "messages", Arr([]))), Obj(map[]))
  {
    var turns := ForwardedTurns(BodyField(body, "messages", Arr([])));
    var settings := BodyField(body, "settings", Obj(map[]));
    FromSettingsValue(turns, if settings == Null then Obj(map[]) else settings)
  }

  /** `{"settings": null}` makes the handler as written throw before it answers. */
  lemma NullSettingsThrowAsWritten()
    ensures NormaliseAsWritten(Some(Obj(map["settings" := Null]))).Failure?
  {
    assert BodyField(Some(Obj(map["settings" := Null])), "settings", Obj(map[])) == Null;
  }

  /** With the correction, settings that are not an object (null included)
      select every default and forward no turns when `messages` is absent. */
  lemma NonObjectSettingsUseDefaults(body: Option<Json>)
    requires !BodyField(body, "settings", Obj(map[])).Obj?
    ensures Normalise(body).model == DefaultModel
    ensures Normalise(body).temperature == DefaultTemperature
    ensures Normalise(body).maxTokens == FullMaxTokens
    ensures Normalise(body).systemPrompt == GenericPrompt
  {
  }

  function TurnToApi(t: Turn): ApiMessage {
    ApiMessage(if t.role == UserTurn then "user" else "assistant", t.text)
  }

  /** The provider request: the system instruction first, then every forwarded
      turn as `{role, content}`. */
  function ToUpstream(r: ChatRequest, stream: bool): (u: UpstreamRequest)
    ensures |u.messages| == |r.turns| + 1
    ensures u.messages[0] == ApiMessage("system", r.systemPrompt)
    ensures forall i :: 0 <= i < |r.turns| ==> u.messages[i + 1].content == r.turns[i].text
    ensures forall i :: 0 <= i < |r.turns| ==> (u.messages[i + 1].role == "user" <==> r.turns[i].role == UserTurn)
    ensures forall i :: 0 <= i < |r.turns| ==>
              u.messages[i + 1] == ApiMessage(if r.turns[i].role == UserTurn then "user" else "assistant", r.turns[i].text)
    ensures u.model == r.model && u.stream == stream && u.maxTokens == r.maxTokens
    ensures u.temperature == r.temperature
  {
    UpstreamRequest(r.model, stream, r.temperature, r.maxTokens,
      [ApiMessage("system", r.systemPrompt)] + seq(|r.turns|, i requires 0 <= i < |r.turns| => TurnToApi(r.turns[i])))
  }
}
