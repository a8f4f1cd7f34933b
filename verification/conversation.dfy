/** The browser app's bookkeeping around a reply: the message list, the
    upsert-by-id of the assistant message, submitting and redoing a turn, the
    token estimates and the running usage statistics, and which bubbles offer
    a redo. Ids and timestamps are parameters; React state becomes explicit
    inputs and outputs. */
module Conversation {
  import opened Wrappers
  import opened Text
  import opened Events
  import opened Client

  datatype Role = User | Assistant

  /** Where a reply's text came from. */
  datatype Source = Live | Mock

  /** The integer part of a message's metadata; the temperature and the
      duration are floating point and are not modelled. */
  datatype Meta = Meta(model: string, source: Option<Source>, tokens: Option<Tokens>)

  datatype Tokens = Tokens(prompt: int, completion: int, total: int)

  datatype Message = Message(id: string, role: Role, text: string, createdAt: int, meta: Option<Meta>)

  /** `Math.max(1, Math.ceil(text.trim().length / 4))`: a quarter of the
      trimmed length, rounded up, and never below one. */
  function EstimateTokens(text: string): (r: nat)
    ensures r >= 1
    ensures 4 * r >= |Trim(text)|
    ensures r == 1 || 4 * (r - 1) < |Trim(text)|
  {
    var n := |Trim(text)|;
    if n <= 4 then 1 else (n + 3) / 4
  }

  /** The estimate only grows with the trimmed length. */
  lemma EstimateMonotone(a: string, b: string)
    requires |Trim(a)| <= |Trim(b)|
    ensures EstimateTokens(a) <= EstimateTokens(b)
  {
  }

  /** `Array.prototype.findIndex`: the first index whose element satisfies
      `p`, or -1. */
  function FindIndex(ms: seq<Message>, p: Message -> bool): (r: int)
    ensures -1 <= r < |ms|
    ensures r >= 0 ==> p(ms[r]) && forall k :: 0 <= k < r ==> !p(ms[k])
    ensures r == -1 <==> forall k :: 0 <= k < |ms| ==> !p(ms[k])
  {
    if |ms| == 0 then -1
    else if p(ms[0]) then 0
    else
      var i := FindIndex(ms[1..], p);
      assert forall k :: 1 <= k < |ms| ==> ms[k] == ms[1..][k - 1];
      if i == -1 then -1 else i + 1
  }

  /** The last index whose element satisfies `p`, or -1: what
      `[...ms].reverse().find(p)` locates. */
  function FindLastIndex(ms: seq<Message>, p: Message -> bool): (r: int)
    ensures -1 <= r < |ms|
    ensures r >= 0 ==> p(ms[r]) && forall k :: r < k < |ms| ==> !p(ms[k])
    ensures r == -1 <==> forall k :: 0 <= k < |ms| ==> !p(ms[k])
  {
    if |ms| == 0 then -1
    else if p(ms[|ms| - 1]) then |ms| - 1
    else FindLastIndex(ms[..|ms| - 1], p)
  }

  function HasId(id: string): Message -> bool {
    (m: Message) => m.id == id
  }

  /** `upsertAssistantMessage`: replace the first message carrying `id` with
      the updater's result on it, or append the updater's result on nothing. */
  function Upsert(ms: seq<Message>, id: string, updater: Option<Message> -> Message): (r: seq<Message>)
    ensures (forall k :: 0 <= k < |ms| ==> ms[k].id != id) ==> r == ms + [updater(None)]
    ensures forall i :: 0 <= i < |ms| && ms[i].id == id && (forall k :: 0 <= k < i ==> ms[k].id != id) ==>
              && |r| == |ms|
              && r[i] == updater(Some(ms[i]))
              && (forall k :: 0 <= k < |ms| && k != i ==> r[k] == ms[k])
  {
    var i := FindIndex(ms, HasId(id));
    if i == -1 then ms + [updater(None)] else ms[i := updater(Some(ms[i]))]
  }

  /** The updater of the last write of a reply, which ignores what was there. */
  function Constant(m: Message): Option<Message> -> Message {
    _ => m
  }

  /** No two messages share an id. */
  predicate UniqueIds(ms: seq<Message>) {
    forall a, b :: 0 <= a < b < |ms| ==> ms[a].id != ms[b].id
  }

  /** An updater that always produces a message with the given id. */
  ghost predicate KeepsId(updater: Option<Message> -> Message, id: string) {
    forall m :: updater(m).id == id
  }

  /** Upserting keeps ids unique, and afterwards exactly one message carries
      the id: the updater's result. */
  lemma UpsertKeepsIdsUnique(ms: seq<Message>, id: string, updater: Option<Message> -> Message)
    requires UniqueIds(ms) && KeepsId(updater, id)
    ensures UniqueIds(Upsert(ms, id, updater))
    ensures exists i :: 0 <= i < |Upsert(ms, id, updater)| && Upsert(ms, id, updater)[i].id == id
    ensures forall i :: 0 <= i < |Upsert(ms, id, updater)| && Upsert(ms, id, updater)[i].id == id
              ==> Upsert(ms, id, updater)[i] == updater(if i < |ms| then Some(ms[i]) else None)
  {
    var r := Upsert(ms, id, updater);
    var i := FindIndex(ms, HasId(id));
    if i == -1 {
      assert r[|ms|].id == id;
    } else {
      assert r[i].id == id;
    }
  }

  /** The final constant upsert of a reply absorbs every upsert of the same
      id before it: the streamed partial texts leave no trace in the list. */
  lemma UpsertAbsorbs(ms: seq<Message>, id: string, earlier: Option<Message> -> Message, last: Message)
    requires KeepsId(earlier, id) && last.id == id
    ensures Upsert(Upsert(ms, id, earlier), id, Constant(last)) == Upsert(ms, id, Constant(last))
  {
    var i := FindIndex(ms, HasId(id));
    var once := Upsert(ms, id, earlier);
    if i == -1 {
      FindIndexAppended(ms, earlier(None), HasId(id));
      assert once[|ms| := last] == ms + [last];
    } else {
      FindIndexReplaced(ms, i, earlier(Some(ms[i])), HasId(id));
      assert once[i := last] == ms[i := last];
    }
  }

  /** Appending a match to a list without one puts the first match last. */
  lemma FindIndexAppended(ms: seq<Message>, m: Message, p: Message -> bool)
    requires FindIndex(ms, p) == -1 && p(m)
    ensures FindIndex(ms + [m], p) == |ms|
  {
    assert (ms + [m])[|ms|] == m;
    assert forall k :: 0 <= k < |ms| ==> (ms + [m])[k] == ms[k];
  }

  /** Replacing the first match by another match keeps it the first. */
  lemma FindIndexReplaced(ms: seq<Message>, i: nat, m: Message, p: Message -> bool)
    requires i < |ms| && FindIndex(ms, p) == i && p(m)
    ensures FindIndex(ms[i := m], p) == i
  {
    assert ms[i := m][i] == m;
    assert forall k :: 0 <= k < i ==> ms[i := m][k] == ms[k];
  }

  /** What a reply is built from: the turns sent, the prompt whose tokens are
      estimated, and the id of the assistant message to write. */
  datatype ReplyRequest = ReplyRequest(conversation: seq<Message>, promptText: string, assistantId: string)

  datatype Submission = Ignored | Submitted(messages: seq<Message>, draft: string, reply: Option<ReplyRequest>)

  /** `submitUserPrompt` given the fresh user id, clock and assistant id. */
  function Submit(ms: seq<Message>, isTyping: bool, autoReply: bool, prompt: string,
                  userId: string, now: int, assistantId: string): (r: Submission)
    ensures r.Ignored? <==> isTyping || IsBlank(prompt)
    ensures r.Submitted? ==>
              && r.messages == ms + [Message(userId, User, Trim(prompt), now, None)]
              && r.draft == []
              && (r.reply.Some? <==> autoReply)
              && (r.reply.Some? ==> r.reply.value == ReplyRequest(r.messages, Trim(prompt), assistantId))
  {
    if isTyping then Ignored
    else
      var trimmed := Trim(prompt);
      if trimmed == [] then Ignored
      else
        var conversation := ms + [Message(userId, User, trimmed, now, None)];
        Submitted(conversation, [], if autoReply then Some(ReplyRequest(conversation, trimmed, assistantId)) else None)
  }

  /** The user turn a submission appends is non-blank and already trimmed. */
  lemma SubmittedTurnIsTrimmed(ms: seq<Message>, isTyping: bool, autoReply: bool, prompt: string,
                               userId: string, now: int, assistantId: string)
    requires Submit(ms, isTyping, autoReply, prompt, userId, now, assistantId).Submitted?
    ensures var t := Submit(ms, isTyping, autoReply, prompt, userId, now, assistantId).messages[|ms|].text;
            t != [] && Trim(t) == t && !IsSpace(t[0]) && !IsSpace(t[|t| - 1])
  {
    TrimIdempotent(prompt);
  }

  function IsAssistantWith(id: string): Message -> bool {
    (m: Message) => m.id == id && m.role == Assistant
  }

  function IsUser(m: Message): bool {
    m.role == User
  }

  /** `redoAssistantMessage`: the turns before the first assistant message
      with that id, and the text of the latest user turn among them. */
  function Redo(ms: seq<Message>, isTyping: bool, id: string): (r: Option<ReplyRequest>)
    ensures r.Some? ==>
              && !isTyping
              && r.value.assistantId == id
              && |r.value.conversation| < |ms|
              && r.value.conversation == ms[..|r.value.conversation|]
              && IsAssistantWith(id)(ms[|r.value.conversation|])
              && (forall k :: 0 <= k < |r.value.conversation| ==> !IsAssistantWith(id)(ms[k]))
              && (exists j :: 0 <= j < |r.value.conversation| && ms[j].role == User
                   && ms[j].text == r.value.promptText
                   && forall k :: j < k < |r.value.conversation| ==> ms[k].role != User)
  {
    if isTyping then None
    else
      var i := FindIndex(ms, IsAssistantWith(id));
      if i < 0 then None
      else
        var conversation := ms[..i];
        var j := FindLastIndex(conversation, IsUser);
        if j < 0 then None
        else Some(ReplyRequest(conversation, conversation[j].text, id))
  }

  /** Some user turn precedes index `i`. */
  predicate UserBefore(ms: seq<Message>, i: nat)
    requires i <= |ms|
  {
    exists j :: 0 <= j < i && ms[j].role == User
  }

  /** `canRedo`: scan backwards from just before `index` for a user turn. */
  method CanRedo(ms: seq<Message>, index: nat) returns (b: bool)
    requires index <= |ms|
    ensures b <==> UserBefore(ms, index)
    ensures index == 0 ==> !b
  {
    var pointer := index as int - 1;
    while pointer >= 0
      invariant -1 <= pointer < index
      invariant forall j :: pointer < j < index ==> ms[j].role != User
    {
      if ms[pointer].role == User {
        return true;
      }
      pointer := pointer - 1;
    }
    return false;
  }

  /** Once a user turn has appeared, every later position can redo. */
  lemma {:induction false} UserBeforeMonotone(ms: seq<Message>, i: nat, k: nat)
    requires i <= k <= |ms|
    ensures UserBefore(ms, i) ==> UserBefore(ms, k)
  {
    if UserBefore(ms, i) {
      var j :| 0 <= j < i && ms[j].role == User;
      assert j < k && ms[j].role == User;
    }
  }

  /** The bubble at `i` receives a redo handler: it is an assistant message
      and a user turn precedes it. */
  predicate OffersRedo(ms: seq<Message>, i: nat)
    requires i < |ms|
  {
    ms[i].role == Assistant && UserBefore(ms, i)
  }

  /** Which bubbles of the list receive a redo handler. */
  method RedoHandlers(ms: seq<Message>) returns (offers: seq<bool>)
    ensures |offers| == |ms|
    ensures forall i :: 0 <= i < |ms| ==> (offers[i] <==> OffersRedo(ms, i))
    ensures forall i :: 0 <= i < |ms| && ms[i].role == User ==> !offers[i]
  {
    offers := [];
    var index := 0;
    while index < |ms|
      invariant 0 <= index <= |ms| && |offers| == index
      invariant forall i :: 0 <= i < index ==> (offers[i] <==> OffersRedo(ms, i))
    {
      var can := false;
      if ms[index].role == Assistant {
        can := CanRedo(ms, index);
      }
      offers := offers + [can];
      index := index + 1;
    }
  }

  /** Every redo the list offers fires when nothing is being typed: with
      unique ids, the redo of the offering bubble sends exactly the turns
      before it. Conversely a redo that fires was offered by the bubble it
      rewrites. */
  lemma RedoOfferedFires(ms: seq<Message>, i: nat)
    requires UniqueIds(ms) && i < |ms| && OffersRedo(ms, i)
    ensures Redo(ms, false, ms[i].id).Some?
    ensures Redo(ms, false, ms[i].id).value.conversation == ms[..i]
  {
    RedoFiresAtFirst(ms, ms[i].id, i);
  }

  /** Whatever the ids, a redo fires when the first assistant message with the
      id has a user turn before it, and it sends the turns before that
      message. */
  lemma RedoFiresAtFirst(ms: seq<Message>, id: string, i: nat)
    requires i < |ms| && IsAssistantWith(id)(ms[i]) && UserBefore(ms, i)
    requires forall k :: 0 <= k < i ==> !IsAssistantWith(id)(ms[k])
    ensures Redo(ms, false, id).Some?
    ensures Redo(ms, false, id).value.conversation == ms[..i]
  {
    assert FindIndex(ms, IsAssistantWith(id)) == i;
    var j :| 0 <= j < i && ms[j].role == User;
    assert IsUser(ms[..i][j]);
  }

  lemma RedoFiresOnlyWhenOffered(ms: seq<Message>, isTyping: bool, id: string)
    requires Redo(ms, isTyping, id).Some?
    ensures !isTyping
    ensures OffersRedo(ms, |Redo(ms, isTyping, id).value.conversation|)
    ensures ms[|Redo(ms, isTyping, id).value.conversation|].id == id
  {
    var c := Redo(ms, isTyping, id).value.conversation;
    var j :| 0 <= j < |c| && ms[j].role == User
             && ms[j].text == Redo(ms, isTyping, id).value.promptText
             && forall k :: j < k < |c| ==> ms[k].role != User;
    assert IsAssistantWith(id)(ms[|c|]);
  }

  /** The number of messages with the given role. */
  function CountRole(ms: seq<Message>, role: Role): (n: nat)
    ensures n <= |ms|
  {
    if |ms| == 0 then 0 else (if ms[0].role == role then 1 else 0) + CountRole(ms[1..], role)
  }

  /** Sent and received counts partition the list. */
  lemma {:induction false} CountsPartition(ms: seq<Message>)
    ensures CountRole(ms, User) + CountRole(ms, Assistant) == |ms|
    decreases |ms|
  {
    if |ms| > 0 {
      CountsPartition(ms[1..]);
    }
  }

  lemma {:induction false} CountRoleAppend(ms: seq<Message>, m: Message, role: Role)
    ensures CountRole(ms + [m], role) == CountRole(ms, role) + (if m.role == role then 1 else 0)
    decreases |ms|
  {
    if |ms| > 0 {
      assert (ms + [m])[1..] == ms[1..] + [m];
      CountRoleAppend(ms[1..], m, role);
    }
  }

  /** A submission raises the sent count by one and leaves the received count
      as it was. */
  lemma SubmitCounts(ms: seq<Message>, isTyping: bool, autoReply: bool, prompt: string,
                     userId: string, now: int, assistantId: string)
    requires Submit(ms, isTyping, autoReply, prompt, userId, now, assistantId).Submitted?
    ensures CountRole(Submit(ms, isTyping, autoReply, prompt, userId, now, assistantId).messages, User) == CountRole(ms, User) + 1
    ensures CountRole(Submit(ms, isTyping, autoReply, prompt, userId, now, assistantId).messages, Assistant) == CountRole(ms, Assistant)
  {
    var m := Message(userId, User, Trim(prompt), now, None);
    CountRoleAppend(ms, m, User);
    CountRoleAppend(ms, m, Assistant);
  }

  /** `sendStarterPrompt`: the draft ends with exactly the prompt and a space. */
  function StarterDraft(prompt: string): (d: string)
    ensures EndsWith(d, " ")
    ensures d == prompt || d == prompt + " "
    ensures EndsWith(prompt, " ") <==> d == prompt
  {
    if EndsWith(prompt, " ") then prompt else prompt + " "
  }

  lemma StarterDraftIdempotent(prompt: string)
    ensures StarterDraft(StarterDraft(prompt)) == StarterDraft(prompt)
  {
  }

  /** Prompt and completion tokens of a reply: the provider's counters when a
      usage record came back, else estimates. The total is always their sum,
      never the provider's own total. */
  function TokenAccounting(usage: Option<Usage>, promptText: string, text: string): (t: Tokens)
    ensures t.total == t.prompt + t.completion
    ensures usage.Some? ==> t.prompt == usage.value.promptTokens && t.completion == usage.value.completionTokens
    ensures usage.None? ==> t.prompt == EstimateTokens(promptText) && t.completion == EstimateTokens(text)
  {
    var prompt := if usage.Some? then usage.value.promptTokens else EstimateTokens(promptText);
    var completion := if usage.Some? then usage.value.completionTokens else EstimateTokens(text);
    Tokens(prompt, completion, prompt + completion)
  }

  /** The integer part of the usage statistics (the response times are
      floating point and are not modelled). */
  datatype UsageStats = UsageStats(promptTokens: int, completionTokens: int, totalTokens: int, responses: nat, errorCount: nat)

  const InitialStats := UsageStats(0, 0, 0, 0, 0)

  predicate Balanced(s: UsageStats) {
    s.totalTokens == s.promptTokens + s.completionTokens
  }

  function RecordSuccess(s: UsageStats, t: Tokens): (r: UsageStats)
    ensures r.responses == s.responses + 1 && r.errorCount == s.errorCount
    ensures r.promptTokens == s.promptTokens + t.prompt
    ensures r.completionTokens == s.completionTokens + t.completion
    ensures r.totalTokens == s.totalTokens + t.total
    ensures Balanced(s) && t.total == t.prompt + t.completion ==> Balanced(r)
  {
    s.(promptTokens := s.promptTokens + t.prompt,
       completionTokens := s.completionTokens + t.completion,
       totalTokens := s.totalTokens + t.total,
       responses := s.responses + 1)
  }

  function RecordFailure(s: UsageStats): (r: UsageStats)
    ensures r.errorCount == s.errorCount + 1
    ensures r == s.(errorCount := r.errorCount)
  {
    s.(errorCount := s.errorCount + 1)
  }

  /** How a reply attempt ended: the live stream's response, the offline mock
      text, or a throw (with the mock text the fallback quotes). */
  datatype Outcome = Streamed(response: ChatResponse) | Offline(mockText: string) | Failed(error: Thrown, mockText: string)

  const FallbackPrefix := "Live API failed. Using mock reply instead.\n"
  const UnknownFailureMessage := "OpenRouter request failed."

  datatype Finished = Finished(messages: seq<Message>, stats: UsageStats, lastError: Option<string>)

  /** What `buildAssistantReply` leaves behind once the attempt ends: the
      final upsert of the assistant message, the statistics and the error. */
  function FinishReply(ms: seq<Message>, stats: UsageStats, req: ReplyRequest, model: string, createdAt: int, outcome: Outcome): (f: Finished)
    ensures f.messages == Upsert(ms, req.assistantId, Constant(ReplyMessage(req, model, createdAt, outcome)))
    ensures outcome.Failed? ==>
              && f.stats == RecordFailure(stats)
              && f.lastError.Some?
              && (outcome.error.Raised? ==> f.lastError.value == outcome.error.message)
              && (outcome.error.NotAnError? ==> f.lastError.value == UnknownFailureMessage)
    ensures !outcome.Failed? ==> f.lastError.None? && f.stats.responses == stats.responses + 1
    ensures !outcome.Failed? ==> f.stats == RecordSuccess(stats, ReplyMessage(req, model, createdAt, outcome).meta.value.tokens.value)
    ensures Balanced(stats) ==> Balanced(f.stats)
  {
    var reply := ReplyMessage(req, model, createdAt, outcome);
    var messages := Upsert(ms, req.assistantId, Constant(reply));
    match outcome
    case Failed(error, _) =>
      Finished(messages, RecordFailure(stats),
               Some(match error case Raised(_, message) => message case NotAnError => UnknownFailureMessage))
    case _ =>
      Finished(messages, RecordSuccess(stats, reply.meta.value.tokens.value), None)
  }

  /** The assistant message written at the end of an attempt. */
  function ReplyMessage(req: ReplyRequest, model: string, createdAt: int, outcome: Outcome): (m: Message)
    ensures m.id == req.assistantId && m.role == Assistant && m.createdAt == createdAt
    ensures m.meta.Some? && m.meta.value.model == model && m.meta.value.tokens.Some?
    ensures m.meta.value.tokens.value.total == m.meta.value.tokens.value.prompt + m.meta.value.tokens.value.completion
    ensures m.meta.value.tokens.value.prompt == (if outcome.Streamed? && outcome.response.usage.Some?
                                                then outcome.response.usage.value.promptTokens
                                                else EstimateTokens(req.promptText))
    ensures outcome.Streamed? ==> m.text == outcome.response.text && m.meta.value.source == Some(Live)
    ensures outcome.Offline? ==> m.text == outcome.mockText && m.meta.value.source == Some(Mock)
    ensures outcome.Failed? ==> m.text == FallbackPrefix + outcome.mockText && m.meta.value.source == Some(Mock)
    ensures !(outcome.Streamed? && outcome.response.usage.Some?)
            ==> m.meta.value.tokens.value.completion == EstimateTokens(m.text)
    ensures m.meta.value.tokens == Some(TokenAccounting(if outcome.Streamed? then outcome.response.usage else None, req.promptText, m.text))
  {
    match outcome
    case Streamed(response) =>
      Message(req.assistantId, Assistant, response.text, createdAt,
              Some(Meta(model, Some(Live), Some(TokenAccounting(response.usage, req.promptText, response.text)))))
    case Offline(mock) =>
      Message(req.assistantId, Assistant, mock, createdAt,
              Some(Meta(model, Some(Mock), Some(TokenAccounting(None, req.promptText, mock)))))
    case Failed(_, mock) =>
      var fallback := FallbackPrefix + mock;
      Message(req.assistantId, Assistant, fallback, createdAt,
              Some(Meta(model, Some(Mock), Some(TokenAccounting(None, req.promptText, fallback)))))
  }

  /** A redo rewrites the assistant message it was asked for in place: the
      list keeps its length, the message at that position becomes the new
      reply, and every other message is untouched. */
  lemma RedoRewritesInPlace(ms: seq<Message>, id: string, stats: UsageStats, model: string, createdAt: int, outcome: Outcome)
    requires UniqueIds(ms) && Redo(ms, false, id).Some?
    ensures var req := Redo(ms, false, id).value;
            var f := FinishReply(ms, stats, req, model, createdAt, outcome);
            var i := |req.conversation|;
            && |f.messages| == |ms|
            && f.messages[i] == ReplyMessage(req, model, createdAt, outcome)
            && (forall k :: 0 <= k < |ms| && k != i ==> f.messages[k] == ms[k])
  {
    var req := Redo(ms, false, id).value;
    var i := |req.conversation|;
    var reply := ReplyMessage(req, model, createdAt, outcome);
    assert FinishReply(ms, stats, req, model, createdAt, outcome).messages == Upsert(ms, id, Constant(reply));
    assert ms[i].id == id;
    UpsertUniqueAt(ms, id, Constant(reply), i);
    assert Constant(reply)(Some(ms[i])) == reply;
  }

  /** With unique ids, upserting an id present at `i` rewrites position `i` only. */
  lemma UpsertUniqueAt(ms: seq<Message>, id: string, updater: Option<Message> -> Message, i: nat)
    requires UniqueIds(ms) && i < |ms| && ms[i].id == id
    ensures |Upsert(ms, id, updater)| == |ms|
    ensures Upsert(ms, id, updater)[i] == updater(Some(ms[i]))
    ensures forall k :: 0 <= k < |ms| && k != i ==> Upsert(ms, id, updater)[k] == ms[k]
  {
    assert forall k :: 0 <= k < i ==> ms[k].id != ms[i].id;
  }

  /** After a submission with auto-reply, the reply is appended after the new
      user turn, so the list ends user turn, assistant reply. */
  lemma SubmitThenReplyAppends(ms: seq<Message>, autoReply: bool, prompt: string, userId: string, now: int,
                               assistantId: string, stats: UsageStats, model: string, createdAt: int, outcome: Outcome)
    requires Submit(ms, false, autoReply, prompt, userId, now, assistantId).Submitted?
    requires autoReply && userId != assistantId
    requires forall k :: 0 <= k < |ms| ==> ms[k].id != assistantId
    ensures var s := Submit(ms, false, autoReply, prompt, userId, now, assistantId);
            var f := FinishReply(s.messages, stats, s.reply.value, model, createdAt, outcome);
            f.messages == s.messages + [ReplyMessage(s.reply.value, model, createdAt, outcome)]
  {
    var s := Submit(ms, false, autoReply, prompt, userId, now, assistantId);
    assert forall k :: 0 <= k < |s.messages| ==> s.messages[k].id != assistantId;
  }
}
