/** The conversation orchestration (chatbot-backend/src/services/geminiService.ts):
    persist the user's message, read the windowed history, add portfolio
    context to the prompt, call the model, check its answer, persist the
    reply. The model call, including its 30-second timeout, is an oracle
    from the request it is sent to its outcome. */
module Gemini {
  import opened Common
  import opened Types
  import opened Errors
  import opened Store
  import opened Messages

  // ---- Portfolio context -----------------------------------------------

  /** A project of the portfolio data (`name`, `type`, `description`,
      `tech_stack`, `context_keywords`). */
  datatype Project = Project(
    name: string,
    kind: string,
    description: string,
    techStack: seq<string>,
    keywords: seq<string>)

  const ContextHeader: string := "\n\n[Relevant Portfolio Context]:\n"
  const ContextFooter: string := "\nUse this context if relevant to the user's query.\n"

  /** Some keyword of `p` occurs in the (already lower-cased) message. The
      keywords themselves are not lower-cased. */
  predicate Mentions(p: Project, lowerMessage: string) {
    exists i | 0 <= i < |p.keywords| :: Contains(lowerMessage, p.keywords[i])
  }

  /** The projects the message mentions, in portfolio order. */
  function Relevant(projects: seq<Project>, lowerMessage: string): (r: seq<Project>)
    ensures |r| <= |projects|
    ensures forall p :: p in r <==> p in projects && Mentions(p, lowerMessage)
  {
    if |projects| == 0 then []
    else
      assert projects == [projects[0]] + projects[1..];
      (if Mentions(projects[0], lowerMessage) then [projects[0]] else [])
        + Relevant(projects[1..], lowerMessage)
  }

  /** The context line of one project. */
  function ProjectLine(p: Project): (l: string)
    ensures var head := "- Project: " + p.name + " (";
      |head| <= |l| && l[..|head|] == head
    ensures var tail := " Tech Stack: " + Join(p.techStack, ", ");
      |tail| <= |l| && l[|l| - |tail|..] == tail
  {
    "- Project: " + p.name + " (" + p.kind + "): " + p.description
      + " Tech Stack: " + Join(p.techStack, ", ")
  }

  function ProjectLines(ps: seq<Project>): (r: seq<string>)
    ensures |r| == |ps|
    ensures forall i :: 0 <= i < |ps| ==> r[i] == ProjectLine(ps[i])
  {
    if |ps| == 0 then [] else [ProjectLine(ps[0])] + ProjectLines(ps[1..])
  }

  /** `getRelevantContext(message)`. `projects` is None when the portfolio
      data has no `projects` field. */
  function GetRelevantContext(projects: Option<seq<Project>>, message: string): (r: string)
    ensures r == "" <==> projects.None? || |Relevant(projects.value, ToLower(message))| == 0
    ensures r != "" ==>
      var lines := ProjectLines(Relevant(projects.value, ToLower(message)));
      r == ContextHeader + Join(lines, "\n") + ContextFooter
  {
    if projects.None? then ""
    else
      var relevant := Relevant(projects.value, ToLower(message));
      if |relevant| == 0 then ""
      else ContextHeader + Join(ProjectLines(relevant), "\n") + ContextFooter
  }

  /** A project carrying an empty keyword is relevant to every message, as
      `includes("")` always holds. */
  lemma EmptyKeywordAlwaysMatches(p: Project, message: string)
    requires "" in p.keywords
    ensures Mentions(p, ToLower(message))
  {
    var i :| 0 <= i < |p.keywords| && p.keywords[i] == "";
    ContainsEmpty(ToLower(message));
  }

  /** The context, when present, starts with the header and ends with the
      footer, so the prompt `message + context` keeps the message as its
      prefix. */
  lemma ContextFraming(projects: Option<seq<Project>>, message: string)
    ensures var c := GetRelevantContext(projects, message);
      c != "" ==> c[..|ContextHeader|] == ContextHeader && c[|c| - |ContextFooter|..] == ContextFooter
    ensures var prompt := message + GetRelevantContext(projects, message);
      prompt[..|message|] == message
  {
  }

  // ---- History and token estimate ---------------------------------------

  /** One turn of the history sent to the model (`{ role, parts: [{ text }] }`). */
  datatype Turn = Turn(role: string, text: string)

  /** The model-side role name: "assistant" becomes "model", any other role "user". */
  function RoleName(role: Role): (name: string)
    ensures name == "model" <==> role == Assistant
    ensures name != "model" ==> name == "user"
  {
    if role == Assistant then "model" else "user"
  }

  /** `formatChatHistory(history)`: drops system messages, renames roles. */
  function FormatChatHistory(history: seq<ChatMessage>): (r: seq<Turn>)
    ensures |r| <= |history|
    ensures forall i :: 0 <= i < |r| ==> r[i].role == "model" || r[i].role == "user"
  {
    if |history| == 0 then []
    else
      (if history[0].role == System then [] else [Turn(RoleName(history[0].role), history[0].content)])
        + FormatChatHistory(history[1..])
  }

  /** Formatting works message by message and keeps the order. */
  lemma {:induction false} FormatChatHistoryAppend(a: seq<ChatMessage>, b: seq<ChatMessage>)
    ensures FormatChatHistory(a + b) == FormatChatHistory(a) + FormatChatHistory(b)
  {
    if |a| == 0 {
      assert a + b == b;
    } else {
      assert (a + b)[0] == a[0];
      assert (a + b)[1..] == a[1..] + b;
      FormatChatHistoryAppend(a[1..], b);
    }
  }

  /** A history without system messages loses nothing: turn i carries
      message i's text under its renamed role. */
  lemma {:induction false} FormatChatHistoryNoSystem(history: seq<ChatMessage>)
    requires forall i :: 0 <= i < |history| ==> history[i].role != System
    ensures |FormatChatHistory(history)| == |history|
    ensures forall i :: 0 <= i < |history| ==>
      FormatChatHistory(history)[i] == Turn(RoleName(history[i].role), history[i].content)
  {
    if |history| > 0 {
      FormatChatHistoryNoSystem(history[1..]);
    }
  }

  /** A system message contributes no turn. */
  lemma FormatChatHistoryDropsSystem(m: ChatMessage)
    requires m.role == System
    ensures FormatChatHistory([m]) == []
  {
    assert [m][1..] == [];
  }

  /** The history sent with a new message: every windowed message but the
      last, and nothing when the window holds at most one. */
  function HistoryFor(window: seq<ChatMessage>): (h: seq<Turn>)
    ensures |window| <= 1 ==> h == []
    ensures |window| > 1 ==> h == FormatChatHistory(window[..|window| - 1])
  {
    if |window| > 1 then FormatChatHistory(window[..|window| - 1]) else []
  }

  /** `estimateTokens(text)`: `ceil(|text| / 4)`. */
  function EstimateTokens(text: string): (r: int)
    ensures 4 * r >= |text| && 4 * r < |text| + 4
  {
    (|text| + 3) / 4
  }

  lemma EstimateTokensMonotonic(a: string, b: string)
    requires |a| <= |b|
    ensures EstimateTokens(a) <= EstimateTokens(b)
  {
  }

  // ---- Model outcomes --------------------------------------------------

  datatype RawRating = RawRating(category: Option<string>, probability: Option<string>)

  datatype Candidate = Candidate(
    finishReason: Option<string>,
    text: Option<string>,           // `content.parts[0].text`
    safetyRatings: Option<seq<RawRating>>)

  /** What awaiting `chat.sendMessage(prompt)` under the timeout yields. */
  datatype ModelOutcome =
    | Failed(err: Thrown)                          // the call rejected
    | TimedOut                                     // the 30 s timer won the race
    | Answered(candidates: Option<seq<Candidate>>)

  /** The history and prompt a chat is started and sent with. */
  datatype ModelRequest = ModelRequest(history: seq<Turn>, prompt: string)

  const TimeoutMessage: string := "Gemini API request timed out"

  /** A usable answer: the first candidate and its text. */
  datatype Reply = Reply(text: string, finishReason: Option<string>, ratings: Option<seq<RawRating>>)

  /** The checks on the model's answer, in the order the service makes them. */
  function Interpret(o: ModelOutcome): (r: Result<Reply, Thrown>)
    ensures o.Failed? ==> r == Err(o.err)
    ensures o.TimedOut? ==> r == Err(App(TimeoutError(Some(TimeoutMessage))))
    ensures o.Answered? && (o.candidates.None? || |o.candidates.value| == 0) ==>
      r == Err(App(GeminiSafetyError(Some("Response blocked by safety filters"), Some(Cause("safetyRatings")))))
    ensures o.Answered? && o.candidates.Some? && |o.candidates.value| > 0 ==>
      var c := o.candidates.value[0];
      && (c.finishReason == Some("SAFETY") ==>
            r == Err(App(GeminiSafetyError(Some("Content blocked by safety filters"), Some(Cause("safetyRatings"))))))
      && (c.finishReason != Some("SAFETY") && !Truthy(c.text) ==>
            r == Err(App(GeminiAPIError("No text content in response", None))))
      && (c.finishReason != Some("SAFETY") && Truthy(c.text) ==>
            r == Ok(Reply(c.text.value, c.finishReason, c.safetyRatings)))
    ensures r.Ok? ==> r.value.text != ""
  {
    match o
    case Failed(e) => Err(e)
    case TimedOut => Err(App(TimeoutError(Some(TimeoutMessage))))
    case Answered(candidates) =>
      if candidates.None? || |candidates.value| == 0 then
        Err(App(GeminiSafetyError(Some("Response blocked by safety filters"), Some(Cause("safetyRatings")))))
      else
        var c := candidates.value[0];
        if c.finishReason == Some("SAFETY") then
          Err(App(GeminiSafetyError(Some("Content blocked by safety filters"), Some(Cause("safetyRatings")))))
        else if !Truthy(c.text) then
          Err(App(GeminiAPIError("No text content in response", None)))
        else
          Ok(Reply(c.text.value, c.finishReason, c.safetyRatings))
  }

  /** The errors the catch rethrows unchanged. */
  function PassesThrough(e: Thrown): (b: bool)
    ensures b ==> e.App?
    ensures e.App? ==> (b <==> e.err.kind != GeminiApi && e.err.kind in {GeminiSafety, Timeout, Database})
  {
    e.App? && e.err.kind in {GeminiSafety, Timeout, Database}
  }

  /** `error instanceof Error ? error.message : 'Unknown error during chat processing'`. */
  function CaughtMessage(e: Thrown): (m: string)
    ensures e.App? ==> m == e.err.message
    ensures e.Other? && !e.isError ==> m == "Unknown error during chat processing"
    ensures e.Other? && e.isError && e.message.Some? ==> m == e.message.value
  {
    match e
    case App(err) => err.message
    case Other(isError, message, _, _, _, _) =>
      if isError then message.GetOr("") else "Unknown error during chat processing"
  }

  /** The catch of `generateChatResponse`: safety, timeout and database
      errors leave as they are; anything else becomes a GeminiAPIError
      carrying the caught message. */
  function Classify(e: Thrown): (t: Thrown)
    ensures PassesThrough(e) ==> t == e
    ensures !PassesThrough(e) ==> t == App(GeminiAPIError(CaughtMessage(e), Some(Cause(CaughtMessage(e)))))
    ensures t.App? && t.err.kind in {GeminiSafety, Timeout, Database, GeminiApi}
  {
    if PassesThrough(e) then e else App(GeminiAPIError(CaughtMessage(e), Some(Cause(CaughtMessage(e)))))
  }

  /** A GeminiAPIError raised inside the try is not among the errors
      rethrown unchanged, so it is wrapped once more and its message gains
      the prefix twice. */
  lemma MissingTextIsPrefixedTwice()
    ensures var t := Classify(Interpret(Answered(Some([Candidate(None, None, None)]))).error);
      t.App? && t.err.message == GeminiPrefix + GeminiPrefix + "No text content in response"
  {
  }

  /** Each outcome check lands in the kind the caller sees. */
  lemma OutcomeKinds(o: ModelOutcome)
    ensures o.TimedOut? ==> Classify(Interpret(o).error).err.kind == Timeout
    ensures o.Answered? && (o.candidates.None? || |o.candidates.value| == 0) ==>
      Classify(Interpret(o).error).err.kind == GeminiSafety
    ensures o.Failed? && !PassesThrough(o.err) ==> Classify(Interpret(o).error).err.kind == GeminiApi
    ensures Interpret(o).Err? && (o.Failed? && o.err.App? ==> WellFormed(o.err.err)) ==>
      Classify(Interpret(o).error).err.status in {422, 408, 500, 502}
  {
  }

  function Rating(raw: RawRating): (s: SafetyRating)
    ensures s.category == if Truthy(raw.category) then raw.category.value else "UNKNOWN"
    ensures s.probability == if Truthy(raw.probability) then raw.probability.value else "UNKNOWN"
  {
    SafetyRating(if Truthy(raw.category) then raw.category.value else "UNKNOWN",
                 if Truthy(raw.probability) then raw.probability.value else "UNKNOWN")
  }

  function Ratings(raws: Option<seq<RawRating>>): (r: Option<seq<SafetyRating>>)
    ensures r.None? <==> raws.None?
    ensures r.Some? ==> |r.value| == |raws.value|
    ensures r.Some? ==> forall i :: 0 <= i < |raws.value| ==> r.value[i] == Rating(raws.value[i])
  {
    if raws.None? then None else Some(RatingsOf(raws.value))
  }

  function RatingsOf(raws: seq<RawRating>): (r: seq<SafetyRating>)
    ensures |r| == |raws|
    ensures forall i :: 0 <= i < |raws| ==> r[i] == Rating(raws[i])
  {
    if |raws| == 0 then [] else [Rating(raws[0])] + RatingsOf(raws[1..])
  }

  /** The prompt and token count of a successful turn. */
  function TurnTokens(prompt: string, text: string): (t: int)
    ensures t >= EstimateTokens(text)
    ensures text != "" ==> t > 0
  {
    EstimateTokens(prompt) + EstimateTokens(text)
  }

  /** What one call of `generateChatResponse` does: its result, the request
      sent to the model if one was, and the message rows afterwards. */
  datatype TurnResult = TurnResult(result: Result<GeminiResponse, Thrown>, sent: Option<ModelRequest>, rows: seq<MessageRow>)

  /** The user message as `generateChatResponse` saves it. */
  function UserRow(sessionId: string, message: string, now: int): MessageRow {
    MessageRow(sessionId, User, message, None, map[], now)
  }

  /** The second half of a turn, once `request` has been sent over `rows`
      (which already hold the user message) and the model has answered: a
      failed answer is classified, a usable one is saved and returned. */
  function AfterModel(rows: seq<MessageRow>, sessionId: string, now: int, request: ModelRequest,
                      answer: Result<Reply, Thrown>, replyWrite: InsertOutcome): (t: TurnResult)
    ensures t.sent == Some(request)
    ensures answer.Err? ==> t == TurnResult(Err(Classify(answer.error)), Some(request), rows)
    ensures answer.Ok? && answer.value.text != "" ==>
      var tokens := TurnTokens(request.prompt, answer.value.text);
      && (replyWrite.Inserted? ==>
            t == TurnResult(
                   Ok(GeminiResponse(answer.value.text, Some(tokens), answer.value.finishReason, Ratings(answer.value.ratings))),
                   Some(request),
                   rows + [MessageRow(sessionId, Assistant, answer.value.text, Some(tokens), map[], now)]))
      && (!replyWrite.Inserted? ==> t == TurnResult(Err(CreateFailure(replyWrite)), Some(request), rows))
    ensures t.result.Err? ==> t.result.error.App? && t.result.error.err.kind in {GeminiSafety, Timeout, Database, GeminiApi}
    ensures t.result.Ok? ==> |t.rows| == |rows| + 1
  {
    if answer.Err? then TurnResult(Err(Classify(answer.error)), Some(request), rows)
    else
      var reply := answer.value;
      var tokens := EstimateTokens(request.prompt) + EstimateTokens(reply.text);
      if !replyWrite.Inserted? then TurnResult(Err(Classify(CreateFailure(replyWrite))), Some(request), rows)
      else
        TurnResult(
          Ok(GeminiResponse(reply.text, Some(tokens), reply.finishReason, Ratings(reply.ratings))),
          Some(request),
          rows + [MessageRow(sessionId, Assistant, reply.text, StoredTokens(Some(tokens)), map[], now)])
  }

  /** One chat turn over the message rows `before`: save the user message,
      read the window back, send the earlier turns with the prompt, and save
      the answer. Every failure leaves the rows written so far in place. */
  function ChatTurn(
    before: seq<MessageRow>,
    sessionId: string,
    message: string,
    now: int,
    userWrite: InsertOutcome,
    historyFault: Option<string>,
    replyWrite: InsertOutcome,
    model: ModelRequest -> ModelOutcome,
    projects: Option<seq<Project>>,
    limit: int): (t: TurnResult)
    ensures !userWrite.Inserted? ==> t == TurnResult(Err(CreateFailure(userWrite)), None, before)
    ensures userWrite.Inserted? && historyFault.Some? ==>
      t == TurnResult(Err(Wrapped("Failed to get conversation history", historyFault.value)), None,
                      before + [UserRow(sessionId, message, now)])
    ensures userWrite.Inserted? && historyFault.None? && limit < 0 ==>
      t == TurnResult(Err(Wrapped("Failed to get conversation history", NegativeLimit)), None,
                      before + [UserRow(sessionId, message, now)])
    ensures userWrite.Inserted? && historyFault.None? && limit >= 0 ==>
      var rows := before + [UserRow(sessionId, message, now)];
      var request := ModelRequest(HistoryFor(ConversationWindow(rows, sessionId, limit)),
                                  message + GetRelevantContext(projects, message));
      t == AfterModel(rows, sessionId, now, request, Interpret(model(request)), replyWrite)
    ensures t.result.Err? ==> t.result.error.App? && t.result.error.err.kind in {GeminiSafety, Timeout, Database, GeminiApi}
    ensures t.result.Ok? ==> t.sent.Some? && |t.rows| == |before| + 2
  {
    var rows := before + [UserRow(sessionId, message, now)];
    if !userWrite.Inserted? then TurnResult(Err(Classify(CreateFailure(userWrite))), None, before)
    else if historyFault.Some? then
      TurnResult(Err(Classify(Wrapped("Failed to get conversation history", historyFault.value))), None, rows)
    else if limit < 0 then
      TurnResult(Err(Classify(Wrapped("Failed to get conversation history", NegativeLimit))), None, rows)
    else
      var request := ModelRequest(HistoryFor(ConversationWindow(rows, sessionId, limit)),
                                  message + GetRelevantContext(projects, message));
      AfterModel(rows, sessionId, now, request, Interpret(model(request)), replyWrite)
  }

  class GeminiService {
    const repo: MessageRepository
    /** The portfolio's `projects`, None when the field is missing. */
    const projects: Option<seq<Project>>
    /** `config.session.maxContextMessages`. */
    const maxContextMessages: int

    constructor (repo: MessageRepository, projects: Option<seq<Project>>, maxContextMessages: int)
      ensures this.repo == repo && this.projects == projects
      ensures this.maxContextMessages == maxContextMessages
    {
      this.repo := repo;
      this.projects := projects;
      this.maxContextMessages := maxContextMessages;
    }

    /** `generateChatResponse(sessionId, message)`. `userWrite` and
        `replyWrite` are the fates of the two inserts, `historyFault` a
        failure of the history read, and `model` the model's answer to a
        request; `sent` is the request actually sent, if any. */
    method GenerateChatResponse(
      sessionId: string,
      message: string,
      now: int,
      userWrite: InsertOutcome,
      historyFault: Option<string>,
      replyWrite: InsertOutcome,
      model: ModelRequest -> ModelOutcome)
      returns (r: Result<GeminiResponse, Thrown>, sent: Option<ModelRequest>)
      modifies repo.db`messages
      ensures var t := ChatTurn(old(repo.db.messages), sessionId, message, now, userWrite, historyFault, replyWrite,
                                model, projects, maxContextMessages);
        r == t.result && sent == t.sent && repo.db.messages == t.rows
    {
      sent := None;
      var saved := repo.Create(sessionId, User, message, None, None, now, userWrite);
      if saved.Err? {
        return Err(Classify(saved.error)), None;
      }
      var history := repo.GetConversationHistory(sessionId, historyFault, maxContextMessages);
      if history.Err? {
        return Err(Classify(history.error)), None;
      }
      var chatHistory: seq<Turn> := [];
      if |history.value| > 1 {
        chatHistory := FormatChatHistory(history.value[..|history.value| - 1]);
      }
      var context := GetRelevantContext(projects, message);
      var prompt := message + context;
      var request := ModelRequest(chatHistory, prompt);
      sent := Some(request);
      r := Answer(request, model(request), replyWrite, sessionId, now);
    }

    /** The rest of `generateChatResponse` once the request is sent: the
        answer is checked and, when usable, saved. */
    method Answer(request: ModelRequest, outcome: ModelOutcome, replyWrite: InsertOutcome, sessionId: string, now: int)
      returns (r: Result<GeminiResponse, Thrown>)
      modifies repo.db`messages
      ensures var t := AfterModel(old(repo.db.messages), sessionId, now, request, Interpret(outcome), replyWrite);
        r == t.result && repo.db.messages == t.rows
    {
      var answer := Interpret(outcome);
      if answer.Err? {
        return Err(Classify(answer.error));
      }
      var reply := answer.value;
      var tokens := EstimateTokens(request.prompt) + EstimateTokens(reply.text);
      var written := repo.Create(sessionId, Assistant, reply.text, Some(tokens), None, now, replyWrite);
      if written.Err? {
        return Err(Classify(written.error));
      }
      r := Ok(GeminiResponse(reply.text, Some(tokens), reply.finishReason, Ratings(reply.ratings)));
    }
  }

  /** With a window of at least one message, the last windowed message is
      the user message just saved, so the history sent excludes exactly it. */
  lemma WindowEndsWithNewMessage(before: seq<MessageRow>, sid: string, message: string, now: int, limit: nat)
    requires limit >= 1
    ensures var w := ConversationWindow(before + [MessageRow(sid, User, message, None, map[], now)], sid, limit);
      |w| >= 1 && w[|w| - 1] == ChatMessage(User, message, Some(now))
  {
    var row := MessageRow(sid, User, message, None, map[], now);
    CreateExtendsHistory(before, row, sid);
    OfSessionAppend(before, [row], sid);
    assert [row][1..] == [];
    var own := OfSession(before, sid);
    assert OfSession(before + [row], sid) == own + [row];
    SpokenAppend(own, row);
    var spoken := Spoken(own + [row]);
    var k := Min(limit, |spoken|);
    var suffix := spoken[|spoken| - k..];
    assert suffix[|suffix| - 1] == row;
  }
}
