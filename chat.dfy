/** The chat endpoints (server/src/controllers/chatController.ts): each
    handler is a short sequence of repository calls followed by a response
    record. A handler either returns a reply (status and body) or throws. */
module Chat {
  import opened Common
  import opened Types
  import opened Errors
  import opened Store
  import opened Sessions
  import opened Messages
  import opened Gemini

  /** The JSON bodies the handlers send. */
  datatype Body =
    | Answer(response: ChatResponse)
    | History(sessionId: string, messages: seq<ChatMessage>, messageCount: int)
    | Cleared(sessionId: string, cleared: bool, message: string)
    | Created(session: Session)
    | Details(session: Session, messageCount: int)
    | Deleted(sessionId: string, deleted: bool, message: string)

  datatype HttpReply = HttpReply(status: int, body: Body)

  /** `throw new NotFoundError('Session')`. */
  function SessionMissing(): (t: Thrown)
    ensures t.App? && t.err.kind == NotFound && t.err.status == 404
    ensures t.err.message == "Session not found"
  {
    App(NotFoundError(Some("Session")))
  }

  /** The confirmation text of `clearChatHistory`. */
  function ClearedMessage(count: int): (m: string)
    ensures |m| == |IntToString(count)| + |" messages cleared"|
    ensures m[|m| - |" messages cleared"|..] == " messages cleared"
    ensures m[..|IntToString(count)|] == IntToString(count)
  {
    IntToString(count) + " messages cleared"
  }

  class ChatController {
    const sessions: SessionRepository
    const messages: MessageRepository
    const gemini: GeminiService

    /** The service persists through the controller's message repository. */
    ghost predicate Valid()
      reads sessions, sessions.db
    {
      sessions.Valid() && gemini.repo == messages
    }

    constructor (sessions: SessionRepository, messages: MessageRepository, gemini: GeminiService)
      requires sessions.Valid() && gemini.repo == messages
      ensures Valid()
      ensures this.sessions == sessions && this.messages == messages && this.gemini == gemini
    {
      this.sessions := sessions;
      this.messages := messages;
      this.gemini := gemini;
    }

    /** What the controller's `sessionRepository.getById(id)` yields. */
    function Find(id: string, fault: Option<string>): Result<Option<Session>, Thrown>
      reads sessions, sessions.db
    {
      Lookup(sessions.db.ready, sessions.db.sessions, sessions.memory, id, fault)
    }

    /** `sendMessage` (POST /api/chat). The session must be found; an
        expired one is still served. The arguments after `now` are the
        oracles of the session lookup and of the service's steps. */
    method SendMessage(
      sessionId: string,
      message: string,
      now: int,
      lookupFault: Option<string>,
      userWrite: InsertOutcome,
      historyFault: Option<string>,
      replyWrite: InsertOutcome,
      model: ModelRequest -> ModelOutcome)
      returns (r: Result<HttpReply, Thrown>, sent: Option<ModelRequest>)
      requires Valid()
      modifies messages.db`messages
      ensures Valid()
      ensures Find(sessionId, lookupFault).Err? ==>
        r == Err(Find(sessionId, lookupFault).error) && sent.None? && messages.db.messages == old(messages.db.messages)
      ensures Find(sessionId, lookupFault) == Ok(None) ==>
        r == Err(SessionMissing()) && sent.None? && messages.db.messages == old(messages.db.messages)
      ensures Find(sessionId, lookupFault).Ok? && Find(sessionId, lookupFault).value.Some? ==>
        var t := ChatTurn(old(messages.db.messages), sessionId, message, now, userWrite, historyFault, replyWrite,
                          model, gemini.projects, gemini.maxContextMessages);
        && sent == t.sent && messages.db.messages == t.rows
        && (t.result.Err? ==> r == Err(t.result.error))
        && (t.result.Ok? ==>
              r == Ok(HttpReply(200, Answer(ChatResponse(sessionId, message, t.result.value.text, now, t.result.value.tokensUsed)))))
      ensures r.Ok? ==> sent.Some? && |messages.db.messages| == |old(messages.db.messages)| + 2
    {
      var found := sessions.GetById(sessionId, lookupFault);
      if found.Err? {
        return Err(found.error), None;
      }
      if found.value.None? {
        return Err(SessionMissing()), None;
      }
      // A session past its expiry is only logged, never refused.
      var generated;
      generated, sent := gemini.GenerateChatResponse(sessionId, message, now, userWrite, historyFault, replyWrite, model);
      if generated.Err? {
        return Err(generated.error), sent;
      }
      r := Ok(HttpReply(200, Answer(ChatResponse(sessionId, message, generated.value.text, now, generated.value.tokensUsed))));
    }

    /** `getChatHistory` (GET /api/chat/:id): every message of a known
        session, with their number. */
    method GetChatHistory(sessionId: string, lookupFault: Option<string>, readFault: Option<string>)
      returns (r: Result<HttpReply, Thrown>)
      requires Valid()
      ensures Find(sessionId, lookupFault).Err? ==> r == Err(Find(sessionId, lookupFault).error)
      ensures Find(sessionId, lookupFault) == Ok(None) ==> r == Err(SessionMissing())
      ensures Find(sessionId, lookupFault).Ok? && Find(sessionId, lookupFault).value.Some? ==>
        && (readFault.Some? ==> r == Err(Wrapped("Failed to get all messages", readFault.value)))
        && (readFault.None? ==>
              var all := ToMessages(OfSession(messages.db.messages, sessionId));
              r == Ok(HttpReply(200, History(sessionId, all, |all|))))
      ensures r.Ok? ==> r.value.body.History? && r.value.body.messageCount == |r.value.body.messages|
    {
      var found := sessions.GetById(sessionId, lookupFault);
      if found.Err? {
        return Err(found.error);
      }
      if found.value.None? {
        return Err(SessionMissing());
      }
      var all := messages.GetAllBySessionId(sessionId, readFault);
      if all.Err? {
        return Err(all.error);
      }
      r := Ok(HttpReply(200, History(sessionId, all.value, |all.value|)));
    }

    /** `clearChatHistory` (DELETE /api/chat/:id): deletes a known
        session's messages and reports how many went. */
    method ClearChatHistory(sessionId: string, lookupFault: Option<string>, deleteFault: Option<string>)
      returns (r: Result<HttpReply, Thrown>)
      requires Valid()
      modifies messages.db`messages
      ensures Valid()
      ensures Find(sessionId, lookupFault).Err? ==>
        r == Err(Find(sessionId, lookupFault).error) && messages.db.messages == old(messages.db.messages)
      ensures Find(sessionId, lookupFault) == Ok(None) ==>
        r == Err(SessionMissing()) && messages.db.messages == old(messages.db.messages)
      ensures Find(sessionId, lookupFault).Ok? && Find(sessionId, lookupFault).value.Some? && deleteFault.Some? ==>
        r == Err(Wrapped("Failed to delete messages", deleteFault.value))
        && messages.db.messages == old(messages.db.messages)
      ensures Find(sessionId, lookupFault).Ok? && Find(sessionId, lookupFault).value.Some? && deleteFault.None? ==>
        && r == Ok(HttpReply(200, Cleared(sessionId, true, ClearedMessage(|OfSession(old(messages.db.messages), sessionId)|))))
        && messages.db.messages == NotOfSession(old(messages.db.messages), sessionId)
        && ToMessages(OfSession(messages.db.messages, sessionId)) == []
    {
      var found := sessions.GetById(sessionId, lookupFault);
      if found.Err? {
        return Err(found.error);
      }
      if found.value.None? {
        return Err(SessionMissing());
      }
      var count := messages.DeleteBySessionId(sessionId, deleteFault);
      if count.Err? {
        return Err(count.error);
      }
      r := Ok(HttpReply(200, Cleared(sessionId, true, ClearedMessage(count.value))));
    }

    /** `createSession` (POST /api/sessions): 201 with the new session. */
    method CreateSession(
      userId: Option<string>,
      metadata: Option<map<string, Json>>,
      newId: string,
      now: int,
      outcome: InsertOutcome)
      returns (r: Result<HttpReply, Thrown>)
      requires Valid()
      modifies sessions`memory, sessions.db`sessions
      ensures Valid()
      ensures (!sessions.db.ready || (outcome.Inserted? && !HasRow(old(sessions.db.sessions), newId))) ==>
        r == Ok(HttpReply(201, Created(Session(newId, OrNone(userId), now, now, now + ExpiryMs, metadata.GetOr(map[])))))
      ensures sessions.db.ready && !(outcome.Inserted? && !HasRow(old(sessions.db.sessions), newId)) ==>
        r.Err? && r.error.App? && r.error.err.kind == Database && sessions.db.sessions == old(sessions.db.sessions)
      ensures !sessions.db.ready && r.Ok? ==>
        && sessions.memory == SetEntry(old(sessions.memory), r.value.body.session)
        && FindRow(sessions.memory, newId) == Some(r.value.body.session)
        && sessions.db.sessions == old(sessions.db.sessions)
      ensures sessions.db.ready ==> sessions.memory == old(sessions.memory)
      ensures sessions.db.ready && r.Ok? ==>
        sessions.db.sessions == old(sessions.db.sessions) + [r.value.body.session]
    {
      var created := sessions.Create(userId, metadata, newId, now, outcome);
      if created.Err? {
        return Err(created.error);
      }
      r := Ok(HttpReply(201, Created(created.value)));
    }

    /** `getSession` (GET /api/sessions/:id): the session and its message count. */
    method GetSession(sessionId: string, lookupFault: Option<string>, countFault: Option<string>)
      returns (r: Result<HttpReply, Thrown>)
      requires Valid()
      ensures Find(sessionId, lookupFault).Err? ==> r == Err(Find(sessionId, lookupFault).error)
      ensures Find(sessionId, lookupFault) == Ok(None) ==> r == Err(SessionMissing())
      ensures Find(sessionId, lookupFault).Ok? && Find(sessionId, lookupFault).value.Some? ==>
        && (countFault.Some? ==> r == Err(Wrapped("Failed to get message count", countFault.value)))
        && (countFault.None? ==>
              r == Ok(HttpReply(200, Details(Find(sessionId, lookupFault).value.value,
                                         |OfSession(messages.db.messages, sessionId)|))))
      ensures r.Ok? ==> r.value.body.Details? && r.value.body.session.id == sessionId
    {
      var found := sessions.GetById(sessionId, lookupFault);
      if found.Err? {
        return Err(found.error);
      }
      if found.value.None? {
        return Err(SessionMissing());
      }
      var count := messages.GetCountBySessionId(sessionId, countFault);
      if count.Err? {
        return Err(count.error);
      }
      r := Ok(HttpReply(200, Details(found.value.value, count.value)));
    }

    /** `deleteSession` (DELETE /api/sessions/:id): NotFoundError exactly
        when the repository reports that nothing was deleted. */
    method DeleteSession(sessionId: string, fault: Option<string>)
      returns (r: Result<HttpReply, Thrown>)
      requires Valid()
      modifies sessions`memory, sessions.db`sessions
      ensures Valid()
      ensures sessions.db.ready && fault.Some? ==>
        r == Err(Wrapped("Failed to delete session", fault.value))
      ensures !sessions.db.ready ==>
        (r == Err(SessionMissing()) <==> !HasRow(old(sessions.memory), sessionId))
      ensures sessions.db.ready && fault.None? ==>
        (r == Err(SessionMissing()) <==>
           !HasRow(old(sessions.db.sessions), sessionId) && !HasRow(old(sessions.memory), sessionId))
      ensures r.Ok? ==> r.value == HttpReply(200, Deleted(sessionId, true, "Session deleted successfully"))
      ensures r.Err? ==> r.error == SessionMissing() || (r.error.App? && r.error.err.kind == Database)
      ensures (!sessions.db.ready || fault.None?) ==> !HasRow(sessions.memory, sessionId)
      ensures !sessions.db.ready ==>
        sessions.memory == WithoutId(old(sessions.memory), sessionId) && sessions.db.sessions == old(sessions.db.sessions)
      ensures sessions.db.ready && fault.Some? ==>
        sessions.memory == old(sessions.memory) && sessions.db.sessions == old(sessions.db.sessions)
      ensures sessions.db.ready && fault.None? ==>
        && sessions.memory == WithoutId(old(sessions.memory), sessionId)
        && sessions.db.sessions == WithoutId(old(sessions.db.sessions), sessionId)
    {
      var deleted := sessions.Delete(sessionId, fault);
      if deleted.Err? {
        return Err(deleted.error);
      }
      if !deleted.value {
        return Err(SessionMissing());
      }
      r := Ok(HttpReply(200, Deleted(sessionId, true, "Session deleted successfully")));
    }
  }
}
