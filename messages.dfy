/** The message log (chatbot-backend/src/repositories/messageRepository.ts):
    the `messages` table of the store, appended to by `create` and
    `createMany`, cleared per session by `deleteBySessionId`, and read
    through windows, counts and token sums. A query's failure is the
    caller's `fault` argument (the driver's message). */
module Messages {
  import opened Common
  import opened Types
  import opened Errors
  import opened Store

  /** The default `limit` of `getRecentBySessionId` and `getConversationHistory`. */
  const DefaultLimit: int := 20

  // ---- Projections ------------------------------------------------------

  /** `mapRowToMessage`: only the role, the content and the creation time
      survive; the row's tokens and metadata are dropped. */
  function ToMessage(row: MessageRow): (m: ChatMessage)
    ensures m.role == row.role && m.content == row.content
    ensures m.timestamp == Some(row.createdAt)
  {
    ChatMessage(row.role, row.content, Some(row.createdAt))
  }

  function ToMessages(rows: seq<MessageRow>): (ms: seq<ChatMessage>)
    ensures |ms| == |rows|
    ensures forall i :: 0 <= i < |rows| ==> ms[i] == ToMessage(rows[i])
  {
    if |rows| == 0 then [] else [ToMessage(rows[0])] + ToMessages(rows[1..])
  }

  /** `tokensUsed || null`: an absent or zero count is stored as NULL. */
  function StoredTokens(t: Option<int>): (r: Option<int>)
    ensures r.None? <==> t.None? || t.value == 0
    ensures r.Some? ==> r == t
  {
    if t.Some? && t.value != 0 then t else None
  }

  // ---- WHERE clauses ----------------------------------------------------

  /** `WHERE session_id = $1`, in creation order. */
  function OfSession(rows: seq<MessageRow>, sid: string): (r: seq<MessageRow>)
    ensures |r| <= |rows|
    ensures forall row :: row in r <==> row in rows && row.sessionId == sid
  {
    if |rows| == 0 then []
    else
      assert rows == [rows[0]] + rows[1..];
      (if rows[0].sessionId == sid then [rows[0]] else []) + OfSession(rows[1..], sid)
  }

  /** The rows `DELETE FROM messages WHERE session_id = $1` leaves. */
  function NotOfSession(rows: seq<MessageRow>, sid: string): (r: seq<MessageRow>)
    ensures |r| <= |rows|
    ensures forall row :: row in r <==> row in rows && row.sessionId != sid
  {
    if |rows| == 0 then []
    else
      assert rows == [rows[0]] + rows[1..];
      (if rows[0].sessionId != sid then [rows[0]] else []) + NotOfSession(rows[1..], sid)
  }

  /** `role != 'system'`. */
  function Spoken(rows: seq<MessageRow>): (r: seq<MessageRow>)
    ensures |r| <= |rows|
    ensures forall row :: row in r <==> row in rows && row.role != System
  {
    if |rows| == 0 then []
    else
      assert rows == [rows[0]] + rows[1..];
      (if rows[0].role != System then [rows[0]] else []) + Spoken(rows[1..])
  }

  /** Every row of a suffix of the non-system rows is non-system. */
  lemma SuffixIsSpoken(rows: seq<MessageRow>, from: nat)
    requires from <= |Spoken(rows)|
    ensures forall i :: from <= i < |Spoken(rows)| ==> Spoken(rows)[i].role != System
  {
    forall i | from <= i < |Spoken(rows)| ensures Spoken(rows)[i].role != System {
      assert Spoken(rows)[i] in Spoken(rows);
    }
  }

  /** Dropping system rows works row by row: an appended row is kept at the
      end exactly when it is not a system row. */
  lemma {:induction false} SpokenAppend(rows: seq<MessageRow>, row: MessageRow)
    ensures Spoken(rows + [row]) == Spoken(rows) + (if row.role != System then [row] else [])
  {
    if |rows| == 0 {
      assert [row][1..] == [];
    } else {
      assert (rows + [row])[1..] == rows[1..] + [row];
      SpokenAppend(rows[1..], row);
    }
  }

  /** A session's rows and the other rows split the table. */
  lemma {:induction false} SessionPartition(rows: seq<MessageRow>, sid: string)
    ensures |OfSession(rows, sid)| + |NotOfSession(rows, sid)| == |rows|
  {
    if |rows| > 0 {
      SessionPartition(rows[1..], sid);
    }
  }

  /** Deleting one session's rows leaves every other session's rows as they
      were, in the same order, and none of the deleted session's. */
  lemma {:induction false} DeleteKeepsOtherSessions(rows: seq<MessageRow>, sid: string, other: string)
    ensures OfSession(NotOfSession(rows, sid), sid) == []
    ensures other != sid ==> OfSession(NotOfSession(rows, sid), other) == OfSession(rows, other)
  {
    if |rows| > 0 {
      DeleteKeepsOtherSessions(rows[1..], sid, other);
      var rest := NotOfSession(rows[1..], sid);
      if rows[0].sessionId != sid {
        assert NotOfSession(rows, sid) == [rows[0]] + rest;
        assert ([rows[0]] + rest)[1..] == rest;
      } else {
        assert NotOfSession(rows, sid) == rest;
      }
    }
  }

  /** A session's rows after appending rows of that session. */
  lemma {:induction false} OfSessionAppend(rows: seq<MessageRow>, batch: seq<MessageRow>, sid: string)
    ensures OfSession(rows + batch, sid) == OfSession(rows, sid) + OfSession(batch, sid)
  {
    if |rows| == 0 {
      assert rows + batch == batch;
    } else {
      assert (rows + batch)[0] == rows[0];
      assert (rows + batch)[1..] == rows[1..] + batch;
      OfSessionAppend(rows[1..], batch, sid);
    }
  }

  /** Rows that all belong to `sid` are kept whole by its WHERE clause. */
  lemma {:induction false} OfSessionAll(batch: seq<MessageRow>, sid: string)
    requires forall i :: 0 <= i < |batch| ==> batch[i].sessionId == sid
    ensures OfSession(batch, sid) == batch
  {
    if |batch| > 0 {
      OfSessionAll(batch[1..], sid);
      assert batch == [batch[0]] + batch[1..];
    }
  }

  // ---- Windows and sums ---------------------------------------------------

  function Reverse<T>(s: seq<T>): (r: seq<T>)
    ensures |r| == |s|
    ensures forall i :: 0 <= i < |s| ==> r[i] == s[|s| - 1 - i]
  {
    if |s| == 0 then [] else Reverse(s[1..]) + [s[0]]
  }

  /** `ORDER BY created_at DESC LIMIT $2`, then `reverse()`: the newest
      `limit` rows put back in chronological order. */
  function NewestWindow(rows: seq<MessageRow>, limit: nat): (w: seq<MessageRow>)
    ensures |w| == Min(limit, |rows|)
    ensures forall i :: 0 <= i < |w| ==> w[i] == rows[|rows| - |w| + i]
  {
    var n, k := |rows|, Min(limit, |rows|);
    var w := Reverse(Reverse(rows)[..k]);
    assert forall i :: 0 <= i < k ==> w[i] == rows[n - k + i] by {
      forall i | 0 <= i < k ensures w[i] == rows[n - k + i] {
        assert w[i] == Reverse(rows)[..k][k - 1 - i];
      }
    }
    w
  }

  /** The window is the last `min(limit, n)` rows, oldest first. */
  lemma NewestWindowIsSuffix(rows: seq<MessageRow>, limit: nat)
    ensures NewestWindow(rows, limit) == rows[|rows| - Min(limit, |rows|)..]
  {
    var n, k := |rows|, Min(limit, |rows|);
    var w := NewestWindow(rows, limit);
    forall i | 0 <= i < k ensures w[i] == rows[n - k + i] {
      assert w[i] == Reverse(rows)[..k][k - 1 - i];
    }
  }

  /** `SUM(tokens_used)` over the non-null values, read as 0 when there are
      none (`parseInt(total || '0')`). */
  function TokenSum(rows: seq<MessageRow>): (t: int)
    ensures (forall i :: 0 <= i < |rows| ==> rows[i].tokensUsed.GetOr(0) >= 0) ==>
      t >= 0 && forall i :: 0 <= i < |rows| ==> rows[i].tokensUsed.GetOr(0) <= t
  {
    if |rows| == 0 then 0
    else TokenSum(rows[..|rows| - 1]) + rows[|rows| - 1].tokensUsed.GetOr(0)
  }

  /** Appending a row adds its stored tokens, or nothing when they are NULL. */
  lemma TokenSumAppend(rows: seq<MessageRow>, row: MessageRow)
    ensures TokenSum(rows + [row]) == TokenSum(rows) + (if row.tokensUsed.Some? then row.tokensUsed.value else 0)
  {
    assert (rows + [row])[..|rows|] == rows;
  }

  /** Rows whose tokens are all NULL sum to 0. */
  lemma {:induction false} TokenSumOfNulls(rows: seq<MessageRow>)
    requires forall i :: 0 <= i < |rows| ==> rows[i].tokensUsed.None?
    ensures TokenSum(rows) == 0
  {
    if |rows| > 0 {
      TokenSumOfNulls(rows[..|rows| - 1]);
    }
  }

  // ---- Batches ---------------------------------------------------------

  /** One element of `createMany`'s argument. */
  datatype NewMessage = NewMessage(role: Role, content: string, tokensUsed: Option<int>)

  /** The row an insert of `m` stores; `created_at` is the transaction's
      `NOW()`, shared by the whole batch, and metadata is left at its
      default. */
  function BatchRow(sid: string, m: NewMessage, now: int): (row: MessageRow)
    ensures row.sessionId == sid && row.role == m.role && row.content == m.content
    ensures row.tokensUsed == StoredTokens(m.tokensUsed) && row.createdAt == now
  {
    MessageRow(sid, m.role, m.content, StoredTokens(m.tokensUsed), map[], now)
  }

  /** The rows the first `n` inserts of a batch returned. */
  function BatchPrefix(sid: string, msgs: seq<NewMessage>, outcomes: seq<InsertOutcome>, n: nat, now: int)
    : (rows: seq<MessageRow>)
    requires n <= |msgs| && n <= |outcomes|
    ensures |rows| <= n
    ensures forall i :: 0 <= i < |rows| ==> rows[i].sessionId == sid && rows[i].createdAt == now
  {
    if n == 0 then []
    else
      BatchPrefix(sid, msgs, outcomes, n - 1, now)
        + (if outcomes[n - 1].Inserted? then [BatchRow(sid, msgs[n - 1], now)] else [])
  }

  /** A row-less insert adds nothing to the batch. */
  lemma BatchSkips(sid: string, msgs: seq<NewMessage>, outcomes: seq<InsertOutcome>, i: nat, now: int)
    requires i < |msgs| && i < |outcomes| && outcomes[i].NoRowReturned?
    ensures BatchPrefix(sid, msgs, outcomes, i + 1, now) == BatchPrefix(sid, msgs, outcomes, i, now)
  {
  }

  /** A successful insert adds its row to the batch and its message to the
      messages the batch returns. */
  lemma BatchGrows(sid: string, msgs: seq<NewMessage>, outcomes: seq<InsertOutcome>, i: nat, now: int,
                   staged: seq<MessageRow>)
    requires i < |msgs| && i < |outcomes| && outcomes[i].Inserted?
    requires staged == BatchPrefix(sid, msgs, outcomes, i, now)
    ensures BatchPrefix(sid, msgs, outcomes, i + 1, now) == staged + [BatchRow(sid, msgs[i], now)]
    ensures ToMessages(staged + [BatchRow(sid, msgs[i], now)]) == ToMessages(staged) + [ToMessage(BatchRow(sid, msgs[i], now))]
  {
    ToMessagesAppend(staged, [BatchRow(sid, msgs[i], now)]);
  }

  /** An insert that did not fail lies before the first failure. */
  lemma PastNoFailure(outcomes: seq<InsertOutcome>, i: nat)
    requires i < |outcomes| && i <= FirstFailure(outcomes) && !outcomes[i].InsertFailed?
    ensures i + 1 <= FirstFailure(outcomes)
  {
  }

  /** When every insert returns its row, the batch is stored whole, in order. */
  lemma {:induction false} BatchAllInserted(sid: string, msgs: seq<NewMessage>, outcomes: seq<InsertOutcome>, n: nat, now: int)
    requires n <= |msgs| && n <= |outcomes|
    requires forall i :: 0 <= i < n ==> outcomes[i].Inserted?
    ensures |BatchPrefix(sid, msgs, outcomes, n, now)| == n
    ensures forall i :: 0 <= i < n ==> BatchPrefix(sid, msgs, outcomes, n, now)[i] == BatchRow(sid, msgs[i], now)
  {
    if n > 0 {
      BatchAllInserted(sid, msgs, outcomes, n - 1, now);
    }
  }

  /** The position of the first failed insert, or `|outcomes|`. */
  function FirstFailure(outcomes: seq<InsertOutcome>): (k: nat)
    ensures k <= |outcomes|
    ensures k < |outcomes| ==> outcomes[k].InsertFailed?
    ensures forall j :: 0 <= j < k ==> !outcomes[j].InsertFailed?
  {
    if |outcomes| == 0 then 0
    else if outcomes[0].InsertFailed? then 0
    else 1 + FirstFailure(outcomes[1..])
  }

  /** The error `create` raises when its insert does not return a row: both
      are DatabaseErrors, so the catch rethrows them as they are. */
  function CreateFailure(outcome: InsertOutcome): (t: Thrown)
    requires !outcome.Inserted?
    ensures t.App? && t.err.kind == Database && t.err.status == 500
    ensures outcome.NoRowReturned? ==> t.err.message == DatabasePrefix + "Failed to create message"
    ensures outcome.InsertFailed? ==> t.err.message == DatabasePrefix + outcome.reason
  {
    if outcome.NoRowReturned? then App(DatabaseError("Failed to create message", None))
    else QueryError(outcome.reason)
  }

  /** The messages `getConversationHistory(sid, limit)` returns: the last
      `min(limit, n)` of the session's `n` non-system messages, oldest first. */
  function ConversationWindow(rows: seq<MessageRow>, sid: string, limit: nat): (w: seq<ChatMessage>)
    ensures |w| <= limit
    ensures forall i :: 0 <= i < |w| ==> w[i].role != System
  {
    var spoken := Spoken(OfSession(rows, sid));
    SuffixIsSpoken(OfSession(rows, sid), |spoken| - Min(limit, |spoken|));
    ToMessages(spoken[|spoken| - Min(limit, |spoken|)..])
  }

  class MessageRepository {
    const db: Database

    constructor (db: Database)
      ensures this.db == db
    {
      this.db := db;
    }

    /** `create(sessionId, role, content, tokensUsed?, metadata?)`. Both of
        its failures are DatabaseErrors and leave the catch unchanged. */
    method Create(
      sessionId: string,
      role: Role,
      content: string,
      tokensUsed: Option<int>,
      metadata: Option<map<string, Json>>,
      now: int,
      outcome: InsertOutcome)
      returns (r: Result<ChatMessage, Thrown>)
      modifies db`messages
      ensures outcome.Inserted? ==>
        && r == Ok(ChatMessage(role, content, Some(now)))
        && db.messages == old(db.messages)
             + [MessageRow(sessionId, role, content, StoredTokens(tokensUsed), metadata.GetOr(map[]), now)]
      ensures !outcome.Inserted? ==> r == Err(CreateFailure(outcome)) && db.messages == old(db.messages)
    {
      match outcome
      case InsertFailed(reason) =>
        r := Err(QueryError(reason));
      case NoRowReturned =>
        r := Err(App(DatabaseError("Failed to create message", None)));
      case Inserted =>
        var row := MessageRow(sessionId, role, content, StoredTokens(tokensUsed), metadata.GetOr(map[]), now);
        db.messages := db.messages + [row];
        r := Ok(ToMessage(row));
    }

    /** `createMany(sessionId, messages)`: one insert per message inside a
        transaction. `clientFault` is a failure to obtain a pooled client and
        `outcomes[i]` the fate of the i-th insert; a row-less insert is
        skipped, and any failure rolls the whole batch back. */
    method CreateMany(
      sessionId: string,
      msgs: seq<NewMessage>,
      now: int,
      clientFault: Option<string>,
      outcomes: seq<InsertOutcome>)
      returns (r: Result<seq<ChatMessage>, Thrown>)
      requires |outcomes| == |msgs|
      modifies db`messages
      ensures r.Err? ==> db.messages == old(db.messages)
      ensures clientFault.Some? ==>
        r == Err(DbFailure("Failed to save multiple messages", DatabasePrefix + "Failed to get database client"))
      ensures clientFault.None? && FirstFailure(outcomes) < |outcomes| ==>
        r == Err(DbFailure("Failed to save multiple messages", outcomes[FirstFailure(outcomes)].reason))
      ensures clientFault.None? && FirstFailure(outcomes) == |outcomes| ==>
        var batch := BatchPrefix(sessionId, msgs, outcomes, |msgs|, now);
        r == Ok(ToMessages(batch)) && db.messages == old(db.messages) + batch
    {
      if clientFault.Some? {
        return Err(DbFailure("Failed to save multiple messages", DatabasePrefix + "Failed to get database client"));
      }
      var staged: seq<MessageRow> := [];
      var saved: seq<ChatMessage> := [];
      var i := 0;
      while i < |msgs|
        invariant 0 <= i <= |msgs|
        invariant i <= FirstFailure(outcomes)
        invariant staged == BatchPrefix(sessionId, msgs, outcomes, i, now)
        invariant saved == ToMessages(staged)
        invariant db.messages == old(db.messages)
      {
        match outcomes[i] {
          case InsertFailed(reason) =>
            assert FirstFailure(outcomes) == i;
            return Err(DbFailure("Failed to save multiple messages", reason));
          case NoRowReturned =>
            BatchSkips(sessionId, msgs, outcomes, i, now);
          case Inserted =>
            var row := BatchRow(sessionId, msgs[i], now);
            BatchGrows(sessionId, msgs, outcomes, i, now, staged);
            staged := staged + [row];
            saved := saved + [ToMessage(row)];
        }
        PastNoFailure(outcomes, i);
        i := i + 1;
      }
      db.messages := db.messages + staged;
      r := Ok(saved);
    }

    /** `getRecentBySessionId(sessionId, limit)`: the session's last
        `min(limit, n)` messages, oldest first. */
    method GetRecentBySessionId(sessionId: string, fault: Option<string>, limit: int := DefaultLimit)
      returns (r: Result<seq<ChatMessage>, Thrown>)
      ensures fault.Some? ==> r == Err(Wrapped("Failed to get recent messages", fault.value))
      ensures fault.None? && limit < 0 ==> r == Err(Wrapped("Failed to get recent messages", NegativeLimit))
      ensures fault.None? && limit >= 0 ==>
        var rows := OfSession(db.messages, sessionId);
        r == Ok(ToMessages(rows[|rows| - Min(limit, |rows|)..]))
    {
      if fault.Some? {
        return Err(Wrapped("Failed to get recent messages", fault.value));
      }
      if limit < 0 {
        return Err(Wrapped("Failed to get recent messages", NegativeLimit));
      }
      var rows := OfSession(db.messages, sessionId);
      var newestFirst := Reverse(rows)[..Min(limit, |rows|)];
      NewestWindowIsSuffix(rows, limit);
      r := Ok(ToMessages(Reverse(newestFirst)));
    }

    /** `getAllBySessionId(sessionId)`: every message of the session, oldest first. */
    method GetAllBySessionId(sessionId: string, fault: Option<string>)
      returns (r: Result<seq<ChatMessage>, Thrown>)
      ensures fault.Some? ==> r == Err(Wrapped("Failed to get all messages", fault.value))
      ensures fault.None? ==> r == Ok(ToMessages(OfSession(db.messages, sessionId)))
    {
      if fault.Some? {
        return Err(Wrapped("Failed to get all messages", fault.value));
      }
      r := Ok(ToMessages(OfSession(db.messages, sessionId)));
    }

    /** `getCountBySessionId(sessionId)`: `COUNT(*)` of the session's rows. */
    method GetCountBySessionId(sessionId: string, fault: Option<string>)
      returns (r: Result<int, Thrown>)
      ensures fault.Some? ==> r == Err(Wrapped("Failed to get message count", fault.value))
      ensures fault.None? ==> r == Ok(|ToMessages(OfSession(db.messages, sessionId))|)
    {
      if fault.Some? {
        return Err(Wrapped("Failed to get message count", fault.value));
      }
      r := Ok(|OfSession(db.messages, sessionId)|);
    }

    /** `deleteBySessionId(sessionId)`: removes all and only the session's
        rows and reports how many there were. */
    method DeleteBySessionId(sessionId: string, fault: Option<string>)
      returns (r: Result<int, Thrown>)
      modifies db`messages
      ensures fault.Some? ==>
        r == Err(Wrapped("Failed to delete messages", fault.value)) && db.messages == old(db.messages)
      ensures fault.None? ==>
        && r == Ok(|OfSession(old(db.messages), sessionId)|)
        && db.messages == NotOfSession(old(db.messages), sessionId)
        && |db.messages| == |old(db.messages)| - r.value
        && OfSession(db.messages, sessionId) == []
    {
      if fault.Some? {
        return Err(Wrapped("Failed to delete messages", fault.value));
      }
      var before := db.messages;
      var deleted := |OfSession(before, sessionId)|;
      SessionPartition(before, sessionId);
      DeleteKeepsOtherSessions(before, sessionId, sessionId);
      db.messages := NotOfSession(before, sessionId);
      r := Ok(deleted);
    }

    /** `getTotalTokensBySessionId(sessionId)`. */
    method GetTotalTokensBySessionId(sessionId: string, fault: Option<string>)
      returns (r: Result<int, Thrown>)
      ensures fault.Some? ==> r == Err(Wrapped("Failed to get total tokens", fault.value))
      ensures fault.None? ==> r == Ok(TokenSum(OfSession(db.messages, sessionId)))
    {
      if fault.Some? {
        return Err(Wrapped("Failed to get total tokens", fault.value));
      }
      r := Ok(TokenSum(OfSession(db.messages, sessionId)));
    }

    /** `getConversationHistory(sessionId, limit)`: the recent-messages
        window taken over the session's non-system messages only. */
    method GetConversationHistory(sessionId: string, fault: Option<string>, limit: int := DefaultLimit)
      returns (r: Result<seq<ChatMessage>, Thrown>)
      ensures fault.Some? ==> r == Err(Wrapped("Failed to get conversation history", fault.value))
      ensures fault.None? && limit < 0 ==> r == Err(Wrapped("Failed to get conversation history", NegativeLimit))
      ensures fault.None? && limit >= 0 ==> r == Ok(ConversationWindow(db.messages, sessionId, limit))
    {
      if fault.Some? {
        return Err(Wrapped("Failed to get conversation history", fault.value));
      }
      if limit < 0 {
        return Err(Wrapped("Failed to get conversation history", NegativeLimit));
      }
      var rows := Spoken(OfSession(db.messages, sessionId));
      var newestFirst := Reverse(rows)[..Min(limit, |rows|)];
      NewestWindowIsSuffix(rows, limit);
      r := Ok(ToMessages(Reverse(newestFirst)));
    }
  }

  /** After a successful `create`, the session's full history is the old
      one followed by the new message, and other sessions are unchanged. */
  lemma CreateExtendsHistory(before: seq<MessageRow>, row: MessageRow, other: string)
    ensures ToMessages(OfSession(before + [row], row.sessionId)) == ToMessages(OfSession(before, row.sessionId)) + [ToMessage(row)]
    ensures other != row.sessionId ==> OfSession(before + [row], other) == OfSession(before, other)
  {
    OfSessionAppend(before, [row], row.sessionId);
    OfSessionAppend(before, [row], other);
    assert [row][1..] == [];
    ToMessagesAppend(OfSession(before, row.sessionId), [row]);
  }

  /** After a successful `createMany`, the session's history gains the
      batch's rows at its end, in batch order. */
  lemma CreateManyExtendsHistory(before: seq<MessageRow>, batch: seq<MessageRow>, sid: string)
    requires forall i :: 0 <= i < |batch| ==> batch[i].sessionId == sid
    ensures OfSession(before + batch, sid) == OfSession(before, sid) + batch
  {
    OfSessionAppend(before, batch, sid);
    OfSessionAll(batch, sid);
  }

  lemma {:induction false} ToMessagesAppend(a: seq<MessageRow>, b: seq<MessageRow>)
    ensures ToMessages(a + b) == ToMessages(a) + ToMessages(b)
  {
    var l, r := ToMessages(a + b), ToMessages(a) + ToMessages(b);
    assert |l| == |r|;
    forall i | 0 <= i < |l| ensures l[i] == r[i] {
      if i < |a| {
        assert (a + b)[i] == a[i];
      } else {
        assert (a + b)[i] == b[i - |a|];
      }
    }
  }
}
