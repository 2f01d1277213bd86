/** The relational store behind the repositories (the `db` service): a
    readiness flag and three tables. Each table is a sequence in creation
    order; `ORDER BY created_at` is read as that order. Whether a query
    fails is decided by the caller's oracle arguments. */
module Store {
  import opened Common
  import opened Types
  import opened Errors

  /** A row of the `messages` table. */
  datatype MessageRow = MessageRow(
    sessionId: string,
    role: Role,
    content: string,
    tokensUsed: Option<int>,
    metadata: map<string, Json>,
    createdAt: int)

  /** A row of the `leads` table. */
  datatype LeadRow = LeadRow(
    id: string,
    sessionId: Option<string>,
    name: string,
    email: string,
    phone: Option<string>,
    source: string,
    createdAt: int)

  /** What an `INSERT ... RETURNING` reports: the row, no row, or a failure
      carrying the driver's message. */
  datatype InsertOutcome = Inserted | NoRowReturned | InsertFailed(reason: string)

  class Database {
    /** `db.isReady()`: whether the connection was established. */
    var ready: bool
    var sessions: seq<Session>
    var messages: seq<MessageRow>
    var leads: seq<LeadRow>

    constructor (ready: bool)
      ensures this.ready == ready
      ensures sessions == [] && messages == [] && leads == []
    {
      this.ready := ready;
      sessions := [];
      messages := [];
      leads := [];
    }
  }

  /** The error a failing `db.query` raises: a DatabaseError carrying the
      driver's message, with the driver's error as details. */
  function QueryError(reason: string): (t: Thrown)
    ensures t.App? && t.err.kind == Database
    ensures t.err.message == DatabasePrefix + reason
  {
    App(DatabaseError(reason, Some(Cause(reason))))
  }

  /** A repository's `new DatabaseError(message, error)` around a failed query. */
  function Wrapped(message: string, reason: string): (t: Thrown)
    ensures t.App? && t.err.kind == Database && t.err.status == 500
    ensures t.err.message == DatabasePrefix + message
  {
    App(DatabaseError(message, Some(Cause(DatabasePrefix + reason))))
  }

  /** The message PostgreSQL gives for a negative LIMIT. */
  const NegativeLimit: string := "LIMIT must not be negative"

  /** The message PostgreSQL gives for a repeated primary key. */
  const DuplicateKey: string := "duplicate key value violates unique constraint"
}
