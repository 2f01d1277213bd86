# A verified model of the portfolio chat backend

This project models the server side of a portfolio site's chat assistant, and
proves properties of that model. Its parts:

- **Session store.** Sessions live in PostgreSQL when the database is
  connected. Otherwise they live in an in-memory map.
- **Message log.** It keeps every turn of every session.
- **Gemini service.** It saves the user's message, reads back a window of
  recent turns, adds matching portfolio projects to the prompt, asks the
  model, checks the answer for safety blocks, and saves the reply.
- **Chat controller.** It exposes all of the above over HTTP.
- **Lead capture.** There are three variants: the server's service, the
  server's controller, and the chatbot backend's controller.
- **Middleware.** API-key authentication, schema validation, and the two
  error handlers that turn thrown errors into JSON answers.
- **Environment configuration.** How it is read and how it is checked.
- **PHP relay.** It mails the website's contact form.

Where the source changes state in place, the model does the same:

- The repositories and controllers are classes.
- Each table of the `Database` class is a `seq` field in creation order, which
  the methods reassign.
- The session store's in-memory map is a `seq` of its entries in insertion
  order.
- Loops stay loops: the expired-session sweep and the batch insert. The
  configuration check has no loop; it builds its list of problems by
  conditional appends, and so does the model.

Pure logic is written as functions, and lemmas relate them:

- prompt context selection;
- history formatting;
- token estimates;
- answer classification;
- the conversation window;
- validation schemas;
- error mapping;
- environment parsing.

The outside world enters only as parameters:

- Clocks are a `now` argument.
- Fresh UUIDs are an argument.
- Each query's failure is an `Option<string>` fault or an `InsertOutcome`.
- The model's answer is a function from the request sent to a `ModelOutcome`.
- `strip_tags` and the e-mail and UUID validators are function parameters.
- What `mail()` returns is a boolean.

Modules:

- `Common`: Option/Result, JSON values, JavaScript truthiness and string helpers.
- `Types`, `Errors`: records and the error classes.
- `Store`: the database.
- `Sessions`, `Messages`: the two repositories.
- `Gemini`: the service.
- `Chat`: the chat controller.
- `Leads`, `LeadServices`, `ServerLeads`, `BackendLeads`: lead capture.
- `Auth`, `Validation`, `BackendErrors`, `ServerErrors`: middleware.
- `Config`: configuration.
- `SendMail`: the PHP relay.

Where the code and its description differ, the model follows the code:

- **Session expiry.** Sessions always expire 24 hours after creation. The
  configured `SESSION_EXPIRY_HOURS` is loaded but never used.
- **The service's error handling.** `generateChatResponse` rethrows a
  `DatabaseError`, a `GeminiSafetyError` or a `TimeoutError` unchanged. Every
  other error, including the service's own `GeminiAPIError` for an answer with
  no text, is wrapped in a fresh `GeminiAPIError`. That error's message
  therefore carries the "Gemini API Error: " prefix twice
  (`Gemini.MissingTextIsPrefixedTwice`).
- **'Failed to save message'.** Message creation never reports it. Both ways
  an insert can fail are already `DatabaseError`s, and the catch rethrows
  those unchanged.
- **The lead source default.** The server's lead service applies "chatbot"
  only when no source is given, so an empty string is stored as is. Both
  controllers use `||`, which also replaces "".
- **PHP truthiness.** The mail relay treats a service named "0" as no service
  (`SendMail.ServiceZeroIsAnInquiry`). It also refuses an empty JSON object as
  invalid input.
- **The query layer.** Failed queries raise the `DatabaseError` built by the
  query layer in `server/src/services/dbService.ts`. The chatbot backend's own
  copy of that service is not part of this model, and the server's is taken as
  its behaviour.

## Model

| member | source | states |
|---|---|---|
| Errors.NewAppError | chatbot-backend/src/utils/errors.ts:12-23 | an AppError keeps message, code and details; status defaults to 500 and isOperational to true |
| Errors.Subclass | chatbot-backend/src/utils/errors.ts:33-118 | every subclass error is well formed: its status and code are those of its kind |
| Errors.ValidationError | chatbot-backend/src/utils/errors.ts:33-38 | status 400, code VALIDATION_ERROR, the given message and details |
| Errors.AuthenticationError | chatbot-backend/src/utils/errors.ts:43-48 | status 401, code AUTHENTICATION_ERROR, message defaults to "Authentication required" |
| Errors.AuthorizationError | chatbot-backend/src/utils/errors.ts:53-58 | status 403, code AUTHORIZATION_ERROR, message defaults to "Access forbidden" |
| Errors.NotFoundError | chatbot-backend/src/utils/errors.ts:63-68 | status 404, code NOT_FOUND, message "<resource> not found" with "Resource" as default |
| Errors.GeminiAPIError | chatbot-backend/src/utils/errors.ts:73-78 | status 502, code GEMINI_API_ERROR, message prefixed with "Gemini API Error: " |
| Errors.GeminiSafetyError | chatbot-backend/src/utils/errors.ts:83-88 | status 422, code SAFETY_FILTER_TRIGGERED, default message about safety filters |
| Errors.DatabaseError | chatbot-backend/src/utils/errors.ts:93-98 | status 500, code DATABASE_ERROR, message prefixed with "Database Error: " |
| Errors.TimeoutError | chatbot-backend/src/utils/errors.ts:103-108 | status 408, code TIMEOUT_ERROR, message defaults to "Request timeout" |
| Errors.RateLimitError | chatbot-backend/src/utils/errors.ts:113-118 | status 429, code RATE_LIMIT_EXCEEDED, message defaults to "Too many requests" |
| Errors.KindOfCode | chatbot-backend/src/utils/errors.ts:33-118 | a code names at most one error class, and the kind found has that code |
| Errors.CodeIdentifiesKind | chatbot-backend/src/utils/errors.ts:33-118 | two well-formed subclass errors with the same code are of the same class |
| Errors.PlainError | chatbot-backend/src/config/index.ts:106-108 | a plain Error carries its message and has neither status nor isOperational |
| Errors.DbFailure | chatbot-backend/src/repositories/messageRepository.ts:103-106 | a repository's wrapping DatabaseError is a 500 with the prefixed message |
| Store.QueryError | server/src/services/dbService.ts:88-102 | a failed query raises a DatabaseError carrying the driver's message |
| Store.Wrapped | chatbot-backend/src/repositories/sessionRepository.ts:90-93 | a repository's catch raises a 500 DatabaseError with its own message |
| Common.ToLower | chatbot-backend/src/services/geminiService.ts:119 | lower-casing keeps the length and maps each character |
| Sessions.BoundaryIsNeitherLiveNorExpired | chatbot-backend/src/repositories/sessionRepository.ts:189 | a session expiring exactly now is neither valid nor swept |
| Sessions.FindRow | chatbot-backend/src/repositories/sessionRepository.ts:79-89 | a row is found exactly when one has the id, and the found row has it |
| Sessions.Where | chatbot-backend/src/repositories/sessionRepository.ts:101-102 | a WHERE keeps exactly the rows satisfying it, as a sub-multiset |
| Sessions.WhereKeepsIdsUnique | chatbot-backend/src/repositories/sessionRepository.ts:163-176 | removing rows keeps primary keys unique |
| Sessions.WithoutId | chatbot-backend/src/repositories/sessionRepository.ts:168-170 | DELETE by id keeps exactly the rows with another id |
| Sessions.UpdateRows | chatbot-backend/src/repositories/sessionRepository.ts:138-144 | UPDATE by id replaces metadata and update time of the matching rows only |
| Sessions.Unexpired | chatbot-backend/src/repositories/sessionRepository.ts:213-220 | the rows kept by the cleanup are exactly those not expired |
| Sessions.OwnedBy | chatbot-backend/src/repositories/sessionRepository.ts:101-102 | the filter keeps exactly the user's sessions, as a sub-multiset |
| Sessions.SliceEnd | chatbot-backend/src/repositories/sessionRepository.ts:103 | `slice(0, limit)` ends at min(limit, n), or counts back from the end for a negative limit |
| Sessions.InsertByCreated | chatbot-backend/src/repositories/sessionRepository.ts:110 | one ORDER BY step places the new session among the sorted ones, losing none and adding one |
| Sessions.InsertByCreatedSorted | chatbot-backend/src/repositories/sessionRepository.ts:108-111 | inserting into a newest-first list keeps it newest-first |
| Sessions.InsertByCreatedAddsOne | chatbot-backend/src/repositories/sessionRepository.ts:108-111 | inserting adds exactly the new session and loses none |
| Sessions.NewestOf | chatbot-backend/src/repositories/sessionRepository.ts:110-111 | `ORDER BY created_at DESC LIMIT n` yields `min(n, rows)` rows, newest first |
| Sessions.NewestOfKeepsNewest | chatbot-backend/src/repositories/sessionRepository.ts:110-111 | the kept rows come from the input, and no row `LIMIT` drops is newer than any row it keeps |
| Sessions.SplitAt | chatbot-backend/src/repositories/sessionRepository.ts:111 | cutting the sorted rows at the limit splits their multiset into kept and dropped |
| Sessions.DroppedNoNewer | chatbot-backend/src/repositories/sessionRepository.ts:110-111 | in a newest-first list nothing after the cut is newer than anything before it |
| Sessions.SortNewestFirst | chatbot-backend/src/repositories/sessionRepository.ts:108-111 | ORDER BY created_at DESC yields a newest-first permutation of the rows |
| Sessions.WhereAppend | chatbot-backend/src/repositories/sessionRepository.ts:108-111 | a WHERE clause distributes over concatenation |
| Sessions.WhereAll | chatbot-backend/src/repositories/sessionRepository.ts:108-111 | a WHERE every row satisfies keeps them all |
| Sessions.DeleteSoleRow | chatbot-backend/src/repositories/sessionRepository.ts:163-165 | deleting the only entry with an id leaves the others in order |
| Sessions.SweepStep | chatbot-backend/src/repositories/sessionRepository.ts:213-218 | one visit of the sweep removes the entry iff it is expired and counts it |
| Sessions.SetEntry | chatbot-backend/src/repositories/sessionRepository.ts:41 | `map.set` replaces an existing key's entry or appends a new one |
| Sessions.SetEntryKeepsIdsUnique | chatbot-backend/src/repositories/sessionRepository.ts:41 | after `map.set` keys stay unique and the new entry is found |
| Sessions.FindRowUnique | chatbot-backend/src/repositories/sessionRepository.ts:79-89 | with unique ids, looking up a row's id finds that row |
| Sessions.Lookup | chatbot-backend/src/repositories/sessionRepository.ts:73-94 | getById fails iff the database is ready and the query fails; it finds nothing iff neither the table nor memory has the id |
| Sessions.SessionRepository.constructor | chatbot-backend/src/repositories/sessionRepository.ts:24 | the in-memory map starts empty |
| Sessions.SessionRepository.DeleteEntry | chatbot-backend/src/repositories/sessionRepository.ts:164 | `map.delete` removes the id from memory and keeps keys unique |
| Sessions.SessionRepository.Create | chatbot-backend/src/repositories/sessionRepository.ts:29-68 | without a database, the session expiring in 24 hours goes into memory; with one, a row is inserted or the insert's DatabaseError is thrown |
| Sessions.SessionRepository.GetById | chatbot-backend/src/repositories/sessionRepository.ts:73-94 | database row first, memory as fallback, query failure wrapped; equal to Lookup |
| Sessions.SessionRepository.GetByUserId | chatbot-backend/src/repositories/sessionRepository.ts:99-120 | only the user's sessions, at most `limit` (10 by default); from the table exactly the user's `limit` newest, newest first; from memory the first `limit` in insertion order |
| Sessions.SessionRepository.UpdateMetadata | chatbot-backend/src/repositories/sessionRepository.ts:125-157 | in memory the patch is merged over the metadata; in the table it replaces it; an unknown id is NotFound |
| Sessions.SessionRepository.Delete | chatbot-backend/src/repositories/sessionRepository.ts:162-181 | true iff a row or memory entry was removed; afterwards the id is in neither |
| Sessions.SessionRepository.IsValid | chatbot-backend/src/repositories/sessionRepository.ts:186-205 | true iff the session exists and expires after now; a failing query answers false |
| Sessions.SessionRepository.SweepMemory | chatbot-backend/src/repositories/sessionRepository.ts:211-218 | the loop leaves exactly the unexpired entries and counts the removed ones |
| Sessions.UnexpiredKeepsIdsUnique | chatbot-backend/src/repositories/sessionRepository.ts:222-226 | dropping the expired rows keeps primary keys unique |
| Sessions.SessionRepository.SweepTable | chatbot-backend/src/repositories/sessionRepository.ts:222-226 | the table keeps exactly its unexpired rows, keys stay unique, and the count is the number removed |
| Sessions.SessionRepository.CleanupExpired | chatbot-backend/src/repositories/sessionRepository.ts:210-232 | memory count plus the database's deleted count; a query failure is a DatabaseError after the sweep |
| Messages.ToMessage | chatbot-backend/src/repositories/messageRepository.ts:250-256 | a row maps to its role, content and creation time |
| Messages.ToMessages | chatbot-backend/src/repositories/messageRepository.ts:154 | mapping keeps length and maps element-wise |
| Messages.StoredTokens | chatbot-backend/src/repositories/messageRepository.ts:42 | `tokensUsed \|\| null`: a missing or zero count is stored as null |
| Messages.OfSession | chatbot-backend/src/repositories/messageRepository.ts:147-152 | exactly the session's rows, in order |
| Messages.NotOfSession | chatbot-backend/src/repositories/messageRepository.ts:183-186 | exactly the other sessions' rows |
| Messages.Spoken | chatbot-backend/src/repositories/messageRepository.ts:229-233 | exactly the non-system rows |
| Messages.SpokenAppend | chatbot-backend/src/repositories/messageRepository.ts:229-233 | a new row joins the spoken rows iff it is not a system row |
| Messages.SessionPartition | chatbot-backend/src/repositories/messageRepository.ts:181-199 | every row belongs to the session or to another one |
| Messages.DeleteKeepsOtherSessions | chatbot-backend/src/repositories/messageRepository.ts:181-199 | after the delete the session has no rows and other sessions are untouched |
| Messages.OfSessionAppend | chatbot-backend/src/repositories/messageRepository.ts:147-150 | selecting a session distributes over appended rows |
| Messages.OfSessionAll | chatbot-backend/src/repositories/messageRepository.ts:83-94 | a batch for one session is all selected |
| Messages.Reverse | chatbot-backend/src/repositories/messageRepository.ts:126-128 | reversal maps index i to n-1-i |
| Messages.NewestWindow | chatbot-backend/src/repositories/messageRepository.ts:117-128 | the newest `min(limit, n)` rows in chronological order: position i holds row n - k + i |
| Messages.NewestWindowIsSuffix | chatbot-backend/src/repositories/messageRepository.ts:117-128 | newest `limit` rows reversed back are the last min(limit, n) rows |
| Messages.TokenSum | chatbot-backend/src/repositories/messageRepository.ts:204-213 | `SUM(tokens_used)` read with `\|\| '0'`: with non-negative counts it is non-negative and at least each row's count |
| Messages.TokenSumAppend | chatbot-backend/src/repositories/messageRepository.ts:204-213 | SUM(tokens_used) grows by the new row's count, null counting 0 |
| Messages.TokenSumOfNulls | chatbot-backend/src/repositories/messageRepository.ts:213 | COALESCE(SUM, 0) of null counts is 0 |
| Messages.BatchRow | chatbot-backend/src/repositories/messageRepository.ts:84-92 | a batch message's row keeps session, role, content and the stored token count |
| Messages.BatchPrefix | chatbot-backend/src/repositories/messageRepository.ts:83-94 | the rows a batch inserts all belong to the session and carry the batch's time |
| Messages.BatchAllInserted | chatbot-backend/src/repositories/messageRepository.ts:83-94 | when every insert returns a row, the batch is exactly one row per message |
| Messages.FirstFailure | chatbot-backend/src/repositories/messageRepository.ts:83-106 | the index of the first failing insert, with no failure before it |
| Messages.CreateFailure | chatbot-backend/src/repositories/messageRepository.ts:47-65 | a row-less insert and a failed insert both surface as 500 DatabaseErrors |
| Messages.ConversationWindow | chatbot-backend/src/repositories/messageRepository.ts:224-245 | at most `limit` messages, none of them a system message |
| Messages.MessageRepository.Create | chatbot-backend/src/repositories/messageRepository.ts:26-66 | an inserted message is appended and returned; otherwise the table is unchanged and the failure thrown |
| Messages.MessageRepository.CreateMany | chatbot-backend/src/repositories/messageRepository.ts:71-107 | all or nothing: the batch's rows are appended, or any failure rolls back and is wrapped |
| Messages.MessageRepository.GetRecentBySessionId | chatbot-backend/src/repositories/messageRepository.ts:112-140 | the session's last min(limit, n) messages (limit 20 by default), oldest first; a negative limit fails |
| Messages.MessageRepository.GetAllBySessionId | chatbot-backend/src/repositories/messageRepository.ts:145-159 | all of the session's messages in order |
| Messages.MessageRepository.GetCountBySessionId | chatbot-backend/src/repositories/messageRepository.ts:164-176 | the number of the session's messages |
| Messages.MessageRepository.DeleteBySessionId | chatbot-backend/src/repositories/messageRepository.ts:181-199 | removes exactly the session's rows and reports how many |
| Messages.MessageRepository.GetTotalTokensBySessionId | chatbot-backend/src/repositories/messageRepository.ts:204-218 | the sum of the session's token counts |
| Messages.MessageRepository.GetConversationHistory | chatbot-backend/src/repositories/messageRepository.ts:224-245 | the conversation window over the current rows, or the wrapped failure |
| Messages.CreateExtendsHistory | chatbot-backend/src/repositories/messageRepository.ts:26-66 | after a create the session's history gains exactly the new message and other sessions are unchanged |
| Messages.CreateManyExtendsHistory | chatbot-backend/src/repositories/messageRepository.ts:71-107 | after a batch the session's rows gain exactly the batch |
| Messages.ToMessagesAppend | chatbot-backend/src/repositories/messageRepository.ts:154 | mapping rows distributes over concatenation |
| Gemini.Relevant | chatbot-backend/src/services/geminiService.ts:120-122 | a project is kept iff one of its keywords occurs in the lower-cased message |
| Gemini.ProjectLine | chatbot-backend/src/services/geminiService.ts:126-128 | a context line opens with "- Project: " and the name and closes with "Tech Stack: " and the joined stack |
| Gemini.ProjectLines | chatbot-backend/src/services/geminiService.ts:126-128 | one line per relevant project, in order |
| Gemini.GetRelevantContext | chatbot-backend/src/services/geminiService.ts:116-131 | empty iff there are no projects or none is relevant; otherwise the header, the lines and the footer |
| Gemini.EmptyKeywordAlwaysMatches | chatbot-backend/src/services/geminiService.ts:121 | a project with an empty keyword is relevant to every message |
| Gemini.ContextFraming | chatbot-backend/src/services/geminiService.ts:130 | a non-empty context starts with the header and ends with the footer |
| Gemini.RoleName | chatbot-backend/src/services/geminiService.ts:252 | "model" iff the role is assistant, otherwise "user" |
| Gemini.FormatChatHistory | chatbot-backend/src/services/geminiService.ts:248-255 | every turn is "model" or "user" and no turn is longer than the input |
| Gemini.FormatChatHistoryAppend | chatbot-backend/src/services/geminiService.ts:248-255 | formatting distributes over concatenation |
| Gemini.FormatChatHistoryNoSystem | chatbot-backend/src/services/geminiService.ts:248-255 | without system messages every message becomes exactly one turn with its text |
| Gemini.FormatChatHistoryDropsSystem | chatbot-backend/src/services/geminiService.ts:250 | a system message contributes no turn |
| Gemini.HistoryFor | chatbot-backend/src/services/geminiService.ts:154-158 | the history sent is the window without its last message, or empty |
| Gemini.EstimateTokens | chatbot-backend/src/services/geminiService.ts:260-262 | the estimate is ceil(length / 4) |
| Gemini.EstimateTokensMonotonic | chatbot-backend/src/services/geminiService.ts:260-262 | a longer text never has a smaller estimate |
| Gemini.Interpret | chatbot-backend/src/services/geminiService.ts:175-200 | a failure passes through, a timeout is a TimeoutError, no candidates or a SAFETY finish is a safety error, missing text is an API error, otherwise the text |
| Gemini.PassesThrough | chatbot-backend/src/services/geminiService.ts:233-235 | exactly the safety, timeout and database errors are rethrown as they are; a GeminiAPIError is not |
| Gemini.CaughtMessage | chatbot-backend/src/services/geminiService.ts:238-241 | an Error's own message, or "Unknown error during chat processing" for anything else |
| Gemini.Classify | chatbot-backend/src/services/geminiService.ts:233-241 | safety, timeout and database errors pass through; anything else becomes a GeminiAPIError |
| Gemini.MissingTextIsPrefixedTwice | chatbot-backend/src/services/geminiService.ts:198-199 | an answer without text surfaces with the API-error prefix twice |
| Gemini.OutcomeKinds | chatbot-backend/src/services/geminiService.ts:233-241 | every thrown error is a safety, timeout, database or API error with its class's status |
| Gemini.Rating | chatbot-backend/src/services/geminiService.ts:218-221 | a missing category or probability reads "UNKNOWN" |
| Gemini.Ratings | chatbot-backend/src/services/geminiService.ts:218-221 | ratings are mapped one for one, and absent stays absent |
| Gemini.RatingsOf | chatbot-backend/src/services/geminiService.ts:218-221 | the mapping keeps length and maps element-wise |
| Gemini.TurnTokens | chatbot-backend/src/services/geminiService.ts:202 | at least the answer's estimate, and positive for a non-empty answer |
| Gemini.AfterModel | chatbot-backend/src/services/geminiService.ts:181-222 | a failed answer is classified with nothing saved; a usable one is saved with its token count and returned, or the save failure thrown |
| Gemini.ChatTurn | chatbot-backend/src/services/geminiService.ts:139-243 | save failure: nothing sent; history failure or negative limit: only the user message saved; otherwise the window minus the new message plus the context prompt is sent |
| Gemini.GeminiService.GenerateChatResponse | chatbot-backend/src/services/geminiService.ts:139-243 | result, request sent and message rows are exactly those of ChatTurn |
| Gemini.GeminiService.Answer | chatbot-backend/src/services/geminiService.ts:181-222 | result and message rows are exactly those of AfterModel |
| Gemini.WindowEndsWithNewMessage | chatbot-backend/src/services/geminiService.ts:145-157 | with a window of at least one, its last message is the one just saved |
| Chat.SessionMissing | server/src/controllers/chatController.ts:25-28 | the thrown error is a 404 "Session not found" |
| Chat.ClearedMessage | server/src/controllers/chatController.ts:96 | the count's numeral followed by " messages cleared" |
| Chat.ChatController.SendMessage | server/src/controllers/chatController.ts:19-53 | lookup failure or unknown session: nothing sent or saved; otherwise the service's turn, answered 200 with the response record |
| Chat.ChatController.GetChatHistory | server/src/controllers/chatController.ts:59-76 | all of a known session's messages with their number |
| Chat.ChatController.ClearChatHistory | server/src/controllers/chatController.ts:82-98 | a known session's messages are deleted and counted; other sessions keep theirs |
| Chat.ChatController.CreateSession | server/src/controllers/chatController.ts:104-112 | the repository's new session, answered 201; without a database it is set in memory and the table is untouched, with one it is appended to the table and memory is untouched; a failed insert is a DatabaseError with the table unchanged |
| Chat.ChatController.GetSession | server/src/controllers/chatController.ts:118-133 | a known session with its message count |
| Chat.ChatController.DeleteSession | server/src/controllers/chatController.ts:139-153 | deletes only the session (its messages are left in place); the id leaves memory and, when the query succeeds, the table, with every other entry kept; an id in neither store is a 404 and a query failure a DatabaseError |
| Leads.FirstWithEmail | server/src/services/leadService.ts:33-41 | the first lead with the address, found iff one exists |
| Leads.NewLead | server/src/services/leadService.ts:43-49 | a new row keeps the fields and stores "" session and phone as null |
| Leads.LookupAfterInsert | server/src/services/leadService.ts:33-50 | after inserting a new address, looking it up finds the new lead and other addresses are unaffected |
| Leads.LookupStable | server/src/services/leadService.ts:33-50 | once an address is known, later inserts do not change which lead it finds |
| LeadServices.LeadService.CreateLead | server/src/services/leadService.ts:17-74 | missing name or email is refused; a known email is reported with its id; a new one is inserted; database failures are swallowed |
| ServerLeads.SourceOrDefault | server/src/controllers/leadController.ts:47 | a truthy source is kept, anything else becomes "chatbot" |
| ServerLeads.LeadController.CreateLead | server/src/controllers/leadController.ts:16-72 | 400 without name or email, otherwise 201 "Lead received" whatever the database does |
| BackendLeads.LeadController.CreateLead | chatbot-backend/src/controllers/leadController.ts:15-62 | 400, 500 on any database failure, 200 for a known email, 201 for a new lead; the table grows iff the answer is 201 |
| Auth.AuthenticateApiKey | server/src/middleware/auth.ts:10-42 | the request passes iff no key is configured or the header equals it; otherwise a 401 saying which check failed |
| Auth.OptionalAuth | server/src/middleware/auth.ts:48-60 | never refuses, and marks the request authenticated iff a header matches the key |
| Auth.OptionalAgreesWithStrict | server/src/middleware/auth.ts:10-60 | an optionally authenticated request passes the strict check too |
| Auth.MissingHeaderRefused | server/src/middleware/auth.ts:21-27 | with a key configured, a missing or empty header is refused |
| Validation.TypeName | server/src/middleware/validation.ts:33-54 | the reported type is "string" exactly for strings and "object" for objects |
| Validation.UuidIssues | server/src/middleware/validation.ts:34 | no issue iff the field is a UUID string |
| Validation.MessageIssues | server/src/middleware/validation.ts:35-37 | no issue iff the message is a string of 1 to 4000 characters |
| Validation.OptionalStringIssues | server/src/middleware/validation.ts:38 | no issue iff the field is absent or a string |
| Validation.OptionalRecordIssues | server/src/middleware/validation.ts:46 | no issue iff the field is absent or an object |
| Validation.TypeIssue | server/src/middleware/validation.ts:17-20 | a wrong-type issue stays at its field's path, and its message begins "Expected <type>" and ends with the received type's name |
| Validation.SchemaIssues | server/src/middleware/validation.ts:33-54 | a non-object is one "Expected object" issue at the empty path; otherwise at most one issue per schema key, each at a key the schema names |
| Validation.ChatRequestAccepted | server/src/middleware/validation.ts:33-39 | a chat request is accepted iff all three fields are of the right form |
| Validation.CreateSessionAccepted | server/src/middleware/validation.ts:44-47 | session creation accepts exactly objects with well-typed optional fields |
| Validation.UuidParamAccepted | server/src/middleware/validation.ts:52-54 | a path parameter is accepted iff its id is a UUID |
| Validation.MessageLengthBounds | server/src/middleware/validation.ts:35-37 | 4000 characters pass; 4001 and 0 get their messages |
| Validation.Parse | server/src/middleware/validation.ts:13-14 | parsing succeeds iff there are no issues, and a failure carries them |
| Validation.Validate | server/src/middleware/validation.ts:9-28 | next() for a valid request, a 400 ValidationError with the issues for an invalid one, other errors forwarded |
| Validation.RejectionCarriesIssues | server/src/middleware/validation.ts:16-22 | a rejection is a 400 VALIDATION_ERROR listing at least one issue |
| BackendErrors.MessageOf | chatbot-backend/src/middleware/errorHandler.ts:47 | an application error yields its own message; anything else thrown yields its message property, absent when it has none |
| BackendErrors.Shown | chatbot-backend/src/middleware/errorHandler.ts:49 | details appear iff they are truthy |
| BackendErrors.Internal | chatbot-backend/src/middleware/errorHandler.ts:51-62 | a 500 INTERNAL_ERROR whose message is hidden in production |
| BackendErrors.HandleError | chatbot-backend/src/middleware/errorHandler.ts:9-63 | an operational AppError keeps status, message, code and details; anything else is internal |
| BackendErrors.SubclassErrorsKeepStatus | chatbot-backend/src/middleware/errorHandler.ts:44-50 | every subclass error is answered with its class's status and code |
| BackendErrors.NonOperationalIsInternal | chatbot-backend/src/middleware/errorHandler.ts:51-62 | a non-operational AppError is answered as internal |
| BackendErrors.ValidationShowsIssues | chatbot-backend/src/middleware/errorHandler.ts:44-50 | a validation failure is a 400 listing its issues |
| BackendErrors.NotFoundRoute | chatbot-backend/src/middleware/errorHandler.ts:68-79 | a 404 NOT_FOUND naming the method and path |
| BackendErrors.AsyncHandler | chatbot-backend/src/middleware/errorHandler.ts:84-90 | a rejection goes to next, a resolution does not |
| BackendErrors.Respond | chatbot-backend/src/middleware/errorHandler.ts:84-90 | a handler's own reply, or the error handler's answer to its rejection |
| ServerErrors.LooksLikeAppError | server/src/middleware/errorHandler.ts:16 | every AppError is recognised; any other thrown value iff both `status` and `isOperational` are defined |
| ServerErrors.HandleError | server/src/middleware/errorHandler.ts:9-68 | anything with a status and isOperational keeps its status; anything else is internal |
| ServerErrors.HandlersAgree | server/src/middleware/errorHandler.ts:48-66 | both handlers answer alike for operational AppErrors and for unrecognised errors |
| ServerErrors.HandlersDisagreeOnNonOperational | server/src/middleware/errorHandler.ts:48-55 | they differ on a non-operational AppError that is not a 500 |
| ServerErrors.DuckTypedObjectKeepsStatus | server/src/middleware/errorHandler.ts:48-55 | a plain object with status and isOperational keeps its status here but not in the backend |
| ServerErrors.NotFoundRoute | server/src/middleware/errorHandler.ts:73-84 | the same 404 as the backend's |
| Config.IsSpace | chatbot-backend/src/config/index.ts:13 | the white space `parseInt` skips: the space, no-break space, byte-order mark and line feed are in it; no digit or sign is |
| Config.TrimStart | chatbot-backend/src/config/index.ts:13 | drops the leading ECMAScript white space (including no-break, byte-order-mark, separator and Zs spaces) and nothing else |
| Config.ReadSigned | chatbot-backend/src/config/index.ts:13 | after the white space: NaN iff no digit follows the optional sign |
| Config.DigitPrefix | chatbot-backend/src/config/index.ts:13 | the longest run of digits at the start |
| Config.ParseInt | chatbot-backend/src/config/index.ts:13 | `parseInt` fails iff no digit follows the optional sign after leading spaces |
| Config.DigitsOfNumeral | chatbot-backend/src/config/index.ts:13 | a numeral is all digits and reads back as its number |
| Config.DigitPrefixOfNumeral | chatbot-backend/src/config/index.ts:13 | the digit run of a numeral followed by a non-digit is the numeral |
| Config.ParseUnsigned | chatbot-backend/src/config/index.ts:13 | digits followed by a non-digit parse to their value |
| Config.ParseNegative | chatbot-backend/src/config/index.ts:13 | a minus sign negates the value |
| Config.ReadsNegativeNumeral | chatbot-backend/src/config/index.ts:13 | parseInt reads back a negative integer's numeral, sign included |
| Config.ReadsNaturalNumeral | chatbot-backend/src/config/index.ts:13 | parseInt reads back a non-negative integer's numeral |
| Config.ParseIntReadsNumeral | chatbot-backend/src/config/index.ts:13 | parseInt reads back any integer's numeral, whatever non-digit follows |
| Config.EnvGet | chatbot-backend/src/config/index.ts:64 | a bare `process.env` read: present iff set, with the set value, and non-empty iff the variable counts as present |
| Config.EnvOr | chatbot-backend/src/config/index.ts:42 | the variable when set and non-empty, otherwise the fallback |
| Config.GetEnvAsInt | chatbot-backend/src/config/index.ts:10-15 | the parsed value when the variable is set and parses, otherwise the default |
| Config.TrimStartSkips | chatbot-backend/src/config/index.ts:13 | any run of leading white space is dropped whole |
| Config.ParseIntSkipsSpaces | chatbot-backend/src/config/index.ts:13 | leading white space does not change what `parseInt` reads |
| Config.NoBreakSpaceBeforeNumber | chatbot-backend/src/config/index.ts:10-15 | a numeral after a no-break space still reads back as its integer |
| Config.GetEnvAsIntReadsNumeral | chatbot-backend/src/config/index.ts:10-15 | a variable set to an integer's numeral reads back as that integer |
| Config.GetEnvAsBool | chatbot-backend/src/config/index.ts:30-34 | true iff the variable lower-cases to "true"; the default when unset |
| Config.GetEnvAsBoolSpellings | chatbot-backend/src/config/index.ts:30-34 | "TRUE" and "True" are true; "1" and "yes" are false |
| Config.Load | chatbot-backend/src/config/index.ts:41-86 | every field but the two floats is read from its own variable with the source's default, the notification address falling back to EMAIL_USER |
| Config.Defaults | chatbot-backend/src/config/index.ts:41-86 | an empty environment gives port 8080, pool 2 to 10, expiry 24, window 10, development mode |
| Config.Problems | chatbot-backend/src/config/index.ts:95-104 | in production, a missing project, missing database URL or development secret is each reported; outside production nothing is |
| Config.ValidateConfig | chatbot-backend/src/config/index.ts:91-109 | throws iff there is a problem, with every problem on its own line after the heading |
| Config.ProductionNeedsAllThree | chatbot-backend/src/config/index.ts:91-109 | a bare production environment reports all three problems in order |
| SendMail.TruthyValue | public/send_mail.php:15-17 | `!$data`: non-JSON and null are falsy, a string by PHP's rule, arrays and objects iff non-empty |
| SendMail.ScalarText | public/send_mail.php:23-27 | PHP's string conversion: a string is itself, null and false are "", arrays and objects have none |
| SendMail.Stripped | public/send_mail.php:23-27 | `strip_tags($data[k] ?? d)`: the stripped default when unset, the stripped string when one is given, and a fatal error exactly for an array or object |
| SendMail.Lookup | public/send_mail.php:23-27 | `??` finds only a present, non-null field of an object |
| SendMail.FilteredEmail | public/send_mail.php:24 | an address is kept only when the filter accepts it |
| SendMail.ReadForm | public/send_mail.php:23-27 | an empty object reads as the defaults "Unknown" and "Website Inquiry" with empty message and service |
| SendMail.SubjectFor | public/send_mail.php:36 | a booking subject when a service is named, an inquiry subject otherwise |
| SendMail.BodyLines | public/send_mail.php:38-48 | eight lines: name, address, service or else subject, and the message under its heading |
| SendMail.UnlinesAppend | public/send_mail.php:38-48 | appending a line adds it and a newline |
| SendMail.UnlinesLayout | public/send_mail.php:38-48 | every line sits, newline-terminated, after the lines before it |
| SendMail.OpeningLines | public/send_mail.php:38-40 | the first concatenation is the body's first four lines |
| SendMail.ClosingLines | public/send_mail.php:48 | the last append adds the blank line, heading and message |
| SendMail.BodyFraming | public/send_mail.php:38-48 | the body opens with the introduction and ends with the message |
| SendMail.MailFor | public/send_mail.php:35-51 | the mail goes to the fixed address with replies to the sender |
| SendMail.Compose | public/send_mail.php:35-51 | the body built by appends is the eight lines, each ended by a newline |
| SendMail.Handle | public/send_mail.php:8-62 | OPTIONS 200, other methods 405, falsy JSON 400, no valid address 400 with no mail, otherwise the mail is sent and 200 or 500 follows mail()'s result |
| SendMail.ServiceZeroIsAnInquiry | public/send_mail.php:36-46 | a service "0" yields the inquiry subject and the subject line |
| SendMail.EmptyObjectIsInvalid | public/send_mail.php:17 | an empty object or non-JSON is refused, a non-empty object is not |

## Left out

- Logging, timing and the Gemini client set-up are not modelled: the Vertex AI client, the safety settings, the system prompt and `startChat`. The model's answer is a parameter.
- The 30-second race in `withTimeout` is not modelled. A timeout is one of the model's possible outcomes.
- Loading the portfolio file is not modelled; the projects are a constant of the service.
- The service's `healthCheck` and the health controllers are left out because they only probe external services.
- `getEnvAsFloat`, temperature and topP are left out because the model has no floating point.
- Numbers are integers throughout. `parseInt` is exact, with no precision loss for large numerals.
- String lengths count characters, not UTF-16 code units. `toLowerCase` is modelled for ASCII letters only. White space for `parseInt` is the ECMAScript set as of Unicode 15.
- The UUID validator, the e-mail filter and `strip_tags` are parameters, not implementations.
- `cleanup_expired_sessions()` is a database function. It is modelled as deleting rows whose expiry is before now, and its deleted count is computed as such.
- Rows returned by `SELECT` without `ORDER BY` are taken in table order.
- Messages reads `ORDER BY created_at` (messageRepository.ts:120, 150, 232) as insertion order. This assumes the clock never goes back between inserts and breaks ties by insertion order, which PostgreSQL does not promise. Ties do occur: the user and assistant rows of one turn carry the same time here, where the source takes two separate `NOW()` values, and a batch's rows share one time. Sessions, by contrast, sorts by `createdAt` and keeps table order only among equal times.
- A session object shared with callers is not aliased. An update produces a new session value, so a caller's earlier reference does not see the change.
- The in-memory Map is a sequence of entries in insertion order. `map.set` replaces in place, as a Map does.
- The batch insert's `BEGIN`, `COMMIT` and `ROLLBACK` are assumed to succeed. Only the client and the inserts can fail.
- An API-key header that arrives as an array is not modelled.
- The validation middleware's branch for errors that are not Zod errors cannot be reached with these schemas. It is modelled, but nothing produces it.
- The lead notification e-mail and the e-mail service are not modelled; only what the services hand them is recorded.
- The mail relay's CORS and content-type headers are left out, as is reading `php://input`. The decoded JSON is a parameter.
- Errors.Detail: error `details` other than validation issues are kept only as a truthy summary (`Cause`). Gemini.Interpret attaches `Cause("safetyRatings")` where the source attaches the safety ratings (or the prompt feedback's ratings, which the model's answer does not carry), and Gemini.Classify, Store.QueryError and Store.Wrapped attach the caught error's message where the source attaches the error object. The error middleware therefore shows these details as present but not their content.
- SendMail.Handle: a PHP fatal error (an array passed where `strip_tags` expects a string) is a crash with no JSON body. Its exact status and output are left to the PHP runtime.
