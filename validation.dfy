/** Request validation (server/src/middleware/validation.ts): three object
    schemas and the middleware that turns a schema's issues into a
    ValidationError. The UUID test is the schema library's own and is a
    parameter here. */
module Validation {
  import opened Common
  import opened Errors

  /** The type name the schema library reports for a value it did not expect. */
  function TypeName(j: Json): (name: string)
    ensures name != "string" <==> !j.JStr?
    ensures name == "object" <==> j.JObj?
  {
    match j
    case JNull => "null"
    case JBool(_) => "boolean"
    case JNum(_) => "number"
    case JStr(_) => "string"
    case JArr(_) => "array"
    case JObj(_) => "object"
  }

  /** The issue for a value of the wrong type: it stays at `path`, and its
      message names the expected type first and the received type last. */
  function TypeIssue(path: string, expected: string, received: Json): (i: IssueDetail)
    ensures i.path == path
    ensures |i.message| == 20 + |expected| + |TypeName(received)|
    ensures i.message[..9 + |expected|] == "Expected " + expected
    ensures i.message[|i.message| - |TypeName(received)|..] == TypeName(received)
  {
    IssueDetail(path, "Expected " + expected + ", received " + TypeName(received))
  }

  const Required: string := "Required"

  /** The field `key` of an object, absent when not present. */
  function Field(fields: map<string, Json>, key: string): Option<Json> {
    if key in fields then Some(fields[key]) else None
  }

  /** `z.string().uuid(message)` on a required field. */
  function UuidIssues(key: string, v: Option<Json>, message: string, isUuid: string -> bool): (r: seq<IssueDetail>)
    ensures r == [] <==> v.Some? && v.value.JStr? && isUuid(v.value.s)
    ensures |r| <= 1
    ensures forall i :: 0 <= i < |r| ==> r[i].path == key
  {
    match v
    case None => [IssueDetail(key, Required)]
    case Some(JStr(s)) => if isUuid(s) then [] else [IssueDetail(key, message)]
    case Some(j) => [TypeIssue(key, "string", j)]
  }

  const EmptyMessage: string := "Message cannot be empty"
  const LongMessage: string := "Message too long (max 4000 characters)"
  const MaxMessageLength: int := 4000

  /** `z.string().min(1, ...).max(4000, ...)`. */
  function MessageIssues(v: Option<Json>): (r: seq<IssueDetail>)
    ensures r == [] <==> v.Some? && v.value.JStr? && 1 <= |v.value.s| <= MaxMessageLength
    ensures |r| <= 1 && forall i :: 0 <= i < |r| ==> r[i].path == "message"
  {
    match v
    case None => [IssueDetail("message", Required)]
    case Some(JStr(s)) =>
      if |s| < 1 then [IssueDetail("message", EmptyMessage)]
      else if |s| > MaxMessageLength then [IssueDetail("message", LongMessage)]
      else []
    case Some(j) => [TypeIssue("message", "string", j)]
  }

  /** `z.string().optional()`. */
  function OptionalStringIssues(key: string, v: Option<Json>): (r: seq<IssueDetail>)
    ensures r == [] <==> v.None? || v.value.JStr?
    ensures |r| <= 1 && forall i :: 0 <= i < |r| ==> r[i].path == key
  {
    match v
    case None => []
    case Some(JStr(_)) => []
    case Some(j) => [TypeIssue(key, "string", j)]
  }

  /** `z.record(z.unknown()).optional()`: any object, or nothing. */
  function OptionalRecordIssues(key: string, v: Option<Json>): (r: seq<IssueDetail>)
    ensures r == [] <==> v.None? || v.value.JObj?
    ensures |r| <= 1 && forall i :: 0 <= i < |r| ==> r[i].path == key
  {
    match v
    case None => []
    case Some(JObj(_)) => []
    case Some(j) => [TypeIssue(key, "object", j)]
  }

  /** The schemas of the API. */
  datatype Schema = ChatRequestSchema | CreateSessionSchema | UuidParamSchema

  /** The keys a schema names, in its order. */
  function SchemaKeys(schema: Schema): seq<string> {
    match schema
    case ChatRequestSchema => ["sessionId", "message", "userId"]
    case CreateSessionSchema => ["userId", "metadata"]
    case UuidParamSchema => ["id"]
  }

  /** The issues `schema.parse(data)` reports, field by field in the
      schema's order; a value that is not an object is one issue at the
      empty path. Keys the schema does not name are ignored. */
  function SchemaIssues(schema: Schema, data: Json, isUuid: string -> bool): (r: seq<IssueDetail>)
    ensures !data.JObj? ==> |r| == 1 && r[0].path == "" && r[0].message == "Expected object, received " + TypeName(data)
    ensures data.JObj? ==> |r| <= |SchemaKeys(schema)|
    ensures data.JObj? ==> forall i :: 0 <= i < |r| ==> r[i].path in SchemaKeys(schema)
  {
    if !data.JObj? then [TypeIssue("", "object", data)]
    else
      var f := data.fields;
      match schema
      case ChatRequestSchema =>
        UuidIssues("sessionId", Field(f, "sessionId"), "Invalid session ID format", isUuid)
          + MessageIssues(Field(f, "message"))
          + OptionalStringIssues("userId", Field(f, "userId"))
      case CreateSessionSchema =>
        OptionalStringIssues("userId", Field(f, "userId"))
          + OptionalRecordIssues("metadata", Field(f, "metadata"))
      case UuidParamSchema =>
        UuidIssues("id", Field(f, "id"), "Invalid UUID format", isUuid)
  }

  /** A chat request is accepted exactly when it is an object whose
      `sessionId` is a UUID string, whose `message` is a string of 1 to 4000
      characters, and whose `userId`, if present, is a string. */
  lemma ChatRequestAccepted(data: Json, isUuid: string -> bool)
    ensures SchemaIssues(ChatRequestSchema, data, isUuid) == [] <==>
      && data.JObj?
      && "sessionId" in data.fields && data.fields["sessionId"].JStr? && isUuid(data.fields["sessionId"].s)
      && "message" in data.fields && data.fields["message"].JStr?
      && 1 <= |data.fields["message"].s| <= MaxMessageLength
      && ("userId" in data.fields ==> data.fields["userId"].JStr?)
  {
  }

  /** Session creation accepts any object whose `userId`, if present, is a
      string and whose `metadata`, if present, is an object; the empty
      object in particular. */
  lemma CreateSessionAccepted(data: Json, isUuid: string -> bool)
    ensures SchemaIssues(CreateSessionSchema, data, isUuid) == [] <==>
      && data.JObj?
      && ("userId" in data.fields ==> data.fields["userId"].JStr?)
      && ("metadata" in data.fields ==> data.fields["metadata"].JObj?)
    ensures SchemaIssues(CreateSessionSchema, JObj(map[]), isUuid) == []
  {
  }

  /** A path parameter object is accepted exactly when its `id` is a UUID string. */
  lemma UuidParamAccepted(data: Json, isUuid: string -> bool)
    ensures SchemaIssues(UuidParamSchema, data, isUuid) == [] <==>
      data.JObj? && "id" in data.fields && data.fields["id"].JStr? && isUuid(data.fields["id"].s)
  {
  }

  /** Boundary lengths of a chat message. */
  lemma MessageLengthBounds(sid: string, isUuid: string -> bool)
    requires isUuid(sid)
    ensures var at := map["sessionId" := JStr(sid), "message" := JStr(seq(4000, _ => 'a'))];
      SchemaIssues(ChatRequestSchema, JObj(at), isUuid) == []
    ensures var over := map["sessionId" := JStr(sid), "message" := JStr(seq(4001, _ => 'a'))];
      SchemaIssues(ChatRequestSchema, JObj(over), isUuid) == [IssueDetail("message", LongMessage)]
    ensures var empty := map["sessionId" := JStr(sid), "message" := JStr("")];
      SchemaIssues(ChatRequestSchema, JObj(empty), isUuid) == [IssueDetail("message", EmptyMessage)]
  {
    var at := map["sessionId" := JStr(sid), "message" := JStr(seq(4000, _ => 'a'))];
    assert Field(at, "userId") == None;
    var over := map["sessionId" := JStr(sid), "message" := JStr(seq(4001, _ => 'a'))];
    assert Field(over, "userId") == None;
    var empty := map["sessionId" := JStr(sid), "message" := JStr("")];
    assert Field(empty, "userId") == None;
  }

  /** How `schema.parse` ends: accepted, a schema failure with its issues,
      or some other exception. */
  datatype ParseOutcome = Parsed | Rejected(issues: seq<IssueDetail>) | Crashed(error: Thrown)

  function Parse(schema: Schema, data: Json, isUuid: string -> bool): (p: ParseOutcome)
    ensures p.Parsed? <==> SchemaIssues(schema, data, isUuid) == []
    ensures p.Rejected? ==> p.issues == SchemaIssues(schema, data, isUuid)
    ensures !p.Crashed?
  {
    var issues := SchemaIssues(schema, data, isUuid);
    if issues == [] then Parsed else Rejected(issues)
  }

  /** `validate(schema, source)` once the selected request part has been
      parsed: the argument it passes to `next`. */
  function Validate(p: ParseOutcome): (next: Option<Thrown>)
    ensures next.None? <==> p.Parsed?
    ensures p.Rejected? ==>
      next == Some(App(ValidationError("Validation failed", Some(Issues(p.issues)))))
    ensures p.Crashed? ==> next == Some(p.error)
  {
    match p
    case Parsed => None
    case Rejected(issues) => Some(App(ValidationError("Validation failed", Some(Issues(issues)))))
    case Crashed(e) => Some(e)
  }

  /** A schema failure is a 400 whose details list every issue, in order. */
  lemma RejectionCarriesIssues(schema: Schema, data: Json, isUuid: string -> bool)
    ensures var next := Validate(Parse(schema, data, isUuid));
      next.Some? ==>
        && next.value.App? && next.value.err.status == 400 && next.value.err.code == Some("VALIDATION_ERROR")
        && next.value.err.details == Some(Issues(SchemaIssues(schema, data, isUuid)))
        && |SchemaIssues(schema, data, isUuid)| >= 1
  {
  }
}
