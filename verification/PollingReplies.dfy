/**
 What the polling machine reads off a reply.  The payload is JSON of any shape, and Python's
 `key in value` followed by `value[key]` raises for some of the shapes: for numbers, for booleans and
 `null`, and for texts and lists that contain the key.
 */
module PollingReplies {
  import opened Options
  import opened TopicLevels

  /** A JSON value; `text` is what Python's `str` makes of it. */
  datatype Json =
    | Null
    | Scalar(text: string)   // a number, `true` or `false`
    | Text(text: string)
    | List(elements: seq<Json>, text: string)
    | Object(members: map<string, Json>, text: string)

  /** The payload of a reply; `Unparsable` is what json.loads rejects. */
  datatype Body = Unparsable | Parsed(value: Json)

  /** The `retry-after` of a reply's topic, as `int` reads it. */
  datatype RetryAfter = Absent | Seconds(count: int) | Malformed

  datatype Raised = TypeError

  function Str(value: Json): string {
    if value.Null? then "None" else value.text
  }

  /** `None if key not in value else value[key]` */
  function Member(value: Json, key: string): Result<Option<Json>, Raised> {
    match value
    case Object(members, _) => Ok(if key in members then Some(members[key]) else None)
    case Text(text) => if Contains(text, key) then Err(TypeError) else Ok(None)
    case List(elements, _) => if Text(key) in elements then Err(TypeError) else Ok(None)
    case Null => Err(TypeError)
    case Scalar(_) => Err(TypeError)
  }

  /** `None if key not in value else str(value[key])` */
  function MemberText(value: Json, key: string): Result<Option<string>, Raised> {
    match Member(value, key)
    case Err(raised) => Err(raised)
    case Ok(None) => Ok(None)
    case Ok(Some(member)) => Ok(Some(Str(member)))
  }

  const STATE_KEYS := ["deviceId", "assignedHub", "substatus", "createdDateTimeUtc", "lastUpdatedDateTimeUtc", "etag"]

  /** _decode_complete_json_response comes to its end. */
  predicate CompletionDecodes(value: Json) {
    match Member(value, "registrationState")
    case Err(_) => false
    case Ok(None) => true
    case Ok(Some(state)) => state.Null? || forall key <- STATE_KEYS :: Member(state, key).Ok?
  }

  /** The outcome of decoding: an exception, or the two texts and whether the completion can be decoded too. */
  datatype Reply =
    | Undecodable
    | Decoded(operation: Option<string>, status: Option<string>, completes: bool)

  /** _decode_json_response */
  function Read(body: Body): Reply {
    if body.Unparsable? then Undecodable
    else
      match (MemberText(body.value, "operationId"), MemberText(body.value, "status"))
      case (Ok(operation), Ok(status)) => Decoded(operation, status, CompletionDecodes(body.value))
      case _ => Undecodable
  }

  /** The shapes on which looking up `key` does not raise. */
  predicate Readable(value: Json, key: string) {
    value.Object? ||
    (value.Text? && !Contains(value.text, key)) ||
    (value.List? && Text(key) !in value.elements)
  }

  lemma MemberReadsIff(value: Json, key: string)
    ensures MemberText(value, key).Ok? <==> Readable(value, key)
    ensures Member(value, key).Ok? <==> Readable(value, key)
    ensures !value.Object? && Readable(value, key) ==> MemberText(value, key) == Ok(None)
  {
  }

  /** Decoding raises exactly for payloads that are not JSON, or of a shape on which one of the lookups raises. */
  lemma UndecodableIff(body: Body)
    ensures Read(body).Undecodable? <==>
            body.Unparsable? || !Readable(body.value, "operationId") || !Readable(body.value, "status")
  {
    if body.Parsed? {
      MemberReadsIff(body.value, "operationId");
      MemberReadsIff(body.value, "status");
    }
  }

  /**
   An assigned or failed registration comes in an object, and its completion decodes exactly when the
   registration state is absent, null, or of a shape on which none of the six lookups raises.
   */
  lemma CompletesIff(body: Body)
    requires Read(body).Decoded? && Read(body).status.Some?
    ensures body.value.Object?
    ensures var members := body.value.members;
            Read(body).completes <==>
            "registrationState" !in members || members["registrationState"].Null? ||
            forall key <- STATE_KEYS :: Readable(members["registrationState"], key)
  {
    UndecodableIff(body);
    MemberReadsIff(body.value, "status");
    var members := body.value.members;
    if "registrationState" in members {
      forall key <- STATE_KEYS
        ensures Member(members["registrationState"], key).Ok? <==> Readable(members["registrationState"], key)
      {
        MemberReadsIff(members["registrationState"], key);
      }
    }
  }
}
