/** What the two session endpoints share: JSON request bodies and their
    JavaScript truthiness, the save request's fields, the store operations
    and their outcomes, and responses. The database is an oracle: a function
    from a store operation to its outcome. */
module Http {
  import opened Wrappers

  /** A JSON value. Numbers are reals: JSON has no NaN, so a number is falsy
      exactly when it is zero. */
  datatype Json = JNull | JBool(b: bool) | JNum(n: real) | JStr(s: string) | JArr(items: seq<Json>) | JObj(fields: map<string, Json>)

  /** JavaScript truthiness of a property read (`None` is `undefined`):
      `undefined`, `null`, `false`, `0` and `""` are falsy; arrays and objects,
      even empty ones, are truthy. */
  predicate Truthy(v: Option<Json>) {
    match v
    case None => false
    case Some(JNull) => false
    case Some(JBool(b)) => b
    case Some(JNum(n)) => n != 0.0
    case Some(JStr(s)) => s != ""
    case Some(JArr(_)) => true
    case Some(JObj(_)) => true
  }

  /** `value.name` for a value that is not null: an object's member, and
      `undefined` for every other kind of value. */
  function Property(value: Json, name: string): Option<Json> {
    if value.JObj? && name in value.fields then Some(value.fields[name]) else None
  }

  /** The properties a save request reads. */
  datatype SaveFields = SaveFields(
    id: Option<Json>,
    topic: Option<Json>,
    questions: Option<Json>,
    selectedQuestion: Option<Json>,
    messages: Option<Json>)

  /** `const { id, topic, questions, selectedQuestion, messages } = body`:
      `None` when the body is `undefined` or `null`, where destructuring
      throws. */
  function Destructure(body: Option<Json>): (f: Option<SaveFields>)
    ensures f.None? <==> body.None? || body.value.JNull?
  {
    match body
    case None => None
    case Some(JNull) => None
    case Some(v) => Some(SaveFields(Property(v, "id"), Property(v, "topic"), Property(v, "questions"),
                                    Property(v, "selectedQuestion"), Property(v, "messages")))
  }

  /** `!topic || !questions || !selectedQuestion || !messages` is false. */
  predicate HasRequired(f: SaveFields) {
    Truthy(f.topic) && Truthy(f.questions) && Truthy(f.selectedQuestion) && Truthy(f.messages)
  }

  /** The four columns a save writes. */
  datatype SessionData = SessionData(topic: Json, questions: Json, selectedQuestion: Json, messages: Json)

  /** A write to the session table: a new row, or an update of the row with
      the given id. */
  datatype StoreOp = Create(data: SessionData) | Update(id: Json, data: SessionData)

  /** The outcome of a write: the stored row's id, or a thrown error. */
  datatype StoreResult = Stored(id: string) | StoreFailed(message: string)

  /** The write a complete save request asks for: an update of the row named
      by a truthy `id`, otherwise a new row, with exactly the four fields. */
  function SaveOp(f: SaveFields): (op: StoreOp)
    requires HasRequired(f)
    ensures op.data == SessionData(f.topic.value, f.questions.value, f.selectedQuestion.value, f.messages.value)
    ensures op.Update? <==> Truthy(f.id)
    ensures op.Update? ==> Some(op.id) == f.id
  {
    var data := SessionData(f.topic.value, f.questions.value, f.selectedQuestion.value, f.messages.value);
    if Truthy(f.id) then Update(f.id.value, data) else Create(data)
  }

  /** A request body as the server receives it: none, well-formed JSON, or
      text that does not parse (with the parser's message). */
  datatype Body = NoBody | Parsed(value: Json) | Malformed(message: string)

  /** A response body. */
  datatype Payload =
    | Empty
    | ErrorBody(error: string)
    | ErrorDetails(error: string, details: string)
    | SavedId(id: string)
    | SessionBody(data: SessionData)

  datatype Response = Response(status: int, headers: seq<(string, string)>, payload: Payload)

  const MethodNotAllowed := "Method not allowed"
  const MissingFields := "Missing required fields"
  const InternalError := "Internal server error"
  const SessionNotFound := "Session not found"
}
