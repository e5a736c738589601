/** JSON values as they travel over HTTP and the real-time channel, with the
    JavaScript notions (`v.key`, truthiness) the client and server apply to them. */
module Wire {
  import opened Wrappers

  datatype Json =
    | JNull
    | JBool(b: bool)
    | JNum(n: int)
    | JStr(s: string)
    | JArr(items: seq<Json>)
    | JObj(fields: map<string, Json>)

  /** `v.key`: None is JavaScript's `undefined`. */
  function Get(v: Json, key: string): Option<Json> {
    if v.JObj? && key in v.fields then Some(v.fields[key]) else None
  }

  /** `v.key` read as a number, 0 when it is not one. */
  function NumAt(v: Json, key: string): int {
    match Get(v, key)
    case Some(JNum(n)) => n
    case _ => 0
  }

  /** The keys of an object value (none for any other value). */
  function Keys(v: Json): set<string> {
    if v.JObj? then v.fields.Keys else {}
  }

  /** JavaScript truthiness of a value that may be `undefined`. */
  predicate Truthy(v: Option<Json>) {
    match v
    case None => false
    case Some(j) =>
      match j
      case JNull => false
      case JBool(b) => b
      case JNum(n) => n != 0
      case JStr(s) => s != ""
      case _ => true
  }

  /** The string inside `v` when it is a string value. */
  function AsString(v: Option<Json>): Option<string> {
    if v.Some? && v.value.JStr? then Some(v.value.s) else None
  }
}

/** Express responses and middleware steps. */
module Http {
  import opened Wrappers
  import opened Wire

  datatype Body = Empty | JsonBody(value: Json)

  /** What a handler does with a request: writes a reply, or passes an
      exception to the application's error handler with `next(error)`
      (the error handler itself is not part of this model). */
  datatype Response = Reply(status: nat, body: Body) | ToErrorHandler

  /** `res.status(status).json({ success: false, error: message })`. */
  function Failure(status: nat, message: string): Response {
    Reply(status, JsonBody(JObj(map["success" := JBool(false), "error" := JStr(message)])))
  }

  /** `res.status(status).json({ success: true, data })`. */
  function Success(status: nat, data: Json): Response {
    Reply(status, JsonBody(JObj(map["success" := JBool(true), "data" := data])))
  }

  /** Two success replies with the same status are equal only over equal data. */
  lemma SuccessData(status: nat, a: Json, b: Json)
    requires Success(status, a) == Success(status, b)
    ensures a == b
  {
    assert Get(Success(status, a).body.value, "data") == Some(a);
  }

  /** The effect of one middleware: how many times it called `next`, and the
      response it wrote, if any. */
  datatype Step = Step(nextCalls: nat, response: Option<Response>)
}
