/** What a handler sends back: an HTTP status and a JSON object, and the
    request/response pair that Express middlewares read and write. */
module Http {
  import opened Js

  /** A JSON value as `res.json(...)` serialises it. */
  datatype Json = JNull | JBool(b: bool) | JNum(n: int) | JStr(s: string) | JObj(fields: map<string, Json>)

  type Object = map<string, Json>

  datatype Response = Response(status: int, body: Object)

  /** A JavaScript value as a JSON value; `undefined` has no JSON form and is
      only ever passed to `With`, which leaves the key out. */
  function ToJson(v: Val): Json
  {
    match v
    case Undef => JNull
    case Null => JNull
    case Str(s) => JStr(s)
    case Num(n) => JNum(n)
    case Bool(b) => JBool(b)
  }

  /** An object literal entry `{ ..., key: v }`: `JSON.stringify` drops a key
      whose value is undefined. */
  function With(o: Object, key: string, v: Val): (r: Object)
    ensures v.Undef? ==> r == o
    ensures !v.Undef? ==> r == o[key := ToJson(v)]
  {
    if v.Undef? then o else o[key := ToJson(v)]
  }

  /** `res.status(status).json({ ok, [key]: text })`. */
  function Reply(status: int, ok: bool, key: string, text: string): Response
  {
    Response(status, map["ok" := JBool(ok), key := JStr(text)])
  }

  /** The not-found answer several handlers give: status 200 and
      `{ id, mensaje }`, with no `ok` field. */
  function Notice(id: Val, text: string): Response
  {
    Response(200, With(map["mensaje" := JStr(text)], "id", id))
  }

  /** The part of an Express request/response pair a middleware touches:
      `req.id`, the response written so far (`None` while nothing has been
      sent) and how many times `next()` was called. */
  class Exchange {
    var id: Option<int>
    var sent: Option<Response>
    var nextCalls: nat

    constructor ()
      ensures id == None && sent == None && nextCalls == 0
    {
      id := None;
      sent := None;
      nextCalls := 0;
    }
  }
}
