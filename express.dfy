/**
 * What an Express route handler sends: a status and a JSON body. Error
 * replies carry an `error` text and, for some routes, one more field.
 */
module Express {
  import opened Js

  datatype Response = Response(status: nat, body: JsValue)

  /** `res.json(body)` */
  function Json(body: JsValue): (r: Response)
    ensures r.status == 200 && r.body == body
  {
    Response(200, body)
  }

  /** `res.status(status).json({ error })` */
  function Fail(status: nat, error: string): (r: Response)
    ensures r.status == status && Prop(r.body, "error") == Str(error)
  {
    Response(status, Obj(map["error" := Str(error)]))
  }

  /** `res.status(status).json({ error, [key]: value })` */
  function FailWith(status: nat, error: string, key: string, value: JsValue): (r: Response)
    requires key != "error"
    ensures r.status == status && Prop(r.body, "error") == Str(error) && Prop(r.body, key) == value
  {
    Response(status, Obj(map["error" := Str(error), key := value]))
  }

  predicate IsSuccess(status: int)
  {
    200 <= status < 300
  }
}
