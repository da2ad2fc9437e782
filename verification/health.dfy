/** The `/api/health` handler. */
module HealthReporter {
  import opened Wrappers
  import Json
  import Http

  /** `{status: "ok", timestamp}` with status 200; the clock reading is a parameter. */
  function HandleHealth(timestamp: string): (r: Http.Response)
    ensures r.status == 200 && r.body.JsonBody?
    ensures Json.Prop(r.body.value, "status") == Some(Json.Str("ok"))
    ensures Json.Prop(r.body.value, "timestamp") == Some(Json.Str(timestamp))
  {
    Http.Response(200, Http.JsonBody(Json.Obj(map["status" := Json.Str("ok"), "timestamp" := Json.Str(timestamp)])))
  }
}
