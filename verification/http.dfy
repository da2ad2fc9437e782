/** The HTTP responses the relay's handlers produce. */
module Http {
  import Json
  import Repos

  /** A response body: a JSON value, or the list of project summaries of `/api/projects`. */
  datatype Body =
    | JsonBody(value: Json.Value)
    | ProjectList(items: seq<Repos.ProjectSummary>)

  /** What `res.status(status).json(body)` sends; `res.json(body)` alone sends status 200. */
  datatype Response = Response(status: int, body: Body)

  /** A response carrying `{error: message}`. */
  function ErrorResponse(status: int, message: string): Response {
    Response(status, JsonBody(Json.ErrorObject(message)))
  }
}
