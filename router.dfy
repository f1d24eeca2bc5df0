/**
 * The `/device` route of Api/homework/internal/router: one switch on the
 * request method, each case a handler, anything else 405.
 */
module Router {
  import opened Http

  /** Which branch of the switch runs. */
  datatype Route =
    | ToCreate
    | ToGet
    | ToUpdate
    | ToDelete
      // http.Error is written and no handler runs
    | Rejected(response: Response)

  function Dispatch(verb: string): (r: Route)
    ensures r == ToCreate <==> verb == MethodPost
    ensures r == ToGet <==> verb == MethodGet
    ensures r == ToUpdate <==> verb == MethodPut
    ensures r == ToDelete <==> verb == MethodDelete
    ensures r.Rejected? <==> verb !in {MethodPost, MethodGet, MethodPut, MethodDelete}
    ensures r.Rejected? ==> r.response == PlainError("Invalid request method", StatusMethodNotAllowed)
  {
    match verb
    case "POST" => ToCreate
    case "GET" => ToGet
    case "PUT" => ToUpdate
    case "DELETE" => ToDelete
    case _ => Rejected(PlainError("Invalid request method", StatusMethodNotAllowed))
  }

  /** The handled methods, as a table. */
  const Routes: map<string, Route> := map[MethodPost := ToCreate, MethodGet := ToGet, MethodPut := ToUpdate, MethodDelete := ToDelete]

  /** The switch agrees with the table, and method names are matched exactly (as written, upper case). */
  lemma DispatchMatchesTable(verb: string)
    ensures verb in Routes ==> Dispatch(verb) == Routes[verb]
    ensures verb !in Routes ==> Dispatch(verb) == Rejected(PlainError("Invalid request method", 405))
    ensures Dispatch("post").Rejected? && Dispatch("Get").Rejected?
  {
  }
}
