/**
 * The small part of net/http the modelled handlers rely on: status codes
 * (section 15 of RFC 9110), request method names, and a response as a
 * status plus a body.
 */
module Http {

  const StatusOK := 200
  const StatusCreated := 201
  const StatusBadRequest := 400
  const StatusUnauthorized := 401
  const StatusNotFound := 404
  const StatusMethodNotAllowed := 405
  const StatusConflict := 409
  const StatusInternalServerError := 500

  const MethodGet := "GET"
  const MethodPost := "POST"
  const MethodPut := "PUT"
  const MethodDelete := "DELETE"

  /** What a handler writes after the status line. */
  datatype Body =
    | NoBody
      // a JSON object of string fields, as json.Marshal of a map[string]string
    | JsonObject(fields: map<string, string>)
      // bytes produced by an encoder the model does not see
    | Encoded(bytes: string)
      // plain text, as written by http.Error
    | Text(text: string)

  datatype Response = Response(status: int, body: Body)

  /** http.Error: the given status and the message followed by a newline. */
  function PlainError(message: string, code: int): (r: Response)
    ensures r.status == code
    ensures r.body == Text(message + "\n")
  {
    Response(code, Text(message + "\n"))
  }
}
