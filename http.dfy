/**
 * The request and response vocabulary shared by every handler of the server.
 * A query-string or form parameter is either missing or a piece of text; a reply is
 * a redirect or a status with a body.
 */
module Http {
  /** A request parameter as the handlers read it from `req.query` or `req.body`. */
  datatype Param = Absent | Text(text: string)

  /** JavaScript truthiness of a parameter: `undefined` and `''` are falsy, every other string is truthy. */
  predicate Truthy(p: Param)
  {
    p.Text? && p.text != ""
  }

  /** `p || fallback`: the parameter's text when it is truthy, otherwise the fallback. */
  function OrElse(p: Param, fallback: string): (r: string)
    ensures Truthy(p) ==> r == p.text
    ensures !Truthy(p) ==> r == fallback
  {
    if Truthy(p) then p.text else fallback
  }

  /** The body of a response: a bare text message, or an HTML page reduced to its heading. */
  datatype Body = Message(text: string) | Page(heading: string)

  /** What a request handler answers with. */
  datatype Reply = Redirect(location: string) | Send(status: nat, body: Body)

  /** Text the server uses for failures of the database protocol itself. */
  const ProcessingError := "Error al procesar la solicitud"
  /** Text of every required-field rejection. */
  const MissingFields := "Faltan datos en el formulario"
  /** Text of every role rejection. */
  const NotAuthorized := "no autorizado."

  /**
   * The required-field check of the form handlers: every listed field is truthy.
   * The handlers write it as `!a || !b || ...` and reject when that holds.
   */
  function AllTruthy(fields: seq<Param>): (ok: bool)
    ensures ok <==> forall i :: 0 <= i < |fields| ==> Truthy(fields[i])
  {
    if fields == [] then true else Truthy(fields[0]) && AllTruthy(fields[1..])
  }
}
