/**
  The response helpers of internal/handler/errors.go. Each one picks a status
  and a message and hands them to errorResponse, which sends the JSON body
  {"error": message}; when sending fails it logs and answers a bare 500.
  A response is returned as a value instead of being written.
*/
module Responses {
  import opened Wrappers

  datatype Body =
    | NoBody
    | ErrorBody(error: string)                              // {"error": ...}
    | TokenPair(accessToken: string, refreshToken: string)  // {"accessToken": ..., "refreshToken": ...}

  datatype Response = Response(status: int, body: Body)

  /** The http.ResponseWriter as the helpers see it: whether sendJSON fails on it. */
  datatype Writer = Writer(sendFails: bool)

  const StatusOK: int := 200
  const StatusBadRequest: int := 400
  const StatusUnauthorized: int := 401
  const StatusForbidden: int := 403
  const StatusNotFound: int := 404
  const StatusMethodNotAllowed: int := 405
  const StatusUnprocessableEntity: int := 422
  const StatusInternalServerError: int := 500

  const InternalErrorMessage: string := "the server encountered a problem and could not process your request"
  const UnauthorizedMessage: string := "you need to authorize to reach this resource"

  /** sendJSON(w, body, status): the response written, or None when writing fails. */
  function SendJSON(w: Writer, body: Body, status: int): (r: Option<Response>)
    ensures r.Some? <==> !w.sendFails
    ensures r.Some? ==> r.value == Response(status, body)
  {
    if w.sendFails then None else Some(Response(status, body))
  }

  /** errorResponse: the message under "error" with the given status, or a bare 500 when sending fails. */
  function ErrorResponse(w: Writer, status: int, message: string): (r: Response)
    ensures !w.sendFails ==> r == Response(status, ErrorBody(message))
    ensures w.sendFails ==> r == Response(StatusInternalServerError, NoBody)
  {
    match SendJSON(w, ErrorBody(message), status)
    case Some(written) => written
    case None => Response(StatusInternalServerError, NoBody)
  }

  /** internalErrorResponse: 500 with a fixed message; the cause is only logged. */
  function InternalErrorResponse(w: Writer, cause: string): (r: Response)
    ensures r.status == StatusInternalServerError
    ensures r.body.ErrorBody? ==> r.body.error == InternalErrorMessage
  {
    ErrorResponse(w, StatusInternalServerError, InternalErrorMessage)
  }

  /** notFoundResponse: 404. */
  function NotFoundResponse(w: Writer): (r: Response)
    ensures !w.sendFails ==> r == Response(StatusNotFound, ErrorBody("the requested resource could not be found"))
  {
    ErrorResponse(w, StatusNotFound, "the requested resource could not be found")
  }

  /** methodNotAllowedResponse: 405, naming the request method. */
  function MethodNotAllowedResponse(w: Writer, httpMethod: string): (r: Response)
    ensures !w.sendFails ==> r.status == StatusMethodNotAllowed
    ensures !w.sendFails ==> r.body == ErrorBody("the " + httpMethod + " method is not supported for this resource")
  {
    ErrorResponse(w, StatusMethodNotAllowed, "the " + httpMethod + " method is not supported for this resource")
  }

  /** badRequestResponse: 400 with the error's own text (its doc comment says 404). */
  function BadRequestResponse(w: Writer, errText: string): (r: Response)
    ensures !w.sendFails ==> r == Response(StatusBadRequest, ErrorBody(errText))
  {
    ErrorResponse(w, StatusBadRequest, errText)
  }

  /** recordNotFoundResponse: 400, not the 404 its doc comment promises, with "record not found". */
  function RecordNotFoundResponse(w: Writer): (r: Response)
    ensures !w.sendFails ==> r == Response(StatusBadRequest, ErrorBody("record not found"))
  {
    ErrorResponse(w, StatusBadRequest, "record not found")
  }

  /** invalidRequestBodyResponse: 422. */
  function InvalidRequestBodyResponse(w: Writer): (r: Response)
    ensures !w.sendFails ==> r == Response(StatusUnprocessableEntity, ErrorBody("invalid request body"))
  {
    ErrorResponse(w, StatusUnprocessableEntity, "invalid request body")
  }

  /** unauthorizedResponse: 401 with a fixed message. */
  function UnauthorizedResponse(w: Writer): (r: Response)
    ensures !w.sendFails ==> r == Response(StatusUnauthorized, ErrorBody(UnauthorizedMessage))
  {
    ErrorResponse(w, StatusUnauthorized, UnauthorizedMessage)
  }

  /** The client of a 500 never learns the cause: two causes give the same response. */
  lemma InternalErrorHidesCause(w: Writer, cause1: string, cause2: string)
    ensures InternalErrorResponse(w, cause1) == InternalErrorResponse(w, cause2)
  {
  }

  /** No helper answers 2xx, and every one of them collapses to a bare 500 when sending fails. */
  lemma HelpersAreErrors(w: Writer, status: int, message: string, httpMethod: string)
    requires status >= 400
    ensures ErrorResponse(w, status, message).status >= 400
    ensures UnauthorizedResponse(w).status >= 400 && NotFoundResponse(w).status >= 400
    ensures BadRequestResponse(w, message).status >= 400 && RecordNotFoundResponse(w).status >= 400
    ensures InvalidRequestBodyResponse(w).status >= 400 && MethodNotAllowedResponse(w, httpMethod).status >= 400
    ensures w.sendFails ==> UnauthorizedResponse(w) == Response(StatusInternalServerError, NoBody)
    ensures w.sendFails ==> ErrorResponse(w, status, message) == Response(StatusInternalServerError, NoBody)
    ensures w.sendFails ==> InternalErrorResponse(w, message) == Response(StatusInternalServerError, NoBody)
    ensures w.sendFails ==> NotFoundResponse(w) == Response(StatusInternalServerError, NoBody)
    ensures w.sendFails ==> MethodNotAllowedResponse(w, httpMethod) == Response(StatusInternalServerError, NoBody)
    ensures w.sendFails ==> BadRequestResponse(w, message) == Response(StatusInternalServerError, NoBody)
    ensures w.sendFails ==> RecordNotFoundResponse(w) == Response(StatusInternalServerError, NoBody)
    ensures w.sendFails ==> InvalidRequestBodyResponse(w) == Response(StatusInternalServerError, NoBody)
  {
  }
}
