/**
 * The structured API error: the error codes, the exception value the
 * guardrail raises, and the handler that turns it into a JSON response.
 */
module Errors {
  import opened Wrappers

  /** A JSON value, as far as error bodies and their details need one. */
  datatype Json =
    | JInt(i: int)
    | JNum(r: real)
    | JStr(s: string)
    | JObject(fields: map<string, Json>)

  /** The `details` dictionary of an error. */
  type Details = map<string, Json>

  // The error codes.
  const LIMIT_EXCEEDED: string := "LIMIT_EXCEEDED"
  const GOVERNANCE_VIOLATION: string := "GOVERNANCE_VIOLATION"
  const INVALID_INPUT: string := "INVALID_INPUT"
  const INTERNAL_ERROR: string := "INTERNAL_ERROR"

  const ERROR_CODES: seq<string> := [LIMIT_EXCEEDED, GOVERNANCE_VIOLATION, INVALID_INPUT, INTERNAL_ERROR]

  /** No two error codes are the same string. */
  lemma ErrorCodesDistinct()
    ensures |ERROR_CODES| == 4
    ensures forall i, j :: 0 <= i < j < |ERROR_CODES| ==> ERROR_CODES[i] != ERROR_CODES[j]
  {
    assert LIMIT_EXCEEDED[0] != INTERNAL_ERROR[0];
  }

  /** An `APIException` once constructed; no field is written afterwards. */
  datatype APIException = APIException(code: string, message: string, statusCode: int, details: Details)

  /**
   * `APIException(code, message, status_code=400, details=None)`: the status
   * defaults to 400, and a missing `details` is stored as the empty dictionary.
   */
  function NewAPIException(code: string, message: string, statusCode: int := 400,
                           details: Option<Details> := None): (e: APIException)
    ensures e.code == code && e.message == message && e.statusCode == statusCode
    ensures details.Some? ==> e.details == details.value
    ensures details.None? ==> e.details == map[]
  {
    APIException(code, message, statusCode, if details.Some? then details.value else map[])
  }

  /** Leaving out both optional arguments gives status 400 and no details. */
  lemma NewAPIExceptionDefaults(code: string, message: string)
    ensures NewAPIException(code, message).statusCode == 400
    ensures NewAPIException(code, message).details == map[]
  {
  }

  /** A `JSONResponse`: an HTTP status and a JSON body. */
  datatype JsonResponse = JsonResponse(statusCode: int, content: Json)

  /**
   * The response the exception handler sends: the status of the exception,
   * and a body `{"error": {"code", "message"[, "details"]}}` whose `details`
   * entry is present exactly when the details are non-empty.
   */
  function ErrorResponse(exc: APIException): (resp: JsonResponse)
    ensures resp.statusCode == exc.statusCode
    ensures resp.content.JObject? && resp.content.fields.Keys == {"error"}
    ensures resp.content.fields["error"].JObject?
    ensures var err := resp.content.fields["error"].fields;
      && "code" in err && err["code"] == JStr(exc.code)
      && "message" in err && err["message"] == JStr(exc.message)
      && ("details" in err <==> |exc.details| != 0)
      && ("details" in err ==> err["details"] == JObject(exc.details))
      && err.Keys <= {"code", "message", "details"}
  {
    var err := map["code" := JStr(exc.code), "message" := JStr(exc.message)];
    var body := if |exc.details| == 0 then err else err["details" := JObject(exc.details)];
    JsonResponse(exc.statusCode, JObject(map["error" := JObject(body)]))
  }

  /**
   * `api_exception_handler`: builds the body, then adds `details` to it in
   * place when there are any.
   */
  method HandleAPIException(exc: APIException) returns (resp: JsonResponse)
    ensures resp == ErrorResponse(exc)
  {
    var response := map["error" := JObject(map["code" := JStr(exc.code), "message" := JStr(exc.message)])];
    if |exc.details| != 0 {
      var err := response["error"].fields;
      response := response["error" := JObject(err["details" := JObject(exc.details)])];
    }
    resp := JsonResponse(exc.statusCode, JObject(response));
  }

  /** Reads an exception back from an error response. */
  function DecodeErrorResponse(resp: JsonResponse): Option<APIException>
  {
    match resp.content
    case JObject(top) =>
      if "error" in top && top["error"].JObject? then
        var err := top["error"].fields;
        if "code" in err && err["code"].JStr? && "message" in err && err["message"].JStr? then
          var details := if "details" in err && err["details"].JObject? then err["details"].fields else map[];
          Some(APIException(err["code"].s, err["message"].s, resp.statusCode, details))
        else
          None
      else
        None
    case _ => None
  }

  /**
   * The handler loses nothing: code, message, status and details can all be
   * read back from the response (leaving out empty details loses nothing).
   */
  lemma ErrorResponseRoundTrip(exc: APIException)
    ensures DecodeErrorResponse(ErrorResponse(exc)) == Some(exc)
  {
  }
}
