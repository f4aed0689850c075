/** The simulated request outcomes of `src/services/cw_logic.py`.

    The generated request id (`uuid4`), the durations drawn with `randint` and
    the coin `random.random()` are parameters, each with the range its
    generator guarantees. The service name is the configured `SERVICE_NAME`. */
module CwLogic {
  import opened JsonValues
  import opened StdLogging

  const SuccessEndpoint: string := "/api/v1/cw/success"
  const ErrorEndpoint: string := "/api/v1/cw/error"
  const ValidErrorTypes: seq<string> := ["internal", "not_found", "random", "critical"]

  /** How a handler finishes: it returns a payload, or raises an
      `HTTPException` carrying a status code and a detail body. */
  datatype Outcome =
    | Returned(payload: map<string, Value>)
    | Raised(statusCode: int, detail: map<string, Value>)

  /** An outcome together with the logger calls the handler itself made. */
  datatype Handled = Handled(outcome: Outcome, logs: seq<LogCall>)

  /** The keys a success payload shares with the extra of its log call. */
  const SharedKeys: set<string> := {"request_id", "app_name", "status", "endpoint", "duration_ms"}

  /** The keys of every raised error's detail. */
  const DetailKeys: set<string> :=
    {"message", "app_name", "request_id", "status", "error_code", "endpoint", "duration_ms"}

  /** `sep.join(items)`. */
  function Join(sep: string, items: seq<string>): string
  {
    if |items| == 0 then ""
    else if |items| == 1 then items[0]
    else items[0] + sep + Join(sep, items[1..])
  }

  /** What a payload and a log extra must agree on. */
  ghost predicate Agree(payload: map<string, Value>, extra: map<string, Value>)
  {
    forall k :: k in SharedKeys ==> k in payload && k in extra && payload[k] == extra[k]
  }

  /** An integer field whose value lies in `[lo, hi]`. */
  ghost predicate IntIn(m: map<string, Value>, key: string, lo: int, hi: int)
  {
    key in m && m[key].Int? && lo <= m[key].i <= hi
  }

  /** The shape every raised detail has. */
  ghost predicate IsErrorDetail(d: map<string, Value>, serviceName: string, requestId: string)
  {
    && d.Keys == DetailKeys
    && d["endpoint"] == Str(ErrorEndpoint)
    && d["request_id"] == Str(requestId)
    && d["app_name"] == Str(serviceName)
    && IntIn(d, "duration_ms", 300, 800)
  }

  /** `raise HTTPException(status_code=code, detail={...})` with the detail
      body every error of this endpoint carries; nothing is logged. */
  function Raise(code: int, message: string, serviceName: string, requestId: string,
                 status: string, errorCode: string, durationMs: int): (h: Handled)
    requires 300 <= durationMs <= 800
    ensures h.outcome.Raised? && h.logs == []
    ensures SignatureOf(h.outcome) == Some(Signature(code, status, errorCode))
    ensures IsErrorDetail(h.outcome.detail, serviceName, requestId)
  {
    Handled(Raised(code, map["message" := Str(message),
                             "app_name" := Str(serviceName),
                             "request_id" := Str(requestId),
                             "status" := Str(status),
                             "error_code" := Str(errorCode),
                             "endpoint" := Str(ErrorEndpoint),
                             "duration_ms" := Int(durationMs)]),
            [])
  }

  /** A returned payload and its one INFO log call agree, and the duration
      lies in the range `randint(50, 200)` draws from. */
  ghost predicate IsLoggedSuccess(h: Handled, endpoint: string, requestId: string)
  {
    && h.outcome.Returned? && |h.logs| == 1
    && h.logs[0].levelno == INFO && !h.logs[0].excInfo
    && Agree(h.outcome.payload, h.logs[0].extra)
    && "status" in h.outcome.payload && h.outcome.payload["status"] == Str("SUCCESS")
    && "endpoint" in h.outcome.payload && h.outcome.payload["endpoint"] == Str(endpoint)
    && "request_id" in h.outcome.payload && h.outcome.payload["request_id"] == Str(requestId)
    && IntIn(h.outcome.payload, "duration_ms", 50, 200)
  }

  /** A success: log at INFO with the extra, return the payload with a message. */
  function Succeed(logMessage: string, message: string, serviceName: string, requestId: string,
                   endpoint: string, durationMs: int): (h: Handled)
    requires 50 <= durationMs <= 200
    ensures IsLoggedSuccess(h, endpoint, requestId)
  {
    var extra := map["app_name" := Str(serviceName),
                     "request_id" := Str(requestId),
                     "status" := Str("SUCCESS"),
                     "endpoint" := Str(endpoint),
                     "duration_ms" := Int(durationMs)];
    var payload := map["message" := Str(message),
                       "request_id" := Str(requestId),
                       "app_name" := Str(serviceName),
                       "status" := Str("SUCCESS"),
                       "endpoint" := Str(endpoint),
                       "duration_ms" := Int(durationMs)];
    Handled(Returned(payload), [LogCall(INFO, logMessage, extra, false)])
  }

  /** `process_success_request`: one INFO call, then the payload. */
  function ProcessSuccessRequest(serviceName: string, requestId: string, durationMs: int): (h: Handled)
    requires 50 <= durationMs <= 200
    ensures IsLoggedSuccess(h, SuccessEndpoint, requestId)
  {
    Succeed("Solicitud procesada exitosamente.", "Operación exitosa", serviceName, requestId,
            SuccessEndpoint, durationMs)
  }

  /** An error's signature: its HTTP status, `status` and `error_code`. */
  datatype Signature = Signature(statusCode: int, status: string, errorCode: string)

  const InvalidInput: Signature := Signature(400, "INVALID_INPUT", "INVALID_ERROR_TYPE")
  const RandomFailure: Signature := Signature(500, "FAILURE", "SIMULATED_RANDOM_ERROR")

  /** The fixed part of the outcome table: selectors that always raise. */
  const ErrorTable: map<string, Signature> :=
    map["not_found" := Signature(404, "NOT_FOUND", "RESOURCE_NOT_FOUND"),
        "critical" := Signature(500, "CRITICAL_FAILURE", "SIMULATED_CRITICAL_ERROR"),
        "internal" := Signature(500, "FAILURE", "INTERNAL_SERVER_ERROR")]

  /** The signature a raised outcome carries, None for a returned one. */
  function SignatureOf(o: Outcome): Option<Signature>
  {
    match o
    case Returned(_) => None
    case Raised(code, detail) =>
      if "status" in detail && detail["status"].Str? && "error_code" in detail && detail["error_code"].Str?
      then Some(Signature(code, detail["status"].s, detail["error_code"].s))
      else None
  }

  /** The messages of the error endpoint's outcomes. */
  const NotFoundMessage: string := "Recurso no encontrado."
  const RandomFailureMessage: string := "Ocurrió un error aleatorio al procesar la solicitud."
  const RandomSuccessLog: string := "Solicitud aleatoria exitosa (a pesar de ser el endpoint de error)."
  const RandomSuccessMessage: string := "Operación aleatoria exitosa"
  const CriticalMessage: string := "Un error crítico simulado ha ocurrido."
  const InternalMessage: string := "Ocurrió un error interno inesperado al procesar la solicitud."

  function InvalidMessage(errorType: string): string
  {
    "Tipo de error no válido: '" + errorType + "'. Tipos permitidos: " + Join(", ", ValidErrorTypes) + "."
  }

  /** `process_error_request`: reject an unknown selector, then walk the
      if/elif ladder. Only the lucky half of `random` returns, and only it logs. */
  function ProcessErrorRequest(errorType: string, serviceName: string, requestId: string,
                               errorDurationMs: int, draw: real, successDurationMs: int): (h: Handled)
    requires 300 <= errorDurationMs <= 800
    requires 0.0 <= draw < 1.0
    requires 50 <= successDurationMs <= 200
    ensures errorType !in ValidErrorTypes ==> SignatureOf(h.outcome) == Some(InvalidInput)
    ensures errorType == "random" && draw < 0.5 ==> SignatureOf(h.outcome) == Some(RandomFailure)
    ensures h.outcome.Returned? <==> errorType == "random" && draw >= 0.5
    ensures h.outcome.Raised? ==> h.logs == [] && IsErrorDetail(h.outcome.detail, serviceName, requestId)
    ensures h.outcome.Returned? ==> IsLoggedSuccess(h, ErrorEndpoint, requestId)
  {
    if errorType !in ValidErrorTypes then
      Raise(400, InvalidMessage(errorType), serviceName, requestId,
            "INVALID_INPUT", "INVALID_ERROR_TYPE", errorDurationMs)
    else if errorType == "not_found" then
      Raise(404, NotFoundMessage, serviceName, requestId,
            "NOT_FOUND", "RESOURCE_NOT_FOUND", errorDurationMs)
    else if errorType == "random" then
      if draw < 0.5 then
        Raise(500, RandomFailureMessage, serviceName, requestId,
              "FAILURE", "SIMULATED_RANDOM_ERROR", errorDurationMs)
      else
        // the success branch draws its own duration
        Succeed(RandomSuccessLog, RandomSuccessMessage, serviceName, requestId, ErrorEndpoint, successDurationMs)
    else if errorType == "critical" then
      Raise(500, CriticalMessage, serviceName, requestId,
            "CRITICAL_FAILURE", "SIMULATED_CRITICAL_ERROR", errorDurationMs)
    else
      Raise(500, InternalMessage, serviceName, requestId,
            "FAILURE", "INTERNAL_SERVER_ERROR", errorDurationMs)
  }

  /** The selectors of the fixed table raise exactly the error the table lists. */
  lemma OutcomeTable(errorType: string, serviceName: string, requestId: string,
                     errorDurationMs: int, draw: real, successDurationMs: int)
    requires 300 <= errorDurationMs <= 800
    requires 0.0 <= draw < 1.0
    requires 50 <= successDurationMs <= 200
    requires errorType in ErrorTable
    ensures SignatureOf(ProcessErrorRequest(errorType, serviceName, requestId, errorDurationMs, draw, successDurationMs).outcome)
            == Some(ErrorTable[errorType])
  {
    assert errorType == "not_found" || errorType == "critical" || errorType == "internal";
    assert errorType in ValidErrorTypes;
  }

  /** Each HTTP status of the error endpoint names its cause, in both directions. */
  lemma StatusCodeBySelector(errorType: string, serviceName: string, requestId: string,
                             errorDurationMs: int, draw: real, successDurationMs: int)
    requires 300 <= errorDurationMs <= 800
    requires 0.0 <= draw < 1.0
    requires 50 <= successDurationMs <= 200
    ensures var o := ProcessErrorRequest(errorType, serviceName, requestId, errorDurationMs, draw, successDurationMs).outcome;
      && (o.Raised? && o.statusCode == 400 <==> errorType !in ValidErrorTypes)
      && (o.Raised? && o.statusCode == 404 <==> errorType == "not_found")
      && (o.Raised? && o.statusCode == 500 <==>
            errorType == "internal" || errorType == "critical" || (errorType == "random" && draw < 0.5))
  {
  }
}
