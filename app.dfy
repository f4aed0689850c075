/** The request instrumentation and the error handlers of `src/main.py`.

    The clock readings, the generated request ids and the downstream response
    are parameters: the middleware is modelled from the moment `call_next`
    has returned, with the latency already measured. */
module App {
  import opened JsonValues
  import opened StdLogging
  import opened Timestamps
  import LoggingConfig
  import CwLogic

  /** Paths the middleware never logs. */
  const ExcludedPaths: seq<string> := ["/health", "/docs", "/redoc", "/openapi.json"]

  /** The parts of an inbound request the service reads; `client` is the peer
      host, None when the server does not know it. */
  datatype Request = Request(httpMethod: string, path: string, url: string, client: Option<string>)

  datatype Response = Response(statusCode: int, body: map<string, Value>)

  /** The keys of the middleware's `log_data`. */
  const LogDataKeys: set<string> :=
    {"app_name", "request_method", "request_path", "response_status_code", "process_time_ms", "client_ip"}

  /** The severity the middleware logs a response at: client errors warn,
      server errors are errors, everything else is informational. */
  function SeverityFor(statusCode: int): (levelno: int)
    ensures levelno == WARNING <==> 400 <= statusCode < 500
    ensures levelno == ERROR <==> statusCode >= 500
    ensures levelno == INFO <==> statusCode < 400
  {
    if 400 <= statusCode < 500 then WARNING
    else if statusCode >= 500 then ERROR
    else INFO
  }

  /** A worse status never gets a milder severity. */
  lemma SeverityMonotone(lower: int, higher: int)
    requires lower <= higher
    ensures SeverityFor(lower) <= SeverityFor(higher)
  {
  }

  function MiddlewareMessage(levelno: int): string
  {
    if levelno == WARNING then "Solicitud de cliente procesada con advertencia."
    else if levelno == ERROR then "Solicitud de cliente procesada con error del servidor."
    else "Solicitud HTTP procesada."
  }

  function ClientIp(client: Option<string>): string
  {
    if client.Some? then client.value else "unknown"
  }

  /** `LogMiddleware.dispatch` once `call_next` returned `response` after
      `processTimeMs` milliseconds: the response goes back untouched, with one
      log call unless the path is excluded. */
  function Dispatch(serviceName: string, request: Request, response: Response, processTimeMs: int)
    : (r: (Response, seq<LogCall>))
    ensures r.0 == response
    ensures |r.1| == (if request.path in ExcludedPaths then 0 else 1)
    ensures |r.1| == 1 ==>
      && r.1[0].levelno == SeverityFor(response.statusCode)
      && !r.1[0].excInfo
      && r.1[0].extra.Keys == LogDataKeys
      && r.1[0].extra["request_path"] == Str(request.path)
      && r.1[0].extra["response_status_code"] == Int(response.statusCode)
      && r.1[0].extra["process_time_ms"] == Int(processTimeMs)
      && (request.client.Some? ==> r.1[0].extra["client_ip"] == Str(request.client.value))
      && (request.client.None? ==> r.1[0].extra["client_ip"] == Str("unknown"))
  {
    if request.path in ExcludedPaths then (response, [])
    else
      var logData := map["app_name" := Str(serviceName),
                         "request_method" := Str(request.httpMethod),
                         "request_path" := Str(request.path),
                         "response_status_code" := Int(response.statusCode),
                         "process_time_ms" := Int(processTimeMs),
                         "client_ip" := Str(ClientIp(request.client))];
      var levelno := SeverityFor(response.statusCode);
      (response, [LogCall(levelno, MiddlewareMessage(levelno), logData, false)])
  }

  /** The middleware's record is rendered with its source location exactly
      when the response is neither a client nor a server error. */
  lemma MiddlewareRenderer(statusCode: int)
    ensures LoggingConfig.RendererFor(SeverityFor(statusCode)) == LoggingConfig.Detailed <==> statusCode < 400
  {
  }

  const PublicErrorMessage: string := "Ocurrio un error inesperado. Por favor, intentalo de nuevo mas tarde."

  /** `global_exception_handler`: log the full story at ERROR with the trace,
      answer 500 with nothing but a fixed message and the correlation id. */
  function GlobalExceptionHandler(serviceName: string, requestId: string, excMessage: string,
                                  traceback: string, requestUrl: string, now: DateTime)
    : (r: (Response, LogCall))
    ensures r.0.statusCode == 500
    ensures r.0.body.Keys == {"message", "request_id"}
    ensures r.0.body["request_id"] == Str(requestId)
    ensures r.1.levelno == ERROR && r.1.excInfo
    ensures "request_id" in r.1.extra && r.1.extra["request_id"] == r.0.body["request_id"]
    ensures "traceback" in r.1.extra && r.1.extra["traceback"] == Str(traceback)
    ensures "error_message" in r.1.extra && r.1.extra["error_message"] == Str(excMessage)
  {
    var errorData := map["app_name" := Str(serviceName),
                         "request_id" := Str(requestId),
                         "error_type" := Str("UNHANDLED_EXCEPTION"),
                         "error_message" := Str(excMessage),
                         "status_code" := Int(500),
                         "timestamp" := Str(NaiveUtcStamp(now)),
                         "request_path" := Str(requestUrl),
                         "traceback" := Str(traceback)];
    var publicErrorData := map["message" := Str(PublicErrorMessage), "request_id" := Str(requestId)];
    (Response(500, publicErrorData), LogCall(ERROR, "Excepcion no manejada", errorData, true))
  }

  /** No detail of the failure reaches the client: two unhandled exceptions
      with the same correlation id produce the same response, whatever their
      message, trace, URL or time. */
  lemma GlobalHandlerOpaque(serviceName: string, requestId: string,
                            msg1: string, trace1: string, url1: string, now1: DateTime,
                            msg2: string, trace2: string, url2: string, now2: DateTime)
    ensures GlobalExceptionHandler(serviceName, requestId, msg1, trace1, url1, now1).0
         == GlobalExceptionHandler(serviceName, requestId, msg2, trace2, url2, now2).0
  {
  }

  /** `not_found_handler`: log the not-found data at INFO and send the same
      data back with status 404. */
  function NotFoundHandler(serviceName: string, requestId: string, requestUrl: string, now: DateTime)
    : (r: (Response, LogCall))
    ensures r.0.statusCode == 404
    ensures r.0.body == r.1.extra
    ensures r.1.levelno == INFO && !r.1.excInfo
    ensures "error_type" in r.0.body && r.0.body["error_type"] == Str("NOT_FOUND")
    ensures "status_code" in r.0.body && r.0.body["status_code"] == Int(404)
    ensures "request_id" in r.0.body && r.0.body["request_id"] == Str(requestId)
  {
    var errorData := map["app_name" := Str(serviceName),
                         "request_id" := Str(requestId),
                         "error_type" := Str("NOT_FOUND"),
                         "error_message" := Str("El endpoint al que intentas acceder no existe."),
                         "status_code" := Int(404),
                         "timestamp" := Str(NaiveUtcStamp(now)),
                         "request_path" := Str(requestUrl)];
    (Response(404, errorData), LogCall(INFO, "Endpoint no encontrado.", errorData, false))
  }

  /** The HTTP status a service outcome is answered with: a returned payload
      with 200, a raised `HTTPException` with its own status. */
  function StatusOf(o: CwLogic.Outcome): int
  {
    match o
    case Returned(_) => 200
    case Raised(code, _) => code
  }

  /** The middleware's record for the error endpoint, by selector: a rejected
      selector and `not_found` warn, the server failures are errors, and the
      lucky half of `random` is informational and the only one rendered with
      its source location. */
  lemma ErrorEndpointSeverity(errorType: string, serviceName: string, requestId: string,
                              errorDurationMs: int, draw: real, successDurationMs: int)
    requires 300 <= errorDurationMs <= 800
    requires 0.0 <= draw < 1.0
    requires 50 <= successDurationMs <= 200
    ensures var o := CwLogic.ProcessErrorRequest(errorType, serviceName, requestId,
                                                errorDurationMs, draw, successDurationMs).outcome;
      var levelno := SeverityFor(StatusOf(o));
      && (levelno == WARNING <==> errorType !in CwLogic.ValidErrorTypes || errorType == "not_found")
      && (levelno == ERROR <==>
            errorType == "internal" || errorType == "critical" || (errorType == "random" && draw < 0.5))
      && (levelno == INFO <==> errorType == "random" && draw >= 0.5)
      && (LoggingConfig.RendererFor(levelno) == LoggingConfig.Detailed <==> levelno == INFO)
  {
    CwLogic.StatusCodeBySelector(errorType, serviceName, requestId, errorDurationMs, draw, successDurationMs);
  }
}
