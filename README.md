# app-cw: structured logging and simulated outcomes

app-cw is a small HTTP service. It writes JSON log lines that CloudWatch
metric filters can match. This project models its core in Dafny:

- **Structured logging** (`src/core/logging_config.py`).
  - Two JSON formatters. The base one writes timestamp, level, message,
    the extra fields and the exception. The detailed one adds the source
    location (`name`, `module`, `funcName`, `pathname`, `lineno`).
  - `CustomLevelFormatter` pulls an `extra` mapping out of the record's
    arguments. It then picks a formatter by severity: DEBUG and INFO get the
    detailed one, anything else the base one.
  - `setup_logging` configures the named service logger. It sets the level,
    turns off propagation, replaces any old handlers with a file handler and
    a console handler, and announces itself at INFO.
- **The simulated outcomes** (`src/services/cw_logic.py`). The success
  endpoint logs once and returns a payload. The error endpoint maps a
  selector to an HTTP error. A `random` selector fails or succeeds on a coin
  flip.
- **The request instrumentation** (`src/main.py`).
  - The middleware skips the documentation and health paths. It logs every
    other request whose handler returns a response, at a severity chosen by
    status class.
  - The global exception handler logs everything about a failure and returns
    an opaque 500 response.
  - The 404 handler logs the not-found data and also returns it.

Modules:

| file | module | models |
|---|---|---|
| `values.dfy` | `JsonValues` | JSON-like values, `Option` |
| `std_logging.dfy` | `StdLogging` | severity numbers, `setLevel`'s name table, one logger call |
| `timestamps.dfy` | `Timestamps` | `datetime.isoformat` on UTC datetimes, and a parser that inverts the formatter's stamp |
| `logging_config.dfy` | `LoggingConfig` | log records, the formatters, the dispatching formatter, handlers, the service logger and its set-up |
| `cw_logic.dfy` | `CwLogic` | the success and error endpoints' decision table |
| `app.dfy` | `App` | the middleware, the two exception handlers, and how the outcome table meets the severity rule |

Two modelling choices:

- **Formatters.** Each formatter's `format` builds a dictionary in place,
  so it is a method over a `LogRecord` object. The method is proved equal to
  a reference function that says which source wins for each key. The
  dispatching formatter changes `record.args` and `record.extra_data`, so it
  is a method with a `modifies` clause.
- **The formatter's timestamp.** The code appends `Z` to an offset-aware
  ISO-8601 string. Every stamp therefore ends in `+00:00Z`, not in a bare
  `Z`. The model follows the code. It proves the stamp is injective by
  giving a parser that inverts it. The handlers in `src/main.py` use a naive
  datetime, so their stamps end in a bare `Z`.

## Model

| member | source | states |
|---|---|---|
| StdLogging.LevelByName | src/core/logging_config.py:70 | `setLevel` accepts a level name exactly when it is one of the standard names, and it yields one of the six standard levels |
| Timestamps.FormatTime | src/core/logging_config.py:12-14 | a formatter stamp is 26 characters long without microseconds and 33 with them, and always ends in `+00:00Z` |
| Timestamps.FormatTimeParses | src/core/logging_config.py:12-14 | parsing a formatter stamp gives back the exact instant it was made from, so no two instants share a stamp |
| Timestamps.ParsedIsFormatted | src/core/logging_config.py:12-14 | every string the parser accepts is the stamp of the instant it parses to, so the stamp format has one spelling per instant |
| Timestamps.NaiveUtcStamp | src/main.py:65 | a handler stamp (naive `utcnow().isoformat()` plus `Z`) is 20 or 27 characters long and ends in `Z` |
| Timestamps.StampsDifferOnlyInOffset | src/main.py:65 | a handler stamp and a formatter stamp of the same instant differ only by the `+00:00` offset before the `Z` |
| LoggingConfig.FixedFields | src/core/logging_config.py:17-21 | the fields every entry starts with are exactly `timestamp`, `level` and `message` |
| LoggingConfig.LocationFields | src/core/logging_config.py:39-48 | the detailed formatter's own fields are the three common ones plus the five source-location keys |
| LoggingConfig.ExceptionField | src/core/logging_config.py:25-26 | `exception` is written exactly when the record carries exception information, and nothing else is |
| LoggingConfig.BaseEntry | src/core/logging_config.py:16-28 | a base entry's keys are the three fixed keys, the keys of a dict `extra_data`, and `exception` iff the record has one |
| LoggingConfig.DetailedEntry | src/core/logging_config.py:38-55 | a detailed entry's keys are the eight fixed and location keys, the keys of a dict `extra_data`, and `exception` iff the record has one |
| LoggingConfig.BaseFormat | src/core/logging_config.py:16-28 | the base formatter's in-place construction of the entry yields exactly the base reference entry |
| LoggingConfig.DetailedFormat | src/core/logging_config.py:38-55 | the detailed formatter's in-place construction yields exactly the detailed reference entry |
| LoggingConfig.DetailedByUpdates | src/core/logging_config.py:39-53 | applying the fixed and location fields, then `exception`, then the extra fields, in that order, gives exactly the detailed precedence |
| LoggingConfig.BaseExceptionBeatsExtra | src/core/logging_config.py:22-26 | in the base formatter, a captured exception overrides an extra key named `exception` |
| LoggingConfig.BaseExtraBeatsFixed | src/core/logging_config.py:17-23 | in the base formatter, an extra key overrides `timestamp`, `level` or `message` |
| LoggingConfig.BaseHasNoLocation | src/core/logging_config.py:17-28 | a base entry has a source-location key only when the extra data supplies it |
| LoggingConfig.DetailedExtraBeatsAll | src/core/logging_config.py:39-53 | in the detailed formatter, an extra key overrides every fixed field and `exception` |
| LoggingConfig.NonDictExtraIgnored | src/core/logging_config.py:22-53 | `extra_data` that is not a dict renders exactly as no `extra_data` at all, in both formatters |
| LoggingConfig.RendererFor | src/core/logging_config.py:79-100 | the detailed formatter is chosen exactly for DEBUG and INFO; everything else, mapped or not, gets the base one |
| LoggingConfig.Preprocess | src/core/logging_config.py:92-96 | after preprocessing, `extra_data` is set and `args` no longer hold `extra`; `extra_data` is `args['extra']` when present, and empty otherwise |
| LoggingConfig.FormatByLevel | src/core/logging_config.py:98-100 | the record is rendered by the formatter its level selects |
| LoggingConfig.CustomLevelFormat | src/core/logging_config.py:91-100 | the dispatching formatter leaves the record in its preprocessed state and returns the entry rendered from it |
| LoggingConfig.DispatchSourceLocation | src/core/logging_config.py:79-100 | DEBUG and INFO entries always carry the source-location keys; at any other level such a key appears iff the extracted extra data supplies it |
| LoggingConfig.DispatchResetsExtra | src/core/logging_config.py:92-100 | when `args` carry no `extra`, the entry's keys are only the renderer's own fields and `exception`, whatever `extra_data` the record held before |
| LoggingConfig.DispatchUsesArgsExtra | src/core/logging_config.py:92-100 | every field of `args['extra']` appears in the entry, and at DEBUG and INFO with the value from `args['extra']` |
| LoggingConfig.EmitAsWritten | src/core/logging_config.py:102-108 | one line per handler, in handler order; the recursion hands each handler the record as the previous one left it |
| LoggingConfig.LaterSinkLosesArgsExtra | src/core/logging_config.py:92-108 | as written, with two or more handlers, any field of a dict `args['extra']` that no renderer writes itself reaches the first handler's line with its value and is missing from the second handler's line |
| LoggingConfig.ConsoleLosesArgsExtra | src/core/logging_config.py:92-108 | as written, with the service's file and console handlers, a `request_id` passed in `args['extra']` reaches the file line but not the console line |
| LoggingConfig.PreprocessFixed | src/core/logging_config.py:92-96 | the corrected preprocessing takes `args['extra']` when present and otherwise keeps any `extra_data` already extracted |
| LoggingConfig.PreprocessFixedIdempotent | src/core/logging_config.py:92-96 | with the corrected preprocessing, preprocessing a record twice leaves it as preprocessing it once |
| LoggingConfig.FixedKeepsCarriedExtraData | src/core/logging_config.py:92-108 | where the correction changes the first line: a record that already carries a dict `extra_data` and no `extra` in `args` keeps its fields under the correction, while the code as written drops them |
| LoggingConfig.FixedFirstLineAsWritten | src/core/logging_config.py:92-108 | for a record that carries no `extra_data` yet, the correction leaves the first handler's line exactly as written |
| LoggingConfig.CustomLevelFormatFixed | src/core/logging_config.py:91-100 | the corrected dispatching formatter leaves the record in its corrected preprocessed state and renders it by level |
| LoggingConfig.EmitFixed | src/core/logging_config.py:102-108 | with the corrected formatter, one line per handler, in handler order |
| LoggingConfig.EmitFixedUniform | src/core/logging_config.py:102-108 | with the corrected formatter every handler writes the same entry, the one the first handler renders |
| LoggingConfig.Logger.Handle | src/core/logging_config.py:102-108 | the logger's loop over its handlers produces exactly the corrected per-handler lines; with at least one handler the record ends in its corrected preprocessed state, and with none it is untouched |
| LoggingConfig.SetupLogging | src/core/logging_config.py:57-111 | an unknown level changes nothing; otherwise the level is set, propagation is off, the handlers are exactly file then console, and the INFO announcement is made |
| LoggingConfig.Startup | src/core/logging_config.py:113 | running the set-up a second time on the same logger still leaves exactly one file and one console handler |
| LoggingConfig.OncePerSinkAsWritten | src/core/logging_config.py:102-113 | as written, after set-up a record reaches the file and then the console exactly once each |
| LoggingConfig.OncePerSink | src/core/logging_config.py:102-108 | with the corrected formatter, after set-up a record reaches the file and then the console exactly once each, with the same entry |
| CwLogic.Raise | src/services/cw_logic.py:43-54 | a raised error carries its status and codes, logs nothing, and its detail has the seven detail keys with this endpoint, request id and service name |
| CwLogic.Succeed | src/services/cw_logic.py:14-31 | a success logs once at INFO, and the payload and log extra agree on request id, service, status, endpoint and duration |
| CwLogic.ProcessSuccessRequest | src/services/cw_logic.py:7-31 | the success endpoint returns `SUCCESS` for its own endpoint after one agreeing INFO log, with a duration in 50..200 |
| CwLogic.ProcessErrorRequest | src/services/cw_logic.py:33-131 | an unknown selector is rejected as invalid input; only the lucky half of `random` returns, and it logs once; every raise carries the full detail and logs nothing |
| CwLogic.OutcomeTable | src/services/cw_logic.py:56-131 | `not_found`, `critical` and `internal` raise exactly the status and codes of the fixed table |
| CwLogic.StatusCodeBySelector | src/services/cw_logic.py:41-131 | status 400 iff the selector is unknown, 404 iff `not_found`, 500 iff `internal`, `critical` or unlucky `random` |
| App.SeverityFor | src/main.py:41-46 | WARNING iff a 4xx status, ERROR iff 5xx or above, INFO iff below 400 |
| App.SeverityMonotone | src/main.py:41-46 | a higher status never gets a lower severity |
| App.Dispatch | src/main.py:25-48 | the response is passed through; excluded paths log nothing; any other path logs once, at the status's severity, with the six `log_data` fields |
| App.MiddlewareRenderer | src/main.py:41-46 | a middleware line carries the source location exactly when the status is below 400 |
| App.GlobalExceptionHandler | src/main.py:55-75 | a 500 whose body holds only a message and the request id, and the same request id logged at ERROR with the trace and the error message |
| App.GlobalHandlerOpaque | src/main.py:71-75 | the client's response does not depend on the exception, its trace, the URL or the time |
| App.NotFoundHandler | src/main.py:77-90 | a 404 whose body is exactly the logged INFO data, with `NOT_FOUND`, status 404 and the request id |
| App.ErrorEndpointSeverity | src/main.py:31-46 | the middleware warns on an invalid selector and on `not_found`, errors on the server failures, and logs INFO, with source location, only for a lucky `random` |

## Left out

- `json.dumps` is not modelled. An entry is the mapping before it is serialised, so key order and escaping are not captured.
- `record.getMessage()` is modelled as the raw message. The `%`-interpolation of `args` into it is not modelled.
- `formatException` is not modelled. A record's exception information is the already-formatted trace text.
- `datetime.fromtimestamp` is not modelled. `record.created` is an already broken-down UTC date and time, and `utcnow()` is a parameter.
- The stdlib's level filtering, the handlers' own `emit`, the file and stream writes and the `os.makedirs` call are I/O and are not modelled. `Logger.Handle` starts from a record that passed the level check.
- How the stdlib `Logger` turns `extra=` into record attributes is not modelled. The formatters only print `extra_data`, so the model's `LogCall.extra` records what a caller passed. It does not claim that those fields reach an output line.
- `uuid4`, `random.randint` and `random.random` are parameters. Each has the range its generator guarantees.
- The middleware's latency is an integer parameter. The floating-point subtraction and the truncation to milliseconds are not modelled.
- FastAPI's routing, the `HTTPException` responses and the choice of which exception handler runs are framework code and are not modelled. `App.StatusOf` takes a raised exception's status to be the response status.
- `src/api/routes.py`, `src/core/config.py` and `src/models/schemas.py` are not part of this model. Settings are a parameter.
- LoggingConfig.Logger.Handle: runs the corrected dispatching formatter, not the one as written (see Findings).
- App.Dispatch: starts once `call_next` has returned a response. When the downstream application raises instead, `call_next` propagates the exception, the middleware writes no line, and only the global exception handler logs.
- LoggingConfig.SetupLogging: returns the startup announcement as a `LogCall` instead of handing it to the handlers.

## Findings

| source | as written | input that shows it | evidently intended | confidence | as-written member | corrected member |
|---|---|---|---|---|---|---|
| src/core/logging_config.py:92-96 | The dispatching formatter clears `record.args` after pulling out `extra`, and sets `extra_data = {}` whenever `args` hold no `extra`. The logger formats the same record once per handler. The console handler runs second, so it resets `extra_data` and drops the fields the file handler printed. | `logger.info("m", {"extra": {"request_id": "r-1"}})` with the file handler then the console handler: the file line has `request_id`, the console line does not | every handler writes the same entry. The correction also keeps an `extra_data` a record already carried before the first handler, which the code resets (`FixedKeepsCarriedExtraData`); for records without one, which is every record this service's callers build (no call passes an `extra_data` key in `extra=`), the first line is unchanged | medium, not executed | LoggingConfig.ConsoleLosesArgsExtra | LoggingConfig.EmitFixedUniform |
