/** The parts of Python's standard `logging` package that the service relies
    on: the numeric severities, the name table `setLevel` accepts, and the
    shape of one call such as `logger.info(msg, extra=...)`. */
module StdLogging {
  import opened JsonValues

  const NOTSET: int := 0
  const DEBUG: int := 10
  const INFO: int := 20
  const WARNING: int := 30
  const ERROR: int := 40
  const CRITICAL: int := 50

  /** The names `Logger.setLevel` accepts as a string (`logging._nameToLevel`). */
  const LevelNames: set<string> :=
    {"CRITICAL", "FATAL", "ERROR", "WARN", "WARNING", "INFO", "DEBUG", "NOTSET"}

  /** `logging._checkLevel` on a string: the level number, or None where
      `setLevel` raises `ValueError("Unknown level: ...")`. */
  function LevelByName(name: string): (r: Option<int>)
    ensures r.Some? <==> name in LevelNames
    ensures r.Some? ==> r.value in {NOTSET, DEBUG, INFO, WARNING, ERROR, CRITICAL}
  {
    if name == "CRITICAL" || name == "FATAL" then Some(CRITICAL)
    else if name == "ERROR" then Some(ERROR)
    else if name == "WARNING" || name == "WARN" then Some(WARNING)
    else if name == "INFO" then Some(INFO)
    else if name == "DEBUG" then Some(DEBUG)
    else if name == "NOTSET" then Some(NOTSET)
    else None
  }

  /** One call into the logger: its severity, its message, the mapping passed
      as `extra=` and whether `exc_info=True` was given. */
  datatype LogCall = LogCall(levelno: int, msg: string, extra: map<string, Value>, excInfo: bool)
}
