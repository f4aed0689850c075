/** The structured logging subsystem of `src/core/logging_config.py`: two JSON
    renderers, the formatter that picks one of them by severity, and the
    set-up that installs a file sink and a console sink on the service logger.

    A rendered entry is the key/value map handed to `json.dumps`; the
    serialisation itself is not part of this model. */
module LoggingConfig {
  import opened JsonValues
  import opened StdLogging
  import opened Timestamps

  /** The attributes of a log record that the formatters read and never
      change. `msg` stands for `record.getMessage()`; `excText` is the trace
      `formatException` renders from `exc_info`, None when nothing was captured. */
  datatype Attributes = Attributes(
    created: DateTime,
    name: string,
    levelno: int,
    levelname: string,
    msg: string,
    moduleName: string,
    funcName: string,
    pathname: string,
    lineno: int,
    excText: Option<string>)

  /** A `logging.LogRecord`. The dispatching formatter rewrites `args` and
      `extraData` in place; `extraData == None` means the record has no
      `extra_data` attribute at all. */
  class LogRecord {
    const attrs: Attributes
    var args: Value
    var extraData: Option<Value>

    constructor (attrs: Attributes, args: Value, extraData: Option<Value>)
      ensures this.attrs == attrs && this.args == args && this.extraData == extraData
    {
      this.attrs := attrs;
      this.args := args;
      this.extraData := extraData;
    }
  }

  // ---------------------------------------------------------------------------
  // The two renderers

  const FixedKeys: set<string> := {"timestamp", "level", "message"}
  const LocationKeys: set<string> := {"name", "module", "funcName", "pathname", "lineno"}

  /** The three fields both renderers start from. */
  function FixedFields(a: Attributes): (m: map<string, Value>)
    ensures m.Keys == FixedKeys
  {
    map["timestamp" := Str(FormatTime(a.created)), "level" := Str(a.levelname), "message" := Str(a.msg)]
  }

  /** The source-location fields only the detailed renderer writes. */
  function LocationFields(a: Attributes): (m: map<string, Value>)
    ensures m.Keys == LocationKeys
  {
    map["name" := Str(a.name), "module" := Str(a.moduleName), "funcName" := Str(a.funcName),
        "pathname" := Str(a.pathname), "lineno" := Int(a.lineno)]
  }

  /** The `exception` field, present exactly when an exception was captured. */
  function ExceptionField(a: Attributes): (m: map<string, Value>)
    ensures "exception" in m <==> a.excText.Some?
    ensures m.Keys <= {"exception"}
  {
    if a.excText.Some? then map["exception" := Str(a.excText.value)] else map[]
  }

  /** What the renderers merge from `extra_data`: its entries when the
      attribute exists and is a dict, nothing otherwise. */
  function ExtraFields(extraData: Option<Value>): map<string, Value>
  {
    if extraData.Some? && extraData.value.Dict? then extraData.value.entries else map[]
  }

  /** The base renderer's output, stated by precedence: a captured exception
      beats an extra field of the same name, an extra field beats a fixed one. */
  function BaseEntry(a: Attributes, extraData: Option<Value>): (m: map<string, Value>)
    ensures m.Keys == FixedKeys + ExtraFields(extraData).Keys + ExceptionField(a).Keys
  {
    var extra, exc := ExtraFields(extraData), ExceptionField(a);
    map k | k in FixedKeys + extra.Keys + exc.Keys ::
      if k in exc then exc[k] else if k in extra then extra[k] else FixedFields(a)[k]
  }

  /** The detailed renderer's output, stated by precedence: an extra field
      beats everything, then a captured exception, then the fixed and
      source-location fields. */
  function DetailedEntry(a: Attributes, extraData: Option<Value>): (m: map<string, Value>)
    ensures m.Keys == FixedKeys + LocationKeys + ExceptionField(a).Keys + ExtraFields(extraData).Keys
  {
    var extra, exc := ExtraFields(extraData), ExceptionField(a);
    map k | k in FixedKeys + LocationKeys + exc.Keys + extra.Keys ::
      if k in extra then extra[k]
      else if k in exc then exc[k]
      else if k in FixedKeys then FixedFields(a)[k]
      else LocationFields(a)[k]
  }

  /** `BaseJSONFormatter.format`: start from the three fixed fields, update
      with `extra_data` when it is a dict, then write `exception`. */
  method BaseFormat(record: LogRecord) returns (entry: map<string, Value>)
    ensures entry == BaseEntry(record.attrs, record.extraData)
  {
    var a := record.attrs;
    entry := FixedFields(a);
    if record.extraData.Some? && record.extraData.value.Dict? {
      entry := entry + record.extraData.value.entries;
    }
    if a.excText.Some? {
      entry := entry["exception" := Str(a.excText.value)];
    }
    assert entry.Keys == BaseEntry(a, record.extraData).Keys;
  }

  /** `DetailedJSONFormatter.format`: start from the fixed and source-location
      fields, write `exception`, then update with `extra_data` when it is a dict. */
  method DetailedFormat(record: LogRecord) returns (entry: map<string, Value>)
    ensures entry == DetailedEntry(record.attrs, record.extraData)
  {
    var a := record.attrs;
    entry := FixedFields(a) + LocationFields(a);
    if a.excText.Some? {
      entry := entry["exception" := Str(a.excText.value)];
    }
    assert entry == FixedFields(a) + LocationFields(a) + ExceptionField(a);
    if record.extraData.Some? && record.extraData.value.Dict? {
      entry := entry + record.extraData.value.entries;
    }
    DetailedByUpdates(a, record.extraData);
  }

  /** The detailed precedence is the order of the updates: fixed and location
      fields, then `exception`, then the extra fields. */
  lemma DetailedByUpdates(a: Attributes, extraData: Option<Value>)
    ensures FixedFields(a) + LocationFields(a) + ExceptionField(a) + ExtraFields(extraData)
         == DetailedEntry(a, extraData)
  {
    var m := FixedFields(a) + LocationFields(a) + ExceptionField(a) + ExtraFields(extraData);
    assert m.Keys == DetailedEntry(a, extraData).Keys;
  }

  lemma BaseExceptionBeatsExtra(a: Attributes, extraData: Option<Value>)
    requires a.excText.Some?
    ensures BaseEntry(a, extraData)["exception"] == Str(a.excText.value)
  {
  }

  lemma BaseExtraBeatsFixed(a: Attributes, extraData: Option<Value>, k: string)
    requires k in ExtraFields(extraData) && !(k == "exception" && a.excText.Some?)
    ensures BaseEntry(a, extraData)[k] == ExtraFields(extraData)[k]
  {
  }

  /** Without an extra field of that name, the base renderer writes no
      source-location field. */
  lemma BaseHasNoLocation(a: Attributes, extraData: Option<Value>, k: string)
    requires k in LocationKeys
    ensures k in BaseEntry(a, extraData) <==> k in ExtraFields(extraData)
  {
  }

  lemma DetailedExtraBeatsAll(a: Attributes, extraData: Option<Value>, k: string)
    requires k in ExtraFields(extraData)
    ensures DetailedEntry(a, extraData)[k] == ExtraFields(extraData)[k]
  {
  }

  /** An `extra_data` that is not a dict renders exactly as no extra data. */
  lemma NonDictExtraIgnored(a: Attributes, v: Value)
    requires !v.Dict?
    ensures BaseEntry(a, Some(v)) == BaseEntry(a, None) == BaseEntry(a, Some(Dict(map[])))
    ensures DetailedEntry(a, Some(v)) == DetailedEntry(a, None) == DetailedEntry(a, Some(Dict(map[])))
  {
  }

  // ---------------------------------------------------------------------------
  // Dispatch by severity

  datatype Renderer = Base | Detailed

  /** `formatter_map` in `setup_logging`. */
  const FormatterMap: map<int, Renderer> :=
    map[DEBUG := Detailed, INFO := Detailed, WARNING := Base, ERROR := Base, CRITICAL := Base]

  /** The renderer for a level number; a level missing from `formatter_map`
      (a custom level such as 25) falls back to the base renderer. */
  function RendererFor(levelno: int): (r: Renderer)
    ensures r == Detailed <==> levelno == DEBUG || levelno == INFO
  {
    if levelno in FormatterMap then FormatterMap[levelno] else Base
  }

  function Render(r: Renderer, a: Attributes, extraData: Option<Value>): map<string, Value>
  {
    match r
    case Base => BaseEntry(a, extraData)
    case Detailed => DetailedEntry(a, extraData)
  }

  /** The first half of `CustomLevelFormatter.format`: the new `(args,
      extra_data)` of the record. A dict `args` holding `'extra'` hands that
      value over and is replaced by `()`; anything else leaves `args` alone and
      resets `extra_data` to `{}`, whatever it held before. */
  function Preprocess(args: Value, extraData: Option<Value>): (r: (Value, Option<Value>))
    ensures r.1.Some? && !IsDictWith(r.0, "extra")
    ensures IsDictWith(args, "extra") ==> r.1.value == args.entries["extra"]
    ensures !IsDictWith(args, "extra") ==> r.0 == args && ExtraFields(r.1) == map[]
  {
    if IsDictWith(args, "extra") then (Tuple([]), Some(args.entries["extra"]))
    else (args, Some(Dict(map[])))
  }

  /** What `CustomLevelFormatter.format` renders for a record in the given state. */
  function DispatchEntry(a: Attributes, args: Value, extraData: Option<Value>): map<string, Value>
  {
    Render(RendererFor(a.levelno), a, Preprocess(args, extraData).1)
  }

  /** The second half of `CustomLevelFormatter.format`: look the level up in
      `formatter_map`, fall back to the base renderer. */
  method FormatByLevel(record: LogRecord) returns (entry: map<string, Value>)
    ensures entry == Render(RendererFor(record.attrs.levelno), record.attrs, record.extraData)
  {
    var levelno := record.attrs.levelno;
    if levelno in FormatterMap {
      match FormatterMap[levelno]
      case Detailed =>
        entry := DetailedFormat(record);
      case Base =>
        entry := BaseFormat(record);
    } else {
      entry := BaseFormat(record);
    }
  }

  /** `CustomLevelFormatter.format`, as the source writes it. */
  method CustomLevelFormat(record: LogRecord) returns (entry: map<string, Value>)
    modifies record
    ensures (record.args, record.extraData) == Preprocess(old(record.args), old(record.extraData))
    ensures entry == DispatchEntry(record.attrs, old(record.args), old(record.extraData))
  {
    if IsDictWith(record.args, "extra") {
      record.extraData := Some(record.args.entries["extra"]);
      record.args := Tuple([]);
    } else {
      record.extraData := Some(Dict(map[]));
    }
    entry := FormatByLevel(record);
  }

  /** DEBUG and INFO records carry their source location; for every other
      level a source-location field appears only when the extra data brings it. */
  lemma DispatchSourceLocation(a: Attributes, args: Value, extraData: Option<Value>, k: string)
    requires k in LocationKeys
    ensures a.levelno == DEBUG || a.levelno == INFO ==> k in DispatchEntry(a, args, extraData)
    ensures a.levelno != DEBUG && a.levelno != INFO ==>
      (k in DispatchEntry(a, args, extraData) <==> k in ExtraFields(Preprocess(args, extraData).1))
  {
  }

  /** Unless `args` hands over an `'extra'`, the record's earlier `extra_data`
      plays no part: the entry holds the renderer's own fields and nothing else. */
  lemma DispatchResetsExtra(a: Attributes, args: Value, extraData: Option<Value>)
    requires !IsDictWith(args, "extra")
    ensures DispatchEntry(a, args, extraData).Keys ==
      FixedKeys + ExceptionField(a).Keys + (if RendererFor(a.levelno) == Detailed then LocationKeys else {})
  {
  }

  /** Extra data handed over in `args` reaches the entry, and for DEBUG and
      INFO it wins over every other field. */
  lemma DispatchUsesArgsExtra(a: Attributes, args: Value, extraData: Option<Value>, k: string)
    requires IsDictWith(args, "extra") && k in ExtraFields(Some(args.entries["extra"]))
    ensures k in DispatchEntry(a, args, extraData)
    ensures a.levelno == DEBUG || a.levelno == INFO ==>
      DispatchEntry(a, args, extraData)[k] == args.entries["extra"].entries[k]
  {
  }

  // ---------------------------------------------------------------------------
  // Sinks

  datatype Sink = FileSink(path: string) | Console

  /** One formatted line as a sink receives it. */
  datatype Line = Line(sink: Sink, entry: map<string, Value>)

  /** The logger hands one record object to its handlers in order, and each
      handler's `CustomLevelFormatter` formats it in the state the previous
      handlers left it in. */
  function EmitAsWritten(sinks: seq<Sink>, a: Attributes, args: Value, extraData: Option<Value>): (lines: seq<Line>)
    ensures |lines| == |sinks|
    ensures forall i :: 0 <= i < |sinks| ==> lines[i].sink == sinks[i]
    decreases |sinks|
  {
    if sinks == [] then []
    else
      var next := Preprocess(args, extraData);
      [Line(sinks[0], Render(RendererFor(a.levelno), a, next.1))] + EmitAsWritten(sinks[1..], a, next.0, next.1)
  }

  /** A key that is neither a renderer's own field nor in the extra data is
      not in the entry; a key of the extra data always is. */
  lemma RenderKeys(r: Renderer, a: Attributes, extraData: Option<Value>, k: string)
    ensures k !in FixedKeys + LocationKeys + {"exception"} ==>
      (k in Render(r, a, extraData) <==> k in ExtraFields(extraData))
    ensures k in ExtraFields(extraData) && k !in FixedKeys + LocationKeys + {"exception"} ==>
      Render(r, a, extraData)[k] == ExtraFields(extraData)[k]
  {
  }

  /** The first two lines as written: the first handler renders the record's
      preprocessed state, the second renders that state preprocessed again. */
  lemma EmitAsWrittenHead(sinks: seq<Sink>, a: Attributes, args: Value, extraData: Option<Value>)
    requires |sinks| >= 2
    ensures var first := Preprocess(args, extraData);
      var second := Preprocess(first.0, first.1);
      var lines := EmitAsWritten(sinks, a, args, extraData);
      lines[0].entry == Render(RendererFor(a.levelno), a, first.1)
      && lines[1].entry == Render(RendererFor(a.levelno), a, second.1)
  {
    var first := Preprocess(args, extraData);
    var rest := EmitAsWritten(sinks[1..], a, first.0, first.1);
    assert EmitAsWritten(sinks, a, args, extraData)[1] == rest[0];
    assert sinks[1..] != [];
  }

  /** As written, a field of `args['extra']` that no renderer writes itself
      reaches the first handler's line with its value and is missing from the
      second handler's line: the first handler clears `args`, so the second
      resets `extra_data` to `{}`. */
  lemma LaterSinkLosesArgsExtra(sinks: seq<Sink>, a: Attributes, args: Value, extraData: Option<Value>, k: string)
    requires |sinks| >= 2
    requires IsDictWith(args, "extra") && args.entries["extra"].Dict?
    requires k in args.entries["extra"].entries && k !in FixedKeys + LocationKeys + {"exception"}
    ensures var lines := EmitAsWritten(sinks, a, args, extraData);
      && k in lines[0].entry && lines[0].entry[k] == args.entries["extra"].entries[k]
      && k !in lines[1].entry
  {
    var first := Preprocess(args, extraData);
    var second := Preprocess(first.0, first.1);
    EmitAsWrittenHead(sinks, a, args, extraData);
    RenderKeys(RendererFor(a.levelno), a, first.1, k);
    RenderKeys(RendererFor(a.levelno), a, second.1, k);
  }

  /** The instance of the above with the service's two sinks: a `request_id`
      passed in `args['extra']` reaches the file but not the console. */
  lemma ConsoleLosesArgsExtra(a: Attributes, path: string)
    ensures var lines := EmitAsWritten([FileSink(path), Console], a,
                                       Dict(map["extra" := Dict(map["request_id" := Str("r-1")])]), None);
      && lines[0].sink == FileSink(path) && lines[1].sink == Console
      && lines[0].entry["request_id"] == Str("r-1")
      && "request_id" !in lines[1].entry
  {
    var args := Dict(map["extra" := Dict(map["request_id" := Str("r-1")])]);
    assert "request_id" !in FixedKeys + LocationKeys + {"exception"};
    LaterSinkLosesArgsExtra([FileSink(path), Console], a, args, None, "request_id");
  }

  /** Corrected first half of the dispatching formatter: `extra_data`
      defaults to `{}` only when the record does not carry it yet, so a record
      formatted once keeps what the first handler extracted. */
  function PreprocessFixed(args: Value, extraData: Option<Value>): (r: (Value, Option<Value>))
    ensures r.1.Some? && !IsDictWith(r.0, "extra")
    ensures IsDictWith(args, "extra") ==> r.1.value == args.entries["extra"]
    ensures !IsDictWith(args, "extra") ==> r.0 == args && ExtraFields(r.1) == ExtraFields(extraData)
  {
    if IsDictWith(args, "extra") then (Tuple([]), Some(args.entries["extra"]))
    else if extraData.None? then (args, Some(Dict(map[])))
    else (args, extraData)
  }

  lemma PreprocessFixedIdempotent(args: Value, extraData: Option<Value>)
    ensures var r := PreprocessFixed(args, extraData); PreprocessFixed(r.0, r.1) == r
  {
  }

  /** Once a record has been preprocessed, preprocessing it again yields the
      same state. */
  lemma PreprocessFixedSettles(args0: Value, extra0: Option<Value>, args: Value, extraData: Option<Value>)
    requires (args == args0 && extraData == extra0) || (args, extraData) == PreprocessFixed(args0, extra0)
    ensures PreprocessFixed(args, extraData) == PreprocessFixed(args0, extra0)
  {
    PreprocessFixedIdempotent(args0, extra0);
  }

  /** For a record that carries no `extra_data` yet, which is every record
      this service's callers build (no call passes an `extra_data` key in
      `extra=`), the correction leaves the first handler's line as written. */
  lemma FixedFirstLineAsWritten(sinks: seq<Sink>, a: Attributes, args: Value)
    requires sinks != []
    ensures EmitFixed(sinks, a, args, None)[0] == EmitAsWritten(sinks, a, args, None)[0]
  {
  }

  /** Where the correction does change the first line: a record that already
      carries a dict `extra_data` (a caller passing `extra={"extra_data": ...}`)
      and no `extra` in `args` keeps its fields, which the code as written
      resets to `{}` before the first handler renders. */
  lemma FixedKeepsCarriedExtraData(sinks: seq<Sink>, a: Attributes, args: Value, m: map<string, Value>, k: string)
    requires sinks != [] && !IsDictWith(args, "extra")
    requires k in m && k !in FixedKeys + LocationKeys + {"exception"}
    ensures k in EmitFixed(sinks, a, args, Some(Dict(m)))[0].entry
    ensures k !in EmitAsWritten(sinks, a, args, Some(Dict(m)))[0].entry
  {
    RenderKeys(RendererFor(a.levelno), a, Some(Dict(m)), k);
    RenderKeys(RendererFor(a.levelno), a, Preprocess(args, Some(Dict(m))).1, k);
  }

  /** Corrected `CustomLevelFormatter.format`. */
  method CustomLevelFormatFixed(record: LogRecord) returns (entry: map<string, Value>)
    modifies record
    ensures (record.args, record.extraData) == PreprocessFixed(old(record.args), old(record.extraData))
    ensures entry == Render(RendererFor(record.attrs.levelno), record.attrs, record.extraData)
  {
    if IsDictWith(record.args, "extra") {
      record.extraData := Some(record.args.entries["extra"]);
      record.args := Tuple([]);
    } else if record.extraData.None? {
      record.extraData := Some(Dict(map[]));
    }
    entry := FormatByLevel(record);
  }

  /** The record's journey through the handlers with the corrected formatter. */
  function EmitFixed(sinks: seq<Sink>, a: Attributes, args: Value, extraData: Option<Value>): (lines: seq<Line>)
    ensures |lines| == |sinks|
    ensures forall i :: 0 <= i < |sinks| ==> lines[i].sink == sinks[i]
    decreases |sinks|
  {
    if sinks == [] then []
    else
      var next := PreprocessFixed(args, extraData);
      [Line(sinks[0], Render(RendererFor(a.levelno), a, next.1))] + EmitFixed(sinks[1..], a, next.0, next.1)
  }

  /** With the corrected formatter every sink receives the same entry: the one
      the first handler renders. */
  lemma {:induction false} EmitFixedUniform(sinks: seq<Sink>, a: Attributes, args: Value, extraData: Option<Value>)
    ensures forall i :: 0 <= i < |sinks| ==>
      EmitFixed(sinks, a, args, extraData)[i].entry == Render(RendererFor(a.levelno), a, PreprocessFixed(args, extraData).1)
  {
    if sinks != [] {
      var next := PreprocessFixed(args, extraData);
      var entry := Render(RendererFor(a.levelno), a, next.1);
      var lines := EmitFixed(sinks, a, args, extraData);
      var rest := EmitFixed(sinks[1..], a, next.0, next.1);
      assert lines == [Line(sinks[0], entry)] + rest;
      PreprocessFixedIdempotent(args, extraData);
      EmitFixedUniform(sinks[1..], a, next.0, next.1);
      assert PreprocessFixed(next.0, next.1).1 == next.1;
      forall i | 0 <= i < |lines|
        ensures lines[i].entry == entry
      {
        if i == 0 {
          assert lines[0] == Line(sinks[0], entry);
        } else {
          assert lines[i] == rest[i - 1];
          assert rest[i - 1].entry == Render(RendererFor(a.levelno), a, PreprocessFixed(next.0, next.1).1);
        }
      }
    }
  }

  /** Any sequence holding, for each sink in order, the entry the first
      handler renders is the corrected emission. */
  lemma EmitFixedBroadcast(sinks: seq<Sink>, a: Attributes, args: Value, extraData: Option<Value>, lines: seq<Line>)
    requires |lines| == |sinks|
    requires forall j :: 0 <= j < |sinks| ==>
      lines[j] == Line(sinks[j], Render(RendererFor(a.levelno), a, PreprocessFixed(args, extraData).1))
    ensures lines == EmitFixed(sinks, a, args, extraData)
  {
    EmitFixedUniform(sinks, a, args, extraData);
  }

  // ---------------------------------------------------------------------------
  // The service logger and its set-up

  /** The configuration `setup_logging` reads. */
  datatype Settings = Settings(serviceName: string, logLevel: string, logFilePath: string)

  /** The logger `logging.getLogger(SERVICE_NAME)` returns; every call with
      that name yields this same object. Each handler in `handlers` is
      identified by its sink and carries a `CustomLevelFormatter`. */
  class Logger {
    const name: string
    var level: int
    var propagate: bool
    var handlers: seq<Sink>

    constructor (name: string)
      ensures this.name == name && level == NOTSET && propagate && handlers == []
    {
      this.name := name;
      level := NOTSET;
      propagate := true;
      handlers := [];
    }

    /** `Logger.callHandlers` for one record that passed the level check:
        every handler formats the record in turn. The record ends in the
        state the first handler's preprocessing leaves it in. */
    method Handle(record: LogRecord) returns (lines: seq<Line>)
      modifies record
      ensures lines == EmitFixed(handlers, record.attrs, old(record.args), old(record.extraData))
      ensures handlers != [] ==>
        (record.args, record.extraData) == PreprocessFixed(old(record.args), old(record.extraData))
      ensures handlers == [] ==> record.args == old(record.args) && record.extraData == old(record.extraData)
    {
      ghost var args0, extra0 := record.args, record.extraData;
      ghost var settled := PreprocessFixed(args0, extra0);
      ghost var expected := Render(RendererFor(record.attrs.levelno), record.attrs, settled.1);
      lines := [];
      var i := 0;
      while i < |handlers|
        invariant 0 <= i <= |handlers| && |lines| == i
        invariant forall j :: 0 <= j < i ==> lines[j] == Line(handlers[j], expected)
        invariant i == 0 ==> record.args == args0 && record.extraData == extra0
        invariant i > 0 ==> record.args == settled.0 && record.extraData == settled.1
      {
        PreprocessFixedSettles(args0, extra0, record.args, record.extraData);
        var entry := CustomLevelFormatFixed(record);
        lines := lines + [Line(handlers[i], entry)];
        i := i + 1;
      }
      EmitFixedBroadcast(handlers, record.attrs, args0, extra0, lines);
    }
  }

  /** The message `setup_logging` logs once its handlers are in place. */
  function StartupMessage(settings: Settings): string
  {
    "Logging configurado para nivel " + settings.logLevel + ". Logs se escribiran en: "
    + settings.logFilePath + " y consola."
  }

  /** `setup_logging`: set the level, stop propagation, drop every handler the
      logger already had and install a file handler then a console handler.
      An unknown level name makes `setLevel` raise before anything changes
      (None). On success the result is the INFO call announcing the set-up. */
  method SetupLogging(logger: Logger, settings: Settings) returns (announced: Option<LogCall>)
    requires logger.name == settings.serviceName
    modifies logger
    ensures LevelByName(settings.logLevel).None? ==> announced.None? && unchanged(logger)
    ensures LevelByName(settings.logLevel).Some? ==>
      && logger.level == LevelByName(settings.logLevel).value
      && !logger.propagate
      && logger.handlers == [FileSink(settings.logFilePath), Console]
      && announced == Some(LogCall(INFO, StartupMessage(settings), map[], false))
  {
    var level := LevelByName(settings.logLevel);
    if level.None? {
      return None;
    }
    logger.level := level.value;
    logger.propagate := false;
    // With propagation off, hasHandlers() looks at this logger alone.
    if |logger.handlers| > 0 {
      logger.handlers := [];
    }
    logger.handlers := logger.handlers + [FileSink(settings.logFilePath)];
    logger.handlers := logger.handlers + [Console];
    announced := Some(LogCall(INFO, StartupMessage(settings), map[], false));
  }

  /** The service start: importing the logging module runs `setup_logging()`
      and the application module runs it again on the same logger. Afterwards
      the logger still has exactly its two sinks. */
  method Startup(logger: Logger, settings: Settings)
    requires logger.name == settings.serviceName
    modifies logger
    ensures LevelByName(settings.logLevel).Some? ==>
      logger.handlers == [FileSink(settings.logFilePath), Console] && !logger.propagate
    ensures LevelByName(settings.logLevel).None? ==> unchanged(logger)
  {
    var first := SetupLogging(logger, settings);
    if first.None? {
      return;
    }
    var second := SetupLogging(logger, settings);
  }

  /** After set-up, even as written, a record reaches each of the two sinks
      exactly once, file first: the second run of the set-up does not add a
      second pair of handlers. */
  lemma OncePerSinkAsWritten(path: string, a: Attributes, args: Value, extraData: Option<Value>)
    ensures var lines := EmitAsWritten([FileSink(path), Console], a, args, extraData);
      |lines| == 2 && lines[0].sink == FileSink(path) && lines[1].sink == Console
  {
  }

  /** With the corrected formatter, a record reaches each of the two sinks
      exactly once, file first, and both receive the same entry. */
  lemma OncePerSink(path: string, a: Attributes, args: Value, extraData: Option<Value>)
    ensures var lines := EmitFixed([FileSink(path), Console], a, args, extraData);
      && |lines| == 2 && lines[0].sink == FileSink(path) && lines[1].sink == Console
      && lines[0].entry == lines[1].entry
  {
    EmitFixedUniform([FileSink(path), Console], a, args, extraData);
  }
}
