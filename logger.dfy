/**
 * The service logger: a level threshold (INFO by default) and a record per call, written
 * to `console.error`, `console.warn` or `console.log` by level. The clock's ISO timestamp,
 * the signed-in user from the auth context (absent when it is unavailable) and the random
 * request id are parameters; each console line is kept as the record itself, before
 * `JSON.stringify`.
 */
module Logging {
  import opened Wrappers
  import JsValue

  datatype LogLevel = Debug | Info | Warn | Error

  /** The enum's numeric value. */
  function Severity(l: LogLevel): nat {
    match l
    case Debug => 0
    case Info => 1
    case Warn => 2
    case Error => 3
  }

  /** `LogLevel[level]`. */
  function LevelName(l: LogLevel): string {
    match l
    case Debug => "DEBUG"
    case Info => "INFO"
    case Warn => "WARN"
    case Error => "ERROR"
  }

  datatype ErrorInfo = ErrorInfo(name: string, message: string, stack: Option<string>)

  datatype LogContext = LogContext(
    service: Option<string>,
    endpoint: Option<string>,
    userId: Option<string>,
    requestId: Option<string>,
    error: Option<ErrorInfo>,
    data: Option<JsValue.Value>)

  datatype Sink = ConsoleLog | ConsoleWarn | ConsoleError

  datatype Line = Line(sink: Sink, record: seq<JsValue.Field>)

  function Str(s: Option<string>): JsValue.Value {
    match s
    case Some(t) => JsValue.Str(t)
    case None => JsValue.Undefined
  }

  /** `a || b` for two optional strings, `undefined` when neither is a non-empty string. */
  function OrStr(a: Option<string>, b: Option<string>): (r: JsValue.Value)
    ensures a.Some? && a.value != "" ==> r == JsValue.Str(a.value)
    ensures !(a.Some? && a.value != "") ==> r == Str(b)
  {
    if a.Some? && a.value != "" then JsValue.Str(a.value) else Str(b)
  }

  /** `Object.fromEntries(Object.entries(o).filter(([_, v]) => v !== undefined))`. */
  function Cleaned(fields: seq<JsValue.Field>): (r: seq<JsValue.Field>)
    ensures forall i :: 0 <= i < |r| ==> r[i].val != JsValue.Undefined && r[i] in fields
    ensures forall i :: 0 <= i < |fields| && fields[i].val != JsValue.Undefined ==> fields[i] in r
  {
    if fields == [] then []
    else
      var last := fields[|fields| - 1];
      assert fields == fields[..|fields| - 1] + [last];
      Cleaned(fields[..|fields| - 1]) + (if last.val != JsValue.Undefined then [last] else [])
  }

  function ErrorValue(e: ErrorInfo): JsValue.Value {
    JsValue.Obj([JsValue.Field("name", JsValue.Str(e.name)), JsValue.Field("message", JsValue.Str(e.message)),
      JsValue.Field("stack", Str(e.stack))])
  }

  /** The record one call logs, before its `undefined` fields are dropped. */
  function RawRecord(level: LogLevel, message: string, ctx: Option<LogContext>, timestamp: string, authUser: Option<string>, freshId: string): seq<JsValue.Field> {
    var c := ctx.UnwrapOr(LogContext(None, None, None, None, None, None));
    [ JsValue.Field("timestamp", JsValue.Str(timestamp)),
      JsValue.Field("level", JsValue.Str(LevelName(level))),
      JsValue.Field("message", JsValue.Str(message)),
      JsValue.Field("userId", OrStr(c.userId, authUser)),
      JsValue.Field("service", Str(c.service)),
      JsValue.Field("endpoint", Str(c.endpoint)),
      JsValue.Field("requestId", OrStr(c.requestId, Some(freshId))),
      JsValue.Field("error", if c.error.Some? then ErrorValue(c.error.value) else JsValue.Undefined),
      JsValue.Field("data", if c.data.Some? then c.data.value else JsValue.Undefined) ]
  }

  function Record(level: LogLevel, message: string, ctx: Option<LogContext>, timestamp: string, authUser: Option<string>, freshId: string): seq<JsValue.Field> {
    Cleaned(RawRecord(level, message, ctx, timestamp, authUser, freshId))
  }

  /** Errors to `console.error`, warnings to `console.warn`, the rest to `console.log`. */
  function SinkFor(level: LogLevel): (r: Sink)
    ensures r == ConsoleError <==> level == Error
    ensures r == ConsoleWarn <==> level == Warn
    ensures r == ConsoleLog <==> level in {Debug, Info}
  {
    if Severity(level) >= 3 then ConsoleError
    else if Severity(level) >= 2 then ConsoleWarn
    else ConsoleLog
  }

  class Logger {
    var level: LogLevel
    var lines: seq<Line>

    constructor ()
      ensures level == Info && lines == []
    {
      level := Info;
      lines := [];
    }

    method SetLevel(l: LogLevel)
      modifies this
      ensures level == l && lines == old(lines)
    {
      level := l;
    }

    /** `log`, which `debug`, `info`, `warn` and `error` call with their own level. */
    method Log(l: LogLevel, message: string, ctx: Option<LogContext>, timestamp: string, authUser: Option<string>, freshId: string)
      modifies this
      ensures level == old(level)
      ensures Severity(l) < Severity(level) ==> lines == old(lines)
      ensures Severity(l) >= Severity(level) ==>
        lines == old(lines) + [Line(SinkFor(l), Record(l, message, ctx, timestamp, authUser, freshId))]
    {
      if Severity(l) < Severity(level) {
        return;
      }
      var record := Cleaned(RawRecord(l, message, ctx, timestamp, authUser, freshId));
      var sink: Sink;
      if Severity(l) >= Severity(Error) {
        sink := ConsoleError;
      } else if Severity(l) >= Severity(Warn) {
        sink := ConsoleWarn;
      } else {
        sink := ConsoleLog;
      }
      lines := lines + [Line(sink, record)];
    }
  }

  /** A logged record has no `undefined` field, and it always names its level and message. */
  lemma RecordShape(l: LogLevel, message: string, ctx: Option<LogContext>, timestamp: string, authUser: Option<string>, freshId: string)
    ensures var r := Record(l, message, ctx, timestamp, authUser, freshId);
      && (forall i :: 0 <= i < |r| ==> r[i].val != JsValue.Undefined)
      && JsValue.Field("level", JsValue.Str(LevelName(l))) in r
      && JsValue.Field("message", JsValue.Str(message)) in r
  {
    var raw := RawRecord(l, message, ctx, timestamp, authUser, freshId);
    assert raw[1].val != JsValue.Undefined && raw[2].val != JsValue.Undefined;
  }

  /** The context's user id, when it is a non-empty string, wins over the signed-in user. */
  lemma ContextUserWins(l: LogLevel, message: string, c: LogContext, timestamp: string, authUser: Option<string>, freshId: string)
    requires c.userId.Some? && c.userId.value != ""
    ensures JsValue.Field("userId", JsValue.Str(c.userId.value)) in Record(l, message, Some(c), timestamp, authUser, freshId)
  {
    var raw := RawRecord(l, message, Some(c), timestamp, authUser, freshId);
    assert raw[3].val != JsValue.Undefined;
  }

  /** With nothing to say who the user is, the record has no `userId` field. */
  lemma NoUserNoField(l: LogLevel, message: string, timestamp: string, freshId: string, v: JsValue.Value)
    ensures JsValue.Field("userId", v) !in Record(l, message, None, timestamp, None, freshId)
  {
    var raw := RawRecord(l, message, None, timestamp, None, freshId);
    forall i | 0 <= i < |raw| && raw[i].key == "userId"
      ensures raw[i].val == JsValue.Undefined
    {
      assert i == 3;
    }
  }

  /**
   * At the default level a debug call writes nothing, and once the level is lowered to DEBUG
   * the same call writes one `console.log` line whose level is "DEBUG".
   */
  method DebugGating(message: string, timestamp: string, freshId: string)
  {
    var logger := new Logger();
    logger.Log(Debug, message, None, timestamp, None, freshId);
    assert logger.lines == [];
    logger.SetLevel(Debug);
    logger.Log(Debug, message, None, timestamp, None, freshId);
    assert |logger.lines| == 1 && logger.lines[0].sink == ConsoleLog;
    RecordShape(Debug, message, None, timestamp, None, freshId);
    assert JsValue.Field("level", JsValue.Str("DEBUG")) in logger.lines[0].record;
  }
}
