/** The log4net backend: TracerManager.Get wraps the log4net ILog of a name
    in an adapter whose four Trace overloads each pick at most one ILog
    method from the event type. The logger itself is left to log4net; the
    model records which of its methods an overload calls and with what. */
module Log4NetBackend {
  import opened Tracing
  import NLogBackend

  /** The ILog methods the adapter uses, by their level. */
  datatype Level = Fatal | Error | Warn | Info | Debug

  /** One call on an ILog. */
  datatype LoggerCall =
    | Log(level: Level, message: Text, exception: Option<string>)  // log.Fatal(message[, exception]), ...
    | LogFormat(level: Level, format: string, args: seq<string>)   // log.FatalFormat(format, args), ...

  /** A call made on the logger named `logger`. */
  datatype Record = Record(logger: string, call: LoggerCall)

  /** Log4NetAdapter: its only field is the ILog, set once. */
  datatype Adapter = Adapter(logger: string)

  /** The mapping table of the adapter's documentation: the five named
      severities map to a level, every other event type to none. */
  function LevelFor(t: TraceEventType): (r: Option<Level>)
    ensures r.None? <==> t.Start? || t.Stop? || t.Suspend? || t.Resume? || t.Transfer? || t.Unnamed?
  {
    match t
    case Critical => Some(Fatal)
    case Error => Some(Level.Error)
    case Warning => Some(Warn)
    case Information => Some(Info)
    case Verbose => Some(Debug)
    case _ => None
  }

  /** TracerManager.Get: an adapter over LogManager.GetLogger(name). */
  function Get(name: string): (a: Adapter)
    ensures a.logger == name
  {
    Adapter(name)
  }

  /** Trace(type, message). */
  function TraceMessage(a: Adapter, t: TraceEventType, message: string): (r: seq<Record>)
    ensures |r| <= 1
    ensures r != [] <==> LevelFor(t).Some?
    ensures forall x :: x in r ==> x.logger == a.logger && x.call.Log? && x.call.message == Literal(message) && x.call.exception == None
  {
    match t
    case Critical => [Record(a.logger, Log(Fatal, Literal(message), None))]
    case Error => [Record(a.logger, Log(Level.Error, Literal(message), None))]
    case Information => [Record(a.logger, Log(Info, Literal(message), None))]
    case Verbose => [Record(a.logger, Log(Debug, Literal(message), None))]
    case Warning => [Record(a.logger, Log(Warn, Literal(message), None))]
    case _ => []
  }

  /** Trace(type, format, args): the XxxFormat family, with the format and
      arguments passed on unformatted. */
  function TraceFormat(a: Adapter, t: TraceEventType, format: string, args: seq<string>): (r: seq<Record>)
    ensures |r| <= 1
    ensures r != [] <==> LevelFor(t).Some?
    ensures forall x :: x in r ==>
              x.logger == a.logger && x.call.LogFormat? && x.call.format == format && x.call.args == args
  {
    match t
    case Critical => [Record(a.logger, LogFormat(Fatal, format, args))]
    case Error => [Record(a.logger, LogFormat(Level.Error, format, args))]
    case Information => [Record(a.logger, LogFormat(Info, format, args))]
    case Verbose => [Record(a.logger, LogFormat(Debug, format, args))]
    case Warning => [Record(a.logger, LogFormat(Warn, format, args))]
    case _ => []
  }

  /** Trace(type, exception, message): Xxx(message, exception). */
  function TraceException(a: Adapter, t: TraceEventType, exception: string, message: string): (r: seq<Record>)
    ensures |r| <= 1
    ensures r != [] <==> LevelFor(t).Some?
    ensures forall x :: x in r ==>
              x.logger == a.logger && x.call.Log? && x.call.message == Literal(message) && x.call.exception == Some(exception)
  {
    match t
    case Critical => [Record(a.logger, Log(Fatal, Literal(message), Some(exception)))]
    case Error => [Record(a.logger, Log(Level.Error, Literal(message), Some(exception)))]
    case Information => [Record(a.logger, Log(Info, Literal(message), Some(exception)))]
    case Verbose => [Record(a.logger, Log(Debug, Literal(message), Some(exception)))]
    case Warning => [Record(a.logger, Log(Warn, Literal(message), Some(exception)))]
    case _ => []
  }

  /** Trace(type, exception, format, args): Xxx(string.Format(format, args), exception). */
  function TraceExceptionFormat(a: Adapter, t: TraceEventType, exception: string, format: string, args: seq<string>): (r: seq<Record>)
    ensures |r| <= 1
    ensures r != [] <==> LevelFor(t).Some?
    ensures forall x :: x in r ==>
              x.logger == a.logger && x.call.Log? && x.call.message == Formatted(format, args) && x.call.exception == Some(exception)
  {
    match t
    case Critical => [Record(a.logger, Log(Fatal, Formatted(format, args), Some(exception)))]
    case Error => [Record(a.logger, Log(Level.Error, Formatted(format, args), Some(exception)))]
    case Information => [Record(a.logger, Log(Info, Formatted(format, args), Some(exception)))]
    case Verbose => [Record(a.logger, Log(Debug, Formatted(format, args), Some(exception)))]
    case Warning => [Record(a.logger, Log(Warn, Formatted(format, args), Some(exception)))]
    case _ => []
  }

  /** ITracer.Trace, whichever overload the caller picks. */
  function Trace(a: Adapter, t: TraceEventType, call: TraceCall): (r: seq<Record>)
    ensures |r| <= 1
    ensures r != [] <==> LevelFor(t).Some?
    ensures forall x :: x in r ==> x.logger == a.logger && Some(LevelOf(x.call)) == LevelFor(t)
  {
    match call
    case Message(message) => TraceMessage(a, t, message)
    case Format(format, args) => TraceFormat(a, t, format, args)
    case ExceptionMessage(exception, message) => TraceException(a, t, exception, message)
    case ExceptionFormat(exception, format, args) => TraceExceptionFormat(a, t, exception, format, args)
  }

  /** The level a logger call was made at. */
  function LevelOf(c: LoggerCall): Level
  {
    match c
    case Log(level, _, _) => level
    case LogFormat(level, _, _) => level
  }

  /** Each of the four switches follows the one table: exactly one call at
      the table's level when it has one, and none otherwise. */
  lemma OverloadsFollowTable(a: Adapter, t: TraceEventType, call: TraceCall)
    ensures var r := Trace(a, t, call);
            match LevelFor(t)
            case None => r == []
            case Some(level) => |r| == 1 && r[0].logger == a.logger && LevelOf(r[0].call) == level
  {
  }

  /** The activity event types (and any unnamed value) are ignored. */
  lemma ActivitiesIgnored(a: Adapter, t: TraceEventType, call: TraceCall)
    requires t.Start? || t.Stop? || t.Suspend? || t.Resume? || t.Transfer? || t.Unnamed?
    ensures Trace(a, t, call) == []
  {
  }

  /** The adapter from Get logs to the named logger only: no chain of
      parent names as in the System.Diagnostics backend. */
  lemma GetTargetsOneLogger(name: string, t: TraceEventType, call: TraceCall)
    ensures |Trace(Get(name), t, call)| <= 1
    ensures forall x :: x in Trace(Get(name), t, call) ==> x.logger == name
  {
  }

  /** The name of the ILog method family of a level. */
  function Name(l: Level): string
  {
    match l
    case Fatal => "Fatal"
    case Error => "Error"
    case Warn => "Warn"
    case Info => "Info"
    case Debug => "Debug"
  }

  /** The log4net and NLog tables agree: for every event type they select
      methods of the same name, or both select none. */
  lemma TablesAgree(t: TraceEventType)
    ensures LevelFor(t).None? <==> NLogBackend.LevelFor(t).None?
    ensures LevelFor(t).Some? ==> Name(LevelFor(t).value) == NLogBackend.Name(NLogBackend.LevelFor(t).value)
  {
  }

  /** Hence the two backends, given the same name, event and overload, call
      the same logger at the same level, or both make no call. */
  lemma BackendsAgree(name: string, t: TraceEventType, call: TraceCall)
    ensures var r := Trace(Get(name), t, call);
            var n := NLogBackend.Trace(NLogBackend.Get(name), t, call);
            |r| == |n| && forall i :: 0 <= i < |r| ==>
              r[i].logger == n[i].logger && Name(LevelOf(r[i].call)) == NLogBackend.Name(NLogBackend.LevelOf(n[i].call))
  {
    OverloadsFollowTable(Get(name), t, call);
    NLogBackend.OverloadsFollowTable(NLogBackend.Get(name), t, call);
    TablesAgree(t);
  }
}
