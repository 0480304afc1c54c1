/** The NLog backend: TracerManager.Get wraps the NLog logger of a name in
    an adapter whose four Trace overloads each pick at most one Logger
    method from the event type. The logger itself is left to NLog; the
    model records which of its methods an overload calls and with what. */
module NLogBackend {
  import opened Tracing

  /** The Logger methods the adapter uses, by their level. */
  datatype Level = Fatal | Error | Warn | Info | Debug

  /** One call on a Logger. */
  datatype LoggerCall =
    | Log(level: Level, message: string)                          // log.Fatal(message), ...
    | LogFormat(level: Level, format: string, args: seq<string>)  // log.Fatal(format, args), ...
    | LogException(level: Level, text: Text, exception: string) // log.FatalException(text, exception), ...

  /** A call made on the logger named `logger`. */
  datatype Record = Record(logger: string, call: LoggerCall)

  /** NLogAdapter: its only field is the logger, set once. */
  datatype Adapter = Adapter(logger: string)

  /** The mapping table of the adapter's documentation: the five named
      severities map to a level, every other event type to none. */
  function LevelFor(t: TraceEventType): (r: Option<Level>)
    ensures r.None? <==> t.Start? || t.Stop? || t.Suspend? || t.Resume? || t.Transfer? || t.Unnamed?
  {
    match t
    case Critical => Some(Fatal)
    case Error => Some(Level.Error)
    case Warning => Some(Warn)
    case Information => Some(Info)
    case Verbose => Some(Debug)
    case _ => None
  }

  /** TracerManager.Get: an adapter over LogManager.GetLogger(name). */
  function Get(name: string): (a: Adapter)
    ensures a.logger == name
  {
    Adapter(name)
  }

  /** Trace(type, message). */
  function TraceMessage(a: Adapter, t: TraceEventType, message: string): (r: seq<Record>)
    ensures |r| <= 1
    ensures r != [] <==> LevelFor(t).Some?
    ensures forall x :: x in r ==> x.logger == a.logger && x.call.Log? && x.call.message == message
  {
    match t
    case Critical => [Record(a.logger, Log(Fatal, message))]
    case Error => [Record(a.logger, Log(Level.Error, message))]
    case Information => [Record(a.logger, Log(Info, message))]
    case Verbose => [Record(a.logger, Log(Debug, message))]
    case Warning => [Record(a.logger, Log(Warn, message))]
    case _ => []
  }

  /** Trace(type, format, args): the format and arguments are passed on
      unformatted. */
  function TraceFormat(a: Adapter, t: TraceEventType, format: string, args: seq<string>): (r: seq<Record>)
    ensures |r| <= 1
    ensures r != [] <==> LevelFor(t).Some?
    ensures forall x :: x in r ==>
              x.logger == a.logger && x.call.LogFormat? && x.call.format == format && x.call.args == args
  {
    match t
    case Critical => [Record(a.logger, LogFormat(Fatal, format, args))]
    case Error => [Record(a.logger, LogFormat(Level.Error, format, args))]
    case Information => [Record(a.logger, LogFormat(Info, format, args))]
    case Verbose => [Record(a.logger, LogFormat(Debug, format, args))]
    case Warning => [Record(a.logger, LogFormat(Warn, format, args))]
    case _ => []
  }

  /** Trace(type, exception, message): XxxException(message.ToString(), exception). */
  function TraceException(a: Adapter, t: TraceEventType, exception: string, message: string): (r: seq<Record>)
    ensures |r| <= 1
    ensures r != [] <==> LevelFor(t).Some?
    ensures forall x :: x in r ==>
              x.logger == a.logger && x.call.LogException? && x.call.text == Literal(message) && x.call.exception == exception
  {
    match t
    case Critical => [Record(a.logger, LogException(Fatal, Literal(message), exception))]
    case Error => [Record(a.logger, LogException(Level.Error, Literal(message), exception))]
    case Information => [Record(a.logger, LogException(Info, Literal(message), exception))]
    case Verbose => [Record(a.logger, LogException(Debug, Literal(message), exception))]
    case Warning => [Record(a.logger, LogException(Warn, Literal(message), exception))]
    case _ => []
  }

  /** Trace(type, exception, format, args): XxxException(string.Format(format, args), exception). */
  function TraceExceptionFormat(a: Adapter, t: TraceEventType, exception: string, format: string, args: seq<string>): (r: seq<Record>)
    ensures |r| <= 1
    ensures r != [] <==> LevelFor(t).Some?
    ensures forall x :: x in r ==>
              x.logger == a.logger && x.call.LogException? && x.call.text == Formatted(format, args) && x.call.exception == exception
  {
    match t
    case Critical => [Record(a.logger, LogException(Fatal, Formatted(format, args), exception))]
    case Error => [Record(a.logger, LogException(Level.Error, Formatted(format, args), exception))]
    case Information => [Record(a.logger, LogException(Info, Formatted(format, args), exception))]
    case Verbose => [Record(a.logger, LogException(Debug, Formatted(format, args), exception))]
    case Warning => [Record(a.logger, LogException(Warn, Formatted(format, args), exception))]
    case _ => []
  }

  /** ITracer.Trace, whichever overload the caller picks. */
  function Trace(a: Adapter, t: TraceEventType, call: TraceCall): (r: seq<Record>)
    ensures |r| <= 1
    ensures r != [] <==> LevelFor(t).Some?
    ensures forall x :: x in r ==> x.logger == a.logger && Some(LevelOf(x.call)) == LevelFor(t)
  {
    match call
    case Message(message) => TraceMessage(a, t, message)
    case Format(format, args) => TraceFormat(a, t, format, args)
    case ExceptionMessage(exception, message) => TraceException(a, t, exception, message)
    case ExceptionFormat(exception, format, args) => TraceExceptionFormat(a, t, exception, format, args)
  }

  /** The level a logger call was made at. */
  function LevelOf(c: LoggerCall): Level
  {
    match c
    case Log(level, _) => level
    case LogFormat(level, _, _) => level
    case LogException(level, _, _) => level
  }

  /** Each of the four switches follows the one table: exactly one call at
      the table's level when it has one, and none otherwise. */
  lemma OverloadsFollowTable(a: Adapter, t: TraceEventType, call: TraceCall)
    ensures var r := Trace(a, t, call);
            match LevelFor(t)
            case None => r == []
            case Some(level) => |r| == 1 && r[0].logger == a.logger && LevelOf(r[0].call) == level
  {
  }

  /** The activity event types (and any unnamed value) are ignored. */
  lemma ActivitiesIgnored(a: Adapter, t: TraceEventType, call: TraceCall)
    requires t.Start? || t.Stop? || t.Suspend? || t.Resume? || t.Transfer? || t.Unnamed?
    ensures Trace(a, t, call) == []
  {
  }

  /** The order of severity, least severe first. */
  function Rank(l: Level): nat
  {
    match l
    case Debug => 0
    case Info => 1
    case Warn => 2
    case Error => 3
    case Fatal => 4
  }

  /** The order of severity of the named event types, least severe first. */
  function EventRank(t: TraceEventType): nat
    requires LevelFor(t).Some?
  {
    match t
    case Verbose => 0
    case Information => 1
    case Warning => 2
    case Error => 3
    case Critical => 4
  }

  /** The table is one-to-one and keeps the order of severity. */
  lemma TableKeepsSeverity(t1: TraceEventType, t2: TraceEventType)
    requires LevelFor(t1).Some? && LevelFor(t2).Some?
    ensures EventRank(t1) <= EventRank(t2) <==> Rank(LevelFor(t1).value) <= Rank(LevelFor(t2).value)
    ensures LevelFor(t1) == LevelFor(t2) <==> t1 == t2
  {
  }

  /** The adapter from Get logs to the named logger only: no chain of
      parent names as in the System.Diagnostics backend. */
  lemma GetTargetsOneLogger(name: string, t: TraceEventType, call: TraceCall)
    ensures |Trace(Get(name), t, call)| <= 1
    ensures forall x :: x in Trace(Get(name), t, call) ==> x.logger == name
  {
  }

  /** The name of the Logger method family of a level. */
  function Name(l: Level): string
  {
    match l
    case Fatal => "Fatal"
    case Error => "Error"
    case Warn => "Warn"
    case Info => "Info"
    case Debug => "Debug"
  }
}
