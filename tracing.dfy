/** Types shared by the tracer facade and its three backends: the event
    types and source levels of System.Diagnostics, the four overloads of
    ITracer.Trace, and the messages they carry. */
module Tracing {

  datatype Option<+T> = None | Some(value: T)

  /** The values of System.Diagnostics.TraceEventType's members: Critical 1,
      Error 2, Warning 4, Information 8, Verbose 16, Start 256, Stop 512,
      Suspend 1024, Resume 2048, Transfer 4096. Every other integer names no
      member. */
  type UnnamedCode = c: int | c !in {1, 2, 4, 8, 16, 256, 512, 1024, 2048, 4096}

  /** System.Diagnostics.TraceEventType. `Unnamed` stands for an integer cast
      to the enum that names none of its members (a `switch` reaches its
      `default` branch with it). */
  datatype TraceEventType =
    | Critical | Error | Warning | Information | Verbose
    | Start | Stop | Suspend | Resume | Transfer
    | Unnamed(code: UnnamedCode)

  /** System.Diagnostics.SourceLevels, the value of a source's switch. */
  datatype SourceLevels =
    | Off | Critical | Error | Warning | Information | Verbose | ActivityTracing | All

  /** A message as handed to a listener or a logging backend. Formatting and
      the text of an exception belong to the .NET library and stay symbolic. */
  datatype Text =
    | Literal(value: string)                         // message.ToString()
    | Formatted(format: string, args: seq<string>)   // string.Format(format, args)
    | WithException(message: Text, exception: string) // message + Environment.NewLine + exception

  /** The four overloads of ITracer.Trace, without their event type. */
  datatype TraceCall =
    | Message(message: string)
    | Format(format: string, args: seq<string>)
    | ExceptionMessage(exception: string, message: string)
    | ExceptionFormat(exception: string, format: string, args: seq<string>)
}
