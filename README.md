# NuTracer core in Dafny

NuTracer puts one tracing interface (`ITracer`) in front of three
backends. This project models the core of each, and the TracerHub
console, and proves properties of the models.

- **System.Diagnostics backend (`Tracer.Diagnostics`).**
  - A `TracerManager` keeps one cache of `TraceSource`s shared by the whole
    process.
  - `Get(name)` returns an `AggregateTracer` over the sources of the name's
    *composite chain*: `"*"`, then every dotted prefix of the name, then the
    name itself.
  - Tracing through the aggregate traces through each source in turn. While
    it does, the source is renamed to the aggregate's name, so a listener on
    `"*"` sees `"Foo.Bar"` and not `"*"`.
  - `AddListener`, both `RemoveListener`s and `SetTracingLevel` change the
    cached source of one name, creating it on first use. An empty name
    makes `new TraceSource("")` throw: `Get("")` fails after caching `"*"`,
    and the other four fail without changing anything.
- **NLog and log4net backends.**
  - `Get(name)` wraps the backend's logger for exactly that name.
  - Each of the four `Trace` overloads maps the event type through one fixed
    table to at most one logger call.
- **The TracerHub console.**
  - It checks its argument count.
  - It then reads command lines until a `Q` line. A `[E|W|I]:Source:Message`
    line sends a trace event to the hub. A `Source=Level` line sets a level.
    Malformed commands print a usage hint, and anything else is ignored.

Files and modules:
- `tracing.dfy` (`Tracing`): shared types: event types, source levels,
  message texts and the four Trace overloads as a datatype.
- `strings.dfy` (`Strings`): the few `System.String` operations used, with
  split/join round trips.
- `naming.dfy` (`Naming`): `CompositeFor`.
- `dispatch.dfy` (`Dispatch`): how one trace call reaches listeners, as pure
  functions, with a reference definition ("every addressed listener in order,
  until one raises").
- `diagnostics.dfy` (`Diagnostics`): the mutable objects:
  - `TraceSource`, `SourceNameReplacer`, `DiagnosticsTracer`,
    `AggregateTracer` and `TracerManager` are classes;
  - the source cache is a `map` field that the registry methods reassign.
- `scenarios.dfy` (`DiagnosticsScenarios`): the two listener tests of the
  unit-test suite, as methods proved correct for every name and level that
  fits them.
- `console.dfy` (`Console`): the console's per-line decision is a pure
  function, and its read loop is a method proved against it.
- `nlog.dfy` (`NLogBackend`), `log4net.dfy` (`Log4NetBackend`): the two
  switch tables, and the proof that they agree.

Parameters:
- **The gate.** Whether a switch level lets an event type through
  (`SourceSwitch.ShouldTrace`) is a parameter `gate`. Every result holds for
  any gate.
- **Raising listeners.** Which listener calls throw is a parameter `raises`.
  A throw ends the trace call. The source's name is restored all the same,
  because of the `using` block.
- **New sources.** The level and listeners a new source gets from
  configuration are a parameter `defaults`.

A non-generic name of k non-empty, dot-separated segments has a chain of
k + 1 source names. It is `"*"`, then the k - 1 dotted prefixes of the part
before the last dot, then the name itself from the final `yield return name`.

## Model

| member | source | states |
|---|---|---|
| Naming.CompositeFor | Tracer.Diagnostics/content/net35/Tracer/TracerManager.cs:73-103 | The chain has at least two names. It starts with "*" and ends with the name itself. Every name in between is non-empty and holds no '<'. |
| Naming.Prefixes | Tracer.Diagnostics/content/net35/Tracer/TracerManager.cs:97-100 | The loop yields one name per segment. |
| Naming.PrefixAt | Tracer.Diagnostics/content/net35/Tracer/TracerManager.cs:97-100 | The i-th name joins the first i + 1 segments with '.'. |
| Naming.EmptyInChain | Tracer.Diagnostics/content/net35/Tracer/TracerManager.cs:73-84 | In both directions: the chain holds an empty name iff the name itself is empty. The chain of "" is ["*", ""]. |
| Naming.PlainName | Tracer.Diagnostics/content/net35/Tracer/TracerManager.cs:80-84 | A name with neither '.' nor '<' has the chain ["*", name]. |
| Naming.DefaultSourceTwice | Tracer.Diagnostics/content/net35/Tracer/TracerManager.cs:19-29 | Get("*") lists the default source twice: the chain is ["*", "*"]. |
| Naming.DottedName | Tracer.Diagnostics/content/net35/Tracer/TracerManager.cs:86-102 | A non-generic name of k non-empty, dot-free segments has the chain "*" followed by the k dotted prefixes, k + 1 names in all. |
| Naming.DottedChain | Tracer.Diagnostics/content/net35/Tracer/TracerManager.cs:88-102 | For two or more segments, the prefixes come from splitting the part before the last '.'. What follows them is the name itself. |
| Naming.GenericName | Tracer.Diagnostics/content/net35/Tracer/TracerManager.cs:92-102 | With a '<', only the part before the first '<' is split. Dots inside the type arguments never produce names. |
| Naming.GenericExample | Tracer.Diagnostics/content/net35/Tracer/TracerManager.cs:92-102 | "A<B.C>" has the chain ["*", "A", "A<B.C>"]. |
| Naming.DottedPair | Tracer.Diagnostics/content/net35/Tracer/TracerManager.cs:88-102 | "A.B" has the chain ["*", "A", "A.B"]. |
| Naming.DottedExample | Tracer.Diagnostics/content/net35/Tracer/TracerManager.cs:88-102 | "A.B.C" has the chain ["*", "A", "A.B", "A.B.C"]. |
| Diagnostics.TraceSource.TraceEvent | Tracer.Diagnostics/content/net35/Tracer/TracerManager.cs:205 | The listener loop makes exactly the calls of Emit. The calls are none if the gate is closed. Otherwise each listener is called in order with the source's current name, up to and including the first that raises. |
| Diagnostics.MessageOf | Tracer.Diagnostics/content/net35/Tracer/TracerManager.cs:199-241 | The text handed to the source carries an exception exactly for the two exception overloads, and that exception once. Before it comes the message itself for the message overloads, and the formatted text for the format overloads. |
| Diagnostics.SourceNameReplacer.constructor | Tracer.Diagnostics/content/net35/Tracer/TracerManager.cs:270-278 | Remembers the source's original name and sets the new one. |
| Diagnostics.SourceNameReplacer.Dispose | Tracer.Diagnostics/content/net35/Tracer/TracerManager.cs:280-283 | Puts the original name back. |
| Diagnostics.DiagnosticsTracer.Trace | Tracer.Diagnostics/content/net35/Tracer/TracerManager.cs:199-241 | All four overloads trace through the source under the aggregate's name. Every listener call carries that name. Afterwards the source has its own name back, also when a listener raised. |
| Diagnostics.AggregateTracer.Trace | Tracer.Diagnostics/content/net35/Tracer/TracerManager.cs:151-178 | The ForEach over the tracers makes exactly the calls of Fanout over the sources' views, in chain order. Every source behind the tracer, and so every source it may rename, has its own name back afterwards. |
| Diagnostics.TracerManager.GetOrAdd | Tracer.Diagnostics/content/net35/Tracer/TracerManager.cs:111-131 | Returns the cached source of that name. If there is none, it returns a fresh source with that name, added under that name. For the empty name the factory throws: the result is null and nothing is cached. In every case no other cache entry changes, and no name's level or listeners change. |
| Diagnostics.TracerManager.AddListener | Tracer.Diagnostics/content/net35/Tracer/TracerManager.cs:34-37 | The call raises iff the name is empty, and then nothing changes. Otherwise the source of that name gets the listener appended. It is created first if missing. Every other name has the level and listeners it had. |
| Diagnostics.TracerManager.RemoveListener | Tracer.Diagnostics/content/net35/Tracer/TracerManager.cs:42-45 | The call raises iff the name is empty, and then nothing changes. Otherwise the source of that name loses the first occurrence of the listener, if any. It is created first if missing. Every other name has the level and listeners it had. |
| Diagnostics.TracerManager.RemoveListenerByName | Tracer.Diagnostics/content/net35/Tracer/TracerManager.cs:50-53 | The call raises iff the name is empty, and then nothing changes. Otherwise the source of that name loses its first listener with that name, if any. It is created first if missing. Every other name has the level and listeners it had. |
| Diagnostics.TracerManager.SetTracingLevel | Tracer.Diagnostics/content/net35/Tracer/TracerManager.cs:58-61 | The call raises iff the name is empty, and then nothing changes. Otherwise the source of that name gets that level and keeps its listeners. It is created first if missing. Every other name has the level and listeners it had. |
| Diagnostics.TracerManager.SourcesFor | Tracer.Diagnostics/content/net35/Tracer/TracerManager.cs:24-28 | One GetOrAdd per chain name, in order, until an empty name throws. It raises iff the chain holds an empty name. The cache gains exactly the missing names before the first empty one, and old entries are kept. |
| Diagnostics.TracerManager.Get | Tracer.Diagnostics/content/net35/Tracer/TracerManager.cs:22-29 | It fails (null) exactly for the empty name, after caching only "*". Otherwise: a fresh aggregate named `name`, with one tracer per chain name, each over the cached source of that name, and the cache gains exactly the chain's missing names. No level or listener changes. The tracer's views are the chain's lookups. |
| Diagnostics.TracerManager.TracerOver | Tracer.Diagnostics/content/net35/Tracer/TracerManager.cs:24-29 | Get's construction for a given chain. It fails (null) iff the chain holds an empty name, after caching the names before it. Otherwise it gives Get's guarantees for that chain. |
| Diagnostics.UntilEmpty | Tracer.Diagnostics/content/net35/Tracer/TracerManager.cs:24-27 | The names a chain reaches before its first empty one: a prefix of the chain, free of "", shorter than the chain iff the chain holds "", and followed by "" when shorter. |
| Diagnostics.UntilEmptyAt | Tracer.Diagnostics/content/net35/Tracer/TracerManager.cs:24-27 | The first empty name is exactly where it stops. |
| Diagnostics.TracersOver | Tracer.Diagnostics/content/net35/Tracer/TracerManager.cs:25-27 | One new DiagnosticsTracer per source, over that source, in order. |
| Diagnostics.AggregateOver | Tracer.Diagnostics/content/net35/Tracer/TracerManager.cs:142-146 | A fresh aggregate with that name and one tracer per source, in order. |
| Diagnostics.RemoveFirst | Tracer.Diagnostics/content/net35/Tracer/TracerManager.cs:44 | List.Remove: one element shorter when the listener is present, unchanged when it is absent. |
| Diagnostics.RemoveFirstAt | Tracer.Diagnostics/content/net35/Tracer/TracerManager.cs:44 | It removes exactly the first occurrence and keeps the order of the rest. |
| Diagnostics.RemoveFirstMultiset | Tracer.Diagnostics/content/net35/Tracer/TracerManager.cs:44 | Exactly one copy of the listener goes, when present, and nothing else. |
| Diagnostics.RemoveNamed | Tracer.Diagnostics/content/net35/Tracer/TracerManager.cs:52 | Remove by name: one element shorter when some listener has the name, unchanged otherwise. |
| Diagnostics.RemoveNamedAt | Tracer.Diagnostics/content/net35/Tracer/TracerManager.cs:52 | It removes exactly the first listener with the name and keeps the order of the rest. |
| Dispatch.Notify | Tracer.Diagnostics/content/net35/Tracer/TracerManager.cs:205 | A source's listener loop never makes more calls than the source has listeners. |
| Dispatch.Emit | Tracer.Diagnostics/content/net35/Tracer/TracerManager.cs:205 | A source whose switch does not pass the event type makes no call. Otherwise it makes at most one call per listener. |
| Dispatch.EmitIsUntil | Tracer.Diagnostics/content/net35/Tracer/TracerManager.cs:205 | One source's part is the reference behaviour over its listeners when its switch passes, and over none otherwise. |
| Dispatch.Fanout | Tracer.Diagnostics/content/net35/Tracer/TracerManager.cs:151-178 | The ForEach over a chain makes no more calls than the chain addresses listeners. |
| Dispatch.Until | Tracer.Diagnostics/content/net35/Tracer/TracerManager.cs:151-178 | The reference behaviour makes no more calls than it is given. |
| Dispatch.UntilStops | Tracer.Diagnostics/content/net35/Tracer/TracerManager.cs:151-178 | The calls made are a prefix of those addressed, and none raises except possibly the last. If the call did not raise, all were made and none raised. |
| Dispatch.NotifyIsUntil | Tracer.Diagnostics/content/net35/Tracer/TracerManager.cs:205 | One source's listener loop is the reference behaviour over its listeners. |
| Dispatch.NotifyCarries | Tracer.Diagnostics/content/net35/Tracer/TracerManager.cs:199-241 | Every call of a source carries the name it presents, the event type and the message, and goes to one of its listeners. |
| Dispatch.FanoutIsUntil | Tracer.Diagnostics/content/net35/Tracer/TracerManager.cs:151-178 | A trace call over a chain is the reference behaviour over the addressed listeners. Those are the listeners of every source whose gate passes, source order first, listener order second. |
| Dispatch.ReachedMembers | Tracer.Diagnostics/content/net35/Tracer/TracerManager.cs:151-178 | In both directions: a listener is addressed iff some source of the chain passes the gate and holds it. |
| Dispatch.FanoutDelivers | Tracer.Diagnostics/content/net35/Tracer/TracerManager.cs:151-178 | When no listener raises, the call does not raise. In both directions, a listener receives the event iff some source whose gate passes holds it. |
| Dispatch.FanoutSourceName | Tracer.Diagnostics/content/net35/Tracer/TracerManager.cs:243-259 | Every listener call of an aggregate carries the aggregate's name, never the source's own name, whatever the listeners do. |
| DiagnosticsScenarios.OneListenerChain | Tracer.UnitTests/DiagnosticsTracerSpec.cs:22-35 | A chain of "*" without listeners and one source with one listener whose gate passes makes exactly one call. |
| DiagnosticsScenarios.OwnSourceSetUp | Tracer.UnitTests/DiagnosticsTracerSpec.cs:25-28 | After AddListener("Foo") and SetTracingLevel("Foo", Information), "Foo" holds exactly the listener at Information, and "*" still has its defaults. |
| DiagnosticsScenarios.PlainTracer | Tracer.UnitTests/DiagnosticsTracerSpec.cs:30 | Get("Foo") gives a tracer named "Foo" whose views are "*" then "Foo", in that order, and no level or listener of the manager changes. |
| DiagnosticsScenarios.TraceToOwnSource | Tracer.UnitTests/DiagnosticsTracerSpec.cs:22-35 | AddListener("Foo"), SetTracingLevel("Foo", Information), then Get("Foo").Info("Hello"). `Info("Hello")` is the format overload with no arguments, as the test's six-argument `TraceEvent` check shows. The listener receives exactly one call: ("Foo", Information, format "Hello" with no arguments). |
| DiagnosticsScenarios.TwoListenerChain | Tracer.UnitTests/DiagnosticsTracerSpec.cs:37-54 | The chain ["*", "Foo", "Foo.Bar"] calls Foo's listener if Foo's gate passes, then Foo.Bar's listener. |
| DiagnosticsScenarios.DottedListeners | Tracer.UnitTests/DiagnosticsTracerSpec.cs:42-43 | After the two AddListener calls, each source holds exactly its listener, and "*" still has its defaults. |
| DiagnosticsScenarios.DottedSetUp | Tracer.UnitTests/DiagnosticsTracerSpec.cs:42-46 | After the test's four calls, "Foo" and "Foo.Bar" have their listener and level, and "*" its defaults. |
| DiagnosticsScenarios.DottedTracer | Tracer.UnitTests/DiagnosticsTracerSpec.cs:48 | Get("Foo.Bar") gives a tracer named "Foo.Bar" whose views are "*", "Foo" and "Foo.Bar", in that order, and no level or listener of the manager changes. |
| DiagnosticsScenarios.TraceWithDots | Tracer.UnitTests/DiagnosticsTracerSpec.cs:37-54 | Get("Foo.Bar").Info("Hello"), through the format overload with no arguments, calls Foo's listener, then Foo.Bar's, both with source "Foo.Bar" and format "Hello". With Foo switched off, only Foo.Bar's listener is called. |
| DiagnosticsScenarios.TraceKeepsManager | Tracer.Diagnostics/content/net35/Tracer/TracerManager.cs:151-178 | A trace through a tracer of the manager keeps the manager's invariant: every cached source carries its own name. No level or listener changes, and the calls are those of Fanout. |
| DiagnosticsScenarios.TraceThenAddListener | Tracer.Diagnostics/content/net35/Tracer/TracerManager.cs:22-37 | After Get and a trace, AddListener still applies. It raises iff the name is empty, and otherwise appends the listener to that name's source. |
| DiagnosticsScenarios.GetTwice | Tracer.Diagnostics/content/net35/Tracer/TracerManager.cs:24-29 | An empty name fails both times. Otherwise two Get calls for one name return distinct aggregates over the very same cached sources. |
| Console.SeverityFor | Tracer.Console/Program.cs:96-107 | In both directions: "E" gives Error, "W" gives Warning, and every other first piece gives Information. |
| Console.SeverityCodes | Tracer.Console/Program.cs:96-107 | "E" and "W" are recognised, and anything else, "I" included, means Information. |
| Console.IsQuit | Tracer.Console/Program.cs:89 | A quit line is a single character and is neither a trace nor a level command. |
| Console.ParseLevel | Tracer.Console/Program.cs:124-125 | A parsed level has the parsed text as its name. The parse fails iff no member has that name. |
| Console.ParseLevelName | Tracer.Console/Program.cs:124-125 | In both directions: the level parse accepts exactly a member's name, and gives that member. |
| Console.Classify | Tracer.Console/Program.cs:89-133 | A line is a quit iff it is "Q" or "q", and ignored iff it is no quit and has neither ':' nor '='. In both directions, a line with a ':' is a trace event iff it splits into three non-empty pieces, and gets the trace hint otherwise. A line with '=' and no ':' sets a level iff it splits into two non-empty pieces whose second names a level, and gets the level hint otherwise. |
| Console.ClassifyCommandLine | Tracer.Console/Program.cs:91-128 | Round trip: the canonical command line of a well-formed call is classified as that very call. |
| Console.ClassifyWellFormed | Tracer.Console/Program.cs:93-127 | Every call the console makes is well formed: the severity is one of the three, and the pieces are non-empty and delimiter-free. Its canonical line makes the same call. |
| Console.ColonWins | Tracer.Console/Program.cs:91-121 | A line holding both ':' and '=' is treated as a trace command, never as a level command. |
| Console.ColonInMessage | Tracer.Console/Program.cs:93-119 | A message with a ':' between two non-empty parts gives four pieces, and the line is rejected with the trace usage hint. |
| Console.TraceCommand | Tracer.Console/Program.cs:91-119 | For pieces joined by ':': a trace event with the severity, source and message that are left once empty pieces are dropped, if three are left. Otherwise the trace hint. "E::Src:Msg" is "E:Src:Msg". |
| Console.LevelCommand | Tracer.Console/Program.cs:121-132 | For ':'-free pieces joined by '=': the level command of the two non-empty pieces if the second names a level. Otherwise the level hint. |
| Console.Replay | Tracer.Console/Program.cs:87-136 | The loop reads no more lines than there are. Each line makes at most one invocation or one hint. The loop ends by a quit line or by running out of input. |
| Console.ReplayEnding | Tracer.Console/Program.cs:87-89 | Input runs out iff every line was read and none was a quit line. Otherwise the last line read is the first quit line. |
| Console.QuitStops | Tracer.Console/Program.cs:89 | Nothing after the first quit line is read or has any effect. |
| Console.SkipNoEffect | Tracer.Console/Program.cs:91-135 | A line with neither ':' nor '=' causes no invocation and no output. |
| Console.ReplayWellFormed | Tracer.Console/Program.cs:93-127 | Every invocation of a run is well formed. |
| Console.ConsoleRun | Tracer.Console/Program.cs:59-136 | With an argument count other than 1: the usage line and the quit hint, at most one line read, no connection and no call. With one argument: connected, and the three banner lines come first. |
| Console.Run | Tracer.Console/Program.cs:59-136 | The argument check and the read loop do exactly what ConsoleRun describes. |
| NLogBackend.Get | Tracer.NLog/content/System/Diagnostics/Tracer/TracerManager.cs:83-86 | The adapter wraps the logger of exactly that name. |
| NLogBackend.LevelFor | Tracer.NLog/content/System/Diagnostics/Tracer/TracerManager.cs:43-73 | The table makes no choice exactly for Start, Stop, Suspend, Resume, Transfer and unnamed values. |
| NLogBackend.Trace | Tracer.NLog/content/System/Diagnostics/Tracer/TracerManager.cs:97-211 | Whatever the overload: at most one call, made iff the table has a level. The call goes to the adapter's logger at the table's level. |
| NLogBackend.TraceMessage | Tracer.NLog/content/System/Diagnostics/Tracer/TracerManager.cs:97-124 | At most one call, made exactly when the table has a level. The call goes to the adapter's logger and passes the message itself. |
| NLogBackend.TraceFormat | Tracer.NLog/content/System/Diagnostics/Tracer/TracerManager.cs:126-153 | The same, passing format and arguments unformatted. |
| NLogBackend.TraceException | Tracer.NLog/content/System/Diagnostics/Tracer/TracerManager.cs:155-182 | The same, calling XxxException with the message text and the exception. |
| NLogBackend.TraceExceptionFormat | Tracer.NLog/content/System/Diagnostics/Tracer/TracerManager.cs:184-211 | The same, calling XxxException with the formatted text and the exception. |
| NLogBackend.OverloadsFollowTable | Tracer.NLog/content/System/Diagnostics/Tracer/TracerManager.cs:97-211 | For all four overloads: Critical makes a Fatal call, Error an Error call, Warning Warn, Information Info and Verbose Debug. Each is exactly one call on the adapter's logger. Any other event type makes none. |
| NLogBackend.ActivitiesIgnored | Tracer.NLog/content/System/Diagnostics/Tracer/TracerManager.cs:116-122 | Start, Stop, Suspend, Resume, Transfer and unnamed values make no call. |
| NLogBackend.TableKeepsSeverity | Tracer.NLog/content/System/Diagnostics/Tracer/TracerManager.cs:99-115 | The table is one-to-one on the five severities and keeps their order, in both directions. |
| NLogBackend.GetTargetsOneLogger | Tracer.NLog/content/System/Diagnostics/Tracer/TracerManager.cs:83-86 | A tracer from Get calls at most one logger, the named one, with no parent-chain fan-out. |
| Log4NetBackend.Get | Tracer.Log4Net/content/External/Diagnostics/Tracer/Log4Net/TracerManager.cs:85-88 | The adapter wraps the ILog of exactly that name. |
| Log4NetBackend.LevelFor | Tracer.Log4Net/content/External/Diagnostics/Tracer/Log4Net/TracerManager.cs:45-75 | The table makes no choice exactly for Start, Stop, Suspend, Resume, Transfer and unnamed values. |
| Log4NetBackend.Trace | Tracer.Log4Net/content/External/Diagnostics/Tracer/Log4Net/TracerManager.cs:99-213 | Whatever the overload: at most one call, made iff the table has a level. The call goes to the adapter's logger at the table's level. |
| Log4NetBackend.TraceMessage | Tracer.Log4Net/content/External/Diagnostics/Tracer/Log4Net/TracerManager.cs:99-126 | At most one call, made exactly when the table has a level. The call goes to the adapter's logger, with the message and no exception. |
| Log4NetBackend.TraceFormat | Tracer.Log4Net/content/External/Diagnostics/Tracer/Log4Net/TracerManager.cs:128-155 | The same, calling the XxxFormat family with format and arguments. |
| Log4NetBackend.TraceException | Tracer.Log4Net/content/External/Diagnostics/Tracer/Log4Net/TracerManager.cs:157-184 | The same, passing the message and the exception. |
| Log4NetBackend.TraceExceptionFormat | Tracer.Log4Net/content/External/Diagnostics/Tracer/Log4Net/TracerManager.cs:186-213 | The same, passing the formatted text and the exception. |
| Log4NetBackend.OverloadsFollowTable | Tracer.Log4Net/content/External/Diagnostics/Tracer/Log4Net/TracerManager.cs:99-213 | For all four overloads: exactly one call at the table's level on the adapter's logger, or none. |
| Log4NetBackend.ActivitiesIgnored | Tracer.Log4Net/content/External/Diagnostics/Tracer/Log4Net/TracerManager.cs:118-124 | Activity event types and unnamed values make no call. |
| Log4NetBackend.GetTargetsOneLogger | Tracer.Log4Net/content/External/Diagnostics/Tracer/Log4Net/TracerManager.cs:85-88 | A tracer from Get calls at most one logger, the named one. |
| Log4NetBackend.TablesAgree | Tracer.Log4Net/content/External/Diagnostics/Tracer/Log4Net/TracerManager.cs:99-213 | For every event type, log4net and NLog select methods of the same name, or both select none. |
| Log4NetBackend.BackendsAgree | Tracer.Log4Net/content/External/Diagnostics/Tracer/Log4Net/TracerManager.cs:99-213 | Given the same name, event and overload, both backends make the same number of calls, on the same logger, at levels of the same name. |

## Left out

- Locks: the double-checked `lock (AppDomain.CurrentDomain)` and the per-source `lock (source)` are not modelled. Calls are sequential, and the AppDomain data slot is an explicit `TracerManager` map field.
- Sharing between managers is not modelled. In the code every `TracerManager` instance reads the same AppDomain slot, so all managers share one cache. In the model the map belongs to one `TracerManager` object, and two managers have separate caches.
- A null name is not modelled: a string here is never null, so the `ArgumentNullException` of `new TraceSource(null)` cannot arise. The `ArgumentException` for the empty name is modelled as a `raised` result, or a null tracer from `Get`.
- The private reflection on `TraceSource.sourceName` is not modelled. The source's name is a plain mutable field, written by SourceNameReplacer.
- `SourceSwitch.ShouldTrace` is not modelled; it is the `gate` parameter.
- A new source's configured level and listeners (app.config) are not modelled; they are the `defaults` parameter.
- What listeners do with a call is not modelled. A call is recorded as a `Delivery`, and whether it throws is the `raises` parameter.
- `string.Format`, `Environment.NewLine` and `Exception.ToString` are not modelled. They stay symbolic in the `Text` datatype.
- Diagnostics.DiagnosticsTracer.Trace, Diagnostics.AggregateTracer.Trace, NLogBackend.TraceExceptionFormat, Log4NetBackend.TraceExceptionFormat: the eager `string.Format(format, args)` of the exception-format overloads (TracerManager.cs:238 and the backends' exception-format switches) throws `FormatException` on a malformed format. That throw is not modelled. So the claim that the aggregate ends at its first tracer with no listener call, and that a backend makes no logger call, is not made. Likewise, the `NullReferenceException` of `message.ToString()` on a null message (TracerManager.cs:205, :227) is not modelled, because messages here are never null. The format overload without an exception formats inside the listeners, so a throw there is a listener raising, which `raises` covers.
- Console.Replay, Console.ConsoleRun: the hub calls and the console lines are kept as two separate sequences. Each is in order, but how calls and lines interleave is not recorded.
- `object` messages are modelled as strings.
- The `TraceSource` event id (always 0) is not modelled.
- `StartActivity` and activity scopes are not modelled; their implementation is not part of this model.
- The manager's `Dispose` is not modelled; it is an empty method.
- Everything SignalR is not modelled: `HubConnection`, `CreateHubProxy`, the `proxy.On` handler and `hub.Start().Wait()`. `proxy.Invoke` is recorded as a `HubCall`.
- Console I/O is not modelled as I/O. Input is a sequence of lines, and output is a sequence of `ConsoleLine`s.
- The `tracer.Info("Starting TracerHub Console")` call before the argument check is not modelled.
- The module path in the usage line is a parameter.
- End of input is not modelled as an exception. `ReadLine` returns null there, and `line.Equals` would throw; the model ends the run with `InputExhausted` instead.
- Console.ParseLevel: `Enum.TryParse<SourceLevels>` also accepts numeric strings, comma-separated flag lists and surrounding spaces. The model accepts only the exact member names, `ActivityTracing` included.
- Console.IsQuit: the case-insensitive comparison with "Q" is modelled as equality with "Q" or "q".
- The NLog and log4net libraries themselves are not modelled. Only which of their methods an adapter calls, and with what, is modelled.
- Dispatch.Notify: its contract gives only the length bound. What the calls are is stated by Dispatch.NotifyIsUntil and Dispatch.NotifyCarries.
- Diagnostics.AggregateTracer.Trace: its result is stated over the sources' views as they were when the call started. Renaming a source does not change its view.
