/** The TracerHub console: it checks its arguments, then reads commands
    line by line and turns each into at most one hub invocation or one
    usage hint, until a line "Q" (either case) or the end of input. */
module Console {
  import opened Tracing
  import Strings

  /** The lines the console writes. */
  datatype ConsoleLine =
    | TraceUsage              // the usage hint for trace commands, also a banner line
    | LevelUsage              // the usage hint for level commands, also a banner line
    | QuitHint
    | UsageLine(modulePath: string)   // the usage line for a wrong argument count

  /** The text of each line; `modulePath` is the program's own module path. */
  function Text(l: ConsoleLine): string
  {
    match l
    case TraceUsage => "Send trace event:  [E(rror)|I(nformation)|W(arning)]:[Source]:[Message]"
    case LevelUsage => "Set tracing level: [Source]=[Off|Critical|Error|Warning|Information|Verbose|All]"
    case QuitHint => "Press 'Q' to exit."
    case UsageLine(modulePath) => "Usage: " + modulePath + " groupName"
  }

  /** What the console sends to the hub (proxy.Invoke). */
  datatype HubCall =
    | TraceEvent(eventType: TraceEventType, source: string, message: string)
    | SetTracingLevel(source: string, level: SourceLevels)

  /** What one input line makes the console do. */
  datatype Action = Quit | Invoke(call: HubCall) | Hint(text: ConsoleLine) | Skip

  /** line.Equals("Q", StringComparison.InvariantCultureIgnoreCase). */
  predicate IsQuit(line: string)
    ensures IsQuit(line) ==> |line| == 1 && ':' !in line && '=' !in line
  {
    line == "Q" || line == "q"
  }

  /** The severity of a trace command from its first piece. */
  function SeverityFor(piece: string): (t: TraceEventType)
    ensures t == TraceEventType.Error <==> piece == "E"
    ensures t == TraceEventType.Warning <==> piece == "W"
    ensures t == TraceEventType.Information <==> piece != "E" && piece != "W"
  {
    if piece == "E" then TraceEventType.Error
    else if piece == "W" then TraceEventType.Warning
    else TraceEventType.Information
  }

  /** The name of a member of SourceLevels. */
  function LevelName(level: SourceLevels): string
  {
    match level
    case Off => "Off"
    case Critical => "Critical"
    case Error => "Error"
    case Warning => "Warning"
    case Information => "Information"
    case Verbose => "Verbose"
    case ActivityTracing => "ActivityTracing"
    case All => "All"
  }

  /** Enum.TryParse<SourceLevels> on a member name (case-sensitive). */
  function ParseLevel(s: string): (r: Option<SourceLevels>)
    ensures r.Some? ==> LevelName(r.value) == s
    ensures r.None? <==> forall level :: LevelName(level) != s
  {
    if s == "Off" then Some(SourceLevels.Off)
    else if s == "Critical" then Some(SourceLevels.Critical)
    else if s == "Error" then Some(SourceLevels.Error)
    else if s == "Warning" then Some(SourceLevels.Warning)
    else if s == "Information" then Some(SourceLevels.Information)
    else if s == "Verbose" then Some(SourceLevels.Verbose)
    else if s == "ActivityTracing" then Some(SourceLevels.ActivityTracing)
    else if s == "All" then Some(SourceLevels.All)
    else None
  }

  /** Parsing accepts exactly the member names, each for its own member. */
  lemma ParseLevelName(s: string, level: SourceLevels)
    ensures ParseLevel(s) == Some(level) <==> s == LevelName(level)
  {
  }

  /** The pieces of a level command that the console accepts: a source and
      the name of a level. */
  predicate LevelArguments(pieces: seq<string>)
  {
    |pieces| == 2 && ParseLevel(pieces[1]).Some?
  }

  /** The decision the loop body makes for one line. */
  function Classify(line: string): (a: Action)
    ensures a == Quit <==> IsQuit(line)
    ensures a == Skip <==> !IsQuit(line) && ':' !in line && '=' !in line
    ensures a.Invoke? && a.call.TraceEvent? <==> !IsQuit(line) && ':' in line && |Strings.Split(line, ':')| == 3
    ensures a == Hint(TraceUsage) <==> !IsQuit(line) && ':' in line && |Strings.Split(line, ':')| != 3
    ensures a.Invoke? && a.call.SetTracingLevel? <==>
              !IsQuit(line) && ':' !in line && '=' in line && LevelArguments(Strings.Split(line, '='))
    ensures a == Hint(LevelUsage) <==>
              !IsQuit(line) && ':' !in line && '=' in line && !LevelArguments(Strings.Split(line, '='))
    ensures a.Hint? ==> a.text == TraceUsage || a.text == LevelUsage
  {
    if IsQuit(line) then Quit
    else if Strings.IndexOf(line, ':') != -1 then
      var trace := Strings.Split(line, ':');
      if |trace| == 3 then Invoke(TraceEvent(SeverityFor(trace[0]), trace[1], trace[2]))
      else Hint(TraceUsage)
    else if Strings.IndexOf(line, '=') != -1 then
      var trace := Strings.Split(line, '=');
      if LevelArguments(trace) then Invoke(SetTracingLevel(trace[0], ParseLevel(trace[1]).value))
      else Hint(LevelUsage)
    else Skip
  }

  /** The calls a command line can produce: a trace event of one of the
      three severities with a non-empty, ':'-free source and message, or a
      level for a non-empty source free of ':' and '='. */
  predicate WellFormed(c: HubCall)
  {
    match c
    case TraceEvent(t, source, message) =>
      (t == TraceEventType.Error || t == TraceEventType.Warning || t == TraceEventType.Information)
      && source != "" && ':' !in source && message != "" && ':' !in message
    case SetTracingLevel(source, level) =>
      source != "" && ':' !in source && '=' !in source
  }

  /** The short code of a severity, as the trace usage hint lists them. */
  function Code(t: TraceEventType): string
  {
    if t == TraceEventType.Error then "E" else if t == TraceEventType.Warning then "W" else "I"
  }

  /** The canonical command line for a call. */
  function CommandLine(c: HubCall): string
  {
    match c
    case TraceEvent(t, source, message) => Code(t) + ":" + source + ":" + message
    case SetTracingLevel(source, level) => source + "=" + LevelName(level)
  }

  /** Joining three pieces with ':' puts the delimiter between them. */
  lemma JoinThree(a: string, b: string, c: string, d: char)
    ensures Strings.Join([a, b, c], d) == a + [d] + b + [d] + c
  {
    assert [a, b, c][1..] == [b, c];
    assert [b, c][1..] == [c];
    assert Strings.Join([b, c], d) == b + [d] + c;
    assert a + [d] + (b + [d] + c) == a + [d] + b + [d] + c;
  }

  lemma JoinTwo(a: string, b: string, d: char)
    ensures Strings.Join([a, b], d) == a + [d] + b
  {
    assert [a, b][1..] == [b];
  }

  /** ':' and '=' do not occur in the name of a level. */
  lemma LevelNameClean(level: SourceLevels)
    ensures ':' !in LevelName(level) && '=' !in LevelName(level) && LevelName(level) != ""
  {
  }

  /** Round trip: a well-formed call's command line is classified as that call. */
  lemma ClassifyCommandLine(c: HubCall)
    requires WellFormed(c)
    ensures Classify(CommandLine(c)) == Invoke(c)
  {
    var line := CommandLine(c);
    match c
    case TraceEvent(t, source, message) =>
      var parts := [Code(t), source, message];
      JoinThree(Code(t), source, message, ':');
      assert Code(t) + ":" + source + ":" + message == Code(t) + [':'] + source + [':'] + message;
      assert Strings.Segments(parts, ':');
      Strings.SplitJoin(parts, ':');
      assert line[|Code(t)|] == ':';
      assert SeverityFor(Code(t)) == t;
    case SetTracingLevel(source, level) =>
      var name := LevelName(level);
      LevelNameClean(level);
      var parts := [source, name];
      JoinTwo(source, name, '=');
      assert source + "=" + name == source + ['='] + name;
      assert Strings.Segments(parts, '=');
      Strings.SplitJoin(parts, '=');
      assert line[|source|] == '=';
      assert ':' !in line by {
        assert forall i :: 0 <= i < |line| ==> line[i] == (source + ['='] + name)[i];
      }
      ParseLevelName(name, level);
  }

  /** Every call the console makes is well formed, so it is also the call
      its canonical command line makes. */
  lemma ClassifyWellFormed(line: string)
    requires Classify(line).Invoke?
    ensures WellFormed(Classify(line).call)
    ensures Classify(CommandLine(Classify(line).call)) == Classify(line)
  {
    var c := Classify(line).call;
    if c.SetTracingLevel? {
      var trace := Strings.Split(line, '=');
      Strings.SplitAvoids(line, '=', ':');
    }
    ClassifyCommandLine(c);
  }

  /** A ':' wins over '=': such a line never sets a level. */
  lemma ColonWins(line: string)
    requires ':' in line && '=' in line && !IsQuit(line)
    ensures Classify(line) == Hint(TraceUsage) || (Classify(line).Invoke? && Classify(line).call.TraceEvent?)
  {
  }

  /** A message that itself holds a ':' between two non-empty parts makes
      four pieces, and the line is rejected with the usage hint. */
  lemma ColonInMessage(severity: string, source: string, a: string, b: string)
    requires Strings.Segments([severity, source, a, b], ':')
    ensures Classify(severity + ":" + source + ":" + a + ":" + b) == Hint(TraceUsage)
  {
    var parts := [severity, source, a, b];
    var line := severity + ":" + source + ":" + a + ":" + b;
    assert Strings.Join(parts, ':') == line by {
      assert parts[1..] == [source, a, b];
      JoinThree(source, a, b, ':');
    }
    Strings.SplitJoin(parts, ':');
    assert line[|severity|] == ':';
    assert !IsQuit(line) by {
      assert |line| > 1;
    }
  }

  /** A line of pieces joined by ':' is a trace event exactly when three
      pieces are left once the empty ones are dropped, and is rejected with
      the trace hint otherwise, so "E::Source:Message" is "E:Source:Message"
      and "E:Source" or "E:Source:Message:More" is a hint. */
  lemma TraceCommand(raw: seq<string>)
    requires |raw| >= 2 && forall i :: 0 <= i < |raw| ==> ':' !in raw[i]
    ensures var p := Strings.RemoveEmpty(raw);
            Classify(Strings.Join(raw, ':'))
            == if |p| == 3 then Invoke(TraceEvent(SeverityFor(p[0]), p[1], p[2])) else Hint(TraceUsage)
  {
    var line := Strings.Join(raw, ':');
    assert line == raw[0] + [':'] + Strings.Join(raw[1..], ':');
    assert line[|raw[0]|] == ':';
    Strings.SplitAllJoin(raw, ':');
  }

  /** A ':'-free line of pieces joined by '=' sets a level exactly when a
      source and a level name are left once the empty pieces are dropped,
      and is rejected with the level hint otherwise. */
  lemma LevelCommand(raw: seq<string>)
    requires |raw| >= 2 && forall i :: 0 <= i < |raw| ==> ':' !in raw[i] && '=' !in raw[i]
    ensures var p := Strings.RemoveEmpty(raw);
            Classify(Strings.Join(raw, '='))
            == if LevelArguments(p) then Invoke(SetTracingLevel(p[0], ParseLevel(p[1]).value)) else Hint(LevelUsage)
  {
    var line := Strings.Join(raw, '=');
    assert line == raw[0] + ['='] + Strings.Join(raw[1..], '=');
    assert line[|raw[0]|] == '=';
    Strings.NotInJoin(raw, '=', ':');
    Strings.SplitAllJoin(raw, '=');
  }

  /** The severity codes: "E" and "W" are recognised, every other first
      piece (including "I") means Information. */
  lemma SeverityCodes(piece: string)
    ensures SeverityFor("E") == TraceEventType.Error && SeverityFor("W") == TraceEventType.Warning
    ensures piece != "E" && piece != "W" ==> SeverityFor(piece) == TraceEventType.Information
  {
  }

  /** How the input ended: a quit line, no more input (ReadLine returns
      null and the loop's line.Equals fails), or the usage path. */
  datatype Ending = Quitted | InputExhausted | ShowedUsage

  /** What the loop did with the lines it read. */
  datatype Transcript = Transcript(calls: seq<HubCall>, output: seq<ConsoleLine>, consumed: nat, ending: Ending)

  /** The effect of one line that is not a quit line, before the rest. */
  function Prefix(calls: seq<HubCall>, output: seq<ConsoleLine>, k: nat, r: Transcript): Transcript
  {
    Transcript(calls + r.calls, output + r.output, k + r.consumed, r.ending)
  }

  lemma PrefixPrefix(c1: seq<HubCall>, o1: seq<ConsoleLine>, k1: nat, c2: seq<HubCall>, o2: seq<ConsoleLine>, k2: nat, r: Transcript)
    ensures Prefix(c1, o1, k1, Prefix(c2, o2, k2, r)) == Prefix(c1 + c2, o1 + o2, k1 + k2, r)
  {
    assert c1 + (c2 + r.calls) == (c1 + c2) + r.calls;
    assert o1 + (o2 + r.output) == (o1 + o2) + r.output;
  }

  /** The calls and output of one classified line. */
  function CallsOf(a: Action): seq<HubCall>
  {
    if a.Invoke? then [a.call] else []
  }

  function OutputOf(a: Action): seq<ConsoleLine>
  {
    if a.Hint? then [a.text] else []
  }

  /** The read/classify loop as a function of the input lines. */
  function Replay(lines: seq<string>): (r: Transcript)
    ensures r.consumed <= |lines|
    ensures |r.calls| + |r.output| <= r.consumed
    ensures r.ending == Quitted || r.ending == InputExhausted
  {
    if lines == [] then Transcript([], [], 0, InputExhausted)
    else if IsQuit(lines[0]) then Transcript([], [], 1, Quitted)
    else Prefix(CallsOf(Classify(lines[0])), OutputOf(Classify(lines[0])), 1, Replay(lines[1..]))
  }

  /** The loop stops at the first quit line, and runs out of input only
      when there is none. */
  lemma {:induction false} ReplayEnding(lines: seq<string>)
    ensures var r := Replay(lines);
            r.ending == InputExhausted <==> r.consumed == |lines| && forall i :: 0 <= i < |lines| ==> !IsQuit(lines[i])
    ensures var r := Replay(lines);
            r.ending == Quitted ==> r.consumed >= 1 && IsQuit(lines[r.consumed - 1])
                                    && forall i :: 0 <= i < r.consumed - 1 ==> !IsQuit(lines[i])
  {
    if lines != [] {
      ReplayEnding(lines[1..]);
      assert forall i :: 1 <= i < |lines| ==> lines[i] == lines[1..][i - 1];
    }
  }

  /** Replay over a suffix, one line at a time. */
  lemma ReplayStep(lines: seq<string>, i: nat)
    requires i < |lines| && !IsQuit(lines[i])
    ensures Replay(lines[i..]) == Prefix(CallsOf(Classify(lines[i])), OutputOf(Classify(lines[i])), 1, Replay(lines[i + 1..]))
  {
    assert lines[i..][0] == lines[i];
    assert lines[i..][1..] == lines[i + 1..];
  }

  /** A quit line ends the loop: nothing after it is read. */
  lemma {:induction false} QuitStops(pre: seq<string>, q: string, rest: seq<string>)
    requires IsQuit(q)
    requires forall i :: 0 <= i < |pre| ==> !IsQuit(pre[i])
    ensures Replay(pre + [q] + rest) == Replay(pre + [q])
    ensures Replay(pre + [q]).consumed == |pre| + 1 && Replay(pre + [q]).ending == Quitted
  {
    if pre == [] {
      assert (pre + [q] + rest)[0] == q;
      assert (pre + [q])[0] == q;
    } else {
      assert (pre + [q] + rest)[1..] == pre[1..] + [q] + rest;
      assert (pre + [q])[1..] == pre[1..] + [q];
      assert (pre + [q] + rest)[0] == pre[0] && (pre + [q])[0] == pre[0];
      QuitStops(pre[1..], q, rest);
    }
  }

  /** A line with neither ':' nor '=' has no effect but being read. */
  lemma SkipNoEffect(line: string, rest: seq<string>)
    requires !IsQuit(line) && ':' !in line && '=' !in line
    ensures Replay([line] + rest).calls == Replay(rest).calls
    ensures Replay([line] + rest).output == Replay(rest).output
    ensures Replay([line] + rest).consumed == Replay(rest).consumed + 1
  {
    assert ([line] + rest)[1..] == rest;
  }

  /** Everything the console invokes is well formed. */
  lemma {:induction false} ReplayWellFormed(lines: seq<string>)
    ensures forall c :: c in Replay(lines).calls ==> WellFormed(c)
  {
    if lines != [] {
      ReplayWellFormed(lines[1..]);
      if Classify(lines[0]).Invoke? {
        ClassifyWellFormed(lines[0]);
      }
    }
  }

  /** The end of a run of the console. */
  datatype Session = Session(output: seq<ConsoleLine>, calls: seq<HubCall>, linesRead: nat, connected: bool, ending: Ending)

  /** The banner printed once connected. */
  const Banner: seq<ConsoleLine> := [TraceUsage, LevelUsage, QuitHint]

  /** Main, from the argument check on, as a function of the arguments and
      the input lines. */
  function ConsoleRun(args: seq<string>, modulePath: string, input: seq<string>): (s: Session)
    ensures |args| != 1 ==> !s.connected && s.calls == [] && s.ending == ShowedUsage
                            && s.output == [UsageLine(modulePath), QuitHint] && s.linesRead <= 1
    ensures |args| == 1 ==> s.connected && |s.output| >= 3 && s.output[..3] == Banner && s.ending != ShowedUsage
  {
    if |args| != 1 then
      Session([UsageLine(modulePath), QuitHint], [], if |input| == 0 then 0 else 1, false, ShowedUsage)
    else
      var r := Replay(input);
      Session(Banner + r.output, r.calls, r.consumed, true, r.ending)
  }

  /** Main: the argument check, then the loop of lines 87-136. */
  method Run(args: seq<string>, modulePath: string, input: seq<string>) returns (s: Session)
    ensures s == ConsoleRun(args, modulePath, input)
  {
    if |args| != 1 {
      var read := if |input| == 0 then 0 else 1;
      return Session([UsageLine(modulePath), QuitHint], [], read, false, ShowedUsage);
    }
    var hints: seq<ConsoleLine> := [];
    var calls: seq<HubCall> := [];
    var i := 0;
    assert input[0..] == input;
    while i < |input| && !IsQuit(input[i])
      invariant 0 <= i <= |input|
      invariant Replay(input) == Prefix(calls, hints, i, Replay(input[i..]))
    {
      var action := Classify(input[i]);
      ghost var nextCalls := calls + CallsOf(action);
      ghost var nextHints := hints + OutputOf(action);
      ReplayStep(input, i);
      PrefixPrefix(calls, hints, i, CallsOf(action), OutputOf(action), 1, Replay(input[i + 1..]));
      assert Replay(input) == Prefix(nextCalls, nextHints, i + 1, Replay(input[i + 1..]));
      if action.Invoke? {
        calls := calls + [action.call];
      } else if action.Hint? {
        hints := hints + [action.text];
      } else {
        assert calls + [] == calls && hints + [] == hints;
      }
      assert calls == nextCalls && hints == nextHints;
      assert Replay(input) == Prefix(calls, hints, i + 1, Replay(input[i + 1..]));
      i := i + 1;
    }
    if i == |input| {
      assert input[i..] == [];
      return Session(Banner + hints, calls, i, true, InputExhausted);
    }
    assert Replay(input[i..]) == Transcript([], [], 1, Quitted) by {
      assert input[i..][0] == input[i];
    }
    return Session(Banner + hints, calls, i + 1, true, Quitted);
  }
}
