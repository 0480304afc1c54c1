/** The System.Diagnostics tracer manager: a process-wide table of trace
    sources by name, and tracers that fan every event out to the sources of
    a name's inheritance chain, each presenting itself under the tracer's
    own name while it delivers. */
module Diagnostics {
  import opened Tracing
  import opened Dispatch
  import Naming

  /** The message DiagnosticsTracer hands to TraceSource.TraceEvent for each
      overload of Trace. */
  function MessageOf(call: TraceCall): (r: Text)
    ensures r.WithException? <==> call.ExceptionMessage? || call.ExceptionFormat?
    ensures r.WithException? ==> r.exception == call.exception && !r.message.WithException?
    ensures call.Message? || call.ExceptionMessage? ==>
              (if r.WithException? then r.message else r) == Literal(call.message)
    ensures call.Format? || call.ExceptionFormat? ==>
              (if r.WithException? then r.message else r) == Formatted(call.format, call.args)
  {
    match call
    case Message(message) => Literal(message)
    case Format(format, args) => Formatted(format, args)
    case ExceptionMessage(exception, message) => WithException(Literal(message), exception)
    case ExceptionFormat(exception, format, args) => WithException(Formatted(format, args), exception)
  }

  /** System.Diagnostics.TraceSource, reduced to what the manager touches. */
  class TraceSource {
    var name: string
    var level: SourceLevels
    var listeners: seq<Listener>

    constructor (name: string, view: SourceView)
      ensures this.name == name && View() == view
    {
      this.name := name;
      this.level := view.level;
      this.listeners := view.listeners;
    }

    function View(): SourceView
      reads this`level, this`listeners
    {
      SourceView(level, listeners)
    }

    /** TraceSource.TraceEvent: if the switch passes the event type, call
        every listener in order with the source's current name. */
    method TraceEvent(t: TraceEventType, m: Text, gate: Gate, raises: Raises) returns (o: Outcome)
      ensures o == Emit(View(), name, t, m, gate, raises)
    {
      if !gate(level, t) {
        return Outcome([], false);
      }
      ghost var whole := Notify(listeners, name, t, m, raises);
      var delivered: seq<Delivery> := [];
      var i := 0;
      assert listeners[0..] == listeners;
      while i < |listeners|
        invariant 0 <= i <= |listeners|
        invariant whole == After(delivered, Notify(listeners[i..], name, t, m, raises))
      {
        NotifyStep(listeners, i, name, t, m, raises);
        var d := Delivery(listeners[i], name, t, m);
        if raises(d) {
          return After(delivered, Outcome([d], true));
        }
        AfterAfter(delivered, [d], Notify(listeners[i + 1..], name, t, m, raises));
        delivered := delivered + [d];
        i := i + 1;
      }
      assert listeners[i..] == [];
      return Outcome(delivered, false);
    }
  }

  /** Presents a source under another name until disposed; disposal gives
      it back the name it had. */
  class SourceNameReplacer {
    const source: TraceSource
    const originalName: string

    constructor (source: TraceSource, sourceName: string)
      modifies source`name
      ensures this.source == source && originalName == old(source.name)
      ensures source.name == sourceName
    {
      this.source := source;
      this.originalName := source.name;
      new;
      source.name := sourceName;
    }

    method Dispose()
      modifies source`name
      ensures source.name == originalName
    {
      source.name := originalName;
    }
  }

  /** A tracer over one source. */
  class DiagnosticsTracer {
    const source: TraceSource

    constructor (source: TraceSource)
      ensures this.source == source
    {
      this.source := source;
    }

    /** Trace through the source while it presents itself as `sourceName`;
        the source's own name is back in place afterwards, also when a
        listener raised. */
    method Trace(sourceName: string, t: TraceEventType, call: TraceCall, gate: Gate, raises: Raises)
      returns (o: Outcome)
      modifies source`name
      ensures source.name == old(source.name)
      ensures o == Emit(source.View(), sourceName, t, MessageOf(call), gate, raises)
      ensures forall d :: d in o.delivered ==> d.source == sourceName
    {
      var replacer := new SourceNameReplacer(source, sourceName);
      o := source.TraceEvent(t, MessageOf(call), gate, raises);
      replacer.Dispose();
      NotifyCarries(source.listeners, sourceName, t, MessageOf(call), raises);
    }
  }

  /** One new DiagnosticsTracer per source, in order. */
  method TracersOver(ss: seq<TraceSource>) returns (tracers: seq<DiagnosticsTracer>)
    ensures |tracers| == |ss|
    ensures forall j :: 0 <= j < |ss| ==> tracers[j].source == ss[j]
  {
    tracers := [];
    var i := 0;
    while i < |ss|
      invariant 0 <= i <= |ss|
      invariant |tracers| == i
      invariant forall j :: 0 <= j < i ==> tracers[j].source == ss[j]
    {
      var d := new DiagnosticsTracer(ss[i]);
      tracers := tracers + [d];
      i := i + 1;
    }
  }

  /** An AggregateTracer over one new DiagnosticsTracer per source. */
  method AggregateOver(name: string, ss: seq<TraceSource>) returns (tracer: AggregateTracer)
    ensures fresh(tracer) && tracer.name == name && tracer.Valid()
    ensures |tracer.tracers| == |ss|
    ensures forall j :: 0 <= j < |ss| ==> tracer.tracers[j].source == ss[j]
    ensures forall s :: s in tracer.Repr ==> s in ss
  {
    var tracers := TracersOver(ss);
    tracer := new AggregateTracer(name, tracers);
  }

  /** The sources behind a list of tracers. */
  ghost function SourcesOf(tracers: seq<DiagnosticsTracer>): set<TraceSource>
  {
    set t | t in tracers :: t.source
  }

  /** The views of the sources behind a list of tracers, in order. */
  function ViewsOf(tracers: seq<DiagnosticsTracer>): (vs: seq<SourceView>)
    reads SourcesOf(tracers)`level, SourcesOf(tracers)`listeners
    ensures |vs| == |tracers|
    ensures forall i :: 0 <= i < |tracers| ==> vs[i] == tracers[i].source.View()
  {
    if tracers == [] then []
    else
      assert SourcesOf(tracers[1..]) <= SourcesOf(tracers);
      [tracers[0].source.View()] + ViewsOf(tracers[1..])
  }

  /** A tracer over the chain of sources of one name, fixed when built. */
  class AggregateTracer {
    const name: string
    const tracers: seq<DiagnosticsTracer>
    /** The sources behind the tracers. */
    ghost const Repr: set<TraceSource>

    /** Repr is exactly the sources behind the tracers. */
    ghost predicate Valid()
    {
      Repr == SourcesOf(tracers)
    }

    constructor (name: string, tracers: seq<DiagnosticsTracer>)
      ensures this.name == name && this.tracers == tracers
      ensures Repr == SourcesOf(tracers) && Valid()
    {
      this.name := name;
      this.tracers := tracers;
      this.Repr := SourcesOf(tracers);
    }

    function Views(): seq<SourceView>
      requires Valid()
      reads Repr`level, Repr`listeners
    {
      assert SourcesOf(tracers) <= Repr;
      ViewsOf(tracers)
    }

    /** Every overload of AggregateTracer.Trace: each tracer of the chain in
        order, with the aggregate's name, until a listener raises. */
    method Trace(t: TraceEventType, call: TraceCall, gate: Gate, raises: Raises) returns (o: Outcome)
      requires Valid()
      modifies Repr`name
      ensures forall j :: 0 <= j < |tracers| ==> tracers[j].source.name == old(tracers[j].source.name)
      ensures forall s :: s in Repr ==> s.name == old(s.name)
      ensures o == Fanout(old(Views()), name, t, MessageOf(call), gate, raises)
    {
      ghost var vs := Views();
      var m := MessageOf(call);
      ghost var whole := Fanout(vs, name, t, m, gate, raises);
      var delivered: seq<Delivery> := [];
      var i := 0;
      assert vs[0..] == vs;
      while i < |tracers|
        invariant 0 <= i <= |tracers|
        invariant forall j :: 0 <= j < |tracers| ==> tracers[j].source.name == old(tracers[j].source.name)
        invariant whole == After(delivered, Fanout(vs[i..], name, t, m, gate, raises))
      {
        assert tracers[i].source.View() == vs[i];
        var step := tracers[i].Trace(name, t, call, gate, raises);
        FanoutAdvance(vs, i, delivered, step, name, t, m, gate, raises);
        if step.raised {
          return After(delivered, step);
        }
        delivered := delivered + step.delivered;
        i := i + 1;
      }
      assert vs[i..] == [];
      return Outcome(delivered, false);
    }
  }

  /** The names of a chain before its first empty one: the names Get
      reaches before `new TraceSource("")` throws. */
  function UntilEmpty(chain: seq<string>): (r: seq<string>)
    ensures |r| <= |chain| && r == chain[..|r|]
    ensures "" !in r
    ensures "" in chain <==> |r| < |chain|
    ensures |r| < |chain| ==> chain[|r|] == ""
  {
    if chain == [] || chain[0] == "" then []
    else
      assert chain == [chain[0]] + chain[1..];
      [chain[0]] + UntilEmpty(chain[1..])
  }

  /** The first empty name is where UntilEmpty stops. */
  lemma UntilEmptyAt(chain: seq<string>, k: nat)
    requires k < |chain| && chain[k] == "" && "" !in chain[..k]
    ensures UntilEmpty(chain) == chain[..k]
  {
  }

  /** The AppDomain-wide cache of trace sources by name. `defaults` is what
      the application configuration gives a source created under a name. */
  class TracerManager {
    var sources: map<string, TraceSource>
    const defaults: string -> SourceView

    /** Every cached source carries its own name: one source per name. No
        source is named "": `new TraceSource("")` throws ArgumentException. */
    ghost predicate Valid()
      reads this, sources.Values`name
    {
      && "" !in sources
      && forall n :: n in sources ==> sources[n].name == n
    }

    /** The level and listeners that an operation on name `n` finds: those of
        the cached source, or those a new source would get. */
    ghost function Lookup(n: string): SourceView
      reads this, sources.Values`level, sources.Values`listeners
    {
      if n in sources then sources[n].View() else defaults(n)
    }

    constructor (defaults: string -> SourceView)
      ensures Valid() && sources == map[] && this.defaults == defaults
    {
      this.defaults := defaults;
      this.sources := map[];
    }

    /** GetOrAdd: the cached source of that name, created on first use.
        `null` stands for the ArgumentException of the factory
        `new TraceSource("")`, thrown before anything is cached. */
    method GetOrAdd(sourceName: string) returns (s: TraceSource?)
      requires Valid()
      modifies this`sources
      ensures Valid()
      ensures s == null <==> sourceName == ""
      ensures s == null ==> sources == old(sources)
      ensures s != null ==> sourceName in sources && s == sources[sourceName] && s.name == sourceName
      ensures old(sourceName in sources) ==> sources == old(sources)
      ensures s != null && old(sourceName !in sources) ==> fresh(s) && sources == old(sources)[sourceName := s]
      ensures forall n :: Lookup(n) == old(Lookup(n))
    {
      if sourceName in sources {
        s := sources[sourceName];
      } else if sourceName == "" {
        s := null;
      } else {
        s := new TraceSource(sourceName, defaults(sourceName));
        sources := sources[sourceName := s];
      }
    }

    /** AddListener: append a listener to the source of that name. For the
        empty name the factory throws and `raised` is set; nothing changes. */
    method AddListener(sourceName: string, listener: Listener) returns (raised: bool)
      requires Valid()
      modifies this`sources, sources.Values`listeners
      ensures Valid()
      ensures raised <==> sourceName == ""
      ensures raised ==> sources == old(sources) && forall n :: Lookup(n) == old(Lookup(n))
      ensures !raised ==> sources.Keys == old(sources.Keys) + {sourceName}
      ensures forall n :: n in old(sources) ==> sources[n] == old(sources[n])
      ensures fresh(sources.Values - old(sources.Values))
      ensures !raised ==> Lookup(sourceName) == old(Lookup(sourceName)).(listeners := old(Lookup(sourceName)).listeners + [listener])
      ensures forall n :: n != sourceName ==> Lookup(n) == old(Lookup(n))
    {
      var s := GetOrAdd(sourceName);
      if s == null {
        return true;
      }
      assert forall n :: n in sources && n != sourceName ==> sources[n] != s;
      s.listeners := s.listeners + [listener];
      raised := false;
    }

    /** RemoveListener(sourceName, listener): drop the first occurrence of
        that listener from the source of that name; `raised` as for
        AddListener. */
    method RemoveListener(sourceName: string, listener: Listener) returns (raised: bool)
      requires Valid()
      modifies this`sources, sources.Values`listeners
      ensures Valid()
      ensures raised <==> sourceName == ""
      ensures raised ==> sources == old(sources) && forall n :: Lookup(n) == old(Lookup(n))
      ensures !raised ==> sources.Keys == old(sources.Keys) + {sourceName}
      ensures forall n :: n in old(sources) ==> sources[n] == old(sources[n])
      ensures fresh(sources.Values - old(sources.Values))
      ensures !raised ==> Lookup(sourceName) == old(Lookup(sourceName)).(listeners := RemoveFirst(old(Lookup(sourceName)).listeners, listener))
      ensures forall n :: n != sourceName ==> Lookup(n) == old(Lookup(n))
    {
      var s := GetOrAdd(sourceName);
      if s == null {
        return true;
      }
      assert forall n :: n in sources && n != sourceName ==> sources[n] != s;
      s.listeners := RemoveFirst(s.listeners, listener);
      raised := false;
    }

    /** RemoveListener(sourceName, listenerName): drop the first listener of
        that name from the source of that name; `raised` as for AddListener. */
    method RemoveListenerByName(sourceName: string, listenerName: string) returns (raised: bool)
      requires Valid()
      modifies this`sources, sources.Values`listeners
      ensures Valid()
      ensures raised <==> sourceName == ""
      ensures raised ==> sources == old(sources) && forall n :: Lookup(n) == old(Lookup(n))
      ensures !raised ==> sources.Keys == old(sources.Keys) + {sourceName}
      ensures forall n :: n in old(sources) ==> sources[n] == old(sources[n])
      ensures fresh(sources.Values - old(sources.Values))
      ensures !raised ==> Lookup(sourceName) == old(Lookup(sourceName)).(listeners := RemoveNamed(old(Lookup(sourceName)).listeners, listenerName))
      ensures forall n :: n != sourceName ==> Lookup(n) == old(Lookup(n))
    {
      var s := GetOrAdd(sourceName);
      if s == null {
        return true;
      }
      assert forall n :: n in sources && n != sourceName ==> sources[n] != s;
      s.listeners := RemoveNamed(s.listeners, listenerName);
      raised := false;
    }

    /** SetTracingLevel: set the switch level of the source of that name;
        `raised` as for AddListener. */
    method SetTracingLevel(sourceName: string, level: SourceLevels) returns (raised: bool)
      requires Valid()
      modifies this`sources, sources.Values`level
      ensures Valid()
      ensures raised <==> sourceName == ""
      ensures raised ==> sources == old(sources) && forall n :: Lookup(n) == old(Lookup(n))
      ensures !raised ==> sources.Keys == old(sources.Keys) + {sourceName}
      ensures forall n :: n in old(sources) ==> sources[n] == old(sources[n])
      ensures fresh(sources.Values - old(sources.Values))
      ensures !raised ==> Lookup(sourceName) == old(Lookup(sourceName)).(level := level)
      ensures forall n :: n != sourceName ==> Lookup(n) == old(Lookup(n))
    {
      var s := GetOrAdd(sourceName);
      if s == null {
        return true;
      }
      assert forall n :: n in sources && n != sourceName ==> sources[n] != s;
      s.level := level;
      raised := false;
    }

    /** The GetOrAdd calls of Get: the cached source of every name of a
        chain, in order, creating the missing ones, until a name is empty
        and its factory throws. */
    method SourcesFor(chain: seq<string>) returns (ss: seq<TraceSource>, raised: bool)
      requires Valid()
      modifies this`sources
      ensures Valid()
      ensures raised <==> "" in chain
      ensures |ss| == |UntilEmpty(chain)|
      ensures forall i :: 0 <= i < |ss| ==> chain[i] in sources && ss[i] == sources[chain[i]]
      ensures forall n :: n in sources <==> n in old(sources) || n in UntilEmpty(chain)
      ensures forall n :: n in old(sources) ==> sources[n] == old(sources[n])
      ensures fresh(sources.Values - old(sources.Values))
      ensures forall n :: Lookup(n) == old(Lookup(n))
    {
      ss := [];
      var i := 0;
      while i < |chain|
        invariant 0 <= i <= |chain|
        invariant Valid()
        invariant |ss| == i && "" !in chain[..i]
        invariant forall j :: 0 <= j < i ==> chain[j] in sources && ss[j] == sources[chain[j]]
        invariant forall n :: n in sources <==> n in old(sources) || n in chain[..i]
        invariant forall n :: n in old(sources) ==> sources[n] == old(sources[n])
        invariant fresh(sources.Values - old(sources.Values))
        invariant forall n :: Lookup(n) == old(Lookup(n))
      {
        ghost var before := sources;
        var s := GetOrAdd(chain[i]);
        if s == null {
          UntilEmptyAt(chain, i);
          return ss, true;
        }
        assert forall n :: n in before ==> n in sources && sources[n] == before[n];
        ss := ss + [s];
        assert chain[..i + 1] == chain[..i] + [chain[i]];
        i := i + 1;
      }
      assert chain[..i] == chain;
      return ss, false;
    }

    /** Get: a tracer over the sources of the name's chain, in chain order.
        `null` stands for the ArgumentException an empty name raises, after
        the source "*" has been cached. */
    method Get(name: string) returns (tracer: AggregateTracer?)
      requires Valid()
      modifies this`sources
      ensures Valid()
      ensures tracer == null <==> name == ""
      ensures name == "" ==> forall n :: n in sources <==> n in old(sources) || n == Naming.DefaultSourceName
      ensures name != "" ==> forall n :: n in sources <==> n in old(sources) || n in Naming.CompositeFor(name)
      ensures forall n :: n in old(sources) ==> sources[n] == old(sources[n])
      ensures fresh(sources.Values - old(sources.Values))
      ensures forall n :: Lookup(n) == old(Lookup(n))
      ensures tracer != null ==> fresh(tracer) && tracer.name == name
      ensures tracer != null ==> |tracer.tracers| == |Naming.CompositeFor(name)|
      ensures tracer != null ==> forall i :: 0 <= i < |tracer.tracers| ==>
                Naming.CompositeFor(name)[i] in sources && tracer.tracers[i].source == sources[Naming.CompositeFor(name)[i]]
      ensures tracer != null ==> tracer.Valid() && tracer.Views() == LookupAll(Naming.CompositeFor(name))
      ensures tracer != null ==> tracer.Repr <= sources.Values
    {
      Naming.EmptyInChain(name);
      tracer := TracerOver(name, Naming.CompositeFor(name));
    }

    /** The body of Get for a given chain of source names. */
    method TracerOver(name: string, chain: seq<string>) returns (tracer: AggregateTracer?)
      requires Valid()
      modifies this`sources
      ensures Valid()
      ensures tracer == null <==> "" in chain
      ensures forall n :: n in sources <==> n in old(sources) || n in UntilEmpty(chain)
      ensures forall n :: n in old(sources) ==> sources[n] == old(sources[n])
      ensures fresh(sources.Values - old(sources.Values))
      ensures forall n :: Lookup(n) == old(Lookup(n))
      ensures tracer != null ==> fresh(tracer) && tracer.name == name
      ensures tracer != null ==> |tracer.tracers| == |chain|
      ensures tracer != null ==> forall i :: 0 <= i < |tracer.tracers| ==>
                chain[i] in sources && tracer.tracers[i].source == sources[chain[i]]
      ensures tracer != null ==> tracer.Valid() && tracer.Views() == LookupAll(chain)
      ensures tracer != null ==> tracer.Repr <= sources.Values
    {
      var ss, raised := SourcesFor(chain);
      if raised {
        return null;
      }
      label Cached:
      var t := AggregateOver(name, ss);
      assert forall n :: Lookup(n) == old@Cached(Lookup(n));
      ViewsOfChain(t.tracers, chain);
      assert forall s :: s in ss ==> s in sources.Values;
      tracer := t;
    }

    /** The views of the sources of a chain of names. */
    ghost function LookupAll(chain: seq<string>): (vs: seq<SourceView>)
      reads this, sources.Values`level, sources.Values`listeners
      ensures |vs| == |chain|
      ensures forall i :: 0 <= i < |chain| ==> vs[i] == Lookup(chain[i])
    {
      if chain == [] then [] else [Lookup(chain[0])] + LookupAll(chain[1..])
    }

    lemma ViewsOfChain(tracers: seq<DiagnosticsTracer>, chain: seq<string>)
      requires |tracers| == |chain|
      requires forall i :: 0 <= i < |chain| ==> chain[i] in sources && tracers[i].source == sources[chain[i]]
      ensures ViewsOf(tracers) == LookupAll(chain)
    {
    }
  }

  /** List.Remove(item): drop the first occurrence of `x`, if any. */
  function RemoveFirst(ls: seq<Listener>, x: Listener): (r: seq<Listener>)
    ensures x in ls ==> |r| == |ls| - 1
    ensures x !in ls ==> r == ls
  {
    if ls == [] then []
    else if ls[0] == x then ls[1..]
    else [ls[0]] + RemoveFirst(ls[1..], x)
  }

  /** RemoveFirst cuts the list at the first occurrence of `x` and keeps the
      order of the rest. */
  lemma {:induction false} RemoveFirstAt(ls: seq<Listener>, x: Listener, k: nat)
    requires k < |ls| && ls[k] == x && x !in ls[..k]
    ensures RemoveFirst(ls, x) == ls[..k] + ls[k + 1..]
  {
    if k > 0 {
      assert ls[0] != x by { assert ls[0] == ls[..k][0]; }
      assert x !in ls[1..][..k - 1] by { assert ls[1..][..k - 1] == ls[..k][1..]; }
      RemoveFirstAt(ls[1..], x, k - 1);
      assert ls[..k] == [ls[0]] + ls[1..][..k - 1];
      assert ls[k + 1..] == ls[1..][k..];
    }
  }

  /** Hence exactly one occurrence of `x` goes, and nothing else. */
  lemma {:induction false} RemoveFirstMultiset(ls: seq<Listener>, x: Listener)
    ensures multiset(RemoveFirst(ls, x)) == multiset(ls) - multiset{x}
  {
    if ls != [] {
      assert ls == [ls[0]] + ls[1..];
      if ls[0] != x {
        RemoveFirstMultiset(ls[1..], x);
      }
    }
  }

  /** TraceListenerCollection.Remove(name): drop the first listener with that
      name, if any. */
  function RemoveNamed(ls: seq<Listener>, listenerName: string): (r: seq<Listener>)
    ensures (exists i :: 0 <= i < |ls| && ls[i].name == listenerName) ==> |r| == |ls| - 1
    ensures (forall i :: 0 <= i < |ls| ==> ls[i].name != listenerName) ==> r == ls
  {
    if ls == [] then []
    else if ls[0].name == listenerName then ls[1..]
    else [ls[0]] + RemoveNamed(ls[1..], listenerName)
  }

  /** RemoveNamed cuts the list at the first listener with that name. */
  lemma {:induction false} RemoveNamedAt(ls: seq<Listener>, listenerName: string, k: nat)
    requires k < |ls| && ls[k].name == listenerName
    requires forall i :: 0 <= i < k ==> ls[i].name != listenerName
    ensures RemoveNamed(ls, listenerName) == ls[..k] + ls[k + 1..]
  {
    if k > 0 {
      RemoveNamedAt(ls[1..], listenerName, k - 1);
      assert ls[..k] == [ls[0]] + ls[1..][..k - 1];
      assert ls[k + 1..] == ls[1..][k..];
    }
  }
}
