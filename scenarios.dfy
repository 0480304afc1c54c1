/** The behaviours the tracer's own unit tests check, stated over a fresh
    manager whose application configuration gives every source no
    listeners, for any names shaped like the tests' "Foo" and "Foo.Bar". */
module DiagnosticsScenarios {
  import opened Tracing
  import opened Dispatch
  import opened Diagnostics
  import Naming
  import Strings

  /** A trace call over "*" without listeners and then one source with a
      single listener whose switch passes. */
  lemma OneListenerChain(vStar: SourceView, v: SourceView, l: Listener, name: string, t: TraceEventType, m: Text,
                         gate: Gate, raises: Raises)
    requires vStar.listeners == [] && v.listeners == [l] && gate(v.level, t)
    requires !raises(Delivery(l, name, t, m))
    ensures Fanout([vStar, v], name, t, m, gate, raises) == Outcome([Delivery(l, name, t, m)], false)
  {
    var d := Delivery(l, name, t, m);
    assert Emit(vStar, name, t, m, gate, raises) == Outcome([], false);
    assert Emit(v, name, t, m, gate, raises) == Outcome([d], false) by {
      assert [l][1..] == [];
      assert Notify([], name, t, m, raises) == Outcome([], false);
    }
    assert Fanout([v], name, t, m, gate, raises) == Outcome([d], false) by {
      assert [v][1..] == [];
    }
    assert [vStar, v][1..] == [v];
  }

  /** The set-up of the own-source test: one listener on "Foo", which
      traces Information. */
  method OwnSourceSetUp(defaults: string -> SourceView, listener: Listener, foo: string)
    returns (manager: TracerManager)
    requires defaults(foo).listeners == []
    requires foo != "" && foo != Naming.DefaultSourceName
    ensures fresh(manager) && manager.Valid() && fresh(manager.sources.Values)
    ensures manager.Lookup(foo) == SourceView(SourceLevels.Information, [listener])
    ensures manager.Lookup(Naming.DefaultSourceName) == defaults(Naming.DefaultSourceName)
    ensures manager.defaults == defaults
  {
    var star := Naming.DefaultSourceName;
    manager := new TracerManager(defaults);
    var added := manager.AddListener(foo, listener);
    assert fresh(manager.sources.Values) && manager.Lookup(star) == defaults(star);
    var levelSet := manager.SetTracingLevel(foo, SourceLevels.Information);
  }

  /** Get of a name without dots: a tracer over the sources "*" and the name. */
  method PlainTracer(manager: TracerManager, foo: string) returns (tracer: AggregateTracer)
    requires manager.Valid()
    requires foo != "" && '.' !in foo && '<' !in foo
    modifies manager`sources
    ensures manager.Valid() && fresh(tracer) && tracer.Valid()
    ensures tracer.name == foo
    ensures tracer.Views() == [old(manager.Lookup(Naming.DefaultSourceName)), old(manager.Lookup(foo))]
    ensures forall n :: manager.Lookup(n) == old(manager.Lookup(n))
    ensures tracer.Repr <= manager.sources.Values && fresh(manager.sources.Values - old(manager.sources.Values))
  {
    tracer := manager.Get(foo);
    Naming.PlainName(foo);
    ghost var views := tracer.Views();
    assert |views| == 2;
  }

  /** A tracer named like "Foo" reaches a listener added to that source once
      the source traces Information, under the source's own name. The test's
      Info("Hello") binds to the format overload with no arguments, so the
      listener gets the format text "Hello" and an empty argument list. */
  method TraceToOwnSource(defaults: string -> SourceView, gate: Gate, raises: Raises,
                          listener: Listener, foo: string, hello: string)
    returns (o: Outcome)
    requires forall n :: defaults(n).listeners == []
    requires foo != "" && '.' !in foo && '<' !in foo && foo != Naming.DefaultSourceName
    requires gate(SourceLevels.Information, TraceEventType.Information)
    requires !raises(Delivery(listener, foo, TraceEventType.Information, Formatted(hello, [])))
    ensures o == Outcome([Delivery(listener, foo, TraceEventType.Information, Formatted(hello, []))], false)
  {
    var manager := OwnSourceSetUp(defaults, listener, foo);
    ghost var vFoo := manager.Lookup(foo);
    ghost var vStar := manager.Lookup(Naming.DefaultSourceName);
    var tracer := PlainTracer(manager, foo);
    o := tracer.Trace(TraceEventType.Information, Format(hello, []), gate, raises);
    OneListenerChain(vStar, vFoo, listener, foo, TraceEventType.Information, Formatted(hello, []), gate, raises);
  }

  /** A trace call over "*" without listeners and then two sources with a
      single listener each; the first reaches its listener only if its
      switch passes. */
  lemma TwoListenerChain(vStar: SourceView, va: SourceView, vb: SourceView, la: Listener, lb: Listener,
                         name: string, t: TraceEventType, m: Text, gate: Gate, raises: Raises)
    requires vStar.listeners == [] && va.listeners == [la] && vb.listeners == [lb] && gate(vb.level, t)
    requires !raises(Delivery(la, name, t, m)) && !raises(Delivery(lb, name, t, m))
    ensures Fanout([vStar, va, vb], name, t, m, gate, raises)
            == Outcome((if gate(va.level, t) then [Delivery(la, name, t, m)] else []) + [Delivery(lb, name, t, m)], false)
  {
    var da := Delivery(la, name, t, m);
    var db := Delivery(lb, name, t, m);
    assert Emit(vStar, name, t, m, gate, raises) == Outcome([], false);
    assert Emit(va, name, t, m, gate, raises) == Outcome(if gate(va.level, t) then [da] else [], false) by {
      assert [la][1..] == [];
      assert Notify([], name, t, m, raises) == Outcome([], false);
    }
    assert Emit(vb, name, t, m, gate, raises) == Outcome([db], false) by {
      assert [lb][1..] == [];
      assert Notify([], name, t, m, raises) == Outcome([], false);
    }
    assert Fanout([vb], name, t, m, gate, raises) == Outcome([db], false) by {
      assert [vb][1..] == [];
    }
    assert Fanout([va, vb], name, t, m, gate, raises)
           == Outcome((if gate(va.level, t) then [da] else []) + [db], false) by {
      assert [va, vb][1..] == [vb];
    }
    assert [vStar, va, vb][1..] == [va, vb];
  }

  /** The first half of the dotted-name set-up: one listener on "Foo" and
      one on "Foo.Bar". */
  method DottedListeners(defaults: string -> SourceView, fooListener: Listener, fooBarListener: Listener,
                         foo: string, fooBar: string)
    returns (manager: TracerManager)
    requires foo != "" && fooBar != "" && foo != fooBar
    requires foo != Naming.DefaultSourceName && fooBar != Naming.DefaultSourceName
    requires defaults(foo).listeners == [] && defaults(fooBar).listeners == []
    ensures fresh(manager) && manager.Valid() && fresh(manager.sources.Values)
    ensures manager.Lookup(foo).listeners == [fooListener]
    ensures manager.Lookup(fooBar).listeners == [fooBarListener]
    ensures manager.Lookup(Naming.DefaultSourceName) == defaults(Naming.DefaultSourceName)
    ensures manager.defaults == defaults
  {
    var star := Naming.DefaultSourceName;
    manager := new TracerManager(defaults);
    var addedFoo := manager.AddListener(foo, fooListener);
    assert fresh(manager.sources.Values) && manager.Lookup(star) == defaults(star);
    var addedFooBar := manager.AddListener(fooBar, fooBarListener);
  }

  /** The set-up of the dotted-name test: one listener on "Foo", one on
      "Foo.Bar", "Foo" at `fooLevel` and "Foo.Bar" at Information. */
  method DottedSetUp(defaults: string -> SourceView, fooListener: Listener, fooBarListener: Listener,
                     foo: string, fooBar: string, fooLevel: SourceLevels)
    returns (manager: TracerManager)
    requires foo != "" && fooBar != "" && foo != fooBar
    requires foo != Naming.DefaultSourceName && fooBar != Naming.DefaultSourceName
    requires defaults(foo).listeners == [] && defaults(fooBar).listeners == []
    ensures fresh(manager) && manager.Valid() && fresh(manager.sources.Values)
    ensures manager.Lookup(foo) == SourceView(fooLevel, [fooListener])
    ensures manager.Lookup(fooBar) == SourceView(SourceLevels.Information, [fooBarListener])
    ensures manager.Lookup(Naming.DefaultSourceName) == defaults(Naming.DefaultSourceName)
    ensures manager.defaults == defaults
  {
    var star := Naming.DefaultSourceName;
    manager := DottedListeners(defaults, fooListener, fooBarListener, foo, fooBar);
    var setFoo := manager.SetTracingLevel(foo, fooLevel);
    assert fresh(manager.sources.Values) && manager.Lookup(star) == defaults(star);
    var setFooBar := manager.SetTracingLevel(fooBar, SourceLevels.Information);
  }

  /** Get of a name "Foo.Bar": a tracer over the sources "*", "Foo" and
      "Foo.Bar". */
  method DottedTracer(manager: TracerManager, foo: string, bar: string) returns (tracer: AggregateTracer)
    requires manager.Valid()
    requires Strings.Segments([foo, bar], '.') && '<' !in foo && '<' !in bar
    modifies manager`sources
    ensures manager.Valid() && fresh(tracer) && tracer.Valid()
    ensures tracer.name == foo + "." + bar
    ensures tracer.Views()
            == [old(manager.Lookup(Naming.DefaultSourceName)), old(manager.Lookup(foo)), old(manager.Lookup(foo + "." + bar))]
    ensures forall n :: manager.Lookup(n) == old(manager.Lookup(n))
    ensures tracer.Repr <= manager.sources.Values && fresh(manager.sources.Values - old(manager.sources.Values))
  {
    var fooBar := foo + "." + bar;
    assert fooBar != "" by {
      assert fooBar[|foo|] == '.';
    }
    tracer := manager.Get(fooBar);
    Naming.DottedPair(foo, bar);
    ghost var views := tracer.Views();
    assert |views| == 3;
  }

  /** A tracer named like "Foo.Bar" reaches the listeners of both "Foo" and
      "Foo.Bar", in that order, each under the source name "Foo.Bar"; with
      "Foo" switched off, only the listener of "Foo.Bar". Info("Hello") is
      again the format overload with no arguments. */
  method TraceWithDots(defaults: string -> SourceView, gate: Gate, raises: Raises,
                       fooListener: Listener, fooBarListener: Listener,
                       foo: string, bar: string, fooLevel: SourceLevels, hello: string)
    returns (o: Outcome)
    requires forall n :: defaults(n).listeners == []
    requires Strings.Segments([foo, bar], '.') && '<' !in foo && '<' !in bar && foo != Naming.DefaultSourceName
    requires gate(SourceLevels.Information, TraceEventType.Information)
    requires !raises(Delivery(fooListener, foo + "." + bar, TraceEventType.Information, Formatted(hello, [])))
    requires !raises(Delivery(fooBarListener, foo + "." + bar, TraceEventType.Information, Formatted(hello, [])))
    ensures o == Outcome((if gate(fooLevel, TraceEventType.Information)
                          then [Delivery(fooListener, foo + "." + bar, TraceEventType.Information, Formatted(hello, []))]
                          else [])
                         + [Delivery(fooBarListener, foo + "." + bar, TraceEventType.Information, Formatted(hello, []))], false)
  {
    var fooBar := foo + "." + bar;
    assert foo != "" by {
      assert [foo, bar][0] == foo;
    }
    assert fooBar != foo && fooBar != Naming.DefaultSourceName by {
      assert fooBar[|foo|] == '.';
    }
    var manager := DottedSetUp(defaults, fooListener, fooBarListener, foo, fooBar, fooLevel);
    ghost var vFoo := manager.Lookup(foo);
    ghost var vFooBar := manager.Lookup(fooBar);
    ghost var vStar := manager.Lookup(Naming.DefaultSourceName);
    var tracer := DottedTracer(manager, foo, bar);
    o := tracer.Trace(TraceEventType.Information, Format(hello, []), gate, raises);
    TwoListenerChain(vStar, vFoo, vFooBar, fooListener, fooBarListener, fooBar,
                     TraceEventType.Information, Formatted(hello, []), gate, raises);
  }

  /** Two tracers for the same name share every source: the cache hands out
      the source it created the first time. An empty name fails both times. */
  method GetTwice(defaults: string -> SourceView, name: string) returns (a: AggregateTracer?, b: AggregateTracer?)
    ensures a == null <==> name == ""
    ensures b == null <==> name == ""
    ensures a != null && b != null ==> |a.tracers| == |b.tracers| == |Naming.CompositeFor(name)|
    ensures a != null && b != null ==> forall i :: 0 <= i < |a.tracers| ==> a.tracers[i].source == b.tracers[i].source
    ensures a != null && b != null ==> a != b
  {
    var manager := new TracerManager(defaults);
    a := manager.Get(name);
    b := manager.Get(name);
  }

  /** A trace through a tracer of the manager leaves the manager consistent:
      every cached source carries its own name again, and no level or
      listener changed. */
  method TraceKeepsManager(manager: TracerManager, tracer: AggregateTracer, t: TraceEventType, call: TraceCall,
                           gate: Gate, raises: Raises)
    returns (o: Outcome)
    requires manager.Valid() && tracer.Valid() && tracer.Repr <= manager.sources.Values
    modifies tracer.Repr`name
    ensures manager.Valid()
    ensures forall n :: manager.Lookup(n) == old(manager.Lookup(n))
    ensures o == Fanout(old(tracer.Views()), tracer.name, t, MessageOf(call), gate, raises)
  {
    o := tracer.Trace(t, call, gate, raises);
  }

  /** Hence a registry call can follow a trace, as in the source. */
  method TraceThenAddListener(manager: TracerManager, name: string, t: TraceEventType, call: TraceCall,
                              gate: Gate, raises: Raises, listener: Listener)
    returns (o: Outcome, raised: bool)
    requires manager.Valid()
    modifies manager`sources, manager.sources.Values`name, manager.sources.Values`listeners
    ensures manager.Valid()
    ensures raised <==> name == ""
    ensures !raised ==> manager.Lookup(name).listeners == old(manager.Lookup(name)).listeners + [listener]
  {
    var tracer := manager.Get(name);
    if tracer == null {
      return Outcome([], true), true;
    }
    o := TraceKeepsManager(manager, tracer, t, call, gate, raises);
    raised := manager.AddListener(name, listener);
  }
}
