/** How one trace call reaches listeners: the listener calls a source makes
    when its switch passes, the calls a chain of sources makes, and a
    reference definition of both as "every addressed listener in order,
    until one raises". */
module Dispatch {
  import opened Tracing

  /** A trace listener. Listeners are compared by reference, as
      TraceListenerCollection.Remove(listener) does; `name` is what
      Remove(listenerName) looks for. */
  class Listener {
    const name: string

    constructor (name: string)
      ensures this.name == name
    {
      this.name := name;
    }
  }

  /** One call of TraceListener.TraceEvent: the listener, the source name it
      was handed, the event type and the message. */
  datatype Delivery = Delivery(listener: Listener, source: string, eventType: TraceEventType, message: Text)

  /** What a trace call did: the listener calls made, in order, and whether
      the last of them raised (which ends the call). */
  datatype Outcome = Outcome(delivered: seq<Delivery>, raised: bool)

  /** The switch level and the listeners of a source: all that a trace call
      depends on besides the name the source presents. */
  datatype SourceView = SourceView(level: SourceLevels, listeners: seq<Listener>)

  /** SourceSwitch.ShouldTrace: whether a switch level lets an event type
      through. It belongs to the .NET library; every result here holds for
      any gate. */
  type Gate = (SourceLevels, TraceEventType) -> bool

  /** Which listener calls raise an exception. */
  type Raises = Delivery -> bool

  /** TraceSource.TraceEvent on the listeners `ls` of a source presenting
      itself as `name`: each listener in order, until one raises. */
  function Notify(ls: seq<Listener>, name: string, t: TraceEventType, m: Text, raises: Raises): (r: Outcome)
    ensures |r.delivered| <= |ls|
  {
    if ls == [] then Outcome([], false)
    else
      var d := Delivery(ls[0], name, t, m);
      if raises(d) then Outcome([d], true)
      else
        var rest := Notify(ls[1..], name, t, m, raises);
        Outcome([d] + rest.delivered, rest.raised)
  }

  /** One source's part of a trace call: nothing unless its switch lets the
      event type through. */
  function Emit(v: SourceView, name: string, t: TraceEventType, m: Text, gate: Gate, raises: Raises): (r: Outcome)
    ensures |r.delivered| <= |v.listeners|
    ensures !gate(v.level, t) ==> r == Outcome([], false)
  {
    if gate(v.level, t) then Notify(v.listeners, name, t, m, raises) else Outcome([], false)
  }

  /** A trace call over a chain of sources, all presenting the same `name`:
      each source in order, until a listener raises. */
  function Fanout(vs: seq<SourceView>, name: string, t: TraceEventType, m: Text, gate: Gate, raises: Raises): (r: Outcome)
    ensures |r.delivered| <= |Reached(vs, t, gate)|
  {
    if vs == [] then Outcome([], false)
    else
      var first := Emit(vs[0], name, t, m, gate, raises);
      if first.raised then first
      else
        var rest := Fanout(vs[1..], name, t, m, gate, raises);
        Outcome(first.delivered + rest.delivered, rest.raised)
  }

  /** The listener calls `before`, followed by those of `o`. */
  function After(before: seq<Delivery>, o: Outcome): Outcome
  {
    Outcome(before + o.delivered, o.raised)
  }

  lemma AfterAfter(a: seq<Delivery>, b: seq<Delivery>, o: Outcome)
    ensures After(a, After(b, o)) == After(a + b, o)
  {
    assert a + (b + o.delivered) == (a + b) + o.delivered;
  }

  /** Notify over a suffix of the listeners, one listener at a time. */
  lemma NotifyStep(ls: seq<Listener>, i: nat, name: string, t: TraceEventType, m: Text, raises: Raises)
    requires i < |ls|
    ensures var d := Delivery(ls[i], name, t, m);
            Notify(ls[i..], name, t, m, raises)
            == if raises(d) then Outcome([d], true)
               else After([d], Notify(ls[i + 1..], name, t, m, raises))
  {
    assert ls[i..][0] == ls[i];
    assert ls[i..][1..] == ls[i + 1..];
  }

  /** Fanout over a suffix of a chain, one source at a time. */
  lemma FanoutStep(vs: seq<SourceView>, i: nat, name: string, t: TraceEventType, m: Text, gate: Gate, raises: Raises)
    requires i < |vs|
    ensures var first := Emit(vs[i], name, t, m, gate, raises);
            Fanout(vs[i..], name, t, m, gate, raises)
            == if first.raised then first
               else After(first.delivered, Fanout(vs[i + 1..], name, t, m, gate, raises))
  {
    assert vs[i..][0] == vs[i];
    assert vs[i..][1..] == vs[i + 1..];
  }

  /** One source further along a chain: a raise ends the call, otherwise
      the source's deliveries join those made so far. */
  lemma FanoutAdvance(vs: seq<SourceView>, i: nat, before: seq<Delivery>, step: Outcome,
                      name: string, t: TraceEventType, m: Text, gate: Gate, raises: Raises)
    requires i < |vs| && step == Emit(vs[i], name, t, m, gate, raises)
    ensures step.raised ==> After(before, Fanout(vs[i..], name, t, m, gate, raises)) == After(before, step)
    ensures !step.raised ==> After(before, Fanout(vs[i..], name, t, m, gate, raises))
                             == After(before + step.delivered, Fanout(vs[i + 1..], name, t, m, gate, raises))
  {
    FanoutStep(vs, i, name, t, m, gate, raises);
    AfterAfter(before, step.delivered, Fanout(vs[i + 1..], name, t, m, gate, raises));
  }

  /** Reference behaviour of a trace call: make the listener calls `ds` in
      order and stop after the first one that raises. */
  function Until(ds: seq<Delivery>, raises: Raises): (r: Outcome)
    ensures |r.delivered| <= |ds|
  {
    if ds == [] then Outcome([], false)
    else if raises(ds[0]) then Outcome([ds[0]], true)
    else
      var rest := Until(ds[1..], raises);
      Outcome([ds[0]] + rest.delivered, rest.raised)
  }

  /** Until makes a prefix of the calls, none of which raises but possibly
      the last; and it makes them all when it ends without a raise. */
  lemma {:induction false} UntilStops(ds: seq<Delivery>, raises: Raises)
    ensures var r := Until(ds, raises);
            && r.delivered == ds[..|r.delivered|]
            && (forall i :: 0 <= i < |r.delivered| - 1 ==> !raises(r.delivered[i]))
            && (r.raised ==> |r.delivered| >= 1 && raises(r.delivered[|r.delivered| - 1]))
            && (!r.raised ==> r.delivered == ds && forall i :: 0 <= i < |ds| ==> !raises(ds[i]))
  {
    if ds != [] && !raises(ds[0]) {
      UntilStops(ds[1..], raises);
      assert ds == [ds[0]] + ds[1..];
    }
  }

  /** One listener call per listener, all with the same source name, event
      type and message. */
  function DeliveriesTo(ls: seq<Listener>, name: string, t: TraceEventType, m: Text): (r: seq<Delivery>)
    ensures |r| == |ls|
    ensures forall i :: 0 <= i < |ls| ==> r[i] == Delivery(ls[i], name, t, m)
  {
    seq(|ls|, i requires 0 <= i < |ls| => Delivery(ls[i], name, t, m))
  }

  /** The listeners a trace call over a chain addresses: those of every
      source whose switch lets the event type through, chain order first,
      then listener order. */
  function Reached(vs: seq<SourceView>, t: TraceEventType, gate: Gate): seq<Listener>
  {
    if vs == [] then []
    else (if gate(vs[0].level, t) then vs[0].listeners else []) + Reached(vs[1..], t, gate)
  }

  /** A listener is addressed exactly when some source of the chain lets the
      event type through and has it among its listeners. */
  lemma {:induction false} ReachedMembers(vs: seq<SourceView>, t: TraceEventType, gate: Gate, l: Listener)
    ensures l in Reached(vs, t, gate) <==> exists i :: 0 <= i < |vs| && gate(vs[i].level, t) && l in vs[i].listeners
  {
    if vs != [] {
      ReachedMembers(vs[1..], t, gate, l);
      if exists i :: 1 <= i < |vs| && gate(vs[i].level, t) && l in vs[i].listeners {
        var i :| 1 <= i < |vs| && gate(vs[i].level, t) && l in vs[i].listeners;
        assert vs[1..][i - 1] == vs[i];
      }
      if exists i :: 0 <= i < |vs[1..]| && gate(vs[1..][i].level, t) && l in vs[1..][i].listeners {
        var i :| 0 <= i < |vs[1..]| && gate(vs[1..][i].level, t) && l in vs[1..][i].listeners;
        assert vs[i + 1] == vs[1..][i];
      }
    }
  }

  lemma {:induction false} DeliveriesToAppend(a: seq<Listener>, b: seq<Listener>, name: string, t: TraceEventType, m: Text)
    ensures DeliveriesTo(a + b, name, t, m) == DeliveriesTo(a, name, t, m) + DeliveriesTo(b, name, t, m)
  {
  }

  /** Stopping at the first raise distributes over concatenation. */
  lemma {:induction false} UntilAppend(a: seq<Delivery>, b: seq<Delivery>, raises: Raises)
    ensures Until(a + b, raises)
            == if Until(a, raises).raised then Until(a, raises) else After(a, Until(b, raises))
  {
    if a == [] {
      assert a + b == b;
    } else {
      assert (a + b)[0] == a[0];
      assert (a + b)[1..] == a[1..] + b;
      if !raises(a[0]) {
        UntilAppend(a[1..], b, raises);
        var ra := Until(a[1..], raises);
        if !ra.raised {
          UntilStops(a[1..], raises);
          assert [a[0]] + (a[1..] + Until(b, raises).delivered) == a + Until(b, raises).delivered;
        }
      }
    }
  }

  /** The listeners of one source, called until one raises. */
  lemma {:induction false} NotifyIsUntil(ls: seq<Listener>, name: string, t: TraceEventType, m: Text, raises: Raises)
    ensures Notify(ls, name, t, m, raises) == Until(DeliveriesTo(ls, name, t, m), raises)
  {
    if ls != [] {
      NotifyIsUntil(ls[1..], name, t, m, raises);
      assert DeliveriesTo(ls, name, t, m)[1..] == DeliveriesTo(ls[1..], name, t, m);
    }
  }

  /** Every listener call of a source carries the name it presents, the
      event type and the message, and goes to one of its listeners. */
  lemma {:induction false} NotifyCarries(ls: seq<Listener>, name: string, t: TraceEventType, m: Text, raises: Raises)
    ensures forall d :: d in Notify(ls, name, t, m, raises).delivered ==>
              d.source == name && d.eventType == t && d.message == m && d.listener in ls
  {
    if ls != [] {
      NotifyCarries(ls[1..], name, t, m, raises);
    }
  }

  /** A trace call over a chain calls every addressed listener in order,
      each with the aggregate's name, until one raises. */
  lemma {:induction false} FanoutIsUntil(vs: seq<SourceView>, name: string, t: TraceEventType, m: Text, gate: Gate, raises: Raises)
    ensures Fanout(vs, name, t, m, gate, raises) == Until(DeliveriesTo(Reached(vs, t, gate), name, t, m), raises)
  {
    if vs != [] {
      var own := if gate(vs[0].level, t) then vs[0].listeners else [];
      var rest := Reached(vs[1..], t, gate);
      var first := DeliveriesTo(own, name, t, m);
      var second := DeliveriesTo(rest, name, t, m);
      var e := Emit(vs[0], name, t, m, gate, raises);
      var f := Fanout(vs[1..], name, t, m, gate, raises);
      EmitIsUntil(vs[0], name, t, m, gate, raises);
      FanoutIsUntil(vs[1..], name, t, m, gate, raises);
      ReachedCons(vs, name, t, m, gate);
      FanoutStep(vs, 0, name, t, m, gate, raises);
      assert vs[0..] == vs;
      UntilThen(first, second, e, f, raises);
    }
  }

  /** One source's part, as a reference call sequence. */
  lemma EmitIsUntil(v: SourceView, name: string, t: TraceEventType, m: Text, gate: Gate, raises: Raises)
    ensures Emit(v, name, t, m, gate, raises)
            == Until(DeliveriesTo(if gate(v.level, t) then v.listeners else [], name, t, m), raises)
  {
    NotifyIsUntil(if gate(v.level, t) then v.listeners else [], name, t, m, raises);
  }

  /** The calls a chain addresses: its first source's, then the rest's. */
  lemma ReachedCons(vs: seq<SourceView>, name: string, t: TraceEventType, m: Text, gate: Gate)
    requires vs != []
    ensures DeliveriesTo(Reached(vs, t, gate), name, t, m)
            == DeliveriesTo(if gate(vs[0].level, t) then vs[0].listeners else [], name, t, m)
               + DeliveriesTo(Reached(vs[1..], t, gate), name, t, m)
  {
    DeliveriesToAppend(if gate(vs[0].level, t) then vs[0].listeners else [], Reached(vs[1..], t, gate), name, t, m);
  }

  /** The recursion step of FanoutIsUntil, on outcomes alone. */
  lemma UntilThen(first: seq<Delivery>, second: seq<Delivery>, e: Outcome, f: Outcome, raises: Raises)
    requires e == Until(first, raises) && f == Until(second, raises)
    ensures (if e.raised then e else After(e.delivered, f)) == Until(first + second, raises)
  {
    UntilAppend(first, second, raises);
    if !e.raised {
      UntilStops(first, raises);
    }
  }

  /** When no listener raises, a trace call reaches exactly the listeners of
      the sources whose switch passes, and every call carries the aggregate's
      name, the event type and the message. */
  lemma FanoutDelivers(vs: seq<SourceView>, name: string, t: TraceEventType, m: Text, gate: Gate, raises: Raises, l: Listener)
    requires forall d :: !raises(d)
    ensures !Fanout(vs, name, t, m, gate, raises).raised
    ensures Delivery(l, name, t, m) in Fanout(vs, name, t, m, gate, raises).delivered
            <==> exists i :: 0 <= i < |vs| && gate(vs[i].level, t) && l in vs[i].listeners
  {
    FanoutIsUntil(vs, name, t, m, gate, raises);
    ReachedMembers(vs, t, gate, l);
    var ls := Reached(vs, t, gate);
    var ds := DeliveriesTo(ls, name, t, m);
    UntilStops(ds, raises);
    if Delivery(l, name, t, m) in ds {
      var k :| 0 <= k < |ds| && ds[k] == Delivery(l, name, t, m);
      assert ls[k] == l;
    }
    if l in ls {
      var k :| 0 <= k < |ls| && ls[k] == l;
      assert ds[k] == Delivery(l, name, t, m);
    }
  }

  /** Whatever the listeners do, every listener call of a trace call carries
      the aggregate's name, the event type and the message. */
  lemma FanoutSourceName(vs: seq<SourceView>, name: string, t: TraceEventType, m: Text, gate: Gate, raises: Raises)
    ensures forall d :: d in Fanout(vs, name, t, m, gate, raises).delivered ==>
              d.source == name && d.eventType == t && d.message == m && d.listener in Reached(vs, t, gate)
  {
    FanoutIsUntil(vs, name, t, m, gate, raises);
    var ds := DeliveriesTo(Reached(vs, t, gate), name, t, m);
    UntilStops(ds, raises);
    var r := Fanout(vs, name, t, m, gate, raises);
    forall d | d in r.delivered
      ensures d.source == name && d.eventType == t && d.message == m && d.listener in Reached(vs, t, gate)
    {
      var k :| 0 <= k < |r.delivered| && r.delivered[k] == d;
      assert d == ds[k];
    }
  }
}
