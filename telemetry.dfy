/** Lifecycle instrumentation: an ordered event log and synchronous handlers. */
module Monitoring {
  import opened Wrappers
  import opened Values
  import opened Dicts

  /** An emitted event: its type and its data dict. The timestamp is not modelled. */
  datatype Event = Event(eventType: string, data: Dict<Value>)

  /**
   * An event handler. The default one prints the event as JSON; others are
   * callbacks the caller supplied, told apart by an identifier.
   */
  datatype Handler = DefaultHandler | Callback(id: nat)

  /**
   * One handler invocation: which handler saw which event, and how long the
   * log was at that moment. Handlers' own effects are not modelled.
   */
  datatype Delivery = Delivery(handler: Handler, event: Event, logLength: nat)

  /** The invocations one `emit` makes: every handler once, in list order. */
  function Deliveries(handlers: seq<Handler>, e: Event, logLength: nat): (ds: seq<Delivery>)
    ensures |ds| == |handlers|
    ensures forall i :: 0 <= i < |handlers| ==> ds[i] == Delivery(handlers[i], e, logLength)
  {
    seq(|handlers|, i requires 0 <= i < |handlers| => Delivery(handlers[i], e, logLength))
  }

  /** The invocations made by emitting `es` in turn onto a log that held `base` events. */
  function Fanout(handlers: seq<Handler>, es: seq<Event>, base: nat): seq<Delivery>
    decreases |es|
  {
    if es == [] then []
    else Fanout(handlers, es[..|es| - 1], base) + Deliveries(handlers, es[|es| - 1], base + |es|)
  }

  /** Emitting one more event adds that event's deliveries at the end. */
  lemma FanoutSnoc(handlers: seq<Handler>, es: seq<Event>, e: Event, base: nat)
    ensures Fanout(handlers, es + [e], base)
         == Fanout(handlers, es, base) + Deliveries(handlers, e, base + |es| + 1)
  {
    assert (es + [e])[..|es|] == es;
  }

  /** The events of type `t`, in emission order (`get_events(t)`). */
  function Filter(es: seq<Event>, t: string): (r: seq<Event>)
    ensures |r| <= |es|
    ensures forall i :: 0 <= i < |r| ==> r[i].eventType == t
    decreases |es|
  {
    if es == [] then []
    else Filter(es[..|es| - 1], t) + (if es[|es| - 1].eventType == t then [es[|es| - 1]] else [])
  }

  /**
   * Filtering distributes over concatenation: the filtered log is the
   * filtered parts in the same order, so the filter keeps emission order.
   */
  lemma {:induction false} FilterAppend(xs: seq<Event>, ys: seq<Event>, t: string)
    ensures Filter(xs + ys, t) == Filter(xs, t) + Filter(ys, t)
    decreases |ys|
  {
    if ys != [] {
      var ys' := ys[..|ys| - 1];
      FilterAppend(xs, ys', t);
      assert (xs + ys)[..|xs + ys| - 1] == xs + ys';
      assert (xs + ys)[|xs + ys| - 1] == ys[|ys| - 1];
    } else {
      assert xs + ys == xs;
    }
  }

  /** An event of type `t` is kept; any other is dropped. */
  lemma FilterOne(e: Event, t: string)
    ensures Filter([e], t) == (if e.eventType == t then [e] else [])
  {
    assert [e][..0] == [];
  }

  /**
   * The log holds `e0` followed by `evs`, and the handler calls made for
   * `evs` follow the deliveries `d0` made before them.
   */
  ghost predicate Logged(t: Telemetry, e0: seq<Event>, d0: seq<Delivery>, evs: seq<Event>)
    reads t
  {
    t.events == e0 + evs && t.deliveries == d0 + Fanout(t.handlers, evs, |e0|)
  }

  /** `emit` seen from a caller that tracks what it has emitted since `e0`. */
  method EmitAfter(t: Telemetry, e: Event, ghost e0: seq<Event>, ghost d0: seq<Delivery>, ghost evs: seq<Event>)
    requires Logged(t, e0, d0, evs)
    modifies t
    ensures Logged(t, e0, d0, evs + [e]) && t.handlers == old(t.handlers)
  {
    t.Emit(e.eventType, e.data);
    FanoutSnoc(t.handlers, evs, e, |e0|);
    assert e0 + evs + [e] == e0 + (evs + [e]);
  }

  class Telemetry {
    var handlers: seq<Handler>
    var events: seq<Event>
    var deliveries: seq<Delivery>

    /**
     * `Telemetry(handlers)`: an empty log. Because of `handlers or [...]`, both
     * a missing and an empty handler list install the default handler alone.
     */
    constructor (handlers: Option<seq<Handler>>)
      ensures this.handlers == (if handlers.None? || handlers.value == [] then [DefaultHandler] else handlers.value)
      ensures events == [] && deliveries == []
    {
      if handlers.Some? && handlers.value != [] {
        this.handlers := handlers.value;
      } else {
        this.handlers := [DefaultHandler];
      }
      events := [];
      deliveries := [];
    }

    /**
     * `emit(event_type, data)`: appends exactly one event at the end of the
     * log, then calls every handler once, in list order, each one seeing the
     * log with the new event already in it.
     */
    method Emit(eventType: string, data: Dict<Value>)
      modifies this
      ensures events == old(events) + [Event(eventType, data)]
      ensures deliveries == old(deliveries) + Deliveries(handlers, Event(eventType, data), |events|)
      ensures handlers == old(handlers)
    {
      var e := Event(eventType, data);
      events := events + [e];
      ghost var before := deliveries;
      for i := 0 to |handlers|
        invariant events == old(events) + [e] && handlers == old(handlers)
        invariant deliveries == before + Deliveries(handlers[..i], e, |events|)
      {
        assert Deliveries(handlers[..i + 1], e, |events|) == Deliveries(handlers[..i], e, |events|) + [Delivery(handlers[i], e, |events|)];
        deliveries := deliveries + [Delivery(handlers[i], e, |events|)];
      }
      assert handlers[..|handlers|] == handlers;
    }

    /** `get_events(event_type)`: the whole log, or the events of one type. */
    function GetEvents(eventType: Option<string>): (r: seq<Event>)
      reads this
      ensures eventType.None? ==> r == events
      ensures eventType.Some? ==> r == Filter(events, eventType.value)
    {
      if eventType.None? then events else Filter(events, eventType.value)
    }

    /** `clear()`: empties the log; handlers are untouched. */
    method Clear()
      modifies this
      ensures events == [] && handlers == old(handlers) && deliveries == old(deliveries)
    {
      events := [];
    }
  }

  /**
   * A span around an operation: emits "<name>_start" with its data on entry
   * and "<name>_end" on exit, with the duration and, after a failure, an
   * "error" entry added to a copy of the data.
   */
  class Span {
    const telemetry: Telemetry
    const name: string
    const data: Dict<Value>
    var entered: bool

    /** `Span(telemetry, name, data)`: a missing data dict becomes an empty one. */
    constructor (telemetry: Telemetry, name: string, data: Option<Dict<Value>>)
      requires data.Some? ==> data.value.Valid()
      ensures this.telemetry == telemetry && this.name == name && !entered
      ensures this.data == (if data.Some? then data.value else Empty()) && this.data.Valid()
    {
      this.telemetry := telemetry;
      this.name := name;
      this.data := if data.Some? then data.value else Empty();
      entered := false;
    }

    /** `__enter__`: emits "<name>_start" with the span's data. */
    method Enter()
      modifies this, telemetry
      ensures entered
      ensures telemetry.events == old(telemetry.events) + [Event(name + "_start", data)]
      ensures telemetry.deliveries
           == old(telemetry.deliveries) + Deliveries(telemetry.handlers, Event(name + "_start", data), |telemetry.events|)
      ensures telemetry.handlers == old(telemetry.handlers)
    {
      entered := true;
      telemetry.Emit(name + "_start", data);
    }

    /**
     * `__exit__`: emits "<name>_end" with the span's data plus "duration_ms"
     * and, when the body raised, "error" with the exception's message.
     * The duration is a clock difference the caller supplies.
     */
    method Exit(durationMs: real, failure: Option<string>)
      requires entered && data.Valid()
      modifies telemetry
      ensures telemetry.events == old(telemetry.events) + [Event(name + "_end", EndData(data, durationMs, failure))]
      ensures telemetry.handlers == old(telemetry.handlers)
      ensures telemetry.deliveries
           == old(telemetry.deliveries)
              + Deliveries(telemetry.handlers, Event(name + "_end", EndData(data, durationMs, failure)), |telemetry.events|)
    {
      telemetry.Emit(name + "_end", EndData(data, durationMs, failure));
    }
  }

  /**
   * `{**data, "duration_ms": d}` plus `"error": str(exc)` after a failure: a
   * copy of the span's entries, in their order, with the duration added (or
   * overwritten in place) and the error message added after a failure.
   */
  function EndData(data: Dict<Value>, durationMs: real, failure: Option<string>): (d: Dict<Value>)
    requires data.Valid()
    ensures d.Valid()
    ensures d.Get("duration_ms") == Some(VFloat(durationMs))
    ensures failure.Some? ==> d.Get("error") == Some(VStr(failure.value))
    ensures failure.None? ==> d.Get("error") == data.Get("error")
    ensures forall k :: k != "duration_ms" && k != "error" ==> d.Get(k) == data.Get(k)
    ensures |data.keys| <= |d.keys| && d.keys[..|data.keys|] == data.keys
  {
    var timed := data.Put("duration_ms", VFloat(durationMs));
    if failure.Some? then timed.Put("error", VStr(failure.value)) else timed
  }
}
