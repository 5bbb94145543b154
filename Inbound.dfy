/**
 * What the client's processEvents does with what arrived from the server:
 * queued events are drained, server calls are turned into events with
 * string arguments and drained in a second pass, and async completions are
 * handed to their Lua callbacks unless they carry no callback reference.
 */
module Inbound {
  import opened Types
  import opened Events
  import opened EventDispatch

  /** LUA_NOREF: the reference meaning "no callback". */
  const LuaNoRef: int := -2

  /** How one server argument reaches Lua: as text, or not at all. */
  function ArgText(v: Value): Option<string>
  {
    match v
    case StringValue(s) => Some(s)
    case NumberValue(rendered) => Some(rendered)
    case BoolValue(b) => Some(if b then "true" else "false")
    case OtherValue => None
  }

  /** The string arguments of a server call, in order, without the unconvertible ones. */
  function StringArgs(args: seq<Value>): seq<string>
  {
    if args == [] then []
    else
      var rest := StringArgs(args[..|args| - 1]);
      match ArgText(args[|args| - 1])
      case Some(t) => rest + [t]
      case None => rest
  }

  /** Conversion works argument by argument: it distributes over concatenation. */
  lemma {:induction false} StringArgsAppend(a: seq<Value>, b: seq<Value>)
    ensures StringArgs(a + b) == StringArgs(a) + StringArgs(b)
    decreases |b|
  {
    if b == [] {
      assert a + b == a;
    } else {
      var init := b[..|b| - 1];
      assert (a + b)[..|a + b| - 1] == a + init;
      assert (a + b)[|a + b| - 1] == b[|b| - 1];
      StringArgsAppend(a, init);
    }
  }

  /**
   * Strings, numbers and booleans all get through, in order: when no
   * argument is of another kind the converted list is as long as the
   * original and holds each argument's text at its own position.
   */
  lemma {:induction false} StringArgsKeepsConvertible(args: seq<Value>)
    requires forall i :: 0 <= i < |args| ==> !args[i].OtherValue?
    ensures |StringArgs(args)| == |args|
    ensures forall i :: 0 <= i < |args| ==> ArgText(args[i]) == Some(StringArgs(args)[i])
  {
    if args != [] {
      StringArgsKeepsConvertible(args[..|args| - 1]);
    }
  }

  /** An argument of another kind is dropped without a trace. */
  lemma OtherArgumentDropped(a: seq<Value>, b: seq<Value>)
    ensures StringArgs(a + [OtherValue] + b) == StringArgs(a) + StringArgs(b)
  {
    StringArgsAppend(a + [OtherValue], b);
    StringArgsAppend(a, [OtherValue]);
  }

  function ToEvent(m: ServerMessage): LuaEvent
  {
    LuaEvent(m.methodName, StringArgs(m.args))
  }

  /** The events the server calls become, one per call, in arrival order. */
  function ToEvents(msgs: seq<ServerMessage>): (evs: seq<LuaEvent>)
    ensures |evs| == |msgs|
    ensures forall i :: 0 <= i < |msgs| ==>
              evs[i].name == msgs[i].methodName && evs[i].args == StringArgs(msgs[i].args)
  {
    if msgs == [] then [] else ToEvents(msgs[..|msgs| - 1]) + [ToEvent(msgs[|msgs| - 1])]
  }

  /** A completion is handed to Lua unless its reference is LUA_NOREF or -1. */
  predicate HasCallback(r: AsyncResult)
  {
    r.callbackRef != LuaNoRef && r.callbackRef != -1
  }

  /** The completions handed to Lua, in queue order. */
  function Deliverable(rs: seq<AsyncResult>): seq<AsyncResult>
  {
    if rs == [] then []
    else Deliverable(rs[..|rs| - 1]) + (if HasCallback(rs[|rs| - 1]) then [rs[|rs| - 1]] else [])
  }

  /**
   * Exactly the completions with a callback are handed on: none is lost,
   * none is invented, and none without a callback slips through.
   */
  lemma {:induction false} DeliverableExactly(rs: seq<AsyncResult>)
    ensures |Deliverable(rs)| <= |rs|
    ensures forall x :: x in Deliverable(rs) <==> x in rs && HasCallback(x)
    ensures forall x :: multiset(Deliverable(rs))[x] == if HasCallback(x) then multiset(rs)[x] else 0
  {
    if rs != [] {
      DeliverableExactly(rs[..|rs| - 1]);
      assert rs == rs[..|rs| - 1] + [rs[|rs| - 1]];
    }
  }

  /** One call of the event manager's processEvents over its current queue. */
  function Drain(b: Bus, h: Host): Bus
  {
    RunBatch(b.(queue := []), b.queue, h)
  }

  /**
   * The event part of processEvents: a drain, the server calls appended as
   * events behind whatever the first drain left queued, and a second drain.
   */
  function Pump(b: Bus, msgs: seq<ServerMessage>, h: Host): Bus
  {
    var b1 := Drain(b, h);
    Drain(b1.(queue := b1.queue + ToEvents(msgs)), h)
  }

  /**
   * The count processEvents reports for its event part: both drains count
   * their snapshot, and every server call is counted once more when it is
   * converted.
   */
  function PumpCount(b: Bus, msgs: seq<ServerMessage>, h: Host): nat
  {
    |b.queue| + |msgs| + (|Drain(b, h).queue| + |msgs|)
  }

  /**
   * With callbacks that call nothing back, the pending events are delivered
   * first and the server calls after them, both in order; nothing stays
   * queued; and every server call counts twice.
   */
  lemma QuietPump(b: Bus, msgs: seq<ServerMessage>, h: Host)
    requires Quiet(h)
    ensures Pump(b, msgs, h) ==
            b.(queue := [], effects := b.effects + QuietTrace(b.registry, b.queue, h)
                                                 + QuietTrace(b.registry, ToEvents(msgs), h))
    ensures PumpCount(b, msgs, h) == |b.queue| + 2 * |msgs|
  {
    var b0 := b.(queue := []);
    var t0 := QuietTrace(b.registry, b.queue, h);
    assert Drain(b, h) == b0.(effects := b.effects + t0) by {
      QuietBatch(b0, b.queue, h);
    }
    var b1 := b0.(effects := b.effects + t0);
    var evs := ToEvents(msgs);
    assert b1.(queue := b1.queue + evs).(queue := []) == b1;
    assert [] + evs == evs;
    QuietBatch(b1, evs, h);
  }

  /**
   * Events that callbacks of the second drain emit are not delivered in
   * the same call: they are what stays queued afterwards.
   */
  lemma SecondGenerationStaysQueued(b: Bus, msgs: seq<ServerMessage>, h: Host)
    ensures var b1 := Drain(b, h);
            var p := Pump(b, msgs, h);
            |p.effects| >= |b1.effects| && p.effects[..|b1.effects|] == b1.effects &&
            p.queue == Emitted(p.effects[|b1.effects|..], h)
  {
    var b1 := Drain(b, h);
    var b2 := b1.(queue := b1.queue + ToEvents(msgs));
    EmittedEventsDeferred(b2.(queue := []), b2.queue, h);
  }
}
