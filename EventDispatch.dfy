/**
 * What a batch of dispatched events does, stated against reference
 * definitions: with callbacks that make no calls back into the manager the
 * effects are exactly one invocation per handler in a fixed order, and in
 * every case the events emitted by running callbacks end up queued behind
 * the batch instead of being dispatched in it.
 */
module EventDispatch {
  import opened Types
  import opened Events

  // ---------------------------------------------------------------------
  // Callbacks that make no calls back

  /** No handler of the host calls off, offAll or emit. */
  predicate Quiet(h: Host)
  {
    (forall n :: n in h.legacy ==> h.legacy[n].actions == []) &&
    (forall r :: r in h.callbacks ==> h.callbacks[r].actions == [])
  }

  /** One invocation per reference, in list order, each with its own outcome. */
  function RefCalls(e: LuaEvent, refs: seq<int>, h: Host): (es: seq<Effect>)
    ensures |es| == |refs|
    ensures forall i :: 0 <= i < |refs| ==>
              es[i] == Invoked(e.name, Ref(refs[i]), e.args, ReactionOf(h, refs[i]).fails)
  {
    if refs == [] then []
    else
      var r := refs[|refs| - 1];
      RefCalls(e, refs[..|refs| - 1], h) + [Invoked(e.name, Ref(r), e.args, ReactionOf(h, r).fails)]
  }

  /** The invocations one event causes: the legacy handler, then every registered reference. */
  function EventCalls(reg: Registry, e: LuaEvent, h: Host): seq<Effect>
  {
    (if e.name in h.legacy then [Invoked(e.name, Legacy, e.args, h.legacy[e.name].fails)] else []) +
    RefCalls(e, Lookup(reg, e.name), h)
  }

  /** The invocations a batch causes, event after event. */
  function QuietTrace(reg: Registry, evs: seq<LuaEvent>, h: Host): seq<Effect>
  {
    if evs == [] then []
    else QuietTrace(reg, evs[..|evs| - 1], h) + EventCalls(reg, evs[|evs| - 1], h)
  }

  lemma QuietInvoke(b: Bus, name: string, t: Target, args: seq<string>, rc: Reaction)
    requires rc.actions == []
    ensures Invoke(b, name, t, args, rc) == b.(effects := b.effects + [Invoked(name, t, args, rc.fails)])
  {
  }

  lemma {:induction false} QuietCallRefs(b: Bus, e: LuaEvent, refs: seq<int>, h: Host)
    requires Quiet(h)
    requires forall r :: r in refs ==> IsValid(b.registry, e.name, r)
    ensures CallRefs(b, e, refs, h) == b.(effects := b.effects + RefCalls(e, refs, h))
  {
    if refs != [] {
      var init, r := refs[..|refs| - 1], refs[|refs| - 1];
      assert forall x :: x in init ==> x in refs;
      QuietCallRefs(b, e, init, h);
      var b' := b.(effects := b.effects + RefCalls(e, init, h));
      assert r in refs;
      QuietInvoke(b', e.name, Ref(r), e.args, ReactionOf(h, r));
      assert b'.effects + [Invoked(e.name, Ref(r), e.args, ReactionOf(h, r).fails)] ==
             b.effects + RefCalls(e, refs, h);
    }
  }

  /**
   * With quiet callbacks one event invokes the legacy handler when there is
   * one and then every registered reference in registration order, whether
   * or not an earlier one failed; nothing else changes.
   */
  lemma QuietDispatch(b: Bus, e: LuaEvent, h: Host)
    requires Quiet(h)
    ensures Dispatch(b, e, h) == b.(effects := b.effects + EventCalls(b.registry, e, h))
  {
    var b1 := CallLegacy(b, e, h);
    var leg := if e.name in h.legacy then [Invoked(e.name, Legacy, e.args, h.legacy[e.name].fails)] else [];
    assert b1 == b.(effects := b.effects + leg) by {
      if e.name in h.legacy {
        QuietInvoke(b, e.name, Legacy, e.args, h.legacy[e.name]);
      } else {
        assert b.effects + [] == b.effects;
      }
    }
    QuietCallRefs(b1, e, Lookup(b.registry, e.name), h);
    assert (b.effects + leg) + RefCalls(e, Lookup(b.registry, e.name), h) ==
           b.effects + EventCalls(b.registry, e, h);
  }

  /** A quiet batch leaves registry and queue alone and records exactly the reference trace. */
  lemma {:induction false} QuietBatch(b: Bus, evs: seq<LuaEvent>, h: Host)
    requires Quiet(h)
    ensures RunBatch(b, evs, h) == b.(effects := b.effects + QuietTrace(b.registry, evs, h))
  {
    if evs == [] {
      assert b.effects + [] == b.effects;
    } else {
      var init, e := evs[..|evs| - 1], evs[|evs| - 1];
      var t0, t1 := QuietTrace(b.registry, init, h), EventCalls(b.registry, e, h);
      var b' := b.(effects := b.effects + t0);
      assert RunBatch(b, init, h) == b' by {
        QuietBatch(b, init, h);
      }
      assert RunBatch(b, evs, h) == Dispatch(b', e, h);
      assert Dispatch(b', e, h) == b.(effects := (b.effects + t0) + t1) by {
        QuietDispatch(b', e, h);
      }
      assert (b.effects + t0) + t1 == b.effects + QuietTrace(b.registry, evs, h) by {
        assert QuietTrace(b.registry, evs, h) == t0 + t1;
      }
    }
  }

  /** Without a legacy handler, one event causes exactly callbackCount invocations. */
  lemma QuietEventCount(reg: Registry, e: LuaEvent, h: Host)
    requires e.name !in h.legacy
    ensures |EventCalls(reg, e, h)| == Count(reg, e.name)
    ensures forall i :: 0 <= i < |EventCalls(reg, e, h)| ==>
              EventCalls(reg, e, h)[i].Invoked? && EventCalls(reg, e, h)[i].target.Ref?
  {
    assert EventCalls(reg, e, h) == RefCalls(e, Lookup(reg, e.name), h);
  }

  // ---------------------------------------------------------------------
  // Emitted events are deferred

  /** The handler whose behaviour an invocation effect records. */
  function ReactionFor(h: Host, name: string, t: Target): Reaction
  {
    match t
    case Legacy => if name in h.legacy then h.legacy[name] else Reaction([], false)
    case Ref(r) => ReactionOf(h, r)
  }

  /** The events a list of calls emits, in order. */
  function Emits(acts: seq<Action>): seq<LuaEvent>
  {
    if acts == [] then []
    else
      var a := acts[|acts| - 1];
      Emits(acts[..|acts| - 1]) + (if a.CallEmit? then [a.event] else [])
  }

  /** The events emitted by the handlers a run of effects invoked, in order. */
  function Emitted(es: seq<Effect>, h: Host): seq<LuaEvent>
  {
    if es == [] then []
    else
      var x := es[|es| - 1];
      Emitted(es[..|es| - 1], h) +
      (if x.Invoked? then Emits(ReactionFor(h, x.event, x.target).actions) else [])
  }

  lemma {:induction false} EmittedAppend(a: seq<Effect>, c: seq<Effect>, h: Host)
    ensures Emitted(a + c, h) == Emitted(a, h) + Emitted(c, h)
    decreases |c|
  {
    if c == [] {
      assert a + c == a;
    } else {
      var init := c[..|c| - 1];
      assert (a + c)[..|a + c| - 1] == a + init;
      EmittedAppend(a, init, h);
    }
  }

  lemma {:induction false} EmittedOfReleases(es: seq<Effect>, h: Host)
    requires OnlyReleases(es)
    ensures Emitted(es, h) == []
  {
    if es != [] {
      EmittedOfReleases(es[..|es| - 1], h);
    }
  }

  /**
   * `b` grows into `b'` by the effects `d`, as dispatch does: the effects are
   * extended by `d`, and the queue by exactly the events that the handlers
   * invoked in `d` emit.
   */
  predicate GrowsBy(b: Bus, b': Bus, d: seq<Effect>, h: Host)
  {
    b'.effects == b.effects + d && b'.queue == b.queue + Emitted(d, h)
  }

  lemma GrowsByNothing(b: Bus, h: Host)
    ensures GrowsBy(b, b, [], h)
  {
    assert b.effects + [] == b.effects;
    assert b.queue + [] == b.queue;
  }

  lemma GrowsByTrans(a: Bus, b: Bus, c: Bus, d1: seq<Effect>, d2: seq<Effect>, h: Host)
    requires GrowsBy(a, b, d1, h) && GrowsBy(b, c, d2, h)
    ensures GrowsBy(a, c, d1 + d2, h)
  {
    assert (a.effects + d1) + d2 == a.effects + (d1 + d2);
    EmittedAppend(d1, d2, h);
    assert (a.queue + Emitted(d1, h)) + Emitted(d2, h) == a.queue + Emitted(d1 + d2, h);
  }

  /** The calls of one callback add only releases and queue exactly what they emit. */
  lemma {:induction false} PerformShape(b: Bus, acts: seq<Action>) returns (d: seq<Effect>)
    ensures Perform(b, acts).effects == b.effects + d && OnlyReleases(d)
    ensures Perform(b, acts).queue == b.queue + Emits(acts)
  {
    if acts == [] {
      d := [];
      assert b.queue + [] == b.queue;
      assert b.effects + [] == b.effects;
    } else {
      var init, a := acts[..|acts| - 1], acts[|acts| - 1];
      var p := Perform(b, init);
      var d0 := PerformShape(b, init);
      var added := ApplyShape(p, a);
      assert Perform(b, acts) == Apply(p, a);
      d := d0 + added;
      assert (b.effects + d0) + added == b.effects + d;
      assert OnlyReleases(d) by {
        forall i | 0 <= i < |d|
          ensures d[i].Released?
        {
          if i < |d0| { assert d[i] == d0[i]; } else { assert d[i] == added[i - |d0|]; }
        }
      }
      var x := if a.CallEmit? then [a.event] else [];
      assert Emits(acts) == Emits(init) + x;
      assert (b.queue + Emits(init)) + x == b.queue + Emits(acts);
    }
  }

  /** One call adds only releases and queues what it emits. */
  lemma ApplyShape(p: Bus, a: Action) returns (added: seq<Effect>)
    ensures Apply(p, a).effects == p.effects + added && OnlyReleases(added)
    ensures Apply(p, a).queue == p.queue + (if a.CallEmit? then [a.event] else [])
  {
    match a
    case CallOff(n, r) =>
      added := if IsValid(p.registry, n, r) then [Released(r)] else [];
    case CallOffAll(n) =>
      added := Releases(Lookup(p.registry, n));
    case CallEmit(_) =>
      added := [];
      assert p.effects + [] == p.effects;
  }

  lemma InvokeGrows(b: Bus, name: string, t: Target, args: seq<string>, h: Host) returns (d: seq<Effect>)
    ensures GrowsBy(b, Invoke(b, name, t, args, ReactionFor(h, name, t)), d, h)
  {
    var rc := ReactionFor(h, name, t);
    var x := Invoked(name, t, args, rc.fails);
    var b1 := b.(effects := b.effects + [x]);
    var rest := PerformShape(b1, rc.actions);
    assert Invoke(b, name, t, args, rc) == Perform(b1, rc.actions);
    d := [x] + rest;
    assert (b.effects + [x]) + rest == b.effects + d;
    assert Emitted(d, h) == Emits(rc.actions) by {
      EmittedAppend([x], rest, h);
      EmittedOfReleases(rest, h);
      assert [x][..0] == [];
    }
  }

  lemma {:induction false} CallRefsGrows(b: Bus, e: LuaEvent, refs: seq<int>, h: Host) returns (d: seq<Effect>)
    ensures GrowsBy(b, CallRefs(b, e, refs, h), d, h)
  {
    if refs == [] {
      d := [];
      GrowsByNothing(b, h);
    } else {
      var init, r := refs[..|refs| - 1], refs[|refs| - 1];
      var d0 := CallRefsGrows(b, e, init, h);
      var b' := CallRefs(b, e, init, h);
      if IsValid(b'.registry, e.name, r) {
        var d1 := InvokeGrows(b', e.name, Ref(r), e.args, h);
        GrowsByTrans(b, b', CallRefs(b, e, refs, h), d0, d1, h);
        d := d0 + d1;
      } else {
        d := d0;
      }
    }
  }

  lemma DispatchGrows(b: Bus, e: LuaEvent, h: Host) returns (d: seq<Effect>)
    ensures GrowsBy(b, Dispatch(b, e, h), d, h)
  {
    var b1 := CallLegacy(b, e, h);
    var d0: seq<Effect>;
    if e.name in h.legacy {
      d0 := InvokeGrows(b, e.name, Legacy, e.args, h);
    } else {
      d0 := [];
      GrowsByNothing(b, h);
    }
    var d1 := CallRefsGrows(b1, e, Lookup(b1.registry, e.name), h);
    GrowsByTrans(b, b1, Dispatch(b, e, h), d0, d1, h);
    d := d0 + d1;
  }

  lemma {:induction false} BatchGrows(b: Bus, evs: seq<LuaEvent>, h: Host) returns (d: seq<Effect>)
    ensures GrowsBy(b, RunBatch(b, evs, h), d, h)
  {
    if evs == [] {
      d := [];
      GrowsByNothing(b, h);
    } else {
      var d0 := BatchGrows(b, evs[..|evs| - 1], h);
      var b' := RunBatch(b, evs[..|evs| - 1], h);
      var d1 := DispatchGrows(b', evs[|evs| - 1], h);
      GrowsByTrans(b, b', RunBatch(b, evs, h), d0, d1, h);
      d := d0 + d1;
    }
  }

  /**
   * processEvents dispatches only its snapshot: after the batch the effects
   * extend the old ones, and the queue holds what it held before followed
   * by exactly the events that the invoked handlers emitted, in the order
   * they emitted them.
   */
  lemma EmittedEventsDeferred(b: Bus, evs: seq<LuaEvent>, h: Host)
    ensures var b' := RunBatch(b, evs, h);
            |b.effects| <= |b'.effects| && b'.effects[..|b.effects|] == b.effects &&
            b'.queue == b.queue + Emitted(b'.effects[|b.effects|..], h)
  {
    var d := BatchGrows(b, evs, h);
    var b' := RunBatch(b, evs, h);
    assert b'.effects[..|b.effects|] == b.effects && b'.effects[|b.effects|..] == d;
  }

  // ---------------------------------------------------------------------
  // A stale reference

  /** A callback's calls back into the manager never make a reference valid again. */
  lemma {:induction false} PerformKeepsStale(b: Bus, acts: seq<Action>, name: string, r: int)
    requires !IsValid(b.registry, name, r)
    ensures !IsValid(Perform(b, acts).registry, name, r)
  {
    if acts != [] {
      var p := Perform(b, acts[..|acts| - 1]);
      PerformKeepsStale(b, acts[..|acts| - 1], name, r);
      match acts[|acts| - 1]
      case CallOff(n, x) =>
        if n == name && n in p.registry {
          RemoveFirstKeepsOnly(p.registry[n], x);
        }
      case CallOffAll(_) =>
      case CallEmit(_) =>
    }
  }

  /**
   * callCallbacks checks each reference at its turn: a reference that is
   * not valid for the event when the run starts is never invoked during it
   * (whatever the callbacks that do run call back), stays invalid, and the
   * effects before the run are kept.
   */
  lemma {:induction false} StaleReferenceSkipped(b: Bus, e: LuaEvent, refs: seq<int>, h: Host, r: int)
    requires !IsValid(b.registry, e.name, r)
    ensures var b' := CallRefs(b, e, refs, h);
            !IsValid(b'.registry, e.name, r) &&
            |b.effects| <= |b'.effects| && b'.effects[..|b.effects|] == b.effects &&
            forall i :: |b.effects| <= i < |b'.effects| ==> b'.effects[i] != Invoked(e.name, Ref(r), e.args, ReactionOf(h, r).fails)
  {
    if refs != [] {
      var init, x := refs[..|refs| - 1], refs[|refs| - 1];
      var m := CallRefs(b, e, init, h);
      StaleReferenceSkipped(b, e, init, h, r);
      if IsValid(m.registry, e.name, x) {
        var rc := ReactionOf(h, x);
        var m1 := m.(effects := m.effects + [Invoked(e.name, Ref(x), e.args, rc.fails)]);
        var d := PerformShape(m1, rc.actions);
        PerformKeepsStale(m1, rc.actions, e.name, r);
        var b' := CallRefs(b, e, refs, h);
        assert b' == Perform(m1, rc.actions);
        assert x != r;
        forall i | |b.effects| <= i < |b'.effects|
          ensures b'.effects[i] != Invoked(e.name, Ref(r), e.args, ReactionOf(h, r).fails)
        {
          if i < |m.effects| {
            assert b'.effects[i] == m.effects[i];
          } else if i > |m.effects| {
            assert b'.effects[i] == d[i - |m1.effects|];
          }
        }
      }
    }
  }

  /** The copied list may be split anywhere: the second part runs on the state the first leaves. */
  lemma {:induction false} CallRefsAppend(b: Bus, e: LuaEvent, p: seq<int>, q: seq<int>, h: Host)
    ensures CallRefs(b, e, p + q, h) == CallRefs(CallRefs(b, e, p, h), e, q, h)
  {
    if q == [] {
      assert p + q == p;
    } else {
      CallRefsAppend(b, e, p, q[..|q| - 1], h);
      assert (p + q)[..|p + q| - 1] == p + q[..|q| - 1];
      assert (p + q)[|p + q| - 1] == q[|q| - 1];
    }
  }

  /**
   * A reference that the callbacks run so far have removed (by off or
   * offAll) is not invoked at any later turn of the same callCallbacks.
   */
  lemma RemovedByEarlierCallbackSkipped(b: Bus, e: LuaEvent, refs: seq<int>, h: Host, k: nat, r: int)
    requires k <= |refs|
    requires !IsValid(CallRefs(b, e, refs[..k], h).registry, e.name, r)
    ensures var m := CallRefs(b, e, refs[..k], h);
            var b' := CallRefs(b, e, refs, h);
            b' == CallRefs(m, e, refs[k..], h) &&
            |m.effects| <= |b'.effects| && b'.effects[..|m.effects|] == m.effects &&
            forall i :: |m.effects| <= i < |b'.effects| ==> b'.effects[i] != Invoked(e.name, Ref(r), e.args, ReactionOf(h, r).fails)
  {
    assert refs[..k] + refs[k..] == refs;
    CallRefsAppend(b, e, refs[..k], refs[k..], h);
    StaleReferenceSkipped(CallRefs(b, e, refs[..k], h), e, refs[k..], h, r);
  }

  /**
   * Two callbacks for "E"; the first calls off("E", 2). Dispatching "E"
   * invokes only the first: the second is no longer valid at its turn and
   * is released, not called.
   */
  lemma StaleReferenceExample()
    ensures var h := Host(map[], map[1 := Reaction([CallOff("E", 2)], false)]);
            var b := Bus(map["E" := [1, 2]], [], []);
            var b' := Dispatch(b, LuaEvent("E", []), h);
            b'.effects == [Invoked("E", Ref(1), [], false), Released(2)] &&
            b'.registry == map["E" := [1]]
  {
    var h := Host(map[], map[1 := Reaction([CallOff("E", 2)], false)]);
    var b := Bus(map["E" := [1, 2]], [], []);
    var e := LuaEvent("E", []);
    assert [1, 2][..1] == [1];
    assert [1][..0] == [];
    var b1 := b.(effects := [Invoked("E", Ref(1), [], false)]);
    assert CallRefs(b, e, [1], h) == OffBus(b1, "E", 2) by {
      assert CallRefs(b, e, [1], h) == Invoke(CallRefs(b, e, [], h), "E", Ref(1), [], ReactionOf(h, 1));
      assert ReactionOf(h, 1) == Reaction([CallOff("E", 2)], false);
      assert [] + [Invoked("E", Ref(1), [], false)] == b1.effects;
      assert Perform(b1, [CallOff("E", 2)]) == Apply(Perform(b1, []), CallOff("E", 2));
    }
    assert RemoveFirst([1, 2], 2) == [1] by {
      assert [1, 2][1..] == [2];
      assert [2][1..] == [];
    }
    var b2 := OffBus(b1, "E", 2);
    assert b2.registry == map["E" := [1]];
    assert !IsValid(b2.registry, "E", 2);
  }
}
