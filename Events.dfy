/**
 * The callback registry and queued event dispatch. Lua callbacks are integer
 * references handed out by an allocator; what the Lua side does when one of
 * them runs is given by a Host script (which calls it makes back into the
 * manager, and whether it raises an error). Every invocation and every
 * release of a reference is recorded, in order, as an Effect.
 */
module Events {
  import opened Types
  import opened Queues

  /** Event name to the references registered for it, in registration order. */
  type Registry = map<string, seq<int>>

  function Lookup(cb: Registry, name: string): seq<int>
  {
    if name in cb then cb[name] else []
  }

  /** callbackCount: the length of the name's list, 0 when the name is absent. */
  function Count(cb: Registry, name: string): nat
  {
    |Lookup(cb, name)|
  }

  /** isRefValid: the reference is in the name's list. */
  predicate IsValid(cb: Registry, name: string, r: int)
  {
    r in Lookup(cb, name)
  }

  /** No name is kept with an empty list. */
  predicate WellFormed(cb: Registry)
  {
    forall n :: n in cb ==> cb[n] != []
  }

  predicate RefsBelow(cb: Registry, bound: int)
  {
    forall n, r :: n in cb && r in cb[n] ==> r < bound
  }

  /** `on`: the reference is appended to the name's list. */
  function Register(cb: Registry, name: string, r: int): (cb': Registry)
    ensures Lookup(cb', name) == Lookup(cb, name) + [r]
    ensures forall n :: n != name ==> Lookup(cb', n) == Lookup(cb, n)
    ensures WellFormed(cb) ==> WellFormed(cb')
  {
    cb[name := Lookup(cb, name) + [r]]
  }

  /** The list without the first entry equal to `r`. */
  function RemoveFirst(s: seq<int>, r: int): seq<int>
  {
    if s == [] then []
    else if s[0] == r then s[1..] else [s[0]] + RemoveFirst(s[1..], r)
  }

  /** One copy of `r` goes when there is one; nothing else changes. */
  lemma {:induction false} RemoveFirstMultiset(s: seq<int>, r: int)
    ensures multiset(RemoveFirst(s, r)) == multiset(s) - multiset{r}
  {
    if s != [] {
      assert s == [s[0]] + s[1..];
      assert multiset(s) == multiset{s[0]} + multiset(s[1..]);
      if s[0] != r {
        RemoveFirstMultiset(s[1..], r);
        assert multiset(RemoveFirst(s, r)) == multiset{s[0]} + multiset(RemoveFirst(s[1..], r));
      }
    }
  }

  /** Without an entry equal to `r` the list is unchanged; with one it is one shorter. */
  lemma RemoveFirstLength(s: seq<int>, r: int)
    ensures r !in s ==> RemoveFirst(s, r) == s
    ensures r in s ==> |RemoveFirst(s, r)| == |s| - 1
  {
    RemoveFirstMultiset(s, r);
    assert |multiset(RemoveFirst(s, r))| == |RemoveFirst(s, r)|;
    if r !in s {
      RemoveFirstAbsent(s, r);
    }
  }

  lemma {:induction false} RemoveFirstAbsent(s: seq<int>, r: int)
    requires r !in s
    ensures RemoveFirst(s, r) == s
  {
    if s != [] {
      assert s[1..] == s[1..];
      RemoveFirstAbsent(s[1..], r);
      assert s == [s[0]] + s[1..];
    }
  }

  lemma {:induction false} RemoveFirstKeepsOnly(s: seq<int>, r: int)
    ensures forall x :: x in RemoveFirst(s, r) ==> x in s
  {
    if s != [] && s[0] != r {
      RemoveFirstKeepsOnly(s[1..], r);
    }
  }

  lemma {:induction false} RemoveFirstAt(s: seq<int>, r: int, i: nat)
    requires i < |s| && s[i] == r && r !in s[..i]
    ensures RemoveFirst(s, r) == s[..i] + s[i + 1..]
  {
    if i > 0 {
      assert s[0] in s[..i];
      assert s[1..][..i - 1] == s[1..i];
      RemoveFirstAt(s[1..], r, i - 1);
      assert s[1..][i - 1 + 1..] == s[i + 1..];
      assert s[..i] == [s[0]] + s[1..i];
    }
  }

  lemma {:induction false} RemoveFirstOfAppended(s: seq<int>, r: int)
    requires r !in s
    ensures RemoveFirst(s + [r], r) == s
  {
    assert (s + [r])[..|s|] == s;
    RemoveFirstAt(s + [r], r, |s|);
    assert (s + [r])[|s| + 1..] == [];
  }

  /**
   * `off`: the first entry equal to `r` leaves the name's list, and the name
   * leaves the registry once its list is empty.
   */
  function Unregister(cb: Registry, name: string, r: int): Registry
  {
    if name !in cb then cb
    else
      var rest := RemoveFirst(cb[name], r);
      if rest == [] then cb - {name} else cb[name := rest]
  }

  /** `offAll`: the name leaves the registry with all its references. */
  function UnregisterAll(cb: Registry, name: string): Registry
  {
    cb - {name}
  }

  /**
   * `off` removes one entry exactly when the reference was registered under
   * that name, and touches no other name.
   */
  lemma UnregisterEffect(cb: Registry, name: string, r: int)
    requires WellFormed(cb)
    ensures Lookup(Unregister(cb, name, r), name) == RemoveFirst(Lookup(cb, name), r)
    ensures Count(Unregister(cb, name, r), name) ==
              if IsValid(cb, name, r) then Count(cb, name) - 1 else Count(cb, name)
    ensures forall n :: n != name ==> Lookup(Unregister(cb, name, r), n) == Lookup(cb, n)
  {
    if name in cb {
      RemoveFirstLength(cb[name], r);
    }
  }

  /** `off` with a reference not registered under the name changes nothing. */
  lemma UnregisterUnknownIsNoop(cb: Registry, name: string, r: int)
    requires WellFormed(cb) && !IsValid(cb, name, r)
    ensures Unregister(cb, name, r) == cb
  {
    if name in cb {
      RemoveFirstAbsent(cb[name], r);
      assert cb[name := cb[name]] == cb;
    }
  }

  /** Registering a fresh reference and unregistering it restores the registry. */
  lemma RegisterThenUnregister(cb: Registry, name: string, r: int)
    requires WellFormed(cb) && !IsValid(cb, name, r)
    ensures Unregister(Register(cb, name, r), name, r) == cb
  {
    var reg := Register(cb, name, r);
    if name in cb {
      RemoveFirstOfAppended(cb[name], r);
      assert Unregister(reg, name, r) == reg[name := cb[name]] by {
        assert reg[name] == cb[name] + [r];
      }
      assert reg[name := cb[name]] == cb;
    } else {
      assert reg[name] == [r];
      assert Unregister(reg, name, r) == reg - {name};
      assert reg - {name} == cb;
    }
  }

  /** The manager's invariant survives `off`. */
  lemma UnregisterKeepsInvariant(cb: Registry, name: string, r: int, bound: int)
    requires WellFormed(cb) && RefsBelow(cb, bound)
    ensures WellFormed(Unregister(cb, name, r)) && RefsBelow(Unregister(cb, name, r), bound)
  {
    if name in cb {
      RemoveFirstKeepsOnly(cb[name], r);
    }
  }

  /** After `offAll` the name has no callbacks and the others keep theirs. */
  lemma UnregisterAllEffect(cb: Registry, name: string)
    requires WellFormed(cb)
    ensures WellFormed(UnregisterAll(cb, name))
    ensures Count(UnregisterAll(cb, name), name) == 0
    ensures forall n :: n != name ==> Lookup(UnregisterAll(cb, name), n) == Lookup(cb, n)
  {
  }

  // ---------------------------------------------------------------------
  // Dispatch

  /** Who is called for an event: the global WebS[name] slot or a reference. */
  datatype Target = Legacy | Ref(ref: int)

  /** A call into Lua (and whether it raised), or the release of a reference. */
  datatype Effect =
    | Invoked(event: string, target: Target, args: seq<string>, failed: bool)
    | Released(ref: int)

  /** A call a running callback makes back into the manager. */
  datatype Action =
    | CallOff(name: string, ref: int)
    | CallOffAll(name: string)
    | CallEmit(event: LuaEvent)

  /** What a callback does when it runs, and whether it ends with an error. */
  datatype Reaction = Reaction(actions: seq<Action>, fails: bool)

  /**
   * The Lua side: the events for which a global WebS[name] function exists,
   * with its behaviour, and the behaviour of each referenced function.
   */
  datatype Host = Host(legacy: map<string, Reaction>, callbacks: map<int, Reaction>)

  function ReactionOf(h: Host, r: int): Reaction
  {
    if r in h.callbacks then h.callbacks[r] else Reaction([], false)
  }

  /** The observable state of a manager: registry, pending events, effects. */
  datatype Bus = Bus(registry: Registry, queue: seq<LuaEvent>, effects: seq<Effect>)

  function Releases(refs: seq<int>): (es: seq<Effect>)
    ensures |es| == |refs|
    ensures forall i :: 0 <= i < |refs| ==> es[i] == Released(refs[i])
  {
    if refs == [] then [] else [Released(refs[0])] + Releases(refs[1..])
  }

  /** A run of effects made of reference releases only: nothing is invoked. */
  predicate OnlyReleases(es: seq<Effect>)
  {
    forall i :: 0 <= i < |es| ==> es[i].Released?
  }

  function OffBus(b: Bus, name: string, r: int): Bus
  {
    b.(registry := Unregister(b.registry, name, r),
       effects := b.effects + (if IsValid(b.registry, name, r) then [Released(r)] else []))
  }

  function OffAllBus(b: Bus, name: string): Bus
  {
    b.(registry := UnregisterAll(b.registry, name),
       effects := b.effects + Releases(Lookup(b.registry, name)))
  }

  function Apply(b: Bus, a: Action): Bus
  {
    match a
    case CallOff(n, r) => OffBus(b, n, r)
    case CallOffAll(n) => OffAllBus(b, n)
    case CallEmit(e) => b.(queue := b.queue + [e])
  }

  /** The actions of one callback, in order. */
  function Perform(b: Bus, acts: seq<Action>): Bus
  {
    if acts == [] then b
    else Apply(Perform(b, acts[..|acts| - 1]), acts[|acts| - 1])
  }

  function Invoke(b: Bus, name: string, t: Target, args: seq<string>, rc: Reaction): Bus
  {
    Perform(b.(effects := b.effects + [Invoked(name, t, args, rc.fails)]), rc.actions)
  }

  /** callLegacyCallback: WebS[name] runs when it exists. */
  function CallLegacy(b: Bus, e: LuaEvent, h: Host): Bus
  {
    if e.name in h.legacy then Invoke(b, e.name, Legacy, e.args, h.legacy[e.name]) else b
  }

  /**
   * callCallbacks over the copied list `refs`: each reference still valid at
   * its turn runs; a stale one is skipped.
   */
  function CallRefs(b: Bus, e: LuaEvent, refs: seq<int>, h: Host): Bus
  {
    if refs == [] then b
    else
      var b' := CallRefs(b, e, refs[..|refs| - 1], h);
      var r := refs[|refs| - 1];
      if IsValid(b'.registry, e.name, r) then Invoke(b', e.name, Ref(r), e.args, ReactionOf(h, r))
      else b'
  }

  function CallRegistered(b: Bus, e: LuaEvent, h: Host): Bus
  {
    CallRefs(b, e, Lookup(b.registry, e.name), h)
  }

  /** One event: the legacy handler first, then the registered callbacks. */
  function Dispatch(b: Bus, e: LuaEvent, h: Host): Bus
  {
    CallRegistered(CallLegacy(b, e, h), e, h)
  }

  /** A snapshot of events, dispatched in FIFO order. */
  function RunBatch(b: Bus, evs: seq<LuaEvent>, h: Host): Bus
  {
    if evs == [] then b
    else Dispatch(RunBatch(b, evs[..|evs| - 1], h), evs[|evs| - 1], h)
  }

  // ---------------------------------------------------------------------
  // The manager

  class EventManager {
    var callbacks: Registry
    var effects: seq<Effect>
    /** The next reference the Lua registry hands out. */
    var nextRef: int
    const eventQueue: ThreadSafeQueue<LuaEvent>

    ghost predicate Valid()
      reads this
    {
      WellFormed(callbacks) && RefsBelow(callbacks, nextRef) && nextRef >= 1
    }

    function State(): Bus
      reads this, eventQueue
    {
      Bus(callbacks, eventQueue.items, effects)
    }

    constructor ()
      ensures Valid() && fresh(eventQueue)
      ensures callbacks == map[] && effects == [] && eventQueue.items == []
    {
      callbacks := map[];
      effects := [];
      nextRef := 1;
      eventQueue := new ThreadSafeQueue();
    }

    /**
     * Registers the function at the given stack slot for `name`; -1 when
     * there is no Lua state or the slot does not hold a function.
     */
    method On(hasState: bool, isFunction: bool, name: string) returns (ref: int)
      requires Valid()
      modifies this
      ensures Valid() && effects == old(effects)
      ensures !(hasState && isFunction) ==>
                ref == -1 && callbacks == old(callbacks) && nextRef == old(nextRef)
      ensures hasState && isFunction ==>
                ref == old(nextRef) && ref >= 1 && nextRef == old(nextRef) + 1 &&
                callbacks == Register(old(callbacks), name, ref)
    {
      if !hasState || !isFunction {
        return -1;
      }
      ref := nextRef;
      nextRef := nextRef + 1;
      callbacks := Register(callbacks, name, ref);
    }

    /** Removes the first registration of `ref` under `name` and releases it. */
    method Off(hasState: bool, name: string, ref: int)
      requires Valid()
      modifies this
      ensures Valid() && nextRef == old(nextRef)
      ensures hasState ==> State() == OffBus(old(State()), name, ref)
      ensures !hasState ==> callbacks == old(callbacks) && effects == old(effects)
    {
      if !hasState {
        return;
      }
      if name !in callbacks {
        assert IsValid(callbacks, name, ref) == false;
        assert effects + [] == effects;
        return;
      }
      var vec := callbacks[name];
      var i := FindRef(vec, ref);
      if i < |vec| {
        RemoveFirstAt(vec, ref, i);
        effects := effects + [Released(ref)];
        vec := vec[..i] + vec[i + 1..];
      } else {
        RemoveFirstAbsent(vec, ref);
        assert effects + [] == effects;
      }
      UnregisterKeepsInvariant(callbacks, name, ref, nextRef);
      if vec == [] {
        callbacks := callbacks - {name};
      } else {
        callbacks := callbacks[name := vec];
      }
    }

    /** The index of the first entry equal to `ref`, or |vec| when there is none. */
    static method FindRef(vec: seq<int>, ref: int) returns (i: nat)
      ensures i <= |vec| && ref !in vec[..i]
      ensures i < |vec| ==> vec[i] == ref
      ensures i == |vec| <==> ref !in vec
    {
      i := 0;
      while i < |vec| && vec[i] != ref
        invariant 0 <= i <= |vec|
        invariant ref !in vec[..i]
      {
        i := i + 1;
      }
      assert i == |vec| ==> vec[..i] == vec;
    }

    /** Releases every reference of `name` and removes the name. */
    method OffAll(hasState: bool, name: string)
      requires Valid()
      modifies this
      ensures Valid() && nextRef == old(nextRef)
      ensures hasState ==> State() == OffAllBus(old(State()), name)
      ensures !hasState ==> callbacks == old(callbacks) && effects == old(effects)
    {
      if !hasState {
        return;
      }
      if name !in callbacks {
        assert callbacks - {name} == callbacks;
        assert effects + Releases([]) == effects;
        return;
      }
      ReleaseAll(callbacks[name]);
      callbacks := callbacks - {name};
    }

    /** Releases each reference of a list, in list order. */
    method ReleaseAll(refs: seq<int>)
      modifies this
      ensures callbacks == old(callbacks) && nextRef == old(nextRef)
      ensures effects == old(effects) + Releases(refs)
    {
      var i := 0;
      while i < |refs|
        invariant 0 <= i <= |refs|
        invariant callbacks == old(callbacks) && nextRef == old(nextRef)
        invariant effects == old(effects) + Releases(refs[..i])
      {
        effects := effects + [Released(refs[i])];
        i := i + 1;
        ReleasesSnoc(refs[..i - 1], refs[i - 1]);
        assert refs[..i] == refs[..i - 1] + [refs[i - 1]];
      }
      assert refs[..i] == refs;
    }

    /** Queues the event; nothing is invoked. */
    method Emit(name: string, args: seq<string>)
      modifies eventQueue
      ensures eventQueue.items == old(eventQueue.items) + [LuaEvent(name, args)]
    {
      eventQueue.Push(LuaEvent(name, args));
    }

    method CallbackCount(name: string) returns (n: nat)
      ensures n == Count(callbacks, name)
      ensures n == 0 <==> Lookup(callbacks, name) == []
    {
      if name !in callbacks {
        return 0;
      }
      n := |callbacks[name]|;
    }

    method IsRefValid(name: string, ref: int) returns (valid: bool)
      ensures valid <==> IsValid(callbacks, name, ref)
    {
      if name !in callbacks {
        return false;
      }
      var vec := callbacks[name];
      var i := 0;
      while i < |vec|
        invariant 0 <= i <= |vec|
        invariant ref !in vec[..i]
      {
        if vec[i] == ref {
          return true;
        }
        i := i + 1;
      }
      assert vec[..i] == vec;
      return false;
    }

    /** Carries out the calls a running callback makes back into the manager. */
    method PerformActions(acts: seq<Action>)
      requires Valid()
      modifies this, eventQueue
      ensures Valid() && nextRef == old(nextRef)
      ensures State() == Perform(old(State()), acts)
    {
      var i := 0;
      while i < |acts|
        invariant 0 <= i <= |acts|
        invariant Valid() && nextRef == old(nextRef)
        invariant State() == Perform(old(State()), acts[..i])
      {
        assert acts[..i + 1][..i] == acts[..i];
        ApplyAction(acts[i]);
        i := i + 1;
      }
      assert acts[..i] == acts;
    }

    /** One call of a running callback back into the manager. */
    method ApplyAction(a: Action)
      requires Valid()
      modifies this, eventQueue
      ensures Valid() && nextRef == old(nextRef)
      ensures State() == Apply(old(State()), a)
    {
      match a {
        case CallOff(n, r) => Off(true, n, r);
        case CallOffAll(n) => OffAll(true, n);
        case CallEmit(e) => Emit(e.name, e.args);
      }
    }

    method InvokeTarget(name: string, t: Target, args: seq<string>, rc: Reaction)
      requires Valid()
      modifies this, eventQueue
      ensures Valid() && nextRef == old(nextRef)
      ensures State() == Invoke(old(State()), name, t, args, rc)
    {
      effects := effects + [Invoked(name, t, args, rc.fails)];
      PerformActions(rc.actions);
    }

    /** Calls the global WebS[name] function when there is one. */
    method CallLegacyCallback(hasState: bool, e: LuaEvent, h: Host)
      requires Valid()
      modifies this, eventQueue
      ensures Valid() && nextRef == old(nextRef)
      ensures hasState ==> State() == CallLegacy(old(State()), e, h)
      ensures !hasState ==> State() == old(State())
    {
      if !hasState || e.name !in h.legacy {
        return;
      }
      InvokeTarget(e.name, Legacy, e.args, h.legacy[e.name]);
    }

    /**
     * Calls the callbacks registered for the event, over a copy of the list,
     * skipping a reference that is no longer registered at its turn. A
     * callback that fails does not stop the ones after it.
     */
    method CallCallbacks(hasState: bool, e: LuaEvent, h: Host)
      requires Valid()
      modifies this, eventQueue
      ensures Valid() && nextRef == old(nextRef)
      ensures hasState ==> State() == CallRegistered(old(State()), e, h)
      ensures !hasState ==> State() == old(State())
    {
      if !hasState {
        return;
      }
      var refs := Lookup(callbacks, e.name);
      var i := 0;
      while i < |refs|
        invariant 0 <= i <= |refs|
        invariant Valid() && nextRef == old(nextRef)
        invariant State() == CallRefs(old(State()), e, refs[..i], h)
      {
        assert refs[..i + 1][..i] == refs[..i];
        var valid := IsRefValid(e.name, refs[i]);
        if valid {
          InvokeTarget(e.name, Ref(refs[i]), e.args, ReactionOf(h, refs[i]));
        }
        i := i + 1;
      }
      assert refs[..i] == refs;
    }

    /**
     * Swaps the pending events out and dispatches that snapshot in order;
     * events emitted meanwhile stay queued. Returns the number of events in
     * the snapshot.
     */
    method ProcessEvents(hasState: bool, h: Host) returns (processed: int)
      requires Valid()
      modifies this, eventQueue
      ensures Valid() && nextRef == old(nextRef)
      ensures hasState ==> processed == |old(eventQueue.items)|
      ensures hasState ==>
                State() == RunBatch(old(State()).(queue := []), old(eventQueue.items), h)
      ensures !hasState ==> processed == 0 && State() == old(State())
    {
      if !hasState {
        return 0;
      }
      var snapshot := eventQueue.Swap([]);
      processed := 0;
      while processed < |snapshot|
        invariant 0 <= processed <= |snapshot|
        invariant Valid() && nextRef == old(nextRef)
        invariant State() == RunBatch(old(State()).(queue := []), snapshot[..processed], h)
      {
        assert snapshot[..processed + 1][..processed] == snapshot[..processed];
        DispatchEvent(snapshot[processed], h);
        processed := processed + 1;
      }
      assert snapshot[..processed] == snapshot;
    }

    /** The legacy handler first, then the registered callbacks. */
    method DispatchEvent(e: LuaEvent, h: Host)
      requires Valid()
      modifies this, eventQueue
      ensures Valid() && nextRef == old(nextRef)
      ensures State() == Dispatch(old(State()), e, h)
    {
      CallLegacyCallback(true, e, h);
      CallCallbacks(true, e, h);
    }

    /** Releases every reference of `cb`, one name after the other. */
    method ReleaseRegistry(cb: Registry) returns (ghost done: seq<Effect>)
      modifies this
      ensures callbacks == old(callbacks) && nextRef == old(nextRef)
      ensures effects == old(effects) + done
      ensures OnlyReleases(done) && ReleasedRefs(done) == AllRefs(cb)
      ensures |done| == |AllRefs(cb)|
    {
      done := [];
      var remaining := cb;
      while remaining != map[]
        invariant callbacks == old(callbacks) && nextRef == old(nextRef)
        invariant effects == old(effects) + done
        invariant OnlyReleases(done)
        invariant ReleasedRefs(done) + AllRefs(remaining) == AllRefs(cb)
        decreases |remaining.Keys|
      {
        var name :| name in remaining;
        var refs := remaining[name];
        ReleaseAll(refs);
        ClearStep(done, remaining, name, cb);
        SnocEffects(old(effects), done, Releases(refs));
        done := done + Releases(refs);
        assert (remaining - {name}).Keys == remaining.Keys - {name};
        remaining := remaining - {name};
      }
      ReleasedRefsCount(done);
    }

    /** Releases every reference, empties the registry and drops pending events. */
    method Clear(hasState: bool)
      requires Valid()
      modifies this, eventQueue
      ensures Valid() && nextRef == old(nextRef)
      ensures hasState ==> callbacks == map[] && eventQueue.items == []
      ensures hasState ==> |effects| >= |old(effects)| && effects[..|old(effects)|] == old(effects)
      ensures hasState ==> OnlyReleases(effects[|old(effects)|..])
      ensures hasState ==> ReleasedRefs(effects[|old(effects)|..]) == AllRefs(old(callbacks))
      ensures !hasState ==> State() == old(State())
    {
      if !hasState {
        return;
      }
      ghost var before := effects;
      ghost var done := ReleaseRegistry(callbacks);
      assert effects[..|before|] == before && effects[|before|..] == done;
      callbacks := map[];
      var dropped := eventQueue.Swap([]);
    }
  }

  lemma SnocEffects(a: seq<Effect>, b: seq<Effect>, c: seq<Effect>)
    ensures (a + b) + c == a + (b + c)
  {
  }

  lemma ClearStep(done: seq<Effect>, remaining: Registry, name: string, all: Registry)
    requires name in remaining
    requires ReleasedRefs(done) + AllRefs(remaining) == AllRefs(all)
    ensures ReleasedRefs(done + Releases(remaining[name])) + AllRefs(remaining - {name}) == AllRefs(all)
  {
    AllRefsRemove(remaining, name);
    ReleasedRefsAppend(done, Releases(remaining[name]));
    ReleasedRefsOfReleases(remaining[name]);
  }

  /** The references released by a run of effects, as a multiset. */
  function ReleasedRefs(es: seq<Effect>): multiset<int>
  {
    if es == [] then multiset{}
    else (if es[0].Released? then multiset{es[0].ref} else multiset{}) + ReleasedRefs(es[1..])
  }

  lemma {:induction false} ReleasedRefsAppend(a: seq<Effect>, b: seq<Effect>)
    ensures ReleasedRefs(a + b) == ReleasedRefs(a) + ReleasedRefs(b)
  {
    if a == [] {
      assert a + b == b;
    } else {
      assert (a + b)[0] == a[0];
      assert (a + b)[1..] == a[1..] + b;
      ReleasedRefsAppend(a[1..], b);
    }
  }

  /** A run of releases only releases one reference per effect. */
  lemma {:induction false} ReleasedRefsCount(es: seq<Effect>)
    requires OnlyReleases(es)
    ensures |ReleasedRefs(es)| == |es|
  {
    if es != [] {
      ReleasedRefsCount(es[1..]);
    }
  }

  lemma {:induction false} ReleasesSnoc(refs: seq<int>, r: int)
    ensures Releases(refs + [r]) == Releases(refs) + [Released(r)]
  {
    if refs != [] {
      assert (refs + [r])[1..] == refs[1..] + [r];
      ReleasesSnoc(refs[1..], r);
    }
  }

  lemma {:induction false} ReleasedRefsOfReleases(refs: seq<int>)
    ensures ReleasedRefs(Releases(refs)) == multiset(refs)
  {
    if refs != [] {
      assert Releases(refs)[1..] == Releases(refs[1..]);
      ReleasedRefsOfReleases(refs[1..]);
      assert refs == [refs[0]] + refs[1..];
    }
  }

  /** Every reference registered under any name, with multiplicity. */
  ghost function AllRefs(cb: Registry): multiset<int>
    decreases |cb.Keys|
  {
    if cb == map[] then multiset{}
    else
      var n :| n in cb;
      assert (cb - {n}).Keys == cb.Keys - {n};
      multiset(cb[n]) + AllRefs(cb - {n})
  }

  /** The multiset of all references does not depend on which name is taken first. */
  lemma {:induction false} AllRefsRemove(cb: Registry, n: string)
    requires n in cb
    ensures AllRefs(cb) == multiset(cb[n]) + AllRefs(cb - {n})
    decreases |cb.Keys|
  {
    var m :| m in cb && AllRefs(cb) == multiset(cb[m]) + AllRefs(cb - {m});
    if m != n {
      assert (cb - {m}).Keys == cb.Keys - {m};
      assert (cb - {n}).Keys == cb.Keys - {n};
      AllRefsRemove(cb - {m}, n);
      AllRefsRemove(cb - {n}, m);
      assert cb - {m} - {n} == cb - {n} - {m};
    }
  }
}
