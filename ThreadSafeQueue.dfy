/**
 * The mutex-guarded FIFO used for every hand-off between the network side
 * and the host thread. In this sequential model the lock disappears and the
 * queue is its contents, a sequence whose front is index 0.
 */
module Queues {

  class ThreadSafeQueue<T> {
    var items: seq<T>

    constructor ()
      ensures items == []
    {
      items := [];
    }

    /** Appends the item at the back. */
    method Push(item: T)
      modifies this
      ensures items == old(items) + [item]
    {
      items := items + [item];
    }

    /**
     * On an empty queue returns false and hands back `item` untouched;
     * otherwise returns true with the front element and removes it.
     */
    method TryPop(item: T) returns (ok: bool, out: T)
      modifies this
      ensures ok <==> old(items) != []
      ensures !ok ==> out == item && items == old(items)
      ensures ok ==> out == old(items)[0] && items == old(items)[1..]
    {
      if items == [] {
        return false, item;
      }
      out := items[0];
      items := items[1..];
      ok := true;
    }

    method Size() returns (n: nat)
      ensures n == |items|
    {
      n := |items|;
    }

    method Empty() returns (b: bool)
      ensures b <==> |items| == 0
    {
      b := items == [];
    }

    method Clear()
      modifies this
      ensures items == []
    {
      items := [];
    }

    /** Exchanges the contents with `other`: nothing is lost or duplicated. */
    method Swap(other: seq<T>) returns (taken: seq<T>)
      modifies this
      ensures items == other && taken == old(items)
      ensures multiset(items) + multiset(taken) == multiset(other) + multiset(old(items))
    {
      taken := items;
      items := other;
    }
  }

  /** One call on a queue, as seen by a client. */
  datatype QueueOp<T> = Push(item: T) | Pop | Clear

  /**
   * The contents after a script of calls, each call taking effect exactly as
   * the postcondition of the corresponding method states.
   */
  function After<T>(s: seq<T>, ops: seq<QueueOp<T>>): seq<T>
    decreases |ops|
  {
    if ops == [] then s
    else match ops[0]
      case Push(x) => After(s + [x], ops[1..])
      case Pop => After(if s == [] then s else s[1..], ops[1..])
      case Clear => After([], ops[1..])
  }

  /** The items the successful pops of the script hand out, in order. */
  function Popped<T>(s: seq<T>, ops: seq<QueueOp<T>>): seq<T>
    decreases |ops|
  {
    if ops == [] then []
    else match ops[0]
      case Push(x) => Popped(s + [x], ops[1..])
      case Pop => (if s == [] then [] else [s[0]]) + Popped(if s == [] then s else s[1..], ops[1..])
      case Clear => Popped([], ops[1..])
  }

  /** The items the script pushes, in order. */
  function Pushed<T>(ops: seq<QueueOp<T>>): seq<T>
  {
    if ops == [] then []
    else (if ops[0].Push? then [ops[0].item] else []) + Pushed(ops[1..])
  }

  predicate NoClear<T>(ops: seq<QueueOp<T>>)
  {
    forall i :: 0 <= i < |ops| ==> !ops[i].Clear?
  }

  /**
   * FIFO without loss or duplication: between clears, what was popped
   * followed by what is still queued is exactly what was there followed by
   * what was pushed, in push order.
   */
  lemma {:induction false} PopsFollowPushOrder<T>(s: seq<T>, ops: seq<QueueOp<T>>)
    requires NoClear(ops)
    ensures Popped(s, ops) + After(s, ops) == s + Pushed(ops)
    decreases |ops|
  {
    if ops != [] {
      NoClearTail(ops);
      match ops[0]
      case Push(x) =>
        PopsFollowPushOrder(s + [x], ops[1..]);
        PushStep(s, ops);
      case Pop =>
        if s == [] {
          PopsFollowPushOrder(s, ops[1..]);
        } else {
          PopsFollowPushOrder(s[1..], ops[1..]);
          PopStep(s, ops);
        }
    }
  }

  lemma NoClearTail<T>(ops: seq<QueueOp<T>>)
    requires NoClear(ops) && ops != []
    ensures !ops[0].Clear? && NoClear(ops[1..])
  {
    forall i | 0 <= i < |ops[1..]| ensures !ops[1..][i].Clear? {
      assert ops[1..][i] == ops[i + 1];
    }
  }

  lemma PushStep<T>(s: seq<T>, ops: seq<QueueOp<T>>)
    requires ops != [] && ops[0].Push?
    requires Popped(s + [ops[0].item], ops[1..]) + After(s + [ops[0].item], ops[1..]) ==
             (s + [ops[0].item]) + Pushed(ops[1..])
    ensures Popped(s, ops) + After(s, ops) == s + Pushed(ops)
  {
    assert Pushed(ops) == [ops[0].item] + Pushed(ops[1..]);
  }

  lemma PopStep<T>(s: seq<T>, ops: seq<QueueOp<T>>)
    requires ops != [] && ops[0].Pop? && s != []
    requires Popped(s[1..], ops[1..]) + After(s[1..], ops[1..]) == s[1..] + Pushed(ops[1..])
    ensures Popped(s, ops) + After(s, ops) == s + Pushed(ops)
  {
    var p, a := Popped(s[1..], ops[1..]), After(s[1..], ops[1..]);
    assert Pushed(ops) == Pushed(ops[1..]);
    assert Popped(s, ops) == [s[0]] + p;
    assert After(s, ops) == a;
    Regroup(s[0], p, a, s[1..], Pushed(ops[1..]));
    assert [s[0]] + s[1..] == s;
  }

  lemma Regroup<T>(x: T, p: seq<T>, a: seq<T>, t: seq<T>, u: seq<T>)
    requires p + a == t + u
    ensures ([x] + p) + a == ([x] + t) + u
  {
    assert ([x] + p) + a == [x] + (p + a);
    assert ([x] + t) + u == [x] + (t + u);
  }

  /** The number of Pop calls that find the queue non-empty. */
  function SuccessfulPops<T>(s: seq<T>, ops: seq<QueueOp<T>>): nat
  {
    |Popped(s, ops)|
  }

  /** Between clears, the size is the pushes minus the successful pops. */
  lemma SizeCountsPushesAndPops<T>(s: seq<T>, ops: seq<QueueOp<T>>)
    requires NoClear(ops)
    ensures |After(s, ops)| == |s| + |Pushed(ops)| - SuccessfulPops(s, ops)
  {
    PopsFollowPushOrder(s, ops);
  }
}
