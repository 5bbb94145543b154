/**
 * The connection lifecycle of the client as functions of its status fields:
 * the reconnect loop, the worker's episode and the disconnect notification.
 * The transport is replaced by scripts of outcomes: what each start attempt
 * does, and where a stop request from another thread is noticed. Events are
 * the ones the client emits to the event manager, in order.
 */
module Lifecycle {
  import opened Types
  import opened Backoff

  /** The lifecycle fields of the client. */
  datatype Life = Life(
    status: ConnectionStatus,
    attempts: nat,
    reconnecting: bool,
    stop: bool,
    destroyed: bool,
    /** A connection object is held. */
    connected: bool,
    /** The server methods the held connection routes to the client. */
    subscribed: set<string>)

  /**
   * One turn of the reconnect loop as the environment plays it: a stop
   * request noticed at the loop test, during the backoff or while the start
   * is awaited; or the start failing (an error or the timeout) or succeeding.
   */
  datatype RetryStep = StopBeforeRetry | StopInBackoff | StopInStart | StartFails | StartSucceeds

  /** How the first start of an episode ends. */
  datatype FirstStart = Started | StartFailed | StartTimedOut

  datatype Exit =
    | Disabled        // reconnection is switched off
    | AlreadyRunning  // another reconnect loop holds the guard
    | Stopped         // a stop request ended the loop
    | GaveUp          // the attempt limit was exceeded
    | Reconnected     // a retry connected
    | OutOfScript     // the script ended while the loop was still running
    | Ignored         // a disconnect notification with nothing to do
    | NoRetry         // a disconnect notification that does not reconnect
    | Ended           // an episode that ran to its cleanup without reconnecting

  /** The new fields, the emitted events, the backoff sleeps and the way out. */
  datatype Run = Run(life: Life, emitted: seq<LuaEvent>, sleeps: seq<int>, exit: Exit)

  const MaxAttemptsMessage: string := "Max reconnection attempts reached"

  function OnError(message: string): LuaEvent { LuaEvent("OnError", [message]) }
  function OnReconnecting(n: nat): LuaEvent { LuaEvent("OnReconnecting", [Decimal(n)]) }
  const OnReconnected: LuaEvent := LuaEvent("OnReconnected", [])
  const OnConnect: LuaEvent := LuaEvent("OnConnect", [])
  const OnDisconnect: LuaEvent := LuaEvent("OnDisconnect", [])

  /** One turn's new fields, its events and sleeps, and its exit when the loop ends with it. */
  datatype Turn = Turn(life: Life, events: seq<LuaEvent>, waits: seq<int>, exit: Option<Exit>)

  /**
   * One turn of the reconnect loop once its test has passed. The counter is
   * bumped and checked against a positive limit; then comes the attempt.
   */
  function RetryTurn(l: Life, cfg: ReconnectConfig, registered: set<string>, step: RetryStep): Turn
  {
    if step == StopBeforeRetry then Turn(l.(stop := true, reconnecting := false), [], [], Some(Stopped))
    else
      var n := l.attempts + 1;
      if cfg.maxAttempts > 0 && n > cfg.maxAttempts then
        Turn(l.(attempts := n, reconnecting := false), [OnError(MaxAttemptsMessage)], [], Some(GaveUp))
      else AttemptTurn(l.(attempts := n, status := Reconnecting), cfg, registered, step)
  }

  /**
   * The rest of a turn, RECONNECTING with the bumped counter: the attempt is
   * announced, the backoff delay of the previous attempt number is slept
   * and a start is tried.
   */
  function AttemptTurn(l: Life, cfg: ReconnectConfig, registered: set<string>, step: RetryStep): Turn
    requires step != StopBeforeRetry
  {
    var ev := [OnReconnecting(l.attempts)];
    var w := [Delay(cfg, l.attempts - 1)];
    match step
    case StopInBackoff => Turn(l.(stop := true, reconnecting := false), ev, w, Some(Stopped))
    case StopInStart => Turn(l.(status := Connecting, stop := true, reconnecting := false), ev, w, Some(Stopped))
    case StartFails => Turn(l.(status := Connecting), ev, w, None)
    case StartSucceeds =>
      Turn(l.(status := Connected, attempts := 0, reconnecting := false, destroyed := false,
              connected := true, subscribed := registered),
           ev + [OnReconnected], w, Some(Reconnected))
  }

  /**
   * The reconnect loop from its test onwards, after it has emitted `emitted`
   * and slept `sleeps`: it ends on a stop request, when the script runs out,
   * or with the turn that ends it.
   */
  function Loop(l: Life, cfg: ReconnectConfig, registered: set<string>, steps: seq<RetryStep>,
                emitted: seq<LuaEvent>, sleeps: seq<int>): Run
    decreases |steps|
  {
    if l.stop then Run(l.(reconnecting := false), emitted, sleeps, Stopped)
    else if steps == [] then Run(l, emitted, sleeps, OutOfScript)
    else
      var t := RetryTurn(l, cfg, registered, steps[0]);
      if t.exit.Some? then Run(t.life, emitted + t.events, sleeps + t.waits, t.exit.value)
      else Loop(t.life, cfg, registered, steps[1..], emitted + t.events, sleeps + t.waits)
  }

  /** One turn of the loop at position i of the script, once its test has passed. */
  lemma LoopStepAt(l: Life, cfg: ReconnectConfig, registered: set<string>, steps: seq<RetryStep>, i: nat,
                   emitted: seq<LuaEvent>, sleeps: seq<int>)
    requires !l.stop && i < |steps|
    ensures var t := RetryTurn(l, cfg, registered, steps[i]);
            Loop(l, cfg, registered, steps[i..], emitted, sleeps) ==
            if t.exit.Some? then Run(t.life, emitted + t.events, sleeps + t.waits, t.exit.value)
            else Loop(t.life, cfg, registered, steps[i + 1..], emitted + t.events, sleeps + t.waits)
  {
    assert steps[i..][0] == steps[i] && steps[i..][1..] == steps[i + 1..];
  }

  /** attemptReconnect: disabled, already running, or the loop under the guard. */
  function Reconnect(l: Life, cfg: ReconnectConfig, registered: set<string>, steps: seq<RetryStep>): Run
  {
    if !cfg.enabled then Run(l, [], [], Disabled)
    else if l.reconnecting then Run(l, [], [], AlreadyRunning)
    else Loop(l.(reconnecting := true), cfg, registered, steps, [], [])
  }

  /** The worker's exit path: the connection is released and the status is DISCONNECTED. */
  function Cleanup(l: Life): Life
  {
    l.(status := Disconnected, connected := false, destroyed := true)
  }

  function StartFailure(first: FirstStart): string
  {
    if first == StartTimedOut then "Exception: Connection timeout" else "Exception: Failed to start connection"
  }

  /** A run with `e` emitted before everything it emitted. */
  function After(e: LuaEvent, r: Run): Run
  {
    r.(emitted := [e] + r.emitted)
  }

  /**
   * The episode after a first start that succeeded: connected and announced,
   * and once the connected wait ends, cleaned up.
   */
  function StartedEpisode(l: Life, registered: set<string>): Run
  {
    var l1 := l.(connected := true, destroyed := false, status := Connected, attempts := 0,
                 reconnecting := false, subscribed := registered);
    Run(Cleanup(l1), [OnConnect], [], Ended)
  }

  /**
   * The episode after a first start that failed, as the source has it: the
   * failure is reported and, with no stop requested, the reconnect loop runs
   * and the worker returns straight after it, skipping the cleanup.
   */
  function FailedStartAsWritten(l: Life, cfg: ReconnectConfig, registered: set<string>,
                                first: FirstStart, stopDuringStart: bool, steps: seq<RetryStep>): Run
  {
    var l1 := l.(status := Disconnected, stop := l.stop || stopDuringStart);
    if !l1.stop then After(OnError(StartFailure(first)), Reconnect(l1, cfg, registered, steps))
    else Run(Cleanup(l1), [OnError(StartFailure(first))], [], Ended)
  }

  /** The worker's episode as the source has it. */
  function EpisodeAsWritten(l: Life, cfg: ReconnectConfig, registered: set<string>,
                            first: FirstStart, stopDuringStart: bool, steps: seq<RetryStep>): Run
  {
    var l0 := l.(status := Connecting);
    if first == Started then StartedEpisode(l0, registered)
    else FailedStartAsWritten(l0, cfg, registered, first, stopDuringStart, steps)
  }

  /** The cleanup after the run unless the script ran out before the run ended. */
  function Settle(r: Run): Run
  {
    if r.exit == OutOfScript then r else r.(life := Cleanup(r.life))
  }

  /**
   * The episode with the cleanup also after the reconnect loop, so that
   * every way out of the loop but an unfinished script ends DISCONNECTED.
   */
  function Episode(l: Life, cfg: ReconnectConfig, registered: set<string>,
                   first: FirstStart, stopDuringStart: bool, steps: seq<RetryStep>): Run
  {
    Settle(EpisodeAsWritten(l, cfg, registered, first, stopDuringStart, steps))
  }

  /**
   * handleDisconnected: ignored once destroyed or DISCONNECTED; otherwise
   * DISCONNECTED with one OnError or OnDisconnect, and a reconnect only after
   * an error with no stop requested.
   */
  function HandleDisconnected(l: Life, cfg: ReconnectConfig, registered: set<string>,
                              withError: bool, steps: seq<RetryStep>): Run
  {
    if l.destroyed || l.status == Disconnected then Run(l, [], [], Ignored)
    else
      var l1 := l.(status := Disconnected);
      var e := if withError then OnError("Disconnected due to an error") else OnDisconnect;
      if !l1.stop && withError then After(e, Reconnect(l1, cfg, registered, steps))
      else Run(l1, [e], [], NoRetry)
  }

  // ---------------------------------------------------------------------
  // The shape of a reconnect run

  /** OnReconnecting for the attempt numbers from+1 .. from+k, in order. */
  function Announce(from: nat, k: nat): (es: seq<LuaEvent>)
    ensures |es| == k
  {
    if k == 0 then [] else Announce(from, k - 1) + [OnReconnecting(from + k)]
  }

  /** The i-th announcement carries attempt number from+i+1. */
  lemma {:induction false} AnnounceAt(from: nat, k: nat, i: nat)
    requires i < k
    ensures Announce(from, k)[i] == OnReconnecting(from + i + 1)
  {
    if i < k - 1 {
      AnnounceAt(from, k - 1, i);
    }
  }

  /** The backoff delays of the attempt numbers from+1 .. from+k. */
  function Waits(cfg: ReconnectConfig, from: nat, k: nat): (ws: seq<int>)
    ensures |ws| == k
  {
    if k == 0 then [] else Waits(cfg, from, k - 1) + [Delay(cfg, from + k - 1)]
  }

  /** The i-th sleep is the backoff delay of attempt index from+i. */
  lemma {:induction false} WaitsAt(cfg: ReconnectConfig, from: nat, k: nat, i: nat)
    requires i < k
    ensures Waits(cfg, from, k)[i] == Delay(cfg, from + i)
  {
    if i < k - 1 {
      WaitsAt(cfg, from, k - 1, i);
    }
  }

  function MaxOf(a: int, b: int): int { if a < b then b else a }

  /** What follows the announcements: the give-up error or the reconnected event. */
  function Tail(x: Exit): seq<LuaEvent>
  {
    if x == GaveUp then [OnError(MaxAttemptsMessage)]
    else if x == Reconnected then [OnReconnected]
    else []
  }

  /** A failed start sends the loop round once more with the counter bumped. */
  lemma LoopTurn(l: Life, cfg: ReconnectConfig, registered: set<string>, steps: seq<RetryStep>,
                 em: seq<LuaEvent>, sl: seq<int>)
    requires !l.stop && steps != [] && steps[0] == StartFails
    requires !(cfg.maxAttempts > 0 && l.attempts + 1 > cfg.maxAttempts)
    ensures Loop(l, cfg, registered, steps, em, sl) ==
            Loop(l.(attempts := l.attempts + 1, status := Connecting), cfg, registered, steps[1..],
                 em + [OnReconnecting(l.attempts + 1)], sl + [Delay(cfg, l.attempts)])
  {
  }

  lemma ShapedSame(r: Run, r': Run, cfg: ReconnectConfig, from: nat)
    requires Shaped(r, cfg, from) && r == r'
    ensures Shaped(r', cfg, from)
  {
  }

  /** LoopTurn with the announcements and sleeps of the attempts made so far. */
  lemma LoopTurnAnnounced(l: Life, cfg: ReconnectConfig, registered: set<string>, steps: seq<RetryStep>,
                          from: nat, k: nat)
    requires l.attempts == from + k
    requires !l.stop && steps != [] && steps[0] == StartFails
    requires !(cfg.maxAttempts > 0 && l.attempts + 1 > cfg.maxAttempts)
    ensures Loop(l, cfg, registered, steps, Announce(from, k), Waits(cfg, from, k)) ==
            Loop(l.(attempts := l.attempts + 1, status := Connecting), cfg, registered, steps[1..],
                 Announce(from, k + 1), Waits(cfg, from, k + 1))
  {
    var em, sl := Announce(from, k), Waits(cfg, from, k);
    LoopTurn(l, cfg, registered, steps, em, sl);
  }

  /**
   * The shape of a reconnect run that started with the counter at `from`:
   * one announcement and one backoff sleep per attempt, then the tail.
   */
  predicate Shaped(r: Run, cfg: ReconnectConfig, from: nat)
  {
    r.sleeps == Waits(cfg, from, |r.sleeps|) &&
    r.emitted == Announce(from, |r.sleeps|) + Tail(r.exit)
  }

  lemma {:induction false} LoopShape(l: Life, cfg: ReconnectConfig, registered: set<string>,
                                     steps: seq<RetryStep>, from: nat, k: nat)
    requires l.attempts == from + k
    ensures Shaped(Loop(l, cfg, registered, steps, Announce(from, k), Waits(cfg, from, k)), cfg, from)
    decreases |steps|
  {
    if !l.stop && steps != [] && steps[0] == StartFails && !(cfg.maxAttempts > 0 && l.attempts + 1 > cfg.maxAttempts) {
      var l' := l.(attempts := l.attempts + 1, status := Connecting);
      LoopTurnAnnounced(l, cfg, registered, steps, from, k);
      LoopShape(l', cfg, registered, steps[1..], from, k + 1);
      ShapedSame(Loop(l', cfg, registered, steps[1..], Announce(from, k + 1), Waits(cfg, from, k + 1)),
                 Loop(l, cfg, registered, steps, Announce(from, k), Waits(cfg, from, k)), cfg, from);
    } else {
      LoopShapeLast(l, cfg, registered, steps, from, k);
    }
  }

  /** LoopShape for a loop that ends at its test or with the turn it takes. */
  lemma LoopShapeLast(l: Life, cfg: ReconnectConfig, registered: set<string>,
                      steps: seq<RetryStep>, from: nat, k: nat)
    requires l.attempts == from + k
    requires !(!l.stop && steps != [] && steps[0] == StartFails && !(cfg.maxAttempts > 0 && l.attempts + 1 > cfg.maxAttempts))
    ensures Shaped(Loop(l, cfg, registered, steps, Announce(from, k), Waits(cfg, from, k)), cfg, from)
  {
    var em, sl := Announce(from, k), Waits(cfg, from, k);
    var r := Loop(l, cfg, registered, steps, em, sl);
    if l.stop || steps == [] || steps[0] == StopBeforeRetry {
      assert r.sleeps == sl && r.emitted == em && Tail(r.exit) == [];
      assert em + [] == em;
    } else if cfg.maxAttempts > 0 && l.attempts + 1 > cfg.maxAttempts {
      assert r.sleeps == sl && r.emitted == em + [OnError(MaxAttemptsMessage)] && r.exit == GaveUp;
    } else {
      var n := l.attempts + 1;
      var em', sl' := Announce(from, k + 1), Waits(cfg, from, k + 1);
      assert em + [OnReconnecting(n)] == em';
      assert sl + [Delay(cfg, n - 1)] == sl';
      if steps[0] == StartSucceeds {
        assert r.sleeps == sl' && r.emitted == em' + [OnReconnected] && r.exit == Reconnected;
      } else {
        assert r.sleeps == sl' && r.emitted == em' && r.exit == Stopped;
        assert em' + [] == em';
      }
    }
  }

  /**
   * Every reconnect run announces consecutive attempt numbers starting after
   * the counter, sleeps the matching backoff delay before each attempt, and
   * ends with the give-up error, the reconnected event, or nothing else.
   */
  lemma ReconnectShape(l: Life, cfg: ReconnectConfig, registered: set<string>, steps: seq<RetryStep>)
    ensures var r := Reconnect(l, cfg, registered, steps);
            r.sleeps == Waits(cfg, l.attempts, |r.sleeps|) &&
            r.emitted == Announce(l.attempts, |r.sleeps|) + Tail(r.exit)
  {
    if cfg.enabled && !l.reconnecting {
      LoopShape(l.(reconnecting := true), cfg, registered, steps, l.attempts, 0);
    }
  }

  /**
   * The loop's own guard, and what each way out leaves behind: only a
   * successful retry connects and resets the counter, and every finished
   * loop drops the guard again.
   */
  lemma {:induction false} LoopExits(l: Life, cfg: ReconnectConfig, registered: set<string>,
                                     steps: seq<RetryStep>, em: seq<LuaEvent>, sl: seq<int>)
    requires l.reconnecting && l.status != Connected
    ensures var r := Loop(l, cfg, registered, steps, em, sl);
            ExitState(l, cfg, registered, r.life, r.exit)
    decreases |steps|
  {
    if !l.stop && steps != [] {
      var t := RetryTurn(l, cfg, registered, steps[0]);
      TurnExits(l, cfg, registered, steps[0]);
      if t.exit.None? {
        LoopExits(t.life, cfg, registered, steps[1..], em + t.events, sl + t.waits);
        var r := Loop(t.life, cfg, registered, steps[1..], em + t.events, sl + t.waits);
        ExitStateAfterTurn(l, t.life, cfg, registered, r.life, r.exit);
      }
    }
  }

  /**
   * What each way out of the loop leaves behind: only a successful retry
   * connects and resets the counter, a stop leaves the request set, giving
   * up leaves the counter one past the larger of its start and the limit,
   * and every finished loop has dropped its guard.
   */
  predicate ExitState(l: Life, cfg: ReconnectConfig, registered: set<string>, life: Life, x: Exit)
  {
    (x == OutOfScript <==> life.reconnecting) &&
    (x == Stopped ==> life.stop) &&
    (x == GaveUp ==> cfg.maxAttempts > 0 && life.attempts == MaxOf(l.attempts, cfg.maxAttempts) + 1) &&
    (x == Reconnected <==>
       life.status == Connected && life.attempts == 0 && life.connected &&
       life.subscribed == registered && !life.reconnecting) &&
    (x != Reconnected ==> life.connected == l.connected && life.subscribed == l.subscribed)
  }

  /** A turn either ends the loop as ExitState says or goes round still guarded. */
  lemma TurnExits(l: Life, cfg: ReconnectConfig, registered: set<string>, step: RetryStep)
    requires l.reconnecting && l.status != Connected
    ensures var t := RetryTurn(l, cfg, registered, step);
            (t.exit.Some? ==> t.exit.value != OutOfScript && ExitState(l, cfg, registered, t.life, t.exit.value)) &&
            (t.exit.None? ==> t.life.reconnecting && t.life.status == Connecting &&
                              t.life.attempts == l.attempts + 1 &&
                              (cfg.maxAttempts > 0 ==> t.life.attempts <= cfg.maxAttempts) &&
                              t.life.connected == l.connected && t.life.subscribed == l.subscribed)
  {
  }

  /** Going round keeps ExitState's claims about the start valid for the next turn. */
  lemma ExitStateAfterTurn(l: Life, l1: Life, cfg: ReconnectConfig, registered: set<string>, life: Life, x: Exit)
    requires l1.attempts == l.attempts + 1 && (cfg.maxAttempts > 0 ==> l1.attempts <= cfg.maxAttempts)
    requires l1.connected == l.connected && l1.subscribed == l.subscribed
    requires ExitState(l1, cfg, registered, life, x)
    ensures ExitState(l, cfg, registered, life, x)
  {
  }

  /**
   * With a positive limit the loop announces at most the attempts left
   * under it, and exactly those when it gives up.
   */
  lemma {:induction false} LoopBounded(l: Life, cfg: ReconnectConfig, registered: set<string>,
                                       steps: seq<RetryStep>, em: seq<LuaEvent>, sl: seq<int>)
    requires cfg.maxAttempts > 0 && l.attempts <= cfg.maxAttempts
    ensures var r := Loop(l, cfg, registered, steps, em, sl);
            |sl| <= |r.sleeps| <= |sl| + (cfg.maxAttempts - l.attempts) &&
            (r.exit == GaveUp ==> |r.sleeps| == |sl| + (cfg.maxAttempts - l.attempts))
    decreases |steps|
  {
    var n := l.attempts + 1;
    if !l.stop && steps != [] && steps[0] == StartFails && n <= cfg.maxAttempts {
      var l1 := l.(attempts := n, status := Connecting);
      LoopTurn(l, cfg, registered, steps, em, sl);
      LoopBounded(l1, cfg, registered, steps[1..], em + [OnReconnecting(n)], sl + [Delay(cfg, n - 1)]);
    } else {
      LoopBoundedLast(l, cfg, registered, steps, em, sl);
    }
  }

  /** LoopBounded for a loop that ends at its test or with the turn it takes. */
  lemma LoopBoundedLast(l: Life, cfg: ReconnectConfig, registered: set<string>,
                        steps: seq<RetryStep>, em: seq<LuaEvent>, sl: seq<int>)
    requires cfg.maxAttempts > 0 && l.attempts <= cfg.maxAttempts
    requires !(!l.stop && steps != [] && steps[0] == StartFails && l.attempts + 1 <= cfg.maxAttempts)
    ensures var r := Loop(l, cfg, registered, steps, em, sl);
            |sl| <= |r.sleeps| <= |sl| + (cfg.maxAttempts - l.attempts) &&
            (r.exit == GaveUp ==> |r.sleeps| == |sl| + (cfg.maxAttempts - l.attempts))
  {
  }

  /**
   * A reconnect run from a counter within a positive limit announces at
   * most the attempts left, and announces all of them before giving up.
   */
  lemma ReconnectBounded(l: Life, cfg: ReconnectConfig, registered: set<string>, steps: seq<RetryStep>)
    requires cfg.maxAttempts > 0 && l.attempts <= cfg.maxAttempts
    ensures var r := Reconnect(l, cfg, registered, steps);
            |r.sleeps| <= cfg.maxAttempts - l.attempts &&
            (r.exit == GaveUp ==> |r.sleeps| == cfg.maxAttempts - l.attempts &&
                                  r.emitted == Announce(l.attempts, cfg.maxAttempts - l.attempts) +
                                               [OnError(MaxAttemptsMessage)])
  {
    ReconnectShape(l, cfg, registered, steps);
    if cfg.enabled && !l.reconnecting {
      LoopBounded(l.(reconnecting := true), cfg, registered, steps, [], []);
    }
  }

  /**
   * The guard: a reconnect returns at once, changing and emitting nothing,
   * exactly when reconnection is disabled or another loop is running.
   */
  lemma ReconnectGuard(l: Life, cfg: ReconnectConfig, registered: set<string>, steps: seq<RetryStep>)
    ensures var r := Reconnect(l, cfg, registered, steps);
            (r.exit in {Disabled, AlreadyRunning} <==> !cfg.enabled || l.reconnecting) &&
            (r.exit in {Disabled, AlreadyRunning} ==> r.life == l && r.emitted == [] && r.sleeps == [])
  {
    if cfg.enabled && !l.reconnecting {
      LoopExitKinds(l.(reconnecting := true), cfg, registered, steps, [], []);
    }
  }

  /** The loop only ever stops, gives up, reconnects or runs out of script. */
  lemma {:induction false} LoopExitKinds(l: Life, cfg: ReconnectConfig, registered: set<string>,
                                         steps: seq<RetryStep>, em: seq<LuaEvent>, sl: seq<int>)
    ensures Loop(l, cfg, registered, steps, em, sl).exit in {Stopped, GaveUp, Reconnected, OutOfScript}
    decreases |steps|
  {
    if !(l.stop || steps == [] || steps[0] == StopBeforeRetry) {
      var n := l.attempts + 1;
      if !(cfg.maxAttempts > 0 && n > cfg.maxAttempts) && steps[0] == StartFails {
        LoopTurn(l, cfg, registered, steps, em, sl);
        LoopExitKinds(l.(attempts := n, status := Connecting), cfg, registered, steps[1..],
                      em + [OnReconnecting(n)], sl + [Delay(cfg, n - 1)]);
      }
    }
  }

  /**
   * A finished reconnect loop started from a disconnected state has dropped
   * its guard; it holds a connection, with the counter reset, exactly when
   * it reconnected.
   */
  lemma ReconnectOutcome(l: Life, cfg: ReconnectConfig, registered: set<string>, steps: seq<RetryStep>)
    requires cfg.enabled && !l.reconnecting && l.status != Connected && !l.connected
    ensures var r := Reconnect(l, cfg, registered, steps);
            (r.exit != OutOfScript ==> !r.life.reconnecting) &&
            (r.life.connected <==> r.exit == Reconnected) &&
            (r.exit == Reconnected ==> r.life.status == Connected && r.life.attempts == 0 &&
                                       r.life.subscribed == registered)
  {
    LoopExits(l.(reconnecting := true), cfg, registered, steps, [], []);
  }

  // ---------------------------------------------------------------------
  // Episodes

  /**
   * Every episode the worker finishes (the reconnect script did not run
   * out) ends DISCONNECTED, without a connection and without the guard.
   */
  lemma EpisodeEndsDisconnected(l: Life, cfg: ReconnectConfig, registered: set<string>,
                                first: FirstStart, stopDuringStart: bool, steps: seq<RetryStep>)
    requires !l.reconnecting
    ensures var r := Episode(l, cfg, registered, first, stopDuringStart, steps);
            r.exit != OutOfScript ==>
              r.life.status == Disconnected && !r.life.connected && !r.life.reconnecting && r.life.destroyed
  {
    if first != Started && !(l.stop || stopDuringStart) && cfg.enabled {
      var l1 := l.(status := Disconnected, stop := false);
      LoopExits(l1.(reconnecting := true), cfg, registered, steps, [], []);
    }
  }

  /** A first start that fails is reported before anything the reconnect loop emits. */
  lemma EpisodeReportsFirstFailure(l: Life, cfg: ReconnectConfig, registered: set<string>,
                                   first: FirstStart, stopDuringStart: bool, steps: seq<RetryStep>)
    requires first != Started
    ensures var r := Episode(l, cfg, registered, first, stopDuringStart, steps);
            |r.emitted| >= 1 && r.emitted[0] == OnError(StartFailure(first)) &&
            (l.stop || stopDuringStart ==> r.emitted == [OnError(StartFailure(first))] && r.exit == Ended)
  {
  }

  /**
   * The disconnect notification: ignored once destroyed or DISCONNECTED;
   * otherwise the status becomes DISCONNECTED, OnError or OnDisconnect comes
   * first, and a reconnect loop runs only after an error with no stop
   * requested.
   */
  lemma HandleDisconnectedEffect(l: Life, cfg: ReconnectConfig, registered: set<string>,
                                 withError: bool, steps: seq<RetryStep>)
    ensures var r := HandleDisconnected(l, cfg, registered, withError, steps);
            (r.exit == Ignored <==> l.destroyed || l.status == Disconnected) &&
            (r.exit == Ignored ==> r.life == l && r.emitted == []) &&
            (r.exit != Ignored ==>
               |r.emitted| >= 1 &&
               r.emitted[0] == (if withError then OnError("Disconnected due to an error") else OnDisconnect)) &&
            (r.exit == NoRetry <==> !(l.destroyed || l.status == Disconnected) && (l.stop || !withError)) &&
            (r.exit == NoRetry ==> r.life == l.(status := Disconnected) && |r.emitted| == 1)
  {
    if !(l.destroyed || l.status == Disconnected) && !l.stop && withError {
      var l1 := l.(status := Disconnected);
      assert Reconnect(l1, cfg, registered, steps).exit !in {Ignored, NoRetry} by {
        if cfg.enabled && !l1.reconnecting {
          LoopExitKinds(l1.(reconnecting := true), cfg, registered, steps, [], []);
        }
      }
    }
  }

  // ---------------------------------------------------------------------
  // Scenarios

  const Retrying: ReconnectConfig := ReconnectConfig(true, 3, 1000, 30000, 2.0)

  const Idle: Life := Life(Disconnected, 0, false, false, false, false, {})

  /**
   * Two failed retries and a successful third: three announcements with
   * the delays 1000, 2000 and 4000, then OnReconnected, connected with the
   * counter reset.
   */
  lemma RetriesThenReconnects()
    ensures var r := Reconnect(Idle, Retrying, {"Msg"}, [StartFails, StartFails, StartSucceeds]);
            r.exit == Reconnected && r.life.status == Connected && r.life.attempts == 0 &&
            r.emitted == [OnReconnecting(1), OnReconnecting(2), OnReconnecting(3), OnReconnected] &&
            r.sleeps == [1000, 2000, 4000]
  {
    DefaultSchedule(5);
    assert Pow(2.0, 1) == 2.0;
    assert Pow(2.0, 2) == 4.0;
    var l0 := Idle.(reconnecting := true);
    var l1 := l0.(attempts := 1, status := Connecting);
    var l2 := l1.(attempts := 2);
    assert Reconnect(Idle, Retrying, {"Msg"}, [StartFails, StartFails, StartSucceeds])
        == Loop(l1, Retrying, {"Msg"}, [StartFails, StartSucceeds], [OnReconnecting(1)], [Delay(Retrying, 0)]);
    assert Loop(l1, Retrying, {"Msg"}, [StartFails, StartSucceeds], [OnReconnecting(1)], [Delay(Retrying, 0)])
        == Loop(l2, Retrying, {"Msg"}, [StartSucceeds], [OnReconnecting(1), OnReconnecting(2)],
                [Delay(Retrying, 0), Delay(Retrying, 1)]);
  }

  /**
   * A limit of three and a server that never answers: three announcements
   * and then the give-up error. The episode as written leaves the status at
   * CONNECTING; the corrected one ends DISCONNECTED.
   */
  lemma AlwaysFailingGivesUp()
    ensures var r := Reconnect(Idle, Retrying, {}, [StartFails, StartFails, StartFails, StartFails]);
            r.exit == GaveUp && r.life.attempts == 4 && !r.life.reconnecting &&
            r.emitted == [OnReconnecting(1), OnReconnecting(2), OnReconnecting(3), OnError(MaxAttemptsMessage)]
    ensures EpisodeAsWritten(Idle, Retrying, {}, StartFailed, false, [StartFails, StartFails, StartFails, StartFails])
              .life.status == Connecting
    ensures Episode(Idle, Retrying, {}, StartFailed, false, [StartFails, StartFails, StartFails, StartFails])
              .life.status == Disconnected
  {
    var steps := [StartFails, StartFails, StartFails, StartFails];
    ReconnectBounded(Idle, Retrying, {}, steps);
    ReconnectShape(Idle, Retrying, {}, steps);
    var l1 := Idle.(reconnecting := true, attempts := 1, status := Connecting);
    var l2 := l1.(attempts := 2);
    var l3 := l1.(attempts := 3);
    assert Reconnect(Idle, Retrying, {}, steps)
        == Loop(l1, Retrying, {}, steps[1..], [OnReconnecting(1)], [Delay(Retrying, 0)]);
    assert steps[1..][1..] == [StartFails, StartFails];
    assert Loop(l1, Retrying, {}, steps[1..], [OnReconnecting(1)], [Delay(Retrying, 0)])
        == Loop(l2, Retrying, {}, [StartFails, StartFails], [OnReconnecting(1), OnReconnecting(2)],
                [Delay(Retrying, 0), Delay(Retrying, 1)]);
    var em3 := [OnReconnecting(1), OnReconnecting(2), OnReconnecting(3)];
    var sl3 := [Delay(Retrying, 0), Delay(Retrying, 1), Delay(Retrying, 2)];
    assert Loop(l2, Retrying, {}, [StartFails, StartFails], [OnReconnecting(1), OnReconnecting(2)],
                [Delay(Retrying, 0), Delay(Retrying, 1)])
        == Loop(l3, Retrying, {}, [StartFails], em3, sl3);
  }

  /**
   * A stop request after a successful retry: the loop has returned
   * connected, and the worker as written returns without its cleanup, so
   * the status stays CONNECTED with the connection held.
   */
  lemma ReconnectedEpisodeSkipsCleanup()
    ensures var r := EpisodeAsWritten(Idle, Retrying, {}, StartTimedOut, false, [StartSucceeds]);
            r.exit == Reconnected && r.life.status == Connected && r.life.connected
    ensures var r := Episode(Idle, Retrying, {}, StartTimedOut, false, [StartSucceeds]);
            r.exit == Reconnected && r.life.status == Disconnected && !r.life.connected
  {
    var l1 := Idle.(status := Disconnected, reconnecting := true);
    assert Reconnect(Idle.(status := Disconnected), Retrying, {}, [StartSucceeds]).exit == Reconnected;
  }
}
