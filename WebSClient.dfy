/**
 * The client object. Its lifecycle fields change exactly as the functions
 * of the Lifecycle module say; the worker thread, the disconnect
 * notification and the async completions are methods the environment calls,
 * with the transport's behaviour passed in as scripts and flags.
 */
module Client {
  import opened Types
  import Queues
  import opened Events
  import opened Url
  import opened Backoff
  import opened Lifecycle
  import opened Inbound

  /** The failure text a failed async invocation carries. */
  const InvokeFailed: string := "Invoke failed"

  /**
   * The completion sendAsync's callback queues: the callback reference, and
   * either the returned value or the failure text with no value.
   */
  function Completion(callbackRef: int, outcome: Option<Value>): (r: AsyncResult)
    ensures r.callbackRef == callbackRef
    ensures r.success <==> outcome.Some?
    ensures outcome.Some? ==> r.result == outcome.value && r.error == ""
    ensures outcome.None? ==> r.result == OtherValue && r.error == InvokeFailed
  {
    match outcome
    case Some(v) => DefaultAsyncResult.(callbackRef := callbackRef, success := true, result := v)
    case None => DefaultAsyncResult.(callbackRef := callbackRef, error := InvokeFailed)
  }

  class WebSClient {
    /**
     * status_, reconnectAttempts_, reconnecting_, stopThread_, destroyed_
     * and whether connection_ is held, with the handlers it installed.
     */
    var life: Life
    /** luaState_ is set. */
    var hasLuaState: bool
    /** A worker thread was spawned and has not been joined. */
    var hasThread: bool
    var currentUrl: string
    var currentToken: string
    var reconnectConfig: ReconnectConfig
    var registeredServerMethods: set<string>
    /** The completions handed to Lua callbacks, in order. */
    var asyncCalls: seq<AsyncResult>
    const eventManager: EventManager
    const messageQueue: Queues.ThreadSafeQueue<string>
    const asyncResults: Queues.ThreadSafeQueue<AsyncResult>
    const serverMessages: Queues.ThreadSafeQueue<ServerMessage>

    ghost predicate Valid()
      reads this, eventManager
    {
      eventManager.Valid() && (currentUrl == [] || HasSupportedScheme(currentUrl))
    }

    /** The lifecycle fields, the emitted events, the sleeps and the exit are those of `r`. */
    ghost predicate Reached(r: Run, q0: seq<LuaEvent>, exit: Exit, waited: seq<int>)
      reads this, eventManager, eventManager.eventQueue
    {
      life == r.life && eventManager.eventQueue.items == q0 + r.emitted &&
      exit == r.exit && waited == r.sleeps
    }

    constructor ()
      ensures Valid()
      ensures fresh(eventManager) && fresh(eventManager.eventQueue)
      ensures fresh(messageQueue) && fresh(asyncResults) && fresh(serverMessages)
      ensures life == Life(Disconnected, 0, false, false, false, false, {})
      ensures currentUrl == [] && currentToken == [] && reconnectConfig == DefaultReconnectConfig
      ensures registeredServerMethods == {} && asyncCalls == [] && !hasLuaState && !hasThread
      ensures eventManager.callbacks == map[] && eventManager.eventQueue.items == []
      ensures messageQueue.items == [] && asyncResults.items == [] && serverMessages.items == []
    {
      life := Life(Disconnected, 0, false, false, false, false, {});
      hasLuaState := false;
      hasThread := false;
      currentUrl := [];
      currentToken := [];
      reconnectConfig := DefaultReconnectConfig;
      registeredServerMethods := {};
      asyncCalls := [];
      eventManager := new EventManager();
      messageQueue := new Queues.ThreadSafeQueue();
      asyncResults := new Queues.ThreadSafeQueue();
      serverMessages := new Queues.ThreadSafeQueue();
    }

    method SetLuaState(present: bool)
      modifies this`hasLuaState
      ensures hasLuaState == present
    {
      hasLuaState := present;
    }

    method SetReconnectConfig(config: ReconnectConfig)
      modifies this`reconnectConfig
      ensures reconnectConfig == config
    {
      reconnectConfig := config;
    }

    /**
     * connect: a refused scheme or an established connection changes
     * nothing; otherwise any running attempt is told to stop and joined, the
     * normalised url and the token are stored, the lifecycle fields are reset
     * and a worker is spawned, which is the only step that can still fail.
     */
    method Connect(url: string, token: string, spawnFails: bool) returns (ok: bool)
      requires Valid()
      modifies this`life, this`currentUrl, this`currentToken, this`hasThread
      ensures Valid()
      ensures var accepted := Normalize(url).Some? && old(life.status) != Connected;
              (ok <==> accepted && !spawnFails) &&
              (!accepted ==> life == old(life) && currentUrl == old(currentUrl) &&
                              currentToken == old(currentToken) && hasThread == old(hasThread)) &&
              (accepted ==>
                 currentUrl == Normalize(url).value && currentToken == token && hasThread == ok &&
                 life == old(life).(status := Disconnected, attempts := 0, reconnecting := false,
                                    stop := false, destroyed := false, connected := false))
    {
      var normalized := Normalize(url);
      if normalized.None? {
        return false;
      }
      if life.status == Connected {
        return false;
      }
      if life.status != Disconnected {
        life := life.(stop := true);
      }
      // Joining waits for the previous worker; its run is a ConnectionThread call of its own.
      hasThread := false;
      life := life.(connected := false);
      currentUrl := normalized.value;
      currentToken := token;
      assert HasSupportedScheme(currentUrl) by {
        NormalizedHasScheme(url);
      }
      life := life.(status := Disconnected, stop := false, destroyed := false, attempts := 0,
                    reconnecting := false);
      if spawnFails {
        return false;
      }
      hasThread := true;
      ok := true;
    }

    method RegisterServerMethod(name: string)
      modifies this`registeredServerMethods
      ensures registeredServerMethods == old(registeredServerMethods) + {name}
    {
      registeredServerMethods := registeredServerMethods + {name};
    }

    method UnregisterServerMethod(name: string)
      modifies this`registeredServerMethods
      ensures registeredServerMethods == old(registeredServerMethods) - {name}
    {
      registeredServerMethods := registeredServerMethods - {name};
    }

    /**
     * A server call reaching the handler the connection installed for its
     * method: queued unless the client is being destroyed. Methods that were
     * not registered when the connection was built have no handler.
     */
    method OnServerMessage(m: ServerMessage)
      modifies serverMessages
      ensures life.connected && m.methodName in life.subscribed && !life.destroyed ==>
                serverMessages.items == old(serverMessages.items) + [m]
      ensures !(life.connected && m.methodName in life.subscribed && !life.destroyed) ==>
                serverMessages.items == old(serverMessages.items)
    {
      if life.connected && m.methodName in life.subscribed && !life.destroyed {
        serverMessages.Push(m);
      }
    }

    /** The worker's exit path: the connection is stopped and released. */
    method ReleaseConnection()
      modifies this`life
      ensures life == Cleanup(old(life))
    {
      if life.connected {
        life := life.(status := Disconnecting);
      }
      life := life.(connected := false, destroyed := true, status := Disconnected);
    }

    /**
     * attemptReconnect, with the environment's behaviour as a script of
     * retry steps. Each turn of the loop consumes one step.
     */
    method AttemptReconnect(steps: seq<RetryStep>) returns (exit: Exit, waited: seq<int>)
      modifies this`life, eventManager.eventQueue
      ensures Reached(Reconnect(old(life), reconnectConfig, registeredServerMethods, steps),
                      old(eventManager.eventQueue.items), exit, waited)
    {
      ghost var q0 := eventManager.eventQueue.items;
      var config := reconnectConfig;
      if !config.enabled {
        assert q0 + [] == q0;
        return Disabled, [];
      }
      if life.reconnecting {
        assert q0 + [] == q0;
        return AlreadyRunning, [];
      }
      life := life.(reconnecting := true);
      ghost var target := Loop(life, config, registeredServerMethods, steps, [], []);
      ghost var em: seq<LuaEvent> := [];
      assert q0 + [] == q0;
      waited := [];
      var i := 0;
      while !life.stop
        invariant 0 <= i <= |steps|
        invariant eventManager.eventQueue.items == q0 + em
        invariant Loop(life, config, registeredServerMethods, steps[i..], em, waited) == target
        decreases |steps| - i
      {
        if i == |steps| {
          return OutOfScript, waited;
        }
        ghost var l, em0, w0 := life, em, waited;
        ghost var t := RetryTurn(l, config, registeredServerMethods, steps[i]);
        LoopStepAt(l, config, registeredServerMethods, steps, i, em0, w0);
        var ended, waits := RetryOnce(steps[i], config);
        em := em + t.events;
        waited := waited + waits;
        i := i + 1;
        assert (q0 + em0) + t.events == q0 + em;
        if ended.Some? {
          assert target == Run(t.life, em, waited, t.exit.value);
          return ended.value, waited;
        }
        assert target == Loop(life, config, registeredServerMethods, steps[i..], em, waited);
      }
      life := life.(reconnecting := false);
      exit := Stopped;
    }

    /**
     * One turn of attemptReconnect's loop once its test has passed: the
     * step says where a stop request is noticed, or how the start ends.
     */
    method RetryOnce(step: RetryStep, config: ReconnectConfig) returns (ended: Option<Exit>, waits: seq<int>)
      requires config == reconnectConfig
      modifies this`life, eventManager.eventQueue
      ensures var t := RetryTurn(old(life), config, registeredServerMethods, step);
              life == t.life && eventManager.eventQueue.items == old(eventManager.eventQueue.items) + t.events &&
              waits == t.waits && ended == t.exit
    {
      ghost var q0 := eventManager.eventQueue.items;
      if step == StopBeforeRetry {
        life := life.(stop := true, reconnecting := false);
        assert q0 + [] == q0;
        return Some(Stopped), [];
      }
      life := life.(attempts := life.attempts + 1);
      var attempts := life.attempts;
      if config.maxAttempts > 0 && attempts > config.maxAttempts {
        eventManager.Emit("OnError", [MaxAttemptsMessage]);
        life := life.(reconnecting := false);
        return Some(GaveUp), [];
      }
      life := life.(status := Reconnecting);
      ended, waits := AttemptOnce(step, config);
    }

    /**
     * The rest of a turn, RECONNECTING with the counter bumped: the attempt
     * is announced, the backoff delay slept and a start tried.
     */
    method AttemptOnce(step: RetryStep, config: ReconnectConfig) returns (ended: Option<Exit>, waits: seq<int>)
      requires config == reconnectConfig && step != StopBeforeRetry
      modifies this`life, eventManager.eventQueue
      ensures var t := AttemptTurn(old(life), config, registeredServerMethods, step);
              life == t.life && eventManager.eventQueue.items == old(eventManager.eventQueue.items) + t.events &&
              waits == t.waits && ended == t.exit
    {
      ghost var q0 := eventManager.eventQueue.items;
      var attempts: nat := life.attempts;
      var delay := Delay(config, attempts - 1);
      eventManager.Emit("OnReconnecting", [Decimal(attempts)]);
      waits := [delay];
      if step == StopInBackoff {
        life := life.(stop := true, reconnecting := false);
        return Some(Stopped), waits;
      }
      life := life.(status := Connecting);
      if step == StopInStart {
        life := life.(stop := true, reconnecting := false);
        return Some(Stopped), waits;
      }
      if step == StartFails {
        return None, waits;
      }
      life := life.(connected := true, subscribed := registeredServerMethods, destroyed := false,
                    status := Connected, attempts := 0, reconnecting := false);
      eventManager.Emit("OnReconnected", []);
      assert (q0 + [OnReconnecting(attempts)]) + [OnReconnected] == q0 + ([OnReconnecting(attempts)] + [OnReconnected]);
      ended := Some(Reconnected);
    }

    /**
     * handleDisconnected: nothing once destroyed or DISCONNECTED; otherwise
     * DISCONNECTED with an error or disconnect event, and the reconnect loop
     * after an error unless a stop was requested.
     */
    method HandleDisconnected(withError: bool, steps: seq<RetryStep>) returns (exit: Exit, waited: seq<int>)
      modifies this`life, eventManager.eventQueue
      ensures Reached(Lifecycle.HandleDisconnected(old(life), reconnectConfig, registeredServerMethods,
                                                   withError, steps),
                      old(eventManager.eventQueue.items), exit, waited)
    {
      ghost var q0 := eventManager.eventQueue.items;
      if life.destroyed || life.status == Disconnected {
        assert q0 + [] == q0;
        return Ignored, [];
      }
      life := life.(status := Disconnected);
      var e := if withError then OnError("Disconnected due to an error") else OnDisconnect;
      eventManager.Emit(e.name, e.args);
      if !life.stop && withError {
        exit, waited := AttemptReconnect(steps);
        ghost var r := Reconnect(old(life).(status := Disconnected), reconnectConfig,
                                 registeredServerMethods, steps);
        assert (q0 + [e]) + r.emitted == q0 + ([e] + r.emitted);
      } else {
        exit, waited := NoRetry, [];
      }
    }

    /**
     * One run of the worker thread: the first start and, when it fails with
     * no stop requested, the reconnect loop; the connection is released on
     * every way out except a reconnect script that ran out.
     */
    method ConnectionThread(first: FirstStart, stopDuringStart: bool, steps: seq<RetryStep>)
      returns (exit: Exit, waited: seq<int>)
      modifies this`life, eventManager.eventQueue
      ensures Reached(Episode(old(life), reconnectConfig, registeredServerMethods,
                              first, stopDuringStart, steps),
                      old(eventManager.eventQueue.items), exit, waited)
    {
      life := life.(status := Connecting);
      if first == Started {
        exit, waited := RunConnected();
      } else {
        exit, waited := RunAfterFailedStart(first, stopDuringStart, steps);
      }
    }

    /** The worker after a successful first start, until the connected wait ends. */
    method RunConnected() returns (exit: Exit, waited: seq<int>)
      modifies this`life, eventManager.eventQueue
      ensures Reached(Settle(StartedEpisode(old(life), registeredServerMethods)),
                      old(eventManager.eventQueue.items), exit, waited)
    {
      life := life.(connected := true, destroyed := false, subscribed := registeredServerMethods,
                    status := Connected, attempts := 0, reconnecting := false);
      eventManager.Emit("OnConnect", []);
      // The connected wait ends on a stop request or a lost connection.
      ReleaseConnection();
      exit, waited := Ended, [];
    }

    /** The worker after a failed first start: the report, then the reconnect loop unless stopped. */
    method RunAfterFailedStart(first: FirstStart, stopDuringStart: bool, steps: seq<RetryStep>)
      returns (exit: Exit, waited: seq<int>)
      requires first != Started
      modifies this`life, eventManager.eventQueue
      ensures Reached(Settle(FailedStartAsWritten(old(life), reconnectConfig, registeredServerMethods,
                                                  first, stopDuringStart, steps)),
                      old(eventManager.eventQueue.items), exit, waited)
    {
      ghost var q0 := eventManager.eventQueue.items;
      ghost var target := FailedStartAsWritten(life, reconnectConfig, registeredServerMethods,
                                               first, stopDuringStart, steps);
      life := life.(status := Disconnected);
      if stopDuringStart {
        life := life.(stop := true);
      }
      var e := OnError(StartFailure(first));
      eventManager.Emit(e.name, e.args);
      if !life.stop {
        ghost var l1 := life;
        ghost var r := Reconnect(l1, reconnectConfig, registeredServerMethods, steps);
        assert target == After(e, r);
        exit, waited := RetryThenRelease(steps);
        assert Settle(target) == After(e, Settle(r));
        assert (q0 + [e]) + r.emitted == q0 + ([e] + r.emitted);
      } else {
        ReleaseConnection();
        exit, waited := Ended, [];
      }
    }

    /** The reconnect loop, and the release of the connection unless the script ran out first. */
    method RetryThenRelease(steps: seq<RetryStep>) returns (exit: Exit, waited: seq<int>)
      modifies this`life, eventManager.eventQueue
      ensures Reached(Settle(Reconnect(old(life), reconnectConfig, registeredServerMethods, steps)),
                      old(eventManager.eventQueue.items), exit, waited)
    {
      exit, waited := AttemptReconnect(steps);
      if exit != OutOfScript {
        ReleaseConnection();
      }
    }

    /** disconnect: a stop request, unless already DISCONNECTED. */
    method Disconnect()
      modifies this`life
      ensures old(life.status) == Disconnected ==> life == old(life)
      ensures old(life.status) != Disconnected ==> life == old(life).(stop := true)
    {
      if life.status == Disconnected {
        return;
      }
      life := life.(stop := true);
    }

    /** send: refused unless CONNECTED with a connection; a throwing invoke is a failure. */
    method Send(invokeThrows: bool) returns (ok: bool)
      ensures ok <==> life.status == Connected && life.connected && !invokeThrows
    {
      if life.status != Connected {
        return false;
      }
      if !life.connected {
        return false;
      }
      ok := !invokeThrows;
    }

    /** sendAsync: the same guard; its completion arrives later through Complete. */
    method SendAsync(callbackRef: int, invokeThrows: bool) returns (ok: bool)
      ensures ok <==> life.status == Connected && life.connected && !invokeThrows
    {
      if life.status != Connected {
        return false;
      }
      if !life.connected {
        return false;
      }
      ok := !invokeThrows;
    }

    /** An invocation's completion: queued for the Lua thread unless the client is being destroyed. */
    method Complete(callbackRef: int, outcome: Option<Value>)
      modifies asyncResults
      ensures life.destroyed ==> asyncResults.items == old(asyncResults.items)
      ensures !life.destroyed ==> asyncResults.items == old(asyncResults.items) + [Completion(callbackRef, outcome)]
    {
      if life.destroyed {
        return;
      }
      asyncResults.Push(Completion(callbackRef, outcome));
    }

    /** getMessage: the oldest message, or the empty string when there is none. */
    method GetMessage() returns (msg: string)
      modifies messageQueue
      ensures old(messageQueue.items) == [] ==> msg == [] && messageQueue.items == []
      ensures old(messageQueue.items) != [] ==>
                msg == old(messageQueue.items)[0] && messageQueue.items == old(messageQueue.items)[1..]
    {
      var ok;
      ok, msg := messageQueue.TryPop([]);
    }

    method QueueSize() returns (n: nat)
      ensures n == |messageQueue.items|
    {
      n := messageQueue.Size();
    }

    /** The arguments of one server call as strings, in order. */
    static method ConvertArgs(args: seq<Value>) returns (strs: seq<string>)
      ensures strs == StringArgs(args)
    {
      strs := [];
      var i := 0;
      while i < |args|
        invariant 0 <= i <= |args|
        invariant strs == StringArgs(args[..i])
      {
        assert args[..i + 1][..i] == args[..i];
        match args[i] {
          case StringValue(s) => strs := strs + [s];
          case NumberValue(rendered) => strs := strs + [rendered];
          case BoolValue(b) => strs := strs + [if b then "true" else "false"];
          case OtherValue =>
        }
        i := i + 1;
      }
      assert args[..i] == args;
    }

    /** Emits one event per server call, in order. */
    method EmitServerCalls(msgs: seq<ServerMessage>) returns (n: nat)
      modifies eventManager.eventQueue
      ensures eventManager.eventQueue.items == old(eventManager.eventQueue.items) + ToEvents(msgs)
      ensures n == |msgs|
    {
      n := 0;
      while n < |msgs|
        invariant 0 <= n <= |msgs|
        invariant eventManager.eventQueue.items == old(eventManager.eventQueue.items) + ToEvents(msgs[..n])
      {
        assert msgs[..n + 1][..n] == msgs[..n];
        var strs := ConvertArgs(msgs[n].args);
        eventManager.Emit(msgs[n].methodName, strs);
        n := n + 1;
      }
      assert msgs[..n] == msgs;
    }

    /** Hands each completion with a callback to Lua, in order. */
    method DeliverCompletions(rs: seq<AsyncResult>) returns (n: nat)
      modifies this`asyncCalls
      ensures asyncCalls == old(asyncCalls) + Deliverable(rs)
      ensures n == |Deliverable(rs)|
    {
      n := 0;
      var i := 0;
      while i < |rs|
        invariant 0 <= i <= |rs|
        invariant asyncCalls == old(asyncCalls) + Deliverable(rs[..i]) && n == |Deliverable(rs[..i])|
      {
        assert rs[..i + 1][..i] == rs[..i];
        if HasCallback(rs[i]) {
          asyncCalls := asyncCalls + [rs[i]];
          n := n + 1;
        }
        i := i + 1;
      }
      assert rs[..i] == rs;
    }

    /**
     * processEvents: nothing without a Lua state, once destroyed or after a
     * stop request; otherwise a drain of the queued events, the server calls
     * emitted as events, a second drain, and the completions handed on.
     */
    method ProcessEvents(hasState: bool, h: Host) returns (processed: nat)
      requires Valid()
      modifies this`asyncCalls, eventManager, eventManager.eventQueue, serverMessages, asyncResults
      ensures Valid()
      ensures var go := hasState && !old(life.destroyed) && !old(life.stop);
              (!go ==> processed == 0 && eventManager.State() == old(eventManager.State()) &&
                       serverMessages.items == old(serverMessages.items) &&
                       asyncResults.items == old(asyncResults.items) && asyncCalls == old(asyncCalls)) &&
              (go ==> eventManager.State() == Pump(old(eventManager.State()), old(serverMessages.items), h) &&
                      serverMessages.items == [] && asyncResults.items == [] &&
                      asyncCalls == old(asyncCalls) + Deliverable(old(asyncResults.items)) &&
                      processed == PumpCount(old(eventManager.State()), old(serverMessages.items), h) +
                                   |Deliverable(old(asyncResults.items))|)
    {
      if !hasState || life.destroyed || life.stop {
        return 0;
      }
      ghost var b := eventManager.State();
      var first := eventManager.ProcessEvents(true, h);
      ghost var b1 := eventManager.State();
      assert b1 == Drain(b, h);
      var msgs := serverMessages.Swap([]);
      var converted := EmitServerCalls(msgs);
      assert eventManager.State() == b1.(queue := b1.queue + ToEvents(msgs));
      var second := eventManager.ProcessEvents(true, h);
      var results := asyncResults.Swap([]);
      var delivered := DeliverCompletions(results);
      processed := first + converted + second + delivered;
    }

    /**
     * shutdown: marks the client destroyed and stopped, joins the worker,
     * releases the connection, clears the event manager when a Lua state is
     * set, empties the three queues and ends DISCONNECTED.
     */
    method Shutdown()
      requires Valid()
      modifies this`life, this`hasThread,
               eventManager, eventManager.eventQueue, messageQueue, asyncResults, serverMessages
      ensures Valid()
      ensures life == old(life).(status := Disconnected, destroyed := true, stop := true, connected := false)
      ensures !hasThread
      ensures messageQueue.items == [] && asyncResults.items == [] && serverMessages.items == []
      ensures hasLuaState ==> eventManager.callbacks == map[] && eventManager.eventQueue.items == [] &&
                              |eventManager.effects| >= |old(eventManager.effects)| &&
                              eventManager.effects[..|old(eventManager.effects)|] == old(eventManager.effects) &&
                              OnlyReleases(eventManager.effects[|old(eventManager.effects)|..]) &&
                              ReleasedRefs(eventManager.effects[|old(eventManager.effects)|..]) ==
                                AllRefs(old(eventManager.callbacks))
      ensures !hasLuaState ==> eventManager.State() == old(eventManager.State())
    {
      life := life.(destroyed := true, stop := true);
      // A connection that is still up is asked to stop; its disconnect notification is ignored once destroyed.
      hasThread := false;
      life := life.(connected := false);
      if hasLuaState {
        eventManager.Clear(true);
      }
      messageQueue.Clear();
      asyncResults.Clear();
      serverMessages.Clear();
      life := life.(status := Disconnected);
    }
  }
}
