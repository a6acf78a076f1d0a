/**
 * The Azure MCP connection supervisor of `services/azureMcpClient.js`.
 *
 * The supervisor's state is a value of `State`; every event that drives it (an `initialize`
 * call, the end of its 3-second start-up wait, the child process's `error` and `exit`
 * events, a 5-second retry timer firing, `ensureConnected`, `disconnect`) is a pure step
 * function. The class `AzureMcpClient` holds the same state in fields, and each of its
 * methods is proved to perform exactly the step of its event.
 *
 * The child process itself is two booleans: `hasProcess` (`mcpProcess` is set) and
 * `processAlive` (it has emitted neither `error` nor `exit`). Timers and the start-up wait
 * are counters of what is pending; their firings are events.
 */
module McpClient {
  import opened Common
  import opened McpPrompts

  const MaxReconnectAttempts: nat := 3

  /** The `code` an `exit` event reports: a number, or `null` when a signal ended the process. */
  datatype ExitCode = Code(value: int) | NoCode

  datatype State = State(
    connected: bool,       // isConnected
    attempts: nat,         // reconnectAttempts
    hasProcess: bool,      // mcpProcess is not null
    processAlive: bool,    // the current child has emitted neither `error` nor `exit`
    pendingRetries: nat,   // armed 5-second retry timers
    pendingSettles: nat,   // initialize calls inside their 3-second wait
    sinceLive: nat)        // retries scheduled since a start-up last ended with a live process

  const Initial := State(false, 0, false, false, 0, 0, 0)

  predicate Invariant(s: State)
  {
    s.attempts <= MaxReconnectAttempts && (s.processAlive ==> s.hasProcess)
  }

  /** `handleConnectionError`: below the maximum, count the attempt and arm a retry timer. */
  function OnConnectionError(s: State): (r: State)
    ensures s.attempts < MaxReconnectAttempts <==> r.pendingRetries == s.pendingRetries + 1
    ensures s.attempts < MaxReconnectAttempts ==> r.attempts == s.attempts + 1 && r.sinceLive == s.sinceLive + 1
    ensures s.attempts >= MaxReconnectAttempts ==> r == s
    ensures r.connected == s.connected && r.hasProcess == s.hasProcess && r.processAlive == s.processAlive
    ensures r.pendingSettles == s.pendingSettles
  {
    if s.attempts < MaxReconnectAttempts then
      s.(attempts := s.attempts + 1, pendingRetries := s.pendingRetries + 1, sinceLive := s.sinceLive + 1)
    else s
  }

  /**
   * `initialize` up to its 3-second wait: a spawn that throws goes to `handleConnectionError`
   * (and is rethrown); otherwise a fresh process is installed and the wait begins.
   */
  function OnInitialize(s: State, spawnThrows: bool): (r: State)
    ensures spawnThrows ==> r == OnConnectionError(s)
    ensures !spawnThrows ==> r.hasProcess && r.processAlive && r.pendingSettles == s.pendingSettles + 1
    ensures !spawnThrows ==> r.connected == s.connected && r.attempts == s.attempts && r.pendingRetries == s.pendingRetries
  {
    if spawnThrows then OnConnectionError(s)
    else s.(hasProcess := true, processAlive := true, pendingSettles := s.pendingSettles + 1)
  }

  /** The end of `initialize`'s wait, as written: connected, attempts reset, whatever the process did. */
  function OnStartupWaitEnds(s: State): (r: State)
    ensures s.pendingSettles > 0 ==> r.connected && r.attempts == 0 && r.pendingSettles == s.pendingSettles - 1
    ensures s.pendingSettles == 0 ==> r == s
    ensures r.hasProcess == s.hasProcess && r.processAlive == s.processAlive && r.pendingRetries == s.pendingRetries
  {
    if s.pendingSettles == 0 then s
    else s.(pendingSettles := s.pendingSettles - 1, connected := true, attempts := 0,
            sinceLive := if s.processAlive then 0 else s.sinceLive)
  }

  /** The end of the wait, corrected: it connects and resets the attempts only if the process is still alive. */
  function OnStartupWaitEndsChecked(s: State): (r: State)
    ensures s.pendingSettles > 0 && s.processAlive ==> r.connected && r.attempts == 0
    ensures !s.processAlive ==> r.connected == s.connected && r.attempts == s.attempts && r.sinceLive == s.sinceLive
    ensures r.hasProcess == s.hasProcess && r.processAlive == s.processAlive && r.pendingRetries == s.pendingRetries
  {
    if s.pendingSettles == 0 then s
    else if s.processAlive then s.(pendingSettles := s.pendingSettles - 1, connected := true, attempts := 0, sinceLive := 0)
    else s.(pendingSettles := s.pendingSettles - 1)
  }

  /** The process `error` handler. */
  function OnProcessError(s: State): (r: State)
    ensures !r.connected && !r.processAlive
    ensures r == OnConnectionError(s.(connected := false, processAlive := false))
  {
    OnConnectionError(s.(connected := false, processAlive := false))
  }

  /** The process `exit` handler: `code !== 0` (which includes `null`) goes to `handleConnectionError`. */
  function OnProcessExit(s: State, code: ExitCode): (r: State)
    ensures !r.connected && !r.processAlive
    ensures code == Code(0) ==> r == s.(connected := false, processAlive := false)
    ensures code != Code(0) ==> r == OnConnectionError(s.(connected := false, processAlive := false))
  {
    var t := s.(connected := false, processAlive := false);
    if code != Code(0) then OnConnectionError(t) else t
  }

  /** A retry timer fires and calls `initialize` (whose error the timer callback swallows). */
  function OnRetryTimer(s: State, spawnThrows: bool): (r: State)
    ensures s.pendingRetries > 0 ==> r == OnInitialize(s.(pendingRetries := s.pendingRetries - 1), spawnThrows)
    ensures s.pendingRetries == 0 ==> r == s
  {
    if s.pendingRetries == 0 then s else OnInitialize(s.(pendingRetries := s.pendingRetries - 1), spawnThrows)
  }

  /** `ensureConnected`: only a disconnected client calls `initialize`. */
  function OnEnsureConnected(s: State, spawnThrows: bool): (r: State)
    ensures s.connected ==> r == s
    ensures !s.connected ==> r == OnInitialize(s, spawnThrows)
  {
    if s.connected then s else OnInitialize(s, spawnThrows)
  }

  /** `disconnect`: with a process and a connection, kill it and forget both (also when the kill throws). */
  function OnDisconnect(s: State): (r: State)
    ensures s.hasProcess && s.connected ==> !r.connected && !r.hasProcess && !r.processAlive
    ensures s.hasProcess && s.connected ==> r.attempts == s.attempts && r.pendingRetries == s.pendingRetries
    ensures !(s.hasProcess && s.connected) ==> r == s
  {
    if s.hasProcess && s.connected then s.(connected := false, hasProcess := false, processAlive := false) else s
  }

  datatype Event =
    | Initialize(spawnThrows: bool)
    | StartupWaitEnds
    | ProcessError
    | ProcessExit(code: ExitCode)
    | RetryTimer(spawnThrows: bool)
    | EnsureConnected(spawnThrows: bool)
    | Disconnect

  /** One event, with the start-up wait as written. */
  function Step(s: State, e: Event): State
  {
    match e
    case Initialize(spawnThrows) => OnInitialize(s, spawnThrows)
    case StartupWaitEnds => OnStartupWaitEnds(s)
    case ProcessError => OnProcessError(s)
    case ProcessExit(code) => OnProcessExit(s, code)
    case RetryTimer(spawnThrows) => OnRetryTimer(s, spawnThrows)
    case EnsureConnected(spawnThrows) => OnEnsureConnected(s, spawnThrows)
    case Disconnect => OnDisconnect(s)
  }

  /** One event, with the corrected start-up wait. */
  function StepChecked(s: State, e: Event): State
  {
    if e == StartupWaitEnds then OnStartupWaitEndsChecked(s) else Step(s, e)
  }

  function Run(s: State, events: seq<Event>): State
    decreases |events|
  {
    if events == [] then s else Run(Step(s, events[0]), events[1..])
  }

  function RunChecked(s: State, events: seq<Event>): State
    decreases |events|
  {
    if events == [] then s else RunChecked(StepChecked(s, events[0]), events[1..])
  }

  lemma {:induction false} RunAppend(s: State, a: seq<Event>, b: seq<Event>)
    ensures Run(s, a + b) == Run(Run(s, a), b)
    decreases |a|
  {
    if a == [] {
      assert a + b == b;
    } else {
      assert (a + b)[0] == a[0];
      assert (a + b)[1..] == a[1..] + b;
      RunAppend(Step(s, a[0]), a[1..], b);
    }
  }

  lemma StepKeepsInvariant(s: State, e: Event)
    requires Invariant(s)
    ensures Invariant(Step(s, e)) && Invariant(StepChecked(s, e))
  {
  }

  /** `reconnectAttempts` never exceeds `maxReconnectAttempts`, whatever the events. */
  lemma {:induction false} AttemptsNeverExceedMax(s: State, events: seq<Event>)
    requires Invariant(s)
    ensures Invariant(Run(s, events))
    ensures Run(s, events).attempts <= MaxReconnectAttempts
    decreases |events|
  {
    if events != [] {
      StepKeepsInvariant(s, events[0]);
      AttemptsNeverExceedMax(Step(s, events[0]), events[1..]);
    }
  }

  /** With the corrected wait, the retries since the last live start-up are the attempt counter. */
  lemma {:induction false} CheckedRunKeepsAccounting(s: State, events: seq<Event>)
    requires Invariant(s) && s.sinceLive == s.attempts
    ensures Invariant(RunChecked(s, events))
    ensures RunChecked(s, events).sinceLive == RunChecked(s, events).attempts
    decreases |events|
  {
    if events != [] {
      var t := StepChecked(s, events[0]);
      StepKeepsInvariant(s, events[0]);
      assert t.sinceLive == t.attempts;
      CheckedRunKeepsAccounting(t, events[1..]);
    }
  }

  /** With the corrected wait, at most 3 retries follow one another without a live start-up in between. */
  lemma CheckedRetriesBounded(events: seq<Event>)
    ensures RunChecked(Initial, events).sinceLive <= MaxReconnectAttempts
  {
    CheckedRunKeepsAccounting(Initial, events);
  }

  /** Fires every armed retry timer, each retry's spawn failing; also counts the firings. */
  function DrainFailingRetries(s: State): (State, nat)
    requires s.attempts <= MaxReconnectAttempts
    decreases s.pendingRetries + (MaxReconnectAttempts - s.attempts)
  {
    if s.pendingRetries == 0 then (s, 0)
    else
      var (t, n) := DrainFailingRetries(Step(s, RetryTimer(true)));
      (t, n + 1)
  }

  /**
   * Failing retries re-enter `handleConnectionError` until the attempts are used up: the
   * chain fires every armed timer plus one per remaining attempt, and then nothing is armed.
   */
  lemma {:induction false} FailingChainLength(s: State)
    requires s.attempts <= MaxReconnectAttempts
    requires s.pendingRetries > 0 || s.attempts == MaxReconnectAttempts
    ensures DrainFailingRetries(s).0.attempts == MaxReconnectAttempts
    ensures DrainFailingRetries(s).0.pendingRetries == 0
    ensures DrainFailingRetries(s).1 == s.pendingRetries + (MaxReconnectAttempts - s.attempts)
    ensures DrainFailingRetries(s).0.sinceLive == s.sinceLive + (MaxReconnectAttempts - s.attempts)
    decreases s.pendingRetries + (MaxReconnectAttempts - s.attempts)
  {
    if s.pendingRetries > 0 {
      FailingChainLength(Step(s, RetryTimer(true)));
    }
  }

  /** From 0 attempts and no armed timer, a failing `initialize` is followed by exactly 3 automatic retries, then none. */
  lemma FailedStartRetriesExactlyMax(s: State)
    requires s.attempts == 0 && s.pendingRetries == 0
    ensures DrainFailingRetries(Step(s, Initialize(true))).1 == MaxReconnectAttempts
    ensures DrainFailingRetries(Step(s, Initialize(true))).0.sinceLive == s.sinceLive + MaxReconnectAttempts
    ensures DrainFailingRetries(Step(s, Initialize(true))).0.pendingRetries == 0
    ensures OnConnectionError(DrainFailingRetries(Step(s, Initialize(true))).0)
      == DrainFailingRetries(Step(s, Initialize(true))).0
  {
    FailingChainLength(Step(s, Initialize(true)));
  }

  /** A spawn that succeeds followed by the end of its wait leaves the client connected with 0 attempts. */
  lemma SuccessfulInitializeConnects(s: State)
    ensures Run(s, [Initialize(false), StartupWaitEnds]).connected
    ensures Run(s, [Initialize(false), StartupWaitEnds]).attempts == 0
    ensures Run(s, [Initialize(false), StartupWaitEnds]).hasProcess
    ensures Run(s, [Initialize(false), StartupWaitEnds]).processAlive
  {
    var t := Step(s, Initialize(false));
    assert Run(s, [Initialize(false), StartupWaitEnds]) == Run(t, [StartupWaitEnds]);
    assert Run(t, [StartupWaitEnds]) == OnStartupWaitEnds(t);
  }

  /** Both process events clear the connection; `error` always reports a connection error. */
  lemma ProcessEventsDisconnect(s: State, code: ExitCode)
    requires Invariant(s)
    ensures !Step(s, ProcessError).connected && !Step(s, ProcessExit(code)).connected
    ensures Step(s, ProcessError).pendingRetries == s.pendingRetries + 1 <==> s.attempts < MaxReconnectAttempts
    ensures Step(s, ProcessExit(code)).pendingRetries == s.pendingRetries + 1
      <==> code != Code(0) && s.attempts < MaxReconnectAttempts
    ensures Step(s, ProcessExit(Code(0))).attempts == s.attempts
  {
  }

  /** `ensureConnected` leaves a connected client alone, and reconnects even after the attempts are used up. */
  lemma EnsureConnectedBehaviour(s: State)
    ensures s.connected ==> Step(s, EnsureConnected(false)) == s && Step(s, EnsureConnected(true)) == s
    ensures !s.connected ==> Run(s, [EnsureConnected(false), StartupWaitEnds]).connected
    ensures !s.connected ==> Run(s, [EnsureConnected(false), StartupWaitEnds]).attempts == 0
  {
    if !s.connected {
      var t := Step(s, EnsureConnected(false));
      assert t.pendingSettles > 0;
      assert Run(s, [EnsureConnected(false), StartupWaitEnds]) == Run(t, [StartupWaitEnds]);
      assert Run(t, [StartupWaitEnds]) == OnStartupWaitEnds(t);
    }
  }

  /** Disconnecting twice is disconnecting once. */
  lemma DisconnectIdempotent(s: State)
    ensures Step(Step(s, Disconnect), Disconnect) == Step(s, Disconnect)
  {
  }

  /**
   * `disconnect` kills with SIGTERM; the `exit` that follows reports code `null`, which is
   * not 0, so a reconnect is scheduled unless the attempts are used up.
   */
  lemma SignalExitAfterDisconnectSchedulesRetry(s: State)
    requires s.hasProcess && s.connected && s.attempts < MaxReconnectAttempts
    ensures Run(s, [Disconnect, ProcessExit(NoCode)]).pendingRetries == s.pendingRetries + 1
    ensures Run(s, [Disconnect, ProcessExit(NoCode)]).attempts == s.attempts + 1
    ensures !Run(s, [Disconnect, ProcessExit(NoCode)]).hasProcess
  {
    var t := Step(s, Disconnect);
    assert Run(s, [Disconnect, ProcessExit(NoCode)]) == Run(t, [ProcessExit(NoCode)]);
    assert Run(t, [ProcessExit(NoCode)]) == OnProcessExit(t, NoCode);
  }

  /** The corrected wait differs from the written one only when the process is already gone. */
  lemma StartupWaitEndsAgreeWhenAlive(s: State, e: Event)
    requires e != StartupWaitEnds || s.processAlive || s.pendingSettles == 0
    ensures StepChecked(s, e) == Step(s, e)
  {
  }

  /** The repeated round of a server that fails right after being spawned. */
  const CrashRound: seq<Event> := [ProcessError, StartupWaitEnds, RetryTimer(false)]

  function CrashRounds(n: nat): seq<Event>
  {
    if n == 0 then [] else CrashRound + CrashRounds(n - 1)
  }

  /** Inside the start-up wait of a live process, with `k` retries since the last live start-up. */
  function StartupState(connected: bool, k: nat): State
  {
    State(connected, 0, true, true, 0, 1, k)
  }

  lemma CrashRoundAsWritten(connected: bool, k: nat)
    ensures Run(StartupState(connected, k), CrashRound) == StartupState(true, k + 1)
  {
    var s0 := StartupState(connected, k);
    var s1 := Step(s0, ProcessError);
    var s2 := Step(s1, StartupWaitEnds);
    assert Run(s0, CrashRound) == Run(s1, [StartupWaitEnds, RetryTimer(false)]);
    assert Run(s1, [StartupWaitEnds, RetryTimer(false)]) == Run(s2, [RetryTimer(false)]);
    assert Run(s2, [RetryTimer(false)]) == Step(s2, RetryTimer(false));
  }

  lemma {:induction false} CrashRoundsAsWritten(connected: bool, k: nat, n: nat)
    ensures Run(StartupState(connected, k), CrashRounds(n)) == StartupState(if n == 0 then connected else true, k + n)
    decreases n
  {
    if n > 0 {
      RunAppend(StartupState(connected, k), CrashRound, CrashRounds(n - 1));
      CrashRoundAsWritten(connected, k);
      CrashRoundsAsWritten(true, k + 1, n - 1);
    }
  }

  /**
   * As written, a server that dies during every start-up wait is retried forever: after `n`
   * rounds `n` retries have been scheduled, yet the attempt counter is back at 0.
   */
  lemma CrashDuringStartupRetriesForever(n: nat)
    ensures Run(Initial, [Initialize(false)] + CrashRounds(n)).sinceLive == n
    ensures Run(Initial, [Initialize(false)] + CrashRounds(n)).attempts == 0
  {
    RunAppend(Initial, [Initialize(false)], CrashRounds(n));
    assert Run(Initial, [Initialize(false)]) == StartupState(false, 0);
    CrashRoundsAsWritten(false, 0, n);
  }

  /** What `getServerStatus` reports. */
  datatype Status = Status(isConnected: bool, hasOpenAIClient: bool, reconnectAttempts: nat, processRunning: bool)

  /**
   * As written, `processRunning` is `mcpProcess && !mcpProcess.killed`; `killed` only becomes
   * true in `disconnect`, which then clears `mcpProcess`, so it reports whether a process is set.
   */
  function StatusOf(s: State, hasOpenAIClient: bool): (r: Status)
    ensures r.processRunning == s.hasProcess
    ensures r.isConnected == s.connected && r.reconnectAttempts == s.attempts && r.hasOpenAIClient == hasOpenAIClient
  {
    Status(s.connected, hasOpenAIClient, s.attempts, s.hasProcess)
  }

  /** Corrected: `processRunning` reports whether the current process is still running. */
  function StatusChecked(s: State, hasOpenAIClient: bool): (r: Status)
    ensures r.processRunning == s.processAlive
    ensures r.isConnected == s.connected && r.reconnectAttempts == s.attempts && r.hasOpenAIClient == hasOpenAIClient
  {
    Status(s.connected, hasOpenAIClient, s.attempts, s.processAlive)
  }

  /** As written, a server that exited with code 1 is still reported as running. */
  lemma ExitedProcessReportedRunning(hasOpenAIClient: bool)
    ensures StatusOf(Run(Initial, [Initialize(false), StartupWaitEnds, ProcessExit(Code(1))]), hasOpenAIClient).processRunning
    ensures !Run(Initial, [Initialize(false), StartupWaitEnds, ProcessExit(Code(1))]).processAlive
  {
    var s1 := Step(Initial, Initialize(false));
    var s2 := Step(s1, StartupWaitEnds);
    assert Run(Initial, [Initialize(false), StartupWaitEnds, ProcessExit(Code(1))]) == Run(s1, [StartupWaitEnds, ProcessExit(Code(1))]);
    assert Run(s1, [StartupWaitEnds, ProcessExit(Code(1))]) == Run(s2, [ProcessExit(Code(1))]);
  }

  /** The corrected status turns false on every `error` or `exit` and on `disconnect`, and true on a spawn. */
  lemma StatusCheckedTracksProcess(s: State, e: Event, hasOpenAIClient: bool)
    requires Invariant(s)
    ensures (e.ProcessError? || e.ProcessExit?) ==> !StatusChecked(Step(s, e), hasOpenAIClient).processRunning
    ensures e == Initialize(false) ==> StatusChecked(Step(s, e), hasOpenAIClient).processRunning
    ensures e == Disconnect && s.hasProcess && s.connected ==> !StatusChecked(Step(s, e), hasOpenAIClient).processRunning
    ensures StatusChecked(Step(s, e), hasOpenAIClient).processRunning ==> StatusOf(Step(s, e), hasOpenAIClient).processRunning
  {
    StepKeepsInvariant(s, e);
  }

  /** A model reply, or the message the chat completion call threw. */
  type Completion = ChatRequest -> Result<string>

  const NotConfigured := "Azure OpenAI client not configured"
  const MultiFileFailure := "Failed to analyze multiple files: "

  class AzureMcpClient {
    /** `!!this.openaiClient`: the endpoint and key were both configured when the client was built. */
    const hasOpenAIClient: bool
    var isConnected: bool
    var reconnectAttempts: nat
    var hasProcess: bool
    var processAlive: bool
    var pendingRetries: nat
    var pendingSettles: nat
    ghost var retriesSinceLive: nat

    ghost function Snapshot(): State
      reads this
    {
      State(isConnected, reconnectAttempts, hasProcess, processAlive, pendingRetries, pendingSettles, retriesSinceLive)
    }

    ghost predicate Valid()
      reads this
    {
      Invariant(Snapshot())
    }

    constructor(openaiConfigured: bool)
      ensures Snapshot() == Initial && Valid()
      ensures hasOpenAIClient == openaiConfigured
    {
      hasOpenAIClient := openaiConfigured;
      isConnected := false;
      reconnectAttempts := 0;
      hasProcess := false;
      processAlive := false;
      pendingRetries := 0;
      pendingSettles := 0;
      retriesSinceLive := 0;
    }

    method HandleConnectionError() returns (scheduled: bool)
      modifies this
      ensures Snapshot() == OnConnectionError(old(Snapshot()))
      ensures scheduled <==> old(reconnectAttempts) < MaxReconnectAttempts
      ensures old(Valid()) ==> Valid()
    {
      scheduled := reconnectAttempts < MaxReconnectAttempts;
      if scheduled {
        reconnectAttempts := reconnectAttempts + 1;
        pendingRetries := pendingRetries + 1;
        retriesSinceLive := retriesSinceLive + 1;
      }
    }

    /** `initialize` up to the 3-second wait; returns the error a throwing spawn raised. */
    method StartInitialize(spawnFailure: Option<string>) returns (thrown: Option<string>)
      modifies this
      ensures Snapshot() == Step(old(Snapshot()), Event.Initialize(spawnFailure.Some?))
      ensures thrown == spawnFailure
      ensures old(Valid()) ==> Valid()
    {
      if spawnFailure.Some? {
        var _ := HandleConnectionError();
        return spawnFailure;
      }
      hasProcess := true;
      processAlive := true;
      pendingSettles := pendingSettles + 1;
      return None;
    }

    /** The end of `initialize`'s wait, as written; `initialize` then returns true. */
    method FinishInitialize() returns (r: bool)
      requires pendingSettles > 0
      modifies this
      ensures Snapshot() == Step(old(Snapshot()), StartupWaitEnds)
      ensures r && isConnected && reconnectAttempts == 0
      ensures old(Valid()) ==> Valid()
    {
      pendingSettles := pendingSettles - 1;
      isConnected := true;
      reconnectAttempts := 0;
      if processAlive {
        retriesSinceLive := 0;
      }
      return true;
    }

    /** The end of `initialize`'s wait, corrected; reports whether the client is now connected. */
    method FinishInitializeChecked() returns (connected: bool)
      requires pendingSettles > 0
      modifies this
      ensures Snapshot() == StepChecked(old(Snapshot()), StartupWaitEnds)
      ensures connected == old(processAlive) && (connected ==> isConnected && reconnectAttempts == 0)
      ensures old(Valid()) ==> Valid()
    {
      pendingSettles := pendingSettles - 1;
      connected := processAlive;
      if connected {
        isConnected := true;
        reconnectAttempts := 0;
        retriesSinceLive := 0;
      }
    }

    /** `initialize` with no event arriving during the wait: true, or the spawn's error rethrown. */
    method Initialize(spawnFailure: Option<string>) returns (r: Result<bool>)
      modifies this
      ensures spawnFailure.Some? ==> r == Err(spawnFailure.value)
      ensures spawnFailure.Some? ==> Snapshot() == Step(old(Snapshot()), Event.Initialize(true))
      ensures spawnFailure.None? ==> r == Ok(true) && isConnected && reconnectAttempts == 0
      ensures spawnFailure.None? ==> Snapshot() == Run(old(Snapshot()), [Event.Initialize(false), StartupWaitEnds])
      ensures old(Valid()) ==> Valid()
    {
      ghost var s0 := Snapshot();
      var thrown := StartInitialize(spawnFailure);
      if thrown.Some? {
        return Err(thrown.value);
      }
      ghost var s1 := Snapshot();
      var connected := FinishInitialize();
      assert Run(s0, [Event.Initialize(false), StartupWaitEnds]) == Run(s1, [StartupWaitEnds]);
      return Ok(connected);
    }

    /** The child process emitted `error`. */
    method OnError()
      modifies this
      ensures Snapshot() == Step(old(Snapshot()), ProcessError)
      ensures old(Valid()) ==> Valid()
    {
      isConnected := false;
      processAlive := false;
      var _ := HandleConnectionError();
    }

    /** The child process emitted `exit` with `code`. */
    method OnExit(code: ExitCode)
      modifies this
      ensures Snapshot() == Step(old(Snapshot()), ProcessExit(code))
      ensures old(Valid()) ==> Valid()
    {
      isConnected := false;
      processAlive := false;
      if code != Code(0) {
        var _ := HandleConnectionError();
      }
    }

    /** An armed retry timer fires and starts `initialize`; its error is swallowed. */
    method RetryTimerFires(spawnFailure: Option<string>)
      requires pendingRetries > 0
      modifies this
      ensures Snapshot() == Step(old(Snapshot()), RetryTimer(spawnFailure.Some?))
      ensures old(Valid()) ==> Valid()
    {
      pendingRetries := pendingRetries - 1;
      var _ := StartInitialize(spawnFailure);
    }

    /** `ensureConnected`, run to completion: the resulting `isConnected`, or `initialize`'s error. */
    method EnsureConnected(spawnFailure: Option<string>) returns (r: Result<bool>)
      modifies this
      ensures old(isConnected) ==> r == Ok(true) && Snapshot() == old(Snapshot())
      ensures !old(isConnected) && spawnFailure.Some? ==> r == Err(spawnFailure.value)
      ensures !old(isConnected) && spawnFailure.Some? ==> Snapshot() == Step(old(Snapshot()), Event.EnsureConnected(true))
      ensures !old(isConnected) && spawnFailure.None? ==> r == Ok(true) && reconnectAttempts == 0
      ensures !old(isConnected) && spawnFailure.None? ==>
        Snapshot() == Run(old(Snapshot()), [Event.EnsureConnected(false), StartupWaitEnds])
      ensures r.Ok? ==> r.value == isConnected
      ensures old(Valid()) ==> Valid()
    {
      if !isConnected {
        ghost var s0 := Snapshot();
        var started := Initialize(spawnFailure);
        if started.Err? {
          return Err(started.error);
        }
        assert Run(s0, [Event.EnsureConnected(false), StartupWaitEnds]) == Run(OnInitialize(s0, false), [StartupWaitEnds]);
      }
      return Ok(isConnected);
    }

    method Disconnect()
      modifies this
      ensures Snapshot() == Step(old(Snapshot()), Event.Disconnect)
      ensures old(hasProcess && isConnected) ==> !isConnected && !hasProcess
      ensures old(Valid()) ==> Valid()
    {
      if hasProcess && isConnected {
        isConnected := false;
        hasProcess := false;
        processAlive := false;
      }
    }

    function GetServerStatus(): (r: Status)
      reads this
      ensures r == StatusOf(Snapshot(), hasOpenAIClient)
    {
      Status(isConnected, hasOpenAIClient, reconnectAttempts, hasProcess)
    }

    /** `getServerStatus` with the corrected `processRunning`. */
    function GetServerStatusChecked(): (r: Status)
      reads this
      ensures r == StatusChecked(Snapshot(), hasOpenAIClient)
    {
      Status(isConnected, hasOpenAIClient, reconnectAttempts, processAlive)
    }

    method ListResourceGroups(spawnFailure: Option<string>) returns (r: Result<string>)
      modifies this
      ensures old(isConnected) ==> Snapshot() == old(Snapshot())
      ensures !old(isConnected) && spawnFailure.Some? ==> Snapshot() == Step(old(Snapshot()), Event.EnsureConnected(true))
      ensures !old(isConnected) && spawnFailure.None? ==>
        Snapshot() == Run(old(Snapshot()), [Event.EnsureConnected(false), StartupWaitEnds])
      ensures old(Valid()) ==> Valid()
      ensures r.Err? ==> r.error == "Failed to list resource groups"
      ensures r.Ok? ==> r.value == "Azure MCP server is running and ready for resource management"
      ensures r.Ok? <==> old(isConnected) || spawnFailure.None?
      ensures isConnected <==> old(isConnected) || spawnFailure.None?
    {
      var connected := EnsureConnected(spawnFailure);
      if connected.Err? {
        return Err("Failed to list resource groups");
      }
      return Ok("Azure MCP server is running and ready for resource management");
    }

    method GetStorageAccountDetails(resourceGroupName: string, accountName: string, spawnFailure: Option<string>)
      returns (r: Result<string>)
      modifies this
      ensures old(isConnected) ==> Snapshot() == old(Snapshot())
      ensures !old(isConnected) && spawnFailure.Some? ==> Snapshot() == Step(old(Snapshot()), Event.EnsureConnected(true))
      ensures !old(isConnected) && spawnFailure.None? ==>
        Snapshot() == Run(old(Snapshot()), [Event.EnsureConnected(false), StartupWaitEnds])
      ensures old(Valid()) ==> Valid()
      ensures r.Err? ==> r.error == "Failed to get storage account details"
      ensures r.Ok? ==> r.value == "Azure MCP server storage management capabilities available"
      ensures r.Ok? <==> old(isConnected) || spawnFailure.None?
      ensures isConnected <==> old(isConnected) || spawnFailure.None?
    {
      var connected := EnsureConnected(spawnFailure);
      if connected.Err? {
        return Err("Failed to get storage account details");
      }
      return Ok("Azure MCP server storage management capabilities available");
    }

    /** `analyzeFile`: every failure, the missing client included, becomes `Failed to analyze file`. */
    function AnalyzeFile(fileContent: string, fileName: string, mimeType: string, query: string, complete: Completion)
      : (r: Result<string>)
      ensures !hasOpenAIClient ==> r == Err("Failed to analyze file")
      ensures r.Err? ==> r.error == "Failed to analyze file"
      ensures hasOpenAIClient ==> (r.Ok? <==> complete(FileRequest(fileContent, fileName, mimeType, query)).Ok?)
      ensures r.Ok? ==> r == complete(FileRequest(fileContent, fileName, mimeType, query))
    {
      if !hasOpenAIClient then Err("Failed to analyze file")
      else match complete(FileRequest(fileContent, fileName, mimeType, query))
        case Ok(reply) => Ok(reply)
        case Err(_) => Err("Failed to analyze file")
    }

    /** `analyzeImage`. */
    function AnalyzeImage(base64Image: string, query: string, complete: Completion): (r: Result<string>)
      ensures !hasOpenAIClient ==> r == Err("Failed to analyze image")
      ensures r.Err? ==> r.error == "Failed to analyze image"
      ensures hasOpenAIClient ==> (r.Ok? <==> complete(ImageRequest(base64Image, query)).Ok?)
      ensures r.Ok? ==> r == complete(ImageRequest(base64Image, query))
    {
      if !hasOpenAIClient then Err("Failed to analyze image")
      else match complete(ImageRequest(base64Image, query))
        case Ok(reply) => Ok(reply)
        case Err(_) => Err("Failed to analyze image")
    }

    /** `summarizeContent`. */
    function SummarizeContent(content: string, fileType: string, complete: Completion): (r: Result<string>)
      ensures !hasOpenAIClient ==> r == Err("Failed to summarize content")
      ensures r.Err? ==> r.error == "Failed to summarize content"
      ensures hasOpenAIClient ==> (r.Ok? <==> complete(SummaryRequest(content, fileType)).Ok?)
      ensures r.Ok? ==> r == complete(SummaryRequest(content, fileType))
    {
      if !hasOpenAIClient then Err("Failed to summarize content")
      else match complete(SummaryRequest(content, fileType))
        case Ok(reply) => Ok(reply)
        case Err(_) => Err("Failed to summarize content")
    }

    /** `extractData`. */
    function ExtractData(content: string, fileType: string, dataType: string, complete: Completion): (r: Result<string>)
      ensures !hasOpenAIClient ==> r == Err("Failed to extract data")
      ensures r.Err? ==> r.error == "Failed to extract data"
      ensures hasOpenAIClient ==> (r.Ok? <==> complete(ExtractDataRequest(content, fileType, dataType)).Ok?)
      ensures r.Ok? ==> r == complete(ExtractDataRequest(content, fileType, dataType))
    {
      if !hasOpenAIClient then Err("Failed to extract data")
      else match complete(ExtractDataRequest(content, fileType, dataType))
        case Ok(reply) => Ok(reply)
        case Err(_) => Err("Failed to extract data")
    }

    /** `analyzeMultipleFiles`: the error's message is kept behind a fixed prefix. */
    method AnalyzeMultipleFiles(files: seq<FileEntry>, query: string, complete: Completion) returns (r: Result<string>)
      ensures !hasOpenAIClient ==> r == Err(MultiFileFailure + NotConfigured)
      ensures hasOpenAIClient && complete(MultiFileRequest(files, query)).Ok? ==>
        r == complete(MultiFileRequest(files, query))
      ensures hasOpenAIClient && complete(MultiFileRequest(files, query)).Err? ==>
        r == Err(MultiFileFailure + complete(MultiFileRequest(files, query)).error)
    {
      if !hasOpenAIClient {
        return Err(MultiFileFailure + NotConfigured);
      }
      var combined := BuildCombinedContent(files, query);
      var request := ChatRequest([SystemMessage(MultiFilePrompt), UserMessage(combined)], MultiFileMaxTokens);
      var reply := complete(request);
      if reply.Err? {
        return Err(MultiFileFailure + reply.error);
      }
      return reply;
    }
  }
}
