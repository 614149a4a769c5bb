/** `emulators:exec <script>`: start the emulators, run a script in a child
    process whose environment points it at the running Firestore emulator, and
    shut the emulators down afterwards. The child process is seen only through
    the events it raises ("error", "exit") and the timers they schedule; the
    emulator controller is seen only through whether each of its steps returns
    or throws. */
module EmulatorsExec {
  import opened Common

  // ---------------------------------------------------------------------------
  // The child environment

  /** The host and port the registry reports for a running emulator. */
  datatype EmulatorInfo = EmulatorInfo(host: string, port: nat)

  /** The variable through which the Firestore emulator is announced. */
  const FirestoreEmulatorEnv := "FIRESTORE_EMULATOR_HOST"

  /** `${info.host}:${info.port}`. */
  function HostString(info: EmulatorInfo): string {
    info.host + ":" + NatToString(info.port)
  }

  /** Builds the environment of the child from nothing: given what the registry
      holds for Firestore, the result has exactly the Firestore variable when
      Firestore runs, and no variable at all otherwise. */
  method BuildScriptEnv(firestoreInstance: Option<EmulatorInfo>) returns (env: map<string, string>)
    ensures firestoreInstance.None? ==> env == map[]
    ensures firestoreInstance.Some? ==>
      env.Keys == {FirestoreEmulatorEnv} && env[FirestoreEmulatorEnv] == HostString(firestoreInstance.value)
  {
    env := map[];
    if firestoreInstance.Some? {
      var info := firestoreInstance.value;
      var hostString := HostString(info);
      env := env[FirestoreEmulatorEnv := hostString];
    }
  }

  /** The position of the last ':' in `s`, if any. */
  function LastColon(s: string): (r: Option<nat>)
    ensures r.Some? ==> r.value < |s| && s[r.value] == ':' && forall j :: r.value < j < |s| ==> s[j] != ':'
    ensures r.None? ==> forall j :: 0 <= j < |s| ==> s[j] != ':'
  {
    if |s| == 0 then None
    else if s[|s| - 1] == ':' then Some(|s| - 1)
    else LastColon(s[..|s| - 1])
  }

  /** How a script reads the variable back: the host is everything before the
      last ':', the port the decimal number after it. */
  function ParseHostString(s: string): Option<EmulatorInfo> {
    match LastColon(s)
    case None => None
    case Some(i) =>
      match ParseNat(s[i + 1..])
      case None => None
      case Some(port) => Some(EmulatorInfo(s[..i], port))
  }

  /** The variable's value names the emulator exactly, even for a host that
      itself contains ':' (an IPv6 address). */
  lemma HostStringRoundTrip(info: EmulatorInfo)
    ensures ParseHostString(HostString(info)) == Some(info)
  {
    var digits := NatToString(info.port);
    var s := HostString(info);
    var i := |info.host|;
    assert s[i] == ':';
    assert s[i + 1..] == digits;
    forall j | i < j < |s| ensures s[j] != ':' {
      assert s[j] == digits[j - i - 1];
    }
    assert LastColon(s) == Some(i);
    ParseNatToString(info.port);
    assert s[..i] == info.host;
  }

  // ---------------------------------------------------------------------------
  // From process events to the settled promise

  /** The state of the promise `runScript` returns. */
  datatype Settlement = Pending | Resolved | Rejected

  /** A call of the promise's `resolve` or `reject`. */
  datatype SettleAction = Resolve | Reject

  /** What is reported on the console about the child. */
  datatype Notice = ErrorWarning | SignalWarning(signal: string) | ExitedSuccessfully | ExitedUnsuccessfully(code: Option<int>)

  /** What the child process can raise: an "error" event, an "exit" event with
      its code (None for null) and signal (None for null), or the firing of the
      oldest pending 500 ms timer (all timers have the same delay, so they fire
      in the order they were set). */
  datatype ProcessEvent = ErrorEvent | ExitEvent(code: Option<int>, signal: Option<string>) | TimerFires

  /** The supervisor's observable state: the promise, the settle calls waiting on
      timers (oldest first), whether the one-shot "exit" listener is still
      attached, and what has been reported. */
  datatype Supervisor = Supervisor(settlement: Settlement, timers: seq<SettleAction>, exitListening: bool, notices: seq<Notice>)

  const Initial := Supervisor(Pending, [], true, [])

  /** A promise takes the first settlement and ignores every later one. */
  function AfterSettle(s: Settlement, action: SettleAction): (r: Settlement)
    ensures s != Pending ==> r == s
    ensures s == Pending ==> (r == Resolved <==> action == Resolve) && r != Pending
  {
    if s != Pending then s else if action == Resolve then Resolved else Rejected
  }

  /** A signal name is truthy when it is present and not empty. */
  predicate SignalTruthy(signal: Option<string>) {
    signal.Some? && signal.value != ""
  }

  /** The settle calls an exit schedules: `reject` first when there is a signal,
      then `resolve` whatever the code (both code branches resolve). */
  function ExitTimers(code: Option<int>, signal: Option<string>): (r: seq<SettleAction>)
    ensures |r| >= 1 && r[|r| - 1] == Resolve
    ensures r[0] == Reject <==> SignalTruthy(signal)
  {
    (if SignalTruthy(signal) then [Reject] else []) + [Resolve]
  }

  function ExitNotices(code: Option<int>, signal: Option<string>): seq<Notice> {
    (if SignalTruthy(signal) then [SignalWarning(signal.value)] else []) +
    (if code == Some(0) then [ExitedSuccessfully] else [ExitedUnsuccessfully(code)])
  }

  /** One event. An error rejects at once; the first exit schedules its settle
      calls and detaches the listener; a timer performs the oldest scheduled call. */
  function Step(m: Supervisor, ev: ProcessEvent): (r: Supervisor)
    ensures m.settlement != Pending ==> r.settlement == m.settlement
    ensures ev == ErrorEvent ==> r.settlement != Pending && r.timers == m.timers
    ensures ev == ErrorEvent && m.settlement == Pending ==> r.settlement == Rejected
    ensures ev.ExitEvent? && !m.exitListening ==> r == m
    ensures ev.ExitEvent? ==> r.settlement == m.settlement && !r.exitListening
    ensures !ev.ExitEvent? ==> r.exitListening == m.exitListening
    ensures ev == TimerFires && m.timers != [] && m.settlement == Pending ==>
      r.settlement == (if m.timers[0] == Resolve then Resolved else Rejected) && r.timers == m.timers[1..]
  {
    match ev
    case ErrorEvent =>
      m.(settlement := AfterSettle(m.settlement, Reject), notices := m.notices + [ErrorWarning])
    case ExitEvent(code, signal) =>
      if !m.exitListening then m
      else m.(exitListening := false,
              timers := m.timers + ExitTimers(code, signal),
              notices := m.notices + ExitNotices(code, signal))
    case TimerFires =>
      if m.timers == [] then m
      else m.(settlement := AfterSettle(m.settlement, m.timers[0]), timers := m.timers[1..])
  }

  /** A sequence of events, in order. */
  function Run(m: Supervisor, events: seq<ProcessEvent>): Supervisor
    decreases |events|
  {
    if |events| == 0 then m else Run(Step(m, events[0]), events[1..])
  }

  /** Once settled, the promise never changes, whatever happens next. */
  lemma {:induction false} SettledIsFinal(m: Supervisor, events: seq<ProcessEvent>)
    requires m.settlement != Pending
    ensures Run(m, events).settlement == m.settlement
    decreases |events|
  {
    if |events| > 0 {
      SettledIsFinal(Step(m, events[0]), events[1..]);
    }
  }

  /** The events other than exits, in their order. */
  function NonExits(events: seq<ProcessEvent>): seq<ProcessEvent>
    decreases |events|
  {
    if |events| == 0 then []
    else (if events[0].ExitEvent? then [] else [events[0]]) + NonExits(events[1..])
  }

  /** Only the first exit is handled: once the listener is gone, a run of any
      events, timers and errors included, ends where the same run without its
      exits ends; in particular a run of exits alone changes nothing. */
  lemma {:induction false} LaterExitsIgnored(m: Supervisor, events: seq<ProcessEvent>)
    requires !m.exitListening
    ensures Run(m, events) == Run(m, NonExits(events))
    ensures (forall i :: 0 <= i < |events| ==> events[i].ExitEvent?) ==> Run(m, events) == m
    decreases |events|
  {
    if |events| > 0 {
      var e, rest := events[0], events[1..];
      LaterExitsIgnored(Step(m, e), rest);
      if e.ExitEvent? {
        assert NonExits(events) == NonExits(rest);
      } else {
        var tail := NonExits(rest);
        assert NonExits(events) == [e] + tail;
        assert ([e] + tail)[0] == e && ([e] + tail)[1..] == tail;
      }
    }
  }

  /** The settlement `actions` lead to, performed in order from `s`. */
  function SettleAll(s: Settlement, actions: seq<SettleAction>): Settlement
    decreases |actions|
  {
    if |actions| == 0 then s else SettleAll(AfterSettle(s, actions[0]), actions[1..])
  }

  /** The first settle call wins. */
  lemma {:induction false} FirstSettleWins(s: Settlement, actions: seq<SettleAction>)
    ensures s != Pending ==> SettleAll(s, actions) == s
    ensures s == Pending && |actions| > 0 ==> SettleAll(s, actions) == AfterSettle(Pending, actions[0])
    decreases |actions|
  {
    if |actions| > 0 {
      FirstSettleWins(AfterSettle(s, actions[0]), actions[1..]);
    }
  }

  /** From a fresh run, an exit settles the promise, once its first timer fires,
      as rejected exactly when it carries a signal: a non-zero code resolves it
      just as code 0 does. */
  lemma ExitSettlement(m: Supervisor, code: Option<int>, signal: Option<string>)
    requires m.settlement == Pending && m.exitListening && m.timers == []
    ensures Step(Step(m, ExitEvent(code, signal)), TimerFires).settlement ==
      (if SignalTruthy(signal) then Rejected else Resolved)
    ensures ScriptCompletion(Step(Step(m, ExitEvent(code, signal)), TimerFires).settlement) ==
      Some(if SignalTruthy(signal) then Abrupt(NoReason) else Normal)
  {
  }

  /** Code 0 is reported as success and any other code as a warning. */
  lemma ExitReport(m: Supervisor, code: Option<int>)
    requires m.exitListening
    ensures Step(m, ExitEvent(code, None)).notices ==
      m.notices + [if code == Some(0) then ExitedSuccessfully else ExitedUnsuccessfully(code)]
  {
  }

  /** After an exit with a signal nothing can resolve the promise: `reject` is
      scheduled before `resolve`, and an error event only rejects. */
  predicate RejectionAhead(m: Supervisor) {
    m.settlement == Rejected ||
    (m.settlement == Pending && !m.exitListening && |m.timers| > 0 && m.timers[0] == Reject)
  }

  lemma {:induction false} RejectionAheadKept(m: Supervisor, events: seq<ProcessEvent>)
    requires RejectionAhead(m)
    ensures Run(m, events).settlement != Resolved
    decreases |events|
  {
    if |events| > 0 {
      var next := Step(m, events[0]);
      assert RejectionAhead(next);
      RejectionAheadKept(next, events[1..]);
    }
  }

  lemma SignalledExitNeverResolves(m: Supervisor, code: Option<int>, signal: Option<string>, events: seq<ProcessEvent>)
    requires m.settlement == Pending && m.exitListening && m.timers == []
    requires SignalTruthy(signal)
    ensures Run(Step(m, ExitEvent(code, signal)), events).settlement != Resolved
    ensures ScriptCompletion(Run(Step(m, ExitEvent(code, signal)), events).settlement) != Some(Normal)
  {
    RejectionAheadKept(Step(m, ExitEvent(code, signal)), events);
  }

  /** The supervisor of one script run, updated by the child's event handlers. */
  class ScriptSupervisor {
    var settlement: Settlement
    var timers: seq<SettleAction>
    var exitListening: bool
    var notices: seq<Notice>

    function State(): Supervisor
      reads this
    {
      Supervisor(settlement, timers, exitListening, notices)
    }

    constructor ()
      ensures State() == Initial
    {
      settlement := Pending;
      timers := [];
      exitListening := true;
      notices := [];
    }

    /** `resolve()` or `reject()`: settles a pending promise, is a no-op otherwise. */
    method Settle(action: SettleAction)
      modifies this
      ensures settlement == AfterSettle(old(settlement), action)
      ensures timers == old(timers) && exitListening == old(exitListening) && notices == old(notices)
    {
      if settlement == Pending {
        settlement := if action == Resolve then Resolved else Rejected;
      }
    }

    /** The "error" handler: warn, then reject with no delay. */
    method OnError()
      modifies this
      ensures State() == Step(old(State()), ErrorEvent)
    {
      notices := notices + [ErrorWarning];
      Settle(Reject);
    }

    /** The one-shot "exit" handler. */
    method OnExit(code: Option<int>, signal: Option<string>)
      modifies this
      ensures State() == Step(old(State()), ExitEvent(code, signal))
    {
      if !exitListening {
        return;
      }
      exitListening := false;
      if SignalTruthy(signal) {
        notices := notices + [SignalWarning(signal.value)];
        timers := timers + [Reject];
      }
      if code == Some(0) {
        notices := notices + [ExitedSuccessfully];
        timers := timers + [Resolve];
      } else {
        notices := notices + [ExitedUnsuccessfully(code)];
        timers := timers + [Resolve];
      }
    }

    /** The oldest pending timer fires. */
    method FireTimer()
      requires timers != []
      modifies this
      ensures State() == Step(old(State()), TimerFires)
    {
      var action := timers[0];
      timers := timers[1..];
      Settle(action);
    }

    /** Every pending timer fires, oldest first. */
    method FireAllTimers()
      modifies this
      ensures timers == []
      ensures settlement == SettleAll(old(settlement), old(timers))
      ensures exitListening == old(exitListening) && notices == old(notices)
    {
      while timers != []
        invariant SettleAll(settlement, timers) == SettleAll(old(settlement), old(timers))
        invariant exitListening == old(exitListening) && notices == old(notices)
        decreases |timers|
      {
        FireTimer();
      }
    }
  }

  // ---------------------------------------------------------------------------
  // The command's action: try { startAll; runScript } catch { rethrow } finally { cleanShutdown }

  /** A value a step throws; `reject()` is called without an argument. */
  datatype ErrorValue = NoReason | Reason(description: string)

  /** How an awaited step ends. */
  datatype Completion = Normal | Abrupt(error: ErrorValue)

  datatype Call = StartAll | RunScript | CleanShutdown

  /** What `await runScript(script)` does once the promise settles; a promise
      that stays pending never lets it return. */
  function ScriptCompletion(s: Settlement): (r: Option<Completion>)
    ensures r.None? <==> s == Pending
    ensures r == Some(Normal) <==> s == Resolved
  {
    match s
    case Pending => None
    case Resolved => Some(Normal)
    case Rejected => Some(Abrupt(NoReason))
  }

  /** Given how each awaited step would end, the calls made, in order, and how
      the action ends. The script runs only after the emulators have started;
      the shutdown runs exactly once, last; an error from the first two steps
      is thrown again after the shutdown, unless the shutdown throws, whose
      error then replaces it. */
  method Action(startAll: Completion, runScript: Completion, cleanShutdown: Completion)
    returns (calls: seq<Call>, result: Completion)
    ensures calls == (if startAll.Normal? then [StartAll, RunScript, CleanShutdown] else [StartAll, CleanShutdown])
    ensures calls[0] == StartAll && calls[|calls| - 1] == CleanShutdown
    ensures multiset(calls)[CleanShutdown] == 1
    ensures RunScript in calls <==> startAll.Normal?
    ensures cleanShutdown.Abrupt? ==> result == cleanShutdown
    ensures cleanShutdown.Normal? && startAll.Abrupt? ==> result == startAll
    ensures cleanShutdown.Normal? && startAll.Normal? ==> result == runScript
  {
    calls := [];
    var caught: Completion := Normal;
    calls := calls + [StartAll];
    if startAll.Abrupt? {
      caught := startAll;
    } else {
      calls := calls + [RunScript];
      if runScript.Abrupt? {
        caught := runScript;
      }
    }
    // the catch block logs and rethrows, so `caught` is what leaves it
    calls := calls + [CleanShutdown];
    if cleanShutdown.Abrupt? {
      result := cleanShutdown;
    } else {
      result := caught;
    }
  }
}
