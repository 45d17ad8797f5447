/**
 * Sequences of events between `load` and `unload`: timer ticks, runner
 * completions, refresh-rate changes and project-API answers. The lemmas here
 * are the engine's promises over whole sessions: one runner call at a time,
 * triggers dropped while the lock is held, and the domain fixed at load.
 */
module Sessions {
  import opened Values
  import opened Access
  import opened Transitions

  /** What can happen to a loaded engine. */
  datatype Event =
    | Tick                                      // the interval fires; Step also allows it with no interval registered, a harmless over-approximation
    | Completed(result: RunnerResult)           // the runner calls back
    | RateChanged(rate: Number)                 // the refresh-rate setting changes
    | SharedStatusArrived(response: ProjectResponse)

  /**
   * One event. The runner only calls back for a call it was given, so a
   * completion with nothing in flight is never delivered.
   */
  function Step(s: EngineState, env: Env, e: Event): EngineState {
    match e
    case Tick => UpdateStats(s, env)
    case Completed(result) => if s.inFlight > 0 then ParseStats(s, result) else s
    case RateChanged(rate) => OnRefreshRate(s, env, rate)
    case SharedStatusArrived(response) => OnSharedStatus(s, env, response)
  }

  /** The events, first to last. */
  function Run(s: EngineState, env: Env, es: seq<Event>): EngineState
    decreases |es|
  {
    if es == [] then s else Run(Step(s, env, es[0]), env, es[1..])
  }

  /** Completions among the events. */
  function Completions(es: seq<Event>): nat {
    if es == [] then 0 else (if es[0].Completed? then 1 else 0) + Completions(es[1..])
  }

  /**
   * The single-flight invariant: at most one runner call outstanding, and
   * the lock held while it is; the browser runs only the interval in the handle.
   */
  predicate SessionInv(s: EngineState) {
    TimerInv(s) && s.inFlight <= 1 && (s.inFlight == 1 ==> s.fetching)
  }

  /** Every event keeps the single-flight invariant. */
  lemma StepKeepsSessionInv(s: EngineState, env: Env, e: Event)
    requires SessionInv(s)
    ensures SessionInv(Step(s, env, e))
  {
  }

  /** Loading a freshly evaluated plugin establishes the invariant. */
  lemma LoadEstablishesSessionInv(env: Env, marker: Number, rate: Number, isPublic: bool, install: InstallOutcome)
    ensures SessionInv(Load(Initial(marker, rate, isPublic), env, install))
  {
    LoadOutcome(Initial(marker, rate, isPublic), env, install);
  }

  /** Single-flight over a whole session: no event sequence ever has two runner calls outstanding. */
  lemma {:induction false} SingleFlight(s: EngineState, env: Env, es: seq<Event>)
    requires SessionInv(s)
    ensures SessionInv(Run(s, env, es))
    decreases |es|
  {
    if es != [] {
      StepKeepsSessionInv(s, env, es[0]);
      SingleFlight(Step(s, env, es[0]), env, es[1..]);
    }
  }

  /**
   * The runner is started at most once more than it has called back: the
   * new invocations in a session number at most one plus the completions.
   */
  lemma {:induction false} RunsBoundedByCompletions(s: EngineState, env: Env, es: seq<Event>)
    requires SessionInv(s)
    ensures |Invocations(Run(s, env, es).effects)| + s.inFlight
              <= |Invocations(s.effects)| + Run(s, env, es).inFlight + Completions(es)
    ensures |Invocations(Run(s, env, es).effects)| <= |Invocations(s.effects)| + 1 - s.inFlight + Completions(es)
    decreases |es|
  {
    SingleFlight(s, env, es);
    if es != [] {
      var s1 := Step(s, env, es[0]);
      StepKeepsSessionInv(s, env, es[0]);
      RunsBoundedByCompletions(s1, env, es[1..]);
      match es[0]
      case Tick =>
      case Completed(_) =>
      case RateChanged(rate) =>
      case SharedStatusArrived(_) =>
    }
  }

  /**
   * While the lock is held and the runner does not call back, ticks and
   * rate changes start no runner call and the lock stays held.
   */
  lemma {:induction false} LockHeldWithoutCompletion(s: EngineState, env: Env, es: seq<Event>)
    requires s.fetching
    requires forall i | 0 <= i < |es| :: !es[i].Completed?
    ensures Run(s, env, es).fetching
    ensures Invocations(Run(s, env, es).effects) == Invocations(s.effects)
    ensures Run(s, env, es).inFlight == s.inFlight
    decreases |es|
  {
    if es != [] {
      assert !es[0].Completed?;
      LockHeldWithoutCompletion(Step(s, env, es[0]), env, es[1..]);
    }
  }

  /** Triggers arriving while a fetch is outstanding are dropped: they change nothing. */
  lemma {:induction false} DroppedTriggers(s: EngineState, env: Env, es: seq<Event>)
    requires s.fetching
    requires forall i | 0 <= i < |es| :: es[i] == Tick
    ensures Run(s, env, es) == s
    decreases |es|
  {
    if es != [] {
      assert es[0] == Tick;
      DroppedTriggers(Step(s, env, es[0]), env, es[1..]);
    }
  }

  /**
   * A failed install leaves the lock held with nothing in flight, so no
   * event of the session ever starts the runner.
   */
  lemma {:induction false} FailedInstallStallsFetching(s: EngineState, env: Env, es: seq<Event>)
    requires s.fetching && s.inFlight == 0
    ensures Run(s, env, es).fetching && Run(s, env, es).inFlight == 0
    ensures Invocations(Run(s, env, es).effects) == Invocations(s.effects)
    decreases |es|
  {
    if es != [] {
      FailedInstallStallsFetching(Step(s, env, es[0]), env, es[1..]);
    }
  }

  /** Load with a stored marker asking for a reinstall and an install that fails. */
  lemma FailedInstallHoldsLock(s: EngineState, env: Env, step: InstallStep)
    requires NeedsInstall(s.marker) && s.inFlight == 0
    ensures Load(s, env, InstallFailed(step)).fetching && Load(s, env, InstallFailed(step)).inFlight == 0
  {
  }

  /** The domain chosen at load is the one every event of the session sees. */
  lemma {:induction false} DomainFixed(s: EngineState, env: Env, es: seq<Event>)
    ensures Run(s, env, es).domain == s.domain
    decreases |es|
  {
    if es != [] {
      DomainFixed(Step(s, env, es[0]), env, es[1..]);
    }
  }

  /**
   * Any runner call made after load passes the stripped hostname, the
   * user-client token and the current delay plus two seconds.
   */
  lemma RunnerArgsAfterLoad(s: EngineState, env: Env, install: InstallOutcome, es: seq<Event>)
    requires !Run(Load(s, env, install), env, es).fetching
    ensures var t := Run(Load(s, env, install), env, es);
            Invocations(UpdateStats(t, env).effects)
              == Invocations(t.effects) + [RunnerArgs(Some(StripDomain(env.hostname)), env.myUserId + "-" + env.myClientId, Plus(t.delay, 2.0))]
  {
    DomainFixed(Load(s, env, install), env, es);
  }

  /**
   * A missing or unexecutable script resets the marker, so the next load
   * installs the script again before anything is fetched.
   */
  lemma ReinstallAfterInstallError(s: EngineState, env: Env, code: string, install: InstallOutcome)
    requires code == "ENOENT" || code == "EACCES"
    ensures var t := ParseStats(s, Failed(Some(code)));
            && NeedsInstall(t.marker)
            && t.effects == s.effects + [ConsoleLog(AccessDiagnostic())]
            && (install.Installed? ==> Load(Unload(t), env, install).marker == Num(INFO_VER))
            && (install.InstallFailed? ==>
                  Load(Unload(t), env, install).fetching
                  && Invocations(Load(Unload(t), env, install).effects) == Invocations(t.effects))
  {
  }

  /** A disconnect leaves the snapshot, the marker, the caption and the log as they were. */
  lemma DisconnectIsSilent(s: EngineState)
    ensures var t := ParseStats(s, Failed(Some("EDISCONNECT")));
            t.stats == s.stats && t.marker == s.marker && t.caption == s.caption
            && t.effects == s.effects && !t.fetching
  {
  }

  /** Each success replaces the snapshot wholesale; a later failure keeps it. */
  lemma SnapshotSurvivesFailure(s: EngineState, st: Stats, code: Option<string>)
    ensures var t := ParseStats(ParseStats(s, Output(Parsed(st))), Failed(code));
            t.stats == Some(st) && HasLoaded(t.stats) && Host(t.stats) == st.host
  {
  }

  /**
   * After a rate change, writing the normalised rate back delivers the
   * change event again; that second delivery does nothing.
   */
  lemma RateWriteBackIsNoop(s: EngineState, env: Env, rate: Number)
    ensures var t := OnRefreshRate(s, env, rate);
            OnRefreshRate(t, env, t.refreshRate) == t
  {
  }

  /**
   * Unload does not cancel the runner: after a reload a second call can be
   * started while the first is still out, so single-flight holds per session only.
   */
  lemma ReloadCanOverlapRuns(env: Env)
    ensures var s0 := Load(Initial(Num(INFO_VER), Num(DEFAULT_REFRESH), false), env, Installed);
            var s2 := Load(Unload(s0), env, Installed);
            s0.inFlight == 1 && s2.inFlight == 2 && !SessionInv(s2)
  {
    var s0 := Load(Initial(Num(INFO_VER), Num(DEFAULT_REFRESH), false), env, Installed);
    LoadOutcome(Initial(Num(INFO_VER), Num(DEFAULT_REFRESH), false), env, Installed);
    LoadOutcome(Unload(s0), env, Installed);
  }
}
