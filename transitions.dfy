/**
 * The engine's state and, for each handler that updates it in place, a pure
 * function giving the state after the handler from the state before it. The
 * class in engine.dfy is proved to follow these functions; the properties the
 * plugin promises are stated here, on the functions.
 */
module Transitions {
  import opened Values
  import opened Access

  /** A repeating `window.setInterval` registration: its id and its period in ms. */
  datatype Interval = Interval(id: nat, periodMs: Number)

  /**
   * The plugin's module-level variables, the three settings it reads and
   * writes, and the part of the outside world its handlers act on.
   */
  datatype EngineState = EngineState(
    fetching: bool,              // the single-flight lock
    timer: Option<Interval>,     // the interval handle, null when stopped
    delay: Number,               // current refresh rate in seconds
    stats: Option<Stats>,        // last parsed snapshot
    marker: Number,              // setting project/cs50/info/@ver
    refreshRate: Number,         // setting user/cs50/info/@refreshRate
    isPublic: bool,              // setting project/cs50/info/@public
    caption: Option<string>,     // caption of the version button, None once the button is gone
    domain: Option<string>,      // the IDE's domain, null before load and after unload
    nextTimerId: nat,            // the id the browser hands out next
    liveTimers: set<nat>,        // intervals registered with the browser
    inFlight: nat,               // runner calls whose completion has not been delivered
    effects: seq<Effect>)        // outside effects so far, oldest first

  /** Ids of the intervals a handle refers to. */
  function TimerIds(timer: Option<Interval>): set<nat> {
    if timer.Some? then {timer.value.id} else {}
  }

  /** The browser runs exactly the interval the handle names, and ids are fresh. */
  predicate TimerInv(s: EngineState) {
    && s.liveTimers == TimerIds(s.timer)
    && forall id | id in s.liveTimers :: id < s.nextTimerId
  }

  /** The runner invocations among the effects, in order. */
  function Invocations(effects: seq<Effect>): (r: seq<RunnerArgs>)
    ensures |r| <= |effects|
    ensures forall a | a in r :: ExecInfo50(a) in effects
  {
    if effects == [] then []
    else
      var last := effects[|effects| - 1];
      var before := Invocations(effects[..|effects| - 1]);
      if last.ExecInfo50? then before + [last.args] else before
  }

  /** Every runner call among the effects is an invocation, and nothing else is. */
  lemma {:induction false} InvocationsContent(effects: seq<Effect>)
    ensures forall a :: a in Invocations(effects) <==> ExecInfo50(a) in effects
    decreases |effects|
  {
    if effects != [] {
      var prefix := effects[..|effects| - 1];
      assert effects == prefix + [effects[|effects| - 1]];
      InvocationsContent(prefix);
    }
  }

  /** Appending effects appends their invocations. */
  lemma {:induction false} InvocationsAppend(a: seq<Effect>, b: seq<Effect>)
    ensures Invocations(a + b) == Invocations(a) + Invocations(b)
    decreases |b|
  {
    if b == [] {
      assert a + b == a;
    } else {
      var b' := b[..|b| - 1];
      assert (a + b)[..|a + b| - 1] == a + b';
      InvocationsAppend(a, b');
    }
  }

  /**
   * `isNaN(ver) || ver < INFO_VER`: the helper script has to be (re)installed.
   * An unset marker and the 0 that `rewrite` stores ask for it; the current
   * revision, stored after an install, does not.
   */
  predicate NeedsInstall(marker: Number): (b: bool)
    ensures marker.NaN? ==> b
    ensures marker == Num(0.0) ==> b
    ensures marker == Num(INFO_VER) ==> !b
  {
    marker.NaN? || marker.v < INFO_VER
  }

  /** `setCaption` on the version button; a null button throws, leaving the caption as it was. */
  function ShowCaption(caption: Option<string>, text: string): (c: Option<string>)
    ensures caption.Some? ==> c == Some(text)
    ensures caption.None? ==> c == None
  {
    if caption.Some? then Some(text) else None
  }

  /** The state when the plugin module is first evaluated, before `load`. */
  function Initial(marker: Number, refreshRate: Number, isPublic: bool): (s: EngineState)
    ensures !s.fetching && s.timer.None? && s.stats.None? && s.domain.None? && s.caption.None?
    ensures s.inFlight == 0 && Invocations(s.effects) == [] && TimerInv(s)
  {
    EngineState(false, None, NaN, None, marker, refreshRate, isPublic, None, None, 0, {}, 0, [])
  }

  /** `startTimer`: register an interval unless one is already registered. */
  function StartTimer(s: EngineState): (t: EngineState)
    ensures t.timer.Some?
    ensures s.timer.Some? ==> t == s
    ensures s.timer.None? ==> t.timer.value.periodMs == Times(s.delay, 1000.0)
    ensures TimerInv(s) ==> TimerInv(t) && |t.liveTimers| == 1
    ensures TimerInv(s) && s.timer.None? ==> t.timer.value.id !in s.liveTimers
    ensures t.(timer := s.timer, nextTimerId := s.nextTimerId, liveTimers := s.liveTimers) == s
  {
    if s.timer.Some? then s
    else
      var id := s.nextTimerId;
      s.(timer := Some(Interval(id, Times(s.delay, 1000.0))),
         nextTimerId := id + 1,
         liveTimers := s.liveTimers + {id})
  }

  /** `stopTimer`: clear the registered interval, if any. */
  function StopTimer(s: EngineState): (t: EngineState)
    ensures t.timer.None?
    ensures s.timer.None? ==> t == s
    ensures t.liveTimers == s.liveTimers - TimerIds(s.timer)
    ensures TimerInv(s) ==> TimerInv(t) && t.liveTimers == {}
    ensures t.(timer := s.timer, liveTimers := s.liveTimers) == s
  {
    if s.timer.None? then s
    else s.(timer := None, liveTimers := s.liveTimers - {s.timer.value.id})
  }

  /** Starting twice starts once; stopping twice stops once. */
  lemma TimerIdempotent(s: EngineState)
    ensures StartTimer(StartTimer(s)) == StartTimer(s)
    ensures StopTimer(StopTimer(s)) == StopTimer(s)
  {
  }

  /** The arguments `updateStats` passes to `.info50`. */
  function RunnerCall(s: EngineState, env: Env): RunnerArgs {
    RunnerArgs(s.domain, Hash(env), Plus(s.delay, 2.0))
  }

  /**
   * `updateStats`: dropped while the lock is held; otherwise take the lock,
   * ask the project API for the shared status when hosted, and start one
   * runner call.
   */
  function UpdateStats(s: EngineState, env: Env): (t: EngineState)
    ensures s.fetching ==> t == s
    ensures !s.fetching ==> t.fetching && t.inFlight == s.inFlight + 1
    ensures !s.fetching ==>
              Invocations(t.effects) == Invocations(s.effects) + [RunnerCall(s, env)]
    ensures |s.effects| <= |t.effects| && t.effects[..|s.effects|] == s.effects
    ensures !s.fetching ==> (RequestSharedStatus in t.effects[|s.effects|..] <==> env.hosted)
    ensures t.(fetching := s.fetching, inFlight := s.inFlight, effects := s.effects) == s
  {
    if s.fetching then s
    else
      var shared := if env.hosted then [RequestSharedStatus] else [];
      var added := shared + [ExecInfo50(RunnerCall(s, env))];
      InvocationsAppend(s.effects, added);
      assert Invocations(added) == [RunnerCall(s, env)] by {
        assert added[..|added| - 1] == shared;
      }
      s.(fetching := true,
         inFlight := s.inFlight + 1,
         effects := s.effects + added)
  }

  /**
   * The effects a refresh adds, exactly: the shared-status request when
   * hosted, then the runner call; nothing else is logged.
   */
  lemma UpdateStatsEffects(s: EngineState, env: Env)
    ensures !s.fetching ==>
              UpdateStats(s, env).effects
                == s.effects + (if env.hosted then [RequestSharedStatus] else []) + [ExecInfo50(RunnerCall(s, env))]
  {
  }

  /** `rewrite`: log the chmod diagnostic and reset the version marker to 0. */
  function Rewrite(s: EngineState): (t: EngineState)
    ensures t.marker == Num(0.0) && NeedsInstall(t.marker)
    ensures t.effects == s.effects + [ConsoleLog(AccessDiagnostic())]
    ensures Invocations(t.effects) == Invocations(s.effects)
    ensures t.(marker := s.marker, effects := s.effects) == s
  {
    s.(marker := Num(0.0), effects := s.effects + [ConsoleLog(AccessDiagnostic())])
  }

  /**
   * `parseStats`: release the lock, then sort the runner's outcome: a
   * disconnect is ignored; a missing or unexecutable script gets the
   * diagnostic and the marker reset; any other error the marker reset; every
   * error but the disconnect shows "n/a". Output replaces the snapshot and
   * shows its version; output that is not JSON throws after the release.
   */
  function ParseStats(s: EngineState, result: RunnerResult): (t: EngineState)
    ensures !t.fetching
    ensures t.inFlight == if s.inFlight > 0 then s.inFlight - 1 else 0
    ensures result.Failed? || result.parsed.Malformed? ==> t.stats == s.stats
    ensures result.Failed? && Classify(result.code) == Disconnect ==>
              t.marker == s.marker && t.caption == s.caption && t.effects == s.effects
    ensures result.Failed? && Classify(result.code) != Disconnect ==>
              t.marker == Num(0.0) && NeedsInstall(t.marker)
              && t.caption == ShowCaption(s.caption, UNAVAILABLE)
    ensures result.Failed? && Classify(result.code) in {NotFound, Access} ==>
              t.effects == s.effects + [ConsoleLog(AccessDiagnostic())]
    ensures result.Failed? && Classify(result.code) == Other ==> t.effects == s.effects
    ensures result.Output? && result.parsed.Malformed? ==>
              t.marker == s.marker && t.caption == s.caption && t.effects == s.effects
    ensures result.Output? && result.parsed.Parsed? ==>
              && t.stats == Some(result.parsed.stats)
              && HasLoaded(t.stats) && Host(t.stats) == result.parsed.stats.host
              && t.caption == ShowCaption(s.caption, result.parsed.stats.version)
              && t.marker == s.marker && t.effects == s.effects
    ensures Invocations(t.effects) == Invocations(s.effects)
    ensures t.(fetching := s.fetching, inFlight := s.inFlight, stats := s.stats, marker := s.marker,
               caption := s.caption, effects := s.effects) == s
  {
    var released := s.(fetching := false, inFlight := if s.inFlight > 0 then s.inFlight - 1 else 0);
    match result
    case Failed(code) =>
      (match Classify(code)
       case Disconnect => released
       case NotFound => Rewrite(released).(caption := ShowCaption(s.caption, UNAVAILABLE))
       case Access => Rewrite(released).(caption := ShowCaption(s.caption, UNAVAILABLE))
       case Other => released.(marker := Num(0.0), caption := ShowCaption(s.caption, UNAVAILABLE)))
    case Output(Malformed) => released
    case Output(Parsed(stats)) =>
      released.(stats := Some(stats), caption := ShowCaption(s.caption, stats.version))
  }

  /**
   * The handler of user/cs50/info/@refreshRate, run after the setting took
   * the value `rate`. Nothing happens when `rate` is the current delay.
   * Otherwise the delay becomes `rate`, or 30 (also written back) when
   * `rate` is NaN or below 1; then one refresh is attempted and the timer
   * is restarted with the new delay.
   */
  function OnRefreshRate(s: EngineState, env: Env, rate: Number): (t: EngineState)
    ensures !StrictlyDiffers(s.delay, rate) ==> t == s.(refreshRate := rate)
    ensures StrictlyDiffers(s.delay, rate) ==>
              && t.delay == (if InvalidRate(rate) then Num(DEFAULT_REFRESH) else rate)
              && !InvalidRate(t.delay) && t.refreshRate == t.delay
              && t.timer.Some? && t.timer.value.periodMs == Times(t.delay, 1000.0)
              && t.inFlight == (if s.fetching then s.inFlight else s.inFlight + 1)
              && t.fetching
              && Invocations(t.effects) == Invocations(s.effects)
                   + (if s.fetching then [] else [RunnerArgs(s.domain, Hash(env), Plus(t.delay, 2.0))])
    ensures TimerInv(s) ==> TimerInv(t)
    ensures t.stats == s.stats && t.marker == s.marker && t.caption == s.caption && t.domain == s.domain
    ensures t.isPublic == s.isPublic
  {
    if !StrictlyDiffers(s.delay, rate) then s.(refreshRate := rate)
    else
      var applied := if InvalidRate(rate) then Num(DEFAULT_REFRESH) else rate;
      var s1 := s.(delay := applied, refreshRate := applied);
      StartTimer(StopTimer(UpdateStats(s1, env)))
  }

  /**
   * The first steps of `load`: free the lock, derive the domain, read the
   * rate, show "n/a"; nothing else changes.
   */
  function LoadReset(s: EngineState, env: Env): (t: EngineState)
    ensures !t.fetching && t.delay == s.refreshRate && t.caption == Some(UNAVAILABLE)
    ensures t.domain.Some? && EndsWith(env.hostname, t.domain.value)
    ensures t.(fetching := s.fetching, domain := s.domain, delay := s.delay, caption := s.caption) == s
  {
    s.(fetching := false,
       domain := Some(StripDomain(env.hostname)),
       delay := s.refreshRate,
       caption := Some(UNAVAILABLE))
  }

  /**
   * `load`: the reset above, then the install gate below. The domain and the
   * delay it leaves are stated here; what it promises about the lock, the
   * runner and the timer is stated by LoadOutcome.
   */
  function Load(s: EngineState, env: Env, install: InstallOutcome): (t: EngineState)
    ensures t.domain == Some(StripDomain(env.hostname)) && t.delay == s.refreshRate
  {
    var r := LoadReset(s, env);
    InstallGateOutcome(r, env, install);
    InstallGate(r, env, install)
  }

  /**
   * The rest of `load`: when the marker asks for it, install the helper
   * script with the lock held, and refresh and start the timer only once the
   * write and the chmod have both succeeded; otherwise refresh and start the
   * timer straight away.
   */
  function InstallGate(s: EngineState, env: Env, install: InstallOutcome): EngineState {
    if NeedsInstall(s.marker) then
      match install
      case InstallFailed(step) => s.(fetching := true, effects := s.effects + [ConsoleError(step)])
      case Installed => StartTimer(UpdateStats(s.(marker := Num(INFO_VER), fetching := false), env))
    else
      StartTimer(UpdateStats(s, env))
  }

  /**
   * The install gate keeps the snapshot, caption, domain and delay. A needed
   * install that fails holds the lock and starts neither the runner nor a
   * timer; otherwise, with the lock free, the marker no longer asks for an
   * install, one runner call is made and a timer runs.
   */
  lemma InstallGateOutcome(s: EngineState, env: Env, install: InstallOutcome)
    ensures var t := InstallGate(s, env, install);
      && t.domain == s.domain && t.delay == s.delay && t.stats == s.stats && t.caption == s.caption
      && t.isPublic == s.isPublic && t.refreshRate == s.refreshRate
      && (NeedsInstall(s.marker) && install.InstallFailed? ==>
            && t.fetching && t.marker == s.marker && t.timer == s.timer
            && t.inFlight == s.inFlight
            && t.effects == s.effects + [ConsoleError(install.step)])
      && (!s.fetching && (!NeedsInstall(s.marker) || install.Installed?) ==>
            && t.fetching && t.timer.Some? && !NeedsInstall(t.marker)
            && t.inFlight == s.inFlight + 1
            && Invocations(t.effects) == Invocations(s.effects) + [RunnerArgs(s.domain, Hash(env), Plus(s.delay, 2.0))])
      && (NeedsInstall(s.marker) && install.Installed? ==> t.marker == Num(INFO_VER))
      && (!NeedsInstall(s.marker) ==> t.marker == s.marker)
      && (TimerInv(s) ==> TimerInv(t))
  {
  }

  /**
   * After load the domain is the stripped hostname and the delay the stored
   * rate. A needed install that fails holds the lock and starts neither the
   * runner nor a timer; otherwise the marker no longer asks for an install,
   * one runner call is made with the new domain and a timer runs.
   */
  lemma LoadOutcome(s: EngineState, env: Env, install: InstallOutcome)
    ensures var t := Load(s, env, install);
      && t.domain == Some(StripDomain(env.hostname))
      && t.delay == s.refreshRate && t.stats == s.stats && t.caption == Some(UNAVAILABLE)
      && t.isPublic == s.isPublic && t.refreshRate == s.refreshRate
      && (NeedsInstall(s.marker) && install.InstallFailed? ==>
            && t.fetching && t.marker == s.marker && t.timer == s.timer
            && t.inFlight == s.inFlight
            && t.effects == s.effects + [ConsoleError(install.step)])
      && (!NeedsInstall(s.marker) || install.Installed? ==>
            && t.fetching && t.timer.Some? && !NeedsInstall(t.marker)
            && t.inFlight == s.inFlight + 1
            && Invocations(t.effects) == Invocations(s.effects) + [RunnerArgs(t.domain, Hash(env), Plus(t.delay, 2.0))])
      && (NeedsInstall(s.marker) && install.Installed? ==> t.marker == Num(INFO_VER))
      && (!NeedsInstall(s.marker) ==> t.marker == s.marker)
      && (TimerInv(s) ==> TimerInv(t))
  {
    InstallGateOutcome(LoadReset(s, env), env, install);
  }

  /**
   * A rate change that takes effect logs exactly what its refresh logs: the
   * shared-status request when hosted, then the runner call with the new
   * delay; a rate equal to the delay, or a held lock, logs nothing.
   */
  lemma OnRefreshRateEffects(s: EngineState, env: Env, rate: Number)
    ensures var t := OnRefreshRate(s, env, rate);
      && (StrictlyDiffers(s.delay, rate) && !s.fetching ==>
            t.effects == s.effects + (if env.hosted then [RequestSharedStatus] else [])
                           + [ExecInfo50(RunnerArgs(s.domain, Hash(env), Plus(t.delay, 2.0)))])
      && (!StrictlyDiffers(s.delay, rate) || s.fetching ==> t.effects == s.effects)
  {
  }

  /**
   * A load that reaches the refresh logs exactly the shared-status request
   * when hosted, then the runner call with the stripped domain and the stored
   * rate plus two; nothing else.
   */
  lemma LoadEffects(s: EngineState, env: Env, install: InstallOutcome)
    ensures var t := Load(s, env, install);
      !NeedsInstall(s.marker) || install.Installed? ==>
        t.effects == s.effects + (if env.hosted then [RequestSharedStatus] else [])
                       + [ExecInfo50(RunnerArgs(t.domain, Hash(env), Plus(t.delay, 2.0)))]
  {
    if !NeedsInstall(s.marker) || install.Installed? {
      var r := LoadReset(s, env);
      var r1 := if NeedsInstall(r.marker) then r.(marker := Num(INFO_VER), fetching := false) else r;
      UpdateStatsEffects(r1, env);
      assert InstallGate(r, env, install) == StartTimer(UpdateStats(r1, env));
      assert Load(s, env, install) == StartTimer(UpdateStats(r1, env));
    }
  }

  /**
   * The unload handler: stop the timer and forget everything. A runner call
   * still in flight is not cancelled.
   */
  function Unload(s: EngineState): (t: EngineState)
    ensures !t.fetching && t.timer.None? && t.stats.None? && t.domain.None? && t.caption.None?
    ensures t.delay == Num(DEFAULT_REFRESH)
    ensures t.liveTimers == s.liveTimers - TimerIds(s.timer)
    ensures TimerInv(s) ==> TimerInv(t) && t.liveTimers == {}
    ensures t.inFlight == s.inFlight && t.effects == s.effects
    ensures t.marker == s.marker && t.refreshRate == s.refreshRate && t.isPublic == s.isPublic
  {
    StopTimer(s).(delay := Num(DEFAULT_REFRESH), timer := None, caption := None,
                  fetching := false, stats := None, domain := None)
  }

  /**
   * The completion of `fetchSharedStatus`: when the project API answered
   * and this user owns the project, store whether it is public.
   */
  function OnSharedStatus(s: EngineState, env: Env, response: ProjectResponse): (t: EngineState)
    ensures response.ApiError? || response.ownerId != env.myUserId ==> t == s
    ensures response.Project? && response.ownerId == env.myUserId ==>
              t.isPublic == (response.visibility == "public" || response.appAccess == "public")
    ensures t.(isPublic := s.isPublic) == s
  {
    if response.ApiError? || env.myUserId != response.ownerId then s
    else s.(isPublic := response.visibility == "public" || response.appAccess == "public")
  }
}
