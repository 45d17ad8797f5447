/**
 * The plugin's module-level variables as one object, and its handlers as
 * methods that update them in place. Each method is proved to produce the
 * state the matching function of module Transitions gives, so every
 * property proved there holds of the object.
 */
module Plugin {
  import opened Values
  import opened Access
  import opened Transitions

  class Engine {
    /** The IDE session: hostname, hosted mode, user and client ids. */
    const env: Env

    var fetching: bool
    var timer: Option<Interval>
    var delay: Number
    var stats: Option<Stats>
    var marker: Number
    var refreshRate: Number
    var isPublic: bool
    var caption: Option<string>
    var domain: Option<string>
    /** The next id `window.setInterval` hands out. */
    var nextTimerId: nat

    /** Intervals registered with the browser. */
    ghost var liveTimers: set<nat>
    /** Runner calls not yet called back. */
    ghost var inFlight: nat
    /** Outside effects so far, oldest first. */
    ghost var effects: seq<Effect>

    /** The object's fields as a value of the specification. */
    ghost function State(): EngineState
      reads this
    {
      EngineState(fetching, timer, delay, stats, marker, refreshRate, isPublic,
                  caption, domain, nextTimerId, liveTimers, inFlight, effects)
    }

    /** The plugin module evaluated, with the three settings as stored. */
    constructor (env: Env, marker: Number, refreshRate: Number, isPublic: bool)
      ensures this.env == env
      ensures State() == Initial(marker, refreshRate, isPublic)
    {
      this.env := env;
      fetching := false;
      timer := None;
      delay := NaN;
      stats := None;
      this.marker := marker;
      this.refreshRate := refreshRate;
      this.isPublic := isPublic;
      caption := None;
      domain := None;
      nextTimerId := 0;
      liveTimers := {};
      inFlight := 0;
      effects := [];
    }

    method StartTimer()
      modifies this
      ensures State() == Transitions.StartTimer(old(State()))
    {
      if timer.Some? {
        return;
      }
      timer := Some(Interval(nextTimerId, Times(delay, 1000.0)));
      liveTimers := liveTimers + {nextTimerId};
      nextTimerId := nextTimerId + 1;
    }

    method StopTimer()
      modifies this
      ensures State() == Transitions.StopTimer(old(State()))
    {
      if timer.None? {
        return;
      }
      liveTimers := liveTimers - {timer.value.id};
      timer := None;
    }

    method UpdateStats()
      modifies this
      ensures State() == Transitions.UpdateStats(old(State()), env)
    {
      if fetching {
        return;
      }
      fetching := true;
      if env.hosted {
        effects := effects + [RequestSharedStatus];
      }
      var hash := env.myUserId + "-" + env.myClientId;
      var buffer := Plus(delay, 2.0);
      effects := effects + [ExecInfo50(RunnerArgs(domain, hash, buffer))];
      inFlight := inFlight + 1;
    }

    method Rewrite()
      modifies this
      ensures State() == Transitions.Rewrite(old(State()))
    {
      effects := effects + [ConsoleLog(AccessDiagnostic())];
      marker := Num(0.0);
    }

    method SetCaption(text: string)
      modifies this
      ensures caption == ShowCaption(old(caption), text)
      ensures State() == old(State()).(caption := caption)
    {
      if caption.Some? {
        caption := Some(text);
      }
    }

    method ParseStats(result: RunnerResult)
      modifies this
      ensures State() == Transitions.ParseStats(old(State()), result)
    {
      fetching := false;
      if inFlight > 0 {
        inFlight := inFlight - 1;
      }
      match result {
        case Failed(code) =>
          var kind := Classify(code);
          if kind == Disconnect {
            return;
          } else if kind == NotFound || kind == Access {
            Rewrite();
          } else {
            marker := Num(0.0);
          }
          SetCaption(UNAVAILABLE);
        case Output(Malformed) =>
          return;
        case Output(Parsed(parsed)) =>
          stats := Some(parsed);
          SetCaption(parsed.version);
      }
    }

    method OnRefreshRate(rate: Number)
      modifies this
      ensures State() == Transitions.OnRefreshRate(old(State()), env, rate)
    {
      refreshRate := rate;
      if StrictlyDiffers(delay, rate) {
        if InvalidRate(rate) {
          delay := Num(DEFAULT_REFRESH);
          refreshRate := delay;
        } else {
          delay := rate;
        }
        UpdateStats();
        StopTimer();
        StartTimer();
      }
    }

    /** The tail of `load` and of the install callback: fetch data, then start the timer. */
    method RefreshAndStartTimer()
      modifies this
      ensures State() == Transitions.StartTimer(Transitions.UpdateStats(old(State()), env))
    {
      UpdateStats();
      StartTimer();
    }

    /** The first steps of `load`, before the version marker is consulted. */
    method ResetForLoad()
      modifies this
      ensures State() == Transitions.LoadReset(old(State()), env)
    {
      fetching := false;
      domain := Some(StripDomain(env.hostname));
      delay := refreshRate;
      caption := Some(UNAVAILABLE);
    }

    /** The install gate of `load`, with the install's outcome given. */
    method InstallGate(install: InstallOutcome)
      modifies this
      ensures State() == Transitions.InstallGate(old(State()), env, install)
    {
      if NeedsInstall(marker) {
        fetching := true;
        match install {
          case InstallFailed(step) =>
            effects := effects + [ConsoleError(step)];
          case Installed =>
            marker := Num(INFO_VER);
            fetching := false;
            RefreshAndStartTimer();
        }
      } else {
        RefreshAndStartTimer();
      }
    }

    method Load(install: InstallOutcome)
      modifies this
      ensures State() == Transitions.Load(old(State()), env, install)
    {
      ResetForLoad();
      InstallGate(install);
    }

    method Unload()
      modifies this
      ensures State() == Transitions.Unload(old(State()))
    {
      StopTimer();
      delay := Num(DEFAULT_REFRESH);
      timer := None;
      caption := None;
      fetching := false;
      stats := None;
      domain := None;
    }

    method OnSharedStatus(response: ProjectResponse)
      modifies this
      ensures State() == Transitions.OnSharedStatus(old(State()), env, response)
    {
      if response.ApiError? || env.myUserId != response.ownerId {
        return;
      }
      isPublic := response.visibility == "public" || response.appAccess == "public";
    }

    /** The `canPreview` getter. */
    predicate CanPreview(): (b: bool)
      reads this
      ensures !env.hosted || isPublic ==> b
      ensures env.hosted && !isPublic && !HasStringHost(stats) ==> !b
    {
      Access.CanPreview(env.hosted, isPublic, stats, domain)
    }

    /** The `host` getter. */
    function Host(): (h: Option<HostValue>)
      reads this
      ensures stats == None ==> h == None
      ensures stats != None ==> h == stats.value.host
    {
      Access.Host(stats)
    }

    /** The `hasLoaded` getter. */
    predicate HasLoaded(): (b: bool)
      reads this
      ensures b <==> stats != None
    {
      Access.HasLoaded(stats)
    }
  }

  /** A caller's view: a load that installs the script, then a trigger it drops. */
  method InstallThenTrigger(env: Env)
  {
    var e := new Engine(env, Num(0.0), Num(45.0), false);
    LoadOutcome(e.State(), env, Installed);
    e.Load(Installed);
    assert e.fetching && e.timer.Some? && e.marker == Num(INFO_VER) && e.inFlight == 1;
    e.UpdateStats();
    assert e.inFlight == 1;
  }

  /** A caller's view: a load, then the runner's output arrives. */
  method RefreshCycle(env: Env, st: Stats)
  {
    var e := new Engine(env, Num(INFO_VER), Num(45.0), false);
    LoadOutcome(e.State(), env, Installed);
    e.Load(Installed);
    e.ParseStats(Output(Parsed(st)));
    assert !e.fetching && e.HasLoaded() && e.Host() == st.host;
  }

  /** A caller's view: the runner reports the script missing. */
  method ScriptMissing(env: Env)
  {
    var e := new Engine(env, Num(INFO_VER), Num(45.0), false);
    LoadOutcome(e.State(), env, Installed);
    e.Load(Installed);
    e.ParseStats(Failed(Some("ENOENT")));
    assert !e.fetching && e.caption == Some(UNAVAILABLE) && NeedsInstall(e.marker);
    assert !env.hosted ==> e.CanPreview();
  }

  /** A caller's view: an invalid refresh rate, then unload. */
  method InvalidRateThenUnload(env: Env)
  {
    var e := new Engine(env, Num(INFO_VER), Num(45.0), false);
    LoadOutcome(e.State(), env, Installed);
    e.Load(Installed);
    e.OnRefreshRate(Num(0.0));
    assert e.delay == Num(DEFAULT_REFRESH) && e.refreshRate == Num(DEFAULT_REFRESH);
    assert e.timer.Some? && e.timer.value.periodMs == Num(30000.0);
    e.Unload();
    assert e.timer.None? && !e.HasLoaded() && e.liveTimers == {};
  }
}
