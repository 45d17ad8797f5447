# Status engine of the CS50 IDE info plugin, in Dafny

The `harvard.cs50.info` plugin polls a helper script, `~/bin/.info50`, and
keeps the last status snapshot it printed. The plugin shows the snapshot's
version as a button caption and answers whether this client may preview the
served content. This project models the engine behind that, in `info.js`:

- the single-flight lock `fetching` around `updateStats`;
- the result handler `parseStats`, which sorts runner errors into disconnect,
  missing or unexecutable script, and anything else;
- the version-marker gate that reinstalls the helper script at load;
- the repeating timer, with `startTimer` and `stopTimer`;
- the refresh-rate settings handler;
- the unload reset;
- the pure parts: the domain derived from the hostname, `canPreview`, and the
  `host` and `hasLoaded` getters.

Files:

- `values.dfy` (module `Values`): JavaScript numbers with their NaN case, the
  snapshot, runner results, error classes, the session environment, outside
  effects.
- `access.dfy` (module `Access`): the domain strip, the hostname part of
  `host`, `canPreview`, and the getters.
- `transitions.dfy` (module `Transitions`): the engine state as a value. Each
  handler has a function giving its new state from the old one. What the
  plugin promises is stated by that function's `ensures` or, for `load` and
  its install gate, by the lemmas `LoadOutcome` and `InstallGateOutcome`.
- `sessions.dfy` (module `Sessions`): event sequences between load and
  unload. Single-flight, dropped triggers and the fixed domain are proved by
  induction over them.
- `engine.dfy` (module `Plugin`): class `Engine`. Its fields are the plugin's
  module-level variables and its methods update them in place. Each handler
  method is proved to give `State() == Transitions.X(old(State()), …)`;
  `SetCaption` instead states the caption it leaves and that no other field
  changes. The file ends with four short caller methods (`InstallThenTrigger`,
  `RefreshCycle`, `ScriptMissing`, `InvalidRateThenUnload`). They are usage
  examples, not models of source lines; the `host`, `hasLoaded` and
  `canPreview` getters are asserted in them.

Calls to the outside world are recorded, not performed. The model keeps a
ghost log of effects: runner invocations with their arguments, project-API
requests, console lines. It also tracks the intervals registered with the
browser and the runner calls not yet called back. Answers from outside are
method parameters: the runner's result, the install outcome, the project
API's response and the new refresh rate.

Two behaviours of the code worth knowing:

- The domain strip drops the first four characters whenever the first three
  are "ide", not only an "ide." label, so "idea.example.com" becomes
  ".example.com" (`Access.StripDomainExamples`).
- The rate handler refreshes first, then stops and starts the timer.

## Model

| member | source | states |
|---|---|---|
| Values.Classify | info.js:323-333 | "EDISCONNECT", "ENOENT" and "EACCES" each map to their own class, and only they do; any other code, or none, is Other |
| Values.ErrorMessage | info.js:35-37 | the filled-in template opens with "Could not", the action and the file; then ". Try chmod <code> <dir>, chmod <code> <file>"; and closes with ", then reload the page!"; its length is exactly that of the three parts, so nothing else is in it |
| Values.AccessDiagnostic | info.js:244-249 | the diagnostic opens with "Could not access ~/bin/.info50", advises "chmod 755" on "~/bin/" and on "~/bin/.info50", and closes by asking for a reload; nothing else is in it |
| Values.Hash | info.js:301-304 | the client token is the user id, a dash, then the client id |
| Access.StripDomain | info.js:68-73 | the domain is a suffix of the hostname; it is the hostname itself unless the hostname starts with "ide", in which case four characters are gone ("ide" alone gives "") |
| Access.StripDomainExamples | info.js:71-73 | "ide.cs50.io" gives "cs50.io"; "cs50.io" is kept; "idea.example.com" loses its fourth character too |
| Access.EndsWithIffSuffix | info.js:397-398 | `endsWith` holds exactly when the string is some prefix followed by the suffix |
| Access.HostPart | info.js:394 | `split(":", 1)[0]` is the longest colon-free prefix: a prefix with no ':' that is the whole string or is followed by ':' |
| Access.HostPartIgnoresPort | info.js:390-394 | for a colon-free name, appending ":port" does not change the hostname part |
| Access.CanPreview | info.js:383-399 | always true outside hosted mode or for a public project; false in hosted private mode without a string `host`; when true otherwise, the hostname part ends with the domain or ("c9.io" only) with "c9users.io" |
| Access.CanPreviewPrivateHost | info.js:390-398 | in hosted private mode with a colon-free host name, optionally with a port, preview is granted iff the name ends with the domain, or the domain is "c9.io" and the name ends with "c9users.io" |
| Access.CanPreviewIsSuffixTrust | info.js:390-398 | in hosted private mode, preview is granted iff the host (port removed) is some prefix followed by the domain, or the domain is "c9.io" and the host is some prefix followed by "c9users.io" |
| Access.CanPreviewSubdomain | info.js:394-398 | "sub.example.io" and "sub.example.io:8080" may preview on "example.io" |
| Access.CanPreviewRejectsLookalike | info.js:397-398 | "example.io.evil.com" may not preview on "example.io" |
| Access.Host | info.js:439 | once a snapshot is loaded `host` is its `host` value (None when the key is missing); before that it is null |
| Access.HasLoaded | info.js:444 | `hasLoaded` holds exactly when there is a snapshot |
| Access.CanPreviewC9Users | info.js:396-397 | "foo.c9users.io" may preview on "c9.io" |
| Transitions.Invocations | info.js:310-313 | the runner invocations among the effects are no more numerous than the effects, and each is one of them |
| Transitions.InvocationsContent | info.js:310-313 | an argument list is among the invocations iff a runner call with it is among the effects |
| Transitions.InvocationsAppend | info.js:310-313 | the invocations of two effect logs joined are the invocations of each, joined |
| Transitions.NeedsInstall | info.js:193 | an unset marker and the 0 that rewrite stores ask for an install; the current revision does not |
| Transitions.ShowCaption | info.js:334-342 | `setCaption` on an existing button shows the text; with the button gone (after unload) the caption stays absent |
| Transitions.Initial | info.js:53-62 | before load the lock is free, there is no timer, snapshot, domain or button, and nothing has run |
| Transitions.StartTimer | info.js:266-270 | a timer exists afterwards; an existing one is kept unchanged; a new one has period delay×1000 ms and a fresh id, and exactly one interval is then registered |
| Transitions.StopTimer | info.js:256-261 | no timer exists afterwards; with none before nothing changes; the cleared interval is unregistered, so none is left |
| Transitions.TimerIdempotent | info.js:256-270 | starting twice is starting once; stopping twice is stopping once |
| Transitions.UpdateStats | info.js:290-314 | with the lock held nothing changes; otherwise the lock is taken and exactly one runner call is added, with the domain, the client token and delay+2; a shared-status request is added iff hosted; no field other than the lock, the in-flight count and the log changes |
| Transitions.UpdateStatsEffects | info.js:296-313 | a refresh logs exactly the shared-status request when hosted, then the runner call, and nothing else |
| Transitions.Rewrite | info.js:243-251 | the marker becomes 0, which asks for a reinstall; the chmod diagnostic is logged; nothing else changes |
| Transitions.ParseStats | info.js:319-343 | the lock is free on every path; no error and no malformed output changes the snapshot; a disconnect changes neither marker, caption nor log; other errors set the marker to 0 and show "n/a", with the diagnostic only for ENOENT/EACCES; a parsed record replaces the snapshot, so hasLoaded holds, `host` is its host and the caption is its version |
| Transitions.OnRefreshRate | info.js:88-104 | a rate equal to the delay changes nothing but the stored setting; otherwise the delay becomes the rate, or 30 (also stored) when it is NaN or below 1; then one refresh is attempted and a timer with the new period is running; the snapshot, marker, caption, domain and public flag are untouched |
| Transitions.OnRefreshRateEffects | info.js:88-104 | a rate change that takes effect with the lock free logs exactly the hosted shared-status request and the runner call with the new delay; otherwise nothing is logged |
| Transitions.LoadReset | info.js:64-136 | load frees the lock, shows "n/a", takes the stored rate as the delay and a suffix of the hostname as the domain; no other field changes |
| Transitions.Load | info.js:64-218 | after load the domain is the stripped hostname and the delay the stored rate |
| Transitions.InstallGate | info.js:189-218 | the install gate of load as a state function; its promises are stated by Transitions.InstallGateOutcome |
| Transitions.InstallGateOutcome | info.js:189-218 | a needed install that fails holds the lock with no runner call and no new timer; otherwise, with the lock free, the marker no longer asks for an install, one runner call is made with the domain, the client token and delay+2, and a timer runs; the public flag and the stored rate are untouched |
| Transitions.LoadOutcome | info.js:64-218 | the domain is the stripped hostname and the delay the stored rate; a needed install that fails keeps the lock held with no runner call and no timer started; otherwise the marker no longer asks for an install, one runner call is made and a timer runs; the public flag and the stored rate are untouched |
| Transitions.LoadEffects | info.js:64-218 | a load that reaches the refresh logs exactly the hosted shared-status request and the runner call with the stripped domain and the stored rate plus two |
| Transitions.Unload | info.js:407-417 | the timer is stopped and unregistered, lock, snapshot, domain and button are cleared, the delay is 30; the marker, settings, log and in-flight calls are untouched |
| Transitions.OnSharedStatus | info.js:275-285 | an API error or another owner changes nothing; for the owner the public flag becomes "visibility or appAccess is public" |
| Sessions.StepKeepsSessionInv | info.js:290-343 | every tick, completion, rate change or API answer keeps: at most one runner call outstanding, the lock held while one is, and only the handle's interval registered |
| Sessions.LoadEstablishesSessionInv | info.js:64-218 | loading a freshly evaluated plugin establishes that invariant |
| Sessions.SingleFlight | info.js:290-321 | over any sequence of events, at most one runner call is ever outstanding |
| Sessions.RunsBoundedByCompletions | info.js:290-321 | over any sequence of events, the runner is started at most once more than it has called back |
| Sessions.LockHeldWithoutCompletion | info.js:290-293 | while the lock is held and no completion arrives, ticks and rate changes start no runner call and the lock stays held |
| Sessions.DroppedTriggers | info.js:290-293 | any number of triggers while a fetch is outstanding leave the state exactly as it was |
| Sessions.FailedInstallStallsFetching | info.js:195-210 | with the lock held and nothing in flight (a failed install), no event sequence ever starts the runner |
| Sessions.FailedInstallHoldsLock | info.js:193-210 | a needed install that fails leaves the lock held with nothing in flight |
| Sessions.DomainFixed | info.js:68-73 | no event of a session changes the domain |
| Sessions.RunnerArgsAfterLoad | info.js:301-311 | at any point after load, whatever events came between, a trigger arriving while the lock is free makes a runner call with the stripped hostname, userId-clientId and delay+2 (the calls made by load and by a rate change are stated by Transitions.LoadOutcome and Transitions.OnRefreshRate) |
| Sessions.ReinstallAfterInstallError | info.js:323-335 | ENOENT or EACCES resets the marker and logs the diagnostic; the next load reinstalls (marker back to the current revision) or, if that fails, holds the lock without fetching |
| Sessions.DisconnectIsSilent | info.js:324-327 | a disconnect changes neither the snapshot, the marker, the caption nor the log, and frees the lock |
| Sessions.SnapshotSurvivesFailure | info.js:323-342 | after a success and then any error, the snapshot is still the one parsed, hasLoaded holds and `host` is its host |
| Sessions.RateWriteBackIsNoop | info.js:88-97 | delivering the written-back rate again changes nothing |
| Sessions.ReloadCanOverlapRuns | info.js:407-417 | unload does not cancel a runner call, so after a reload two calls can be outstanding |
| Plugin.Engine.constructor | info.js:53-62 | the object starts in the initial state with the stored settings |
| Plugin.Engine.StartTimer | info.js:266-270 | the fields change as Transitions.StartTimer says |
| Plugin.Engine.StopTimer | info.js:256-261 | the fields change as Transitions.StopTimer says |
| Plugin.Engine.UpdateStats | info.js:290-314 | the fields change as Transitions.UpdateStats says |
| Plugin.Engine.Rewrite | info.js:243-251 | the fields change as Transitions.Rewrite says |
| Plugin.Engine.SetCaption | info.js:334-342 | the caption changes only while the button exists; nothing else changes |
| Plugin.Engine.ParseStats | info.js:319-343 | the fields change as Transitions.ParseStats says |
| Plugin.Engine.OnRefreshRate | info.js:88-104 | the fields change as Transitions.OnRefreshRate says |
| Plugin.Engine.ResetForLoad | info.js:64-136 | the fields change as Transitions.LoadReset says: lock free, domain stripped, delay the stored rate, caption "n/a" |
| Plugin.Engine.RefreshAndStartTimer | info.js:213-217 | the fields change as a refresh followed by a timer start says |
| Plugin.Engine.InstallGate | info.js:189-218 | the fields change as Transitions.InstallGate says |
| Plugin.Engine.Load | info.js:64-218 | the fields change as Transitions.Load says |
| Plugin.Engine.Unload | info.js:407-417 | the fields change as Transitions.Unload says |
| Plugin.Engine.OnSharedStatus | info.js:275-285 | the fields change as Transitions.OnSharedStatus says |
| Plugin.Engine.CanPreview | info.js:434 | the getter grants preview outside hosted mode and for public projects, and refuses it in hosted private mode without a string `host` |
| Plugin.Engine.Host | info.js:439 | the getter is null before a snapshot and the snapshot's `host` after |
| Plugin.Engine.HasLoaded | info.js:444 | the getter holds exactly when there is a snapshot |

## Left out

- User interface. Not modelled: the dialog, the creation and placement of the
  version button, menu items, the preferences pane, the `showing` flag and
  `versionVisibile`. The button appears only as its caption; the caption is
  `None` once unload has dropped the button.
- `displayWebServer`, `openPHPMyAdmin` and `loadHost` are left out because
  they only call `window.open`. They read `stats.host` even when `stats` is
  null after `rewrite`, so they would throw there.
- Writing and chmod-ing the helper script is file I/O. Only its outcome is
  modelled, as a parameter of `Load`. Events arriving between the start of
  the install and its callbacks are not modelled: `Load` runs to the end of
  the install.
- The project API call is recorded as an effect. Its answer is a separate
  call, `OnSharedStatus`. When in the session that answer arrives is not
  constrained.
- `JSON.parse` and the lodash templates are library code. The parsed
  snapshot is an input value. Output that is JSON but not an object (null, a
  number) is not modelled, and `version` is taken to be text. The diagnostic
  text is the template filled in by string concatenation.
- Real time is not modelled. The timer is a handle with an id and a period,
  and its firing is a `Tick` event in `Sessions`.
- Numbers are finite reals or NaN; Infinity is not modelled. A refresh rate
  delivered as something other than a number is not modelled either; in
  JavaScript a string rate would be concatenated into the buffer argument.
- `settings.setDefaults` and the registration of listeners and commands are
  wiring. The stored settings are constructor inputs.
- The write-back of the default rate fires the settings listener again. That
  second delivery is a separate event, and `Sessions.RateWriteBackIsNoop`
  shows it changes nothing.
- `setCaption` on a null button throws. The model keeps the caption `None`
  and does not model the exception itself.
- A `ParseStats` call with no runner call outstanding is kept out of
  sessions: `Sessions.Step` does not deliver it.
