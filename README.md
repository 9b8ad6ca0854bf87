# Auto character rendering and auto lock action bars: a verified model

This project models the decision logic of two tweaks of a game-client plugin
framework.

* **Auto Character Rendering** (`Tweaks/AutoCharaRender.cs`). Every ten seconds
  a timer tick does four things:
  - It reads the game setting `DisplayObjectLimitType`, a `uint` whose levels
    0..4 range from "render the most characters" to "render the fewest".
  - It measures GPU usage as the sum of the "Utilization Percentage" counters
    of every "GPU Engine" instance whose name ends with `engtype_3D`.
  - It reads the frame rate at most once in the step-down test and at most
    once in the step-up test, each time only when the test gets as far as the
    frame rate comparison (the log lines read it again). The model takes one
    free sample per test.
  - It moves the setting by at most one level. It steps down (setting + 1)
    when the setting is below 4 and usage is above 80 or the frame rate is
    below 0.8 times the target. Otherwise it steps up (setting − 1) when the
    setting is above 0, usage is below 80 and the frame rate is above 0.95
    times the target.

  `Enable` attaches the tick handler, sets the interval to 10000 ms and starts
  the timer. `Disable` only stops the timer.
* **Auto Lock Action Bars** (`Tweaks/AutoLockHotbar.cs`). When combat starts or
  the zone changes, it sends a lock callback to the main action bar. It sends
  one to the cross hotbar too when that option is on. `Enable` and `Disable`
  subscribe and unsubscribe the condition-change handler.

Modules:
- `GpuCounters` (`gpu_counters.dfy`) models `Utils.GetCounters` as its three-stage
  query, plus the sum of the readings.
- `AutoCharaRender` (`auto_chara_render.dfy`) has three parts:
  - the decision as pure functions (`Decide`, `Next`, `Writes`);
  - the game's configuration store as a class `GameConfig`, with a log of the
    values written;
  - the tweak as a class `CharaRendering`, whose timer state (`interval`,
    `running`, number of attached `handlers`) its methods update.
- `AutoLock` (`auto_lock.dfy`) models the handlers as pure functions. Each one
  maps the configuration, the set of UI addons the host can find and the event
  to the list of callbacks that would be sent, in order. A class
  `AutoLockHotbar` counts subscriptions.

Three behaviours of the code worth noting:
- GPU usage is the **sum** of the engine readings, not an average. Two 3D
  engines at 60 percent each give 120, above 100 and above the step-down
  limit of 80 (`TwoEnginesAdd`).
- A failed read of the setting does **not** skip the tick. The success flag of
  `TryGet` is ignored, and the decision runs on whatever value was read.
- `Disable` does not detach the handler. After Enable, Disable, Enable, two
  handlers are attached, so each interval runs the tick twice
  (`ReEnableAttachesTwice`).

## Model

| member | source | states |
|---|---|---|
| `GpuCounters.Where3DEngine` | Tweaks/AutoCharaRender.cs:84 | an instance is kept exactly when its name ends with `engtype_3D`; the result is never longer than the input |
| `GpuCounters.Where3DEngineCounts` | Tweaks/AutoCharaRender.cs:84 | every 3D-engine instance is kept as often as it occurs in the input, and no other instance is kept |
| `GpuCounters.SelectManyCounters` | Tweaks/AutoCharaRender.cs:85 | a counter is in the result exactly when it belongs to one of the given instances |
| `GpuCounters.SelectManyCountersAppend` | Tweaks/AutoCharaRender.cs:85 | selecting over two concatenated instance lists gives the concatenation of the two selections, in order |
| `GpuCounters.WhereUtilization` | Tweaks/AutoCharaRender.cs:86 | a counter is kept exactly when it is named "Utilization Percentage"; the result is never longer than the input |
| `GpuCounters.WhereUtilizationCounts` | Tweaks/AutoCharaRender.cs:86 | every utilization counter is kept as often as it occurs in the input, and no other counter is kept |
| `GpuCounters.WhereUtilizationAppend` | Tweaks/AutoCharaRender.cs:86 | filtering two concatenated lists gives the concatenation of the two filtered lists, in order |
| `GpuCounters.GetCounters` | Tweaks/AutoCharaRender.cs:79-89 | a counter is selected exactly when its instance name ends with `engtype_3D` and its name is "Utilization Percentage" |
| `GpuCounters.GpuUsage` | Tweaks/AutoCharaRender.cs:100 | the sum of the readings: 0 for no counters, non-negative when every reading is |
| `GpuCounters.GpuUsageOfUtilization` | Tweaks/AutoCharaRender.cs:86-100 | the sum over the filtered counters equals the sum of the utilization readings of the input, each counted once per occurrence |
| `GpuCounters.GetCountersUsage` | Tweaks/AutoCharaRender.cs:83-100 | for every input, the usage summed over the selected counters equals the utilization readings of every 3D-engine instance added up engine by engine (reference definition `EngineUsage`) |
| `GpuCounters.GpuUsageAppend` | Tweaks/AutoCharaRender.cs:112 | usage over two lists of counters is the sum of their usages (readings are added, not averaged) |
| `GpuCounters.GpuUsageAtLeastEach` | Tweaks/AutoCharaRender.cs:100 | with non-negative readings, usage is at least the reading of every single engine |
| `GpuCounters.TwoEnginesAdd` | Tweaks/AutoCharaRender.cs:83-100 | two 3D engines at 60 percent give a usage of 120 |
| `GpuCounters.NoEnginesMeansIdle` | Tweaks/AutoCharaRender.cs:83-87 | when no instance is a 3D engine, usage is 0 |
| `AutoCharaRender.Decide` | Tweaks/AutoCharaRender.cs:60-68 | step-down only below level 4; step-up only above level 0, with usage below 80, and never when the step-down condition (usage above 80 or the first frame rate below 0.8 × target) holds below level 4 |
| `AutoCharaRender.Next` | Tweaks/AutoCharaRender.cs:60-68 | a step-down gives old + 1 and a step-up old − 1; the new setting is old − 1, old or old + 1; it stays at most 4 when it started so; no step-down at 4, no step-up at 0; usage of exactly 80 never steps up; it changes exactly when the decision is not Hold |
| `AutoCharaRender.Writes` | Tweaks/AutoCharaRender.cs:63-67 | a tick writes at most one value: none when the setting does not change, otherwise the new setting |
| `AutoCharaRender.StepDownExactly` | Tweaks/AutoCharaRender.cs:60 | step-down happens exactly when old < 4 and (usage > 80 or the first frame rate < 0.8 × target) |
| `AutoCharaRender.StepUpExactly` | Tweaks/AutoCharaRender.cs:64 | step-up happens exactly when step-down does not, old > 0, usage < 80 and the second frame rate > 0.95 × target |
| `AutoCharaRender.StepDownPriority` | Tweaks/AutoCharaRender.cs:60-64 | when step-down applies, the setting goes up by one whatever the second frame rate sample |
| `AutoCharaRender.DeadBand` | Tweaks/AutoCharaRender.cs:60-64 | usage ≤ 80 and 0.8 × target ≤ frame rate ≤ 0.95 × target leave the setting unchanged and write nothing |
| `AutoCharaRender.NoReversalAfterStepDown` | Tweaks/AutoCharaRender.cs:60-64 | with one non-negative frame rate used in both tests, a sample that stepped down would not step up at the new level |
| `AutoCharaRender.NoReversalAfterStepUp` | Tweaks/AutoCharaRender.cs:60-64 | with one non-negative frame rate used in both tests, a sample that stepped up would not step down at the new level |
| `AutoCharaRender.TwoReadingsCanReverse` | Tweaks/AutoCharaRender.cs:60-64 | with two different frame rate readings, level 3 steps down to 4 and level 4 steps back up to 3 |
| `AutoCharaRender.Scenarios` | Tweaks/AutoCharaRender.cs:60-68 | worked cases at the default target 80: usage 90 at level 2 gives 3; fps 60 of 80 gives 3; fps 79 of 80 at level 3 gives 2; level 0 and level 4 stay put |
| `AutoCharaRender.GameConfig.TryGet` | Tweaks/AutoCharaRender.cs:58 | reports whether the read succeeded, and the stored value when it did |
| `AutoCharaRender.GameConfig.Set` | Tweaks/AutoCharaRender.cs:63 | stores the value and appends it to the write log |
| `AutoCharaRender.CharaRendering.constructor` | Tweaks/AutoCharaRender.cs:26-36 | a new tweak has the configured target, a stopped timer with the default interval and no handler |
| `AutoCharaRender.CharaRendering.Enable` | Tweaks/AutoCharaRender.cs:38-43 | one more handler, interval 10000 ms, timer running |
| `AutoCharaRender.CharaRendering.Disable` | Tweaks/AutoCharaRender.cs:46-49 | the timer stops; handlers and interval are unchanged |
| `AutoCharaRender.CharaRendering.TimerElapsed` | Tweaks/AutoCharaRender.cs:53-70 | the decision always runs, on the stored value when the read succeeds; the write log grows by exactly `Writes` of that value, and the store holds the new setting when one was written |
| `AutoCharaRender.ReEnableAttachesTwice` | Tweaks/AutoCharaRender.cs:38-49 | after Enable, Disable, Enable the timer runs with two handlers attached |
| `AutoCharaRender.DisableKeepsHandler` | Tweaks/AutoCharaRender.cs:38-49 | after Enable, Disable the timer is stopped and one handler is still attached |
| `AutoLock.SetLockOn` | Tweaks/AutoLockHotbar.cs:47-57 | a bar gets one callback when its addon is found and none otherwise, with that bar's fixed arguments and the given lock flag |
| `AutoLock.SetLockBar` | Tweaks/AutoLockHotbar.cs:47-51 | at most one callback, `(10, 3, 51, 0, lock)` to the main bar, present exactly when `_ActionBar` is found |
| `AutoLock.SetLockCross` | Tweaks/AutoLockHotbar.cs:53-57 | at most one callback, `(10, 4, 62, 10, lock)` to the cross hotbar, present exactly when `_ActionCross` is found |
| `AutoLock.SetLock` | Tweaks/AutoLockHotbar.cs:42-45 | the main bar is targeted exactly when its addon is found; the cross hotbar exactly when the option is on and its addon is found; the main bar comes first; at most two callbacks, all with the given lock flag |
| `AutoLock.OnConditionChange` | Tweaks/AutoLockHotbar.cs:29-31 | callbacks only when CombatStart is on, the flag is InCombat and its value is true, and then exactly SetLock's list with lock = true (main bar first, one callback per bar found); every callback locks |
| `AutoLock.OnTerritoryChanged` | Tweaks/AutoLockHotbar.cs:33-36 | nothing when ZoneChange is off; otherwise exactly SetLock's list with lock = true, whatever the territory; every callback locks |
| `AutoLock.Dispatch` | Tweaks/AutoLockHotbar.cs:29-36 | any event yields at most two callbacks, the main bar before the cross hotbar, each with lock = true and its bar's fixed arguments: the tweak never unlocks |
| `AutoLock.OnlyCombatStartLocks` | Tweaks/AutoLockHotbar.cs:30 | leaving combat, or a change of any other flag, produces nothing |
| `AutoLock.TerritoryIdIrrelevant` | Tweaks/AutoLockHotbar.cs:34-35 | two zone changes with different territory ids produce the same callbacks |
| `AutoLock.CombatStartLocksBoth` | Tweaks/AutoLockHotbar.cs:30 | with the default options and both addons present, entering combat locks the main bar, then the cross hotbar |
| `AutoLock.MissingMainBarSkipsOnlyIt` | Tweaks/AutoLockHotbar.cs:48-49 | a missing main bar skips only its callback; the cross hotbar is still locked |
| `AutoLock.MissingCrossBarSkipsOnlyIt` | Tweaks/AutoLockHotbar.cs:54-55 | a missing cross hotbar skips only its callback; the main bar is still locked |
| `AutoLock.AutoLockHotbar.Enable` | Tweaks/AutoLockHotbar.cs:25-27 | one more condition-change subscription |
| `AutoLock.AutoLockHotbar.Disable` | Tweaks/AutoLockHotbar.cs:38-40 | one subscription fewer; nothing changes when none is left |
| `AutoLock.AutoLockHotbar.EnableThenDisable` | Tweaks/AutoLockHotbar.cs:25-40 | Enable followed by Disable restores the previous subscription count |

## Left out

- Performance-counter I/O is out of scope: the category lookup, instance
  enumeration and the first, discarded `NextValue` call are Windows APIs.
  Each counter is given with the value of its second reading.
- `string.EndsWith` on instance names is culture-sensitive in .NET. The model
  uses an ordinal suffix test.
- The one-second sleep and the `Task.Run` branch taken on the framework
  thread are left out. Both branches compute the same sum; they differ only
  in threading.
- The frame rate (`1 / UpdateDelta`) is not computed here. The two readings
  are inputs.
- Floating point is not modelled. Usage, frame rate and thresholds are exact
  reals, so `0.8f` and `0.95f` are exactly 0.8 and 0.95, and sums do not round.
- Concurrency is not modelled. System.Timers can run overlapping ticks; the
  model treats ticks as sequential and does not model the timer firing.
- `AutoCharaRender.GameConfig.TryGet`: the value the host leaves in the
  out-parameter when the read fails is unknown. The contract says nothing
  about it (the body uses 0).
- Which `Disable` the framework calls is not part of this model. In
  `AutoCharaRender.cs` it is declared without `override`, and the base tweak
  class is not part of this model.
- `DrawConfig` (ImGui input of the target) and the configuration storage are
  left out. The target is any integer given to the constructor.
- Logging is left out. The information log lines in the tick only log.
- The game UI callback and the addon lookup are foreign. The lookup is the
  set of addon names found; callbacks are returned as values, not performed.
- The host's delivery of condition-change events to each subscription, and
  the attribute-based wiring of the zone-change handler, belong to the
  framework. Only the subscription count is modelled.
