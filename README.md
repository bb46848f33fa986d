# 20-20-20 reminder engine in Dafny

A model of the reminder engine of the TwentyTwentyTwenty menu-bar app, with proofs about it. The app has two independent reminder cycles:

- **Break cycle.** Every `breakInterval` seconds a full-screen overlay asks the user to look away for `breakDuration` seconds. The user can skip it.
- **Posture cycle.** Every `postureReminderInterval` seconds a small indicator flashes on each screen for `postureReminderDuration`.

The model covers five parts, one Dafny module each:

- **`Settings`** (`SettingsManager`). Six fields are loaded from the user defaults, or from their defaults when a key is absent or holds the wrong type. Each assignment writes through to its own key.
- **`BreakTimer`** (`TimerManager`). Covers `start`, `stop`, `skip`, the one-second tick that counts down, fires `onBreakTriggered` and re-arms, `restartIfActive`, and the two setting subscriptions.
- **`Overlay`** (`ScreenOverlayManager`, `BreakReminderView`). Shows one window per screen at most once at a time, with a one-shot auto-dismiss timer and an idempotent `dismiss`. It also covers the countdown the overlay displays.
- **`Posture`** (`PostureReminderManager`). Covers `start`, `stop`, the repeating timer, `showReminder` (replace the windows by one per screen and queue a one-shot dismissal), and the three setting subscriptions.
- **`App`** (`AppDelegate`). Covers the launch-time starts, the wiring from a break trigger to the overlay and from Skip back to the break timer, the routing of setting changes, and the shutdown at termination.

`Platform` holds stand-ins for the Foundation and AppKit objects:

- a timer is the period or delay it was scheduled with;
- a screen is its index;
- a window is the screen it was made for.

Time is whole seconds.

Each manager is modelled in two layers:

1. A datatype of its fields, with one function per operation giving the new state. These functions are the specification.
2. A class with the source's own fields. Each method's `ensures` ties the new state to the function of the old state: `State() == Started(old(State()), cfg)`.

The promised properties are proved as lemmas about the functions. No callback is modelled as a closure. A method that fires a timer reports what it triggered, and `AppDelegate` performs the callback.

Settings reach the managers as an explicit snapshot `Config`. This is the value after the assignment has been stored. The last section explains why that differs from what the code does.

A few behaviours of the code are easy to misread:

- `TimerManager.stop` does not close an open break overlay. Only `dismiss` does.
- `skip` is not a no-op outside a break. It sets `timeRemaining` to the interval in every state, including when stopped.
- An interval of zero or less is not clamped. The countdown then fires a break on every tick (`BreakTimer.NonPositiveIntervalFiresEveryTick`).
- The break interval is consumed as seconds, even though the settings screen labels it in minutes.

## Model

| member | source | states |
|---|---|---|
| `Platform.OnePerScreenExactly` | Sources/TwentyTwentyTwenty/ScreenOverlayManager.swift:26-31 | the per-screen loop creates exactly one window per screen, the i-th for the i-th screen |
| `Settings.KeysDistinct` | Sources/TwentyTwentyTwenty/SettingsManager.swift:11-17 | the key table has six pairwise distinct keys and every field writes one of them |
| `Settings.KeyOfSameField` | Sources/TwentyTwentyTwenty/SettingsManager.swift:11-60 | two assignments write the same key exactly when they assign the same field |
| `Settings.LoadEmpty` | Sources/TwentyTwentyTwenty/SettingsManager.swift:21-69 | with an empty store: 1200 s interval, 20 s duration, enabled, posture off, posture every 60 s for 1 s |
| `Settings.LoadRoundTrip` | Sources/TwentyTwentyTwenty/SettingsManager.swift:26-69 | a stored value of the right type overrides its own field only; loading after an assignment's write returns the assigned value and the other fields as before |
| `Settings.LoadAbsent` | Sources/TwentyTwentyTwenty/SettingsManager.swift:64-69 | a field whose key is absent loads as its default; the other fields are unaffected |
| `Settings.LoadWrongType` | Sources/TwentyTwentyTwenty/SettingsManager.swift:64-69 | a stored value of the wrong type (a failed `as?`) loads as the default |
| `Settings.SettingsManager.constructor` | Sources/TwentyTwentyTwenty/SettingsManager.swift:62-70 | the fields are what a load of the store gives, and the store is not written |
| `Settings.SettingsManager.SetBreakInterval` | Sources/TwentyTwentyTwenty/SettingsManager.swift:26-30 | writes exactly `Seconds(v)` under `breakInterval` and nothing else; only that field changes; a store that agreed with the fields still does |
| `Settings.SettingsManager.SetBreakDuration` | Sources/TwentyTwentyTwenty/SettingsManager.swift:32-36 | the same for `breakDuration` |
| `Settings.SettingsManager.SetIsEnabled` | Sources/TwentyTwentyTwenty/SettingsManager.swift:38-42 | the same for `isEnabled`, as `Flag(b)` |
| `Settings.SettingsManager.SetPostureReminderEnabled` | Sources/TwentyTwentyTwenty/SettingsManager.swift:44-48 | the same for `postureReminderEnabled` |
| `Settings.SettingsManager.SetPostureReminderInterval` | Sources/TwentyTwentyTwenty/SettingsManager.swift:50-54 | the same for `postureReminderInterval` |
| `Settings.SettingsManager.SetPostureReminderDuration` | Sources/TwentyTwentyTwenty/SettingsManager.swift:56-60 | the same for `postureReminderDuration` |
| `BreakTimer.StartWhenDisabled` | Sources/TwentyTwentyTwenty/TimerManager.swift:36-37 | `start` with the break timer disabled changes nothing |
| `BreakTimer.StartWhenEnabled` | Sources/TwentyTwentyTwenty/TimerManager.swift:36-43 | `start` when enabled gives active, `timeRemaining` = interval, one 1 s repeating tick, the same from every prior state |
| `BreakTimer.TickEnabled` | Sources/TwentyTwentyTwenty/TimerManager.swift:51-56 | an enabled tick decrements by one; it fires the break exactly when the result is at most 0, and then re-arms to the interval |
| `BreakTimer.TickDisabled` | Sources/TwentyTwentyTwenty/TimerManager.swift:46-49 | a tick after the break timer was disabled acts as `stop` and fires nothing |
| `BreakTimer.SkipOnlyRearms` | Sources/TwentyTwentyTwenty/TimerManager.swift:67-70 | `skip` sets `timeRemaining` to the interval and leaves `isActive` and the timer untouched in every state |
| `BreakTimer.ConfigReactions` | Sources/TwentyTwentyTwenty/TimerManager.swift:19-33 | an interval change restarts only an active countdown; enabling calls `start`, disabling `stop`; other settings are ignored |
| `BreakTimer.ValidKept` | Sources/TwentyTwentyTwenty/TimerManager.swift:36-81 | every operation keeps "tick scheduled exactly while active, countdown within [1, interval] while active", and an interval change keeps it against the new interval |
| `BreakTimer.Countdown` | Sources/TwentyTwentyTwenty/TimerManager.swift:51-56 | from an active countdown at r >= 1, k < r ticks leave r - k with no break, and the r-th tick fires exactly one break and re-arms |
| `BreakTimer.StartThenTicks` | Sources/TwentyTwentyTwenty/TimerManager.swift:40-56 | after `start` with interval T >= 1, k < T ticks leave T - k and no break; the T-th fires exactly one break and leaves T |
| `BreakTimer.SkipThenTicks` | Sources/TwentyTwentyTwenty/TimerManager.swift:51-70 | after `skip` the next break fires exactly a full interval of ticks later, because the countdown keeps running while the overlay shows |
| `BreakTimer.RunAppend` | Sources/TwentyTwentyTwenty/TimerManager.swift:43-57 | a + b ticks end in the same state, with the same number of breaks, as a ticks followed by b ticks |
| `BreakTimer.PeriodicBreaks` | Sources/TwentyTwentyTwenty/TimerManager.swift:43-57 | with fixed settings, m * T ticks after `start` fire exactly m breaks and end where `start` did |
| `BreakTimer.NonPositiveIntervalFiresEveryTick` | Sources/TwentyTwentyTwenty/TimerManager.swift:51-56 | with an interval of at most 0, every tick fires a break |
| `BreakTimer.DisabledRunStops` | Sources/TwentyTwentyTwenty/TimerManager.swift:46-49 | once disabled, any run of ticks ends idle with no break |
| `BreakTimer.EnablingAsWrittenDoesNotStart` | Sources/TwentyTwentyTwenty/TimerManager.swift:25-37 | with the sink reading the settings before the assignment, enabling a stopped timer leaves it stopped |
| `BreakTimer.EnablingStarts` | Sources/TwentyTwentyTwenty/TimerManager.swift:25-43 | against the settings after the assignment, enabling starts a full countdown with the tick scheduled |
| `BreakTimer.IntervalChangeAsWrittenUsesOldInterval` | Sources/TwentyTwentyTwenty/TimerManager.swift:19-41 | with the sink reading the settings before the assignment, a 1200 s → 600 s change restarts from 1200 |
| `BreakTimer.IntervalChangeRestartsFromNewInterval` | Sources/TwentyTwentyTwenty/TimerManager.swift:76-81 | an interval change restarts a running countdown from exactly the new interval, discarding progress |
| `BreakTimer.TimerManager.constructor` | Sources/TwentyTwentyTwenty/TimerManager.swift:15-34 | the fields start inactive at 0, and subscribing runs the interval handler and then the enabled handler once |
| `BreakTimer.TimerManager.Start` | Sources/TwentyTwentyTwenty/TimerManager.swift:36-58 | new state is `Started(old state, settings)` |
| `BreakTimer.TimerManager.Stop` | Sources/TwentyTwentyTwenty/TimerManager.swift:60-65 | inactive, `timeRemaining` 0, no timer, from any state, so a second `stop` changes nothing |
| `BreakTimer.TimerManager.TickFires` | Sources/TwentyTwentyTwenty/TimerManager.swift:43-57 | new state and whether the break fired are `Ticked(old state, settings)` |
| `BreakTimer.TimerManager.Skip` | Sources/TwentyTwentyTwenty/TimerManager.swift:67-70 | new state is `Skipped(old state, settings)` |
| `BreakTimer.TimerManager.RestartIfActive` | Sources/TwentyTwentyTwenty/TimerManager.swift:76-81 | new state is `IntervalChanged(old state, settings)` |
| `BreakTimer.TimerManager.BreakIntervalDidChange` | Sources/TwentyTwentyTwenty/TimerManager.swift:19-23 | the interval subscription: restart if active |
| `BreakTimer.TimerManager.IsEnabledDidChange` | Sources/TwentyTwentyTwenty/TimerManager.swift:25-33 | the enabled subscription: `start` when on, `stop` when off |
| `Overlay.ShowWhileShowing` | Sources/TwentyTwentyTwenty/ScreenOverlayManager.swift:18-19 | showing while already showing is a no-op: no new windows and no new timer |
| `Overlay.ShowFromHidden` | Sources/TwentyTwentyTwenty/ScreenOverlayManager.swift:18-37 | showing from not showing with n screens gives `isShowing`, exactly n windows (one per screen) and one one-shot timer delayed by the break duration read at that moment |
| `Overlay.ConsistentKept` | Sources/TwentyTwentyTwenty/ScreenOverlayManager.swift:18-48 | show and dismiss keep "not showing implies no windows and no timer; showing implies one pending one-shot timer" |
| `Overlay.CountdownToZero` | Sources/TwentyTwentyTwenty/ScreenOverlayManager.swift:143-150 | from a whole-second duration r >= 0, k ticks show max(r - k, 0), never below 0, and the timer stops at the first tick after 0 |
| `Overlay.NonPositiveCountdown` | Sources/TwentyTwentyTwenty/ScreenOverlayManager.swift:143-150 | a duration of at most 0 is never counted down; the first tick invalidates the timer |
| `Overlay.BreakReminderView.constructor` | Sources/TwentyTwentyTwenty/ScreenOverlayManager.swift:88-94 | the view starts at its duration with a one-second repeating countdown |
| `Overlay.BreakReminderView.CountdownFires` | Sources/TwentyTwentyTwenty/ScreenOverlayManager.swift:144-150 | new countdown is `CountdownTicked(old countdown)` |
| `Overlay.ScreenOverlayManager.constructor` | Sources/TwentyTwentyTwenty/ScreenOverlayManager.swift:8-16 | not showing, no windows, no timer |
| `Overlay.ScreenOverlayManager.ShowBreakReminder` | Sources/TwentyTwentyTwenty/ScreenOverlayManager.swift:18-37 | new state is `Shown(old state, screens, breakDuration)`; the loop appends one window per screen |
| `Overlay.ScreenOverlayManager.Dismiss` | Sources/TwentyTwentyTwenty/ScreenOverlayManager.swift:39-48 | timer cancelled, windows removed, not showing, from any state, so a second `dismiss` changes nothing |
| `Overlay.ScreenOverlayManager.AutoDismissFires` | Sources/TwentyTwentyTwenty/ScreenOverlayManager.swift:34-36 | the auto-dismiss timer runs `dismiss` |
| `Posture.StartWhenDisabled` | Sources/TwentyTwentyTwenty/PostureReminderManager.swift:43-44 | posture `start` with the reminder disabled is a no-op |
| `Posture.StartWhenEnabled` | Sources/TwentyTwentyTwenty/PostureReminderManager.swift:43-59 | posture `start` stops first, then is active with one repeating timer whose period is the posture interval; queued dismissals are kept |
| `Posture.StopIdempotent` | Sources/TwentyTwentyTwenty/PostureReminderManager.swift:61-66 | `stop` removes the timer, empties the windows and deactivates; twice is once; queued dismissals are not cancelled |
| `Posture.FireWhenDisabled` | Sources/TwentyTwentyTwenty/PostureReminderManager.swift:52-55 | a timer firing while the reminder is disabled acts as `stop` and shows nothing |
| `Posture.FireShowsOnePerScreen` | Sources/TwentyTwentyTwenty/PostureReminderManager.swift:68-85 | an enabled firing replaces the windows by exactly one per screen and queues one dismissal with the posture duration of that moment |
| `Posture.DismissalOutlivesStop` | Sources/TwentyTwentyTwenty/PostureReminderManager.swift:82-92 | `stop` keeps a reminder's queued dismissal; after a restart and a new reminder, that earlier dismissal empties the new reminder's windows and leaves only the new reminder's dismissal queued |
| `Posture.ConfigReactions` | Sources/TwentyTwentyTwenty/PostureReminderManager.swift:20-40 | an interval change restarts only if active; a duration change does nothing; enabling calls `start`, disabling `stop` |
| `Posture.ValidKept` | Sources/TwentyTwentyTwenty/PostureReminderManager.swift:43-92 | every operation keeps "timer scheduled exactly while active, and an inactive manager shows no windows" |
| `Posture.RepeatedFires` | Sources/TwentyTwentyTwenty/PostureReminderManager.swift:49-85 | after k >= 1 enabled firings there is exactly one window per screen, so window sets never accumulate, and k dismissals were queued |
| `Posture.IntervalChangeAsWrittenKeepsOldPeriod` | Sources/TwentyTwentyTwenty/PostureReminderManager.swift:30-49 | with the sink reading the settings before the assignment, a 60 s → 30 s change restarts with the 60 s period |
| `Posture.IntervalChangeTakesNewPeriod` | Sources/TwentyTwentyTwenty/PostureReminderManager.swift:126-131 | an interval change of an active reminder schedules the new period |
| `Posture.EnablingAsWrittenDoesNotStart` | Sources/TwentyTwentyTwenty/PostureReminderManager.swift:20-44 | with the sink reading the settings before the assignment, turning the reminder on leaves it inactive |
| `Posture.EnablingStarts` | Sources/TwentyTwentyTwenty/PostureReminderManager.swift:20-49 | against the settings after the assignment, enabling starts the timer with the posture interval |
| `Posture.PostureReminderManager.constructor` | Sources/TwentyTwentyTwenty/PostureReminderManager.swift:16-41 | subscribing runs the enabled, interval and duration handlers once, in that order |
| `Posture.PostureReminderManager.Start` | Sources/TwentyTwentyTwenty/PostureReminderManager.swift:43-59 | new state is `Started(old state, settings)` |
| `Posture.PostureReminderManager.Stop` | Sources/TwentyTwentyTwenty/PostureReminderManager.swift:61-66 | new state is `Stopped(old state)` |
| `Posture.PostureReminderManager.TimerFires` | Sources/TwentyTwentyTwenty/PostureReminderManager.swift:49-58 | new state is `Fired(old state, screens, settings)` |
| `Posture.PostureReminderManager.ShowReminder` | Sources/TwentyTwentyTwenty/PostureReminderManager.swift:68-85 | old windows dismissed, then one per screen appended, and one dismissal queued |
| `Posture.PostureReminderManager.DismissReminder` | Sources/TwentyTwentyTwenty/PostureReminderManager.swift:87-92 | empties the windows and changes nothing else |
| `Posture.PostureReminderManager.DismissalFires` | Sources/TwentyTwentyTwenty/PostureReminderManager.swift:82-84 | a queued dismissal runs `dismissReminder` and leaves the queue |
| `Posture.PostureReminderManager.RestartIfActive` | Sources/TwentyTwentyTwenty/PostureReminderManager.swift:126-131 | new state is `IntervalChanged(old state, settings)` |
| `Posture.PostureReminderManager.PostureReminderEnabledDidChange` | Sources/TwentyTwentyTwenty/PostureReminderManager.swift:20-28 | the enabled subscription: `start` when on, `stop` when off |
| `Posture.PostureReminderManager.PostureReminderIntervalDidChange` | Sources/TwentyTwentyTwenty/PostureReminderManager.swift:30-34 | the interval subscription: restart if active |
| `Posture.PostureReminderManager.PostureReminderDurationDidChange` | Sources/TwentyTwentyTwenty/PostureReminderManager.swift:36-40 | the duration subscription changes nothing |
| `App.AppDelegate.constructor` | Sources/TwentyTwentyTwenty/App.swift:15-19 | before launch no managers exist; settings and overlay are the shared ones, and the delegate's invariant holds from the start |
| `App.AppDelegate.ApplicationDidFinishLaunching` | Sources/TwentyTwentyTwenty/App.swift:21-48 | the break timer is started iff `isEnabled`, the posture reminder iff `postureReminderEnabled`, and all invariants hold |
| `App.AppDelegate.BreakTickFires` | Sources/TwentyTwentyTwenty/App.swift:34-38 | every break trigger requests the overlay with the current break duration, so one while showing adds no windows; no trigger leaves the overlay alone |
| `App.AppDelegate.SkipPressed` | Sources/TwentyTwentyTwenty/App.swift:35-37 | Skip leaves `timeRemaining` = interval with activity and timer untouched, and the overlay dismissed |
| `App.AppDelegate.SettingChanged` | Sources/TwentyTwentyTwenty/SettingsManager.swift:26-60 | the store is written through, the subscribed managers react to the new settings, the overlay and its pending auto-dismiss are untouched, and invariants hold |
| `App.AppDelegate.ApplicationWillTerminate` | Sources/TwentyTwentyTwenty/App.swift:50-54 | afterwards the break timer is stopped, the posture reminder is inactive with no windows, and the overlay is not showing |
| `App.CyclesIndependent` | Sources/TwentyTwentyTwenty/TimerManager.swift:19-33 | posture settings leave the break countdown unchanged, and break settings leave the posture reminder unchanged |
| `App.DefaultBreakCycle` | Sources/TwentyTwentyTwenty/TimerManager.swift:36-56 | with the default settings there is no break for 1199 ticks after launch, then exactly one at tick 1200, and the countdown is back at 1200 |

## Left out

- **Settings screen.** `SettingsView` layout is not modelled, and neither is its floating-point round-to-step and clamp. The model's settings accept any integer.
- **Menu bar.** `MenuBarManager` is not modelled. Its only state change is the `isEnabled` toggle, which is a `SettingChanged(IsEnabled(..))`. The model does not create it at launch.
- **Icons and build.** The icon generator and the package manifest are left out.
- **AppKit.** Window creation, styling, levels, `close()` on each window, the hosting views, `Int(timeRemaining)` display and the activation policy are left out. A window is only the screen it was made for.
- **Break overlay views.** Each `BreakReminderView` is modelled on its own and is not attached to its window. Its countdown is taken to start once, when its window is ordered front (`onAppear`).
- **Foundation timers and the main queue.** Real time is not modelled. A timer firing, or a queued posture dismissal running, is a method call made by the caller. No ordering between different timers is modelled. `DismissalFires` may run any queued dismissal, because the deadlines are not compared.
- **`[weak self]` and `deinit`.** These are left out. The managers live for the whole process.
- **Combine.** Delivery is not modelled. A setting change is an explicit `SettingChanged` event applied after the store is updated, and the handlers receive the updated snapshot. The constructors of `TimerManager` and `PostureReminderManager` model the one emission on subscription. The source's handlers read the settings before the new value is stored; this is shown under Findings.
- **Fractional seconds.** All `TimeInterval`s are whole seconds. Fractional values, such as the settings screen's 0.5 s posture step, are not modelled. The posture duration is only carried, never computed with.
- **Cast bridging.** Stored values are tagged. A cast succeeds only on its own tag, so `NSNumber` bridging between `Bool` and `Double` is not modelled.
- **Persistence across launches.** `UserDefaults.standard` is a map passed to the `SettingsManager` constructor.
- `App.AppDelegate.SkipPressed`: does not require that an overlay is showing. The button exists only on an overlay window, so the model is more general there than the code can be.

## Findings

In the code, `@Published` publishes a change from the property's `willSet`. The subscription handlers therefore run before `SettingsManager` stores the new value. The `start()` they call still reads the old value.

| source | as written | input that shows it | evidently intended | confidence | as-written member | corrected member |
|---|---|---|---|---|---|---|
| Sources/TwentyTwentyTwenty/TimerManager.swift:25-37 | the `isEnabled` handler calls `start()`, whose guard reads the old `isEnabled` | break timer disabled; user chooses Enable: the guard sees `false` and the timer stays stopped | enabling starts the countdown | not executed; high, assuming `@Published` publishes from `willSet` | `BreakTimer.EnablingAsWrittenDoesNotStart` | `BreakTimer.EnablingStarts` |
| Sources/TwentyTwentyTwenty/TimerManager.swift:19-41 | `restartIfActive` runs `start()`, which reads the old `breakInterval` | countdown running, interval changed 1200 → 600: the restart counts from 1200 | the restart counts from the new interval | not executed; high, assuming `@Published` publishes from `willSet` | `BreakTimer.IntervalChangeAsWrittenUsesOldInterval` | `BreakTimer.IntervalChangeRestartsFromNewInterval` |
| Sources/TwentyTwentyTwenty/PostureReminderManager.swift:20-44 | the enabled handler calls `start()`, whose guard reads the old `postureReminderEnabled` | posture reminder off; user turns it on: it stays inactive | turning it on starts the reminder | not executed; high, assuming `@Published` publishes from `willSet` | `Posture.EnablingAsWrittenDoesNotStart` | `Posture.EnablingStarts` |
| Sources/TwentyTwentyTwenty/PostureReminderManager.swift:30-49 | `restartIfActive` runs `start()`, which schedules the timer with the old interval | reminder active, interval changed 60 → 30: the new timer repeats every 60 s | the new period is used | not executed; high, assuming `@Published` publishes from `willSet` | `Posture.IntervalChangeAsWrittenKeepsOldPeriod` | `Posture.IntervalChangeTakesNewPeriod` |

Each as-written lemma uses a function that models the handler as written (`BreakTimer.EnabledChangedAsWritten`, `BreakTimer.IntervalChangedAsWritten`, `Posture.EnabledChangedAsWritten`, `Posture.IntervalChangedAsWritten`). It proves the wrong outcome for the input named in its row. The rest of the model uses the corrected reactions, with the settings after the assignment (`EnabledChanged`, `IntervalChanged`).
