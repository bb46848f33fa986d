/** The break countdown (`TimerManager`): a repeating one-second tick that
    counts `timeRemaining` down, fires the break callback when it reaches zero
    and re-arms to the break interval. Every operation reads the settings
    snapshot it is given. */
module BreakTimer {
  import opened Platform
  import opened Settings

  /** The three fields `isActive`, `timeRemaining` and `timer`. */
  datatype BreakState = BreakState(isActive: bool, timeRemaining: int, timer: Option<Timer>)

  /** The repeating one-second tick that `start` schedules. */
  const Tick: Timer := Timer(1, true)

  /** The state `stop` leaves, whatever it started from. */
  const Idle := BreakState(false, 0, None)

  /** `start`: nothing when disabled; otherwise `stop`, then count down from
      the break interval with a fresh tick. */
  function Started(s: BreakState, cfg: Config): BreakState
  {
    if !cfg.isEnabled then s
    else BreakState(true, cfg.breakInterval, Some(Tick))
  }

  /** The state after one tick and whether the tick fired `onBreakTriggered`. */
  datatype TickResult = TickResult(state: BreakState, fired: bool)

  /** The tick closure. */
  function Ticked(s: BreakState, cfg: Config): TickResult
  {
    if !cfg.isEnabled then TickResult(Idle, false)
    else
      var left := s.timeRemaining - 1;
      if left <= 0 then TickResult(s.(timeRemaining := cfg.breakInterval), true)
      else TickResult(s.(timeRemaining := left), false)
  }

  /** `skip`: re-arm to the full interval. */
  function Skipped(s: BreakState, cfg: Config): BreakState
  {
    s.(timeRemaining := cfg.breakInterval)
  }

  /** `restartIfActive`, run when the break interval changes. */
  function IntervalChanged(s: BreakState, cfg: Config): BreakState
  {
    if s.isActive then Started(Idle, cfg) else s
  }

  /** The `isEnabled` subscription: `start` when on, `stop` when off. */
  function EnabledChanged(s: BreakState, cfg: Config): BreakState
  {
    if cfg.isEnabled then Started(s, cfg) else Idle
  }

  /** The reaction to a change of one setting, `cfg` being the settings after it:
      only the break interval and the enabled flag are subscribed to. */
  function Reacted(s: BreakState, change: Setting, cfg: Config): BreakState
  {
    match change
    case BreakInterval(_) => IntervalChanged(s, cfg)
    case IsEnabled(_) => EnabledChanged(s, cfg)
    case _ => s
  }

  /** The state after `k` ticks of the scheduled timer with fixed settings, and
      how many breaks they fired. Ticks stop once the timer is gone. */
  datatype RunResult = RunResult(state: BreakState, breaks: nat)

  function Run(s: BreakState, cfg: Config, k: nat): RunResult
    decreases k
  {
    if k == 0 || s.timer.None? then RunResult(s, 0)
    else
      var t := Ticked(s, cfg);
      var rest := Run(t.state, cfg, k - 1);
      RunResult(rest.state, rest.breaks + if t.fired then 1 else 0)
  }

  /** The scheduler's invariant: the tick is scheduled exactly while active,
      and while active the countdown stays within one interval. */
  ghost predicate Valid(s: BreakState, cfg: Config)
  {
    && (s.isActive <==> s.timer == Some(Tick))
    && (s.isActive && cfg.breakInterval >= 1 ==> 1 <= s.timeRemaining <= cfg.breakInterval)
  }

  // ---- Properties of single operations ----

  /** `start` with the break timer disabled changes nothing. */
  lemma StartWhenDisabled(s: BreakState, cfg: Config)
    requires !cfg.isEnabled
    ensures Started(s, cfg) == s
  {
  }

  /** `start` when enabled ends active, counting from the interval with one
      tick, whatever the prior state. */
  lemma StartWhenEnabled(s: BreakState, t: BreakState, cfg: Config)
    requires cfg.isEnabled
    ensures Started(s, cfg) == Started(t, cfg)
    ensures Started(s, cfg) == BreakState(true, cfg.breakInterval, Some(Tick))
  {
  }

  /** An enabled tick counts down by one; it fires exactly when that reaches
      zero or less, and then re-arms to the interval. */
  lemma TickEnabled(s: BreakState, cfg: Config)
    requires cfg.isEnabled
    ensures Ticked(s, cfg).fired <==> s.timeRemaining - 1 <= 0
    ensures Ticked(s, cfg).fired ==> Ticked(s, cfg).state == s.(timeRemaining := cfg.breakInterval)
    ensures !Ticked(s, cfg).fired ==> Ticked(s, cfg).state == s.(timeRemaining := s.timeRemaining - 1)
  {
  }

  /** A tick after the break timer was disabled is a `stop` and fires nothing. */
  lemma TickDisabled(s: BreakState, cfg: Config)
    requires !cfg.isEnabled
    ensures Ticked(s, cfg) == TickResult(Idle, false)
  {
  }

  /** `skip` only re-arms: activity and timer are untouched, stopped or not. */
  lemma SkipOnlyRearms(s: BreakState, cfg: Config)
    ensures Skipped(s, cfg).timeRemaining == cfg.breakInterval
    ensures Skipped(s, cfg).isActive == s.isActive && Skipped(s, cfg).timer == s.timer
  {
  }

  /** Interval changes restart only an active timer, from the new interval;
      enabling starts, disabling stops; other settings are ignored. */
  lemma ConfigReactions(s: BreakState, change: Setting, cfg: Config)
    ensures change.BreakInterval? && !s.isActive ==> Reacted(s, change, cfg) == s
    ensures change.BreakInterval? && s.isActive ==> Reacted(s, change, cfg) == Started(Idle, cfg)
    ensures change.IsEnabled? && cfg.isEnabled ==> Reacted(s, change, cfg) == Started(s, cfg)
    ensures change.IsEnabled? && !cfg.isEnabled ==> Reacted(s, change, cfg) == Idle
    ensures !change.BreakInterval? && !change.IsEnabled? ==> Reacted(s, change, cfg) == s
  {
  }

  /** Every operation keeps the invariant; an interval change keeps it even
      against the new interval. */
  lemma ValidKept(s: BreakState, cfg: Config, change: Setting, cfg': Config)
    requires Valid(s, cfg)
    requires cfg'.breakInterval != cfg.breakInterval ==> change.BreakInterval?
    ensures Valid(Idle, cfg) && Valid(Started(s, cfg), cfg)
    ensures Valid(Ticked(s, cfg).state, cfg) && Valid(Skipped(s, cfg), cfg)
    ensures Valid(Reacted(s, change, cfg'), cfg')
  {
  }

  // ---- Properties of runs of ticks ----

  /** From an active countdown at `r >= 1`, `k < r` ticks count down to `r - k`
      without a break, and the `r`-th tick fires exactly one break and re-arms. */
  lemma {:induction false} Countdown(s: BreakState, cfg: Config, k: nat)
    requires cfg.isEnabled && s.timer.Some?
    requires 1 <= s.timeRemaining && k <= s.timeRemaining
    decreases k
    ensures k < s.timeRemaining ==> Run(s, cfg, k) == RunResult(s.(timeRemaining := s.timeRemaining - k), 0)
    ensures k == s.timeRemaining ==> Run(s, cfg, k) == RunResult(s.(timeRemaining := cfg.breakInterval), 1)
  {
    if k > 0 && s.timeRemaining > 1 {
      Countdown(s.(timeRemaining := s.timeRemaining - 1), cfg, k - 1);
    }
  }

  /** From `start` with interval `T >= 1`: `k < T` ticks leave `T - k` and no
      break; the `T`-th tick fires exactly one and leaves `T` again. */
  lemma StartThenTicks(s: BreakState, cfg: Config, k: nat)
    requires cfg.isEnabled && cfg.breakInterval >= 1 && k <= cfg.breakInterval
    ensures k < cfg.breakInterval ==>
      Run(Started(s, cfg), cfg, k) == RunResult(BreakState(true, cfg.breakInterval - k, Some(Tick)), 0)
    ensures k == cfg.breakInterval ==> Run(Started(s, cfg), cfg, k) == RunResult(Started(s, cfg), 1)
  {
    Countdown(Started(s, cfg), cfg, k);
  }

  /** After a `skip` the next break fires a full interval of ticks later. */
  lemma SkipThenTicks(s: BreakState, cfg: Config, k: nat)
    requires cfg.isEnabled && s.timer.Some? && cfg.breakInterval >= 1 && k <= cfg.breakInterval
    ensures k < cfg.breakInterval ==>
      Run(Skipped(s, cfg), cfg, k) == RunResult(s.(timeRemaining := cfg.breakInterval - k), 0)
    ensures k == cfg.breakInterval ==> Run(Skipped(s, cfg), cfg, k) == RunResult(Skipped(s, cfg), 1)
  {
    Countdown(Skipped(s, cfg), cfg, k);
  }

  /** Running `a` ticks and then `b` more is running `a + b`. */
  lemma {:induction false} RunAppend(s: BreakState, cfg: Config, a: nat, b: nat)
    ensures Run(s, cfg, a + b).state == Run(Run(s, cfg, a).state, cfg, b).state
    ensures Run(s, cfg, a + b).breaks == Run(s, cfg, a).breaks + Run(Run(s, cfg, a).state, cfg, b).breaks
    decreases a
  {
    if a > 0 && s.timer.Some? {
      RunAppend(Ticked(s, cfg).state, cfg, a - 1, b);
    } else if a == 0 {
    } else {
      assert Run(s, cfg, a + b) == RunResult(s, 0);
      assert Run(s, cfg, a) == RunResult(s, 0);
      RunNoTimer(s, cfg, b);
    }
  }

  lemma RunNoTimer(s: BreakState, cfg: Config, k: nat)
    requires s.timer.None?
    ensures Run(s, cfg, k) == RunResult(s, 0)
  {
  }

  /** With fixed settings and interval `T >= 1`, `m * T` ticks after `start`
      fire exactly `m` breaks and end where `start` did. */
  lemma {:induction false} PeriodicBreaks(s: BreakState, cfg: Config, m: nat)
    requires cfg.isEnabled && cfg.breakInterval >= 1
    ensures Run(Started(s, cfg), cfg, m * cfg.breakInterval) == RunResult(Started(s, cfg), m)
  {
    var T := cfg.breakInterval;
    var st := Started(s, cfg);
    if m > 0 {
      assert m * T == T + (m - 1) * T;
      RunAppend(st, cfg, T, (m - 1) * T);
      StartThenTicks(s, cfg, T);
      PeriodicBreaks(s, cfg, m - 1);
    }
  }

  /** The interval is not clamped: with an interval of zero or less, every
      tick from a countdown at one or less fires a break. */
  lemma {:induction false} NonPositiveIntervalFiresEveryTick(s: BreakState, cfg: Config, k: nat)
    requires cfg.isEnabled && cfg.breakInterval <= 0
    requires s.timer.Some? && s.timeRemaining <= 1
    ensures Run(s, cfg, k).breaks == k
    ensures k > 0 ==> Run(s, cfg, k).state == s.(timeRemaining := cfg.breakInterval)
    decreases k
  {
    if k > 0 {
      NonPositiveIntervalFiresEveryTick(s.(timeRemaining := cfg.breakInterval), cfg, k - 1);
    }
  }

  /** Once disabled, the next tick stops the countdown and no break follows. */
  lemma DisabledRunStops(s: BreakState, cfg: Config, k: nat)
    requires !cfg.isEnabled && s.timer.Some? && k >= 1
    ensures Run(s, cfg, k) == RunResult(Idle, 0)
  {
    RunNoTimer(Idle, cfg, k - 1);
  }

  // ---- As written: the subscriptions read the settings before the assignment ----

  /** The `isEnabled` sink as the source runs it: `@Published` delivers the new
      value before storing it, so the `start` it calls still guards on the old
      flag, `before`. */
  function EnabledChangedAsWritten(s: BreakState, before: Config, enabled: bool): BreakState
  {
    if enabled then Started(s, before) else Idle
  }

  /** Enabling a stopped break timer from the menu leaves it stopped. */
  lemma EnablingAsWrittenDoesNotStart(before: Config)
    requires !before.isEnabled
    ensures !EnabledChangedAsWritten(Idle, before, true).isActive
    ensures EnabledChanged(Idle, before.(isEnabled := true)).isActive
  {
  }

  /** Against the settings after the assignment, enabling always starts a full
      countdown with the tick scheduled. */
  lemma EnablingStarts(s: BreakState, cfg: Config)
    requires cfg.isEnabled
    ensures EnabledChanged(s, cfg) == BreakState(true, cfg.breakInterval, Some(Tick))
  {
  }

  /** The `breakInterval` sink as the source runs it: the `start` inside
      `restartIfActive` reads the interval still stored, `before`. */
  function IntervalChangedAsWritten(s: BreakState, before: Config): BreakState
  {
    if s.isActive then Started(Idle, before) else s
  }

  /** Shortening the interval of a running countdown from 1200 s to 600 s
      restarts it from 1200 s. */
  lemma IntervalChangeAsWrittenUsesOldInterval(s: BreakState, before: Config)
    requires s.isActive && before.isEnabled && before.breakInterval == 1200
    ensures IntervalChangedAsWritten(s, before).timeRemaining == 1200
    ensures IntervalChanged(s, before.(breakInterval := 600)).timeRemaining == 600
  {
  }

  /** Against the settings after the assignment, an interval change restarts a
      running countdown from exactly the new interval, discarding progress. */
  lemma IntervalChangeRestartsFromNewInterval(s: BreakState, cfg: Config)
    requires s.isActive && cfg.isEnabled
    ensures IntervalChanged(s, cfg) == BreakState(true, cfg.breakInterval, Some(Tick))
  {
  }

  /** `TimerManager` */
  class TimerManager {
    var isActive: bool
    var timeRemaining: int
    var timer: Option<Timer>

    function State(): BreakState
      reads this
    {
      BreakState(isActive, timeRemaining, timer)
    }

    /** `init`: the fields start inactive at zero; subscribing to the break
        interval and then to the enabled flag runs each handler once with the
        current value. */
    constructor (cfg: Config)
      ensures State() == EnabledChanged(IntervalChanged(Idle, cfg), cfg)
    {
      isActive := false;
      timeRemaining := 0;
      timer := None;
      new;
      BreakIntervalDidChange(cfg);
      IsEnabledDidChange(cfg);
    }

    method Start(cfg: Config)
      modifies this
      ensures State() == Started(old(State()), cfg)
    {
      if !cfg.isEnabled {
        return;
      }
      Stop();
      isActive := true;
      timeRemaining := cfg.breakInterval;
      timer := Some(Tick);
    }

    method Stop()
      modifies this
      ensures State() == Idle
    {
      timer := None;
      isActive := false;
      timeRemaining := 0;
    }

    /** One firing of the scheduled tick; `fired` says whether it triggered a
        break. */
    method TickFires(cfg: Config) returns (fired: bool)
      requires timer.Some?
      modifies this
      ensures TickResult(State(), fired) == Ticked(old(State()), cfg)
    {
      fired := false;
      if !cfg.isEnabled {
        Stop();
        return;
      }
      timeRemaining := timeRemaining - 1;
      if timeRemaining <= 0 {
        fired := true;
        timeRemaining := cfg.breakInterval;
      }
    }

    method Skip(cfg: Config)
      modifies this
      ensures State() == Skipped(old(State()), cfg)
    {
      timeRemaining := cfg.breakInterval;
    }

    method RestartIfActive(cfg: Config)
      modifies this
      ensures State() == IntervalChanged(old(State()), cfg)
    {
      if isActive {
        Stop();
        Start(cfg);
      }
    }

    /** The `breakInterval` subscription. */
    method BreakIntervalDidChange(cfg: Config)
      modifies this
      ensures State() == IntervalChanged(old(State()), cfg)
    {
      RestartIfActive(cfg);
    }

    /** The `isEnabled` subscription. */
    method IsEnabledDidChange(cfg: Config)
      modifies this
      ensures State() == EnabledChanged(old(State()), cfg)
    {
      if cfg.isEnabled {
        Start(cfg);
      } else {
        Stop();
      }
    }
  }
}
