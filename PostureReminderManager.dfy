/** The posture reminder (`PostureReminderManager`): a repeating timer with the
    posture interval as its period; each firing replaces the reminder windows
    with one small window per screen and queues a one-shot dismissal on the
    main queue that `stop` does not cancel. */
module Posture {
  import opened Platform
  import opened Settings

  /** The fields `isActive`, `timer` and `reminderWindows`, and the dismissal
      blocks `showReminder` has queued with `asyncAfter` and that have not run
      yet, each by the delay it was queued with. */
  datatype PostureState = PostureState(isActive: bool, timer: Option<Timer>,
                                       reminderWindows: seq<Window>, pendingDismissals: seq<int>)

  /** The state before `init` subscribes. */
  const Initial := PostureState(false, None, [], [])

  /** The repeating timer `start` schedules. */
  function ReminderTimer(cfg: Config): Timer
  {
    Timer(cfg.postureReminderInterval, true)
  }

  /** `stop`: cancel the timer, dismiss the windows, become inactive. The
      queued dismissals stay queued. */
  function Stopped(s: PostureState): PostureState
  {
    s.(timer := None, reminderWindows := [], isActive := false)
  }

  /** `start`: nothing when disabled; otherwise `stop`, then schedule the
      repeating timer. */
  function Started(s: PostureState, cfg: Config): PostureState
  {
    if !cfg.postureReminderEnabled then s
    else Stopped(s).(isActive := true, timer := Some(ReminderTimer(cfg)))
  }

  /** `showReminder`: dismiss the current windows, create one per screen, and
      queue a dismissal after the posture duration of that moment. */
  function ReminderShown(s: PostureState, screens: seq<Screen>, cfg: Config): PostureState
  {
    s.(reminderWindows := OnePerScreen(screens),
       pendingDismissals := s.pendingDismissals + [cfg.postureReminderDuration])
  }

  /** The timer closure: `stop` when the reminder was disabled, else show. */
  function Fired(s: PostureState, screens: seq<Screen>, cfg: Config): PostureState
  {
    if !cfg.postureReminderEnabled then Stopped(s) else ReminderShown(s, screens, cfg)
  }

  /** The `i`-th queued dismissal runs: it empties whatever windows there are
      now. */
  function DismissalRan(s: PostureState, i: nat): PostureState
    requires i < |s.pendingDismissals|
  {
    s.(reminderWindows := [],
       pendingDismissals := s.pendingDismissals[..i] + s.pendingDismissals[i + 1..])
  }

  /** `restartIfActive`, run when the interval changes. */
  function IntervalChanged(s: PostureState, cfg: Config): PostureState
  {
    if s.isActive then Started(Stopped(s), cfg) else s
  }

  /** The `postureReminderEnabled` subscription. */
  function EnabledChanged(s: PostureState, cfg: Config): PostureState
  {
    if cfg.postureReminderEnabled then Started(s, cfg) else Stopped(s)
  }

  /** The reaction to a change of one setting, `cfg` being the settings after
      it. The duration subscription does nothing. */
  function Reacted(s: PostureState, change: Setting, cfg: Config): PostureState
  {
    match change
    case PostureReminderEnabled(_) => EnabledChanged(s, cfg)
    case PostureReminderInterval(_) => IntervalChanged(s, cfg)
    case _ => s
  }

  /** `k` firings of the scheduled timer with fixed settings and screens. */
  function Fires(s: PostureState, screens: seq<Screen>, cfg: Config, k: nat): PostureState
    decreases k
  {
    if k == 0 || s.timer.None? then s else Fires(Fired(s, screens, cfg), screens, cfg, k - 1)
  }

  /** `k` copies of `d`. */
  function Repeat(d: int, k: nat): seq<int>
    decreases k
  {
    if k == 0 then [] else [d] + Repeat(d, k - 1)
  }

  /** The manager's invariant: the repeating timer is scheduled exactly while
      active, and an inactive manager shows no windows. */
  ghost predicate Valid(s: PostureState)
  {
    && (s.isActive <==> s.timer.Some?)
    && (s.timer.Some? ==> s.timer.value.repeats)
    && (!s.isActive ==> s.reminderWindows == [])
  }

  // ---- Properties of single operations ----

  /** `start` with the posture reminder disabled changes nothing. */
  lemma StartWhenDisabled(s: PostureState, cfg: Config)
    requires !cfg.postureReminderEnabled
    ensures Started(s, cfg) == s
  {
  }

  /** `start` when enabled stops first, then is active with one repeating timer
      whose period is the posture interval. */
  lemma StartWhenEnabled(s: PostureState, cfg: Config)
    requires cfg.postureReminderEnabled
    ensures Started(s, cfg) == Started(Stopped(s), cfg)
    ensures Started(s, cfg) == PostureState(true, Some(Timer(cfg.postureReminderInterval, true)),
                                            [], s.pendingDismissals)
  {
  }

  /** `stop` removes the timer and the windows and deactivates; stopping twice
      is stopping once; queued dismissals are not cancelled. */
  lemma StopIdempotent(s: PostureState)
    ensures Stopped(Stopped(s)) == Stopped(s)
    ensures !Stopped(s).isActive && Stopped(s).timer.None? && Stopped(s).reminderWindows == []
    ensures Stopped(s).pendingDismissals == s.pendingDismissals
  {
  }

  /** A firing after the reminder was disabled is a `stop` and shows nothing. */
  lemma FireWhenDisabled(s: PostureState, screens: seq<Screen>, cfg: Config)
    requires !cfg.postureReminderEnabled
    ensures Fired(s, screens, cfg) == Stopped(s)
  {
  }

  /** An enabled firing replaces the windows by exactly one per screen, however
      many there were, and queues one dismissal after the current duration;
      the timer and activity are untouched. */
  lemma FireShowsOnePerScreen(s: PostureState, screens: seq<Screen>, cfg: Config)
    requires cfg.postureReminderEnabled
    ensures |Fired(s, screens, cfg).reminderWindows| == |screens|
    ensures forall i :: 0 <= i < |screens| ==> Fired(s, screens, cfg).reminderWindows[i] == Window(screens[i])
    ensures Fired(s, screens, cfg).pendingDismissals == s.pendingDismissals + [cfg.postureReminderDuration]
    ensures Fired(s, screens, cfg).isActive == s.isActive && Fired(s, screens, cfg).timer == s.timer
  {
    OnePerScreenExactly(screens);
  }

  /** A dismissal queued by a reminder outlives `stop`: the queue is kept as
      it is. When the reminder is restarted and shows again, that earlier
      dismissal runs and empties the later reminder's windows, leaving only
      the later reminder's own dismissal queued. */
  lemma DismissalOutlivesStop(s: PostureState, screens: seq<Screen>, cfg: Config)
    requires cfg.postureReminderEnabled
    ensures Stopped(Fired(s, screens, cfg)).pendingDismissals == s.pendingDismissals + [cfg.postureReminderDuration]
    ensures var later := Fired(Started(Stopped(Fired(s, screens, cfg)), cfg), screens, cfg);
      && later.reminderWindows == OnePerScreen(screens)
      && later.pendingDismissals == s.pendingDismissals + [cfg.postureReminderDuration, cfg.postureReminderDuration]
      && DismissalRan(later, |s.pendingDismissals|) ==
         later.(reminderWindows := [], pendingDismissals := s.pendingDismissals + [cfg.postureReminderDuration])
  {
    var d := cfg.postureReminderDuration;
    var later := Fired(Started(Stopped(Fired(s, screens, cfg)), cfg), screens, cfg);
    assert later.pendingDismissals == s.pendingDismissals + [d] + [d];
    assert later.pendingDismissals[..|s.pendingDismissals|] + later.pendingDismissals[|s.pendingDismissals| + 1..]
      == s.pendingDismissals + [d];
  }

  /** Interval changes restart only an active manager; enabling starts,
      disabling stops; duration changes and the break settings do nothing. */
  lemma ConfigReactions(s: PostureState, change: Setting, cfg: Config)
    ensures change.PostureReminderInterval? && !s.isActive ==> Reacted(s, change, cfg) == s
    ensures change.PostureReminderInterval? && s.isActive ==> Reacted(s, change, cfg) == Started(Stopped(s), cfg)
    ensures change.PostureReminderEnabled? && cfg.postureReminderEnabled ==> Reacted(s, change, cfg) == Started(s, cfg)
    ensures change.PostureReminderEnabled? && !cfg.postureReminderEnabled ==> Reacted(s, change, cfg) == Stopped(s)
    ensures !change.PostureReminderInterval? && !change.PostureReminderEnabled? ==> Reacted(s, change, cfg) == s
  {
  }

  /** Every operation keeps the invariant (a firing needs the timer). */
  lemma ValidKept(s: PostureState, screens: seq<Screen>, cfg: Config, change: Setting, i: nat)
    requires Valid(s)
    ensures Valid(Initial) && Valid(Stopped(s)) && Valid(Started(s, cfg))
    ensures s.timer.Some? ==> Valid(Fired(s, screens, cfg))
    ensures i < |s.pendingDismissals| ==> Valid(DismissalRan(s, i))
    ensures Valid(Reacted(s, change, cfg))
  {
  }

  /** Window sets never accumulate: after `k >= 1` enabled firings there is
      exactly one window per screen, and `k` dismissals were queued, each with
      the posture duration. */
  lemma {:induction false} RepeatedFires(s: PostureState, screens: seq<Screen>, cfg: Config, k: nat)
    requires cfg.postureReminderEnabled && s.timer.Some? && k >= 1
    decreases k
    ensures Fires(s, screens, cfg, k) ==
      s.(reminderWindows := OnePerScreen(screens),
         pendingDismissals := s.pendingDismissals + Repeat(cfg.postureReminderDuration, k))
  {
    var d := cfg.postureReminderDuration;
    var next := Fired(s, screens, cfg);
    if k > 1 {
      RepeatedFires(next, screens, cfg, k - 1);
      assert next.pendingDismissals + Repeat(d, k - 1) == s.pendingDismissals + Repeat(d, k);
    }
  }

  // ---- As written: the subscriptions read the settings before the assignment ----

  /** The interval sink as the source runs it: `restartIfActive` calls `start`,
      which schedules the timer with the interval still stored, `before`. */
  function IntervalChangedAsWritten(s: PostureState, before: Config): PostureState
  {
    if s.isActive then Started(Stopped(s), before) else s
  }

  /** Changing the interval of an active reminder from 60 s to 30 s restarts
      it with the old 60 s period. */
  lemma IntervalChangeAsWrittenKeepsOldPeriod(s: PostureState, before: Config)
    requires s.isActive && before.postureReminderEnabled && before.postureReminderInterval == 60
    ensures IntervalChangedAsWritten(s, before).timer == Some(Timer(60, true))
    ensures IntervalChanged(s, before.(postureReminderInterval := 30)).timer == Some(Timer(30, true))
  {
  }

  /** Against the settings after the assignment, an interval change of an
      active reminder schedules the new period. */
  lemma IntervalChangeTakesNewPeriod(s: PostureState, cfg: Config)
    requires s.isActive && cfg.postureReminderEnabled
    ensures IntervalChanged(s, cfg).timer == Some(Timer(cfg.postureReminderInterval, true))
    ensures IntervalChanged(s, cfg).isActive
  {
  }

  /** The enabled sink as the source runs it: `start` guards on the flag still
      stored, `before`. */
  function EnabledChangedAsWritten(s: PostureState, before: Config, enabled: bool): PostureState
  {
    if enabled then Started(s, before) else Stopped(s)
  }

  /** Turning the reminder on from the settings leaves it inactive. */
  lemma EnablingAsWrittenDoesNotStart(before: Config)
    requires !before.postureReminderEnabled
    ensures !EnabledChangedAsWritten(Initial, before, true).isActive
    ensures EnabledChanged(Initial, before.(postureReminderEnabled := true)).isActive
  {
  }

  /** Against the settings after the assignment, enabling always starts the
      timer with the posture interval. */
  lemma EnablingStarts(s: PostureState, cfg: Config)
    requires cfg.postureReminderEnabled
    ensures EnabledChanged(s, cfg).isActive
    ensures EnabledChanged(s, cfg).timer == Some(Timer(cfg.postureReminderInterval, true))
  {
  }

  /** `PostureReminderManager` */
  class PostureReminderManager {
    var isActive: bool
    var timer: Option<Timer>
    var reminderWindows: seq<Window>
    var pendingDismissals: seq<int>

    function State(): PostureState
      reads this
    {
      PostureState(isActive, timer, reminderWindows, pendingDismissals)
    }

    /** `init`: subscribing to the enabled flag, the interval and the duration
        runs each handler once, in that order, with the current values. */
    constructor (cfg: Config)
      ensures State() == IntervalChanged(EnabledChanged(Initial, cfg), cfg)
    {
      isActive := false;
      timer := None;
      reminderWindows := [];
      pendingDismissals := [];
      new;
      PostureReminderEnabledDidChange(cfg);
      PostureReminderIntervalDidChange(cfg);
      PostureReminderDurationDidChange();
    }

    method Start(cfg: Config)
      modifies this
      ensures State() == Started(old(State()), cfg)
    {
      if !cfg.postureReminderEnabled {
        return;
      }
      Stop();
      isActive := true;
      timer := Some(ReminderTimer(cfg));
    }

    method Stop()
      modifies this
      ensures State() == Stopped(old(State()))
    {
      timer := None;
      DismissReminder();
      isActive := false;
    }

    /** One firing of the repeating timer on the current `screens`. */
    method TimerFires(screens: seq<Screen>, cfg: Config)
      requires timer.Some?
      modifies this
      ensures State() == Fired(old(State()), screens, cfg)
    {
      if !cfg.postureReminderEnabled {
        Stop();
        return;
      }
      ShowReminder(screens, cfg);
    }

    method ShowReminder(screens: seq<Screen>, cfg: Config)
      modifies this
      ensures State() == ReminderShown(old(State()), screens, cfg)
    {
      DismissReminder();
      var i := 0;
      while i < |screens|
        invariant 0 <= i <= |screens|
        invariant reminderWindows == OnePerScreen(screens[..i])
        invariant isActive == old(isActive) && timer == old(timer)
        invariant pendingDismissals == old(pendingDismissals)
      {
        OnePerScreenStep(screens, i);
        reminderWindows := reminderWindows + [Window(screens[i])];
        i := i + 1;
      }
      assert screens[..|screens|] == screens;
      pendingDismissals := pendingDismissals + [cfg.postureReminderDuration];
    }

    method DismissReminder()
      modifies this
      ensures State() == old(State()).(reminderWindows := [])
    {
      reminderWindows := [];
    }

    /** The `i`-th queued dismissal block runs. */
    method DismissalFires(i: nat)
      requires i < |pendingDismissals|
      modifies this
      ensures State() == DismissalRan(old(State()), i)
    {
      pendingDismissals := pendingDismissals[..i] + pendingDismissals[i + 1..];
      DismissReminder();
    }

    method RestartIfActive(cfg: Config)
      modifies this
      ensures State() == IntervalChanged(old(State()), cfg)
    {
      if isActive {
        Stop();
        Start(cfg);
      }
    }

    /** The `postureReminderEnabled` subscription. */
    method PostureReminderEnabledDidChange(cfg: Config)
      modifies this
      ensures State() == EnabledChanged(old(State()), cfg)
    {
      if cfg.postureReminderEnabled {
        Start(cfg);
      } else {
        Stop();
      }
    }

    /** The `postureReminderInterval` subscription. */
    method PostureReminderIntervalDidChange(cfg: Config)
      modifies this
      ensures State() == IntervalChanged(old(State()), cfg)
    {
      RestartIfActive(cfg);
    }

    /** The `postureReminderDuration` subscription: a duration change needs no
        restart and only affects the next reminder. */
    method PostureReminderDurationDidChange()
      ensures State() == old(State())
    {
    }
  }
}
