/** The application delegate (`AppDelegate`): creates the managers at launch
    and starts the enabled ones, opens the break overlay on every break
    trigger, makes the overlay's Skip re-arm the break countdown and then
    dismiss, routes each setting change to the managers subscribed to it, and
    stops everything at termination. */
module App {
  import opened Platform
  import opened Settings
  import BreakTimer
  import Overlay
  import Posture

  class AppDelegate {
    const settingsManager: SettingsManager
    const overlay: Overlay.ScreenOverlayManager
    var timerManager: BreakTimer.TimerManager?
    var postureReminderManager: Posture.PostureReminderManager?

    /** The invariants of the three managers, against the current settings. */
    ghost predicate Valid()
      reads this, settingsManager, overlay, timerManager, postureReminderManager
    {
      && Overlay.Consistent(overlay.State())
      && (timerManager != null ==> BreakTimer.Valid(timerManager.State(), settingsManager.Snapshot()))
      && (postureReminderManager != null ==> Posture.Valid(postureReminderManager.State()))
    }

    /** The delegate before launch; the overlay is the shared one. */
    constructor (settingsManager: SettingsManager, overlay: Overlay.ScreenOverlayManager)
      requires Overlay.Consistent(overlay.State())
      ensures this.settingsManager == settingsManager && this.overlay == overlay
      ensures timerManager == null && postureReminderManager == null
      ensures Valid()
    {
      this.settingsManager := settingsManager;
      this.overlay := overlay;
      timerManager := null;
      postureReminderManager := null;
    }

    /** `applicationDidFinishLaunching`: create both managers, then start the
        break timer iff it is enabled and the posture reminder iff it is. */
    method ApplicationDidFinishLaunching()
      requires Overlay.Consistent(overlay.State())
      modifies this
      ensures fresh(timerManager) && fresh(postureReminderManager)
      ensures timerManager != null && postureReminderManager != null
      ensures timerManager.State() ==
        if settingsManager.isEnabled then BreakTimer.Started(BreakTimer.Idle, settingsManager.Snapshot())
        else BreakTimer.Idle
      ensures postureReminderManager.State() ==
        if settingsManager.postureReminderEnabled then Posture.Started(Posture.Initial, settingsManager.Snapshot())
        else Posture.Initial
      ensures Valid()
    {
      var cfg := settingsManager.Snapshot();
      timerManager := new BreakTimer.TimerManager(cfg);
      postureReminderManager := new Posture.PostureReminderManager(cfg);
      if cfg.isEnabled {
        timerManager.Start(cfg);
      }
      if cfg.postureReminderEnabled {
        postureReminderManager.Start(cfg);
      }
    }

    /** One firing of the break tick; a break it triggers requests the overlay
        on the current `screens` (`onBreakTriggered`). */
    method BreakTickFires(screens: seq<Screen>) returns (fired: bool)
      requires Valid()
      requires timerManager != null && timerManager.timer.Some?
      modifies timerManager, overlay
      ensures BreakTimer.TickResult(timerManager.State(), fired) ==
        BreakTimer.Ticked(old(timerManager.State()), settingsManager.Snapshot())
      ensures overlay.State() ==
        if fired then Overlay.Shown(old(overlay.State()), screens, settingsManager.breakDuration)
        else old(overlay.State())
      ensures Valid()
    {
      var cfg := settingsManager.Snapshot();
      BreakTimer.ValidKept(timerManager.State(), cfg, BreakDuration(cfg.breakDuration), cfg);
      Overlay.ConsistentKept(overlay.State(), screens, cfg.breakDuration);
      fired := timerManager.TickFires(cfg);
      if fired {
        overlay.ShowBreakReminder(screens, cfg);
      }
    }

    /** The Skip button of an overlay window: the caller's `onSkip` (the break
        timer's `skip`), then `dismiss`. */
    method SkipPressed()
      requires Valid()
      modifies timerManager, overlay
      ensures timerManager != null ==>
        timerManager.State() == BreakTimer.Skipped(old(timerManager.State()), settingsManager.Snapshot())
      ensures overlay.State() == Overlay.Hidden
      ensures Valid()
    {
      var cfg := settingsManager.Snapshot();
      if timerManager != null {
        BreakTimer.ValidKept(timerManager.State(), cfg, BreakDuration(cfg.breakDuration), cfg);
        timerManager.Skip(cfg);
      }
      overlay.Dismiss();
    }

    /** One setting is assigned: the store is written through, then each
        manager subscribed to that field reacts to the new settings. The
        overlay, and its pending auto-dismiss, are untouched. */
    method SettingChanged(change: Setting)
      requires Valid()
      modifies settingsManager, timerManager, postureReminderManager
      ensures settingsManager.store == old(settingsManager.store)[KeyOf(change) := Encoded(change)]
      ensures settingsManager.Snapshot() == Assigned(old(settingsManager.Snapshot()), change)
      ensures timerManager != null ==>
        timerManager.State() == BreakTimer.Reacted(old(timerManager.State()), change, settingsManager.Snapshot())
      ensures postureReminderManager != null ==>
        postureReminderManager.State() == Posture.Reacted(old(postureReminderManager.State()), change, settingsManager.Snapshot())
      ensures overlay.State() == old(overlay.State())
      ensures Valid()
    {
      match change {
        case BreakInterval(v) => settingsManager.SetBreakInterval(v);
        case BreakDuration(v) => settingsManager.SetBreakDuration(v);
        case IsEnabled(b) => settingsManager.SetIsEnabled(b);
        case PostureReminderEnabled(b) => settingsManager.SetPostureReminderEnabled(b);
        case PostureReminderInterval(v) => settingsManager.SetPostureReminderInterval(v);
        case PostureReminderDuration(v) => settingsManager.SetPostureReminderDuration(v);
      }
      var cfg := settingsManager.Snapshot();
      if timerManager != null {
        BreakTimer.ValidKept(timerManager.State(), old(settingsManager.Snapshot()), change, cfg);
        match change {
          case BreakInterval(_) => timerManager.BreakIntervalDidChange(cfg);
          case IsEnabled(_) => timerManager.IsEnabledDidChange(cfg);
          case _ =>
        }
      }
      if postureReminderManager != null {
        Posture.ValidKept(postureReminderManager.State(), [], cfg, change, 0);
        match change {
          case PostureReminderEnabled(_) => postureReminderManager.PostureReminderEnabledDidChange(cfg);
          case PostureReminderInterval(_) => postureReminderManager.PostureReminderIntervalDidChange(cfg);
          case PostureReminderDuration(_) => postureReminderManager.PostureReminderDurationDidChange();
          case _ =>
        }
      }
    }

    /** `applicationWillTerminate`: stop the break timer, stop the posture
        reminder, dismiss the overlay. */
    method ApplicationWillTerminate()
      modifies timerManager, postureReminderManager, overlay
      ensures timerManager != null ==> timerManager.State() == BreakTimer.Idle
      ensures postureReminderManager != null ==>
        postureReminderManager.State() == Posture.Stopped(old(postureReminderManager.State()))
      ensures overlay.State() == Overlay.Hidden
      ensures Valid()
    {
      if timerManager != null {
        timerManager.Stop();
      }
      if postureReminderManager != null {
        postureReminderManager.Stop();
      }
      overlay.Dismiss();
    }
  }

  /** The two reminder cycles are independent: a posture setting leaves the
      break countdown as it is, and a break setting leaves the posture
      reminder as it is. */
  lemma CyclesIndependent(b: BreakTimer.BreakState, p: Posture.PostureState, change: Setting, cfg: Config)
    ensures (change.PostureReminderEnabled? || change.PostureReminderInterval? || change.PostureReminderDuration?)
      ==> BreakTimer.Reacted(b, change, cfg) == b
    ensures (change.BreakInterval? || change.BreakDuration? || change.IsEnabled?)
      ==> Posture.Reacted(p, change, cfg) == p
  {
  }

  /** With the default settings, the countdown started at launch shows no
      break for 1199 ticks, fires exactly one at tick 1200 and is back at 1200. */
  lemma DefaultBreakCycle(s: BreakTimer.BreakState)
    ensures BreakTimer.Run(BreakTimer.Started(s, Load(map[])), Load(map[]), 1199) ==
      BreakTimer.RunResult(BreakTimer.BreakState(true, 1, Some(BreakTimer.Tick)), 0)
    ensures BreakTimer.Run(BreakTimer.Started(s, Load(map[])), Load(map[]), 1200) ==
      BreakTimer.RunResult(BreakTimer.BreakState(true, 1200, Some(BreakTimer.Tick)), 1)
  {
    LoadEmpty();
    BreakTimer.StartThenTicks(s, Load(map[]), 1199);
    BreakTimer.StartThenTicks(s, Load(map[]), 1200);
  }
}
