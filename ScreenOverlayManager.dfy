/** The break overlay (`ScreenOverlayManager`): one full-screen window per
    screen, shown at most once at a time, closed by a one-shot auto-dismiss
    timer or by the Skip button; and the countdown each overlay shows
    (`BreakReminderView`). */
module Overlay {
  import opened Platform
  import opened Settings

  /** The fields `isShowing`, `windows` and `timer`. */
  datatype OverlayState = OverlayState(isShowing: bool, windows: seq<Window>, timer: Option<Timer>)

  /** The state `dismiss` leaves, whatever it started from. */
  const Hidden := OverlayState(false, [], None)

  /** The one-shot auto-dismiss timer, delayed by the break duration read when
      the overlay is shown. */
  function AutoDismiss(breakDuration: int): Timer
  {
    Timer(breakDuration, false)
  }

  /** `showBreakReminder`: nothing while showing; otherwise append one window
      per screen and schedule the auto-dismiss. */
  function Shown(s: OverlayState, screens: seq<Screen>, breakDuration: int): OverlayState
  {
    if s.isShowing then s
    else OverlayState(true, s.windows + OnePerScreen(screens), Some(AutoDismiss(breakDuration)))
  }

  /** The overlay's invariant: when not showing there are no windows and no
      pending timer; when showing there is exactly one pending one-shot timer. */
  ghost predicate Consistent(s: OverlayState)
  {
    && (!s.isShowing ==> s.windows == [] && s.timer == None)
    && (s.isShowing ==> s.timer.Some? && !s.timer.value.repeats)
  }

  /** Showing while already showing adds no windows and no timer. */
  lemma ShowWhileShowing(s: OverlayState, screens: seq<Screen>, breakDuration: int)
    requires s.isShowing
    ensures Shown(s, screens, breakDuration) == s
  {
  }

  /** Showing from not showing, with `n` screens, leaves the overlay showing
      with exactly `n` windows, one per screen, and one pending auto-dismiss
      delayed by the break duration of that moment. */
  lemma ShowFromHidden(s: OverlayState, screens: seq<Screen>, breakDuration: int)
    requires Consistent(s) && !s.isShowing
    ensures Shown(s, screens, breakDuration).isShowing
    ensures Shown(s, screens, breakDuration).timer == Some(Timer(breakDuration, false))
    ensures |Shown(s, screens, breakDuration).windows| == |screens|
    ensures forall i :: 0 <= i < |screens| ==>
      Shown(s, screens, breakDuration).windows[i] == Window(screens[i])
  {
    OnePerScreenExactly(screens);
  }

  /** Showing and dismissing keep the invariant. */
  lemma ConsistentKept(s: OverlayState, screens: seq<Screen>, breakDuration: int)
    requires Consistent(s)
    ensures Consistent(Hidden)
    ensures Consistent(Shown(s, screens, breakDuration))
  {
  }

  // ---- The countdown of `BreakReminderView` ----

  /** The view's `timeRemaining` and whether its repeating timer still runs. */
  datatype CountdownState = CountdownState(timeRemaining: int, counting: bool)

  /** One firing of the countdown timer: decrement while positive, otherwise
      invalidate the timer. */
  function CountdownTicked(c: CountdownState): CountdownState
  {
    if c.timeRemaining > 0 then c.(timeRemaining := c.timeRemaining - 1)
    else c.(counting := false)
  }

  /** The countdown after `k` firings; an invalidated timer fires no more. */
  function CountdownAfter(c: CountdownState, k: nat): CountdownState
    decreases k
  {
    if k == 0 || !c.counting then c else CountdownAfter(CountdownTicked(c), k - 1)
  }

  /** Counting from a whole number of seconds `r >= 0`: after `k` firings the
      view shows `r - k` while that is positive and then 0, never less; the
      timer is invalidated by the first firing after it reached 0. */
  lemma {:induction false} CountdownToZero(c: CountdownState, k: nat)
    requires c.counting && c.timeRemaining >= 0
    decreases k
    ensures CountdownAfter(c, k).timeRemaining == if k <= c.timeRemaining then c.timeRemaining - k else 0
    ensures CountdownAfter(c, k).counting <==> k <= c.timeRemaining
  {
    if k > 0 && c.timeRemaining > 0 {
      CountdownToZero(CountdownTicked(c), k - 1);
    }
  }

  /** A duration of zero or less is never counted down: the first firing
      invalidates the timer and the view keeps showing the duration. */
  lemma NonPositiveCountdown(duration: int, k: nat)
    requires duration <= 0 && k >= 1
    ensures CountdownAfter(CountdownState(duration, true), k) == CountdownState(duration, false)
  {
  }

  /** `BreakReminderView`: the countdown starts when its window appears, which
      is when the overlay orders it front. */
  class BreakReminderView {
    const duration: int
    var timeRemaining: int
    var countdown: Option<Timer>

    function Countdown(): CountdownState
      reads this
    {
      CountdownState(timeRemaining, countdown.Some?)
    }

    /** `init` and `onAppear`: start at the duration with a one-second
        repeating timer. */
    constructor (duration: int)
      ensures this.duration == duration
      ensures Countdown() == CountdownState(duration, true) && countdown == Some(Timer(1, true))
    {
      this.duration := duration;
      timeRemaining := duration;
      countdown := Some(Timer(1, true));
    }

    /** One firing of the `startCountdown` timer. */
    method CountdownFires()
      requires countdown.Some?
      modifies this
      ensures Countdown() == CountdownTicked(old(Countdown()))
      ensures countdown.Some? ==> countdown == old(countdown)
    {
      if timeRemaining > 0 {
        timeRemaining := timeRemaining - 1;
      } else {
        countdown := None;
      }
    }
  }

  /** `ScreenOverlayManager` */
  class ScreenOverlayManager {
    var windows: seq<Window>
    var timer: Option<Timer>
    var isShowing: bool

    function State(): OverlayState
      reads this
    {
      OverlayState(isShowing, windows, timer)
    }

    constructor ()
      ensures State() == Hidden
    {
      windows := [];
      timer := None;
      isShowing := false;
    }

    /** `showBreakReminder` on the current `screens`, reading the break
        duration from `cfg`. */
    method ShowBreakReminder(screens: seq<Screen>, cfg: Config)
      modifies this
      ensures State() == Shown(old(State()), screens, cfg.breakDuration)
    {
      if isShowing {
        return;
      }
      isShowing := true;
      var i := 0;
      while i < |screens|
        invariant 0 <= i <= |screens|
        invariant windows == old(windows) + OnePerScreen(screens[..i])
        invariant isShowing && timer == old(timer)
      {
        OnePerScreenStep(screens, i);
        windows := windows + [Window(screens[i])];
        i := i + 1;
      }
      assert screens[..|screens|] == screens;
      timer := Some(AutoDismiss(cfg.breakDuration));
    }

    /** `dismiss`: cancel the timer, close and drop every window. Idempotent:
        the result does not depend on the state it starts from. */
    method Dismiss()
      modifies this
      ensures State() == Hidden
    {
      timer := None;
      windows := [];
      isShowing := false;
    }

    /** The auto-dismiss timer fires. */
    method AutoDismissFires()
      requires timer.Some?
      modifies this
      ensures State() == Hidden
    {
      Dismiss();
    }
  }
}
