/** Stand-ins for the Foundation and AppKit objects the reminder engine drives.
    Timers are reduced to the values they were scheduled with; their firing is an
    explicit method call on the manager that owns them. Screens and windows are
    opaque values: only which screen a window was created for is kept. */
module Platform {

  datatype Option<+T> = None | Some(value: T)

  /** A scheduled Foundation `Timer`: its period (repeating) or delay (one-shot)
      in whole seconds. */
  datatype Timer = Timer(interval: int, repeats: bool)

  /** A connected display, identified by its position in `NSScreen.screens`. */
  type Screen = nat

  /** A borderless window created for one screen. */
  datatype Window = Window(screen: Screen)

  /** The windows a `for screen in screens` loop appends: one per screen, in
      screen order. Defined on the last screen so that it follows the loop. */
  function OnePerScreen(screens: seq<Screen>): seq<Window>
  {
    if screens == [] then []
    else OnePerScreen(screens[..|screens| - 1]) + [Window(screens[|screens| - 1])]
  }

  /** The per-screen loop creates exactly one window for each screen, the i-th
      for the i-th screen. */
  lemma {:induction false} OnePerScreenExactly(screens: seq<Screen>)
    ensures |OnePerScreen(screens)| == |screens|
    ensures forall i :: 0 <= i < |screens| ==> OnePerScreen(screens)[i] == Window(screens[i])
  {
    if screens != [] {
      var init := screens[..|screens| - 1];
      OnePerScreenExactly(init);
      assert forall i :: 0 <= i < |init| ==> init[i] == screens[i];
    }
  }

  /** One more turn of the per-screen loop appends the window of that screen. */
  lemma OnePerScreenStep(screens: seq<Screen>, i: nat)
    requires i < |screens|
    ensures OnePerScreen(screens[..i + 1]) == OnePerScreen(screens[..i]) + [Window(screens[i])]
  {
    assert screens[..i + 1][..i] == screens[..i];
  }
}
