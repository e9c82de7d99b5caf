/** The window commands the web page invokes on the native side, and the
    global shortcut that toggles the overlay. Each command makes its platform
    calls in order and stops at the first failure, reporting it with a
    command-specific prefix. */
module Commands {
  import opened Base
  import opened HostWindow
  import opened Placement

  /** The logical width every height change keeps. */
  const WindowWidth: nat := 700

  /** The y-offset `set_window_height` repositions at (the value of `TOP_OFFSET`). */
  const ResizeOffset: int := 54

  /** The event the global shortcut sends to the main window. */
  const ShortcutEvent: string := "global-shortcut-pressed"

  // ---------------------------------------------------------------------
  // What each command does to a window

  /** `set_window_height`: resize to 700 x height, then re-centre at the top;
      a repositioning failure is only logged. */
  function SetWindowHeightStep(s: WindowState, f: Faults, height: nat): (st: Step)
    ensures st.result.Ok? <==> SetSizeOp !in f
    ensures st.result.Err? ==> st == Step(Err("Failed to resize window: " + f[SetSizeOp]), s)
    ensures st.result.Ok? ==> st.state.size == Size(WindowWidth, height)
    ensures st.result.Ok? ==>
              st.state == s.(size := Size(WindowWidth, height))
              || st.state == s.(size := Size(WindowWidth, height), position := st.state.position)
  {
    if SetSizeOp in f then Step(Err("Failed to resize window: " + f[SetSizeOp]), s)
    else Step(Ok(()), TopCenterStep(s.(size := Size(WindowWidth, height)), f, ResizeOffset).state)
  }

  /** After a successful resize with a primary monitor and working position
      calls, the window is centred horizontally for its new width, 54 pixels
      from the top, and lies on the monitor if it fits. */
  lemma SetWindowHeightRecentres(s: WindowState, f: Faults, height: nat)
    requires SetSizeOp !in f && PrimaryMonitorOp !in f && OuterSizeOp !in f && SetPositionOp !in f
    requires s.monitor.Some?
    ensures var p := SetWindowHeightStep(s, f, height).state.position;
      var m := s.monitor.value.width;
      var w := WindowWidth * s.scale;
      && p == Position(CenterOffset(m, w), ResizeOffset)
      && (w <= m < TwoTo31 ==> 0 <= p.x && p.x + w <= m)
  {
    var t := s.(size := Size(WindowWidth, height));
    assert OuterOf(t).width == WindowWidth * s.scale;
    if WindowWidth * s.scale <= s.monitor.value.width < TwoTo31 {
      CenterOffsetFits(s.monitor.value.width, WindowWidth * s.scale);
    }
  }

  /** A failed repositioning is swallowed: the command still reports success
      and the window keeps its old position with the new size. */
  lemma SetWindowHeightIgnoresPositionFailure(s: WindowState, f: Faults, height: nat)
    requires SetSizeOp !in f && (PrimaryMonitorOp in f || OuterSizeOp in f || SetPositionOp in f)
    ensures SetWindowHeightStep(s, f, height) == Step(Ok(()), s.(size := Size(WindowWidth, height)))
  {
  }

  /** `set_always_on_top`: the attribute becomes exactly the requested flag. */
  function SetAlwaysOnTopStep(s: WindowState, f: Faults, on: bool): (st: Step)
    ensures st.result.Ok? <==> SetAlwaysOnTopOp !in f
    ensures st.result.Ok? ==> st.state == s.(alwaysOnTop := on)
    ensures st.result.Err? ==>
              st == Step(Err("Failed to set always on top: " + f[SetAlwaysOnTopOp]), s)
  {
    if SetAlwaysOnTopOp in f then Step(Err("Failed to set always on top: " + f[SetAlwaysOnTopOp]), s)
    else Step(Ok(()), s.(alwaysOnTop := on))
  }

  /** `bring_to_front`: focus the window. */
  function BringToFrontStep(s: WindowState, f: Faults): (st: Step)
    ensures st.result.Ok? <==> SetFocusOp !in f
    ensures st.state == if st.result.Ok? then s.(focused := true) else s
    ensures st.result.Err? ==> st.result.error == "Failed to bring window to front: " + f[SetFocusOp]
  {
    if SetFocusOp in f then Step(Err("Failed to bring window to front: " + f[SetFocusOp]), s)
    else Step(Ok(()), s.(focused := true))
  }

  /** `set_window_focus`: focus on `true`; `false` is accepted and does nothing,
      since the platform has no way to take the focus away. */
  function SetWindowFocusStep(s: WindowState, f: Faults, focused: bool): (st: Step)
    ensures !focused ==> st == Step(Ok(()), s)
    ensures focused ==> (st.result.Ok? <==> SetFocusOp !in f)
    ensures focused && st.result.Err? ==> st == Step(Err("Failed to focus window: " + f[SetFocusOp]), s)
  {
    if !focused then Step(Ok(()), s)
    else if SetFocusOp in f then Step(Err("Failed to focus window: " + f[SetFocusOp]), s)
    else Step(Ok(()), s.(focused := true))
  }

  /** `bring_to_front` and `set_window_focus(true)` make the same call: they
      succeed together and leave the same window; only their messages differ. */
  lemma BringToFrontIsFocus(s: WindowState, f: Faults)
    ensures BringToFrontStep(s, f).state == SetWindowFocusStep(s, f, true).state
    ensures BringToFrontStep(s, f).result.Ok? <==> SetWindowFocusStep(s, f, true).result.Ok?
  {
  }

  /** `temporary_disable_always_on_top`: drop always-on-top now and spawn a
      task that restores it `durationMs` later; if the first call fails,
      nothing is scheduled. */
  function TemporaryDisableStep(s: WindowState, f: Faults, durationMs: nat): (st: Step)
    ensures st.result.Ok? <==> SetAlwaysOnTopOp !in f
    ensures st.result.Err? ==>
              st == Step(Err("Failed to disable always on top: " + f[SetAlwaysOnTopOp]), s)
    ensures st.result.Ok? ==>
              st.state == s.(alwaysOnTop := false, reenables := s.reenables + [s.clock + durationMs])
  {
    if SetAlwaysOnTopOp in f then Step(Err("Failed to disable always on top: " + f[SetAlwaysOnTopOp]), s)
    else Step(Ok(()), s.(alwaysOnTop := false, reenables := s.reenables + [s.clock + durationMs]))
  }

  /** Once the duration has passed, the window is back on top, provided the
      restoring call then works. */
  lemma TemporaryDisableRestores(s: WindowState, f: Faults, durationMs: nat, later: Faults, now: int)
    requires SetAlwaysOnTopOp !in f && SetAlwaysOnTopOp !in later
    requires now >= s.clock + durationMs
    ensures ExpireReenables(TemporaryDisableStep(s, f, durationMs).state, later, now).alwaysOnTop
  {
    var rs := TemporaryDisableStep(s, f, durationMs).state.reenables;
    assert rs[..|rs| - 1] == s.reenables;
    assert DueReenables(rs, now) > 0;
  }

  /** Before the duration has passed, and with no earlier re-enable due, the
      window stays off top. */
  lemma TemporaryDisableHolds(s: WindowState, f: Faults, durationMs: nat, later: Faults, now: int)
    requires SetAlwaysOnTopOp !in f
    requires s.clock <= now < s.clock + durationMs
    requires forall i :: 0 <= i < |s.reenables| ==> s.reenables[i] > now
    ensures !ExpireReenables(TemporaryDisableStep(s, f, durationMs).state, later, now).alwaysOnTop
  {
    var rs := TemporaryDisableStep(s, f, durationMs).state.reenables;
    assert rs[..|rs| - 1] == s.reenables;
    assert forall i :: 0 <= i < |rs| ==> rs[i] > now;
  }

  /** `toggle_window_visibility`: hide a visible window; show and then focus a
      hidden one. A failed visibility query changes nothing. */
  function ToggleStep(s: WindowState, f: Faults): (st: Step)
    ensures st.result.Ok? ==> st.state.visible == !s.visible
    ensures st.result.Ok? <==>
              IsVisibleOp !in f && (if s.visible then HideOp !in f else ShowOp !in f && SetFocusOp !in f)
    ensures IsVisibleOp in f ==>
              st == Step(Err("Failed to get window visibility: " + f[IsVisibleOp]), s)
    ensures st.state == s || st.state == s.(visible := st.state.visible, focused := st.state.focused)
    ensures st.state.focused != s.focused ==> st.result.Ok? && !s.visible
  {
    if IsVisibleOp in f then Step(Err("Failed to get window visibility: " + f[IsVisibleOp]), s)
    else if s.visible then
      if HideOp in f then Step(Err("Failed to hide window: " + f[HideOp]), s)
      else Step(Ok(()), s.(visible := false))
    else if ShowOp in f then Step(Err("Failed to show window: " + f[ShowOp]), s)
    else
      var shown := s.(visible := true);
      if SetFocusOp in f then Step(Err("Failed to focus window: " + f[SetFocusOp]), shown)
      else Step(Ok(()), shown.(focused := true))
  }

  /** Two successful toggles give back the original visibility. */
  lemma ToggleTwiceRestores(s: WindowState, f: Faults, g: Faults)
    requires ToggleStep(s, f).result.Ok?
    requires ToggleStep(ToggleStep(s, f).state, g).result.Ok?
    ensures ToggleStep(ToggleStep(s, f).state, g).state.visible == s.visible
  {
  }

  /** Showing a hidden window can succeed while focusing it fails: the command
      then reports an error although the window did become visible. */
  lemma ToggleShowsDespiteFocusFailure(s: WindowState, f: Faults)
    requires !s.visible && IsVisibleOp !in f && ShowOp !in f && SetFocusOp in f
    ensures ToggleStep(s, f) == Step(Err("Failed to focus window: " + f[SetFocusOp]), s.(visible := true))
  {
  }

  /** The platform-specific chord of the global shortcut. */
  function GlobalShortcut(isMacOS: bool): (chord: string)
    ensures Contains(chord, "Slash")
    ensures isMacOS <==> chord == "Cmd+Slash"
    ensures !isMacOS <==> chord == "Ctrl+Slash"
  {
    var chord := if isMacOS then "Cmd+Slash" else "Ctrl+Slash";
    ContainsInfix(chord[..|chord| - 5], "Slash", []);
    assert chord[..|chord| - 5] + "Slash" + [] == chord;
    chord
  }

  // ---------------------------------------------------------------------
  // The commands on a window

  method SetWindowHeight(w: Window, height: nat) returns (r: Result<()>)
    modifies w`size, w`position
    ensures Step(r, w.State()) == SetWindowHeightStep(old(w.State()), w.faults, height)
  {
    var resized := w.SetSize(Size(WindowWidth, height));
    if resized.Err? {
      return Err("Failed to resize window: " + resized.error);
    }
    var _ := PositionTopCenter(w, ResizeOffset);
    return Ok(());
  }

  method SetAlwaysOnTop(w: Window, on: bool) returns (r: Result<()>)
    modifies w`alwaysOnTop
    ensures Step(r, w.State()) == SetAlwaysOnTopStep(old(w.State()), w.faults, on)
  {
    var done := w.SetAlwaysOnTop(on);
    r := WithPrefix("Failed to set always on top: ", done);
  }

  method BringToFront(w: Window) returns (r: Result<()>)
    modifies w`focused
    ensures Step(r, w.State()) == BringToFrontStep(old(w.State()), w.faults)
  {
    var done := w.SetFocus();
    r := WithPrefix("Failed to bring window to front: ", done);
  }

  method SetWindowFocus(w: Window, focused: bool) returns (r: Result<()>)
    modifies w`focused
    ensures Step(r, w.State()) == SetWindowFocusStep(old(w.State()), w.faults, focused)
  {
    if focused {
      var done := w.SetFocus();
      r := WithPrefix("Failed to focus window: ", done);
    } else {
      r := Ok(());
    }
  }

  method TemporaryDisableAlwaysOnTop(w: Window, durationMs: nat) returns (r: Result<()>)
    modifies w`alwaysOnTop, w`reenables
    ensures Step(r, w.State()) == TemporaryDisableStep(old(w.State()), w.faults, durationMs)
  {
    var disabled := w.SetAlwaysOnTop(false);
    if disabled.Err? {
      return Err("Failed to disable always on top: " + disabled.error);
    }
    w.ScheduleReenable(durationMs);
    return Ok(());
  }

  method ToggleWindowVisibility(w: Window) returns (r: Result<()>)
    modifies w`visible, w`focused
    ensures Step(r, w.State()) == ToggleStep(old(w.State()), w.faults)
  {
    var visible := w.IsVisible();
    match visible
    case Err(e) =>
      r := Err("Failed to get window visibility: " + e);
    case Ok(true) =>
      var hidden := w.Hide();
      r := WithPrefix("Failed to hide window: ", hidden);
    case Ok(false) =>
      var shown := w.Show();
      if shown.Err? {
        return Err("Failed to show window: " + shown.error);
      }
      var focused := w.SetFocus();
      r := WithPrefix("Failed to focus window: ", focused);
  }

  /** The global shortcut's handler: tell the main window's page, ignoring a
      failure to deliver. */
  method OnGlobalShortcut(main: Window)
    modifies main`emitted
    ensures main.emitted == old(main.emitted) + (if EmitOp in main.faults then [] else [ShortcutEvent])
  {
    var _ := main.Emit(ShortcutEvent);
  }
}
