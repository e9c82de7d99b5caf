/** The page-side hooks over the window commands: the height the panel asks
    for, wrappers that call a command and only log its failure, the dispatch
    of focus-change events to the caller's callbacks, and the life cycle of
    the focus-change subscription. */
module WindowHooks {
  import opened Base
  import opened HostWindow
  import Commands

  /** Panel heights in logical pixels. */
  const ExpandedHeight: nat := 600
  const CollapsedHeight: nat := 54

  /** The duration `temporaryDisableAlwaysOnTop` uses when given none. */
  const DefaultDisableMs: nat := 2000

  /** `resizeWindow`'s choice of height. */
  function ResizeHeight(expanded: bool): (h: nat)
    ensures h == ExpandedHeight <==> expanded
    ensures h == CollapsedHeight <==> !expanded
  {
    if expanded then ExpandedHeight else CollapsedHeight
  }

  /** The duration actually requested. */
  function DisableDuration(durationMs: Option<nat>): (d: nat)
    ensures durationMs.Some? ==> d == durationMs.value
    ensures durationMs.None? ==> d == DefaultDisableMs
  {
    match durationMs
    case Some(ms) => ms
    case None => DefaultDisableMs
  }

  // ---------------------------------------------------------------------
  // Wrappers: each runs its command and swallows (logs) any failure, so the
  // caller only sees the window change.

  method ResizeWindow(w: Window, expanded: bool)
    modifies w`size, w`position
    ensures w.State() == Commands.SetWindowHeightStep(old(w.State()), w.faults, ResizeHeight(expanded)).state
  {
    var newHeight := if expanded then ExpandedHeight else CollapsedHeight;
    var _ := Commands.SetWindowHeight(w, newHeight);
  }

  method SetAlwaysOnTop(w: Window, alwaysOnTop: bool)
    modifies w`alwaysOnTop
    ensures w.State() == Commands.SetAlwaysOnTopStep(old(w.State()), w.faults, alwaysOnTop).state
  {
    var _ := Commands.SetAlwaysOnTop(w, alwaysOnTop);
  }

  method BringToFront(w: Window)
    modifies w`focused
    ensures w.State() == Commands.BringToFrontStep(old(w.State()), w.faults).state
  {
    var _ := Commands.BringToFront(w);
  }

  method SetWindowFocus(w: Window, focused: bool)
    modifies w`focused
    ensures w.State() == Commands.SetWindowFocusStep(old(w.State()), w.faults, focused).state
  {
    var _ := Commands.SetWindowFocus(w, focused);
  }

  method TemporaryDisableAlwaysOnTop(w: Window, durationMs: Option<nat>)
    modifies w`alwaysOnTop, w`reenables
    ensures w.State() == Commands.TemporaryDisableStep(old(w.State()), w.faults, DisableDuration(durationMs)).state
  {
    var ms := if durationMs.Some? then durationMs.value else DefaultDisableMs;
    var _ := Commands.TemporaryDisableAlwaysOnTop(w, ms);
  }

  /** Without a duration the window comes back on top 2000 ms later. */
  lemma DefaultDisableSchedulesAt2000(s: WindowState, f: Faults)
    requires SetAlwaysOnTopOp !in f
    ensures var t := Commands.TemporaryDisableStep(s, f, DisableDuration(None)).state;
      !t.alwaysOnTop && t.reenables == s.reenables + [s.clock + 2000]
  {
  }

  // ---------------------------------------------------------------------
  // Focus-change events

  datatype Callback = OnFocusGained | OnFocusLost

  /** `handleFocusChange`: which of the caller's callbacks runs, given whether
      each was supplied. */
  function FocusDispatch(focused: bool, hasGained: bool, hasLost: bool): (c: Option<Callback>)
    ensures c == Some(OnFocusGained) <==> focused && hasGained
    ensures c == Some(OnFocusLost) <==> !focused && hasLost
  {
    if focused && hasGained then Some(OnFocusGained)
    else if !focused && hasLost then Some(OnFocusLost)
    else None
  }

  /** The subscription made by the focus effect: whether the asynchronous
      registration is still in flight, whether the effect holds an `unlisten`
      function, whether the window still delivers events to the handler, and
      whether the effect has been cleaned up. */
  datatype Subscription = Subscription(inFlight: bool, holdsUnlisten: bool, live: bool, cleanedUp: bool)

  const Subscribing: Subscription := Subscription(true, false, false, false)

  /** The registration settles: on success the handler is live and the effect
      keeps the `unlisten` function (even when it was already cleaned up). */
  function Settle(s: Subscription, ok: bool): (t: Subscription)
    requires s.inFlight
    ensures !t.inFlight && t.cleanedUp == s.cleanedUp
    ensures t.live == (s.live || ok) && t.holdsUnlisten == (s.holdsUnlisten || ok)
  {
    s.(inFlight := false, holdsUnlisten := s.holdsUnlisten || ok, live := s.live || ok)
  }

  /** The effect's cleanup: unregister only if `unlisten` is already held. */
  function CleanUp(s: Subscription): (t: Subscription)
    ensures t.cleanedUp && t.inFlight == s.inFlight && t.holdsUnlisten == s.holdsUnlisten
    ensures t.live == (s.live && !s.holdsUnlisten)
  {
    s.(live := s.live && !s.holdsUnlisten, cleanedUp := true)
  }

  /** An invariant of the subscription as the code keeps it: a live handler
      always has its `unlisten` held by the effect. It does not rule out the
      leak (a live handler after cleanup); CheckedSettleNeverLeaks does, for
      the corrected settle. */
  ghost predicate Consistent(s: Subscription)
  {
    s.live ==> s.holdsUnlisten
  }

  lemma SubscriptionConsistent(ok: bool)
    ensures Consistent(Subscribing)
    ensures Consistent(Settle(Subscribing, ok))
    ensures Consistent(CleanUp(Settle(Subscribing, ok)))
    ensures Consistent(Settle(CleanUp(Subscribing), ok))
  {
  }

  /** The event a live subscription hands to `handleFocusChange`. */
  function Deliver(s: Subscription, focused: bool, hasGained: bool, hasLost: bool): (c: Option<Callback>)
    ensures !s.live ==> c == None
    ensures s.live ==> c == FocusDispatch(focused, hasGained, hasLost)
  {
    if s.live then FocusDispatch(focused, hasGained, hasLost) else None
  }

  /** A subscription cleaned up after it settled delivers nothing more. */
  lemma CleanupAfterSettleStops(ok: bool, focused: bool, hasGained: bool, hasLost: bool)
    ensures Deliver(CleanUp(Settle(Subscribing, ok)), focused, hasGained, hasLost) == None
  {
  }

  /** A cleanup that runs while the registration is still in flight removes
      nothing: the handler registered afterwards stays live and keeps calling
      the callbacks of an effect that no longer exists. */
  lemma CleanupBeforeSettleLeaks(focused: bool, hasGained: bool, hasLost: bool)
    ensures Settle(CleanUp(Subscribing), true).live
    ensures Deliver(Settle(CleanUp(Subscribing), true), focused, hasGained, hasLost)
            == FocusDispatch(focused, hasGained, hasLost)
  {
  }

  /** A settle that notices the effect is already cleaned up and unregisters
      at once. */
  function SettleChecked(s: Subscription, ok: bool): (t: Subscription)
    requires s.inFlight
    ensures !t.inFlight && t.cleanedUp == s.cleanedUp
    ensures s.cleanedUp ==> !t.live
    ensures !s.cleanedUp ==> t == Settle(s, ok)
  {
    if s.cleanedUp then s.(inFlight := false, holdsUnlisten := s.holdsUnlisten || ok, live := false)
    else Settle(s, ok)
  }

  /** With the checked settle, a cleaned-up effect never leaves a live handler,
      whichever of cleanup and registration comes first. */
  lemma CheckedSettleNeverLeaks(ok: bool)
    ensures !CleanUp(SettleChecked(Subscribing, ok)).live
    ensures !SettleChecked(CleanUp(Subscribing), ok).live
  {
  }

  /** The focus effect as the hook runs it. */
  class FocusEffect {
    var inFlight: bool
    var holdsUnlisten: bool
    var live: bool
    var cleanedUp: bool

    function State(): Subscription
      reads this
    {
      Subscription(inFlight, holdsUnlisten, live, cleanedUp)
    }

    /** The effect body: start the asynchronous registration. */
    constructor ()
      ensures State() == Subscribing
    {
      inFlight, holdsUnlisten, live, cleanedUp := true, false, false, false;
    }

    /** The registration promise settles (`ok` false: it was rejected and the
        error is logged). */
    method Settled(ok: bool)
      requires inFlight
      modifies this
      ensures State() == Settle(old(State()), ok)
    {
      inFlight := false;
      if ok {
        live := true;
        holdsUnlisten := true;
      }
    }

    /** The settle as it should run: a registration that completes after
        the cleanup is undone at once. */
    method SettledChecked(ok: bool)
      requires inFlight
      modifies this
      ensures State() == SettleChecked(old(State()), ok)
    {
      inFlight := false;
      if ok {
        holdsUnlisten := true;
        live := true;
      }
      if cleanedUp {
        // the registration just made is removed again
        live := false;
      }
    }

    method Cleanup()
      modifies this
      ensures State() == CleanUp(old(State()))
    {
      if holdsUnlisten {
        live := false;
      }
      cleanedUp := true;
    }
  }
}
