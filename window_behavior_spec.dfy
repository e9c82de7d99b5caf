/** The window-presence coordinator of `src/hooks/useWindowBehavior.ts`, as
    functions on values: what each handler, each focus-check tick and each
    delayed action does to the presence flags, which timeouts it schedules and
    which window commands and callbacks it issues. The class in
    window_behavior.dfy holds the same state in fields and is proved against
    these functions. */
module WindowBehaviorSpec {
  import opened Base

  // The coordinator's fixed delays and thresholds, in milliseconds.
  const InteractionTimeoutMs: int := 3000
  const EnforcementWindowMs: int := 5000
  const SystemSuspendMs: int := 3000
  const BlurDebounceMs: int := 500
  const VisibilityGraceMs: int := 1000

  /** The hook's options; `hasOnFocusLost`/`hasOnFocusGained` say whether the
      optional callbacks were supplied. */
  datatype Config = Config(
    maintainAlwaysOnTop: bool,
    respectSystemInteractions: bool,
    autoHideOnSystemInteraction: bool,
    focusCheckInterval: int,
    hasOnFocusLost: bool,
    hasOnFocusGained: bool)

  /** The option defaults of the hook's parameter object. */
  function DefaultConfig(): (c: Config)
    ensures c.maintainAlwaysOnTop && c.respectSystemInteractions && !c.autoHideOnSystemInteraction
    ensures c.focusCheckInterval == 2000 && !c.hasOnFocusLost && !c.hasOnFocusGained
  {
    Config(true, true, false, 2000, false, false)
  }

  /** The four refs that record what the coordinator believes. */
  datatype Presence = Presence(
    focused: bool,
    userInteracting: bool,
    lastUserInteraction: int,
    systemInteractionDetected: bool)

  /** The state right after the first render at time `now`. */
  function InitialPresence(now: int): (p: Presence)
    ensures !p.focused && !p.userInteracting && !p.systemInteractionDetected
    ensures p.lastUserInteraction == now
  {
    Presence(false, false, now, false)
  }

  /** The user is never believed to be interacting while a system
      interaction is flagged. */
  predicate Exclusive(p: Presence)
  {
    !(p.userInteracting && p.systemInteractionDetected)
  }

  /** The host commands the coordinator invokes. */
  datatype Command =
    | SetAlwaysOnTop(alwaysOnTop: bool)
    | BringToFront
    | SetWindowFocus(focused: bool)
    | TemporaryDisableAlwaysOnTop(durationMs: int)

  /** What the coordinator does to the outside world, in order. */
  datatype Effect = Invoke(command: Command) | FocusGainedCallback | FocusLostCallback

  /** The two callbacks passed to `setTimeout`. */
  datatype Delayed = ClearUserInteracting | ClearSystemInteraction

  datatype Timeout = Timeout(due: int, action: Delayed)

  /** What one handler leaves behind: the new presence, the timeouts it
      scheduled and the effects it issued. */
  datatype Reaction = Reaction(presence: Presence, scheduled: seq<Timeout>, effects: seq<Effect>)

  function Unchanged(p: Presence): Reaction
  {
    Reaction(p, [], [])
  }

  // ---------------------------------------------------------------------
  // Sequenced commands: each awaited invocation that rejects skips the rest.

  /** The commands actually invoked when `planned` is awaited in order and
      the ones in `failing` reject: everything up to and including the first
      rejection. */
  function IssueUntilFailure(planned: seq<Command>, failing: set<Command>): (issued: seq<Command>)
    ensures issued <= planned
    ensures forall i :: 0 <= i < |issued| - 1 ==> issued[i] !in failing
    ensures issued == planned || (|issued| > 0 && issued[|issued| - 1] in failing)
    ensures (forall c :: c in planned ==> c !in failing) ==> issued == planned
  {
    if planned == [] then []
    else if planned[0] in failing then [planned[0]]
    else [planned[0]] + IssueUntilFailure(planned[1..], failing)
  }

  function Invocations(cs: seq<Command>): (es: seq<Effect>)
    ensures |es| == |cs|
    ensures forall i :: 0 <= i < |cs| ==> es[i] == Invoke(cs[i])
  {
    if cs == [] then [] else [Invoke(cs[0])] + Invocations(cs[1..])
  }

  lemma InvocationsHas(cs: seq<Command>, c: Command)
    ensures Invoke(c) in Invocations(cs) <==> c in cs
  {
    var es := Invocations(cs);
    if c in cs {
      var i :| 0 <= i < |cs| && cs[i] == c;
      assert es[i] == Invoke(c);
    }
  }

  // ---------------------------------------------------------------------
  // bringToFront

  /** What `bringToFront` means to do when nothing fails. */
  function PlannedBringToFront(cfg: Config, p: Presence): (cs: seq<Command>)
    ensures |cs| <= 3
    ensures SetAlwaysOnTop(true) in cs <==> cfg.maintainAlwaysOnTop && !p.systemInteractionDetected
    ensures BringToFront in cs <==> p.userInteracting
    ensures SetWindowFocus(true) in cs <==> p.userInteracting
    ensures p.userInteracting ==> cs[|cs| - 2..] == [BringToFront, SetWindowFocus(true)]
  {
    (if cfg.maintainAlwaysOnTop && !p.systemInteractionDetected then [SetAlwaysOnTop(true)] else [])
    + (if p.userInteracting then [BringToFront, SetWindowFocus(true)] else [])
  }

  /** `bringToFront`: the invocations it makes when the ones in `failing`
      reject. It re-pins the window if always-on-top is maintained and no
      system interaction is flagged; then, while the user is interacting, it
      raises and focuses the window. The first rejection is caught and ends
      the attempt. */
  function BringToFrontEffects(cfg: Config, p: Presence, failing: set<Command>): (es: seq<Effect>)
    ensures |es| <= 3
  {
    var pin := cfg.maintainAlwaysOnTop && !p.systemInteractionDetected;
    (if pin then [Invoke(SetAlwaysOnTop(true))] else [])
    + (if pin && SetAlwaysOnTop(true) in failing then []
       else if !p.userInteracting then []
       else if BringToFront in failing then [Invoke(BringToFront)]
       else [Invoke(BringToFront), Invoke(SetWindowFocus(true))])
  }

  /** `bringToFront` is its plan awaited step by step up to the first
      rejection. */
  lemma BringToFrontFollowsPlan(cfg: Config, p: Presence, failing: set<Command>)
    ensures BringToFrontEffects(cfg, p, failing)
              == Invocations(IssueUntilFailure(PlannedBringToFront(cfg, p), failing))
  {
    var pin := cfg.maintainAlwaysOnTop && !p.systemInteractionDetected;
    var tail := if p.userInteracting then [BringToFront, SetWindowFocus(true)] else [];
    var planned := PlannedBringToFront(cfg, p);
    var rest := IssueUntilFailure(tail, failing);
    assert planned == (if pin then [SetAlwaysOnTop(true)] else []) + tail;
    if p.userInteracting {
      IssueFrontFocus(failing);
    } else {
      assert rest == [];
    }
    if pin {
      assert planned[0] == SetAlwaysOnTop(true) && planned[1..] == tail;
      if SetAlwaysOnTop(true) !in failing {
        var issued := [SetAlwaysOnTop(true)] + rest;
        assert IssueUntilFailure(planned, failing) == issued;
        assert issued[0] == SetAlwaysOnTop(true) && issued[1..] == rest;
      }
    } else {
      assert planned == tail;
    }
  }

  /** Raising then focusing, cut at the first rejection. */
  lemma IssueFrontFocus(failing: set<Command>)
    ensures Invocations(IssueUntilFailure([BringToFront, SetWindowFocus(true)], failing))
              == if BringToFront in failing then [Invoke(BringToFront)]
                 else [Invoke(BringToFront), Invoke(SetWindowFocus(true))]
  {
    var t := [BringToFront, SetWindowFocus(true)];
    assert t[1..] == [SetWindowFocus(true)];
    assert [SetWindowFocus(true)][1..] == [];
  }

  /** `bringToFront` re-pins iff always-on-top is maintained and no system
      interaction is flagged; it raises and then focuses the window only
      while the user is interacting, and only if no earlier invocation
      rejected; it invokes nothing else. */
  lemma BringToFrontIssues(cfg: Config, p: Presence, failing: set<Command>)
    ensures var es := BringToFrontEffects(cfg, p, failing);
      && (Invoke(SetAlwaysOnTop(true)) in es <==> cfg.maintainAlwaysOnTop && !p.systemInteractionDetected)
      && ((Invoke(BringToFront) in es)
            <==> p.userInteracting
                 && !(cfg.maintainAlwaysOnTop && !p.systemInteractionDetected && SetAlwaysOnTop(true) in failing))
      && ((Invoke(SetWindowFocus(true)) in es)
            <==> p.userInteracting && BringToFront !in failing
                 && !(cfg.maintainAlwaysOnTop && !p.systemInteractionDetected && SetAlwaysOnTop(true) in failing))
      && (forall e :: e in es ==> e in [Invoke(SetAlwaysOnTop(true)), Invoke(BringToFront), Invoke(SetWindowFocus(true))])
  {
  }

  /** The mount-time attempt never raises or focuses the window: nobody is
      interacting yet. */
  lemma MountAttemptDoesNotSteal(cfg: Config, now: int, failing: set<Command>)
    ensures Invoke(BringToFront) !in BringToFrontEffects(cfg, InitialPresence(now), failing)
    ensures Invoke(SetWindowFocus(true)) !in BringToFrontEffects(cfg, InitialPresence(now), failing)
  {
    BringToFrontIssues(cfg, InitialPresence(now), failing);
  }

  // ---------------------------------------------------------------------
  // checkWindowFocus

  /** The transition step of a tick: only a change of the queried focus
      updates the record and fires the matching callback. */
  function FocusTransition(cfg: Config, p: Presence, isFocused: bool, now: int): (r: Reaction)
    ensures r.scheduled == []
    ensures r.presence.focused == isFocused
    ensures isFocused == p.focused ==> r == Unchanged(p)
    ensures isFocused && !p.focused ==>
              r.presence == Presence(true, true, now, false)
              && r.effects == (if cfg.hasOnFocusGained then [FocusGainedCallback] else [])
    ensures !isFocused && p.focused ==>
              r.presence == p.(focused := false, userInteracting := false)
              && r.effects == (if cfg.hasOnFocusLost then [FocusLostCallback] else [])
  {
    if isFocused == p.focused then Unchanged(p)
    else if isFocused then
      Reaction(p.(focused := true, userInteracting := true, lastUserInteraction := now,
                  systemInteractionDetected := false),
               [], if cfg.hasOnFocusGained then [FocusGainedCallback] else [])
    else
      Reaction(p.(focused := false, userInteracting := false),
               [], if cfg.hasOnFocusLost then [FocusLostCallback] else [])
  }

  /** One run of `checkWindowFocus` at time `now`; `query` is the result of
      asking the window whether it is focused (`None` when the query rejects). */
  function CheckWindowFocus(cfg: Config, p: Presence, now: int, query: Option<bool>): (r: Reaction)
    ensures r.scheduled == []
    // A rejected query changes nothing and issues nothing.
    ensures query.None? ==> r == Unchanged(p)
    ensures query.Some? ==> r.presence.focused == query.value
    // Exactly one callback, and only on a change of focus.
    ensures (FocusGainedCallback in r.effects) <==> query == Some(true) && !p.focused && cfg.hasOnFocusGained
    ensures (FocusLostCallback in r.effects) <==> query == Some(false) && p.focused && cfg.hasOnFocusLost
    ensures query.Some? && query.value == p.focused ==>
              r.presence.lastUserInteraction == p.lastUserInteraction
              && r.presence.systemInteractionDetected == p.systemInteractionDetected
    ensures query == Some(true) && !p.focused ==>
              r.presence.lastUserInteraction == now && !r.presence.systemInteractionDetected
              && r.presence.userInteracting
    ensures query == Some(false) && p.focused ==> !r.presence.userInteracting
    // Decay: after the transition, more than 3000 ms without interaction clears the flag.
    ensures query.Some? ==>
              var t := FocusTransition(cfg, p, query.value, now).presence;
              r.presence.userInteracting
                == (t.userInteracting && now - t.lastUserInteraction <= InteractionTimeoutMs)
    // Enforcement: re-pin iff configured, no system interaction, and under 5000 ms since interaction.
    ensures query.Some? ==>
              ((Invoke(SetAlwaysOnTop(true)) in r.effects)
                <==> cfg.maintainAlwaysOnTop && !r.presence.systemInteractionDetected
                     && now - r.presence.lastUserInteraction < EnforcementWindowMs)
    // A tick never raises or focuses the window.
    ensures forall c :: Invoke(c) in r.effects ==> c == SetAlwaysOnTop(true)
    ensures Exclusive(p) ==> Exclusive(r.presence)
  {
    match query
    case None => Unchanged(p)
    case Some(isFocused) =>
      var t := FocusTransition(cfg, p, isFocused, now);
      var d := DecayAndEnforce(cfg, t.presence, now);
      Reaction(d.presence, [], t.effects + d.effects)
  }

  /** The second half of a tick, after the transition: the interaction flag
      decays after 3000 ms, and always-on-top is re-pinned within 5000 ms of
      the last interaction unless a system interaction is flagged. */
  function DecayAndEnforce(cfg: Config, q: Presence, now: int): (r: Reaction)
    ensures r.scheduled == []
    ensures r.presence == q.(userInteracting := q.userInteracting && now - q.lastUserInteraction <= InteractionTimeoutMs)
    ensures r.effects == [] || r.effects == [Invoke(SetAlwaysOnTop(true))]
  {
    var elapsed := now - q.lastUserInteraction;
    var q' := if elapsed > InteractionTimeoutMs then q.(userInteracting := false) else q;
    var pin := cfg.maintainAlwaysOnTop && !q'.systemInteractionDetected && elapsed < EnforcementWindowMs;
    Reaction(q', [], if pin then [Invoke(SetAlwaysOnTop(true))] else [])
  }

  // ---------------------------------------------------------------------
  // Input handlers

  /** A key event as the handler sees it. */
  datatype Key = Key(key: string, altKey: bool, ctrlKey: bool, metaKey: bool)

  /** The shortcuts that hand control to the operating system: Alt+Tab,
      Cmd/Win+Tab, Ctrl+Alt+Delete and Cmd+Space. */
  function IsSystemCombo(k: Key): (b: bool)
    ensures b ==> k.key == "Tab" || k.key == "Delete" || k.key == " "
    ensures b ==> k.altKey || k.metaKey
    ensures k.key == "Tab" ==> (b <==> k.altKey || k.metaKey)
    ensures k.key == "Delete" ==> (b <==> k.ctrlKey && k.altKey)
    ensures k.key == " " ==> (b <==> k.metaKey)
  {
    (k.altKey && k.key == "Tab")
    || (k.metaKey && k.key == "Tab")
    || (k.ctrlKey && k.altKey && k.key == "Delete")
    || (k.metaKey && k.key == " ")
  }

  /** `handleKeyDown`: a system shortcut (when system interactions are
      respected) flags the system interaction, ends the user interaction and,
      with auto-hide, suspends always-on-top for 3000 ms. */
  function HandleKeyDown(cfg: Config, p: Presence, k: Key): (r: Reaction)
    ensures r.scheduled == []
    ensures cfg.respectSystemInteractions && IsSystemCombo(k) ==>
              r.presence == p.(systemInteractionDetected := true, userInteracting := false)
              && r.effects == (if cfg.autoHideOnSystemInteraction
                               then [Invoke(TemporaryDisableAlwaysOnTop(SystemSuspendMs))] else [])
    ensures !(cfg.respectSystemInteractions && IsSystemCombo(k)) ==> r == Unchanged(p)
    ensures Exclusive(p) ==> Exclusive(r.presence)
  {
    if cfg.respectSystemInteractions && IsSystemCombo(k) then
      Reaction(p.(systemInteractionDetected := true, userInteracting := false), [],
               if cfg.autoHideOnSystemInteraction
               then [Invoke(TemporaryDisableAlwaysOnTop(SystemSuspendMs))] else [])
    else Unchanged(p)
  }

  /** `handleUserInteraction`: the user is now interacting, as of `now`, and
      any system interaction is over. */
  function HandleUserInteraction(p: Presence, now: int): (r: Presence)
    ensures r.userInteracting && !r.systemInteractionDetected && Exclusive(r)
    ensures r.lastUserInteraction == now && r.focused == p.focused
  {
    p.(lastUserInteraction := now, userInteracting := true, systemInteractionDetected := false)
  }

  /** `handleWindowBlur`: nothing changes now; with no system interaction
      flagged and system interactions respected, a clear of the user flag is
      scheduled 500 ms later. */
  function HandleWindowBlur(cfg: Config, p: Presence, now: int): (r: Reaction)
    ensures r.presence == p && r.effects == []
    ensures !p.systemInteractionDetected && cfg.respectSystemInteractions ==>
              r.scheduled == [Timeout(now + BlurDebounceMs, ClearUserInteracting)]
    ensures p.systemInteractionDetected || !cfg.respectSystemInteractions ==> r.scheduled == []
  {
    if !p.systemInteractionDetected && cfg.respectSystemInteractions then
      Reaction(p, [Timeout(now + BlurDebounceMs, ClearUserInteracting)], [])
    else Unchanged(p)
  }

  /** `handleVisibilityChange`: hiding is a system interaction at once;
      becoming visible schedules the end of it 1000 ms later. */
  function HandleVisibilityChange(p: Presence, hidden: bool, now: int): (r: Reaction)
    ensures r.effects == []
    ensures hidden ==>
              r.presence == p.(systemInteractionDetected := true, userInteracting := false)
              && r.scheduled == []
    ensures !hidden ==>
              r.presence == p && r.scheduled == [Timeout(now + VisibilityGraceMs, ClearSystemInteraction)]
    ensures Exclusive(p) ==> Exclusive(r.presence)
  {
    if hidden then Reaction(p.(systemInteractionDetected := true, userInteracting := false), [], [])
    else Reaction(p, [Timeout(now + VisibilityGraceMs, ClearSystemInteraction)], [])
  }

  // ---------------------------------------------------------------------
  // Delayed actions

  /** A timeout callback: each only clears one flag. */
  function Fire(p: Presence, a: Delayed): (r: Presence)
    ensures r.focused == p.focused && r.lastUserInteraction == p.lastUserInteraction
    ensures a == ClearUserInteracting ==>
              !r.userInteracting && r.systemInteractionDetected == p.systemInteractionDetected
    ensures a == ClearSystemInteraction ==>
              !r.systemInteractionDetected && r.userInteracting == p.userInteracting
    ensures Exclusive(p) ==> Exclusive(r)
  {
    match a
    case ClearUserInteracting => p.(userInteracting := false)
    case ClearSystemInteraction => p.(systemInteractionDetected := false)
  }

  /** Firing a list of delayed actions one after the other. Whatever the
      order, the result only depends on which kinds of action occur: each
      flag ends cleared if some action clears it, and is otherwise unchanged. */
  function FireAll(p: Presence, actions: seq<Delayed>): (r: Presence)
    ensures r.focused == p.focused && r.lastUserInteraction == p.lastUserInteraction
    ensures r.userInteracting == (p.userInteracting && ClearUserInteracting !in actions)
    ensures r.systemInteractionDetected
              == (p.systemInteractionDetected && ClearSystemInteraction !in actions)
    ensures Exclusive(p) ==> Exclusive(r)
    decreases |actions|
  {
    if actions == [] then p
    else
      assert actions == actions[..|actions| - 1] + [actions[|actions| - 1]];
      Fire(FireAll(p, actions[..|actions| - 1]), actions[|actions| - 1])
  }

  /** The actions of the timeouts that are due by `now`, in list order. */
  function DueActions(ts: seq<Timeout>, now: int): (as_: seq<Delayed>)
    ensures |as_| <= |ts|
    decreases |ts|
  {
    if ts == [] then []
    else
      var last := ts[|ts| - 1];
      assert ts == ts[..|ts| - 1] + [last];
      DueActions(ts[..|ts| - 1], now) + (if last.due <= now then [last.action] else [])
  }

  /** The timeouts still waiting after `now`, in list order. */
  function NotDue(ts: seq<Timeout>, now: int): (rest: seq<Timeout>)
    ensures |rest| <= |ts|
    ensures |rest| + |DueActions(ts, now)| == |ts|
    decreases |ts|
  {
    if ts == [] then []
    else
      var last := ts[|ts| - 1];
      assert ts == ts[..|ts| - 1] + [last];
      NotDue(ts[..|ts| - 1], now) + (if last.due > now then [last] else [])
  }

  /** An action fires by `now` iff some timeout carrying it is due by then. */
  lemma {:induction false} DueActionsMembers(ts: seq<Timeout>, now: int, a: Delayed)
    ensures a in DueActions(ts, now) <==> exists t :: t in ts && t.due <= now && t.action == a
    decreases |ts|
  {
    if ts != [] {
      var init, last := ts[..|ts| - 1], ts[|ts| - 1];
      assert ts == init + [last];
      DueActionsMembers(init, now, a);
      if a in DueActions(init, now) {
        var t :| t in init && t.due <= now && t.action == a;
        assert t in ts;
      }
    }
  }

  /** Exactly the timeouts due after `now` keep waiting. */
  lemma {:induction false} NotDueMembers(ts: seq<Timeout>, now: int)
    ensures forall t :: t in NotDue(ts, now) <==> t in ts && t.due > now
    decreases |ts|
  {
    if ts != [] {
      var init, last := ts[..|ts| - 1], ts[|ts| - 1];
      assert ts == init + [last];
      NotDueMembers(init, now);
    }
  }

  lemma TimeoutsSnoc(p: Presence, ts: seq<Timeout>, t: Timeout, now: int)
    ensures DueActions(ts + [t], now) == DueActions(ts, now) + (if t.due <= now then [t.action] else [])
    ensures NotDue(ts + [t], now) == NotDue(ts, now) + (if t.due > now then [t] else [])
    ensures FireAll(p, DueActions(ts + [t], now))
              == if t.due <= now then Fire(FireAll(p, DueActions(ts, now)), t.action)
                 else FireAll(p, DueActions(ts, now))
  {
    assert (ts + [t])[..|ts|] == ts;
    var a := DueActions(ts, now);
    if t.due <= now {
      assert (a + [t.action])[..|a|] == a;
    } else {
      assert a + [] == a;
    }
  }

  // ---------------------------------------------------------------------
  // Event listeners and dispatch

  datatype Target = Document | Window

  datatype Handler = KeyDownHandler | VisibilityHandler | BlurHandler | InteractionHandler

  /** A registration: the target, the event type, the handler and the
      capture flag; the DOM identifies a listener by exactly these. */
  datatype Listener = Listener(target: Target, eventType: EventType, handler: Handler, capture: bool)

  /** The events the coordinator listens to. Key, click, pointer and
      visibility events travel through the window and the document; the
      window's own blur event is seen by the window only. */
  datatype Event = KeyDown(key: Key) | Click | MouseMove | VisibilityChange(hidden: bool) | WindowBlur

  /** The DOM event types the coordinator registers for: "keydown", "click",
      "mousemove", "visibilitychange" and "blur". */
  datatype EventType = KeydownType | ClickType | MousemoveType | VisibilitychangeType | BlurType

  function TypeOf(e: Event): EventType
  {
    match e
    case KeyDown(_) => KeydownType
    case Click => ClickType
    case MouseMove => MousemoveType
    case VisibilityChange(_) => VisibilitychangeType
    case WindowBlur => BlurType
  }

  /** The handlers registered on `target` for `eventType` with the given
      capture flag, in registration order. */
  function Matching(ls: seq<Listener>, target: Target, eventType: EventType, capture: bool): (hs: seq<Handler>)
    ensures |hs| <= |ls|
  {
    if ls == [] then []
    else
      var l := ls[0];
      (if l.target == target && l.eventType == eventType && l.capture == capture then [l.handler] else [])
      + Matching(ls[1..], target, eventType, capture)
  }

  /** A handler is called for an event type and phase iff some registration
      on that target names it with that type and capture flag. */
  lemma {:induction false} MatchingMembers(ls: seq<Listener>, target: Target, eventType: EventType, capture: bool,
                                           h: Handler)
    ensures h in Matching(ls, target, eventType, capture) <==>
              exists l :: l in ls && l.target == target && l.eventType == eventType && l.capture == capture
                          && l.handler == h
    decreases |ls|
  {
    if ls != [] {
      MatchingMembers(ls[1..], target, eventType, capture, h);
      assert forall l :: l in ls <==> l == ls[0] || l in ls[1..];
    }
  }

  /** A registration matches one target and one phase, so the four ways of
      matching an event type together use each registration at most once. */
  lemma {:induction false} MatchingPartition(ls: seq<Listener>, ty: EventType)
    ensures |Matching(ls, Window, ty, true)| + |Matching(ls, Document, ty, true)|
            + |Matching(ls, Document, ty, false)| + |Matching(ls, Window, ty, false)| <= |ls|
    decreases |ls|
  {
    if ls != [] {
      MatchingPartition(ls[1..], ty);
    }
  }

  /** The order in which the DOM calls the listeners for an event: capturing
      listeners from the window inwards, then bubbling ones from the document
      outwards. */
  function HandlersFor(ls: seq<Listener>, e: Event): (hs: seq<Handler>)
    ensures |hs| <= |ls|
  {
    var ty := TypeOf(e);
    MatchingPartition(ls, ty);
    if e.WindowBlur? then Matching(ls, Window, ty, true) + Matching(ls, Window, ty, false)
    else Matching(ls, Window, ty, true) + Matching(ls, Document, ty, true)
         + Matching(ls, Document, ty, false) + Matching(ls, Window, ty, false)
  }

  /** One handler applied to one event at time `now`. The keydown handler
      ignores events without a key and the visibility handler is only ever
      registered for visibility changes, so on other events they do nothing. */
  function RunHandler(cfg: Config, p: Presence, h: Handler, e: Event, now: int): (r: Reaction)
    ensures Exclusive(p) ==> Exclusive(r.presence)
  {
    match h
    case KeyDownHandler => if e.KeyDown? then HandleKeyDown(cfg, p, e.key) else Unchanged(p)
    case VisibilityHandler =>
      if e.VisibilityChange? then HandleVisibilityChange(p, e.hidden, now) else Unchanged(p)
    case BlurHandler => HandleWindowBlur(cfg, p, now)
    case InteractionHandler => Reaction(HandleUserInteraction(p, now), [], [])
  }

  /** Running the handlers one after the other, collecting what each
      schedules and issues. */
  function RunAll(cfg: Config, p: Presence, hs: seq<Handler>, e: Event, now: int): (r: Reaction)
    ensures hs == [] ==> r == Unchanged(p)
    ensures Exclusive(p) ==> Exclusive(r.presence)
    decreases |hs|
  {
    if hs == [] then Unchanged(p)
    else
      var before := RunAll(cfg, p, hs[..|hs| - 1], e, now);
      var step := RunHandler(cfg, before.presence, hs[|hs| - 1], e, now);
      Reaction(step.presence, before.scheduled + step.scheduled, before.effects + step.effects)
  }

  lemma RunAllSnoc(cfg: Config, p: Presence, hs: seq<Handler>, h: Handler, e: Event, now: int)
    ensures var before := RunAll(cfg, p, hs, e, now);
            var step := RunHandler(cfg, before.presence, h, e, now);
            RunAll(cfg, p, hs + [h], e, now)
              == Reaction(step.presence, before.scheduled + step.scheduled, before.effects + step.effects)
  {
    assert (hs + [h])[..|hs|] == hs;
  }

  /** `RunAllSnoc` for the handlers run so far. */
  lemma RunAllPrefix(cfg: Config, p: Presence, hs: seq<Handler>, i: nat, e: Event, now: int)
    requires i < |hs|
    ensures var before := RunAll(cfg, p, hs[..i], e, now);
            var step := RunHandler(cfg, before.presence, hs[i], e, now);
            RunAll(cfg, p, hs[..i + 1], e, now)
              == Reaction(step.presence, before.scheduled + step.scheduled, before.effects + step.effects)
  {
    assert hs[..i + 1] == hs[..i] + [hs[i]];
    RunAllSnoc(cfg, p, hs[..i], hs[i], e, now);
  }

  /** The handlers run for an event are exactly those registered for its
      type, on the window or (except for the window's own blur) on the
      document. */
  lemma HandlersForMembers(ls: seq<Listener>, e: Event, h: Handler)
    ensures h in HandlersFor(ls, e) <==>
              exists l :: l in ls && l.eventType == TypeOf(e) && l.handler == h && (e.WindowBlur? ==> l.target == Window)
  {
    var ty := TypeOf(e);
    MatchingMembers(ls, Window, ty, true, h);
    MatchingMembers(ls, Window, ty, false, h);
    MatchingMembers(ls, Document, ty, true, h);
    MatchingMembers(ls, Document, ty, false, h);
  }

  /** An event type nobody registered for runs no handler. */
  lemma UnheardHasNoHandlers(ls: seq<Listener>, e: Event)
    ensures (forall l :: l in ls ==> l.eventType != TypeOf(e)) ==> HandlersFor(ls, e) == []
  {
    var hs := HandlersFor(ls, e);
    if hs != [] {
      HandlersForMembers(ls, e, hs[0]);
    }
  }

  /** `Dispatch` of an event to a listener list: an event nobody listens for
      changes nothing, and the presence stays exclusive. */
  function Dispatch(cfg: Config, p: Presence, ls: seq<Listener>, e: Event, now: int): (r: Reaction)
    ensures (forall l :: l in ls ==> l.eventType != TypeOf(e)) ==> r == Unchanged(p)
    ensures Exclusive(p) ==> Exclusive(r.presence)
  {
    UnheardHasNoHandlers(ls, e);
    RunAll(cfg, p, HandlersFor(ls, e), e, now)
  }

  /** The six registrations made on mount, in order. */
  function MountListeners(): (ms: seq<Listener>)
    ensures |ms| == 6
  {
    [ Listener(Document, KeydownType, KeyDownHandler, true),
      Listener(Document, VisibilitychangeType, VisibilityHandler, false),
      Listener(Window, BlurType, BlurHandler, false),
      Listener(Document, ClickType, InteractionHandler, false),
      Listener(Document, KeydownType, InteractionHandler, false),
      Listener(Document, MousemoveType, InteractionHandler, false) ]
  }

  predicate NoDuplicates<T(==)>(s: seq<T>)
  {
    forall i, j :: 0 <= i < j < |s| ==> s[i] != s[j]
  }

  lemma NoDuplicatesCons<T>(a: T, s: seq<T>)
    ensures NoDuplicates([a] + s) <==> a !in s && NoDuplicates(s)
  {
    var t := [a] + s;
    if a !in s && NoDuplicates(s) {
      forall i, j | 0 <= i < j < |t| ensures t[i] != t[j] {
        if i > 0 { assert t[i] == s[i - 1] && t[j] == s[j - 1]; } else { assert t[j] == s[j - 1]; }
      }
    }
    if NoDuplicates(t) {
      forall i, j | 0 <= i < j < |s| ensures s[i] != s[j] { assert s[i] == t[i + 1] && s[j] == t[j + 1]; }
      forall k | 0 <= k < |s| ensures s[k] != a { assert t[0] == a && t[k + 1] == s[k]; }
    }
  }

  /** `addEventListener`: a registration equal to an existing one is ignored. */
  function AddListener(ls: seq<Listener>, l: Listener): (r: seq<Listener>)
    ensures NoDuplicates(ls) ==> NoDuplicates(r)
    ensures l in r && |r| == if l in ls then |ls| else |ls| + 1
  {
    if l in ls then ls else ls + [l]
  }

  /** `removeEventListener`: removes the equal registration, if any. */
  function RemoveListener(ls: seq<Listener>, l: Listener): (r: seq<Listener>)
    ensures NoDuplicates(ls) ==> NoDuplicates(r) && l !in r
    ensures forall x :: x in r ==> x in ls
    ensures forall x :: x in ls && x != l ==> x in r
    ensures l !in ls ==> r == ls
    ensures |r| == if l in ls then |ls| - 1 else |ls|
  {
    if ls == [] then []
    else if ls[0] == l then ls[1..]
    else
      var rest := RemoveListener(ls[1..], l);
      NoDuplicatesCons(ls[0], ls[1..]);
      NoDuplicatesCons(ls[0], rest);
      assert ls == [ls[0]] + ls[1..];
      [ls[0]] + rest
  }

  function AddAll(ls: seq<Listener>, ms: seq<Listener>): (r: seq<Listener>)
    ensures NoDuplicates(ls) ==> NoDuplicates(r)
    ensures |ls| <= |r| <= |ls| + |ms|
    decreases |ms|
  {
    if ms == [] then ls else AddAll(AddListener(ls, ms[0]), ms[1..])
  }

  /** After registering `ms`, exactly the old and the new registrations are present. */
  lemma {:induction false} AddAllMembers(ls: seq<Listener>, ms: seq<Listener>)
    ensures forall x :: x in AddAll(ls, ms) <==> x in ls || x in ms
    decreases |ms|
  {
    if ms != [] {
      AddAllMembers(AddListener(ls, ms[0]), ms[1..]);
      assert ms == [ms[0]] + ms[1..];
    }
  }

  /** Mounting is the six registrations one after the other. */
  lemma AddAllMounted(ls: seq<Listener>)
    ensures AddAll(ls, MountListeners())
      == AddListener(AddListener(AddListener(AddListener(AddListener(AddListener(ls,
           Listener(Document, KeydownType, KeyDownHandler, true)),
           Listener(Document, VisibilitychangeType, VisibilityHandler, false)),
           Listener(Window, BlurType, BlurHandler, false)),
           Listener(Document, ClickType, InteractionHandler, false)),
           Listener(Document, KeydownType, InteractionHandler, false)),
           Listener(Document, MousemoveType, InteractionHandler, false))
  {
  }

  function RemoveAll(ls: seq<Listener>, ms: seq<Listener>): (r: seq<Listener>)
    ensures NoDuplicates(ls) ==> NoDuplicates(r)
    ensures |ls| - |ms| <= |r| <= |ls|
    decreases |ms|
  {
    if ms == [] then ls else RemoveAll(RemoveListener(ls, ms[0]), ms[1..])
  }

  /** Removing registrations never adds one, and from a list without
      duplicates it removes exactly those of `ms`. */
  lemma {:induction false} RemoveAllMembers(ls: seq<Listener>, ms: seq<Listener>)
    ensures forall x :: x in RemoveAll(ls, ms) ==> x in ls
    ensures NoDuplicates(ls) ==> forall x :: x in RemoveAll(ls, ms) <==> x in ls && x !in ms
    decreases |ms|
  {
    if ms != [] {
      RemoveAllMembers(RemoveListener(ls, ms[0]), ms[1..]);
      assert ms == [ms[0]] + ms[1..];
    }
  }

  /** Cleanup is the six removals one after the other. */
  lemma RemoveAllMounted(ls: seq<Listener>)
    ensures RemoveAll(ls, MountListeners())
      == RemoveListener(RemoveListener(RemoveListener(RemoveListener(RemoveListener(RemoveListener(ls,
           Listener(Document, KeydownType, KeyDownHandler, true)),
           Listener(Document, VisibilitychangeType, VisibilityHandler, false)),
           Listener(Window, BlurType, BlurHandler, false)),
           Listener(Document, ClickType, InteractionHandler, false)),
           Listener(Document, KeydownType, InteractionHandler, false)),
           Listener(Document, MousemoveType, InteractionHandler, false))
  {
  }

  // ---------------------------------------------------------------------
  // Properties of the listener lifecycle

  lemma {:induction false} AddAllFresh(ls: seq<Listener>, ms: seq<Listener>)
    requires NoDuplicates(ms)
    requires forall x :: x in ms ==> x !in ls
    ensures AddAll(ls, ms) == ls + ms
    decreases |ms|
  {
    if ms != [] {
      NoDuplicatesCons(ms[0], ms[1..]);
      assert ms == [ms[0]] + ms[1..];
      AddAllFresh(ls + [ms[0]], ms[1..]);
      assert ls + [ms[0]] + ms[1..] == ls + ms;
    }
  }

  lemma {:induction false} RemoveListenerAfter(xs: seq<Listener>, ys: seq<Listener>, l: Listener)
    requires l !in xs
    ensures RemoveListener(xs + ys, l) == xs + RemoveListener(ys, l)
  {
    if xs != [] {
      assert xs[0] != l && (xs + ys)[0] == xs[0];
      assert (xs + ys)[1..] == xs[1..] + ys;
      RemoveListenerAfter(xs[1..], ys, l);
      assert xs == [xs[0]] + xs[1..];
    } else {
      assert xs + ys == ys;
    }
  }

  lemma {:induction false} RemoveAllAfterAdd(ls: seq<Listener>, ms: seq<Listener>)
    requires NoDuplicates(ms)
    requires forall x :: x in ms ==> x !in ls
    ensures RemoveAll(ls + ms, ms) == ls
    decreases |ms|
  {
    if ms == [] {
      assert ls + ms == ls;
    } else {
      NoDuplicatesCons(ms[0], ms[1..]);
      assert ms == [ms[0]] + ms[1..];
      RemoveListenerAfter(ls, ms, ms[0]);
      assert RemoveListener(ms, ms[0]) == ms[1..];
      RemoveAllAfterAdd(ls, ms[1..]);
    }
  }

  lemma {:induction false} AddAllPresent(ls: seq<Listener>, ms: seq<Listener>)
    requires forall x :: x in ms ==> x in ls
    ensures AddAll(ls, ms) == ls
    decreases |ms|
  {
    if ms != [] {
      AddAllPresent(ls, ms[1..]);
    }
  }

  lemma {:induction false} RemoveAllAbsent(ls: seq<Listener>, ms: seq<Listener>)
    requires forall x :: x in ms ==> x !in ls
    ensures RemoveAll(ls, ms) == ls
    decreases |ms|
  {
    if ms != [] {
      RemoveAllAbsent(ls, ms[1..]);
    }
  }

  lemma MountListenersDistinct()
    ensures NoDuplicates(MountListeners())
  {
  }

  /** Cleanup is the exact inverse of mounting: from a list holding none of
      the six registrations, mounting and then cleaning up gives the list back. */
  lemma MountThenCleanupRestores(ls: seq<Listener>)
    requires forall x :: x in MountListeners() ==> x !in ls
    ensures AddAll(ls, MountListeners()) == ls + MountListeners()
    ensures RemoveAll(AddAll(ls, MountListeners()), MountListeners()) == ls
  {
    MountListenersDistinct();
    AddAllFresh(ls, MountListeners());
    RemoveAllAfterAdd(ls, MountListeners());
  }

  /** Mounting again without a cleanup in between registers nothing twice. */
  lemma RemountAddsNothing(ls: seq<Listener>)
    ensures AddAll(AddAll(ls, MountListeners()), MountListeners()) == AddAll(ls, MountListeners())
  {
    AddAllPresent(AddAll(ls, MountListeners()), MountListeners());
  }

  /** A second cleanup changes nothing. */
  lemma CleanupTwiceIsCleanupOnce(ls: seq<Listener>)
    requires NoDuplicates(ls)
    ensures RemoveAll(RemoveAll(ls, MountListeners()), MountListeners()) == RemoveAll(ls, MountListeners())
  {
    RemoveAllMembers(ls, MountListeners());
    RemoveAllAbsent(RemoveAll(ls, MountListeners()), MountListeners());
  }

  // The mounted registrations for each event type, by phase.
  lemma MountedKeyDown()
    ensures Matching(MountListeners(), Window, KeydownType, true) == []
    ensures Matching(MountListeners(), Document, KeydownType, true) == [KeyDownHandler]
    ensures Matching(MountListeners(), Document, KeydownType, false) == [InteractionHandler]
    ensures Matching(MountListeners(), Window, KeydownType, false) == []
  {
  }

  lemma MountedPointer(ty: EventType)
    requires ty == ClickType || ty == MousemoveType
    ensures Matching(MountListeners(), Window, ty, true) == []
    ensures Matching(MountListeners(), Document, ty, true) == []
    ensures Matching(MountListeners(), Document, ty, false) == [InteractionHandler]
    ensures Matching(MountListeners(), Window, ty, false) == []
  {
  }

  lemma MountedVisibility()
    ensures Matching(MountListeners(), Window, VisibilitychangeType, true) == []
    ensures Matching(MountListeners(), Document, VisibilitychangeType, true) == []
    ensures Matching(MountListeners(), Document, VisibilitychangeType, false) == [VisibilityHandler]
    ensures Matching(MountListeners(), Window, VisibilitychangeType, false) == []
  {
  }

  lemma MountedBlur()
    ensures Matching(MountListeners(), Window, BlurType, true) == []
    ensures Matching(MountListeners(), Window, BlurType, false) == [BlurHandler]
  {
  }

  /** Which handlers the mounted coordinator runs for each event, and in which
      order: for a key press the capturing `handleKeyDown` runs before the
      bubbling `handleUserInteraction`. */
  lemma MountedHandlers(e: Event)
    ensures HandlersFor(MountListeners(), e)
      == match e
         case KeyDown(_) => [KeyDownHandler, InteractionHandler]
         case Click => [InteractionHandler]
         case MouseMove => [InteractionHandler]
         case VisibilityChange(_) => [VisibilityHandler]
         case WindowBlur => [BlurHandler]
  {
    match e
    case KeyDown(_) => MountedKeyDown();
    case Click => MountedPointer(ClickType);
    case MouseMove => MountedPointer(MousemoveType);
    case VisibilityChange(_) => MountedVisibility();
    case WindowBlur => MountedBlur();
  }

  /** Net effect of a key press on the mounted coordinator: a detected system
      shortcut still issues the suspend command, but the interaction handler
      that runs after it clears the system flag again and marks the user as
      interacting, so the press ends exactly like any other interaction. */
  lemma KeyPressNetEffect(cfg: Config, p: Presence, k: Key, now: int)
    ensures Dispatch(cfg, p, MountListeners(), KeyDown(k), now)
      == Reaction(HandleUserInteraction(p, now), [],
                  if cfg.respectSystemInteractions && IsSystemCombo(k) && cfg.autoHideOnSystemInteraction
                  then [Invoke(TemporaryDisableAlwaysOnTop(SystemSuspendMs))] else [])
  {
    var e := KeyDown(k);
    MountedKeyDown();
    assert HandlersFor(MountListeners(), e) == [KeyDownHandler, InteractionHandler];
    assert Dispatch(cfg, p, MountListeners(), e, now) == RunAll(cfg, p, [KeyDownHandler, InteractionHandler], e, now);
    RunTwo(cfg, p, KeyDownHandler, InteractionHandler, e, now);
    var r1 := HandleKeyDown(cfg, p, k);
    assert RunHandler(cfg, p, KeyDownHandler, e, now) == r1;
    assert HandleUserInteraction(r1.presence, now) == HandleUserInteraction(p, now);
    assert r1.scheduled + [] == [] && r1.effects + [] == r1.effects;
  }

  /** The same key press, seen through both mounted keydown listeners, wipes
      out the detection of a system shortcut: the interaction listener runs
      after the capture-phase one and clears the flag it has just set. */
  lemma SystemComboForgotten(cfg: Config, p: Presence, k: Key, now: int)
    requires cfg.respectSystemInteractions && IsSystemCombo(k)
    ensures var r := Dispatch(cfg, p, MountListeners(), KeyDown(k), now);
      !r.presence.systemInteractionDetected && r.presence.userInteracting
  {
    KeyPressNetEffect(cfg, p, k, now);
  }

  /** A handler run in which the interaction listener ignores a key press
      that the shortcut listener has just recognised as a system shortcut. */
  function RunHandlerGuarded(cfg: Config, p: Presence, h: Handler, e: Event, now: int): (r: Reaction)
    ensures h != InteractionHandler ==> r == RunHandler(cfg, p, h, e, now)
    ensures h == InteractionHandler && e.KeyDown? && cfg.respectSystemInteractions && IsSystemCombo(e.key) ==>
              r == Unchanged(p)
    ensures !(e.KeyDown? && cfg.respectSystemInteractions && IsSystemCombo(e.key)) ==>
              r == RunHandler(cfg, p, h, e, now)
  {
    if h == InteractionHandler && e.KeyDown? && cfg.respectSystemInteractions && IsSystemCombo(e.key)
    then Unchanged(p)
    else RunHandler(cfg, p, h, e, now)
  }

  /** With the guard, a system shortcut stays detected after both keydown
      listeners ran, and any other key press still counts as interaction. */
  lemma GuardedKeyPressKeepsDetection(cfg: Config, p: Presence, k: Key, now: int)
    ensures HandlersFor(MountListeners(), KeyDown(k)) == [KeyDownHandler, InteractionHandler]
    ensures var r1 := RunHandlerGuarded(cfg, p, KeyDownHandler, KeyDown(k), now);
      var r2 := RunHandlerGuarded(cfg, r1.presence, InteractionHandler, KeyDown(k), now);
      && (cfg.respectSystemInteractions && IsSystemCombo(k) ==>
            r2.presence == p.(systemInteractionDetected := true, userInteracting := false))
      && (!(cfg.respectSystemInteractions && IsSystemCombo(k)) ==>
            r2.presence == HandleUserInteraction(p, now))
  {
    MountedKeyDown();
  }

  lemma RunTwo(cfg: Config, p: Presence, h1: Handler, h2: Handler, e: Event, now: int)
    ensures var r1 := RunHandler(cfg, p, h1, e, now);
            var r2 := RunHandler(cfg, r1.presence, h2, e, now);
            RunAll(cfg, p, [h1, h2], e, now)
              == Reaction(r2.presence, r1.scheduled + r2.scheduled, r1.effects + r2.effects)
  {
    var r1 := RunHandler(cfg, p, h1, e, now);
    RunAllSnoc(cfg, p, [], h1, e, now);
    assert [] + [h1] == [h1];
    assert RunAll(cfg, p, [h1], e, now) == r1 by {
      assert [] + r1.scheduled == r1.scheduled && [] + r1.effects == r1.effects;
    }
    RunAllSnoc(cfg, p, [h1], h2, e, now);
    assert [h1] + [h2] == [h1, h2];
  }

  /** Firing the due timeouts by due time or by scheduling order gives the
      same presence. */
  lemma FiringOrderIrrelevant(p: Presence, as1: seq<Delayed>, as2: seq<Delayed>)
    requires forall a :: a in as1 <==> a in as2
    ensures FireAll(p, as1) == FireAll(p, as2)
  {
  }

  /** The blur debounce is not cancelled by later interaction: a user who
      interacts again before the 500 ms elapse is still marked as not
      interacting when the timeout fires. */
  lemma BlurClearSurvivesInteraction(cfg: Config, p: Presence, blurAt: int, interactAt: int)
    requires cfg.respectSystemInteractions && !p.systemInteractionDetected
    requires blurAt <= interactAt < blurAt + BlurDebounceMs
    ensures var b := HandleWindowBlur(cfg, p, blurAt);
            var q := HandleUserInteraction(b.presence, interactAt);
            q.userInteracting
            && !FireAll(q, DueActions(b.scheduled, blurAt + BlurDebounceMs)).userInteracting
  {
  }

  /** The visibility grace is not cancelled by a new hide: a window hidden
      again within 1000 ms of becoming visible loses its system flag when the
      earlier grace timeout fires. */
  lemma VisibilityGraceSurvivesRehide(p: Presence, shownAt: int, hiddenAt: int)
    requires shownAt <= hiddenAt < shownAt + VisibilityGraceMs
    ensures var v := HandleVisibilityChange(p, false, shownAt);
            var h := HandleVisibilityChange(v.presence, true, hiddenAt);
            h.presence.systemInteractionDetected
            && !FireAll(h.presence, DueActions(v.scheduled, shownAt + VisibilityGraceMs)).systemInteractionDetected
  {
  }

  /** Hiding and showing again within the grace period keeps the system flag
      raised until 1000 ms after the window became visible. */
  lemma VisibilityGraceHoldsUntilDue(p: Presence, hiddenAt: int, shownAt: int, now: int)
    requires hiddenAt <= shownAt <= now
    ensures var h := HandleVisibilityChange(p, true, hiddenAt);
            var v := HandleVisibilityChange(h.presence, false, shownAt);
            var after := FireAll(v.presence, DueActions(v.scheduled, now));
            after.systemInteractionDetected <==> now < shownAt + VisibilityGraceMs
  {
  }
}
