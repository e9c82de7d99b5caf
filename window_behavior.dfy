/** The coordinator of `src/hooks/useWindowBehavior.ts` as an object: its
    fields are the hook's refs, the registered listeners, the pending
    timeouts and the log of what it has done so far. Time is the explicit
    `clock`; `AdvanceTo` lets it pass and fires the timeouts that fall due,
    and `IntervalFires` is the interval's callback at its due time. Every
    method is proved against the functions of `WindowBehaviorSpec`. */
module WindowBehavior {
  import opened Base
  import opened WindowBehaviorSpec

  /** The interval handle: its identity, period and the time of its next run. */
  datatype IntervalTimer = IntervalTimer(id: nat, period: int, nextDue: int)

  /** The period of the focus-check interval. A zero or negative delay is
      raised to a floor of 1 ms, the model's own choice: it keeps every
      interval run strictly after the previous one. */
  function EffectivePeriod(interval: int): (d: int)
    ensures d >= 1
    ensures interval >= 1 ==> d == interval
  {
    if interval >= 1 then interval else 1
  }

  /** A new interval started at `now`: its first run is one period later. */
  function FreshTimer(id: nat, interval: int, now: int): (t: IntervalTimer)
    ensures t.id == id && t.period == EffectivePeriod(interval) && t.nextDue > now
  {
    IntervalTimer(id, EffectivePeriod(interval), now + EffectivePeriod(interval))
  }

  /** What holds of the hook's state between any two of its callbacks: the
      presence flags are exclusive, nothing is remembered from the future,
      every pending timeout is still to fire, and a running interval is the
      one the hook created last, with the period it was given. */
  ghost predicate CoordinatorInvariant(cfg: Config, p: Presence, clock: int, pending: seq<Timeout>,
                                       focusCheck: Option<IntervalTimer>, nextTimerId: nat)
  {
    && Exclusive(p)
    && p.lastUserInteraction <= clock
    && (forall t :: t in pending ==> t.due > clock)
    && (focusCheck.Some? ==>
          && focusCheck.value.nextDue >= clock
          && focusCheck.value.period == EffectivePeriod(cfg.focusCheckInterval)
          && focusCheck.value.id < nextTimerId)
  }

  class Coordinator {
    const cfg: Config
    var focusCheck: Option<IntervalTimer>
    var currentlyFocused: bool
    var userInteracting: bool
    var lastUserInteraction: int
    var systemInteractionDetected: bool
    var listeners: seq<Listener>
    var pending: seq<Timeout>
    var log: seq<Effect>
    var clock: int
    var nextTimerId: nat

    /** The four refs as one value. */
    function Current(): Presence
      reads this
    {
      Presence(currentlyFocused, userInteracting, lastUserInteraction, systemInteractionDetected)
    }

    ghost predicate Valid()
      reads this
    {
      CoordinatorInvariant(cfg, Current(), clock, pending, focusCheck, nextTimerId)
    }

    /** The hook's first render at time `now`. */
    constructor (config: Config, now: int)
      ensures Valid()
      ensures cfg == config && Current() == InitialPresence(now)
      ensures focusCheck == None && listeners == [] && pending == [] && log == []
      ensures clock == now && nextTimerId == 0
    {
      cfg := config;
      focusCheck := None;
      currentlyFocused, userInteracting := false, false;
      lastUserInteraction := now;
      systemInteractionDetected := false;
      listeners, pending, log := [], [], [];
      clock := now;
      nextTimerId := 0;
    }

    /** `bringToFront`, where the invocations in `failing` reject. */
    method BringToFront(failing: set<Command>)
      requires Valid()
      modifies this`log
      ensures Valid()
      ensures log == old(log) + BringToFrontEffects(cfg, old(Current()), failing)
    {
      var pin := cfg.maintainAlwaysOnTop && !systemInteractionDetected;
      if pin {
        log := log + [Invoke(SetAlwaysOnTop(true))];
        if SetAlwaysOnTop(true) in failing {
          return;
        }
      }
      if userInteracting {
        log := log + [Invoke(Command.BringToFront)];
        if Command.BringToFront in failing {
          return;
        }
        log := log + [Invoke(SetWindowFocus(true))];
      }
    }

    /** `checkWindowFocus` at the current time; `query` is what the window
      answered when asked whether it is focused (`None` if it rejected). */
    method CheckWindowFocus(query: Option<bool>)
      requires Valid()
      modifies this`currentlyFocused, this`userInteracting, this`lastUserInteraction,
               this`systemInteractionDetected, this`log
      ensures Valid()
      ensures var r := WindowBehaviorSpec.CheckWindowFocus(cfg, old(Current()), clock, query);
              Current() == r.presence && log == old(log) + r.effects
    {
      if query.None? {
        return;
      }
      NoteFocus(query.value);
      DecayAndEnforce();
    }

    /** The transition step of `checkWindowFocus`. */
    method NoteFocus(isFocused: bool)
      requires Valid()
      modifies this`currentlyFocused, this`userInteracting, this`lastUserInteraction,
               this`systemInteractionDetected, this`log
      ensures Valid()
      ensures var r := FocusTransition(cfg, old(Current()), isFocused, clock);
              Current() == r.presence && log == old(log) + r.effects
    {
      if isFocused != currentlyFocused {
        currentlyFocused := isFocused;
        if isFocused {
          if cfg.hasOnFocusGained {
            log := log + [FocusGainedCallback];
          }
          userInteracting := true;
          lastUserInteraction := clock;
          systemInteractionDetected := false;
        } else {
          if cfg.hasOnFocusLost {
            log := log + [FocusLostCallback];
          }
          userInteracting := false;
        }
      }
    }

    /** The decay and enforcement steps of `checkWindowFocus`. */
    method DecayAndEnforce()
      requires Valid()
      modifies this`userInteracting, this`log
      ensures Valid()
      ensures var r := WindowBehaviorSpec.DecayAndEnforce(cfg, old(Current()), clock);
              Current() == r.presence && log == old(log) + r.effects
    {
      var elapsed := clock - lastUserInteraction;
      if elapsed > InteractionTimeoutMs {
        userInteracting := false;
      }
      if cfg.maintainAlwaysOnTop && !systemInteractionDetected && elapsed < EnforcementWindowMs {
        log := log + [Invoke(SetAlwaysOnTop(true))];
      }
    }

    /** The interval's callback, run when its period has elapsed. */
    method IntervalFires(query: Option<bool>)
      requires Valid()
      requires focusCheck.Some? && focusCheck.value.nextDue == clock
      modifies this
      ensures Valid()
      ensures var r := WindowBehaviorSpec.CheckWindowFocus(cfg, old(Current()), clock, query);
              Current() == r.presence && log == old(log) + r.effects
      ensures focusCheck == Some(old(focusCheck.value).(nextDue := clock + old(focusCheck.value.period)))
      ensures listeners == old(listeners) && pending == old(pending)
      ensures clock == old(clock) && nextTimerId == old(nextTimerId)
    {
      CheckWindowFocus(query);
      var timer := focusCheck.value;
      focusCheck := Some(timer.(nextDue := clock + timer.period));
    }

    /** `handleKeyDown`. */
    method HandleKeyDown(k: Key)
      requires Valid()
      modifies this`userInteracting, this`systemInteractionDetected, this`log
      ensures Valid()
      ensures var r := WindowBehaviorSpec.HandleKeyDown(cfg, old(Current()), k);
              Current() == r.presence && log == old(log) + r.effects
    {
      if cfg.respectSystemInteractions {
        if (k.altKey && k.key == "Tab")
           || (k.metaKey && k.key == "Tab")
           || (k.ctrlKey && k.altKey && k.key == "Delete")
           || (k.metaKey && k.key == " ")
        {
          systemInteractionDetected := true;
          userInteracting := false;
          if cfg.autoHideOnSystemInteraction {
            log := log + [Invoke(TemporaryDisableAlwaysOnTop(SystemSuspendMs))];
          }
        }
      }
    }

    /** `handleUserInteraction`. */
    method HandleUserInteraction()
      requires Valid()
      modifies this`userInteracting, this`systemInteractionDetected, this`lastUserInteraction
      ensures Valid()
      ensures Current() == WindowBehaviorSpec.HandleUserInteraction(old(Current()), clock)
    {
      lastUserInteraction := clock;
      userInteracting := true;
      systemInteractionDetected := false;
    }

    /** `handleWindowBlur`: possibly schedules the debounced clear. */
    method HandleWindowBlur()
      requires Valid()
      modifies this`pending
      ensures Valid()
      ensures pending == old(pending) + WindowBehaviorSpec.HandleWindowBlur(cfg, Current(), clock).scheduled
    {
      if !systemInteractionDetected && cfg.respectSystemInteractions {
        pending := pending + [Timeout(clock + BlurDebounceMs, ClearUserInteracting)];
      }
    }

    /** `handleVisibilityChange`, where `hidden` is `document.hidden`. */
    method HandleVisibilityChange(hidden: bool)
      requires Valid()
      modifies this`userInteracting, this`systemInteractionDetected, this`pending
      ensures Valid()
      ensures var r := WindowBehaviorSpec.HandleVisibilityChange(old(Current()), hidden, clock);
              Current() == r.presence && pending == old(pending) + r.scheduled
    {
      if hidden {
        systemInteractionDetected := true;
        userInteracting := false;
      } else {
        pending := pending + [Timeout(clock + VisibilityGraceMs, ClearSystemInteraction)];
      }
    }

    /** Runs one registered handler for event `e`. */
    method RunHandler(h: Handler, e: Event)
      requires Valid()
      modifies this`userInteracting, this`systemInteractionDetected, this`lastUserInteraction,
               this`pending, this`log
      ensures Valid()
      ensures var r := WindowBehaviorSpec.RunHandler(cfg, old(Current()), h, e, clock);
              Current() == r.presence && pending == old(pending) + r.scheduled && log == old(log) + r.effects
    {
      match h
      case KeyDownHandler =>
        if e.KeyDown? {
          HandleKeyDown(e.key);
        }
      case VisibilityHandler =>
        if e.VisibilityChange? {
          HandleVisibilityChange(e.hidden);
        }
      case BlurHandler =>
        HandleWindowBlur();
      case InteractionHandler =>
        HandleUserInteraction();
    }

    /** Delivers event `e` at the current time to the listeners registered
      when it is dispatched, in DOM order. */
    method Dispatch(e: Event)
      requires Valid()
      modifies this`userInteracting, this`systemInteractionDetected, this`lastUserInteraction,
               this`pending, this`log
      ensures Valid()
      ensures var r := WindowBehaviorSpec.Dispatch(cfg, old(Current()), listeners, e, clock);
              Current() == r.presence && pending == old(pending) + r.scheduled && log == old(log) + r.effects
    {
      var hs := HandlersFor(listeners, e);
      ghost var p0, pending0, log0 := Current(), pending, log;
      var i := 0;
      while i < |hs|
        invariant 0 <= i <= |hs|
        invariant Valid()
        invariant RanFirst(hs, i, e, p0, pending0, log0)
      {
        RunNext(hs, i, e, p0, pending0, log0);
        i := i + 1;
      }
      assert hs[..i] == hs;
    }

    /** The handlers `hs[..i]` have run, in order, on top of presence `p0`,
      timeouts `pending0` and log `log0`. */
    ghost predicate RanFirst(hs: seq<Handler>, i: nat, e: Event, p0: Presence, pending0: seq<Timeout>, log0: seq<Effect>)
      requires i <= |hs|
      reads this
    {
      var r := RunAll(cfg, p0, hs[..i], e, clock);
      Current() == r.presence && pending == pending0 + r.scheduled && log == log0 + r.effects
    }

    /** One turn of the dispatch loop: runs `hs[i]`. */
    method RunNext(hs: seq<Handler>, i: nat, e: Event, ghost p0: Presence, ghost pending0: seq<Timeout>, ghost log0: seq<Effect>)
      requires i < |hs| && Valid() && RanFirst(hs, i, e, p0, pending0, log0)
      modifies this`userInteracting, this`systemInteractionDetected, this`lastUserInteraction,
               this`pending, this`log
      ensures Valid() && RanFirst(hs, i + 1, e, p0, pending0, log0)
    {
      RunHandler(hs[i], e);
      RunAllPrefix(cfg, p0, hs, i, e, clock);
    }

    /** `startFocusMonitoring`: replaces any running interval by a new one,
      so that at most one is ever active. */
    method StartFocusMonitoring()
      requires Valid()
      modifies this`focusCheck, this`nextTimerId
      ensures Valid()
      ensures focusCheck == Some(FreshTimer(old(nextTimerId), cfg.focusCheckInterval, clock))
      ensures nextTimerId == old(nextTimerId) + 1
    {
      if focusCheck.Some? {
        focusCheck := None;
      }
      focusCheck := Some(FreshTimer(nextTimerId, cfg.focusCheckInterval, clock));
      nextTimerId := nextTimerId + 1;
    }

    /** `stopFocusMonitoring`: clears the interval; nothing to do without one. */
    method StopFocusMonitoring()
      requires Valid()
      modifies this`focusCheck
      ensures Valid()
      ensures focusCheck == None
    {
      if focusCheck.Some? {
        focusCheck := None;
      }
    }

    /** The six `addEventListener` calls of the mount effect. */
    method RegisterListeners()
      requires Valid()
      modifies this`listeners
      ensures Valid()
      ensures listeners == AddAll(old(listeners), MountListeners())
    {
      var ls := listeners;
      ls := AddListener(ls, Listener(Document, KeydownType, KeyDownHandler, true));
      ls := AddListener(ls, Listener(Document, VisibilitychangeType, VisibilityHandler, false));
      ls := AddListener(ls, Listener(Window, BlurType, BlurHandler, false));
      ls := AddListener(ls, Listener(Document, ClickType, InteractionHandler, false));
      ls := AddListener(ls, Listener(Document, KeydownType, InteractionHandler, false));
      ls := AddListener(ls, Listener(Document, MousemoveType, InteractionHandler, false));
      AddAllMounted(listeners);
      listeners := ls;
    }

    /** The six matching `removeEventListener` calls of the cleanup. */
    method UnregisterListeners()
      requires Valid()
      modifies this`listeners
      ensures Valid()
      ensures listeners == RemoveAll(old(listeners), MountListeners())
    {
      var ls := listeners;
      ls := RemoveListener(ls, Listener(Document, KeydownType, KeyDownHandler, true));
      ls := RemoveListener(ls, Listener(Document, VisibilitychangeType, VisibilityHandler, false));
      ls := RemoveListener(ls, Listener(Window, BlurType, BlurHandler, false));
      ls := RemoveListener(ls, Listener(Document, ClickType, InteractionHandler, false));
      ls := RemoveListener(ls, Listener(Document, KeydownType, InteractionHandler, false));
      ls := RemoveListener(ls, Listener(Document, MousemoveType, InteractionHandler, false));
      RemoveAllMounted(listeners);
      listeners := ls;
    }

    /** The mount effect: the initial bring-to-front attempt (whose
      invocations in `failing` reject), the focus monitor, and the six
      registrations. */
    method Mount(failing: set<Command>)
      requires Valid()
      modifies this`log, this`focusCheck, this`nextTimerId, this`listeners
      ensures Valid()
      ensures log == old(log) + (if cfg.maintainAlwaysOnTop then BringToFrontEffects(cfg, old(Current()), failing) else [])
      ensures focusCheck == Some(FreshTimer(old(nextTimerId), cfg.focusCheckInterval, clock))
      ensures listeners == AddAll(old(listeners), MountListeners())
    {
      if cfg.maintainAlwaysOnTop {
        BringToFront(failing);
      }
      ghost var logged := log;
      StartFocusMonitoring();
      RegisterListeners();
      assert log == logged;
    }

    /** The cleanup returned by the mount effect: the interval and the six
      registrations go; pending timeouts stay. */
    method Cleanup()
      requires Valid()
      modifies this`focusCheck, this`listeners
      ensures Valid()
      ensures focusCheck == None
      ensures listeners == RemoveAll(old(listeners), MountListeners())
    {
      StopFocusMonitoring();
      UnregisterListeners();
    }

    /** Time passes up to `now` (no later than the next interval run); the
      timeouts due by then fire and are dropped. */
    method AdvanceTo(now: int)
      requires Valid()
      requires now >= clock
      requires focusCheck.Some? ==> now <= focusCheck.value.nextDue
      modifies this`userInteracting, this`systemInteractionDetected, this`pending, this`clock
      ensures Valid()
      ensures Current() == FireAll(old(Current()), DueActions(old(pending), now))
      ensures pending == NotDue(old(pending), now)
      ensures clock == now
    {
      var q, rest := ExpireTimeouts(Current(), pending, now);
      NotDueMembers(pending, now);
      userInteracting, systemInteractionDetected := q.userInteracting, q.systemInteractionDetected;
      pending := rest;
      clock := now;
    }
  }

  /** The timer queue at time `now`: the callbacks of the timeouts due by
      then run in turn on the presence `p`, and the others keep waiting. */
  method ExpireTimeouts(p: Presence, ts: seq<Timeout>, now: int) returns (q: Presence, rest: seq<Timeout>)
    ensures q == FireAll(p, DueActions(ts, now))
    ensures rest == NotDue(ts, now)
  {
    q, rest := p, [];
    var i := 0;
    ghost var seen: seq<Timeout> := [];
    while i < |ts|
      invariant 0 <= i <= |ts| && seen == ts[..i]
      invariant q == FireAll(p, DueActions(seen, now))
      invariant rest == NotDue(seen, now)
    {
      var t := ts[i];
      TimeoutsSnoc(p, seen, t, now);
      if t.due <= now {
        q := Fire(q, t.action);
      } else {
        rest := rest + [t];
      }
      seen := seen + [t];
      i := i + 1;
    }
    assert ts[..i] == ts;
  }
}
