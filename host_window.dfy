/** The native window the Rust commands act on, as the windowing library
    exposes it: a handful of attributes, and calls that either succeed or fail
    with an error text. Which calls fail is decided by the platform, so it is
    an input of the model (`faults`). */
module HostWindow {
  import opened Base

  /** Width and height in pixels. */
  datatype Size = Size(width: nat, height: nat)

  /** Physical coordinates of a window's top-left corner. */
  datatype Position = Position(x: int, y: int)

  /** The platform calls the commands make on a window. */
  datatype Op =
    | SetSizeOp | SetAlwaysOnTopOp | SetFocusOp | HideOp | ShowOp | IsVisibleOp
    | PrimaryMonitorOp | OuterSizeOp | SetPositionOp | EmitOp

  /** The calls that currently fail, each with the error text it reports. */
  type Faults = map<Op, string>

  /** What a call that returns nothing reports. */
  function Outcome(f: Faults, op: Op): (r: Result<()>)
    ensures r.Ok? <==> op !in f
    ensures r.Err? ==> r.error == f[op]
  {
    if op in f then Err(f[op]) else Ok(())
  }

  /** Rust's `map_err(|e| format!("<prefix>{}", e))`. */
  function WithPrefix<T>(prefix: string, r: Result<T>): (q: Result<T>)
    ensures q.Ok? <==> r.Ok?
    ensures r.Ok? ==> q == r
    ensures r.Err? ==> q.error == prefix + r.error
  {
    match r
    case Ok(v) => Ok(v)
    case Err(e) => Err(prefix + e)
  }

  /** Everything about a window that the commands read or change. */
  datatype WindowState = WindowState(
    visible: bool,
    focused: bool,
    alwaysOnTop: bool,
    size: Size,              // logical size last set
    position: Position,      // physical position
    monitor: Option<Size>,   // physical size of the primary monitor, if there is one
    scale: nat,              // physical pixels per logical pixel
    reenables: seq<int>,     // due times of the scheduled `set_always_on_top(true)` calls
    emitted: seq<string>,    // events sent to the web page
    clock: int)

  /** What a command that returns nothing reports, and the window after it. */
  datatype Step = Step(result: Result<()>, state: WindowState)

  /** The physical outer size of a window of the given logical size. */
  function OuterOf(s: WindowState): (o: Size)
    ensures s.scale == 1 ==> o == s.size
  {
    Size(s.size.width * s.scale, s.size.height * s.scale)
  }

  /** The re-enables that are due by `now`, and those still waiting. */
  function DueReenables(ts: seq<int>, now: int): (n: nat)
    ensures n <= |ts|
    ensures n == 0 <==> forall i :: 0 <= i < |ts| ==> ts[i] > now
  {
    if ts == [] then 0
    else DueReenables(ts[..|ts| - 1], now) + (if ts[|ts| - 1] <= now then 1 else 0)
  }

  function LaterReenables(ts: seq<int>, now: int): (rest: seq<int>)
    ensures |rest| + DueReenables(ts, now) == |ts|
    ensures forall i :: 0 <= i < |rest| ==> rest[i] > now
  {
    if ts == [] then []
    else LaterReenables(ts[..|ts| - 1], now) + (if ts[|ts| - 1] > now then [ts[|ts| - 1]] else [])
  }

  /** Time passes to `now`: every scheduled re-enable that is due calls
      `set_always_on_top(true)` and ignores its failure, so the window ends on
      top iff one was due and the call works. */
  function ExpireReenables(s: WindowState, f: Faults, now: int): (t: WindowState)
    requires now >= s.clock
    ensures t.alwaysOnTop == (s.alwaysOnTop || (DueReenables(s.reenables, now) > 0 && SetAlwaysOnTopOp !in f))
    ensures t.clock == now && t.reenables == LaterReenables(s.reenables, now)
    ensures t.(alwaysOnTop := s.alwaysOnTop, reenables := s.reenables, clock := s.clock) == s
  {
    s.(alwaysOnTop := s.alwaysOnTop || (DueReenables(s.reenables, now) > 0 && SetAlwaysOnTopOp !in f),
       reenables := LaterReenables(s.reenables, now),
       clock := now)
  }

  lemma ReenablesSnoc(ts: seq<int>, i: nat, now: int)
    requires i < |ts|
    ensures DueReenables(ts[..i + 1], now) == DueReenables(ts[..i], now) + (if ts[i] <= now then 1 else 0)
    ensures LaterReenables(ts[..i + 1], now) == LaterReenables(ts[..i], now) + (if ts[i] > now then [ts[i]] else [])
  {
    assert ts[..i + 1][..i] == ts[..i];
  }

  /** A window and its primary monitor, with the platform calls on it. */
  class Window {
    const name: string
    const monitor: Option<Size>
    const scale: nat
    var visible: bool
    var focused: bool
    var alwaysOnTop: bool
    var size: Size
    var position: Position
    var reenables: seq<int>
    var emitted: seq<string>
    var clock: int
    /** The calls that fail, as the platform decides. */
    var faults: Faults

    function State(): WindowState
      reads this
    {
      WindowState(visible, focused, alwaysOnTop, size, position, monitor, scale, reenables, emitted, clock)
    }

    constructor (name: string, s: WindowState, faults: Faults)
      ensures this.name == name && State() == s && this.faults == faults
    {
      this.name := name;
      monitor, scale := s.monitor, s.scale;
      visible, focused, alwaysOnTop := s.visible, s.focused, s.alwaysOnTop;
      size, position := s.size, s.position;
      reenables, emitted, clock := s.reenables, s.emitted, s.clock;
      this.faults := faults;
    }

    method SetSize(sz: Size) returns (r: Result<()>)
      modifies this`size
      ensures r == Outcome(faults, SetSizeOp)
      ensures size == if r.Ok? then sz else old(size)
    {
      r := Outcome(faults, SetSizeOp);
      if r.Ok? {
        size := sz;
      }
    }

    method SetAlwaysOnTop(on: bool) returns (r: Result<()>)
      modifies this`alwaysOnTop
      ensures r == Outcome(faults, SetAlwaysOnTopOp)
      ensures alwaysOnTop == if r.Ok? then on else old(alwaysOnTop)
    {
      r := Outcome(faults, SetAlwaysOnTopOp);
      if r.Ok? {
        alwaysOnTop := on;
      }
    }

    /** Gives the window the keyboard focus (and so brings it to the front). */
    method SetFocus() returns (r: Result<()>)
      modifies this`focused
      ensures r == Outcome(faults, SetFocusOp)
      ensures focused == (r.Ok? || old(focused))
    {
      r := Outcome(faults, SetFocusOp);
      if r.Ok? {
        focused := true;
      }
    }

    method Hide() returns (r: Result<()>)
      modifies this`visible
      ensures r == Outcome(faults, HideOp)
      ensures visible == (old(visible) && r.Err?)
    {
      r := Outcome(faults, HideOp);
      if r.Ok? {
        visible := false;
      }
    }

    method Show() returns (r: Result<()>)
      modifies this`visible
      ensures r == Outcome(faults, ShowOp)
      ensures visible == (old(visible) || r.Ok?)
    {
      r := Outcome(faults, ShowOp);
      if r.Ok? {
        visible := true;
      }
    }

    method IsVisible() returns (r: Result<bool>)
      ensures r == if IsVisibleOp in faults then Err(faults[IsVisibleOp]) else Ok(visible)
    {
      if IsVisibleOp in faults {
        r := Err(faults[IsVisibleOp]);
      } else {
        r := Ok(visible);
      }
    }

    method PrimaryMonitor() returns (r: Result<Option<Size>>)
      ensures r == if PrimaryMonitorOp in faults then Err(faults[PrimaryMonitorOp]) else Ok(monitor)
    {
      if PrimaryMonitorOp in faults {
        r := Err(faults[PrimaryMonitorOp]);
      } else {
        r := Ok(monitor);
      }
    }

    method OuterSize() returns (r: Result<Size>)
      ensures r == if OuterSizeOp in faults then Err(faults[OuterSizeOp]) else Ok(OuterOf(State()))
    {
      if OuterSizeOp in faults {
        r := Err(faults[OuterSizeOp]);
      } else {
        r := Ok(Size(size.width * scale, size.height * scale));
      }
    }

    method SetPosition(p: Position) returns (r: Result<()>)
      modifies this`position
      ensures r == Outcome(faults, SetPositionOp)
      ensures position == if r.Ok? then p else old(position)
    {
      r := Outcome(faults, SetPositionOp);
      if r.Ok? {
        position := p;
      }
    }

    /** Sends an event without payload to the web page. */
    method Emit(event: string) returns (r: Result<()>)
      modifies this`emitted
      ensures r == Outcome(faults, EmitOp)
      ensures emitted == if r.Ok? then old(emitted) + [event] else old(emitted)
    {
      r := Outcome(faults, EmitOp);
      if r.Ok? {
        emitted := emitted + [event];
      }
    }

    /** A spawned task that sleeps `delayMs` and then re-enables always-on-top. */
    method ScheduleReenable(delayMs: nat)
      modifies this`reenables
      ensures reenables == old(reenables) + [clock + delayMs]
    {
      reenables := reenables + [clock + delayMs];
    }

    /** Time passes to `now`; every sleeping task that is due wakes and calls
        `set_always_on_top(true)`, ignoring the result. */
    method AdvanceTo(now: int)
      requires now >= clock
      modifies this`alwaysOnTop, this`reenables, this`clock
      ensures State() == ExpireReenables(old(State()), faults, now)
    {
      var due, rest := SplitReenables(reenables, now);
      ghost var onTop0 := alwaysOnTop;
      for k := 0 to due
        invariant alwaysOnTop == (onTop0 || (k > 0 && SetAlwaysOnTopOp !in faults))
      {
        var _ := SetAlwaysOnTop(true);
      }
      reenables := rest;
      clock := now;
    }
  }

  /** Sorts the sleeping re-enable tasks into those due by `now` and those
      still waiting, keeping their order. */
  method SplitReenables(ts: seq<int>, now: int) returns (due: nat, rest: seq<int>)
    ensures due == DueReenables(ts, now) && rest == LaterReenables(ts, now)
  {
    due, rest := 0, [];
    for i := 0 to |ts|
      invariant due == DueReenables(ts[..i], now) && rest == LaterReenables(ts[..i], now)
    {
      ReenablesSnoc(ts, i, now);
      if ts[i] <= now {
        due := due + 1;
      } else {
        rest := rest + [ts[i]];
      }
    }
    assert ts[..|ts|] == ts;
  }
}
