/** Where the application puts its window: the integer arithmetic that centres
    a window on the primary monitor, and the start-up sequence that positions
    the main window, keeps it on top and focuses it. */
module Placement {
  import opened Base
  import opened HostWindow

  /** Distance in physical pixels between the top of the screen and the window. */
  const TopOffset: int := 54

  const TwoTo31: int := 0x8000_0000
  const TwoTo32: int := 0x1_0000_0000

  predicate IsI32(v: int)
  {
    -TwoTo31 <= v < TwoTo31
  }

  /** Rust's `as i32`, and i32 subtraction in a release build: the value
      modulo 2^32, read in two's complement. */
  function Wrap32(v: int): (r: int)
    ensures IsI32(r)
    ensures (v - r) % TwoTo32 == 0
    ensures IsI32(v) ==> r == v
  {
    var m := v % TwoTo32;
    if m < TwoTo31 then m else m - TwoTo32
  }

  /** i32 division by 2, which rounds toward zero (not down, as `/` does on
      Dafny's integers). */
  function TruncHalf(v: int): (r: int)
    ensures v >= 0 ==> 0 <= r && 0 <= v - 2 * r <= 1
    ensures v < 0 ==> r <= 0 && -1 <= v - 2 * r <= 0
  {
    if v >= 0 then v / 2 else -((-v) / 2)
  }

  /** `(monitor as i32 - window as i32) / 2`: the coordinate that centres a
      window of length `w` on a monitor of length `m`. */
  function CenterOffset(m: nat, w: nat): (x: int)
    ensures -TwoTo31 / 2 <= x < TwoTo31 / 2
    ensures m < TwoTo31 && w < TwoTo31 ==> x == TruncHalf(m - w)
  {
    TruncHalf(Wrap32(Wrap32(m) - Wrap32(w)))
  }

  /** Below 2^31 no cast or subtraction wraps, and the offset is half the
      free space, rounded toward zero. */
  lemma CenterOffsetExact(m: nat, w: nat)
    requires m < TwoTo31 && w < TwoTo31
    ensures CenterOffset(m, w) == TruncHalf(m - w)
  {
  }

  /** A window no wider than its monitor lies wholly on it, and its left and
      right margins differ by at most one pixel (the right one being the larger). */
  lemma CenterOffsetFits(m: nat, w: nat)
    requires w <= m < TwoTo31
    ensures var x := CenterOffset(m, w);
      0 <= x && x + w <= m && 0 <= (m - (x + w)) - x <= 1
  {
    CenterOffsetExact(m, w);
  }

  /** A window wider than its monitor overhangs both edges, the right overhang
      exceeding the left one by at most one pixel. */
  lemma CenterOffsetOverhangs(m: nat, w: nat)
    requires m < w < TwoTo31
    ensures var x := CenterOffset(m, w);
      x <= 0 && x + w >= m && 0 <= (x + w - m) - (-x) <= 1
  {
    CenterOffsetExact(m, w);
  }

  /** Because the division truncates, swapping the two lengths negates the offset. */
  lemma CenterOffsetAntisymmetric(m: nat, w: nat)
    requires m < TwoTo31 && w < TwoTo31
    ensures CenterOffset(w, m) == -CenterOffset(m, w)
  {
    CenterOffsetExact(m, w);
    CenterOffsetExact(w, m);
  }

  /** `position_window_top_center`: with a primary monitor, put the window at
      `y_offset` from the top and centred horizontally; without one, do nothing.
      Each platform call that fails ends the function with its error. */
  function TopCenterStep(s: WindowState, f: Faults, yOffset: int): (st: Step)
    ensures st.state == s || st.state == s.(position := st.state.position)
    ensures s.monitor.None? ==> st == Step(Outcome(f, PrimaryMonitorOp), s)
    ensures st.result.Ok? <==>
              PrimaryMonitorOp !in f && (s.monitor.Some? ==> OuterSizeOp !in f && SetPositionOp !in f)
    ensures st.result.Ok? && s.monitor.Some? ==>
              st.state.position == Position(CenterOffset(s.monitor.value.width, OuterOf(s).width), yOffset)
    ensures st.result.Err? ==> st.state == s
  {
    if PrimaryMonitorOp in f then Step(Err(f[PrimaryMonitorOp]), s)
    else match s.monitor
      case None => Step(Ok(()), s)
      case Some(m) =>
        if OuterSizeOp in f then Step(Err(f[OuterSizeOp]), s)
        else if SetPositionOp in f then Step(Err(f[SetPositionOp]), s)
        else Step(Ok(()), s.(position := Position(CenterOffset(m.width, OuterOf(s).width), yOffset)))
  }

  /** Positioning twice is positioning once. */
  lemma TopCenterIdempotent(s: WindowState, f: Faults, yOffset: int)
    ensures var once := TopCenterStep(s, f, yOffset);
      TopCenterStep(once.state, f, yOffset) == once
  {
  }

  /** With a primary monitor that fits the window, top-centring leaves it on the
      screen, `y_offset` from the top, with margins that differ by at most one. */
  lemma TopCenterOnScreen(s: WindowState, f: Faults, yOffset: int)
    requires s.monitor.Some? && OuterOf(s).width <= s.monitor.value.width < TwoTo31
    requires TopCenterStep(s, f, yOffset).result.Ok?
    ensures var p := TopCenterStep(s, f, yOffset).state.position;
      var m := s.monitor.value.width;
      var w := OuterOf(s).width;
      p.y == yOffset && 0 <= p.x && p.x + w <= m && 0 <= (m - (p.x + w)) - p.x <= 1
  {
    CenterOffsetFits(s.monitor.value.width, OuterOf(s).width);
  }

  /** `center_window_completely`: the same formula on both axes. */
  function CenterCompletelyStep(s: WindowState, f: Faults): (st: Step)
    ensures st.state == s || st.state == s.(position := st.state.position)
    ensures st.result.Ok? <==>
              PrimaryMonitorOp !in f && (s.monitor.Some? ==> OuterSizeOp !in f && SetPositionOp !in f)
    ensures st.result.Ok? && s.monitor.Some? ==>
              st.state.position == Position(CenterOffset(s.monitor.value.width, OuterOf(s).width),
                                            CenterOffset(s.monitor.value.height, OuterOf(s).height))
    ensures st.result.Err? || s.monitor.None? ==> st.state == s
  {
    if PrimaryMonitorOp in f then Step(Err(f[PrimaryMonitorOp]), s)
    else match s.monitor
      case None => Step(Ok(()), s)
      case Some(m) =>
        var o := OuterOf(s);
        if OuterSizeOp in f then Step(Err(f[OuterSizeOp]), s)
        else if SetPositionOp in f then Step(Err(f[SetPositionOp]), s)
        else Step(Ok(()), s.(position := Position(CenterOffset(m.width, o.width), CenterOffset(m.height, o.height))))
  }

  /** Centring completely and top-centring agree on the horizontal coordinate. */
  lemma CenterCompletelySharesX(s: WindowState, f: Faults, yOffset: int)
    requires s.monitor.Some? && CenterCompletelyStep(s, f).result.Ok?
    ensures TopCenterStep(s, f, yOffset).result.Ok?
    ensures CenterCompletelyStep(s, f).state.position.x == TopCenterStep(s, f, yOffset).state.position.x
  {
  }

  /** `position_window_at`: exactly the requested position. */
  function PositionAtStep(s: WindowState, f: Faults, x: int, y: int): (st: Step)
    ensures st.result == Outcome(f, SetPositionOp)
    ensures st.state == if st.result.Ok? then s.(position := Position(x, y)) else s
  {
    if SetPositionOp in f then Step(Err(f[SetPositionOp]), s)
    else Step(Ok(()), s.(position := Position(x, y)))
  }

  /** `maintain_window_behavior`: put the window on top, then focus it; when the
      first call fails the second is not made. */
  function MaintainStep(s: WindowState, f: Faults): (st: Step)
    ensures st.result.Ok? <==> SetAlwaysOnTopOp !in f && SetFocusOp !in f
    ensures st.result.Ok? ==> st.state == s.(alwaysOnTop := true, focused := true)
    ensures SetAlwaysOnTopOp in f ==> st == Step(Err(f[SetAlwaysOnTopOp]), s)
    ensures SetAlwaysOnTopOp !in f && SetFocusOp in f ==>
              st == Step(Err(f[SetFocusOp]), s.(alwaysOnTop := true))
  {
    if SetAlwaysOnTopOp in f then Step(Err(f[SetAlwaysOnTopOp]), s)
    else
      var t := s.(alwaysOnTop := true);
      if SetFocusOp in f then Step(Err(f[SetFocusOp]), t)
      else Step(Ok(()), t.(focused := true))
  }

  /** Maintaining the window twice leaves it as maintaining it once. */
  lemma MaintainIdempotent(s: WindowState, f: Faults)
    ensures MaintainStep(MaintainStep(s, f).state, f).state == MaintainStep(s, f).state
  {
  }

  /** The label-based choice of the main window: "main", else "pluely", else
      the first window the application lists. */
  function IndexOf(names: seq<string>, n: string): (r: Option<nat>)
    ensures r.None? <==> n !in names
    ensures r.Some? ==> r.value < |names| && names[r.value] == n
    ensures r.Some? ==> forall j :: 0 <= j < r.value ==> names[j] != n
  {
    if names == [] then None
    else if names[0] == n then Some(0)
    else match IndexOf(names[1..], n)
      case None => None
      case Some(i) => Some(i + 1)
  }

  function ChooseWindow(names: seq<string>): (r: Option<nat>)
    ensures r.None? <==> names == []
    ensures r.Some? ==> r.value < |names|
    ensures "main" in names ==> r.Some? && names[r.value] == "main"
    ensures "main" !in names && "pluely" in names ==> r.Some? && names[r.value] == "pluely"
    ensures "main" !in names && "pluely" !in names ==> r == if names == [] then None else Some(0)
  {
    if "main" in names then IndexOf(names, "main")
    else if "pluely" in names then IndexOf(names, "pluely")
    else if names == [] then None
    else Some(0)
  }

  /** `setup_main_window` on the chosen window: top-centre it at `TOP_OFFSET`,
      put it on top, then focus it; the first failure ends the sequence. */
  function SetupStep(s: WindowState, f: Faults): (st: Step)
    ensures st.result.Ok? <==>
              TopCenterStep(s, f, TopOffset).result.Ok? && SetAlwaysOnTopOp !in f && SetFocusOp !in f
    ensures TopCenterStep(s, f, TopOffset).result.Err? ==> st == TopCenterStep(s, f, TopOffset)
    ensures st.result.Ok? ==>
              st.state == TopCenterStep(s, f, TopOffset).state.(alwaysOnTop := true, focused := true)
  {
    var p := TopCenterStep(s, f, TopOffset);
    if p.result.Err? then p
    else MaintainStep(p.state, f)
  }

  function Names(ws: seq<Window>): (ns: seq<string>)
    ensures |ns| == |ws| && forall i :: 0 <= i < |ws| ==> ns[i] == ws[i].name
  {
    seq(|ws|, i requires 0 <= i < |ws| => ws[i].name)
  }

  /** The window `setup_main_window` works on, if any. */
  function Chosen(ws: seq<Window>): set<Window>
  {
    match ChooseWindow(Names(ws))
    case None => {}
    case Some(i) => {ws[i]}
  }

  method PositionTopCenter(w: Window, yOffset: int) returns (r: Result<()>)
    modifies w`position
    ensures Step(r, w.State()) == TopCenterStep(old(w.State()), w.faults, yOffset)
  {
    var monitor := w.PrimaryMonitor();
    if monitor.Err? {
      return Err(monitor.error);
    }
    if monitor.value.Some? {
      var outer := w.OuterSize();
      if outer.Err? {
        return Err(outer.error);
      }
      var centerX := CenterOffset(monitor.value.value.width, outer.value.width);
      r := w.SetPosition(Position(centerX, yOffset));
      if r.Err? {
        return;
      }
    }
    return Ok(());
  }

  method CenterCompletely(w: Window) returns (r: Result<()>)
    modifies w`position
    ensures Step(r, w.State()) == CenterCompletelyStep(old(w.State()), w.faults)
  {
    var monitor := w.PrimaryMonitor();
    if monitor.Err? {
      return Err(monitor.error);
    }
    if monitor.value.Some? {
      var m := monitor.value.value;
      var outer := w.OuterSize();
      if outer.Err? {
        return Err(outer.error);
      }
      var centerX := CenterOffset(m.width, outer.value.width);
      var centerY := CenterOffset(m.height, outer.value.height);
      r := w.SetPosition(Position(centerX, centerY));
      if r.Err? {
        return;
      }
    }
    return Ok(());
  }

  method PositionAt(w: Window, x: int, y: int) returns (r: Result<()>)
    modifies w`position
    ensures Step(r, w.State()) == PositionAtStep(old(w.State()), w.faults, x, y)
  {
    r := w.SetPosition(Position(x, y));
  }

  method Maintain(w: Window) returns (r: Result<()>)
    modifies w`alwaysOnTop, w`focused
    ensures Step(r, w.State()) == MaintainStep(old(w.State()), w.faults)
  {
    r := w.SetAlwaysOnTop(true);
    if r.Err? {
      return;
    }
    r := w.SetFocus();
  }

  /** `setup_main_window` over the application's windows, in the order it
      lists them; only the chosen window changes. */
  method SetupMainWindow(ws: seq<Window>) returns (r: Result<()>)
    modifies Chosen(ws)
    ensures ChooseWindow(Names(ws)).None? ==> r == Err("No window found")
    ensures ChooseWindow(Names(ws)).Some? ==>
              var w := ws[ChooseWindow(Names(ws)).value];
              Step(r, w.State()) == SetupStep(old(w.State()), old(w.faults)) && w.faults == old(w.faults)
  {
    var choice := ChooseWindow(Names(ws));
    if choice.None? {
      return Err("No window found");
    }
    var w := ws[choice.value];
    r := PositionTopCenter(w, TopOffset);
    if r.Err? {
      return;
    }
    r := w.SetAlwaysOnTop(true);
    if r.Err? {
      return;
    }
    r := w.SetFocus();
  }
}
