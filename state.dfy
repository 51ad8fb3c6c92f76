/**
 * The explorer's global state record `gState` as a value: its invariant, the
 * view changes that `recompute`, `resetParameters` and `zoomInHere` make, and
 * the keyboard state machine as a function from a state and a key to the next
 * state. The class in module Explorer performs these changes in place.
 */
module ExplorerState {
  import Kernel
  import Host
  import Render
  import opened Blocks

  /** `cursor_w` and `cursor_h`, set by every interface reset. */
  const CursorSize := 20

  /** The iteration budget of the initial view. */
  const DefaultIterations := 32

  /** Blocks rendered per frame. */
  const DefaultSpeed := 4

  const IntMax := 0x7fff_ffff

  /** Budgets above this would overflow `max_iterations * 10` in a 32-bit int. */
  const MaxZoomableIterations := IntMax / 10

  /** MODE_RENDER (0) and MODE_SELECT (1). */
  datatype Mode = RenderMode | SelectMode

  /** The key reported by the host's key polling; Other is any other key or none. */
  datatype Key = Up | Down | Left | Right | Set | Erase | Display | Other
  {
    predicate IsArrow()
    {
      Up? || Down? || Left? || Right?
    }

    /** Where an arrow key asks the cursor at p to go: one block in its direction. */
    function Target(p: Pos, cw: int, ch: int): Pos
      requires IsArrow()
    {
      match this
      case Up => Pos(p.x, p.y - ch)
      case Down => Pos(p.x, p.y + ch)
      case Left => Pos(p.x - cw, p.y)
      case Right => Pos(p.x + cw, p.y)
    }
  }

  /** The fields of the view that `resetParameters` and `zoomInHere` choose; the
      steps and the progress follow from them. */
  datatype Parameters = Parameters(xstart: real, xend: real, ystart: real, yend: real,
                                   maxIterations: int, speed: int)

  /** The initial view: [-2, 1] x [-1.5, 1.5] with 32 iterations, 4 blocks per frame. */
  const InitialParameters := Parameters(-2.0, 1.0, -1.5, 1.5, DefaultIterations, DefaultSpeed)

  /** The new budget after a zoom: `(max_iterations * 10) / 8`, which is the old budget
      plus a quarter of it, rounded down. It never decreases, and it grows whenever there
      is something to grow (m >= 4). */
  function ZoomIterations(m: int): (r: int)
    requires 0 <= m
    ensures r == m + m / 4
    ensures m <= r
    ensures 4 <= m ==> m < r
  {
    (m * 10) / 8
  }

  /** One coordinate of `moveCursor`: take the target if it lies inside [0, extent),
      otherwise keep the current value. A coordinate inside the area stays inside. */
  function MoveAxis(current: int, target: int, extent: int): (r: int)
    ensures r == target || r == current
    ensures 0 <= target < extent ==> r == target
    ensures !(0 <= target < extent) ==> r == current
    ensures 0 <= current < extent ==> 0 <= r < extent
  {
    if target >= 0 && target < extent then target else current
  }

  /** The record `gState`, field for field. */
  datatype State = State(
    mode: Mode,
    xstart: real, xend: real,
    ystart: real, yend: real,
    xstep: real, ystep: real,
    maxIterations: int,
    xscreen: int, yscreen: int,
    speed: int,
    paused: bool,
    cursorX: int, cursorY: int,
    cursorW: int, cursorH: int,
    renderX: int, renderY: int,
    renderW: int, renderH: int)
  {
    function Grid(): Grid
    {
      Blocks.Grid(renderW, renderH, cursorW, cursorH)
    }

    /** The block to render next. */
    function Progress(): Pos
    {
      Pos(xscreen, yscreen)
    }

    /** This state with the next block to render moved to p. */
    function WithProgress(p: Pos): State
    {
      this.(xscreen := p.x, yscreen := p.y)
    }

    function Cursor(): Pos
    {
      Pos(cursorX, cursorY)
    }

    /** The filled rectangle that highlights the cursor block, in screen coordinates. */
    function CursorBox(colour: int): Host.DrawOp
    {
      Host.Fill(renderX + cursorX, renderY + cursorY,
                renderX + cursorX + cursorW - 1, renderY + cursorY + cursorH - 1, colour)
    }

    function Params(): Parameters
    {
      Parameters(xstart, xend, ystart, yend, maxIterations, speed)
    }

    /**
     * The invariant every operation keeps on a screen of width x height pixels: the
     * interface is as `resetInterface` leaves it, the view is a non-empty rectangle
     * whose steps are its extent over the render area, the budget never drops below
     * the initial one, in render mode the next block is a block origin inside the
     * area, and in select mode the cursor is inside the area and nothing is paused.
     */
    predicate Valid(width: int, height: int)
    {
      && width > 0 && height > 0
      && renderX == 0 && renderY == 0 && renderW == width && renderH == height
      && cursorW == CursorSize && cursorH == CursorSize
      && xstart < xend && ystart < yend
      && xstep == (xend - xstart) / renderW as real
      && ystep == (yend - ystart) / renderH as real
      && maxIterations >= DefaultIterations
      && speed == DefaultSpeed
      && (mode == RenderMode ==> OnGrid(Grid(), Progress()))
      && (mode == SelectMode ==> 0 <= cursorX < renderW && 0 <= cursorY < renderH && !paused)
    }

    /** What the pixel renderer reads from this state, given the palette and the in-set colour. */
    function Canvas(palette: seq<int>, black: int): Render.Canvas
      requires cursorW >= 0 && cursorH >= 0
    {
      Render.Canvas(xstart, ystart, xstep, ystep, maxIterations, palette, black,
                    renderX, renderY, cursorW, cursorH)
    }

    /** The view `p` with its steps derived from it and rendering restarted at (0, 0),
        as `recompute` leaves it. */
    function Reframed(p: Parameters): State
      requires renderW > 0 && renderH > 0
    {
      this.(xstart := p.xstart, xend := p.xend, ystart := p.ystart, yend := p.yend,
            maxIterations := p.maxIterations, speed := p.speed,
            xstep := (p.xend - p.xstart) / renderW as real,
            ystep := (p.yend - p.ystart) / renderH as real,
            xscreen := 0, yscreen := 0)
    }

    /** The view `zoomInHere` chooses: the cursor block's part of the plane, with a
        quarter more iterations. */
    function ZoomTarget(): Parameters
      requires maxIterations >= 0
    {
      var x := xstart + cursorX as real * xstep;
      var y := ystart + cursorY as real * ystep;
      Parameters(x, x + cursorW as real * xstep, y, y + cursorH as real * ystep,
                 ZoomIterations(maxIterations), speed)
    }

    /**
     * The state after `gui_mandelbrot_keyboard` sees `key`. In select mode the arrows
     * move the cursor by one block (see MoveAxis), SET zooms into the cursor block and
     * ERASE or DISPLAY go back to the initial view; these three restart rendering. In
     * render mode SET toggles the pause. Every other key leaves the state alone.
     */
    function AfterKey(key: Key): State
      requires renderW > 0 && renderH > 0 && maxIterations >= 0
    {
      match mode
      case RenderMode =>
        if key == Set then this.(paused := !paused) else this
      case SelectMode =>
        match key
        case Set => Reframed(ZoomTarget()).(mode := RenderMode)
        case Erase | Display => Reframed(InitialParameters).(mode := RenderMode)
        case Other => this
        case _ =>
          var t := key.Target(Cursor(), cursorW, cursorH);
          this.(cursorX := MoveAxis(cursorX, t.x, renderW), cursorY := MoveAxis(cursorY, t.y, renderH))
    }
  }

  /** The zero-initialised `gState` before `gui_mandelbrot_init` runs. */
  const ZeroState := State(RenderMode, 0.0, 0.0, 0.0, 0.0, 0.0, 0.0, 0, 0, 0, 0, false,
                           0, 0, 0, 0, 0, 0, 0, 0)

  /** Along one axis, the block of `size` pixels at pixel `pos` covers a non-empty
      interval from the point under `pos` to the point under `pos + size`; over
      `pixels` pixels its step is the old step scaled by size / pixels. */
  lemma ZoomedAxis(start: real, pos: int, size: int, step: real, pixels: int)
    requires step > 0.0 && size > 0 && pixels > 0
    ensures var lo := start + pos as real * step;
      var hi := lo + size as real * step;
      && lo < hi
      && (hi - lo) / pixels as real == step * size as real / pixels as real
  {
  }

  /** The view `zoomInHere` chooses spans the cursor block: its corners are the points
      under the cursor's top-left pixel and under the pixel just past its bottom-right one. */
  lemma ZoomCorners(s: State, palette: seq<int>, black: int)
    requires s.cursorW >= 0 && s.cursorH >= 0 && s.maxIterations >= 0
    ensures var c := s.Canvas(palette, black);
      var z := s.ZoomTarget();
      && Kernel.Point(z.xstart, z.ystart) == Render.PointAt(c, s.cursorX, s.cursorY)
      && Kernel.Point(z.xend, z.yend) == Render.PointAt(c, s.cursorX + s.cursorW, s.cursorY + s.cursorH)
  {
    assert (s.cursorX + s.cursorW) as real * s.xstep == s.cursorX as real * s.xstep + s.cursorW as real * s.xstep;
    assert (s.cursorY + s.cursorH) as real * s.ystep == s.cursorY as real * s.ystep + s.cursorH as real * s.ystep;
  }

  /**
   * Zooming into the cursor block shrinks each step by cursor size / render size,
   * grows the budget, restarts rendering at (0, 0) and keeps the invariant, in
   * either mode.
   */
  lemma ZoomKeepsValid(s: State, width: int, height: int)
    requires s.Valid(width, height)
    ensures var z := s.Reframed(s.ZoomTarget());
      && z.xstep == s.xstep * CursorSize as real / width as real
      && z.ystep == s.ystep * CursorSize as real / height as real
      && z.maxIterations == ZoomIterations(s.maxIterations) > s.maxIterations
      && z.Progress() == Pos(0, 0)
      && z.Valid(width, height) && z.(mode := RenderMode).Valid(width, height)
  {
    assert s.xstep > 0.0 && s.ystep > 0.0;
    ZoomedAxis(s.xstart, s.cursorX, s.cursorW, s.xstep, width);
    ZoomedAxis(s.ystart, s.cursorY, s.cursorH, s.ystep, height);
  }

  /** Going back to the initial view restarts rendering at (0, 0) and keeps the
      invariant, in either mode. */
  lemma ResetKeepsValid(s: State, width: int, height: int)
    requires s.Valid(width, height)
    ensures var r := s.Reframed(InitialParameters);
      && r.Params() == InitialParameters && r.Progress() == Pos(0, 0)
      && r.Valid(width, height) && r.(mode := RenderMode).Valid(width, height)
  {
  }

  /** Moving the cursor as `moveCursor` does keeps it inside the render area. */
  lemma CursorKeepsValid(s: State, width: int, height: int, x: int, y: int)
    requires s.Valid(width, height)
    ensures s.(cursorX := MoveAxis(s.cursorX, x, s.renderW),
               cursorY := MoveAxis(s.cursorY, y, s.renderH)).Valid(width, height)
  {
  }

  /** In render mode the next block may be any block of the image. */
  lemma AdvanceKeepsValid(s: State, width: int, height: int, i: nat)
    requires s.Valid(width, height) && s.mode == RenderMode && i < Total(s.Grid())
    ensures s.WithProgress(BlockAt(s.Grid(), i)).Valid(width, height)
  {
    IndexOfBlock(s.Grid(), i);
  }

  /** Finishing an unpaused render hands over to select mode with the cursor at the
      origin, which keeps the invariant wherever the progress was left. */
  lemma CompletionKeepsValid(s: State, width: int, height: int, y: int)
    requires s.Valid(width, height) && !s.paused
    ensures s.(mode := SelectMode, xscreen := 0, yscreen := y, cursorX := 0, cursorY := 0).Valid(width, height)
  {
  }

  /** Every key keeps the invariant. */
  lemma KeyKeepsValid(s: State, width: int, height: int, key: Key)
    requires s.Valid(width, height)
    ensures s.AfterKey(key).Valid(width, height)
  {
    if s.mode == SelectMode {
      match key
      case Set => ZoomKeepsValid(s, width, height);
      case Erase | Display => ResetKeepsValid(s, width, height);
      case Other =>
      case _ =>
        var t := key.Target(s.Cursor(), s.cursorW, s.cursorH);
        CursorKeepsValid(s, width, height, t.x, t.y);
    }
  }

  /** In render mode SET is the only key that does anything, and all it does is
      toggle the pause: pressing it twice restores the state. */
  lemma RenderModeKeys(s: State, key: Key)
    requires s.renderW > 0 && s.renderH > 0 && s.maxIterations >= 0 && s.mode == RenderMode
    ensures s.AfterKey(key) != s <==> key == Set
    ensures s.AfterKey(key) == s.(paused := s.AfterKey(key).paused)
    ensures s.AfterKey(Set).AfterKey(Set) == s
  {
  }

  /** In select mode an arrow changes the cursor position and nothing else: UP and DOWN
      try one block up or down, LEFT and RIGHT one block left or right, and the cursor
      takes that step exactly when it lands inside the render area. */
  lemma ArrowMovesOnlyCursor(s: State, key: Key)
    requires s.renderW > 0 && s.renderH > 0 && s.maxIterations >= 0
    requires s.mode == SelectMode && key.IsArrow()
    ensures var r := s.AfterKey(key);
      && r == s.(cursorX := r.cursorX, cursorY := r.cursorY)
      && (key.Up? ==> r.cursorX == s.cursorX && r.cursorY == MoveAxis(s.cursorY, s.cursorY - s.cursorH, s.renderH))
      && (key.Down? ==> r.cursorX == s.cursorX && r.cursorY == MoveAxis(s.cursorY, s.cursorY + s.cursorH, s.renderH))
      && (key.Left? ==> r.cursorY == s.cursorY && r.cursorX == MoveAxis(s.cursorX, s.cursorX - s.cursorW, s.renderW))
      && (key.Right? ==> r.cursorY == s.cursorY && r.cursorX == MoveAxis(s.cursorX, s.cursorX + s.cursorW, s.renderW))
  {
  }

  /** SET in select mode zooms into the cursor block and starts rendering it from the
      first block, with a larger budget (ZoomCorners says which part of the plane that
      is); ERASE and DISPLAY start rendering the initial
      view, whatever the view was. */
  lemma SelectModeRestarts(s: State, width: int, height: int, key: Key)
    requires s.Valid(width, height) && s.mode == SelectMode && (key == Set || key == Erase || key == Display)
    ensures var r := s.AfterKey(key);
      && r.mode == RenderMode && r.Progress() == Pos(0, 0) && !r.paused
      && r.Cursor() == s.Cursor()
      && (key == Set ==> r.Params() == s.ZoomTarget() && r.maxIterations > s.maxIterations)
      && (key != Set ==> r.Params() == InitialParameters)
  {
    if key == Set {
      ZoomKeepsValid(s, width, height);
    } else {
      ResetKeepsValid(s, width, height);
    }
  }
}
