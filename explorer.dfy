/**
 * The explorer itself, `gState` updated in place: the view operations, the
 * pixel and block renderers that draw on the host's screen, the cursor, the
 * key handler and the per-frame progressive renderer. Each method's new
 * state is stated with the record functions of module ExplorerState, where
 * the properties of those functions are proved.
 */
module Explorer {
  import Arith
  import Kernel
  import Palette
  import Host
  import Render
  import opened Blocks
  import opened ExplorerState

  class Mandelbrot {
    const screen: Host.Screen
    const colours: Host.Colours
    /** `mandle_palette`: filled once at initialisation and only read afterwards. */
    const palette: seq<int>
    var gState: State

    ghost predicate Valid()
      reads this
    {
      && palette == [colours.red, colours.green, colours.blue, colours.yellow,
                         colours.white, colours.grey, colours.blueLight]
      && gState.Valid(screen.width, screen.height)
    }

    /** What the pixel renderer needs: a full palette and a block of non-negative size. */
    ghost predicate Ready()
      reads this
    {
      |palette| == Palette.Size && gState.cursorW >= 0 && gState.cursorH >= 0
    }

    /** What the pixel renderer reads. */
    ghost function Canvas(): Render.Canvas
      reads this
      requires Ready()
    {
      gState.Canvas(palette, colours.black)
    }

    /** `gui_mandelbrot_init`: fill the palette, reset the interface and the view of the
        zero-initialised state, and clear the screen to yellow. */
    constructor (screen: Host.Screen, colours: Host.Colours)
      requires screen.width > 0 && screen.height > 0
      modifies screen
      ensures Valid()
      ensures this.screen == screen && this.colours == colours
      ensures gState == ZeroState.(renderW := screen.width, renderH := screen.height,
                                   cursorW := CursorSize, cursorH := CursorSize).Reframed(InitialParameters)
      ensures screen.log == old(screen.log) + [Host.Fill(0, 0, screen.width, screen.height, colours.yellow)]
    {
      this.screen := screen;
      this.colours := colours;
      palette := [colours.red, colours.green, colours.blue, colours.yellow,
                                        colours.white, colours.grey, colours.blueLight];
      gState := ZeroState;
      new;
      ResetInterface();
      ResetParameters();
      screen.DrawFilledRect(0, 0, screen.width, screen.height, colours.yellow);
    }

    /** `resetInterface`: the render area is the whole screen, the cursor is a 20 x 20
        block at the origin, and rendering is not paused. */
    method ResetInterface()
      modifies this`gState
      ensures gState == old(gState).(renderX := 0, renderY := 0,
                                     renderW := screen.width, renderH := screen.height,
                                     cursorX := 0, cursorY := 0,
                                     cursorW := CursorSize, cursorH := CursorSize, paused := false)
    {
      gState := gState.(renderX := 0, renderY := 0, renderW := screen.width, renderH := screen.height,
                        cursorX := 0, cursorY := 0, cursorW := CursorSize, cursorH := CursorSize,
                        paused := false);
    }

    /** `recompute`: derive the steps from the bounds and restart rendering at (0, 0). */
    method Recompute()
      requires gState.renderW > 0 && gState.renderH > 0
      modifies this`gState
      ensures gState == old(gState).Reframed(old(gState.Params()))
    {
      gState := gState.(xscreen := 0, yscreen := 0,
                        xstep := (gState.xend - gState.xstart) / gState.renderW as real,
                        ystep := (gState.yend - gState.ystart) / gState.renderH as real);
    }

    /** `resetParameters`: back to the initial view, in render mode. */
    method ResetParameters()
      requires gState.renderW > 0 && gState.renderH > 0
      modifies this`gState
      ensures gState == old(gState).(mode := RenderMode).Reframed(InitialParameters)
    {
      gState := gState.(mode := RenderMode, xstart := -2.0, ystart := -1.5, xend := 1.0, yend := 1.5,
                        maxIterations := DefaultIterations, speed := DefaultSpeed);
      Recompute();
    }

    /** `zoomInHere`: the new view is the part of the plane under the cursor block,
        with a quarter more iterations (see ZoomCorners and ZoomKeepsValid). */
    method ZoomInHere()
      requires gState.renderW > 0 && gState.renderH > 0
      requires 0 <= gState.maxIterations <= MaxZoomableIterations
      modifies this`gState
      ensures gState == old(gState).Reframed(old(gState.ZoomTarget()))
    {
      var x := gState.xstart + gState.cursorX as real * gState.xstep;
      var y := gState.ystart + gState.cursorY as real * gState.ystep;
      var w := gState.cursorW as real * gState.xstep;
      var h := gState.cursorH as real * gState.ystep;
      gState := gState.(xstart := x, ystart := y, xend := x + w, yend := y + h,
                        maxIterations := (gState.maxIterations * 10) / 8);
      Recompute();
    }

    /** `draw_mandel_pixel`: classify the point under pixel offset (sx, sy) and plot it. */
    method MandelPixel(sx: int, sy: int)
      requires Ready()
      modifies screen
      ensures screen.log == old(screen.log) + [Render.PlotAt(Canvas(), sx, sy)]
    {
      var x := gState.xstart;
      var y := gState.ystart;
      x := x + sx as real * gState.xstep;
      y := y + sy as real * gState.ystep;
      var inset, iterations := Kernel.EscapeTime(Kernel.Point(x, y), gState.maxIterations);
      ghost var c := Canvas();
      assert Kernel.Point(x, y) == Render.PointAt(c, sx, sy);
      var col;
      if inset {
        col := colours.black;
      } else {
        col := palette[Palette.Index(iterations)];
      }
      assert col == Render.ColourAt(c, sx, sy);
      screen.DrawPixel(gState.renderX + sx, gState.renderY + sy, col);
    }

    /** `draw_mandel_area`: plot the block at offset (x, y), row by row. */
    method MandelArea(x: int, y: int)
      requires Ready()
      modifies screen
      ensures screen.log == old(screen.log) + Render.AreaPlots(Canvas(), x, y)
    {
      ghost var c := Canvas();
      var j := 0;
      while j < gState.cursorH
        invariant 0 <= j <= gState.cursorH
        invariant screen.log == old(screen.log) + Render.AreaRows(c, x, y, j)
      {
        var i := 0;
        while i < gState.cursorW
          invariant 0 <= i <= gState.cursorW
          invariant screen.log == old(screen.log) + Render.AreaRows(c, x, y, j) + Render.RowPlots(c, x, y + j, i)
        {
          MandelPixel(x + i, y + j);
          i := i + 1;
        }
        j := j + 1;
      }
    }

    /**
     * `moveCursor`: redraw the block under the cursor (erasing the highlight), move
     * each coordinate only if its target lies inside the render area, and draw the
     * highlight at the resulting position (see CursorKeepsValid).
     */
    method MoveCursor(newX: int, newY: int)
      requires Ready()
      modifies this`gState, screen
      ensures gState == old(gState).(cursorX := MoveAxis(old(gState.cursorX), newX, old(gState.renderW)),
                                     cursorY := MoveAxis(old(gState.cursorY), newY, old(gState.renderH)))
      ensures screen.log == old(screen.log) + old(Render.AreaPlots(Canvas(), gState.cursorX, gState.cursorY))
                            + [gState.CursorBox(colours.blue)]
    {
      MandelArea(gState.cursorX, gState.cursorY);
      if newX >= 0 && newX < gState.renderW {
        gState := gState.(cursorX := newX);
      }
      if newY >= 0 && newY < gState.renderH {
        gState := gState.(cursorY := newY);
      }
      screen.DrawFilledRect(gState.cursorX + gState.renderX, gState.cursorY + gState.renderY,
                            gState.cursorX + gState.renderX + gState.cursorW - 1,
                            gState.cursorY + gState.renderY + gState.cursorH - 1, colours.blue);
    }

    /**
     * `gui_mandelbrot_keyboard`. In select mode the arrows move the cursor by one
     * block, SET zooms into the cursor block and ERASE or DISPLAY go back to the
     * initial view; the last two restart rendering. In render mode SET toggles the
     * pause and every other key is ignored.
     */
    method Keyboard(key: Key)
      requires Valid()
      requires gState.mode == SelectMode && key == Set ==> gState.maxIterations <= MaxZoomableIterations
      modifies this`gState, screen
      ensures Valid()
      ensures gState == old(gState.AfterKey(key))
      ensures screen.log == old(screen.log) +
        if old(gState.mode) == SelectMode && key.IsArrow()
        then old(Render.AreaPlots(Canvas(), gState.cursorX, gState.cursorY)) + [gState.CursorBox(colours.blue)]
        else []
    {
      ghost var s0 := gState;
      KeyKeepsValid(s0, screen.width, screen.height, key);
      if gState.mode == SelectMode {
        match key
        case Up => MoveCursor(gState.cursorX, gState.cursorY - gState.cursorH);
        case Down => MoveCursor(gState.cursorX, gState.cursorY + gState.cursorH);
        case Left => MoveCursor(gState.cursorX - gState.cursorW, gState.cursorY);
        case Right => MoveCursor(gState.cursorX + gState.cursorW, gState.cursorY);
        case Set =>
          ZoomInHere();
          gState := gState.(mode := RenderMode);
        case Erase | Display =>
          ResetParameters();
          gState := gState.(mode := RenderMode);
        case Other =>
      } else {
        if key == Set {
          gState := gState.(paused := !gState.paused);
        }
      }
    }

    /**
     * One pass of the loop in `gui_mandelbrot_draw`: render the block at the progress
     * position, then move the progress one block right, or to the start of the next
     * row at the right edge. Past the bottom edge the render is complete: switch to
     * select mode, reset the interface and draw the cursor at the origin.
     */
    method RenderBlock(ghost g: Grid, ghost i: nat) returns (finished: bool)
      requires Valid() && gState.mode == RenderMode && !gState.paused
      requires g == gState.Grid() && i < Total(g) && gState.Progress() == BlockAt(g, i)
      modifies this`gState, screen
      ensures Valid()
      ensures finished <==> i + 1 == Total(g)
      ensures !finished ==>
        && gState == old(gState).WithProgress(BlockAt(g, i + 1))
        && screen.log == old(screen.log) + Render.AreaPlots(old(Canvas()), BlockAt(g, i).x, BlockAt(g, i).y)
      ensures finished ==>
        && gState == old(gState).(mode := SelectMode, xscreen := 0, yscreen := Rows(g) * CursorSize,
                                  cursorX := 0, cursorY := 0)
        && screen.log == old(screen.log) + Render.AreaPlots(old(Canvas()), BlockAt(g, i).x, BlockAt(g, i).y)
                         + Render.AreaPlots(old(Canvas()), 0, 0)
                         + [Host.Fill(0, 0, CursorSize - 1, CursorSize - 1, colours.blue)]
    {
      ghost var s0 := gState;
      NextBlock(g, i);
      MandelArea(gState.xscreen, gState.yscreen);
      finished := false;
      gState := gState.(xscreen := gState.xscreen + gState.cursorW);
      if gState.xscreen >= gState.renderW {
        gState := gState.(xscreen := 0, yscreen := gState.yscreen + gState.cursorH);
        if gState.yscreen >= gState.renderH {
          gState := gState.(mode := SelectMode);
          ResetInterface();
          MoveCursor(0, 0);
          CompletionKeepsValid(s0, screen.width, screen.height, Rows(g) * CursorSize);
          finished := true;
        }
      }
      if !finished {
        AdvanceKeepsValid(s0, screen.width, screen.height, i + 1);
      }
    }

    /**
     * `gui_mandelbrot_draw`, run once per frame. Unless selecting or paused, render
     * up to `speed` blocks from the current one on, in row-major order, stopping
     * after the last block of the image (see RenderBlock).
     */
    method Draw()
      requires Valid()
      modifies this`gState, screen
      ensures Valid()
      ensures old(gState.mode) == SelectMode || old(gState.paused) ==>
        gState == old(gState) && screen.log == old(screen.log)
      ensures old(gState.mode) == RenderMode && !old(gState.paused) ==>
        var g := old(gState.Grid());
        var i := Index(g, old(gState.Progress()));
        var n := Arith.Min(DefaultSpeed, Total(g) - i);
        && 0 <= i < Total(g) && 0 < n
        && (i + n < Total(g) ==>
              && gState == old(gState).WithProgress(BlockAt(g, i + n))
              && screen.log == old(screen.log) + Render.AreasLog(old(Canvas()), Run(g, i, n)))
        && (i + n == Total(g) ==>
              && gState == old(gState).(mode := SelectMode, xscreen := 0, yscreen := Rows(g) * CursorSize,
                                        cursorX := 0, cursorY := 0)
              && screen.log == old(screen.log) + Render.AreasLog(old(Canvas()), Run(g, i, n))
                               + Render.AreaPlots(old(Canvas()), 0, 0)
                               + [Host.Fill(0, 0, CursorSize - 1, CursorSize - 1, colours.blue)])
    {
      if gState.mode == RenderMode && !gState.paused {
        ghost var s0 := gState;
        ghost var g := s0.Grid();
        ghost var i0 := Index(g, s0.Progress());
        ghost var c0 := Canvas();
        ghost var log0 := screen.log;
        BlockOfIndex(g, s0.Progress());
        var k := 0;
        while k < gState.speed
          invariant 0 <= k <= DefaultSpeed && i0 + k < Total(g)
          invariant Valid() && Canvas() == c0
          invariant gState == s0.WithProgress(BlockAt(g, i0 + k))
          invariant screen.log == log0 + Render.AreasLog(c0, Run(g, i0, k))
        {
          RunSnoc(g, i0, k);
          Render.AreasLogSnoc(c0, Run(g, i0, k), BlockAt(g, i0 + k));
          Render.AppendAssoc(log0, Render.AreasLog(c0, Run(g, i0, k)), Render.AreaPlots(c0, BlockAt(g, i0 + k).x, BlockAt(g, i0 + k).y));
          var finished := RenderBlock(g, i0 + k);
          if finished {
            assert k + 1 == Arith.Min(DefaultSpeed, Total(g) - i0);
            assert screen.log == log0 + Render.AreasLog(c0, Run(g, i0, k + 1))
                                 + Render.AreaPlots(c0, 0, 0)
                                 + [Host.Fill(0, 0, CursorSize - 1, CursorSize - 1, colours.blue)];
            break;
          }
          k := k + 1;
        }
        if gState.mode == RenderMode {
          assert k == Arith.Min(DefaultSpeed, Total(g) - i0);
          assert gState == s0.WithProgress(BlockAt(g, i0 + k));
          assert screen.log == log0 + Render.AreasLog(c0, Run(g, i0, k));
        }
      }
    }
  }
}
