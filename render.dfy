/**
 * What `draw_mandel_pixel` and `draw_mandel_area` send to the display: the
 * mapping from a pixel offset to a point of the complex plane, the pixel's
 * colour, and the order in which the pixels of a block are plotted.
 */
module Render {
  import Kernel
  import Palette
  import Host
  import opened Blocks

  /** Everything the pixel renderer reads from the explorer's state: the view's
      origin and per-pixel steps, the iteration budget, the palette, the in-set
      colour, the render area's top-left corner and the block size. */
  datatype Canvas = Canvas(xstart: real, ystart: real, xstep: real, ystep: real,
                           maxIterations: int, palette: seq<int>, black: int,
                           left: int, top: int, blockW: nat, blockH: nat)
  {
    predicate WellFormed()
    {
      |palette| == Palette.Size
    }
  }

  /** The point of the complex plane under pixel offset (sx, sy). */
  function PointAt(c: Canvas, sx: int, sy: int): Kernel.Point
  {
    Kernel.Point(c.xstart + sx as real * c.xstep, c.ystart + sy as real * c.ystep)
  }

  /** In-set pixels are black; escaped ones take the palette entry of their count. */
  function ColourAt(c: Canvas, sx: int, sy: int): int
    requires c.WellFormed()
  {
    match Kernel.Classify(PointAt(c, sx, sy), c.maxIterations)
    case InSet => c.black
    case Escaped(n) => c.palette[Palette.Index(n)]
  }

  /** The drawing call for pixel offset (sx, sy), at absolute screen coordinates. */
  function PlotAt(c: Canvas, sx: int, sy: int): Host.DrawOp
    requires c.WellFormed()
  {
    Host.Plot(c.left + sx, c.top + sy, ColourAt(c, sx, sy))
  }

  /** The first n pixels of the row at offset y that starts at offset x. */
  function RowPlots(c: Canvas, x: int, y: int, n: nat): seq<Host.DrawOp>
    requires c.WellFormed()
  {
    if n == 0 then [] else RowPlots(c, x, y, n - 1) + [PlotAt(c, x + n - 1, y)]
  }

  /** The first m full rows of the block whose top-left offset is (x, y). */
  function AreaRows(c: Canvas, x: int, y: int, m: nat): seq<Host.DrawOp>
    requires c.WellFormed()
  {
    if m == 0 then [] else AreaRows(c, x, y, m - 1) + RowPlots(c, x, y + m - 1, c.blockW)
  }

  /** All pixels of the block at (x, y), as `draw_mandel_area` plots them. */
  function AreaPlots(c: Canvas, x: int, y: int): seq<Host.DrawOp>
    requires c.WellFormed()
  {
    AreaRows(c, x, y, c.blockH)
  }

  /** The pixels of a sequence of blocks, block after block. */
  function AreasLog(c: Canvas, blocks: seq<Pos>): seq<Host.DrawOp>
    requires c.WellFormed()
  {
    if blocks == [] then []
    else AreasLog(c, blocks[..|blocks| - 1]) + AreaPlots(c, blocks[|blocks| - 1].x, blocks[|blocks| - 1].y)
  }

  /** Rendering one more block appends its pixels to the log. */
  lemma AreasLogSnoc(c: Canvas, blocks: seq<Pos>, b: Pos)
    requires c.WellFormed()
    ensures AreasLog(c, blocks + [b]) == AreasLog(c, blocks) + AreaPlots(c, b.x, b.y)
  {
    assert (blocks + [b])[..|blocks|] == blocks;
  }

  /** Regrouping a log that grows by one block at a time: an instance the progressive
      renderer's loop uses to keep its proof small. */
  lemma AppendAssoc(a: seq<Host.DrawOp>, b: seq<Host.DrawOp>, d: seq<Host.DrawOp>)
    ensures a + b + d == a + (b + d)
  {
  }

  lemma {:induction false} RowPlotAt(c: Canvas, x: int, y: int, n: nat, i: nat)
    requires c.WellFormed() && i < n
    ensures |RowPlots(c, x, y, n)| == n && RowPlots(c, x, y, n)[i] == PlotAt(c, x + i, y)
  {
    RowPlotsLength(c, x, y, n - 1);
    if i < n - 1 {
      RowPlotAt(c, x, y, n - 1, i);
    }
  }

  lemma {:induction false} RowPlotsLength(c: Canvas, x: int, y: int, n: nat)
    requires c.WellFormed()
    ensures |RowPlots(c, x, y, n)| == n
  {
    if n > 0 {
      RowPlotsLength(c, x, y, n - 1);
    }
  }

  lemma {:induction false} AreaRowAt(c: Canvas, x: int, y: int, m: nat, i: nat, j: nat)
    requires c.WellFormed() && i < c.blockW && j < m
    ensures |AreaRows(c, x, y, m)| == m * c.blockW
    ensures j * c.blockW + i < m * c.blockW
    ensures AreaRows(c, x, y, m)[j * c.blockW + i] == PlotAt(c, x + i, y + j)
  {
    var w := c.blockW;
    AreaRowsLength(c, x, y, m - 1);
    RowPlotsLength(c, x, y + m - 1, w);
    assert m * w == (m - 1) * w + w;
    if j < m - 1 {
      AreaRowAt(c, x, y, m - 1, i, j);
    } else {
      RowPlotAt(c, x, y + m - 1, w, i);
    }
  }

  lemma {:induction false} AreaRowsLength(c: Canvas, x: int, y: int, m: nat)
    requires c.WellFormed()
    ensures |AreaRows(c, x, y, m)| == m * c.blockW
  {
    if m > 0 {
      AreaRowsLength(c, x, y, m - 1);
      RowPlotsLength(c, x, y + m - 1, c.blockW);
      assert m * c.blockW == (m - 1) * c.blockW + c.blockW;
    }
  }

  /** A block is blockW * blockH plots, row after row: the plot at position
      j * blockW + i is pixel (x + i, y + j) of the block. */
  lemma AreaPlotAt(c: Canvas, x: int, y: int, i: nat, j: nat)
    requires c.WellFormed() && i < c.blockW && j < c.blockH
    ensures |AreaPlots(c, x, y)| == c.blockW * c.blockH
    ensures j * c.blockW + i < |AreaPlots(c, x, y)|
    ensures AreaPlots(c, x, y)[j * c.blockW + i] == PlotAt(c, x + i, y + j)
  {
    AreaRowAt(c, x, y, c.blockH, i, j);
  }

  /** The mapping from pixel offsets to the plane is invertible while the steps are
      non-zero: mapping back recovers the offset. */
  lemma MapperRoundTrip(c: Canvas, sx: int, sy: int)
    requires c.xstep != 0.0 && c.ystep != 0.0
    ensures (PointAt(c, sx, sy).re - c.xstart) / c.xstep == sx as real
    ensures (PointAt(c, sx, sy).im - c.ystart) / c.ystep == sy as real
  {
  }
}
