/**
 * The block grid that the progressive renderer walks. The render area is
 * w x h pixels; a block is cw x ch pixels (the cursor's size). The renderer
 * steps from block to block as `gui_mandelbrot_draw` does: right by one
 * block, or back to x = 0 and down by one block at the right edge. Numbering
 * the blocks it reaches from (0, 0) gives BlockAt; this module proves that
 * the numbering is the row-major order of the block origins inside the area,
 * that each is reached once, and when the walk leaves the area.
 */
module Blocks {
  import Arith

  /** A pixel offset relative to the render area's top-left corner. */
  datatype Pos = Pos(x: int, y: int)

  /** render_w, render_h and the block size cursor_w, cursor_h. */
  datatype Grid = Grid(w: int, h: int, cw: int, ch: int)
  {
    predicate Valid()
    {
      w > 0 && h > 0 && cw > 0 && ch > 0
    }
  }

  /** Blocks per row: the last one may overhang the right edge. */
  function Cols(g: Grid): int
    requires g.Valid()
  {
    Arith.CeilDiv(g.w, g.cw)
  }

  function Rows(g: Grid): int
    requires g.Valid()
  {
    Arith.CeilDiv(g.h, g.ch)
  }

  /** Blocks in a whole image, ceil(w/cw) * ceil(h/ch). */
  function Total(g: Grid): int
    requires g.Valid()
  {
    Cols(g) * Rows(g)
  }

  /** p is a block origin inside the render area. */
  predicate OnGrid(g: Grid, p: Pos)
    requires g.Valid()
  {
    0 <= p.x < g.w && p.x % g.cw == 0 && 0 <= p.y < g.h && p.y % g.ch == 0
  }

  /** Row-major number of the block at p. */
  function Index(g: Grid, p: Pos): int
    requires g.Valid()
  {
    (p.y / g.ch) * Cols(g) + p.x / g.cw
  }

  /** The renderer's move from the block at p: one block to the right, or, when
      that reaches the right edge, back to x = 0 and one block down. */
  function Advance(g: Grid, p: Pos): Pos
  {
    if p.x + g.cw < g.w then Pos(p.x + g.cw, p.y) else Pos(0, p.y + g.ch)
  }

  /** The block the renderer reaches after i moves from (0, 0). */
  function BlockAt(g: Grid, i: nat): Pos
  {
    if i == 0 then Pos(0, 0) else Advance(g, BlockAt(g, i - 1))
  }

  /** The n blocks numbered i, i+1, ..., i+n-1, in that order. */
  function Run(g: Grid, i: nat, n: nat): seq<Pos>
    decreases n
  {
    if n == 0 then [] else [BlockAt(g, i)] + Run(g, i + 1, n - 1)
  }

  /** p comes before q in row-major order. */
  predicate Before(p: Pos, q: Pos)
  {
    p.y < q.y || (p.y == q.y && p.x < q.x)
  }

  /** Closed form of the walk: block i sits in column a and row b of the grid,
      with i = b * Cols + a. */
  lemma {:induction false} CellOf(g: Grid, i: nat) returns (a: int, b: int)
    requires g.Valid() && i < Total(g)
    ensures 0 <= a < Cols(g) && 0 <= b < Rows(g) && i == b * Cols(g) + a
    ensures BlockAt(g, i) == Pos(a * g.cw, b * g.ch)
  {
    var c := Cols(g);
    if i == 0 {
      a, b := 0, 0;
    } else {
      var a', b' := CellOf(g, i - 1);
      assert (a' + 1) * g.cw == a' * g.cw + g.cw;
      Arith.BelowCeil(a' + 1, g.w, g.cw);
      if a' + 1 < c {
        a, b := a' + 1, b';
      } else {
        assert i == (b' + 1) * c;
        if b' + 1 >= Rows(g) {
          Arith.MulLe(Rows(g), b' + 1, c);
        }
        assert (b' + 1) * g.ch == b' * g.ch + g.ch;
        a, b := 0, b' + 1;
      }
    }
  }

  /** The column and row of a block are determined by its number. */
  lemma CellUnique(g: Grid, a: int, b: int, a': int, b': int)
    requires g.Valid() && 0 <= a < Cols(g) && 0 <= a' < Cols(g)
    requires b * Cols(g) + a == b' * Cols(g) + a'
    ensures a == a' && b == b'
  {
    Arith.DivModUnique(b * Cols(g) + a, Cols(g), b, a);
    Arith.DivModUnique(b' * Cols(g) + a', Cols(g), b', a');
  }

  /** Every block number within the image names a block origin inside the area, and
      numbering that origin gives the number back. */
  lemma IndexOfBlock(g: Grid, i: nat)
    requires g.Valid() && i < Total(g)
    ensures OnGrid(g, BlockAt(g, i)) && Index(g, BlockAt(g, i)) == i
  {
    var a, b := CellOf(g, i);
    Arith.BelowCeil(a, g.w, g.cw);
    Arith.BelowCeil(b, g.h, g.ch);
    Arith.DivModUnique(a * g.cw, g.cw, a, 0);
    Arith.DivModUnique(b * g.ch, g.ch, b, 0);
  }

  /** Every block origin inside the area has a number within the image, and that
      number leads back to it: OnGrid and BlockAt are in one-to-one correspondence. */
  lemma BlockOfIndex(g: Grid, p: Pos)
    requires g.Valid() && OnGrid(g, p)
    ensures 0 <= Index(g, p) < Total(g) && BlockAt(g, Index(g, p)) == p
  {
    var c := Cols(g);
    var a, b := p.x / g.cw, p.y / g.ch;
    assert p.x == a * g.cw && p.y == b * g.ch;
    assert a >= 0 by {
      if a < 0 { Arith.MulLe(a, -1, g.cw); }
    }
    assert b >= 0 by {
      if b < 0 { Arith.MulLe(b, -1, g.ch); }
    }
    Arith.BelowCeil(a, g.w, g.cw);
    Arith.BelowCeil(b, g.h, g.ch);
    Arith.MulLe(b, Rows(g) - 1, c);
    assert (Rows(g) - 1) * c == Total(g) - c;
    Arith.MulLe(0, b, c);
    var a', b' := CellOf(g, b * c + a);
    CellUnique(g, a, b, a', b');
  }

  /**
   * One move of the renderer from block i lands on block i + 1. The move passes the
   * bottom edge exactly when block i is the last one, and then it stops at the
   * first multiple of ch at or past that edge.
   */
  lemma NextBlock(g: Grid, i: nat)
    requires g.Valid() && i < Total(g)
    ensures Advance(g, BlockAt(g, i)) == BlockAt(g, i + 1)
    ensures var p := BlockAt(g, i);
      (p.x + g.cw >= g.w && p.y + g.ch >= g.h) <==> i + 1 == Total(g)
    ensures i + 1 == Total(g) ==> BlockAt(g, i + 1) == Pos(0, Rows(g) * g.ch)
  {
    var a, b := CellOf(g, i);
    var c := Cols(g);
    assert (a + 1) * g.cw == a * g.cw + g.cw;
    assert (b + 1) * g.ch == b * g.ch + g.ch;
    Arith.BelowCeil(a + 1, g.w, g.cw);
    Arith.BelowCeil(b + 1, g.h, g.ch);
    if a + 1 < c {
      Arith.MulLe(b + 1, Rows(g), c);
    } else {
      assert i + 1 == (b + 1) * c;
      if b + 1 < Rows(g) {
        Arith.MulLt(b + 1, Rows(g), c);
      }
    }
  }

  lemma {:induction false} RunLength(g: Grid, i: nat, n: nat)
    ensures |Run(g, i, n)| == n
    decreases n
  {
    if n > 0 {
      RunLength(g, i + 1, n - 1);
    }
  }

  lemma {:induction false} RunAt(g: Grid, i: nat, n: nat, k: nat)
    requires k < n
    ensures |Run(g, i, n)| == n && Run(g, i, n)[k] == BlockAt(g, i + k)
    decreases n
  {
    RunLength(g, i, n);
    if k > 0 {
      RunAt(g, i + 1, n - 1, k - 1);
    }
  }

  /** Rendering one more block appends it at the end of the run. */
  lemma {:induction false} RunSnoc(g: Grid, i: nat, n: nat)
    ensures Run(g, i, n + 1) == Run(g, i, n) + [BlockAt(g, i + n)]
    decreases n
  {
    if n > 0 {
      RunSnoc(g, i + 1, n - 1);
    }
  }

  /** Lower numbers are rendered strictly earlier in row-major order. */
  lemma RowMajor(g: Grid, i: nat, j: nat)
    requires g.Valid() && i < j < Total(g)
    ensures Before(BlockAt(g, i), BlockAt(g, j))
  {
    var c := Cols(g);
    var ai, bi := CellOf(g, i);
    var aj, bj := CellOf(g, j);
    if bj < bi {
      Arith.MulLe(bj + 1, bi, c);
    } else if bi < bj {
      Arith.MulLt(bi, bj, g.ch);
    } else {
      Arith.MulLt(ai, aj, g.cw);
    }
  }

  lemma InRun(g: Grid, p: Pos)
    requires g.Valid() && OnGrid(g, p)
    ensures p in Run(g, 0, Total(g))
  {
    BlockOfIndex(g, p);
    RunAt(g, 0, Total(g), Index(g, p));
  }

  lemma RunMemberOnGrid(g: Grid, k: nat)
    requires g.Valid() && k < Total(g)
    ensures k < |Run(g, 0, Total(g))| && OnGrid(g, Run(g, 0, Total(g))[k])
  {
    RunAt(g, 0, Total(g), k);
    IndexOfBlock(g, k);
  }

  lemma RunOrdered(g: Grid, k: nat, k': nat)
    requires g.Valid() && k < k' < Total(g)
    ensures |Run(g, 0, Total(g))| == Total(g)
    ensures Before(Run(g, 0, Total(g))[k], Run(g, 0, Total(g))[k'])
  {
    RunAt(g, 0, Total(g), k);
    RunAt(g, 0, Total(g), k');
    RowMajor(g, k, k');
  }

  /** A whole render from (0, 0) visits every block origin of the area once, in
      row-major order, and nothing else. */
  lemma FullRun(g: Grid)
    requires g.Valid()
    ensures |Run(g, 0, Total(g))| == Total(g) && Total(g) >= 1
    ensures Run(g, 0, Total(g))[0] == Pos(0, 0)
    ensures forall p :: OnGrid(g, p) <==> p in Run(g, 0, Total(g))
    ensures forall k, k' :: 0 <= k < k' < Total(g) ==>
      Before(Run(g, 0, Total(g))[k], Run(g, 0, Total(g))[k'])
  {
    var t := Total(g);
    var run := Run(g, 0, t);
    Arith.MulLe(1, Rows(g), Cols(g));
    RunAt(g, 0, t, 0);
    forall p | OnGrid(g, p)
      ensures p in run
    {
      InRun(g, p);
    }
    forall p | p in run
      ensures OnGrid(g, p)
    {
      var k :| 0 <= k < |run| && run[k] == p;
      RunMemberOnGrid(g, k);
    }
    forall k, k' | 0 <= k < k' < t
      ensures Before(run[k], run[k'])
    {
      RunOrdered(g, k, k');
    }
  }
}
