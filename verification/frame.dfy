/** The frame composer, the layout half of `combain_chunk`: the rendered
    chunk cells are copied side by side into one canvas `n * width_chunk`
    wide and `screen.1` high. Pixels stay abstract: a painted slot records
    where the cell of which chunk was copied. */
module Compose {

  import opened Types
  import opened Arith

  /** One cell-sized slot of the canvas: untouched, or holding the rendered
      cell of `chunk` copied with its top-left corner at `(x, y)`. */
  datatype Cell = Blank | Painted(x: nat, y: nat, chunk: Chunk)

  /** A composed still image. */
  datatype Still = Still(width: nat, height: nat, cells: seq<Cell>)

  /** The canvas width `len * width_chunk` is a `u32` product: it must not
      overflow once the count itself fits in a `u32`. */
  predicate Fits(len: nat, widthChunk: nat) {
    len >= U32_LIMIT || Mul(len, widthChunk) < U32_LIMIT
  }

  /** Every chunk of `part` renders. */
  predicate Drawable(part: seq<Chunk>, draw: Chunk -> bool)
    decreases |part|
  {
    part == [] || (draw(part[|part| - 1]) && Drawable(part[..|part| - 1], draw))
  }

  lemma {:induction false} DrawableAll(part: seq<Chunk>, draw: Chunk -> bool)
    ensures Drawable(part, draw) <==> forall j :: 0 <= j < |part| ==> draw(part[j])
    decreases |part|
  {
    if part != [] {
      var init := part[..|part| - 1];
      DrawableAll(init, draw);
      assert forall j :: 0 <= j < |init| ==> init[j] == part[j];
    }
  }

  /** What composing `part` yields; `draw` tells whether rendering a chunk
      (`draw_data`) succeeds. */
  function Frame(part: seq<Chunk>, widthChunk: U32, height: U32, draw: Chunk -> bool): Result<Still>
    requires Fits(|part|, widthChunk)
  {
    if |part| == 0 then Err(EmptyChunk)
    else if |part| >= U32_LIMIT then Err(TryFrom)
    else if !Drawable(part, draw) then Err(Image)
    else
      Ok(Still(Mul(|part|, widthChunk), height,
               seq(|part|, i requires 0 <= i < |part| => Painted(Mul(i, widthChunk), 0, part[i]))))
  }

  /** The canvas is allocated blank and each rendered cell is copied into it
      in index order; the first rendering failure aborts. */
  method ComposeFrame(part: seq<Chunk>, widthChunk: U32, height: U32, draw: Chunk -> bool)
    returns (r: Result<Still>)
    requires Fits(|part|, widthChunk)
    ensures r == Frame(part, widthChunk, height, draw)
  {
    if |part| == 0 {
      return Err(EmptyChunk);
    }
    if |part| >= U32_LIMIT {
      return Err(TryFrom);
    }
    var len := |part|;
    var target := new Cell[len](_ => Blank);
    for i := 0 to len
      invariant forall j :: 0 <= j < i ==> draw(part[j])
      invariant forall j :: 0 <= j < i ==> target[j] == Painted(Mul(j, widthChunk), 0, part[j])
    {
      if !draw(part[i]) {
        DrawableAll(part, draw);
        return Err(Image);
      }
      target[i] := Painted(Mul(i, widthChunk), 0, part[i]);
    }
    assert target[..] == seq(len, i requires 0 <= i < len => Painted(Mul(i, widthChunk), 0, part[i]));
    DrawableAll(part, draw);
    return Ok(Still(Mul(len, widthChunk), height, target[..]));
  }

  /** Composing fails on an empty part and on a count beyond `u32`, and
      otherwise exactly when some chunk does not render. */
  lemma FrameOk(part: seq<Chunk>, widthChunk: U32, height: U32, draw: Chunk -> bool)
    requires Fits(|part|, widthChunk)
    ensures var r := Frame(part, widthChunk, height, draw);
      && (|part| == 0 ==> r == Err(EmptyChunk))
      && (r.Ok? <==> 0 < |part| < U32_LIMIT && forall j :: 0 <= j < |part| ==> draw(part[j]))
  {
    DrawableAll(part, draw);
  }

  /** Column `x` lies inside the slot `c`. */
  predicate Covers(c: Cell, widthChunk: nat, x: int) {
    c.Painted? && c.x <= x < c.x + widthChunk
  }

  lemma ColumnSlot(x: nat, w: nat, n: nat)
    requires w > 0 && x < n * w
    ensures x / w < n && (x / w) * w <= x < (x / w) * w + w
  {
    var q := x / w;
    assert x == q * w + x % w;
    if q >= n {
      MulMonotone(n, q, w);
      assert false;
    }
  }

  /** A composed still is `n * width_chunk` by `screen.1`; chunk `i` sits at
      `(i * width_chunk, 0)` and fits inside the canvas, and the slots are in
      index order and pairwise disjoint. */
  lemma FrameTiles(part: seq<Chunk>, widthChunk: U32, height: U32, draw: Chunk -> bool)
    requires Fits(|part|, widthChunk)
    requires Frame(part, widthChunk, height, draw).Ok?
    ensures var s := Frame(part, widthChunk, height, draw).value;
      && s.width == |part| * widthChunk && s.height == height && |s.cells| == |part|
      && (forall i :: 0 <= i < |s.cells| ==>
            && s.cells[i].Painted? && s.cells[i].chunk == part[i]
            && s.cells[i].x == i * widthChunk && s.cells[i].y == 0
            && s.cells[i].x + widthChunk <= s.width)
      && (forall i, j :: 0 <= i < j < |s.cells| ==> s.cells[i].x + widthChunk <= s.cells[j].x)
  {
    var s := Frame(part, widthChunk, height, draw).value;
    var n := |part|;
    MulIs(n, widthChunk);
    forall i | 0 <= i < n ensures s.cells[i].x == i * widthChunk && s.cells[i].x + widthChunk <= s.width {
      MulIs(i, widthChunk);
      MulStep(i, n, widthChunk);
    }
    forall i, j | 0 <= i < j < n ensures s.cells[i].x + widthChunk <= s.cells[j].x {
      MulIs(i, widthChunk);
      MulIs(j, widthChunk);
      MulStep(i, j, widthChunk);
    }
  }

  /** Every column `x` of a composed still is covered, by the slot
      `x / width_chunk`. */
  lemma FrameCovers(part: seq<Chunk>, widthChunk: U32, height: U32, draw: Chunk -> bool)
    requires widthChunk > 0 && Fits(|part|, widthChunk)
    requires Frame(part, widthChunk, height, draw).Ok?
    ensures var s := Frame(part, widthChunk, height, draw).value;
      forall x :: 0 <= x < s.width ==> x / widthChunk < |s.cells| && Covers(s.cells[x / widthChunk], widthChunk, x)
  {
    var s := Frame(part, widthChunk, height, draw).value;
    MulIs(|part|, widthChunk);
    forall x | 0 <= x < s.width
      ensures x / widthChunk < |s.cells| && Covers(s.cells[x / widthChunk], widthChunk, x)
    {
      ColumnSlot(x, widthChunk, |part|);
      MulIs(x / widthChunk, widthChunk);
    }
  }
}
