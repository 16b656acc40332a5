/**
 * Raster primitives on the 320x200 byte framebuffer: single pixels,
 * rectangle grabs and pastes, filled bars, Bresenham lines, and the range
 * guards of the palette routines.
 */
module Screen {
  import opened Common

  // ---------------------------------------------------------------------
  // Pixels and rectangles

  /**
   * WritePixel: the byte at y*320 + x becomes color and no other byte
   * changes. The source only needs that offset to lie in the buffer.
   */
  method WritePixel(fb: array<Byte>, x: int, y: int, color: Byte)
    requires 0 <= Offset(x, y) < fb.Length
    modifies fb
    ensures fb[..] == old(fb[..])[Offset(x, y) := color]
  {
    fb[(y * 320) + x] := color;
  }

  /**
   * The rectangle (x1,y1)-(x2,y2), corners included, lies on the screen.
   * A rectangle with no columns (x2 == x1 - 1) or no rows is allowed.
   */
  predicate Fits(x1: int, y1: int, x2: int, y2: int)
  {
    0 <= x1 <= x2 + 1 <= SCREEN_WIDTH && 0 <= y1 <= y2 + 1 <= SCREEN_HEIGHT
  }

  /** BufSize: the bytes needed to hold the image of a rectangle. */
  function BufSize(x1: int, y1: int, x2: int, y2: int): int
  {
    ((x2 - x1) + 1) * ((y2 - y1) + 1)
  }

  /** Where column c of row r of an image xdim bytes wide is kept. */
  function Cell(r: int, c: int, xdim: int): int
  {
    r * xdim + c
  }

  /** The row of the image a buffer index belongs to. */
  function Row(k: int, xdim: int): int
  {
    if xdim > 0 then k / xdim else 0
  }

  /** The column of the image a buffer index belongs to. */
  function Col(k: int, xdim: int): int
  {
    if xdim > 0 then k % xdim else k
  }

  /**
   * The cells of an image tile its buffer: every cell of the rectangle has
   * its own place below BufSize, and every place below BufSize is a cell.
   * So GetImage writes exactly BufSize bytes.
   */
  lemma BufSizeTiles(x1: int, y1: int, x2: int, y2: int)
    requires Fits(x1, y1, x2, y2)
    ensures var xdim, ydim := x2 - x1 + 1, y2 - y1 + 1;
      (forall r, c :: 0 <= r < ydim && 0 <= c < xdim ==>
        (0 <= Cell(r, c, xdim) < BufSize(x1, y1, x2, y2) &&
         Row(Cell(r, c, xdim), xdim) == r && Col(Cell(r, c, xdim), xdim) == c)) &&
      (forall k :: 0 <= k < BufSize(x1, y1, x2, y2) ==>
        (0 <= Row(k, xdim) < ydim && 0 <= Col(k, xdim) < xdim &&
         Cell(Row(k, xdim), Col(k, xdim), xdim) == k))
  {
    var xdim, ydim := x2 - x1 + 1, y2 - y1 + 1;
    assert BufSize(x1, y1, x2, y2) == ydim * xdim;
    forall r, c | 0 <= r < ydim && 0 <= c < xdim
      ensures 0 <= Cell(r, c, xdim) < BufSize(x1, y1, x2, y2)
      ensures Row(Cell(r, c, xdim), xdim) == r && Col(Cell(r, c, xdim), xdim) == c
    {
      CellInRows(r, c, ydim, xdim);
      CellRowCol(r, c, xdim);
    }
    forall k | 0 <= k < BufSize(x1, y1, x2, y2)
      ensures 0 <= Row(k, xdim) < ydim && 0 <= Col(k, xdim) < xdim
      ensures Cell(Row(k, xdim), Col(k, xdim), xdim) == k
    {
      RowColCell(k, xdim, ydim);
    }
  }

  /** A cell of one of the first `rows` rows lies below rows * xdim. */
  lemma CellInRows(r: int, c: int, rows: int, xdim: int)
    requires 0 <= r < rows && 0 <= c < xdim
    ensures r * xdim <= Cell(r, c, xdim) < rows * xdim
  {
    MulMonotone(0, r, xdim);
    MulMonotone(r + 1, rows, xdim);
    MulSucc(r, xdim);
  }

  /** Row and Col recover the row and column of a cell. */
  lemma CellRowCol(r: int, c: int, xdim: int)
    requires 0 <= r && 0 <= c < xdim
    ensures Row(Cell(r, c, xdim), xdim) == r && Col(Cell(r, c, xdim), xdim) == c
  {
    MulMonotone(0, r, xdim);
    MulSucc(r, xdim);
    DivBetween(r * xdim + c, xdim, r);
  }

  /** Every index below rows * xdim is the cell of its row and column. */
  lemma RowColCell(k: int, xdim: int, rows: int)
    requires 0 <= k < rows * xdim && 0 <= rows
    ensures 0 <= Row(k, xdim) < rows && 0 <= Col(k, xdim) < xdim
    ensures Cell(Row(k, xdim), Col(k, xdim), xdim) == k
  {
    if xdim <= 0 {
      MulMonotone(xdim, 0, rows);
      assert false;
    }
    var r := k / xdim;
    if r >= rows {
      MulMonotone(rows, r, xdim);
      assert false;
    }
  }

  /** img holds the rectangle's pixels of fb, row by row, xdim bytes a row. */
  ghost predicate ImageOf(img: seq<Byte>, fb: seq<Byte>, x1: int, y1: int, x2: int, y2: int)
    requires Fits(x1, y1, x2, y2) && |fb| == SCREEN_SIZE
  {
    RowsCopied(img, fb, x1, y1, x2 - x1 + 1, y2 - y1 + 1)
  }

  /** The first `rows` rows of the xdim-wide rectangle at (x1, y1) of fb are in img. */
  ghost predicate RowsCopied(img: seq<Byte>, fb: seq<Byte>, x1: int, y1: int, xdim: int, rows: int)
  {
    forall r, c :: 0 <= r < rows && 0 <= c < xdim ==>
      0 <= Cell(r, c, xdim) < |img| && 0 <= At(x1, y1, r, c) < |fb| &&
      img[Cell(r, c, xdim)] == fb[At(x1, y1, r, c)]
  }

  /**
   * after is before with the rectangle's pixels taken from img, row by
   * row, and every pixel outside the rectangle as it was.
   */
  ghost predicate PastedOver(after: seq<Byte>, before: seq<Byte>, img: seq<Byte>,
                             x1: int, y1: int, x2: int, y2: int)
    requires Fits(x1, y1, x2, y2) && |after| == |before| == SCREEN_SIZE
  {
    var xdim := x2 - x1 + 1;
    (forall r, c :: 0 <= r <= y2 - y1 && 0 <= c < xdim ==>
      0 <= Cell(r, c, xdim) < |img| && after[At(x1, y1, r, c)] == img[Cell(r, c, xdim)]) &&
    (forall k :: 0 <= k < SCREEN_SIZE && !InRect(k, x1, y1, x2, y2) ==> after[k] == before[k])
  }

  /** d with the n bytes from `to` on replaced by the n bytes of s from `from` on. */
  function Copied(d: seq<Byte>, to: int, s: seq<Byte>, from: int, n: int): (r: seq<Byte>)
    requires 0 <= n && 0 <= to && to + n <= |d| && 0 <= from && from + n <= |s|
    ensures |r| == |d|
  {
    seq(|d|, k requires 0 <= k < |d| => if to <= k < to + n then s[from + (k - to)] else d[k])
  }

  /** memcpy: n bytes from src[from..] to dest[to..]; nothing else in dest changes. */
  method MemCopy(dest: array<Byte>, to: int, src: array<Byte>, from: int, n: int)
    requires 0 <= n && 0 <= to && to + n <= dest.Length
    requires 0 <= from && from + n <= src.Length && dest != src
    modifies dest
    ensures forall k :: 0 <= k < dest.Length ==>
      dest[k] == if to <= k < to + n then src[from + (k - to)] else old(dest[k])
    ensures dest[..] == Copied(old(dest[..]), to, src[..], from, n)
  {
    var t := 0;
    while t < n
      invariant 0 <= t <= n
      invariant forall k :: 0 <= k < dest.Length ==>
        dest[k] == if to <= k < to + t then src[from + (k - to)] else old(dest[k])
    {
      dest[to + t] := src[from + t];
      t := t + 1;
    }
    assert dest[..] == Copied(old(dest[..]), to, src[..], from, n);
  }

  /** memset: n bytes of dest from `to` on become b; nothing else changes. */
  method MemSet(dest: array<Byte>, to: int, b: Byte, n: int)
    requires 0 <= n && 0 <= to && to + n <= dest.Length
    modifies dest
    ensures forall k :: 0 <= k < dest.Length ==>
      dest[k] == if to <= k < to + n then b else old(dest[k])
  {
    var t := 0;
    while t < n
      invariant 0 <= t <= n
      invariant forall k :: 0 <= k < dest.Length ==>
        dest[k] == if to <= k < to + t then b else old(dest[k])
    {
      dest[to + t] := b;
      t := t + 1;
    }
  }

  /** The bytes from row y's column x1 to its column x2 are that row's part of the rectangle. */
  lemma RowSpan(k: int, x1: int, x2: int, y: int)
    requires 0 <= x1 && x2 < SCREEN_WIDTH
    ensures Offset(x1, y) <= k <= Offset(x2, y) <==> k / 320 == y && x1 <= k % 320 <= x2
  {
    var q, m := k / 320, k % 320;
    assert k == q * 320 + m && 0 <= m < SCREEN_WIDTH;
  }

  /**
   * GetImage: copies the rectangle of src into dest row by row; dest
   * receives the image in its first BufSize bytes and nothing beyond.
   */
  method GetImage(x1: int, y1: int, x2: int, y2: int, dest: array<Byte>, src: array<Byte>)
    requires Fits(x1, y1, x2, y2) && src.Length == SCREEN_SIZE
    requires dest.Length >= BufSize(x1, y1, x2, y2) && dest != src
    modifies dest
    ensures ImageOf(dest[..], src[..], x1, y1, x2, y2)
    ensures forall k :: 0 <= k < dest.Length && k >= BufSize(x1, y1, x2, y2) ==> dest[k] == old(dest[k])
  {
    var ydim := (y2 - y1) + 1;
    var xdim := (x2 - x1) + 1;
    ghost var orig := dest[..];
    assert BufSize(x1, y1, x2, y2) == ydim * xdim;
    var i := 0;
    while i < ydim
      invariant 0 <= i <= ydim && 0 <= i * xdim <= ydim * xdim <= dest.Length
      invariant RowsCopied(dest[..], src[..], x1, y1, xdim, i)
      invariant TailKept(dest[..], orig, i * xdim)
    {
      MulMonotone(i + 1, ydim, xdim);
      MulSucc(i, xdim);
      var to := i * xdim;
      var from := (y1 + i) * 320 + x1;
      assert to + xdim <= dest.Length;
      RowOnScreen(y1 + i, x1, xdim);
      ghost var before := dest[..];
      MemCopy(dest, to, src, from, xdim);
      RowStep(before, dest[..], src[..], x1, y1, xdim, i);
      TailStep(before, dest[..], orig, to, src[..], from, xdim);
      i := i + 1;
    }
    assert i * xdim == BufSize(x1, y1, x2, y2);
  }

  /** A run of n bytes from column x of row y stays inside the framebuffer. */
  lemma RowOnScreen(y: int, x: int, n: int)
    requires 0 <= y < SCREEN_HEIGHT && 0 <= x && 0 <= n && x + n <= SCREEN_WIDTH
    ensures 0 <= y * 320 + x && y * 320 + x + n <= SCREEN_SIZE
  {
    MulMonotone(y, SCREEN_HEIGHT - 1, 320);
  }

  /** From index `from` on, now holds what orig held. */
  ghost predicate TailKept(now: seq<Byte>, orig: seq<Byte>, from: int)
  {
    |now| == |orig| && forall k :: 0 <= from <= k < |now| ==> now[k] == orig[k]
  }

  /** Copying n bytes to index `to` keeps everything from to + n on. */
  lemma TailStep(before: seq<Byte>, after: seq<Byte>, orig: seq<Byte>, to: int,
                 s: seq<Byte>, from: int, n: int)
    requires 0 <= n && 0 <= to && to + n <= |before| && 0 <= from && from + n <= |s|
    requires TailKept(before, orig, to)
    requires after == Copied(before, to, s, from, n)
    ensures TailKept(after, orig, to + n)
  {
  }

  /** Copying row i of the rectangle into place i * xdim extends the copied rows by one. */
  lemma RowStep(before: seq<Byte>, after: seq<Byte>, fb: seq<Byte>, x1: int, y1: int, xdim: int, i: int)
    requires 0 <= i && 0 <= xdim && 0 <= x1 && x1 + xdim <= SCREEN_WIDTH && 0 <= y1 + i < SCREEN_HEIGHT
    requires |fb| == SCREEN_SIZE && (i + 1) * xdim <= |before|
    requires RowsCopied(before, fb, x1, y1, xdim, i)
    requires after == Copied(before, i * xdim, fb, (y1 + i) * 320 + x1, xdim)
    ensures RowsCopied(after, fb, x1, y1, xdim, i + 1)
  {
    MulSucc(i, xdim);
    MulMonotone(0, i, xdim);
    forall r, c | 0 <= r < i + 1 && 0 <= c < xdim
      ensures 0 <= Cell(r, c, xdim) < |after| && 0 <= At(x1, y1, r, c) < |fb|
      ensures after[Cell(r, c, xdim)] == fb[At(x1, y1, r, c)]
    {
      CellInRows(r, c, i + 1, xdim);
      if r < i {
        CellInRows(r, c, i, xdim);
      }
    }
  }

  /**
   * PutImage: copies an image, row by row, into the rectangle of the
   * framebuffer; no pixel outside the rectangle changes.
   */
  method PutImage(x1: int, y1: int, x2: int, y2: int, buffer: array<Byte>, fb: array<Byte>)
    requires Fits(x1, y1, x2, y2) && fb.Length == SCREEN_SIZE
    requires buffer.Length >= BufSize(x1, y1, x2, y2) && buffer != fb
    modifies fb
    ensures PastedOver(fb[..], old(fb[..]), buffer[..], x1, y1, x2, y2)
  {
    var ydim := (y2 - y1) + 1;
    var xdim := (x2 - x1) + 1;
    var i := 0;
    while i < ydim
      invariant 0 <= i <= ydim && 0 <= i * xdim <= buffer.Length
      invariant forall r, c :: 0 <= r < i && 0 <= c < xdim ==>
        0 <= Cell(r, c, xdim) < i * xdim && fb[At(x1, y1, r, c)] == buffer[Cell(r, c, xdim)]
      invariant forall k :: 0 <= k < SCREEN_SIZE && !InRect(k, x1, y1, x2, y1 + i - 1) ==>
        fb[k] == old(fb[k])
    {
      MulMonotone(i + 1, ydim, xdim);
      MulSucc(i, xdim);
      ghost var before := fb[..];
      MemCopy(fb, (y1 + i) * 320 + x1, buffer, i * xdim, xdim);
      forall k | 0 <= k < SCREEN_SIZE && !InRect(k, x1, y1, x2, y1 + i)
        ensures fb[k] == before[k]
      {
        RowSpan(k, x1, x2, y1 + i);
      }
      forall r, c | 0 <= r < i && 0 <= c < xdim
        ensures fb[At(x1, y1, r, c)] == before[At(x1, y1, r, c)]
      {
      }
      i := i + 1;
    }
  }

  /** Pasting an image just grabbed from the same rectangle changes nothing. */
  lemma PutUndoesGet(img: seq<Byte>, before: seq<Byte>, after: seq<Byte>,
                     x1: int, y1: int, x2: int, y2: int)
    requires Fits(x1, y1, x2, y2) && |before| == |after| == SCREEN_SIZE
    requires ImageOf(img, before, x1, y1, x2, y2)
    requires PastedOver(after, before, img, x1, y1, x2, y2)
    ensures after == before
  {
    forall k | 0 <= k < SCREEN_SIZE
      ensures after[k] == before[k]
    {
      if InRect(k, x1, y1, x2, y2) {
        var r, c := k / 320 - y1, k % 320 - x1;
        assert At(x1, y1, r, c) == k;
      }
    }
  }

  /** Grabbing a rectangle just pasted gives back the pasted image. */
  lemma GetUndoesPut(img: seq<Byte>, before: seq<Byte>, after: seq<Byte>, grabbed: seq<Byte>,
                     x1: int, y1: int, x2: int, y2: int)
    requires Fits(x1, y1, x2, y2) && |before| == |after| == SCREEN_SIZE
    requires |img| >= BufSize(x1, y1, x2, y2) && |grabbed| >= BufSize(x1, y1, x2, y2)
    requires PastedOver(after, before, img, x1, y1, x2, y2)
    requires ImageOf(grabbed, after, x1, y1, x2, y2)
    ensures forall k :: 0 <= k < BufSize(x1, y1, x2, y2) ==> grabbed[k] == img[k]
  {
    var xdim := x2 - x1 + 1;
    forall k | 0 <= k < BufSize(x1, y1, x2, y2)
      ensures grabbed[k] == img[k]
    {
      RowColCell(k, xdim, y2 - y1 + 1);
      var r, c := Row(k, xdim), Col(k, xdim);
      assert Cell(r, c, xdim) == k;
    }
  }

  /**
   * BarFill: rows y1..y2, columns x1..x2 become color; no other byte of
   * the buffer changes.
   */
  method BarFill(x1: int, y1: int, x2: int, y2: int, color: Byte, buffer: array<Byte>)
    requires Fits(x1, y1, x2, y2) && buffer.Length == SCREEN_SIZE
    modifies buffer
    ensures forall k :: 0 <= k < SCREEN_SIZE ==>
      buffer[k] == if InRect(k, x1, y1, x2, y2) then color else old(buffer[k])
  {
    var row := y1;
    while row <= y2
      invariant y1 <= row <= y2 + 1
      invariant forall k :: 0 <= k < SCREEN_SIZE ==>
        buffer[k] == if InRect(k, x1, y1, x2, row - 1) then color else old(buffer[k])
    {
      ghost var before := buffer[..];
      MemSet(buffer, (row * 320) + x1, color, (x2 - x1) + 1);
      forall k | 0 <= k < SCREEN_SIZE
        ensures buffer[k] == if InRect(k, x1, y1, x2, row) then color else old(buffer[k])
      {
        RowSpan(k, x1, x2, row);
      }
      row := row + 1;
    }
  }

  // ---------------------------------------------------------------------
  // Line

  /**
   * The test that moves the pen one row in the x-major case: the source
   * moves once the error term exceeds xdiff (Exceeds); the corrected
   * rule moves once it reaches xdiff (Reaches), as drawpoly's edges do.
   */
  datatype MoveTest = Exceeds | Reaches

  /** A line's end points, with the quantities Line derives from them. */
  datatype Segment = Segment(x1: int, y1: int, x2: int, y2: int)
  {
    function XDiff(): nat { Abs(x2 - x1) }
    function YDiff(): nat { Abs(y2 - y1) }
    function XUnit(): int { if x2 - x1 < 0 then -1 else 1 }
    function YUnit(): int { if y2 - y1 < 0 then -1 else 1 }
    predicate XMajor() { XDiff() > YDiff() }
    /** Pixels drawn: one more than the longer side. */
    function Length(): nat { if XMajor() then XDiff() + 1 else YDiff() + 1 }
    predicate OnScreen()
    {
      0 <= x1 < SCREEN_WIDTH && 0 <= y1 < SCREEN_HEIGHT &&
      0 <= x2 < SCREEN_WIDTH && 0 <= y2 < SCREEN_HEIGHT
    }
  }

  /** The pixel Line is at, and its error term. */
  datatype Pen = Pen(x: int, y: int, err: int)

  /** One pass of Line's loop after the pixel is drawn. */
  function LineStep(s: Segment, test: MoveTest, p: Pen): Pen
  {
    if s.XMajor() then
      var e := p.err + s.YDiff();
      if (test == Exceeds && e > s.XDiff()) || (test == Reaches && e >= s.XDiff())
      then Pen(p.x + s.XUnit(), p.y + s.YUnit(), e - s.XDiff())
      else Pen(p.x + s.XUnit(), p.y, e)
    else
      var e := p.err + s.XDiff();
      if e > 0 then Pen(p.x + s.XUnit(), p.y + s.YUnit(), e - s.YDiff())
      else Pen(p.x, p.y + s.YUnit(), e)
  }

  /** The pen after i passes, starting at (x1, y1) with error term 0. */
  function PenAt(s: Segment, test: MoveTest, i: nat): Pen
  {
    if i == 0 then Pen(s.x1, s.y1, 0) else LineStep(s, test, PenAt(s, test, i - 1))
  }

  /** The offsets Line writes, in drawing order. */
  function Trace(s: Segment, test: MoveTest): (t: seq<int>)
    ensures |t| == Max(s.XDiff(), s.YDiff()) + 1
    ensures t[0] == Offset(s.x1, s.y1)
  {
    seq(s.Length(), i requires 0 <= i < s.Length() => Offset(PenAt(s, test, i).x, PenAt(s, test, i).y))
  }

  /** base with the bytes at the offsets of d, those inside it, set to c, one after another. */
  function Painted(base: seq<Byte>, d: seq<int>, c: Byte): (r: seq<Byte>)
    ensures |r| == |base|
  {
    if d == [] then base
    else
      var p := Painted(base, d[..|d| - 1], c);
      var k := d[|d| - 1];
      if 0 <= k < |p| then p[k := c] else p
  }

  /** Painting sets exactly the listed bytes. */
  lemma {:induction false} PaintedSpec(base: seq<Byte>, d: seq<int>, c: Byte)
    ensures forall k :: 0 <= k < |base| ==> Painted(base, d, c)[k] == if k in d then c else base[k]
  {
    if d != [] {
      var front := d[..|d| - 1];
      PaintedSpec(base, front, c);
      assert d == front + [d[|d| - 1]];
    }
  }

  /** The offsets of the first n pixels, built one pass at a time as Line draws them. */
  function Drawn(s: Segment, test: MoveTest, n: nat): (d: seq<int>)
    ensures |d| == n
  {
    if n == 0 then []
    else Drawn(s, test, n - 1) + [Offset(PenAt(s, test, n - 1).x, PenAt(s, test, n - 1).y)]
  }

  /** The i-th offset drawn is that of the i-th pen position. */
  lemma {:induction false} DrawnAt(s: Segment, test: MoveTest, n: nat, i: nat)
    requires i < n
    ensures Drawn(s, test, n)[i] == Offset(PenAt(s, test, i).x, PenAt(s, test, i).y)
  {
    if i < n - 1 {
      DrawnAt(s, test, n - 1, i);
    }
  }

  /** Drawing pass by pass produces the trace. */
  lemma DrawnIsTrace(s: Segment, test: MoveTest, n: nat)
    requires n <= s.Length()
    ensures Drawn(s, test, n) == Trace(s, test)[..n]
  {
    var t, d := Trace(s, test), Drawn(s, test, n);
    forall i | 0 <= i < n
      ensures d[i] == t[i]
    {
      DrawnAt(s, test, n, i);
    }
  }

  /** How far the pen has moved along the shorter side, counted towards the end point. */
  function MinorMoves(s: Segment, p: Pen): int
  {
    if s.XMajor() then (if s.YUnit() < 0 then s.y1 - p.y else p.y - s.y1)
    else (if s.XUnit() < 0 then s.x1 - p.x else p.x - s.x1)
  }

  /** Where the pen is along the longer side after i passes. */
  function MajorAt(s: Segment, i: int): int
  {
    if s.XMajor() then (if s.XUnit() < 0 then s.x1 - i else s.x1 + i)
    else (if s.YUnit() < 0 then s.y1 - i else s.y1 + i)
  }

  /**
   * The error term records the longer-side steps against the shorter-side
   * moves: it is i * (shorter side) - moves * (longer side).
   */
  ghost predicate PenInvariant(s: Segment, test: MoveTest, i: nat, p: Pen)
  {
    var m := MinorMoves(s, p);
    m >= 0 &&
    if s.XMajor() then
      p.x == MajorAt(s, i) &&
      p.err == i * s.YDiff() - m * s.XDiff() &&
      (test == Reaches ==> 0 <= p.err < s.XDiff()) &&
      (test == Exceeds ==> 0 <= p.err <= s.XDiff() && (i > 0 && s.YDiff() > 0 ==> p.err > 0))
    else
      p.y == MajorAt(s, i) &&
      p.err == i * s.XDiff() - m * s.YDiff() &&
      p.err <= 0 &&
      (s.YDiff() > 0 ==> p.err + s.YDiff() > 0) &&
      (s.YDiff() == 0 ==> m == 0)
  }

  /** The error arithmetic of one pass, with or without a move along the shorter side. */
  lemma ErrorStep(i: int, m: int, a: int, b: int)
    ensures (i + 1) * b - m * a == (i * b - m * a) + b
    ensures (i + 1) * b - (m + 1) * a == (i * b - m * a) + b - a
  {
    MulSucc(i, b);
    MulSucc(m, a);
  }

  /** Every pen position satisfies the error-term invariant. */
  lemma {:induction false} PenAtInvariant(s: Segment, test: MoveTest, i: nat)
    ensures PenInvariant(s, test, i, PenAt(s, test, i))
  {
    if i > 0 {
      PenAtInvariant(s, test, i - 1);
      var p := PenAt(s, test, i - 1);
      var m := MinorMoves(s, p);
      if s.XMajor() {
        ErrorStep(i - 1, m, s.XDiff(), s.YDiff());
      } else {
        ErrorStep(i - 1, m, s.YDiff(), s.XDiff());
      }
    }
  }

  /** A multiple of a in [0, a) is 0, and one in (0, a] is a. */
  lemma PinnedMultiple(a: int, d: int)
    requires a > 0
    ensures 0 <= a * d < a ==> d == 0
    ensures 0 < a * d <= a ==> d == 1
  {
    if d >= 2 {
      MulMonotone(2, d, a);
    } else if d < 0 {
      MulMonotone(d, -1, a);
    }
  }

  /** After at most `long` passes the shorter side has moved at most `short` times. */
  lemma MovesWithin(i: int, m: int, long: int, short: int, e: int, slack: int)
    requires long > 0 && short >= 0 && 0 <= i <= long && m >= 0
    requires e == i * short - m * long && e + slack >= 0 && 0 <= slack <= long
    requires slack == long ==> e + slack > 0
    ensures m <= short
  {
    MulMonotone(i, long, short);
    if m > short {
      MulMonotone(short + 1, m, long);
      MulSucc(short, long);
      assert false;
    }
  }

  /** The last pass's error term pins the number of moves along the shorter side. */
  lemma MovesAtEnd(m: int, long: int, short: int, e: int)
    requires long > 0 && e == long * short - m * long
    ensures 0 <= e < long ==> m == short
    ensures 0 < e <= long ==> m == short - 1
    ensures -long < e <= 0 ==> m == short
  {
    assert e == long * (short - m);
    PinnedMultiple(long, short - m);
    assert -e == long * (m - short);
    PinnedMultiple(long, m - short);
  }

  /** Along the first Length pixels the pen never moves further than the shorter side. */
  lemma MinorMovesBounded(s: Segment, test: MoveTest, i: nat)
    requires i < s.Length()
    ensures 0 <= MinorMoves(s, PenAt(s, test, i)) <= (if s.XMajor() then s.YDiff() else s.XDiff())
  {
    PenAtInvariant(s, test, i);
    var p := PenAt(s, test, i);
    if s.XMajor() {
      MovesWithin(i, MinorMoves(s, p), s.XDiff(), s.YDiff(), p.err, 0);
    } else if s.YDiff() > 0 {
      MovesWithin(i, MinorMoves(s, p), s.YDiff(), s.XDiff(), p.err, s.YDiff());
    }
  }

  /** Every pixel of the line lies in the box spanned by its end points. */
  lemma LineInBox(s: Segment, test: MoveTest, i: nat)
    requires i < s.Length()
    ensures Min(s.x1, s.x2) <= PenAt(s, test, i).x <= Max(s.x1, s.x2)
    ensures Min(s.y1, s.y2) <= PenAt(s, test, i).y <= Max(s.y1, s.y2)
  {
    PenAtInvariant(s, test, i);
    MinorMovesBounded(s, test, i);
  }

  /** A line between two on-screen points writes only inside the framebuffer. */
  lemma LineOnScreen(s: Segment, test: MoveTest)
    requires s.OnScreen()
    ensures forall k :: k in Trace(s, test) ==> 0 <= k < SCREEN_SIZE
  {
    forall i | 0 <= i < s.Length()
      ensures 0 <= Trace(s, test)[i] < SCREEN_SIZE
    {
      LineInBox(s, test, i);
    }
  }

  /**
   * Along the longer side each pass moves one pixel; along the shorter
   * side it moves at most one pixel, towards the end point.
   */
  lemma LineSteps(s: Segment, test: MoveTest, i: nat)
    ensures var p, q := PenAt(s, test, i), PenAt(s, test, i + 1);
      if s.XMajor() then
        q.x == p.x + s.XUnit() && (q.y == p.y || q.y == p.y + s.YUnit())
      else
        q.y == p.y + s.YUnit() && (q.x == p.x || q.x == p.x + s.XUnit())
  {
  }

  /** Line never writes the same pixel twice: it writes exactly Length pixels. */
  lemma LineDistinct(s: Segment, test: MoveTest)
    requires s.OnScreen()
    ensures forall i, j :: 0 <= i < j < s.Length() ==> Trace(s, test)[i] != Trace(s, test)[j]
  {
    forall i, j | 0 <= i < j < s.Length()
      ensures Trace(s, test)[i] != Trace(s, test)[j]
    {
      PenAtInvariant(s, test, i);
      PenAtInvariant(s, test, j);
      LineInBox(s, test, i);
      LineInBox(s, test, j);
      var p, q := PenAt(s, test, i), PenAt(s, test, j);
      OffsetCoords(p.x, p.y);
      OffsetCoords(q.x, q.y);
    }
  }

  /**
   * With the corrected move test the last pixel is the end point; in the
   * y-major case, and for a horizontal line, so it is with either test.
   */
  lemma LineEndsAtEndPoint(s: Segment, test: MoveTest)
    requires test == Reaches || !s.XMajor() || s.YDiff() == 0
    ensures PenAt(s, test, s.Length() - 1).x == s.x2
    ensures PenAt(s, test, s.Length() - 1).y == s.y2
  {
    var n := s.Length() - 1;
    PenAtInvariant(s, test, n);
    var p := PenAt(s, test, n);
    if s.XMajor() {
      MovesAtEnd(MinorMoves(s, p), s.XDiff(), s.YDiff(), p.err);
    } else if s.YDiff() > 0 {
      MovesAtEnd(MinorMoves(s, p), s.YDiff(), s.XDiff(), p.err);
    }
  }

  /**
   * As written, an x-major line that climbs or falls ends one row short:
   * its last pixel is (x2, y2 - YUnit) instead of (x2, y2).
   */
  lemma LineAsWrittenFallsShort(s: Segment)
    requires s.XMajor() && s.YDiff() > 0
    ensures PenAt(s, Exceeds, s.Length() - 1).x == s.x2
    ensures PenAt(s, Exceeds, s.Length() - 1).y == s.y2 - s.YUnit()
  {
    var n := s.Length() - 1;
    PenAtInvariant(s, Exceeds, n);
    var p := PenAt(s, Exceeds, n);
    MovesAtEnd(MinorMoves(s, p), s.XDiff(), s.YDiff(), p.err);
  }

  /** The third pen position from (0,0) towards (2,1) under each move test. */
  lemma LineAsWrittenPens(s: Segment)
    requires s.x1 == 0 && s.y1 == 0 && s.x2 == 2 && s.y2 == 1
    ensures PenAt(s, Exceeds, 2) == Pen(2, 0, 2)
    ensures PenAt(s, Reaches, 2) == Pen(2, 1, 0)
  {
    assert s.XDiff() == 2 && s.YDiff() == 1;
    assert PenAt(s, Exceeds, 1) == Pen(1, 0, 1) == PenAt(s, Reaches, 1);
  }

  /** From (0,0) to (2,1) the source draws (0,0), (1,0), (2,0); the corrected rule ends at (2,1). */
  lemma LineAsWrittenExample(s: Segment)
    requires s.x1 == 0 && s.y1 == 0 && s.x2 == 2 && s.y2 == 1
    ensures Trace(s, Exceeds)[2] == Offset(2, 0)
    ensures Trace(s, Reaches)[2] == Offset(2, 1)
  {
    LineAsWrittenPens(s);
    assert s.Length() == 3;
  }

  /**
   * Line, with the corrected x-major move test: the pixels of the trace
   * become color and no other byte changes.
   */
  method Line(fb: array<Byte>, x1: int, y1: int, x2: int, y2: int, color: Byte)
    requires fb.Length == SCREEN_SIZE && Segment(x1, y1, x2, y2).OnScreen()
    modifies fb
    ensures fb[..] == Painted(old(fb[..]), Trace(Segment(x1, y1, x2, y2), Reaches), color)
  {
    ghost var s := Segment(x1, y1, x2, y2);
    var y_unit, x_unit;
    var offset := y1 * 320 + x1;
    var ydiff := y2 - y1;
    if ydiff < 0 {
      ydiff := -ydiff;
      y_unit := -320;
    } else {
      y_unit := 320;
    }
    var xdiff := x2 - x1;
    if xdiff < 0 {
      xdiff := -xdiff;
      x_unit := -1;
    } else {
      x_unit := 1;
    }
    assert xdiff == s.XDiff() && ydiff == s.YDiff();
    assert x_unit == s.XUnit() && y_unit == 320 * s.YUnit();
    if xdiff > ydiff {
      XMajorPasses(fb, s, offset, xdiff, ydiff, x_unit, y_unit, color);
    } else {
      YMajorPasses(fb, s, offset, xdiff, ydiff, x_unit, y_unit, color);
    }
  }

  /** Line's loop when the line is wider than tall: one column per pass. */
  method XMajorPasses(fb: array<Byte>, ghost s: Segment, offset: int,
                      xdiff: int, ydiff: int, x_unit: int, y_unit: int, color: Byte)
    requires fb.Length == SCREEN_SIZE && s.OnScreen() && s.XMajor()
    requires offset == Offset(s.x1, s.y1) && xdiff == s.XDiff() && ydiff == s.YDiff()
    requires x_unit == s.XUnit() && y_unit == 320 * s.YUnit()
    modifies fb
    ensures fb[..] == Painted(old(fb[..]), Trace(s, Reaches), color)
  {
    var offset := offset;
    var error_term := 0;
    ghost var pen := Pen(s.x1, s.y1, 0);
    ghost var drawn: seq<int> := [];
    var length := xdiff + 1;
    var i := 0;
    while i < length
      invariant 0 <= i <= length == s.Length()
      invariant pen == PenAt(s, Reaches, i)
      invariant error_term == pen.err && offset == Offset(pen.x, pen.y)
      invariant drawn == Drawn(s, Reaches, i)
      invariant fb[..] == Painted(old(fb[..]), drawn, color)
    {
      LineInBox(s, Reaches, i);
      fb[offset] := color;
      assert (drawn + [offset])[..|drawn|] == drawn;
      drawn := drawn + [offset];
      ghost var next := LineStep(s, Reaches, pen);
      offset := offset + x_unit;
      error_term := error_term + ydiff;
      if error_term >= xdiff {
        error_term := error_term - xdiff;
        offset := offset + y_unit;
        assert next == Pen(pen.x + s.XUnit(), pen.y + s.YUnit(), error_term);
      } else {
        assert next == Pen(pen.x + s.XUnit(), pen.y, error_term);
      }
      pen := next;
      i := i + 1;
    }
    DrawnIsTrace(s, Reaches, i);
    assert drawn == Trace(s, Reaches)[..i] == Trace(s, Reaches);
  }

  /** Line's loop when the line is at least as tall as wide: one row per pass. */
  method YMajorPasses(fb: array<Byte>, ghost s: Segment, offset: int,
                      xdiff: int, ydiff: int, x_unit: int, y_unit: int, color: Byte)
    requires fb.Length == SCREEN_SIZE && s.OnScreen() && !s.XMajor()
    requires offset == Offset(s.x1, s.y1) && xdiff == s.XDiff() && ydiff == s.YDiff()
    requires x_unit == s.XUnit() && y_unit == 320 * s.YUnit()
    modifies fb
    ensures fb[..] == Painted(old(fb[..]), Trace(s, Reaches), color)
  {
    var offset := offset;
    var error_term := 0;
    ghost var pen := Pen(s.x1, s.y1, 0);
    ghost var drawn: seq<int> := [];
    var length := ydiff + 1;
    var i := 0;
    while i < length
      invariant 0 <= i <= length == s.Length()
      invariant pen == PenAt(s, Reaches, i)
      invariant error_term == pen.err && offset == Offset(pen.x, pen.y)
      invariant drawn == Drawn(s, Reaches, i)
      invariant fb[..] == Painted(old(fb[..]), drawn, color)
    {
      LineInBox(s, Reaches, i);
      fb[offset] := color;
      assert (drawn + [offset])[..|drawn|] == drawn;
      drawn := drawn + [offset];
      ghost var next := LineStep(s, Reaches, pen);
      offset := offset + y_unit;
      error_term := error_term + xdiff;
      if error_term > 0 {
        error_term := error_term - ydiff;
        offset := offset + x_unit;
        assert next == Pen(pen.x + s.XUnit(), pen.y + s.YUnit(), error_term);
      } else {
        assert next == Pen(pen.x, pen.y + s.YUnit(), error_term);
      }
      pen := next;
      i := i + 1;
    }
    DrawnIsTrace(s, Reaches, i);
    assert drawn == Trace(s, Reaches)[..i] == Trace(s, Reaches);
  }

  // ---------------------------------------------------------------------
  // Palette range guards

  /** A palette register's red, green and blue levels. */
  datatype Rgb = Rgb(r: Byte, g: Byte, b: Byte)

  /** Channel k (0 red, 1 green, 2 blue) of a register. */
  function Channel(c: Rgb, k: int): Byte
  {
    if k == 0 then c.r else if k == 1 then c.g else c.b
  }

  /** The guard of ReadPalette and ClrPalette: registers start..start+number-1 lie within the 256. */
  predicate PaletteRangeOk(start: int, number: int)
  {
    !((start > 256) || (start < 0) || ((start + number) > 256))
  }

  /**
   * ReadPalette: when the guard admits the range, bytes 3*start up to
   * 3*(start+number) receive the registers' levels, three bytes a
   * register; otherwise the palette is left alone.
   */
  method ReadPalette(start: int, number: int, palette: array<Byte>, dac: array<Rgb>)
    requires dac.Length == 256
    requires PaletteRangeOk(start, number) ==> 3 * (start + number) <= palette.Length
    modifies palette
    ensures forall j :: 0 <= j < palette.Length ==>
      palette[j] ==
        if PaletteRangeOk(start, number) && 3 * start <= j < 3 * (start + number)
        then Channel(dac[j / 3], j % 3)
        else old(palette[j])
  {
    if (start > 256) || (start < 0) || ((start + number) > 256) {
      return;
    }
    var i := start;
    while i < start + number
      invariant start <= i <= (if number < 0 then start else start + number)
      invariant forall j :: 0 <= j < palette.Length ==>
        palette[j] == if 3 * start <= j < 3 * i then Channel(dac[j / 3], j % 3) else old(palette[j])
    {
      var j := i * 3;
      var pal := dac[i];
      palette[j] := pal.r;
      j := j + 1;
      palette[j] := pal.g;
      j := j + 1;
      palette[j] := pal.b;
      i := i + 1;
    }
  }

  /**
   * ClrPalette: when the guard admits the range, registers start up to
   * start+number become black; otherwise nothing changes.
   */
  method ClrPalette(start: int, number: int, dac: array<Rgb>)
    requires dac.Length == 256
    modifies dac
    ensures forall i :: 0 <= i < 256 ==>
      dac[i] ==
        if PaletteRangeOk(start, number) && start <= i < start + number
        then Rgb(0, 0, 0)
        else old(dac[i])
  {
    if (start > 256) || (start < 0) || ((start + number) > 256) {
      return;
    }
    var i := start;
    while i < start + number
      invariant start <= i <= (if number < 0 then start else start + number)
      invariant forall k :: 0 <= k < 256 ==>
        dac[k] == if start <= k < i then Rgb(0, 0, 0) else old(dac[k])
    {
      dac[i] := Rgb(0, 0, 0);
      i := i + 1;
    }
  }
}
