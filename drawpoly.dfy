/**
 * The polygon scan converter of src/drawpoly.h. Starting from the top
 * vertex, two Bresenham edge walkers run down the polygon outline, edge 1
 * towards lower vertex indices and edge 2 towards higher ones; on every
 * scanline the bytes between them are filled with the polygon's colour.
 *
 * Each walker's state (position, offset, error term, remaining count and
 * the edge's extents) is an EdgeWalker value. The source chooses one of four
 * loops by the dominance of the two edges; since the two edges' updates do
 * not depend on each other, the model runs one scanline loop that steps
 * each edge by its own dominance, which is the same sequence of updates.
 */
module DrawPoly {
  import opened Common
  import opened Poly
  import opened ViewClip
  import Screen

  /** Between before and after, every byte either kept its value or became c. */
  ghost predicate OnlyColour(before: seq<Byte>, after: seq<Byte>, c: Byte)
  {
    |after| == |before| && forall i :: 0 <= i < |before| ==> after[i] == before[i] || after[i] == c
  }

  // ---------------------------------------------------------------------
  // Painted spans
  // ---------------------------------------------------------------------

  /**
   * A run of bytes the scan converter writes on one scanline: from column
   * x1 to column x2, both included, in the 320-byte rows of the buffer.
   * A single plotted pixel is a span with x1 == x2.
   */
  datatype Span = Span(row: int, x1: int, x2: int)
  {
    predicate Covers(k: int)
    {
      320 * row + Min(x1, x2) <= k <= 320 * row + Max(x1, x2)
    }

    /** Both ends of the span lie in the columns xlo..xhi. */
    predicate InColumns(xlo: int, xhi: int)
    {
      xlo <= Min(x1, x2) && Max(x1, x2) <= xhi
    }
  }

  /** Every span lies on a row in ylo..yhi and in the columns xlo..xhi. */
  predicate SpansIn(spans: seq<Span>, ylo: int, yhi: int, xlo: int, xhi: int)
  {
    forall i :: 0 <= i < |spans| ==> ylo <= spans[i].row <= yhi && spans[i].InColumns(xlo, xhi)
  }

  /** Some span of the list covers byte k. */
  predicate AnyCovers(spans: seq<Span>, k: int)
  {
    exists i :: 0 <= i < |spans| && spans[i].Covers(k)
  }

  /** The buffer s with every byte that some span covers set to c. */
  ghost function Paint(s: seq<Byte>, spans: seq<Span>, c: Byte): (r: seq<Byte>)
    ensures |r| == |s|
  {
    seq(|s|, k requires 0 <= k < |s| => if AnyCovers(spans, k) then c else s[k])
  }

  /** Painting writes nothing but c. */
  lemma PaintOnlyColour(s: seq<Byte>, spans: seq<Span>, c: Byte)
    ensures OnlyColour(s, Paint(s, spans, c), c)
  {
  }

  /** Painting one span sets exactly the bytes it covers. */
  lemma PaintOne(s: seq<Byte>, sp: Span, c: Byte)
    ensures forall k :: 0 <= k < |s| ==> Paint(s, [sp], c)[k] == if sp.Covers(k) then c else s[k]
  {
    forall k | 0 <= k < |s| && sp.Covers(k)
      ensures AnyCovers([sp], k)
    {
      assert [sp][0] == sp;
    }
  }

  /** Painting nothing changes nothing. */
  lemma PaintNone(s: seq<Byte>, c: Byte)
    ensures Paint(s, [], c) == s
  {
  }

  /** Painting two lists one after the other is painting their concatenation. */
  lemma PaintConcat(s: seq<Byte>, a: seq<Span>, b: seq<Span>, c: Byte)
    ensures Paint(Paint(s, a, c), b, c) == Paint(s, a + b, c)
  {
    forall k | 0 <= k < |s|
      ensures Paint(Paint(s, a, c), b, c)[k] == Paint(s, a + b, c)[k]
    {
      if AnyCovers(a, k) {
        var i :| 0 <= i < |a| && a[i].Covers(k);
        assert (a + b)[i] == a[i];
      }
      if AnyCovers(b, k) {
        var i :| 0 <= i < |b| && b[i].Covers(k);
        assert (a + b)[|a| + i] == b[i];
      }
      if AnyCovers(a + b, k) {
        var i :| 0 <= i < |a + b| && (a + b)[i].Covers(k);
        if i < |a| {
          assert a[i] == (a + b)[i];
        } else {
          assert b[i - |a|] == (a + b)[i];
        }
      }
    }
  }

  /** A byte any listed span covers reads back c after painting. */
  lemma PaintCovered(s: seq<Byte>, spans: seq<Span>, c: Byte, sp: Span, k: int)
    requires sp in spans && 0 <= k < |s| && sp.Covers(k)
    ensures Paint(s, spans, c)[k] == c
  {
  }

  // ---------------------------------------------------------------------
  // Vertex order
  // ---------------------------------------------------------------------

  /** The vertex edge 1 walks to: the previous index, wrapping to n - 1. */
  function PrevVertex(v: int, n: int): (r: int)
    requires 0 <= v < n
    ensures 0 <= r < n && (r + 1) % n == v
  {
    if v - 1 < 0 then n - 1 else v - 1
  }

  /** The vertex edge 2 walks to: the next index, wrapping to 0. */
  function NextVertex(v: int, n: int): (r: int)
    requires 0 <= v < n
    ensures 0 <= r < n && r == (v + 1) % n
  {
    if v + 1 == n then 0 else v + 1
  }

  /** The two walking directions undo each other. */
  lemma PrevUndoesNext(v: int, n: int)
    requires 0 <= v < n
    ensures PrevVertex(NextVertex(v, n), n) == v
    ensures NextVertex(PrevVertex(v, n), n) == v
  {
  }

  /**
   * The top vertex: the first index whose y is the smallest, since a later
   * vertex replaces the candidate only when strictly higher.
   */
  method FindTop(clip: ClippedPolygon) returns (firstvert: int)
    requires clip.Valid() && 1 <= clip.numberOfVertices <= CLIP_CAPACITY
    ensures 0 <= firstvert < clip.numberOfVertices
    ensures forall i :: 0 <= i < clip.numberOfVertices ==> clip.vertex[firstvert].y <= clip.vertex[i].y
    ensures forall i :: 0 <= i < firstvert ==> clip.vertex[i].y > clip.vertex[firstvert].y
  {
    firstvert := 0;
    var minAmt := clip.vertex[0].y;
    for i := 1 to clip.numberOfVertices
      invariant 0 <= firstvert < i && minAmt == clip.vertex[firstvert].y
      invariant forall j :: 0 <= j < i ==> minAmt <= clip.vertex[j].y
      invariant forall j :: 0 <= j < firstvert ==> clip.vertex[j].y > minAmt
    {
      if clip.vertex[i].y < minAmt {
        firstvert := i;
        minAmt := clip.vertex[i].y;
      }
    }
  }

  // ---------------------------------------------------------------------
  // Edge walkers
  // ---------------------------------------------------------------------

  /** The state of one edge: position, screen offset, error term and steps left. */
  datatype EdgeWalker = EdgeWalker(x: int, y: int, offset: int, errorterm: int, count: int,
                                   xdiff: int, ydiff: int, xunit: int)
  {
    /** The edge is walked one column per step, else one scanline per step. */
    predicate XDominant() { xdiff > ydiff }

    /** The columns still to go towards xend. */
    function Remaining(xend: int): int { xunit * (xend - x) }
  }

  /**
   * The walker's bookkeeping is sound: the offset addresses (x, y) in the
   * 320-byte rows, and the error term accounts for the columns still to
   * go. An x-dominant edge moves one column per step; a y-dominant edge has
   * its error term equal to the columns left times ydiff, less the
   * scanlines left times xdiff.
   */
  ghost predicate OnEdge(w: EdgeWalker, xend: int)
  {
    0 <= w.xdiff && 0 <= w.ydiff && (w.xunit == 1 || w.xunit == -1) &&
    w.offset == 320 * w.y + w.x && 0 <= w.count &&
    if w.XDominant() then
      w.x + w.xunit * w.count == xend && (w.count > 0 ==> 0 <= w.errorterm < w.xdiff)
    else
      0 <= w.Remaining(xend) <= w.xdiff && w.count <= w.ydiff &&
      w.errorterm == w.Remaining(xend) * w.ydiff - w.count * w.xdiff &&
      0 <= w.errorterm && (w.ydiff > 0 ==> w.errorterm < w.ydiff)
  }

  /**
   * The set-up of an edge from (xs, ys) to (xe, ye): zero error term, the
   * absolute extents, the x direction, and a count of the dominant extent
   * (ydiff when the extents are equal).
   */
  function StartEdge(xs: int, ys: int, xe: int, ye: int): (w: EdgeWalker)
    ensures w.x == xs && w.y == ys && w.errorterm == 0
    ensures w.xdiff == Abs(xe - xs) && w.ydiff == Abs(ye - ys)
    ensures w.xunit == (if xe < xs then -1 else 1)
    ensures w.count == Max(w.xdiff, w.ydiff)
    ensures OnEdge(w, xe)
  {
    var ydiff := if ye - ys < 0 then -(ye - ys) else ye - ys;
    var xunit := if xe - xs < 0 then -1 else 1;
    var xdiff := if xe - xs < 0 then -(xe - xs) else xe - xs;
    var count := if xdiff > ydiff then xdiff else ydiff;
    var w := EdgeWalker(xs, ys, 320 * ys + xs, 0, count, xdiff, ydiff, xunit);
    assert w.Remaining(xe) == xdiff;
    w
  }

  /** A finished walker stands on its end column. */
  lemma FinishedEdgeAtEnd(w: EdgeWalker, xend: int)
    requires OnEdge(w, xend) && w.count == 0
    ensures w.x == xend
  {
    if !w.XDominant() {
      var r := w.Remaining(xend);
      if w.ydiff > 0 {
        if r > 0 {
          MulMonotone(1, r, w.ydiff);
        }
      }
      assert r == 0;
    }
  }

  /** Writes one pixel; an offset outside the buffer writes nothing. */
  method Plot(screen: array<Byte>, offset: int, c: Byte)
    modifies screen
    ensures screen[..] == if 0 <= offset < screen.Length then old(screen[..])[offset := c] else old(screen[..])
    ensures OnlyColour(old(screen[..]), screen[..], c)
  {
    if 0 <= offset < screen.Length {
      screen[offset] := c;
    }
  }

  /**
   * One scanline of an x-dominant edge: step a column at a time, adding
   * ydiff to the error term and plotting each pixel reached before it
   * passes xdiff, until it does or the edge is finished; then take xdiff
   * back off.
   */
  method XDominantStep(screen: array<Byte>, c: Byte, w: EdgeWalker, ghost xend: int)
    returns (r: EdgeWalker, ghost marks: seq<Span>)
    requires OnEdge(w, xend) && w.XDominant() && w.count > 0
    modifies screen
    ensures OnEdge(r, xend)
    ensures r.y == w.y && r.xdiff == w.xdiff && r.ydiff == w.ydiff && r.xunit == w.xunit
    ensures r.count < w.count
    ensures r.x == w.x + w.xunit * (w.count - r.count) && Between(r.x, w.x, xend)
    ensures forall i :: 0 <= i < |marks| ==>
      marks[i].row == w.y && marks[i].x1 == marks[i].x2 && marks[i].x1 != w.x && Between(marks[i].x1, w.x, r.x)
    ensures screen[..] == Paint(old(screen[..]), marks, c)
  {
    r := w;
    marks := [];
    PaintNone(screen[..], c);
    while r.errorterm < r.xdiff && r.count > 0
      invariant r.y == w.y && r.xdiff == w.xdiff && r.ydiff == w.ydiff && r.xunit == w.xunit
      invariant r.offset == 320 * r.y + r.x
      invariant 0 <= r.count <= w.count
      invariant r.x + r.xunit * r.count == xend
      invariant r.x == w.x + w.xunit * (w.count - r.count) && Between(r.x, w.x, xend)
      invariant forall i :: 0 <= i < |marks| ==>
        marks[i].row == w.y && marks[i].x1 == marks[i].x2 && marks[i].x1 != w.x && Between(marks[i].x1, w.x, r.x)
      invariant 0 <= r.errorterm < r.xdiff + r.ydiff
      invariant r.count == w.count ==> r.errorterm < r.xdiff
      invariant screen[..] == Paint(old(screen[..]), marks, c)
      decreases r.count
    {
      ghost var before := screen[..];
      r := r.(count := r.count - 1, offset := r.offset + r.xunit, x := r.x + r.xunit);
      r := r.(errorterm := r.errorterm + r.ydiff);
      if r.errorterm < r.xdiff {
        Plot(screen, r.offset, c);
        ghost var px := Span(r.y, r.x, r.x);
        PaintOne(before, px, c);
        assert screen[..] == Paint(before, [px], c);
        PaintConcat(old(screen[..]), marks, [px], c);
        marks := marks + [px];
      }
    }
    r := r.(errorterm := r.errorterm - r.xdiff);
  }

  /**
   * One scanline of a y-dominant edge: add xdiff to the error term and
   * move one column when it reaches ydiff.
   */
  function YDominantStep(w: EdgeWalker): (r: EdgeWalker)
    ensures r.y == w.y && r.xdiff == w.xdiff && r.ydiff == w.ydiff && r.xunit == w.xunit
    ensures r.count == w.count - 1
    ensures r.x == w.x || r.x == w.x + w.xunit
    ensures r.offset - w.offset == r.x - w.x
  {
    var e := w.errorterm + w.xdiff;
    if e >= w.ydiff then
      w.(errorterm := e - w.ydiff, offset := w.offset + w.xunit, x := w.x + w.xunit, count := w.count - 1)
    else
      w.(errorterm := e, count := w.count - 1)
  }

  /** A y-dominant step keeps the walker's bookkeeping and moves at most one column. */
  lemma YDominantStepOnEdge(w: EdgeWalker, xend: int)
    requires OnEdge(w, xend) && !w.XDominant() && w.count > 0
    ensures OnEdge(YDominantStep(w), xend)
  {
    var r := YDominantStep(w);
    var rem, rem' := w.Remaining(xend), r.Remaining(xend);
    if r.x == w.x + w.xunit {
      assert rem' == rem - 1;
      assert r.errorterm == rem' * w.ydiff - r.count * w.xdiff by {
        MulSucc(rem', w.ydiff);
        MulSucc(r.count, w.xdiff);
      }
      if rem' < 0 {
        // with no column left the error term is -count * xdiff, so it was 0 and xdiff was 0
        MulMonotone(1, w.count, w.xdiff);
        assert false;
      }
    } else {
      assert r.errorterm == rem' * w.ydiff - r.count * w.xdiff by {
        MulSucc(r.count, w.xdiff);
      }
    }
  }

  /** A y-dominant step never moves past the end column. */
  lemma YDominantStepTowardsEnd(w: EdgeWalker, xend: int)
    requires OnEdge(w, xend) && !w.XDominant() && w.count > 0
    ensures Between(YDominantStep(w).x, w.x, xend)
  {
    YDominantStepOnEdge(w, xend);
    var r := YDominantStep(w);
    assert r.Remaining(xend) >= 0;
  }

  /** Steps one edge by one scanline, by its dominance. */
  method StepEdge(screen: array<Byte>, c: Byte, w: EdgeWalker, ghost xend: int)
    returns (r: EdgeWalker, ghost marks: seq<Span>)
    requires OnEdge(w, xend) && w.count > 0
    modifies screen
    ensures OnEdge(r, xend)
    ensures r.y == w.y && r.xdiff == w.xdiff && r.ydiff == w.ydiff && r.xunit == w.xunit
    ensures 0 <= r.count < w.count
    ensures w.XDominant() ==> r.x == w.x + w.xunit * (w.count - r.count)
    ensures !w.XDominant() ==> r.count == w.count - 1 && (r.x == w.x || r.x == w.x + w.xunit)
    ensures Between(r.x, w.x, xend)
    ensures !w.XDominant() ==> marks == []
    ensures forall i :: 0 <= i < |marks| ==>
      marks[i].row == w.y && marks[i].x1 == marks[i].x2 && marks[i].x1 != w.x && Between(marks[i].x1, w.x, r.x)
    ensures screen[..] == Paint(old(screen[..]), marks, c)
  {
    if w.XDominant() {
      r, marks := XDominantStep(screen, c, w, xend);
    } else {
      YDominantStepOnEdge(w, xend);
      r := YDominantStep(w);
      YDominantStepTowardsEnd(w, xend);
      marks := [];
      PaintNone(screen[..], c);
    }
  }

  /** Moves a walker down one scanline: 320 bytes further, same column. */
  function NextLine(w: EdgeWalker): (r: EdgeWalker)
    ensures r.y == w.y + 1 && r.x == w.x && r.count == w.count && r.errorterm == w.errorterm
    ensures r.offset - 320 * r.y == w.offset - 320 * w.y
  {
    w.(offset := w.offset + SCREEN_WIDTH, y := w.y + 1)
  }

  lemma NextLineOnEdge(w: EdgeWalker, xend: int)
    requires OnEdge(w, xend)
    ensures OnEdge(NextLine(w), xend)
  {
  }

  /**
   * The span between the edges: length + 1 bytes from the smaller offset,
   * so both end pixels are included. Bytes outside the buffer are not written.
   */
  method FillSpan(screen: array<Byte>, offset1: int, offset2: int, c: Byte)
    modifies screen
    ensures forall k :: 0 <= k < screen.Length ==>
      screen[k] == if Min(offset1, offset2) <= k <= Max(offset1, offset2) then c else old(screen[k])
    ensures OnlyColour(old(screen[..]), screen[..], c)
  {
    var length := offset2 - offset1;
    var start;
    if length < 0 {
      length := -length;
      start := offset2;
    } else {
      start := offset1;
    }
    var lo, hi := Max(start, 0), Min(start + length + 1, screen.Length);
    if lo < hi {
      Screen.MemSet(screen, lo, c, hi - lo);
    }
  }

  /**
   * Walks both edges down scanline by scanline, filling the span between
   * them each time, until one of the two edges is finished. The buffer ends
   * up painted with the spans written (the fills and the pixels the
   * x-dominant steps plot). The fills are one per scanline, each from a
   * column on edge 1 to a column on edge 2; every span lies on the rows
   * walked and in any columns xlo..xhi that hold both edges.
   */
  method ScanEdges(screen: array<Byte>, c: Byte, w1: EdgeWalker, w2: EdgeWalker, ghost xend1: int, ghost xend2: int,
                   ghost xlo: int, ghost xhi: int)
    returns (r1: EdgeWalker, r2: EdgeWalker, ghost fills: seq<Span>, ghost spans: seq<Span>)
    requires OnEdge(w1, xend1) && OnEdge(w2, xend2) && w1.y == w2.y
    requires xlo <= w1.x <= xhi && xlo <= xend1 <= xhi && xlo <= w2.x <= xhi && xlo <= xend2 <= xhi
    modifies screen
    ensures OnEdge(r1, xend1) && OnEdge(r2, xend2) && r1.y == r2.y
    ensures r1.count == 0 || r2.count == 0
    ensures r1.count <= w1.count && r2.count <= w2.count
    ensures w1.count > 0 && w2.count > 0 ==> |fills| > 0
    ensures Between(r1.x, w1.x, xend1) && Between(r2.x, w2.x, xend2)
    ensures screen[..] == Paint(old(screen[..]), spans, c)
    ensures SpansIn(spans, w1.y, r1.y - 1, xlo, xhi)
    ensures |fills| == r1.y - w1.y
    ensures forall i :: 0 <= i < |fills| ==> fills[i].row == w1.y + i && fills[i] in spans
    ensures forall i :: 0 <= i < |fills| ==> Between(fills[i].x1, w1.x, xend1) && Between(fills[i].x2, w2.x, xend2)
    ensures |fills| > 0 ==> fills[|fills| - 1] == Span(r1.y - 1, r1.x, r2.x)
  {
    r1, r2 := w1, w2;
    fills, spans := [], [];
    PaintNone(screen[..], c);
    assert SpansIn(spans, w1.y, r1.y - 1, xlo, xhi);
    assert 0 <= w1.count && 0 <= w2.count;
    hide Paint; hide SpansIn; hide OnEdge;
    while r1.count != 0 && r2.count != 0
      invariant OnEdge(r1, xend1) && OnEdge(r2, xend2) && r1.y == r2.y
      invariant 0 <= r1.count && 0 <= r2.count
      invariant r1.count <= w1.count && r2.count <= w2.count
      invariant r1.y == w1.y ==> r1 == w1 && r2 == w2
      invariant Between(r1.x, w1.x, xend1) && Between(r2.x, w2.x, xend2)
      invariant screen[..] == Paint(old(screen[..]), spans, c)
      invariant SpansIn(spans, w1.y, r1.y - 1, xlo, xhi)
      invariant |fills| == r1.y - w1.y
      invariant forall i :: 0 <= i < |fills| ==> fills[i].row == w1.y + i && fills[i] in spans
      invariant forall i :: 0 <= i < |fills| ==> Between(fills[i].x1, w1.x, xend1) && Between(fills[i].x2, w2.x, xend2)
      invariant |fills| > 0 ==> fills[|fills| - 1] == Span(r1.y - 1, r1.x, r2.x)
      decreases r1.count
    {
      ghost var row, f;
      ghost var y := r1.y;
      r1, r2, row, f := ScanLine(screen, c, r1, r2, xend1, xend2, xlo, xhi);
      PaintConcat(old(screen[..]), spans, row, c);
      ScanRowAdded(spans, fills, row, f, w1.y, y, xlo, xhi);
      spans := spans + row;
      fills := fills + [f];
    }
  }

  /**
   * One scanline of ScanEdges: step both edges, fill from edge 1 to edge
   * 2 on the row the edges were on, and move both down a row. The spans
   * written are the two edges' marks and then the fill, all on that row.
   */
  method ScanLine(screen: array<Byte>, c: Byte, w1: EdgeWalker, w2: EdgeWalker, ghost xend1: int, ghost xend2: int,
                  ghost xlo: int, ghost xhi: int)
    returns (r1: EdgeWalker, r2: EdgeWalker, ghost row: seq<Span>, ghost f: Span)
    requires OnEdge(w1, xend1) && OnEdge(w2, xend2) && w1.y == w2.y && w1.count > 0 && w2.count > 0
    requires xlo <= w1.x <= xhi && xlo <= xend1 <= xhi && xlo <= w2.x <= xhi && xlo <= xend2 <= xhi
    modifies screen
    ensures OnEdge(r1, xend1) && OnEdge(r2, xend2) && r1.y == r2.y == w1.y + 1
    ensures 0 <= r1.count < w1.count && 0 <= r2.count < w2.count
    ensures Between(r1.x, w1.x, xend1) && Between(r2.x, w2.x, xend2)
    ensures f == Span(w1.y, r1.x, r2.x) && f.InColumns(xlo, xhi) && f in row
    ensures SpansIn(row, w1.y, w1.y, xlo, xhi)
    ensures screen[..] == Paint(old(screen[..]), row, c)
  {
    hide Paint; hide OnEdge;
    ghost var m1, m2;
    r1, m1 := StepEdge(screen, c, w1, xend1);
    r2, m2 := StepEdge(screen, c, w2, xend2);
    MarksIn(m1, w1.y, w1.x, r1.x, xlo, xhi);
    MarksIn(m2, w2.y, w2.x, r2.x, xlo, xhi);
    ghost var s2 := screen[..];
    FillSpan(screen, r1.offset, r2.offset, c);
    f := Span(r1.y, r1.x, r2.x);
    PaintOne(s2, f, c);
    assert screen[..] == Paint(s2, [f], c);
    PaintConcat(old(screen[..]), m1, m2, c);
    PaintConcat(old(screen[..]), m1 + m2, [f], c);
    assert SpansIn([f], w1.y, w1.y, xlo, xhi);
    SpansInConcat(m1, m2, w1.y, w1.y, xlo, xhi);
    SpansInConcat(m1 + m2, [f], w1.y, w1.y, xlo, xhi);
    row := m1 + m2 + [f];
    assert row[|row| - 1] == f;
    NextLineOnEdge(r1, xend1);
    NextLineOnEdge(r2, xend2);
    r1, r2 := NextLine(r1), NextLine(r2);
  }

  /** One more scanline's spans keep ScanEdges' account of its spans and fills. */
  lemma ScanRowAdded(spans: seq<Span>, fills: seq<Span>, row: seq<Span>, f: Span,
                     y0: int, y: int, xlo: int, xhi: int)
    requires SpansIn(spans, y0, y - 1, xlo, xhi) && SpansIn(row, y, y, xlo, xhi)
    requires f.row == y && f in row
    requires |fills| == y - y0
    requires forall i :: 0 <= i < |fills| ==> fills[i].row == y0 + i && fills[i] in spans
    ensures SpansIn(spans + row, y0, y, xlo, xhi)
    ensures forall i :: 0 <= i < |fills + [f]| ==> (fills + [f])[i].row == y0 + i && (fills + [f])[i] in spans + row
  {
    SpansInWider(spans, y0, y - 1, xlo, xhi, y0, y, xlo, xhi);
    SpansInWider(row, y, y, xlo, xhi, y0, y, xlo, xhi);
    SpansInConcat(spans, row, y0, y, xlo, xhi);
    forall i | 0 <= i < |fills + [f]|
      ensures (fills + [f])[i].row == y0 + i && (fills + [f])[i] in spans + row
    {
      if i < |fills| {
        assert (fills + [f])[i] == fills[i];
      } else {
        assert (fills + [f])[i] == f;
      }
    }
  }

  /** Single-pixel marks on row y between x0 and x1 lie in any columns holding both. */
  lemma MarksIn(marks: seq<Span>, y: int, x0: int, x1: int, xlo: int, xhi: int)
    requires xlo <= x0 <= xhi && xlo <= x1 <= xhi
    requires forall i :: 0 <= i < |marks| ==> marks[i].row == y && marks[i].x1 == marks[i].x2 && Between(marks[i].x1, x0, x1)
    ensures SpansIn(marks, y, y, xlo, xhi)
  {
  }

  /** Spans within a box, joined to spans within a box as high and as wide, stay in it. */
  lemma SpansInConcat(a: seq<Span>, b: seq<Span>, ylo: int, yhi: int, xlo: int, xhi: int)
    requires SpansIn(a, ylo, yhi, xlo, xhi) && SpansIn(b, ylo, yhi, xlo, xhi)
    ensures SpansIn(a + b, ylo, yhi, xlo, xhi)
  {
    forall i | 0 <= i < |a + b|
      ensures ylo <= (a + b)[i].row <= yhi && (a + b)[i].InColumns(xlo, xhi)
    {
      if i >= |a| {
        assert (a + b)[i] == b[i - |a|];
      }
    }
  }

  /** A box's spans lie in any box holding it. */
  lemma SpansInWider(a: seq<Span>, ylo: int, yhi: int, xlo: int, xhi: int, ylo': int, yhi': int, xlo': int, xhi': int)
    requires SpansIn(a, ylo, yhi, xlo, xhi)
    requires ylo' <= ylo && yhi <= yhi' && xlo' <= xlo && xhi <= xhi'
    ensures SpansIn(a, ylo', yhi', xlo', xhi')
  {
  }

  /**
   * One pass of drawpoly's outer loop: set up edge 1 from (xs1, ys) to
   * (xe1, ye1) and edge 2 from (xs2, ys) to (xe2, ye2), and scan them
   * until one is finished. The walkers come back on the same row, one
   * row below each fill; when neither edge starts at its own end, at
   * least one row is filled.
   */
  method ScanPass(screen: array<Byte>, c: Byte, xs1: int, ys: int, xe1: int, ye1: int, xs2: int, xe2: int, ye2: int,
                  ghost xlo: int, ghost xhi: int)
    returns (w1: EdgeWalker, w2: EdgeWalker, ghost fills: seq<Span>, ghost spans: seq<Span>)
    requires xlo <= xs1 <= xhi && xlo <= xe1 <= xhi && xlo <= xs2 <= xhi && xlo <= xe2 <= xhi
    modifies screen
    ensures w1.count == 0 || w2.count == 0
    ensures w1.y == w2.y == ys + |fills|
    ensures Between(w1.x, xs1, xe1) && Between(w2.x, xs2, xe2)
    ensures screen[..] == Paint(old(screen[..]), spans, c)
    ensures SpansIn(spans, ys, ys + |fills| - 1, xlo, xhi)
    ensures forall i :: 0 <= i < |fills| ==> fills[i].row == ys + i && fills[i] in spans
    ensures (xs1 != xe1 || ys != ye1) && (xs2 != xe2 || ys != ye2) ==> |fills| > 0
  {
    w1 := StartEdge(xs1, ys, xe1, ye1);
    w2 := StartEdge(xs2, ys, xe2, ye2);
    w1, w2, fills, spans := ScanEdges(screen, c, w1, w2, xe1, xe2, xlo, xhi);
  }

  /** Two corners at different points of the screen. */
  predicate Apart(a: ClipVertex, b: ClipVertex)
  {
    a.x != b.x || a.y != b.y
  }

  /**
   * drawpoly: fills the polygon, walking its outline from the top vertex
   * along both sides. The buffer ends up painted with the polygon's colour
   * over the spans written, which include one fill per scanline from the
   * top vertex's row down. Every span lies on those rows and in any columns
   * xlo..xhi that hold all the corners. When both corners next to the top
   * are apart from it, at least one row is filled. The outline walk ends:
   * every pass of the outer loop finishes an edge.
   */
  method DrawPolygon(clip: ClippedPolygon, screen: array<Byte>, ghost xlo: int, ghost xhi: int)
    returns (ghost top: int, ghost fills: seq<Span>, ghost spans: seq<Span>)
    requires clip.Valid() && 1 <= clip.numberOfVertices <= CLIP_CAPACITY
    requires forall v :: 0 <= v < clip.numberOfVertices ==> xlo <= clip.vertex[v].x <= xhi
    modifies screen
    ensures screen[..] == Paint(old(screen[..]), spans, ToByte(clip.color))
    ensures OnlyColour(old(screen[..]), screen[..], ToByte(clip.color))
    ensures 0 <= top < clip.numberOfVertices
    ensures forall v :: 0 <= v < clip.numberOfVertices ==> clip.vertex[top].y <= clip.vertex[v].y
    ensures forall i :: 0 <= i < |fills| ==> fills[i].row == clip.vertex[top].y + i && fills[i] in spans
    ensures SpansIn(spans, clip.vertex[top].y, clip.vertex[top].y + |fills| - 1, xlo, xhi)
    ensures (clip.numberOfVertices >= 2 &&
             Apart(clip.vertex[PrevVertex(top, clip.numberOfVertices)], clip.vertex[top]) &&
             Apart(clip.vertex[NextVertex(top, clip.numberOfVertices)], clip.vertex[top])) ==> |fills| >= 1
  {
    var n := clip.numberOfVertices;
    var c := ToByte(clip.color);
    var edgecount := n - 1;
    var firstvert := FindTop(clip);
    top := firstvert;
    fills, spans := [], [];
    PaintNone(screen[..], c);
    var startvert1, startvert2 := firstvert, firstvert;
    var xstart1, ystart1 := clip.vertex[startvert1].x, clip.vertex[startvert1].y;
    var xstart2, ystart2 := clip.vertex[startvert2].x, clip.vertex[startvert2].y;
    var endvert1 := PrevVertex(startvert1, n);
    var xend1, yend1 := clip.vertex[endvert1].x, clip.vertex[endvert1].y;
    var endvert2 := NextVertex(startvert2, n);
    var xend2, yend2 := clip.vertex[endvert2].x, clip.vertex[endvert2].y;
    ghost var ytop := clip.vertex[top].y;
    ghost var opens := n >= 2 && Apart(clip.vertex[PrevVertex(top, n)], clip.vertex[top]) &&
                       Apart(clip.vertex[NextVertex(top, n)], clip.vertex[top]);
    assert SpansIn(spans, ytop, ytop - 1, xlo, xhi);
    assert opens ==> (xstart1 != xend1 || ystart1 != yend1) && (xstart2 != xend2 || ystart2 != yend2);
    hide Paint; hide SpansIn; hide OnEdge; hide StartEdge; hide Apart; hide PrevVertex; hide NextVertex;
    while edgecount > 0
      invariant edgecount <= n - 1
      invariant 0 <= startvert1 < n && endvert1 == PrevVertex(startvert1, n)
      invariant 0 <= startvert2 < n && endvert2 == NextVertex(startvert2, n)
      invariant xend1 == clip.vertex[endvert1].x && yend1 == clip.vertex[endvert1].y
      invariant xend2 == clip.vertex[endvert2].x && yend2 == clip.vertex[endvert2].y
      invariant xlo <= xstart1 <= xhi && xlo <= xstart2 <= xhi
      invariant ystart1 == ystart2 == ytop + |fills|
      invariant edgecount == n - 1 ==> |fills| == 0
      invariant edgecount == n - 1 && opens ==> (xstart1 != xend1 || ystart1 != yend1) && (xstart2 != xend2 || ystart2 != yend2)
      invariant opens && edgecount < n - 1 ==> |fills| >= 1
      invariant screen[..] == Paint(old(screen[..]), spans, c)
      invariant SpansIn(spans, ytop, ytop + |fills| - 1, xlo, xhi)
      invariant forall i :: 0 <= i < |fills| ==> fills[i].row == ytop + i && fills[i] in spans
      decreases edgecount
    {
      var w1, w2;
      ghost var f, sp;
      w1, w2, f, sp := ScanPass(screen, c, xstart1, ystart1, xend1, yend1, xstart2, xend2, yend2, xlo, xhi);
      PaintConcat(old(screen[..]), spans, sp, c);
      FillsAppended(fills, f, spans, sp, ytop, xlo, xhi);
      fills, spans := fills + f, spans + sp;
      xstart1, ystart1, xstart2, ystart2 := w1.x, w1.y, w2.x, w2.y;
      if w1.count == 0 {
        edgecount := edgecount - 1;
        startvert1 := endvert1;
        endvert1 := PrevVertex(endvert1, n);
        xend1, yend1 := clip.vertex[endvert1].x, clip.vertex[endvert1].y;
      }
      if w2.count == 0 {
        edgecount := edgecount - 1;
        startvert2 := endvert2;
        endvert2 := NextVertex(endvert2, n);
        xend2, yend2 := clip.vertex[endvert2].x, clip.vertex[endvert2].y;
      }
    }
    PaintOnlyColour(old(screen[..]), spans, c);
  }

  /** The spans and fills of one more pass continue the rows of those before it. */
  lemma FillsAppended(fills: seq<Span>, f: seq<Span>, spans: seq<Span>, sp: seq<Span>, ytop: int, xlo: int, xhi: int)
    requires forall i :: 0 <= i < |fills| ==> fills[i].row == ytop + i && fills[i] in spans
    requires forall i :: 0 <= i < |f| ==> f[i].row == ytop + |fills| + i && f[i] in sp
    requires SpansIn(spans, ytop, ytop + |fills| - 1, xlo, xhi)
    requires SpansIn(sp, ytop + |fills|, ytop + |fills| + |f| - 1, xlo, xhi)
    ensures forall i :: 0 <= i < |fills + f| ==> (fills + f)[i].row == ytop + i && (fills + f)[i] in spans + sp
    ensures SpansIn(spans + sp, ytop, ytop + |fills + f| - 1, xlo, xhi)
  {
    SpansInWider(spans, ytop, ytop + |fills| - 1, xlo, xhi, ytop, ytop + |fills| + |f| - 1, xlo, xhi);
    SpansInWider(sp, ytop + |fills|, ytop + |fills| + |f| - 1, xlo, xhi, ytop, ytop + |fills| + |f| - 1, xlo, xhi);
    SpansInConcat(spans, sp, ytop, ytop + |fills| + |f| - 1, xlo, xhi);
    forall i | 0 <= i < |fills + f|
      ensures (fills + f)[i].row == ytop + i && (fills + f)[i] in spans + sp
    {
      if i < |fills| {
        assert (fills + f)[i] == fills[i];
      } else {
        assert (fills + f)[i] == f[i - |fills|];
      }
    }
  }
}
