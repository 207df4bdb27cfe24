/**
 * The printable side of batch generation: `generate_batch_qr_codes` and the
 * grid arithmetic of `create_a4_print_layout`. Sizes arrive in whole pixels;
 * the millimetre conversions before them are floating point and not part of
 * this model, nor is the QR rendering itself.
 */
module Layout {
  import opened Wrappers
  import opened Text

  /** A rendered code: the text it encodes and its pixel size. */
  datatype QrImage = QrImage(data: string, width: int, height: int)

  /** `generate_batch_qr_codes` (qr_utils.py:32-34): one image of `data` per step of `range(count)`. */
  function BatchQrCodes(data: string, width: int, height: int, count: int): (images: seq<QrImage>)
    ensures |images| == (if count > 0 then count else 0)
    ensures forall i :: 0 <= i < |images| ==> images[i] == QrImage(data, width, height)
  {
    if count <= 0 then [] else BatchQrCodes(data, width, height, count - 1) + [QrImage(data, width, height)]
  }

  /** The page and one code, in pixels: A4 size, code size, margin and spacing. */
  datatype Page = Page(width: int, height: int, qrWidth: int, qrHeight: int, margin: int, spacing: int)

  /** Python's `a // b`: the quotient rounded down, whatever the signs. */
  function FloorDiv(a: int, b: int): (q: int)
    requires b != 0
    ensures b > 0 ==> q * b <= a < q * b + b
    ensures b < 0 ==> q * b + b < a <= q * b
  {
    if b > 0 then a / b
    else
      var q := (-a) / (-b);
      assert q * (-b) <= -a < q * (-b) + (-b);
      q
  }

  datatype Grid = Grid(cols: int, rows: int)

  /** `max(1, (available + spacing) // (size + spacing))`; a zero divisor raises, which is `None` here. */
  function GridCount(available: int, spacing: int, size: int): (r: Option<int>)
    ensures r.None? <==> size + spacing == 0
    ensures r.Some? ==> r.value >= 1
  {
    if size + spacing == 0 then None
    else
      var q := FloorDiv(available + spacing, size + spacing);
      Some(if q > 1 then q else 1)
  }

  /** Columns and rows of the page (qr_utils.py:52-56). */
  function GridOf(p: Page): (r: Option<Grid>)
    ensures r.None? <==> p.qrWidth + p.spacing == 0 || p.qrHeight + p.spacing == 0
    ensures r.Some? ==> r.value.cols >= 1 && r.value.rows >= 1
  {
    var cols := GridCount(p.width - 2 * p.margin, p.spacing, p.qrWidth);
    var rows := GridCount(p.height - 2 * p.margin, p.spacing, p.qrHeight);
    if cols.None? || rows.None? then None else Some(Grid(cols.value, rows.value))
  }

  /** The top-left corner of image `i`: column `i % cols`, row `i // cols` (qr_utils.py:76-81). */
  function Position(p: Page, g: Grid, i: nat): (corner: (int, int))
    requires g.cols >= 1
  {
    (p.margin + (i % g.cols) * (p.qrWidth + p.spacing), p.margin + (i / g.cols) * (p.qrHeight + p.spacing))
  }

  /** One pasted image with its position and, when a font loaded, its label. */
  datatype Paste = Paste(index: nat, x: int, y: int, caption: Option<string>)

  function Label(i: nat): string {
    "QR #" + NatToString(i + 1)
  }

  function Header(n: nat): string {
    "QR Code Batch - " + NatToString(n) + " codes"
  }

  function PasteAt(p: Page, g: Grid, i: nat, hasFont: bool): Paste
    requires g.cols >= 1
  {
    var (x, y) := Position(p, g, i);
    Paste(i, x, y, if hasFont then Some(Label(i)) else None)
  }

  /** The pastes of the first `k` images, in order. */
  function PastesUpTo(p: Page, g: Grid, k: nat, hasFont: bool): seq<Paste>
    requires g.cols >= 1
  {
    seq(k, i requires 0 <= i < k => PasteAt(p, g, i, hasFont))
  }

  /** `cols * rows` images fit; the rest are dropped (qr_utils.py:72-74). */
  function Capacity(g: Grid): int {
    g.cols * g.rows
  }

  function Placements(p: Page, g: Grid, n: nat, hasFont: bool): seq<Paste>
    requires g.cols >= 1 && g.rows >= 1
  {
    PastesUpTo(p, g, if n < Capacity(g) then n else Capacity(g), hasFont)
  }

  /** The first `min(n, cols * rows)` images are placed, image `i` at its grid cell, and no other. */
  lemma PlacementsMeaning(p: Page, g: Grid, n: nat, hasFont: bool)
    requires g.cols >= 1 && g.rows >= 1
    ensures |Placements(p, g, n, hasFont)| == (if n < g.cols * g.rows then n else g.cols * g.rows)
    ensures forall k :: 0 <= k < |Placements(p, g, n, hasFont)| ==>
      && Placements(p, g, n, hasFont)[k].index == k
      && (Placements(p, g, n, hasFont)[k].x, Placements(p, g, n, hasFont)[k].y) == Position(p, g, k)
  {
    assert g.cols * g.rows >= 1 by { Positive(g.cols, g.rows); }
  }

  lemma Positive(a: int, b: int)
    requires a >= 1 && b >= 1
    ensures a * b >= 1
  {
  }

  lemma MulMono(a: int, b: int, d: int)
    requires a <= b && d >= 0
    ensures a * d <= b * d
  {
    assert b * d - a * d == (b - a) * d;
  }

  /** `i` is `cols` times its row plus its column. */
  lemma DivMod(i: nat, cols: int)
    requires cols >= 1
    ensures i == (i / cols) * cols + i % cols && 0 <= i % cols < cols && i / cols >= 0
  {
  }

  /** On a page without a zero divisor no two images share a position, placed or not. */
  lemma PositionsDistinct(p: Page, g: Grid, i: nat, j: nat)
    requires GridOf(p) == Some(g)
    requires i != j
    ensures Position(p, g, i) != Position(p, g, j)
  {
    var dx, dy := p.qrWidth + p.spacing, p.qrHeight + p.spacing;
    assert dx != 0 && dy != 0;
    var ci, cj, ri, rj := i % g.cols, j % g.cols, i / g.cols, j / g.cols;
    DivMod(i, g.cols);
    DivMod(j, g.cols);
    if Position(p, g, i) == Position(p, g, j) {
      MulCancel(ci, cj, dx);
      MulCancel(ri, rj, dy);
    }
  }

  lemma MulCancel(a: int, b: int, d: int)
    requires d != 0 && a * d == b * d
    ensures a == b
  {
    assert (a - b) * d == 0;
  }

  /** A placed image's row is below `rows`. */
  lemma PlacedRow(i: nat, g: Grid)
    requires g.cols >= 1 && g.rows >= 1 && i < g.cols * g.rows
    ensures i / g.cols < g.rows
  {
    DivMod(i, g.cols);
    if i / g.cols >= g.rows {
      MulMono(g.rows, i / g.cols, g.cols);
    }
  }

  /**
   * One axis of the margin bound: when at least one code fits across the
   * available span, cell `c < count` ends inside the far margin.
   */
  lemma CellInside(extent: int, margin: int, size: int, spacing: int, count: int, c: int)
    requires size + spacing > 0
    requires FloorDiv(extent - 2 * margin + spacing, size + spacing) >= 1
    requires GridCount(extent - 2 * margin, spacing, size) == Some(count)
    requires 0 <= c < count
    ensures margin <= margin + c * (size + spacing)
    ensures margin + c * (size + spacing) + size <= extent - margin
  {
    var d := size + spacing;
    var q := FloorDiv(extent - 2 * margin + spacing, d);
    assert count == q;
    MulMono(0, c, d);
    MulMono(c, q - 1, d);
    assert (q - 1) * d == q * d - d;
  }

  /**
   * A placed image starts inside the margins, and when at least one code
   * fits across (or down) the page it also ends inside the far margin
   * (qr_utils.py:52-56, qr_utils.py:80-81).
   */
  lemma PlacedInsideMargins(p: Page, g: Grid, i: nat)
    requires GridOf(p) == Some(g)
    requires p.qrWidth + p.spacing > 0 && p.qrHeight + p.spacing > 0
    requires i < Capacity(g)
    ensures Position(p, g, i).0 >= p.margin && Position(p, g, i).1 >= p.margin
    ensures FloorDiv(p.width - 2 * p.margin + p.spacing, p.qrWidth + p.spacing) >= 1 ==>
      Position(p, g, i).0 + p.qrWidth <= p.width - p.margin
    ensures FloorDiv(p.height - 2 * p.margin + p.spacing, p.qrHeight + p.spacing) >= 1 ==>
      Position(p, g, i).1 + p.qrHeight <= p.height - p.margin
  {
    DivMod(i, g.cols);
    PlacedRow(i, g);
    MulMono(0, i % g.cols, p.qrWidth + p.spacing);
    MulMono(0, i / g.cols, p.qrHeight + p.spacing);
    if FloorDiv(p.width - 2 * p.margin + p.spacing, p.qrWidth + p.spacing) >= 1 {
      CellInside(p.width, p.margin, p.qrWidth, p.spacing, g.cols, i % g.cols);
    }
    if FloorDiv(p.height - 2 * p.margin + p.spacing, p.qrHeight + p.spacing) >= 1 {
      CellInside(p.height, p.margin, p.qrHeight, p.spacing, g.rows, i / g.cols);
    }
  }

  /** The white A4 canvas the codes are pasted onto, with what has been drawn on it. */
  class Canvas {
    var width: int
    var height: int
    var pastes: seq<Paste>
    var header: Option<string>

    constructor (width: int, height: int)
      ensures this.width == width && this.height == height
      ensures pastes == [] && header == None
    {
      this.width := width;
      this.height := height;
      pastes := [];
      header := None;
    }

    method Draw(paste: Paste)
      modifies this
      ensures pastes == old(pastes) + [paste]
      ensures width == old(width) && height == old(height) && header == old(header)
    {
      pastes := pastes + [paste];
    }

    method DrawHeader(text: string)
      modifies this
      ensures header == Some(text)
      ensures width == old(width) && height == old(height) && pastes == old(pastes)
    {
      header := Some(text);
    }
  }

  /** The loop of qr_utils.py:72-93: paste image after image until the grid is full. */
  method PlaceImages(canvas: Canvas, p: Page, g: Grid, n: nat, hasFont: bool)
    requires g.cols >= 1 && g.rows >= 1
    modifies canvas
    ensures canvas.pastes == old(canvas.pastes) + Placements(p, g, n, hasFont)
    ensures canvas.width == old(canvas.width) && canvas.height == old(canvas.height)
    ensures canvas.header == old(canvas.header)
  {
    Positive(g.cols, g.rows);
    var i := 0;
    while i < n
      invariant 0 <= i <= n && i <= g.cols * g.rows
      invariant canvas.pastes == old(canvas.pastes) + PastesUpTo(p, g, i, hasFont)
      invariant canvas.width == old(canvas.width) && canvas.height == old(canvas.height)
      invariant canvas.header == old(canvas.header)
    {
      if i >= g.cols * g.rows {
        break;
      }
      var row := i / g.cols;
      var col := i % g.cols;
      var x := p.margin + col * (p.qrWidth + p.spacing);
      var y := p.margin + row * (p.qrHeight + p.spacing);
      var caption := if hasFont then Some(Label(i)) else None;
      assert Paste(i, x, y, caption) == PasteAt(p, g, i, hasFont);
      canvas.Draw(Paste(i, x, y, caption));
      assert PastesUpTo(p, g, i + 1, hasFont) == PastesUpTo(p, g, i, hasFont) + [PasteAt(p, g, i, hasFont)];
      i := i + 1;
    }
  }

  /**
   * `create_a4_print_layout` (qr_utils.py:37-103): the grid first (a zero
   * divisor raises before any canvas exists), then a page-sized canvas with
   * the placed codes and, when a font loaded, the header naming all `n`.
   */
  method CreatePrintLayout(p: Page, n: nat, hasFont: bool) returns (r: Option<Canvas>)
    ensures r.None? <==> GridOf(p).None?
    ensures r.Some? ==>
      && fresh(r.value)
      && r.value.width == p.width && r.value.height == p.height
      && r.value.pastes == Placements(p, GridOf(p).value, n, hasFont)
      && r.value.header == (if hasFont then Some(Header(n)) else None)
  {
    var grid := GridOf(p);
    if grid.None? {
      return None;
    }
    var canvas := new Canvas(p.width, p.height);
    PlaceImages(canvas, p, grid.value, n, hasFont);
    if hasFont {
      canvas.DrawHeader(Header(n));
    }
    r := Some(canvas);
  }
}
