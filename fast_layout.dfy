/**
 * What each block of the Fast generator draws, as functions over a pure layout
 * state: the page count, the cursor `yPos`, the font in effect and the drawing
 * operations issued so far. `FastGenerator` implements each function as a method
 * of the generator object; the lemmas here are about the functions.
 */
module FastLayout {
  import opened Basics
  import opened Canvas
  import opened Document
  import opened FastCompose

  /** What stays fixed while a document is laid out: the library's metrics and the
      page size it reports. */
  datatype Setup = Setup(metrics: Metrics, pw: real, ph: real)

  datatype State = State(pages: nat, y: real, font: Font, ops: seq<Op>)

  /** `lineHeight`: how far `addText` moves down after each line. */
  const LineHeight: real := 6.0

  /** What `checkPageBreak` asks for when called without an argument. */
  const DefaultNeed: real := 20.0

  /** The lowest point `checkPageBreak` lets content reach. */
  function Bottom(S: Setup): real {
    S.ph - 30.0
  }

  /** `checkPageBreak(need)`: a new page, with the cursor back at the margin, when
      the space asked for passes the bottom. The font is left as it is. */
  function Break(S: Setup, s: State, need: real): State {
    if s.y + need > Bottom(S) then State(s.pages + 1, Margin, s.font, s.ops) else s
  }

  // ---------------------------------------------------------------------------
  // Text

  /** The flow of `addText`'s lines: before each line the default check, after it
      one line height down; a line is placed by its alignment between the margins. */
  function TextFlow(S: Setup, f: Font, align: Align): Flow {
    Flow(DefaultNeed, Bottom(S), Margin, LineHeight, align, S.pw, Margin, S.metrics, f)
  }

  /** The width `addText` wraps to: the page less both margins. */
  function TextWidth(S: Setup): real {
    S.pw - 2.0 * Margin
  }

  /** `addText(text, { fontSize, fontStyle, align })`: nothing for an empty text;
      otherwise one check, the font, and the wrapped lines, each with a check of
      its own. */
  function AddTextS(S: Setup, s: State, text: string, size: real, style: Style, align: Align): State {
    if text == "" then s
    else
      var s1 := Break(S, s, DefaultNeed);
      var f := Font(size, style);
      var r := FlowLines(TextFlow(S, f, align), S.metrics.split(f, text, TextWidth(S)), Cursor(s1.pages, s1.y));
      State(r.1.page, r.1.y, f, s1.ops + r.0)
  }

  // ---------------------------------------------------------------------------
  // Tables

  const RowHeight: real := 8.0

  function ColWidth(S: Setup, n: nat): real
    requires n > 0
  {
    TextWidth(S) / n as real
  }

  /** The left edge of column i (and, for i = n, the right edge of the table). */
  function ColumnX(S: Setup, n: nat, i: nat): real
    requires n > 0
  {
    Margin + i as real * ColWidth(S, n)
  }

  /** Where the text of column i starts: 2 inside its left edge. */
  function CellX(S: Setup, n: nat, i: nat): real
    requires n > 0
  {
    ColumnX(S, n, i) + 2.0
  }

  /** The baseline of the texts of a row whose top is y. */
  function CellY(y: real): real {
    y + RowHeight / 2.0 + 2.0
  }

  /** The widest a cell text may be: its column less 2 on either side. */
  function CellMax(S: Setup, n: nat): real
    requires n > 0
  {
    ColWidth(S, n) - 4.0
  }

  /** The loop of `addTable` that drops the last character of a cell while it is
      wider than the limit and not yet empty. */
  function Cut(m: Metrics, f: Font, s: string, max: real): string
    decreases |s|
  {
    if m.width(f, s) > max && |s| > 0 then Cut(m, f, s[..|s| - 1], max) else s
  }

  /** The header texts hs, in bold, the one at index c in column c. */
  function HeaderTexts(S: Setup, n: nat, fs: real, p: nat, hs: seq<string>, ty: real): seq<Op>
    requires n > 0
    decreases |hs|
  {
    if hs == [] then []
    else HeaderTexts(S, n, fs, p, hs[..|hs| - 1], ty) + [TextOp(p, CellX(S, n, |hs| - 1), ty, hs[|hs| - 1], Left, Font(fs, Bold))]
  }

  /** What a cell shows: the cell cut to its column in the body font. */
  function CellText(S: Setup, n: nat, fs: real, cell: string): string
    requires n > 0
  {
    Cut(S.metrics, Font(fs, Normal), cell, CellMax(S, n))
  }

  /** The cells of one body row, the one at index c in column c. */
  function RowCells(S: Setup, n: nat, fs: real, p: nat, cells: seq<string>, ty: real): seq<Op>
    requires n > 0
    decreases |cells|
  {
    if cells == [] then []
    else RowCells(S, n, fs, p, cells[..|cells| - 1], ty) + [TextOp(p, CellX(S, n, |cells| - 1), ty, CellText(S, n, fs, cells[|cells| - 1]), Left, Font(fs, Normal))]
  }

  /** The top of body row r of a table whose header starts at y0: the loop adds one
      row height per row drawn. */
  function RowTop(y0: real, r: nat): real {
    Steps(y0, r + 1, RowHeight)
  }

  /** Even rows are white, odd rows light grey. */
  function Stripe(r: nat): Rgb {
    if r % 2 == 0 then White else LightGray
  }

  function RowRect(S: Setup, p: nat, y0: real, r: nat): Op {
    RectOp(p, Margin, RowTop(y0, r), TextWidth(S), RowHeight, Some(Stripe(r)))
  }

  /** The body rows from the first up to (not including) row k. */
  function BodyOps(S: Setup, n: nat, fs: real, p: nat, y0: real, rows: seq<seq<string>>, k: nat): seq<Op>
    requires n > 0 && k <= |rows|
  {
    if k == 0 then []
    else
      BodyOps(S, n, fs, p, y0, rows, k - 1) + [RowRect(S, p, y0, k - 1)] +
      RowCells(S, n, fs, p, rows[k - 1], CellY(RowTop(y0, k - 1)))
  }

  /** The height of horizontal border i of a table of R body rows whose last row
      ends at yEnd. */
  function HLineY(yEnd: real, rowCount: nat, i: nat): real {
    yEnd - (rowCount + 1 - i) as real * RowHeight
  }

  /** The horizontal borders 0 .. k - 1, each across the table. */
  function HLines(S: Setup, p: nat, yEnd: real, rowCount: nat, k: nat): seq<Op> {
    if k == 0 then []
    else
      HLines(S, p, yEnd, rowCount, k - 1) +
      [LineOp(p, Margin, HLineY(yEnd, rowCount, k - 1), Margin + TextWidth(S), HLineY(yEnd, rowCount, k - 1))]
  }

  /** The vertical borders 0 .. k - 1, each from the top of the header to yEnd. */
  function VLines(S: Setup, n: nat, p: nat, yEnd: real, rowCount: nat, k: nat): seq<Op>
    requires n > 0
  {
    if k == 0 then []
    else
      VLines(S, n, p, yEnd, rowCount, k - 1) +
      [LineOp(p, ColumnX(S, n, k - 1), yEnd - (rowCount + 1) as real * RowHeight, ColumnX(S, n, k - 1), yEnd)]
  }

  /** The header band and its texts, for a table whose top is y0. */
  function TableHeadOps(S: Setup, headers: seq<string>, fs: real, p: nat, y0: real): seq<Op>
    requires |headers| > 0
  {
    [RectOp(p, Margin, y0, TextWidth(S), RowHeight, Some(Primary))] +
    HeaderTexts(S, |headers|, fs, p, headers, CellY(y0))
  }

  /** The borders: R + 2 horizontal lines and N + 1 vertical ones. */
  function BorderOps(S: Setup, n: nat, p: nat, yEnd: real, rowCount: nat): seq<Op>
    requires n > 0
  {
    HLines(S, p, yEnd, rowCount, rowCount + 2) + VLines(S, n, p, yEnd, rowCount, n + 1)
  }

  /** Everything `addTable` draws for a table whose top is y0 on page p. */
  function TableOps(S: Setup, headers: seq<string>, rows: seq<seq<string>>, fs: real, p: nat, y0: real): seq<Op>
    requires |headers| > 0
  {
    TableHeadOps(S, headers, fs, p, y0) +
    BodyOps(S, |headers|, fs, p, y0, rows, |rows|) +
    BorderOps(S, |headers|, p, RowTop(y0, |rows|), |rows|)
  }

  /** `addTable(headers, rows, fontSize)`: one check for room for the header, every
      row and one row more, then the whole table on one page and 10 below it. */
  function AddTableS(S: Setup, s: State, headers: seq<string>, rows: seq<seq<string>>, fs: real): State
    requires |headers| > 0
  {
    var s1 := Break(S, s, RowHeight * (|rows| + 2) as real);
    State(s1.pages, RowTop(s1.y, |rows|) + 10.0, Font(fs, Normal), s1.ops + TableOps(S, headers, rows, fs, s1.pages, s1.y))
  }

  // ---------------------------------------------------------------------------
  // The other blocks

  /** `addLine`: a line across the text width at the cursor, then 5 down. */
  function LineS(S: Setup, s: State): State {
    State(s.pages, s.y + 5.0, s.font, s.ops + [LineOp(s.pages, Margin, s.y, S.pw - Margin, s.y)])
  }

  /** `addLogo`: the image 40 by 25 at the cursor and 35 down, or nothing at all when
      the library rejects the image (the exception is caught). */
  function LogoS(s: State, logoLoads: bool): State {
    if logoLoads then State(s.pages, s.y + 35.0, s.font, s.ops + [ImageOp(s.pages, Margin, s.y, 40.0, 25.0)])
    else s
  }

  /** The filled box behind the notice of an electronic signature. */
  function BoxS(S: Setup, s: State): State {
    s.(ops := s.ops + [BoxOp(S, s.pages, s.y)])
  }

  function BoxOp(S: Setup, p: nat, y: real): Op {
    RectOp(p, Margin + 10.0, y, S.pw - 2.0 * Margin - 20.0, 20.0, Some(Primary))
  }

  const SignatureFont := Font(10.0, Normal)

  /** A name or a position under a signature line, drawn only when it is set. */
  function Signed(p: nat, text: string, x: real, y: real): seq<Op> {
    if text != "" then [TextOp(p, x, y, text, Left, SignatureFont)] else []
  }

  /** The left end of the left signature line and of the texts under it. */
  function LeftX(): real {
    Margin + 20.0
  }

  /** The left end of the right signature line and of the texts under it. */
  function RightX(S: Setup): real {
    S.pw / 2.0 + 20.0
  }

  function SignatureLines(S: Setup, p: nat, y: real): seq<Op> {
    var colWidth := (S.pw - 2.0 * Margin) / 2.0;
    [LineOp(p, LeftX(), y, Margin + colWidth - 20.0, y), LineOp(p, RightX(S), y, S.pw - Margin - 20.0, y)]
  }

  /** The two signature lines at y; the names 10 below them and the positions 5
      lower, each under its line. */
  function SignatureOps(S: Setup, p: nat, y: real, left: Representative, right: Representative): seq<Op> {
    SignatureLines(S, p, y) +
    Signed(p, left.name, LeftX(), y + 10.0) + Signed(p, right.name, RightX(S), y + 10.0) +
    Signed(p, left.position, LeftX(), y + 15.0) + Signed(p, right.position, RightX(S), y + 15.0)
  }

  /** The signature operations appended to `ops` in the order they are drawn: the
      lines, then the names, then the positions. */
  lemma SignatureOpsSplit(S: Setup, ops: seq<Op>, p: nat, y: real, left: Representative, right: Representative)
    ensures ops + SignatureOps(S, p, y, left, right) ==
      ops + SignatureLines(S, p, y) +
      Signed(p, left.name, LeftX(), y + 10.0) + Signed(p, right.name, RightX(S), y + 10.0) +
      Signed(p, left.position, LeftX(), y + 15.0) + Signed(p, right.position, RightX(S), y + 15.0)
  {
  }

  function SignaturesS(S: Setup, s: State, left: Representative, right: Representative): State {
    State(s.pages, s.y + 15.0, SignatureFont, s.ops + SignatureOps(S, s.pages, s.y, left, right))
  }

  // ---------------------------------------------------------------------------
  // Running the blocks

  /** One block; `logoLoads` says whether the library accepts the act's logo. */
  function ExecS(S: Setup, s: State, b: Block, logoLoads: bool): State
    requires b.TableBlock? ==> |b.headers| > 0
  {
    match b
    case TextBlock(text, size, style, align) => AddTextS(S, s, text, size, style, align)
    case TableBlock(headers, rows, fontSize) => AddTableS(S, s, headers, rows, fontSize)
    case LineBlock => LineS(S, s)
    case SpaceBlock(dy) => s.(y := s.y + dy)
    case MoveBlock(y) => s.(y := y)
    case BreakBlock(need) => Break(S, s, need)
    case LogoBlock => LogoS(s, logoLoads)
    case BoxBlock => BoxS(S, s)
    case SignatureBlock(left, right) => SignaturesS(S, s, left, right)
  }

  function RunS(S: Setup, s: State, bs: seq<Block>, logoLoads: bool): State
    requires TablesHaveColumns(bs)
    decreases |bs|
  {
    if bs == [] then s
    else
      assert forall b :: b in bs[..|bs| - 1] ==> b in bs;
      ExecS(S, RunS(S, s, bs[..|bs| - 1], logoLoads), bs[|bs| - 1], logoLoads)
  }

  /** A fresh generator: one page, the cursor at the margin, the library's font. */
  function Start(): State {
    State(1, Margin, DefaultFont, [])
  }

  /** Every block of the act, from state s. */
  function FastRun(S: Setup, s: State, d: DocumentData, signedAt: string, generatedAt: string, logoLoads: bool): State {
    FastTablesHaveColumns(d, S.ph, signedAt, generatedAt);
    RunS(S, s, FastBlocks(d, S.ph, signedAt, generatedAt), logoLoads)
  }

  /** `generateFastPDF(data)`: a fresh generator runs every block of the act. */
  function FastGenerateS(S: Setup, d: DocumentData, signedAt: string, generatedAt: string, logoLoads: bool): State {
    FastRun(S, Start().(y := Margin), d, signedAt, generatedAt, logoLoads)
  }

  // ---------------------------------------------------------------------------
  // The page-break check

  /** `checkPageBreak` adds one page exactly when the space asked for passes 30
      above the bottom edge, and starts it at the margin; it draws nothing. */
  lemma BreakRule(S: Setup, s: State, need: real)
    ensures var r := Break(S, s, need);
      r.ops == s.ops && r.font == s.font &&
      (r.pages == s.pages + 1 <==> s.y + need > S.ph - 30.0) &&
      (r.pages == s.pages <==> s.y + need <= S.ph - 30.0) &&
      (r.pages != s.pages ==> r.y == 20.0) && (r.pages == s.pages ==> r.y == s.y)
  {
  }

  // ---------------------------------------------------------------------------
  // Text placement

  /** `addText` draws the wrapped lines of its text, in order, each as left-aligned
      text in the chosen font at the x its alignment gives; every line has the
      default space below it or opens a page, pages are used in order, and the
      cursor ends one line height below the last line. */
  lemma AddTextPlacement(S: Setup, s: State, text: string, size: real, style: Style, align: Align)
    requires text != ""
    ensures var r, f := AddTextS(S, s, text, size, style, align), Font(size, style);
      var lines := S.metrics.split(f, text, TextWidth(S));
      |s.ops| <= |r.ops| && r.ops[..|s.ops|] == s.ops && |r.ops| - |s.ops| == |lines| && r.font == f &&
      (forall k :: 0 <= k < |lines| ==>
        var op := r.ops[|s.ops| + k];
        op.TextOp? && op.text == lines[k] && op.align == Left && op.font == f &&
        op.x == AlignedX(align, S.pw, Margin, S.metrics.width(f, lines[k])) &&
        (op.y + DefaultNeed <= Bottom(S) || op.y == Margin) &&
        s.pages <= op.page <= r.pages) &&
      (lines != [] ==> r.ops[|r.ops| - 1].TextOp? && r.y == r.ops[|r.ops| - 1].y + LineHeight)
  {
    var s1, f := Break(S, s, DefaultNeed), Font(size, style);
    var lines := S.metrics.split(f, text, TextWidth(S));
    var c := Cursor(s1.pages, s1.y);
    var fl := FlowLines(TextFlow(S, f, align), lines, c);
    FlowPlacement(TextFlow(S, f, align), lines, c);
    var r := AddTextS(S, s, text, size, style, align);
    assert r.ops == s.ops + fl.0;
    forall k | 0 <= k < |lines| ensures r.ops[|s.ops| + k] == fl.0[k] {
    }
  }

  /** When the text fits below the cursor as it is, `addText` stays on the page and
      moves the cursor down one line height per line. */
  lemma AddTextWithoutBreaks(S: Setup, s: State, text: string, size: real, style: Style, align: Align)
    requires text != ""
    requires var lines := S.metrics.split(Font(size, style), text, TextWidth(S));
      s.y + |lines| as real * LineHeight + DefaultNeed <= Bottom(S)
    ensures var r, lines := AddTextS(S, s, text, size, style, align), S.metrics.split(Font(size, style), text, TextWidth(S));
      r.pages == s.pages && r.y == s.y + |lines| as real * LineHeight
  {
    var f := Font(size, style);
    var lines := S.metrics.split(f, text, TextWidth(S));
    StepsClosed(s.y, |lines|, LineHeight);
    assert Break(S, s, DefaultNeed) == s;
    FlowWithoutBreaks(TextFlow(S, f, align), lines, Cursor(s.pages, s.y));
  }

  // ---------------------------------------------------------------------------
  // Tables

  /** The cut keeps the longest prefix of the cell that fits the limit, or nothing
      when not even the first character fits. */
  lemma {:induction false} CutLongest(m: Metrics, f: Font, s: string, max: real)
    ensures var r := Cut(m, f, s, max);
      r <= s && (m.width(f, r) <= max || r == []) &&
      forall j :: |r| < j <= |s| ==> m.width(f, s[..j]) > max
    decreases |s|
  {
    if m.width(f, s) > max && |s| > 0 {
      var front := s[..|s| - 1];
      CutLongest(m, f, front, max);
      var r := Cut(m, f, front, max);
      forall j | |r| < j <= |s| ensures m.width(f, s[..j]) > max {
        if j < |s| {
          assert s[..j] == front[..j];
        } else {
          assert s[..j] == s;
        }
      }
    }
  }

  /** A cell that fits its column is shown whole. */
  lemma CutKeepsFitting(m: Metrics, f: Font, s: string, max: real)
    requires m.width(f, s) <= max
    ensures Cut(m, f, s, max) == s
  {
  }

  /** Header text c is drawn, unchanged and in bold, in column c. */
  lemma {:induction false} HeaderTextsShape(S: Setup, n: nat, fs: real, p: nat, hs: seq<string>, ty: real)
    requires n > 0
    ensures var ops := HeaderTexts(S, n, fs, p, hs, ty);
      |ops| == |hs| &&
      forall c :: 0 <= c < |hs| ==> ops[c] == TextOp(p, CellX(S, n, c), ty, hs[c], Left, Font(fs, Bold))
    decreases |hs|
  {
    if hs != [] {
      var k := |hs| - 1;
      HeaderTextsShape(S, n, fs, p, hs[..k], ty);
      forall c | 0 <= c < k ensures hs[c] == hs[..k][c] {
      }
    }
  }

  /** Cell c of a row is drawn, cut to its column, in column c. */
  lemma {:induction false} RowCellsShape(S: Setup, n: nat, fs: real, p: nat, cells: seq<string>, ty: real)
    requires n > 0
    ensures var ops := RowCells(S, n, fs, p, cells, ty);
      |ops| == |cells| &&
      forall c :: 0 <= c < |cells| ==> ops[c] == TextOp(p, CellX(S, n, c), ty, CellText(S, n, fs, cells[c]), Left, Font(fs, Normal))
    decreases |cells|
  {
    if cells != [] {
      var k := |cells| - 1;
      RowCellsShape(S, n, fs, p, cells[..k], ty);
      forall c | 0 <= c < k ensures cells[c] == cells[..k][c] {
      }
    }
  }

  /** Left-aligned texts on page p. */
  predicate TextsOn(ops: seq<Op>, p: nat) {
    forall op :: op in ops ==> op.TextOp? && op.page == p && op.align == Left
  }

  /** Lines on page p. */
  predicate LinesOn(ops: seq<Op>, p: nat) {
    forall op :: op in ops ==> op.LineOp? && op.page == p
  }

  lemma {:induction false} HeaderTextsOn(S: Setup, n: nat, fs: real, p: nat, hs: seq<string>, ty: real)
    requires n > 0
    ensures TextsOn(HeaderTexts(S, n, fs, p, hs, ty), p)
    decreases |hs|
  {
    if hs != [] {
      HeaderTextsOn(S, n, fs, p, hs[..|hs| - 1], ty);
    }
  }

  lemma {:induction false} RowCellsOn(S: Setup, n: nat, fs: real, p: nat, cells: seq<string>, ty: real)
    requires n > 0
    ensures TextsOn(RowCells(S, n, fs, p, cells, ty), p)
    decreases |cells|
  {
    if cells != [] {
      RowCellsOn(S, n, fs, p, cells[..|cells| - 1], ty);
    }
  }

  /** The body rows draw rectangles and left-aligned texts, all on page p. */
  lemma {:induction false} BodyOn(S: Setup, n: nat, fs: real, p: nat, y0: real, rows: seq<seq<string>>, k: nat)
    requires n > 0 && k <= |rows|
    ensures forall op :: op in BodyOps(S, n, fs, p, y0, rows, k) ==>
      op.page == p && (op.RectOp? || (op.TextOp? && op.align == Left))
  {
    if k > 0 {
      BodyOn(S, n, fs, p, y0, rows, k - 1);
      RowCellsOn(S, n, fs, p, rows[k - 1], CellY(RowTop(y0, k - 1)));
    }
  }

  lemma {:induction false} HLinesShape(S: Setup, p: nat, yEnd: real, rowCount: nat, k: nat)
    ensures var ls := HLines(S, p, yEnd, rowCount, k);
      |ls| == k && LinesOn(ls, p) &&
      forall i :: 0 <= i < k ==>
        ls[i] == LineOp(p, Margin, HLineY(yEnd, rowCount, i), Margin + TextWidth(S), HLineY(yEnd, rowCount, i))
  {
    if k > 0 {
      HLinesShape(S, p, yEnd, rowCount, k - 1);
    }
  }

  lemma {:induction false} VLinesShape(S: Setup, n: nat, p: nat, yEnd: real, rowCount: nat, k: nat)
    requires n > 0
    ensures var ls := VLines(S, n, p, yEnd, rowCount, k);
      |ls| == k && LinesOn(ls, p) &&
      forall i :: 0 <= i < k ==>
        ls[i] == LineOp(p, ColumnX(S, n, i), yEnd - (rowCount + 1) as real * RowHeight, ColumnX(S, n, i), yEnd)
  {
    if k > 0 {
      VLinesShape(S, n, p, yEnd, rowCount, k - 1);
    }
  }

  /** Everything a table draws is on the page it is drawn on, and its texts are
      left-aligned. */
  lemma TableOn(S: Setup, headers: seq<string>, rows: seq<seq<string>>, fs: real, p: nat, y0: real)
    requires |headers| > 0
    ensures DrawnOn(TableOps(S, headers, rows, fs, p, y0), p, p)
  {
    var n, yEnd := |headers|, RowTop(y0, |rows|);
    HeaderTextsOn(S, n, fs, p, headers, CellY(y0));
    BodyOn(S, n, fs, p, y0, rows, |rows|);
    HLinesShape(S, p, yEnd, |rows|, |rows| + 2);
    VLinesShape(S, n, p, yEnd, |rows|, n + 1);
  }

  /** Border i of a table whose top is y0 lies i row heights below y0. */
  lemma RowEdge(y0: real, rowCount: nat, i: nat)
    requires i <= rowCount + 1
    ensures HLineY(RowTop(y0, rowCount), rowCount, i) == y0 + i as real * RowHeight
  {
    StepsClosed(y0, rowCount + 1, RowHeight);
    assert (rowCount + 1 - i) as real == (rowCount + 1) as real - i as real;
  }

  /** The last column edge is the right margin. */
  lemma RightEdge(S: Setup, n: nat)
    requires n > 0
    ensures ColumnX(S, n, n) == S.pw - Margin && ColumnX(S, n, 0) == Margin
  {
    assert n as real * (TextWidth(S) / n as real) == TextWidth(S);
  }

  lemma TableLinesSplit(S: Setup, headers: seq<string>, rows: seq<seq<string>>, fs: real, p: nat, y0: real)
    requires |headers| > 0
    ensures Select(TableOps(S, headers, rows, fs, p, y0), Lines) == BorderOps(S, |headers|, p, RowTop(y0, |rows|), |rows|)
  {
    var n, yEnd := |headers|, RowTop(y0, |rows|);
    var head, body := TableHeadOps(S, headers, fs, p, y0), BodyOps(S, n, fs, p, y0, rows, |rows|);
    var borders := BorderOps(S, n, p, yEnd, |rows|);
    HeaderTextsOn(S, n, fs, p, headers, CellY(y0));
    BodyOn(S, n, fs, p, y0, rows, |rows|);
    HLinesShape(S, p, yEnd, |rows|, |rows| + 2);
    VLinesShape(S, n, p, yEnd, |rows|, n + 1);
    SelectNone(head, Lines);
    SelectNone(body, Lines);
    SelectAll(borders, Lines);
    SelectAppend(head, body, Lines);
    SelectAppend(head + body, borders, Lines);
  }

  /** The horizontal borders of a table of R rows whose top is y0: R + 2 lines
      across the full text width at y0, y0 + 8, ..., the bottom of the last row,
      that is at the top and the bottom of every row. */
  lemma HorizontalBorders(S: Setup, p: nat, y0: real, rowCount: nat)
    ensures var ls := HLines(S, p, RowTop(y0, rowCount), rowCount, rowCount + 2);
      |ls| == rowCount + 2 &&
      forall i :: 0 <= i < rowCount + 2 ==>
        ls[i] == LineOp(p, Margin, y0 + i as real * RowHeight, S.pw - Margin, y0 + i as real * RowHeight)
  {
    var yEnd := RowTop(y0, rowCount);
    HLinesShape(S, p, yEnd, rowCount, rowCount + 2);
    forall i | 0 <= i < rowCount + 2
      ensures HLineY(yEnd, rowCount, i) == y0 + i as real * RowHeight
    {
      RowEdge(y0, rowCount, i);
    }
  }

  /** The vertical borders of a table of N columns and R rows whose top is y0:
      N + 1 lines at the column edges, from the left margin to the right one, each
      from the top of the header to the bottom of the last row. */
  lemma VerticalBorders(S: Setup, n: nat, p: nat, y0: real, rowCount: nat)
    requires n > 0
    ensures var ls := VLines(S, n, p, RowTop(y0, rowCount), rowCount, n + 1);
      |ls| == n + 1 &&
      (forall i :: 0 <= i <= n ==>
        ls[i] == LineOp(p, ColumnX(S, n, i), y0, ColumnX(S, n, i), y0 + (rowCount + 1) as real * RowHeight)) &&
      ColumnX(S, n, 0) == Margin && ColumnX(S, n, n) == S.pw - Margin
  {
    VLinesShape(S, n, p, RowTop(y0, rowCount), rowCount, n + 1);
    StepsClosed(y0, rowCount + 1, RowHeight);
    RightEdge(S, n);
  }

  lemma BodyRectsStep(S: Setup, n: nat, fs: real, p: nat, y0: real, rows: seq<seq<string>>, k: nat)
    requires n > 0 && 0 < k <= |rows|
    ensures Select(BodyOps(S, n, fs, p, y0, rows, k), Rects) ==
      Select(BodyOps(S, n, fs, p, y0, rows, k - 1), Rects) + [RowRect(S, p, y0, k - 1)]
  {
    var prev, rect := BodyOps(S, n, fs, p, y0, rows, k - 1), RowRect(S, p, y0, k - 1);
    var cells := RowCells(S, n, fs, p, rows[k - 1], CellY(RowTop(y0, k - 1)));
    RowCellsOn(S, n, fs, p, rows[k - 1], CellY(RowTop(y0, k - 1)));
    SelectNone(cells, Rects);
    SelectAppend(prev + [rect], cells, Rects);
    SelectSnoc(prev, rect, Rects);
  }

  /** The rectangles of the body rows, one per row and in order. */
  lemma {:induction false} BodyRects(S: Setup, n: nat, fs: real, p: nat, y0: real, rows: seq<seq<string>>, k: nat)
    requires n > 0 && k <= |rows|
    ensures var rs := Select(BodyOps(S, n, fs, p, y0, rows, k), Rects);
      |rs| == k && forall r :: 0 <= r < k ==> rs[r] == RowRect(S, p, y0, r)
  {
    if k > 0 {
      BodyRects(S, n, fs, p, y0, rows, k - 1);
      BodyRectsStep(S, n, fs, p, y0, rows, k);
      RowRectsSnoc(S, p, y0, Select(BodyOps(S, n, fs, p, y0, rows, k - 1), Rects), k);
    }
  }

  lemma RowRectsSnoc(S: Setup, p: nat, y0: real, front: seq<Op>, k: nat)
    requires k > 0 && |front| == k - 1
    requires forall r :: 0 <= r < k - 1 ==> front[r] == RowRect(S, p, y0, r)
    ensures var rs := front + [RowRect(S, p, y0, k - 1)];
      forall r :: 0 <= r < k ==> rs[r] == RowRect(S, p, y0, r)
  {
  }

  lemma TableRectsSplit(S: Setup, headers: seq<string>, rows: seq<seq<string>>, fs: real, p: nat, y0: real)
    requires |headers| > 0
    ensures Select(TableOps(S, headers, rows, fs, p, y0), Rects) ==
      [RectOp(p, Margin, y0, TextWidth(S), RowHeight, Some(Primary))] + Select(BodyOps(S, |headers|, fs, p, y0, rows, |rows|), Rects)
  {
    var n, yEnd := |headers|, RowTop(y0, |rows|);
    var band := RectOp(p, Margin, y0, TextWidth(S), RowHeight, Some(Primary));
    var ht := HeaderTexts(S, n, fs, p, headers, CellY(y0));
    var body, borders := BodyOps(S, n, fs, p, y0, rows, |rows|), BorderOps(S, n, p, yEnd, |rows|);
    HeaderTextsOn(S, n, fs, p, headers, CellY(y0));
    HLinesShape(S, p, yEnd, |rows|, |rows| + 2);
    VLinesShape(S, n, p, yEnd, |rows|, n + 1);
    SelectNone(borders, Rects);
    SelectAppend(body, borders, Rects);
    assert TableOps(S, headers, rows, fs, p, y0) == [band] + ht + (body + borders);
    SelectFront(band, ht, body + borders, Rects);
  }

  /** The rectangles of a table whose top is y0: the header band filled with the
      primary colour, then one band per row, 8 apart, white and light grey in turn
      starting with white. */
  lemma TableRects(S: Setup, headers: seq<string>, rows: seq<seq<string>>, fs: real, p: nat, y0: real)
    requires |headers| > 0
    ensures var rs := Select(TableOps(S, headers, rows, fs, p, y0), Rects);
      |rs| == |rows| + 1 &&
      rs[0] == RectOp(p, Margin, y0, TextWidth(S), RowHeight, Some(Primary)) &&
      forall r :: 0 <= r < |rows| ==>
        rs[r + 1] == RectOp(p, Margin, y0 + (r + 1) as real * RowHeight, TextWidth(S), RowHeight,
                            Some(if r % 2 == 0 then White else LightGray))
  {
    TableRectsSplit(S, headers, rows, fs, p, y0);
    BodyRects(S, |headers|, fs, p, y0, rows, |rows|);
    var rs, body := Select(TableOps(S, headers, rows, fs, p, y0), Rects), Select(BodyOps(S, |headers|, fs, p, y0, rows, |rows|), Rects);
    forall r | 0 <= r < |rows|
      ensures rs[r + 1] == RectOp(p, Margin, y0 + (r + 1) as real * RowHeight, TextWidth(S), RowHeight,
                                  Some(if r % 2 == 0 then White else LightGray))
    {
      RowRectAt(S, p, y0, r);
      assert rs[r + 1] == body[r];
    }
  }

  lemma RowRectAt(S: Setup, p: nat, y0: real, r: nat)
    ensures RowRect(S, p, y0, r) == RectOp(p, Margin, y0 + (r + 1) as real * RowHeight, TextWidth(S), RowHeight,
                                           Some(if r % 2 == 0 then White else LightGray))
  {
    StepsClosed(y0, r + 1, RowHeight);
  }

  /** A table asks for room for its header, every row and one row more: it starts
      at the cursor when that room is there and at the top of a new page otherwise;
      all of it is drawn on that one page, and the cursor ends 10 below its last
      row, in the body font. */
  lemma TablePlacement(S: Setup, s: State, headers: seq<string>, rows: seq<seq<string>>, fs: real)
    requires |headers| > 0
    ensures var r, fits := AddTableS(S, s, headers, rows, fs), s.y + RowHeight * (|rows| + 2) as real <= Bottom(S);
      var y0 := if fits then s.y else Margin;
      |s.ops| <= |r.ops| && r.ops[..|s.ops|] == s.ops &&
      r.ops[|s.ops|..] == TableOps(S, headers, rows, fs, r.pages, y0) &&
      r.pages == (if fits then s.pages else s.pages + 1) &&
      r.y == y0 + (|rows| + 1) as real * RowHeight + 10.0 && r.font == Font(fs, Normal)
  {
    var r, s1 := AddTableS(S, s, headers, rows, fs), Break(S, s, RowHeight * (|rows| + 2) as real);
    assert r.ops == s.ops + TableOps(S, headers, rows, fs, r.pages, s1.y);
    StepsClosed(s1.y, |rows| + 1, RowHeight);
  }

  // ---------------------------------------------------------------------------
  // The signatures and the box

  lemma SignedOps(p: nat, text: string, x: real, y: real)
    ensures var ops := Signed(p, text, x, y);
      (TextOp(p, x, y, text, Left, SignatureFont) in ops <==> text != "") &&
      forall op :: op in ops ==> op == TextOp(p, x, y, text, Left, SignatureFont) && text != ""
  {
  }

  /** The two signature lines are at the cursor and mirror each other about the
      middle of the page. */
  lemma SignatureLinesMirror(S: Setup, p: nat, y: real, left: Representative, right: Representative)
    ensures var ops := SignatureOps(S, p, y, left, right);
      |ops| >= 2 && ops[0].LineOp? && ops[1].LineOp? && ops[0].y1 == ops[0].y2 == ops[1].y1 == ops[1].y2 == y &&
      ops[0].x1 + ops[1].x2 == S.pw && ops[0].x2 + ops[1].x1 == S.pw
  {
    var ops := SignatureOps(S, p, y, left, right);
    assert ops[..2] == SignatureLines(S, p, y);
  }

  /** What the signature block draws: its two lines and the four optional texts. */
  lemma SignatureMembers(S: Setup, p: nat, y: real, left: Representative, right: Representative, op: Op)
    ensures op in SignatureOps(S, p, y, left, right) <==>
      op in SignatureLines(S, p, y) ||
      op in Signed(p, left.name, LeftX(), y + 10.0) || op in Signed(p, right.name, RightX(S), y + 10.0) ||
      op in Signed(p, left.position, LeftX(), y + 15.0) || op in Signed(p, right.position, RightX(S), y + 15.0)
  {
  }

  /** Each name and each position is drawn under its signature line exactly when it
      is set. */
  lemma SignatureTexts(S: Setup, p: nat, y: real, left: Representative, right: Representative)
    ensures var ops := SignatureOps(S, p, y, left, right);
      (TextOp(p, LeftX(), y + 10.0, left.name, Left, SignatureFont) in ops <==> left.name != "") &&
      (TextOp(p, RightX(S), y + 10.0, right.name, Left, SignatureFont) in ops <==> right.name != "") &&
      (TextOp(p, LeftX(), y + 15.0, left.position, Left, SignatureFont) in ops <==> left.position != "") &&
      (TextOp(p, RightX(S), y + 15.0, right.position, Left, SignatureFont) in ops <==> right.position != "")
  {
    var t1 := TextOp(p, LeftX(), y + 10.0, left.name, Left, SignatureFont);
    var t2 := TextOp(p, RightX(S), y + 10.0, right.name, Left, SignatureFont);
    var t3 := TextOp(p, LeftX(), y + 15.0, left.position, Left, SignatureFont);
    var t4 := TextOp(p, RightX(S), y + 15.0, right.position, Left, SignatureFont);
    SignatureMembers(S, p, y, left, right, t1);
    SignatureMembers(S, p, y, left, right, t2);
    SignatureMembers(S, p, y, left, right, t3);
    SignatureMembers(S, p, y, left, right, t4);
  }

  /** The signature block draws no empty text, and all its texts in the 10-point
      normal font. */
  lemma SignatureNoEmptyText(S: Setup, p: nat, y: real, left: Representative, right: Representative)
    ensures forall op :: op in SignatureOps(S, p, y, left, right) && op.TextOp? ==> op.text != "" && op.font == SignatureFont
  {
    forall op | op in SignatureOps(S, p, y, left, right) && op.TextOp?
      ensures op.text != "" && op.font == SignatureFont
    {
      SignatureMembers(S, p, y, left, right, op);
    }
  }

  /** The box under the notice of an electronic signature is centred on the page. */
  lemma BoxCentred(S: Setup, p: nat, y: real)
    ensures var b := BoxOp(S, p, y);
      b.RectOp? && b.x + b.w / 2.0 == S.pw / 2.0 && b.y == y && b.fill == Some(Primary)
  {
  }

  // ---------------------------------------------------------------------------
  // What every run keeps

  /** Every operation drawn so far is on an existing page, and every text is
      left-aligned: the Fast generator computes the x of each line itself and never
      hands an alignment to the library. */
  predicate Good(s: State) {
    s.pages >= 1 && DrawnOn(s.ops, 1, s.pages)
  }

  /** Operations on pages lo .. hi whose texts are all left-aligned. */
  predicate DrawnOn(ops: seq<Op>, lo: nat, hi: nat) {
    forall op :: op in ops ==> lo <= op.page <= hi && (op.TextOp? ==> op.align == Left)
  }

  /** r carries on from s: no page is taken away and nothing drawn is changed. */
  predicate Extends(s: State, r: State) {
    s.pages <= r.pages && |s.ops| <= |r.ops| && r.ops[..|s.ops|] == s.ops
  }

  lemma AppendDrawn(s: State, extra: seq<Op>, p: nat, y: real, f: Font)
    requires Good(s) && s.pages <= p && DrawnOn(extra, 1, p)
    ensures Good(State(p, y, f, s.ops + extra)) && Extends(s, State(p, y, f, s.ops + extra))
  {
    assert (s.ops + extra)[..|s.ops|] == s.ops;
  }

  lemma AddTextGood(S: Setup, s: State, text: string, size: real, style: Style, align: Align)
    requires Good(s)
    ensures var r := AddTextS(S, s, text, size, style, align); Good(r) && Extends(s, r)
  {
    if text != "" {
      var s1, f := Break(S, s, DefaultNeed), Font(size, style);
      var lines := S.metrics.split(f, text, TextWidth(S));
      var c := Cursor(s1.pages, s1.y);
      var fl := FlowLines(TextFlow(S, f, align), lines, c);
      FlowPlacement(TextFlow(S, f, align), lines, c);
      forall op | op in fl.0 ensures 1 <= op.page <= fl.1.page && (op.TextOp? ==> op.align == Left) {
        var k :| 0 <= k < |fl.0| && fl.0[k] == op;
      }
      AppendDrawn(s, fl.0, fl.1.page, fl.1.y, f);
    }
  }

  lemma AddTableGood(S: Setup, s: State, headers: seq<string>, rows: seq<seq<string>>, fs: real)
    requires Good(s) && |headers| > 0
    ensures var r := AddTableS(S, s, headers, rows, fs); Good(r) && Extends(s, r)
  {
    var s1 := Break(S, s, RowHeight * (|rows| + 2) as real);
    TableOn(S, headers, rows, fs, s1.pages, s1.y);
    AppendDrawn(s, TableOps(S, headers, rows, fs, s1.pages, s1.y), s1.pages, RowTop(s1.y, |rows|) + 10.0, Font(fs, Normal));
  }

  lemma SignatureOn(S: Setup, p: nat, y: real, left: Representative, right: Representative)
    ensures DrawnOn(SignatureOps(S, p, y, left, right), p, p)
  {
    var a, b := Signed(p, left.name, LeftX(), y + 10.0), Signed(p, right.name, RightX(S), y + 10.0);
    var c, d := Signed(p, left.position, LeftX(), y + 15.0), Signed(p, right.position, RightX(S), y + 15.0);
    assert DrawnOn(a, p, p) && DrawnOn(b, p, p) && DrawnOn(c, p, p) && DrawnOn(d, p, p);
    assert SignatureOps(S, p, y, left, right) == SignatureLines(S, p, y) + a + b + c + d;
  }

  lemma SignaturesGood(S: Setup, s: State, left: Representative, right: Representative)
    requires Good(s)
    ensures var r := SignaturesS(S, s, left, right); Good(r) && Extends(s, r)
  {
    SignatureOn(S, s.pages, s.y, left, right);
    AppendDrawn(s, SignatureOps(S, s.pages, s.y, left, right), s.pages, s.y + 15.0, SignatureFont);
  }

  /** The blocks that draw at most one shape or only move the cursor. */
  lemma SimpleGood(S: Setup, s: State, b: Block, logoLoads: bool)
    requires Good(s) && (b.LineBlock? || b.SpaceBlock? || b.MoveBlock? || b.BreakBlock? || b.LogoBlock? || b.BoxBlock?)
    ensures var r := ExecS(S, s, b, logoLoads); Good(r) && Extends(s, r)
  {
    match b {
      case LineBlock => AppendDrawn(s, [LineOp(s.pages, Margin, s.y, S.pw - Margin, s.y)], s.pages, s.y + 5.0, s.font);
      case LogoBlock =>
        if logoLoads {
          AppendDrawn(s, [ImageOp(s.pages, Margin, s.y, 40.0, 25.0)], s.pages, s.y + 35.0, s.font);
        }
      case BoxBlock => AppendDrawn(s, [BoxOp(S, s.pages, s.y)], s.pages, s.y, s.font);
      case _ =>
    }
  }

  /** Every block keeps `Good`, and carries on from the state before it. */
  lemma ExecGood(S: Setup, s: State, b: Block, logoLoads: bool)
    requires Good(s) && (b.TableBlock? ==> |b.headers| > 0)
    ensures var r := ExecS(S, s, b, logoLoads); Good(r) && Extends(s, r)
  {
    match b {
      case TextBlock(text, size, style, align) => AddTextGood(S, s, text, size, style, align);
      case TableBlock(headers, rows, fontSize) => AddTableGood(S, s, headers, rows, fontSize);
      case SignatureBlock(left, right) => SignaturesGood(S, s, left, right);
      case _ => SimpleGood(S, s, b, logoLoads);
    }
  }

  lemma {:induction false} RunGood(S: Setup, s: State, bs: seq<Block>, logoLoads: bool)
    requires Good(s) && TablesHaveColumns(bs)
    ensures var r := RunS(S, s, bs, logoLoads); Good(r) && Extends(s, r)
    decreases |bs|
  {
    if bs != [] {
      var front := bs[..|bs| - 1];
      assert forall b :: b in front ==> b in bs;
      RunGood(S, s, front, logoLoads);
      var m := RunS(S, s, front, logoLoads);
      ExecGood(S, m, bs[|bs| - 1], logoLoads);
      var r := RunS(S, s, bs, logoLoads);
      assert r.ops[..|s.ops|] == m.ops[..|s.ops|];
    }
  }

  /** Running two lists of blocks one after the other is running them joined. */
  lemma {:induction false} RunAppend(S: Setup, s: State, a: seq<Block>, b: seq<Block>, logoLoads: bool)
    requires TablesHaveColumns(a) && TablesHaveColumns(b)
    ensures TablesHaveColumns(a + b) && RunS(S, s, a + b, logoLoads) == RunS(S, RunS(S, s, a, logoLoads), b, logoLoads)
    decreases |b|
  {
    if b != [] {
      var front := b[..|b| - 1];
      assert forall x :: x in front ==> x in b;
      RunAppend(S, s, a, front, logoLoads);
      assert (a + b)[..|a + b| - 1] == a + front;
    } else {
      assert a + b == a;
    }
  }

  // ---------------------------------------------------------------------------
  // The footer

  /** The generation stamp never stays on the page the cursor was on: after the
      cursor is put 20 above the bottom edge, `addText`'s own check (20 more, down
      to 30 above the edge) always fires, so every line of the stamp goes on a new
      page; on a page at least 70 high its first line is drawn at the top margin
      of the page that follows. */
  lemma FooterOnNewPage(S: Setup, s: State, generatedAt: string, logoLoads: bool)
    ensures var r, f := RunS(S, s, Footer(S.ph, generatedAt), logoLoads), Font(8.0, Normal);
      var lines := S.metrics.split(f, "Ģenerēts: " + generatedAt, TextWidth(S));
      r.pages >= s.pages + 1 && |s.ops| <= |r.ops| && r.ops[..|s.ops|] == s.ops &&
      (forall i :: |s.ops| <= i < |r.ops| ==> r.ops[i].page > s.pages) &&
      (S.ph >= 70.0 && lines != [] ==>
        |r.ops| > |s.ops| && r.ops[|s.ops|] == TextOp(s.pages + 1, AlignedX(Center, S.pw, Margin, S.metrics.width(f, lines[0])), Margin, lines[0], Left, f))
  {
    var text, f := "Ģenerēts: " + generatedAt, Font(8.0, Normal);
    var moved := s.(y := S.ph - 20.0);
    var fb := Footer(S.ph, generatedAt);
    assert fb[..1][..0] == [] && fb[..1] == [MoveBlock(S.ph - 20.0)];
    assert RunS(S, s, fb[..1], logoLoads) == moved;
    assert RunS(S, s, fb, logoLoads) == AddTextS(S, moved, text, 8.0, Normal, Center);
    var lines := S.metrics.split(f, text, TextWidth(S));
    var c := Cursor(s.pages + 1, Margin);
    FlowPlacement(TextFlow(S, f, Center), lines, c);
    if lines != [] {
      FlowFirst(TextFlow(S, f, Center), lines, c);
    }
  }

  // ---------------------------------------------------------------------------
  // The whole document

  /** The generated document: every operation on one of its pages, texts
      left-aligned, and — because of the footer — always at least two pages. */
  lemma FastGenerated(S: Setup, d: DocumentData, signedAt: string, generatedAt: string, logoLoads: bool)
    ensures var r := FastGenerateS(S, d, signedAt, generatedAt, logoLoads);
      Good(r) && r.pages >= 2
  {
    var bs := FastBlocks(d, S.ph, signedAt, generatedAt);
    FastTablesHaveColumns(d, S.ph, signedAt, generatedAt);
    FastEndsWithFooter(d, S.ph, signedAt, generatedAt);
    var front := bs[..|bs| - 2];
    assert bs == front + Footer(S.ph, generatedAt);
    assert forall b :: b in front ==> b in bs;
    RunGood(S, Start(), bs, logoLoads);
    RunAppend(S, Start(), front, Footer(S.ph, generatedAt), logoLoads);
    RunGood(S, Start(), front, logoLoads);
    FooterOnNewPage(S, RunS(S, Start(), front, logoLoads), generatedAt, logoLoads);
  }
}
