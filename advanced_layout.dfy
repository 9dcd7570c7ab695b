/**
 * What the drawing methods of `AdvancedPDFGenerator` do to the document, as pure
 * functions of a layout state: the page count, the cursor `yPosition`, the font in
 * effect and the operations issued so far. During layout the generator's
 * `currentPage`, the library's current page and the page count are one number,
 * `pages`. `AdvancedGenerator` implements each function as a method; the lemmas
 * here are what the layout guarantees.
 */
module AdvancedLayout {
  import opened Basics
  import opened Canvas
  import opened Document
  import opened AdvancedText
  import opened AdvancedCompose

  /** The size the logo is drawn at on the title page, as `loadLogo` computed it. */
  datatype Logo = Logo(w: real, h: real)

  /** What stays fixed during layout: the library's metrics, the page size and the
      loaded logo (None when there is none or it failed to load). */
  datatype Setup = Setup(metrics: Metrics, pw: real, ph: real, logo: Option<Logo>)

  datatype State = State(pages: nat, y: real, font: Font, ops: seq<Op>)

  /** Where the cursor is put on a new page: `margin + headerHeight`. */
  const Top: real := 60.0

  /** The lowest point `checkPageBreak` lets content reach: `pageHeight - footerHeight - margin`. */
  function Bottom(S: Setup): real {
    S.ph - 40.0
  }

  const HeaderTitle := "Pieņemšanas-nodošanas akts"
  const HeaderFont := Font(10.0, Normal)

  /** `loadLogo` scales the image to fit 50 by 30 keeping its proportions. The ratio
      is min(50 / width, 30 / height), where dividing by a zero size gives Infinity:
      an image of width 0 gets width 0 and so is never drawn, one of height 0 gets
      width 50 and height 0, and one with both sizes 0 gets NaN sizes, which fail
      every comparison and are written here as 0. */
  function FitLogo(iw: real, ih: real): (l: Logo)
    requires iw >= 0.0 && ih >= 0.0
    ensures 0.0 <= l.w <= 50.0 && 0.0 <= l.h <= 30.0
    ensures l.w * ih == l.h * iw
    ensures l.w > 0.0 <==> iw > 0.0
    ensures iw > 0.0 || ih > 0.0 ==> l.w == 50.0 || l.h == 30.0
    ensures iw > 0.0 && ih > 0.0 ==> l.h > 0.0
  {
    if iw == 0.0 && ih == 0.0 then Logo(0.0, 0.0)
    else if iw == 0.0 then Logo(0.0, 30.0)
    else if ih == 0.0 then Logo(50.0, 0.0)
    else
      FitRatio(iw, ih);
      var ratio := Ratio(iw, ih);
      Logo(iw * ratio, ih * ratio)
  }

  /** min(50 / iw, 30 / ih). */
  function Ratio(iw: real, ih: real): real
    requires iw > 0.0 && ih > 0.0
  {
    if 50.0 / iw <= 30.0 / ih then 50.0 / iw else 30.0 / ih
  }

  lemma FitRatio(iw: real, ih: real)
    requires iw > 0.0 && ih > 0.0
    ensures var r := Ratio(iw, ih);
      r > 0.0 && 0.0 < iw * r <= 50.0 && 0.0 < ih * r <= 30.0 && (iw * r == 50.0 || ih * r == 30.0)
  {
    var r1, r2 := 50.0 / iw, 30.0 / ih;
    Cancel(iw, 50.0);
    Cancel(ih, 30.0);
    var r := Ratio(iw, ih);
    ScaleBelow(iw, r, r1);
    ScaleBelow(ih, r, r2);
  }

  lemma Cancel(a: real, b: real)
    requires a > 0.0 && b > 0.0
    ensures b / a > 0.0 && a * (b / a) == b
  {
  }

  lemma ScaleBelow(a: real, r: real, b: real)
    requires a > 0.0 && 0.0 < r <= b
    ensures 0.0 < a * r <= a * b
  {
  }

  predicate ShowsLogo(S: Setup) {
    S.logo.Some? && S.logo.value.w > 0.0
  }

  // ---------------------------------------------------------------------------
  // Pages

  function HeaderText(S: Setup, p: nat): Op {
    TextOp(p, S.pw - Margin, 15.0, HeaderTitle, Right, HeaderFont)
  }

  /** `addHeader` on page p: the logo at 70%, the title on the right, a rule under it. */
  function HeaderOps(S: Setup, p: nat): seq<Op> {
    (if ShowsLogo(S) then [ImageOp(p, Margin, 5.0, S.logo.value.w * 0.7, S.logo.value.h * 0.7)] else []) +
    [HeaderText(S, p), LineOp(p, Margin, 20.0, S.pw - Margin, 20.0)]
  }

  /** `addPage`: a new page, the cursor under the header, and the header unless the
      new page is the first. */
  function NewPage(S: Setup, s: State): State {
    var p := s.pages + 1;
    if p == 1 then State(p, Top, s.font, s.ops)
    else State(p, Top, HeaderFont, s.ops + HeaderOps(S, p))
  }

  /** `checkPageBreak(need)`. */
  function Break(S: Setup, s: State, need: real): State {
    if s.y + need > Bottom(S) then NewPage(S, s) else s
  }

  // ---------------------------------------------------------------------------
  // `addText`

  /** The x of a line of width w: centred and right-aligned lines are placed by their
      width, left-aligned ones keep xPos. */
  function LineXAt(S: Setup, align: Align, xPos: real, w: real): real {
    match align
    case Center => (S.pw - w) / 2.0
    case Right => S.pw - Margin - w
    case Left => xPos
  }

  /** The loop over the wrapped lines: a page-break check for each line against the
      cursor, then the line at yPos, which moves down by lh regardless. Gives the
      state and the final yPos. */
  function WrapLines(S: Setup, s: State, lines: seq<string>, align: Align, xPos: real, yPos: real, lh: real): (State, real)
    decreases |lines|
  {
    if lines == [] then (s, yPos)
    else
      var before := WrapLines(S, s, lines[..|lines| - 1], align, xPos, yPos, lh);
      var t := Break(S, before.0, lh);
      var line := lines[|lines| - 1];
      var x := LineXAt(S, align, xPos, S.metrics.width(t.font, line));
      (t.(ops := t.ops + [TextOp(t.pages, x, before.1, line, Left, t.font)]), before.1 + lh)
  }

  /** `addText(text, { fontSize, fontStyle, align, x, y, maxWidth, lineHeight })`. */
  function AddTextS(S: Setup, s: State, text: string, size: real, style: Style, align: Align,
                    x: Option<real>, y: Option<real>, maxWidth: real, lh: real): State
  {
    if text == "" then s
    else
      var t := ProcessText(text);
      var f := Font(size, style);
      var s1 := s.(font := f);
      var xPos := if x.Some? then x.value else Margin;
      var yPos := if y.Some? then y.value else s.y;
      if maxWidth != 0.0 && S.metrics.width(f, t) > maxWidth then
        var r := WrapLines(S, s1, S.metrics.split(f, t, maxWidth), align, xPos, yPos, lh);
        if y.None? then r.0.(y := r.1) else r.0
      else FitS(S, s1, t, align, xPos, yPos, y.None?, lh)
  }

  /** A text on one line: placed at the aligned x after the page check; the cursor
      moves on by the line height when no y was given. */
  function FitS(S: Setup, s: State, t: string, align: Align, xPos: real, yPos: real, moves: bool, lh: real): State {
    var lx := LineXAt(S, align, xPos, S.metrics.width(s.font, t));
    var s2 := Break(S, s, lh);
    var s3 := s2.(ops := s2.ops + [TextOp(s2.pages, lx, yPos, t, Left, s2.font)]);
    if moves then s3.(y := s2.y + lh) else s3
  }

  /** The default line height of a font size. */
  function LineHeight(size: real): real {
    size * 0.4 + 3.0
  }

  // ---------------------------------------------------------------------------
  // `addTable`

  /** `addTable(headers, rows, { headerBgColor, rowBgColors, fontSize, cellPadding })`. */
  datatype Table = Table(headers: seq<string>, rows: seq<seq<string>>, fontSize: real, cellPadding: real,
                         headerBg: Rgb, rowColors: seq<Rgb>)

  predicate Drawable(t: Table) {
    |t.headers| > 0 && |t.rowColors| > 0
  }

  function TableWidth(S: Setup): real {
    S.pw - 2.0 * Margin
  }

  function ColWidth(S: Setup, t: Table): real
    requires |t.headers| > 0
  {
    TableWidth(S) / |t.headers| as real
  }

  function RowHeight(t: Table): real {
    t.fontSize + 2.0 * t.cellPadding
  }

  /** The height the table asks for: the header and one row per entry. */
  function TableHeight(t: Table): real {
    (|t.rows| as real + 1.0) * RowHeight(t)
  }

  /** The baseline of the cells of a row whose top is at y. */
  function CellY(t: Table, y: real): real {
    y + RowHeight(t) / 2.0 + t.fontSize / 3.0
  }

  function CellX(S: Setup, t: Table, c: nat): real
    requires |t.headers| > 0
  {
    Margin + c as real * ColWidth(S, t) + t.cellPadding
  }

  function HeaderCells(S: Setup, t: Table, p: nat, hs: seq<string>, ty: real): seq<Op>
    requires |t.headers| > 0
    decreases |hs|
  {
    if hs == [] then []
    else HeaderCells(S, t, p, hs[..|hs| - 1], ty) + [TextOp(p, CellX(S, t, |hs| - 1), ty, ProcessText(hs[|hs| - 1]), Left, Font(t.fontSize, Bold))]
  }

  /** What a cell shows: its normalised text, cut to the column in the body font. */
  function CellText(S: Setup, t: Table, cell: string): string
    requires |t.headers| > 0
  {
    Ellipsize(S.metrics, Font(t.fontSize, Normal), ProcessText(cell), ColWidth(S, t) - 2.0 * t.cellPadding)
  }

  function RowCells(S: Setup, t: Table, p: nat, cells: seq<string>, ty: real): seq<Op>
    requires |t.headers| > 0
    decreases |cells|
  {
    if cells == [] then []
    else RowCells(S, t, p, cells[..|cells| - 1], ty) + [TextOp(p, CellX(S, t, |cells| - 1), ty, CellText(S, t, cells[|cells| - 1]), Left, Font(t.fontSize, Normal))]
  }

  /** The top of body row r of a table whose header starts at y0: the loop adds one
      row height per row drawn. */
  function RowTop(t: Table, y0: real, r: nat): real {
    Steps(y0, r + 1, RowHeight(t))
  }

  function RowColor(t: Table, r: nat): Option<Rgb>
    requires |t.rowColors| > 0
  {
    Some(t.rowColors[r % |t.rowColors|])
  }

  /** The rows from the first up to (not including) row n. */
  function BodyOps(S: Setup, t: Table, p: nat, y0: real, n: nat): seq<Op>
    requires Drawable(t) && n <= |t.rows|
  {
    if n == 0 then []
    else
      BodyOps(S, t, p, y0, n - 1) +
      [RectOp(p, Margin, RowTop(t, y0, n - 1), TableWidth(S), RowHeight(t), RowColor(t, n - 1))] +
      RowCells(S, t, p, t.rows[n - 1], CellY(t, RowTop(t, y0, n - 1)))
  }

  /** The x of column separator i. */
  function SeparatorX(S: Setup, t: Table, i: nat): real
    requires |t.headers| > 0
  {
    Margin + i as real * ColWidth(S, t)
  }

  /** The column separators 1 .. n - 1, each from y0 down to y1. */
  function ColumnLines(S: Setup, t: Table, p: nat, y0: real, y1: real, n: nat): seq<Op>
    requires |t.headers| > 0
  {
    if n <= 1 then []
    else ColumnLines(S, t, p, y0, y1, n - 1) + [LineOp(p, SeparatorX(S, t, n - 1), y0, SeparatorX(S, t, n - 1), y1)]
  }

  /** One more body row, its rectangle and its cells, after what was drawn before. */
  lemma BodyOpsSnoc(S: Setup, t: Table, p: nat, y0: real, r: nat, before: seq<Op>)
    requires Drawable(t) && r < |t.rows|
    ensures before + BodyOps(S, t, p, y0, r) + [RectOp(p, Margin, RowTop(t, y0, r), TableWidth(S), RowHeight(t), RowColor(t, r))] +
      RowCells(S, t, p, t.rows[r], CellY(t, RowTop(t, y0, r))) == before + BodyOps(S, t, p, y0, r + 1)
  {
    var rect := [RectOp(p, Margin, RowTop(t, y0, r), TableWidth(S), RowHeight(t), RowColor(t, r))];
    var cells := RowCells(S, t, p, t.rows[r], CellY(t, RowTop(t, y0, r)));
    assert before + BodyOps(S, t, p, y0, r) + rect + cells == before + (BodyOps(S, t, p, y0, r) + rect + cells);
  }

  /** The body rows of a table end one table height below its top. */
  lemma TableBottom(t: Table, y0: real)
    ensures Steps(y0, |t.rows| + 1, RowHeight(t)) == y0 + TableHeight(t)
  {
    StepsClosed(y0, |t.rows| + 1, RowHeight(t));
    assert (|t.rows| + 1) as real == |t.rows| as real + 1.0;
  }

  /** Everything a table whose header starts at y0 draws on page p. */
  function TableOps(S: Setup, t: Table, p: nat, y0: real): seq<Op>
    requires Drawable(t)
  {
    [RectOp(p, Margin, y0, TableWidth(S), RowHeight(t), Some(t.headerBg))] +
    HeaderCells(S, t, p, t.headers, CellY(t, y0)) +
    BodyOps(S, t, p, y0, |t.rows|) +
    [RectOp(p, Margin, y0, TableWidth(S), TableHeight(t), None)] +
    ColumnLines(S, t, p, y0, y0 + TableHeight(t), |t.headers|)
  }

  /** The header band and the header cells of a table whose top is y0. */
  function TableHeadOps(S: Setup, t: Table, p: nat, y0: real): seq<Op>
    requires Drawable(t)
  {
    [RectOp(p, Margin, y0, TableWidth(S), RowHeight(t), Some(t.headerBg))] +
    HeaderCells(S, t, p, t.headers, CellY(t, y0))
  }

  /** The outline from y0 to y1 and the column separators. */
  function TableFrameOps(S: Setup, t: Table, p: nat, y0: real, y1: real): seq<Op>
    requires Drawable(t)
  {
    [RectOp(p, Margin, y0, TableWidth(S), y1 - y0, None)] + ColumnLines(S, t, p, y0, y1, |t.headers|)
  }

  /** A table is its head, its body rows and its frame, drawn in that order. */
  lemma TableOpsSplit(S: Setup, t: Table, p: nat, y0: real, before: seq<Op>)
    requires Drawable(t)
    ensures before + TableHeadOps(S, t, p, y0) + BodyOps(S, t, p, y0, |t.rows|) +
      TableFrameOps(S, t, p, y0, y0 + TableHeight(t)) == before + TableOps(S, t, p, y0)
  {
    var head := [RectOp(p, Margin, y0, TableWidth(S), RowHeight(t), Some(t.headerBg))];
    var hc := HeaderCells(S, t, p, t.headers, CellY(t, y0));
    var body := BodyOps(S, t, p, y0, |t.rows|);
    var outline := [RectOp(p, Margin, y0, TableWidth(S), TableHeight(t), None)];
    var lines := ColumnLines(S, t, p, y0, y0 + TableHeight(t), |t.headers|);
    assert (y0 + TableHeight(t)) - y0 == TableHeight(t);
    assert before + (head + hc) + body + (outline + lines) == before + (head + hc + body + outline + lines);
  }

  function AddTableS(S: Setup, s: State, t: Table): State
    requires Drawable(t)
  {
    var s1 := Break(S, s, TableHeight(t));
    State(s1.pages, s1.y + TableHeight(t) + 5.0,
          Font(t.fontSize, if t.rows == [] then Bold else Normal),
          s1.ops + TableOps(S, t, s1.pages, s1.y))
  }

  // ---------------------------------------------------------------------------
  // The other blocks

  const ElectronicText := "ŠIS DOKUMENTS IR PARAKSTĪTS AR DROŠU ELEKTRONISKO PARAKSTU UN SATUR LAIKA ZĪMOGU"
  const BannerFont := Font(11.0, Bold)

  function BannerWidth(S: Setup): real {
    S.pw - 2.0 * Margin - 20.0
  }

  /** The lines of the notice, each centred in the box, 6 apart from ty down. */
  function BannerLines(S: Setup, p: nat, lines: seq<string>, ty: real): seq<Op>
    decreases |lines|
  {
    if lines == [] then []
    else
      var j := |lines| - 1;
      BannerLines(S, p, lines[..j], ty) +
      [TextOp(p, Margin + 10.0 + (BannerWidth(S) - S.metrics.width(BannerFont, lines[j])) / 2.0,
              ty + 6.0 * j as real, lines[j], Left, BannerFont)]
  }

  /** The filled box at y with the notice wrapped inside it. */
  function BannerOps(S: Setup, p: nat, y: real): seq<Op> {
    [RectOp(p, Margin + 10.0, y, BannerWidth(S), 30.0, Some(Primary))] +
    BannerLines(S, p, S.metrics.split(BannerFont, ElectronicText, BannerWidth(S) - 10.0), y + 12.0)
  }

  /** The banner, after which the cursor is 15 below the box. */
  function BannerS(S: Setup, s: State): State {
    State(s.pages, s.y + 45.0, BannerFont, s.ops + BannerOps(S, s.pages, s.y))
  }

  /** A representative's name or position, drawn only when it is set. */
  function Signed(p: nat, text: string, x: real, y: real): seq<Op> {
    if text != "" then [TextOp(p, x, y, ProcessText(text), Left, Font(10.0, Normal))] else []
  }

  /** The two signature lines 20 below y, and under each the name and the position
      of that party's representative. */
  function SignatureOps(S: Setup, p: nat, y: real, left: Representative, right: Representative): seq<Op> {
    var lineY := y + 20.0;
    SignatureLines(S, p, lineY) + SignatureNames(S, p, lineY + 10.0, left, right)
  }

  /** The two signature lines at lineY, one in each half of the text width. */
  /** The signature operations appended to `ops` in the order they are drawn. */
  lemma SignatureOpsSplit(S: Setup, ops: seq<Op>, p: nat, y: real, left: Representative, right: Representative)
    ensures ops + SignatureOps(S, p, y, left, right) == ops + SignatureLines(S, p, y + 20.0) + SignatureNames(S, p, y + 30.0, left, right)
  {
  }

  function SignatureLines(S: Setup, p: nat, lineY: real): seq<Op> {
    var colWidth := (S.pw - 2.0 * Margin) / 2.0;
    [LineOp(p, Margin + 20.0, lineY, Margin + colWidth - 20.0, lineY),
     LineOp(p, S.pw / 2.0 + 20.0, lineY, S.pw - Margin - 20.0, lineY)]
  }

  /** The names and positions under the two signature lines, whose names are at y. */
  function SignatureNames(S: Setup, p: nat, y: real, left: Representative, right: Representative): seq<Op> {
    Representing(p, left, Margin + 20.0, y) + Representing(p, right, S.pw / 2.0 + 20.0, y)
  }

  /** One representative's name at (x, y) and position 5 below, each when set. */
  function Representing(p: nat, r: Representative, x: real, y: real): seq<Op> {
    Signed(p, r.name, x, y) + Signed(p, r.position, x, y + 5.0)
  }

  /** The signatures, after which the cursor is 20 below the names. */
  function SignaturesS(S: Setup, s: State, left: Representative, right: Representative): State {
    State(s.pages, s.y + 50.0, Font(10.0, Normal), s.ops + SignatureOps(S, s.pages, s.y, left, right))
  }

  function RuleS(S: Setup, s: State): State {
    s.(ops := s.ops + [LineOp(s.pages, Margin, s.y, S.pw - Margin, s.y)])
  }

  /** The logo at full size at the cursor, when there is one. */
  function LogoS(S: Setup, s: State): State {
    if ShowsLogo(S) then
      State(s.pages, s.y + S.logo.value.h + 10.0, s.font,
            s.ops + [ImageOp(s.pages, Margin, s.y, S.logo.value.w, S.logo.value.h)])
    else s
  }

  /** The table of a table block with the default colours. */
  function BlockTable(b: Block): Table
    requires b.TableBlock?
  {
    Table(b.headers, b.rows, b.fontSize, b.cellPadding, Primary, DefaultRowColors)
  }

  function ExecS(S: Setup, s: State, b: Block): State
    requires b.TableBlock? ==> |b.headers| > 0
  {
    match b
    case TextBlock(text, size, style, align, maxWidth) =>
      AddTextS(S, s, text, size, style, align, None, None, maxWidth, LineHeight(size))
    case TableBlock(_, _, _, _) => AddTableS(S, s, BlockTable(b))
    case SpaceBlock(dy) => s.(y := s.y + dy)
    case MoveBlock(y) => s.(y := y)
    case BreakBlock(need) => Break(S, s, need)
    case RuleBlock => RuleS(S, s)
    case LogoBlock => LogoS(S, s)
    case BannerBlock => BannerS(S, s)
    case SignatureBlock(left, right) => SignaturesS(S, s, left, right)
  }

  function RunS(S: Setup, s: State, bs: seq<Block>): State
    requires TablesHaveColumns(bs)
    decreases |bs|
  {
    if bs == [] then s
    else
      assert forall b :: b in bs[..|bs| - 1] ==> b in bs;
      ExecS(S, RunS(S, s, bs[..|bs| - 1]), bs[|bs| - 1])
  }

  // ---------------------------------------------------------------------------
  // `generatePDF`

  /** "Lapa i no n". */
  function PageLabel(S: Setup, i: nat, n: nat): Op {
    TextOp(i, S.pw / 2.0, S.ph - 15.0, "Lapa " + NatToString(i) + " no " + NatToString(n), Center, FooterFont)
  }

  const FooterFont := Font(9.0, Normal)

  function StampText(S: Setup, i: nat, stamp: string): Op {
    TextOp(i, S.pw - Margin, S.ph - 15.0, "Ģenerēts: " + stamp, Right, FooterFont)
  }

  /** `addFooter` on page i of n; `stamp` is the clock reading, date and time. */
  function FooterOps(S: Setup, i: nat, n: nat, stamp: string): seq<Op> {
    [PageLabel(S, i, n),
     StampText(S, i, stamp),
     LineOp(i, Margin, S.ph - 20.0, S.pw - Margin, S.ph - 20.0)]
  }

  /** The footers of pages 1 .. k of n; page i reads the clock as stamps(i). */
  function Footers(S: Setup, n: nat, k: nat, stamps: nat -> string): seq<Op> {
    if k == 0 then [] else Footers(S, n, k - 1, stamps) + FooterOps(S, k, n, stamps(k))
  }

  /** A fresh document with the cursor at the top margin. */
  function Start(): State {
    State(1, Margin, DefaultFont, [])
  }

  /** The title page, a new page, and the main document. */
  function Laid(S: Setup, d: DocumentData, signedAt: string): State {
    TitleTablesHaveColumns(d, S.pw, S.ph);
    MainTablesHaveColumns(d, S.pw, signedAt);
    var title := RunS(S, Start(), TitleBlocks(d, S.pw, S.ph));
    RunS(S, NewPage(S, title), MainBlocks(d, S.pw, signedAt))
  }

  /** The operations of a laid-out state with its footers. */
  function Finished(S: Setup, l: State, stamps: nat -> string): seq<Op> {
    l.ops + Footers(S, l.pages, l.pages, stamps)
  }

  /** All the operations of the finished document. */
  function GenerateS(S: Setup, d: DocumentData, signedAt: string, stamps: nat -> string): seq<Op> {
    Finished(S, Laid(S, d, signedAt), stamps)
  }

  // ---------------------------------------------------------------------------
  // The layout invariant: every operation is on an existing page, and the only
  // text not aligned left is the page header, present on every page but the first.

  predicate Good(S: Setup, s: State) {
    s.pages >= 1 &&
    (forall op :: op in s.ops ==> 1 <= op.page <= s.pages) &&
    (forall op :: op in s.ops && op.TextOp? && op.align != Left ==> op == HeaderText(S, op.page) && op.page >= 2) &&
    (forall i :: 2 <= i <= s.pages ==> HeaderText(S, i) in s.ops)
  }

  /** Operations on page p that include no text other than left-aligned text. */
  predicate PlainOn(ops: seq<Op>, p: nat) {
    forall op :: op in ops ==> op.page == p && (op.TextOp? ==> op.align == Left)
  }

  lemma AppendPlain(S: Setup, s: State, extra: seq<Op>, y: real, f: Font)
    requires Good(S, s) && PlainOn(extra, s.pages)
    ensures Good(S, State(s.pages, y, f, s.ops + extra))
  {
    var t := State(s.pages, y, f, s.ops + extra);
    forall i | 2 <= i <= t.pages ensures HeaderText(S, i) in t.ops {
      assert HeaderText(S, i) in s.ops;
    }
  }

  lemma NewPageGood(S: Setup, s: State)
    requires Good(S, s)
    ensures Good(S, NewPage(S, s)) && NewPage(S, s).pages == s.pages + 1
  {
    var t := NewPage(S, s);
    var h := HeaderOps(S, s.pages + 1);
    assert t.ops == s.ops + h;
    assert HeaderText(S, t.pages) in h;
    forall i | 2 <= i <= t.pages ensures HeaderText(S, i) in t.ops {
      if i < t.pages {
        assert HeaderText(S, i) in s.ops;
      }
    }
  }

  lemma BreakGood(S: Setup, s: State, need: real)
    requires Good(S, s)
    ensures Good(S, Break(S, s, need)) && s.pages <= Break(S, s, need).pages <= s.pages + 1
  {
    if s.y + need > Bottom(S) {
      NewPageGood(S, s);
    }
  }

  lemma {:induction false} WrapLinesGood(S: Setup, s: State, lines: seq<string>, align: Align, xPos: real, yPos: real, lh: real)
    requires Good(S, s)
    ensures var r := WrapLines(S, s, lines, align, xPos, yPos, lh).0;
      Good(S, r) && s.pages <= r.pages
    decreases |lines|
  {
    if lines != [] {
      var front := lines[..|lines| - 1];
      WrapLinesGood(S, s, front, align, xPos, yPos, lh);
      var before := WrapLines(S, s, front, align, xPos, yPos, lh);
      BreakGood(S, before.0, lh);
      var t := Break(S, before.0, lh);
      var line := lines[|lines| - 1];
      var x := LineXAt(S, align, xPos, S.metrics.width(t.font, line));
      AppendPlain(S, t, [TextOp(t.pages, x, before.1, line, Left, t.font)], t.y, t.font);
    }
  }

  lemma AddTextGood(S: Setup, s: State, text: string, size: real, style: Style, align: Align,
                    x: Option<real>, y: Option<real>, maxWidth: real, lh: real)
    requires Good(S, s)
    ensures var r := AddTextS(S, s, text, size, style, align, x, y, maxWidth, lh);
      Good(S, r) && s.pages <= r.pages
  {
    if text != "" {
      var t := ProcessText(text);
      var f := Font(size, style);
      var s1 := s.(font := f);
      var xPos := if x.Some? then x.value else Margin;
      var yPos := if y.Some? then y.value else s.y;
      if maxWidth != 0.0 && S.metrics.width(f, t) > maxWidth {
        WrapLinesGood(S, s1, S.metrics.split(f, t, maxWidth), align, xPos, yPos, lh);
      } else {
        BreakGood(S, s1, lh);
        var s2 := Break(S, s1, lh);
        var lx := LineXAt(S, align, xPos, S.metrics.width(f, t));
        AppendPlain(S, s2, [TextOp(s2.pages, lx, yPos, t, Left, s2.font)], if y.None? then s2.y + lh else s2.y, f);
      }
    }
  }

  lemma {:induction false} HeaderCellsPlain(S: Setup, t: Table, p: nat, hs: seq<string>, ty: real)
    requires |t.headers| > 0
    ensures PlainOn(HeaderCells(S, t, p, hs, ty), p)
    decreases |hs|
  {
    if hs != [] {
      HeaderCellsPlain(S, t, p, hs[..|hs| - 1], ty);
    }
  }

  lemma {:induction false} RowCellsPlain(S: Setup, t: Table, p: nat, cells: seq<string>, ty: real)
    requires |t.headers| > 0
    ensures PlainOn(RowCells(S, t, p, cells, ty), p)
    decreases |cells|
  {
    if cells != [] {
      RowCellsPlain(S, t, p, cells[..|cells| - 1], ty);
    }
  }

  lemma {:induction false} BodyPlain(S: Setup, t: Table, p: nat, y0: real, n: nat)
    requires Drawable(t) && n <= |t.rows|
    ensures PlainOn(BodyOps(S, t, p, y0, n), p)
  {
    if n > 0 {
      BodyPlain(S, t, p, y0, n - 1);
      RowCellsPlain(S, t, p, t.rows[n - 1], CellY(t, RowTop(t, y0, n - 1)));
    }
  }

  lemma {:induction false} ColumnLinesPlain(S: Setup, t: Table, p: nat, y0: real, y1: real, n: nat)
    requires |t.headers| > 0
    ensures PlainOn(ColumnLines(S, t, p, y0, y1, n), p)
  {
    if n > 1 {
      ColumnLinesPlain(S, t, p, y0, y1, n - 1);
    }
  }

  lemma TablePlain(S: Setup, t: Table, p: nat, y0: real)
    requires Drawable(t)
    ensures PlainOn(TableOps(S, t, p, y0), p)
  {
    HeaderCellsPlain(S, t, p, t.headers, CellY(t, y0));
    BodyPlain(S, t, p, y0, |t.rows|);
    ColumnLinesPlain(S, t, p, y0, y0 + TableHeight(t), |t.headers|);
  }

  lemma AddTableGood(S: Setup, s: State, t: Table)
    requires Good(S, s) && Drawable(t)
    ensures Good(S, AddTableS(S, s, t)) && s.pages <= AddTableS(S, s, t).pages <= s.pages + 1
  {
    BreakGood(S, s, TableHeight(t));
    var s1 := Break(S, s, TableHeight(t));
    TablePlain(S, t, s1.pages, s1.y);
    AppendPlain(S, s1, TableOps(S, t, s1.pages, s1.y), s1.y + TableHeight(t) + 5.0,
                Font(t.fontSize, if t.rows == [] then Bold else Normal));
  }

  lemma {:induction false} BannerLinesPlain(S: Setup, p: nat, lines: seq<string>, ty: real)
    ensures PlainOn(BannerLines(S, p, lines, ty), p)
    decreases |lines|
  {
    if lines != [] {
      BannerLinesPlain(S, p, lines[..|lines| - 1], ty);
    }
  }

  lemma BannerGood(S: Setup, s: State)
    requires Good(S, s)
    ensures Good(S, BannerS(S, s)) && BannerS(S, s).pages == s.pages
  {
    BannerLinesPlain(S, s.pages, S.metrics.split(BannerFont, ElectronicText, BannerWidth(S) - 10.0), s.y + 12.0);
    AppendPlain(S, s, BannerOps(S, s.pages, s.y), s.y + 45.0, BannerFont);
  }

  lemma SignaturesGood(S: Setup, s: State, left: Representative, right: Representative)
    requires Good(S, s)
    ensures Good(S, SignaturesS(S, s, left, right)) && SignaturesS(S, s, left, right).pages == s.pages
  {
    var p, lineY := s.pages, s.y + 20.0;
    var names := SignatureNames(S, p, lineY + 10.0, left, right);
    assert PlainOn(names, p) by {
      RepresentingPlain(p, left, Margin + 20.0, lineY + 10.0);
      RepresentingPlain(p, right, S.pw / 2.0 + 20.0, lineY + 10.0);
    }
    assert PlainOn(SignatureLines(S, p, lineY), p);
    AppendPlain(S, s, SignatureOps(S, p, s.y, left, right), s.y + 50.0, Font(10.0, Normal));
  }

  lemma RepresentingPlain(p: nat, r: Representative, x: real, y: real)
    ensures PlainOn(Representing(p, r, x, y), p)
  {
    assert PlainOn(Signed(p, r.name, x, y), p);
    assert PlainOn(Signed(p, r.position, x, y + 5.0), p);
  }

  lemma ExecGood(S: Setup, s: State, b: Block)
    requires Good(S, s) && (b.TableBlock? ==> |b.headers| > 0)
    ensures Good(S, ExecS(S, s, b)) && s.pages <= ExecS(S, s, b).pages
  {
    match b
    case TextBlock(text, size, style, align, maxWidth) =>
      AddTextGood(S, s, text, size, style, align, None, None, maxWidth, LineHeight(size));
    case TableBlock(_, _, _, _) =>
      AddTableGood(S, s, BlockTable(b));
    case BreakBlock(need) =>
      BreakGood(S, s, need);
    case BannerBlock =>
      BannerGood(S, s);
    case SignatureBlock(left, right) =>
      SignaturesGood(S, s, left, right);
    case _ =>
      SimpleGood(S, s, b);
  }

  /** The blocks that move the cursor or draw one plain operation. */
  lemma SimpleGood(S: Setup, s: State, b: Block)
    requires Good(S, s) && (b.SpaceBlock? || b.MoveBlock? || b.RuleBlock? || b.LogoBlock?)
    ensures Good(S, ExecS(S, s, b)) && s.pages == ExecS(S, s, b).pages
  {
    match b
    case SpaceBlock(dy) =>
      AppendPlain(S, s, [], s.y + dy, s.font);
    case MoveBlock(y) =>
      AppendPlain(S, s, [], y, s.font);
    case RuleBlock =>
      AppendPlain(S, s, [LineOp(s.pages, Margin, s.y, S.pw - Margin, s.y)], s.y, s.font);
    case LogoBlock =>
      if ShowsLogo(S) {
        AppendPlain(S, s, [ImageOp(s.pages, Margin, s.y, S.logo.value.w, S.logo.value.h)], s.y + S.logo.value.h + 10.0, s.font);
      }
  }

  lemma {:induction false} RunGood(S: Setup, s: State, bs: seq<Block>)
    requires Good(S, s) && TablesHaveColumns(bs)
    ensures Good(S, RunS(S, s, bs)) && s.pages <= RunS(S, s, bs).pages
    decreases |bs|
  {
    if bs != [] {
      var front := bs[..|bs| - 1];
      assert forall b :: b in front ==> b in bs;
      RunGood(S, s, front);
      ExecGood(S, RunS(S, s, front), bs[|bs| - 1]);
    }
  }

  /** The laid-out document, before the footers, keeps the invariant and has a
      title page and at least one page of the main document. */
  lemma LaidGood(S: Setup, d: DocumentData, signedAt: string)
    ensures Good(S, Laid(S, d, signedAt)) && Laid(S, d, signedAt).pages >= 2
  {
    TitleTablesHaveColumns(d, S.pw, S.ph);
    MainTablesHaveColumns(d, S.pw, signedAt);
    RunGood(S, Start(), TitleBlocks(d, S.pw, S.ph));
    var title := RunS(S, Start(), TitleBlocks(d, S.pw, S.ph));
    NewPageGood(S, title);
    RunGood(S, NewPage(S, title), MainBlocks(d, S.pw, signedAt));
  }

  /** The footer of page i is among the footers of pages 1 .. k when i is. */
  lemma {:induction false} FooterIncluded(S: Setup, n: nat, k: nat, stamps: nat -> string, i: nat)
    requires 1 <= i <= k
    ensures forall op :: op in FooterOps(S, i, n, stamps(i)) ==> op in Footers(S, n, k, stamps)
  {
    if i < k {
      FooterIncluded(S, n, k - 1, stamps, i);
    }
  }

  /** Every footer operation belongs to the footer of one of the pages 1 .. k. */
  lemma {:induction false} FootersFrom(S: Setup, n: nat, k: nat, stamps: nat -> string)
    ensures forall op :: op in Footers(S, n, k, stamps) ==> exists i :: 1 <= i <= k && op in FooterOps(S, i, n, stamps(i))
  {
    if k > 0 {
      FootersFrom(S, n, k - 1, stamps);
    }
  }

  /** The stamp text never reads as the header title. */
  lemma StampIsNotTitle(stamp: string)
    ensures "Ģenerēts: " + stamp != HeaderTitle
  {
    assert ("Ģenerēts: " + stamp)[0] != HeaderTitle[0];
  }

  /** Every page of n, the first included, carries its footer: "Lapa i no n", the
      time it was generated, and the rule above them. */
  lemma FootersOnEveryPage(S: Setup, n: nat, stamps: nat -> string)
    ensures forall i: nat :: 1 <= i <= n ==>
      PageLabel(S, i, n) in Footers(S, n, n, stamps) &&
      StampText(S, i, stamps(i)) in Footers(S, n, n, stamps) &&
      LineOp(i, Margin, S.ph - 20.0, S.pw - Margin, S.ph - 20.0) in Footers(S, n, n, stamps)
  {
    forall i: nat | 1 <= i <= n
      ensures PageLabel(S, i, n) in Footers(S, n, n, stamps) &&
        StampText(S, i, stamps(i)) in Footers(S, n, n, stamps) &&
        LineOp(i, Margin, S.ph - 20.0, S.pw - Margin, S.ph - 20.0) in Footers(S, n, n, stamps)
    {
      FooterIncluded(S, n, n, stamps, i);
      var fo := FooterOps(S, i, n, stamps(i));
      assert fo[0] in fo && fo[1] in fo && fo[2] in fo;
    }
  }

  /** Footer operations are on pages 1 .. n, none of them is a header, and the only
      centred ones are the page labels. */
  lemma FootersOnly(S: Setup, n: nat, stamps: nat -> string)
    ensures forall op :: op in Footers(S, n, n, stamps) ==>
      1 <= op.page <= n && op != HeaderText(S, op.page) &&
      (op.TextOp? && op.align == Center ==> op == PageLabel(S, op.page, n))
  {
    FootersFrom(S, n, n, stamps);
    forall op | op in Footers(S, n, n, stamps)
      ensures 1 <= op.page <= n && op != HeaderText(S, op.page) &&
        (op.TextOp? && op.align == Center ==> op == PageLabel(S, op.page, n))
    {
      var i :| 1 <= i <= n && op in FooterOps(S, i, n, stamps(i));
      StampIsNotTitle(stamps(i));
    }
  }

  lemma FinishedFooters(S: Setup, l: State, stamps: nat -> string)
    ensures forall i: nat :: 1 <= i <= l.pages ==>
      PageLabel(S, i, l.pages) in Finished(S, l, stamps) &&
      StampText(S, i, stamps(i)) in Finished(S, l, stamps) &&
      LineOp(i, Margin, S.ph - 20.0, S.pw - Margin, S.ph - 20.0) in Finished(S, l, stamps)
  {
    FootersOnEveryPage(S, l.pages, stamps);
    var f := Footers(S, l.pages, l.pages, stamps);
    assert forall op :: op in f ==> op in Finished(S, l, stamps);
  }

  lemma FinishedHeaders(S: Setup, l: State, stamps: nat -> string)
    requires Good(S, l)
    ensures var n, ops := l.pages, Finished(S, l, stamps);
      (forall i: nat :: HeaderText(S, i) in ops <==> 2 <= i <= n) &&
      (forall op :: op in ops ==> 1 <= op.page <= n) &&
      (forall op :: op in ops && op.TextOp? && op.align == Center ==> op == PageLabel(S, op.page, n))
  {
    var n := l.pages;
    var ops := Finished(S, l, stamps);
    FootersOnly(S, n, stamps);
    forall i: nat ensures HeaderText(S, i) in ops <==> 2 <= i <= n {
      if HeaderText(S, i) in l.ops {
        assert 1 <= HeaderText(S, i).page <= n;
      }
    }
  }

  /** The finished document of N pages, N at least 2: every page carries its footer
      "Lapa i no N" with the time it was generated and the rule above. */
  lemma GenerateFooters(S: Setup, d: DocumentData, signedAt: string, stamps: nat -> string)
    ensures var n, ops := Laid(S, d, signedAt).pages, GenerateS(S, d, signedAt, stamps);
      n >= 2 &&
      forall i: nat :: 1 <= i <= n ==>
        PageLabel(S, i, n) in ops &&
        StampText(S, i, stamps(i)) in ops &&
        LineOp(i, Margin, S.ph - 20.0, S.pw - Margin, S.ph - 20.0) in ops
  {
    var l := Laid(S, d, signedAt);
    assert GenerateS(S, d, signedAt, stamps) == Finished(S, l, stamps);
    LaidGood(S, d, signedAt);
    FinishedFooters(S, l, stamps);
  }

  /** Pages 2 .. N, and only those, carry the header; every operation is on one of
      the N pages; and the only centred texts are the page labels. */
  lemma GenerateHeaders(S: Setup, d: DocumentData, signedAt: string, stamps: nat -> string)
    ensures var n, ops := Laid(S, d, signedAt).pages, GenerateS(S, d, signedAt, stamps);
      (forall i: nat :: HeaderText(S, i) in ops <==> 2 <= i <= n) &&
      (forall op :: op in ops ==> 1 <= op.page <= n) &&
      (forall op :: op in ops && op.TextOp? && op.align == Center ==> op == PageLabel(S, op.page, n))
  {
    var l := Laid(S, d, signedAt);
    assert GenerateS(S, d, signedAt, stamps) == Finished(S, l, stamps);
    LaidGood(S, d, signedAt);
    FinishedHeaders(S, l, stamps);
  }

  /** Every page 1 .. n carries its label "Lapa i no n", its stamp and the footer rule. */
  ghost predicate Footed(S: Setup, n: nat, ops: seq<Op>, stamps: nat -> string) {
    forall i: nat :: 1 <= i <= n ==>
      PageLabel(S, i, n) in ops && StampText(S, i, stamps(i)) in ops &&
      LineOp(i, Margin, S.ph - 20.0, S.pw - Margin, S.ph - 20.0) in ops
  }

  /** Pages 2 .. n, and only those, carry the header, and every operation is on a page 1 .. n. */
  ghost predicate Headed(S: Setup, n: nat, ops: seq<Op>) {
    (forall i: nat :: HeaderText(S, i) in ops <==> 2 <= i <= n) &&
    (forall op :: op in ops ==> 1 <= op.page <= n)
  }

  /** The finished document in one statement: at least two pages, footers and headers. */
  lemma GenerateShape(S: Setup, d: DocumentData, signedAt: string, stamps: nat -> string)
    ensures var n, ops := Laid(S, d, signedAt).pages, GenerateS(S, d, signedAt, stamps);
      n >= 2 && Footed(S, n, ops, stamps) && Headed(S, n, ops)
  {
    LaidGood(S, d, signedAt);
    FinishedShape(S, Laid(S, d, signedAt), stamps);
  }

  /** Any laid-out state that keeps the invariant, finished with its footers. */
  lemma FinishedShape(S: Setup, l: State, stamps: nat -> string)
    requires Good(S, l)
    ensures Footed(S, l.pages, Finished(S, l, stamps), stamps) && Headed(S, l.pages, Finished(S, l, stamps))
  {
    FinishedFooters(S, l, stamps);
    FinishedHeaders(S, l, stamps);
  }

  // ---------------------------------------------------------------------------
  // What each step draws

  /** `checkPageBreak`: nothing happens when the space asked for fits above the
      bottom; otherwise a page is added, the cursor goes under the header, and on
      every page after the first the header is drawn and its font stays in effect. */
  lemma BreakRule(S: Setup, s: State, need: real)
    requires s.pages >= 1
    ensures s.y + need <= Bottom(S) ==> Break(S, s, need) == s
    ensures s.y + need > Bottom(S) ==>
      var b := Break(S, s, need);
      b.pages == s.pages + 1 && b.y == Top && b.font == HeaderFont && b.ops == s.ops + HeaderOps(S, b.pages) &&
      HeaderText(S, b.pages) in b.ops
  {
    if s.y + need > Bottom(S) {
      assert HeaderOps(S, s.pages + 1)[|HeaderOps(S, s.pages + 1)| - 2] == HeaderText(S, s.pages + 1);
    }
  }

  /** A break adds no left-aligned text: what it appends is the header. */
  lemma BreakAddsNoText(S: Setup, s: State, need: real)
    ensures var b := Break(S, s, need);
      s.ops <= b.ops && Select(b.ops[|s.ops|..], LeftTexts) == []
  {
    var b := Break(S, s, need);
    if s.y + need > Bottom(S) && s.pages + 1 != 1 {
      assert b.ops[|s.ops|..] == HeaderOps(S, s.pages + 1);
      SelectNone(HeaderOps(S, s.pages + 1), LeftTexts);
    } else {
      assert b.ops[|s.ops|..] == [];
    }
  }

  /** texts are the lines, in order, one line height apart from y0 down. */
  predicate LinesFrom(texts: seq<Op>, lines: seq<string>, y0: real, lh: real) {
    |texts| == |lines| &&
    forall j :: 0 <= j < |lines| ==>
      texts[j].TextOp? && texts[j].text == lines[j] && texts[j].y == Steps(y0, j, lh)
  }

  /** The left-aligned text a step appended after the operations of s. */
  function NewTexts(s: State, r: State): (ts: seq<Op>)
    requires s.ops <= r.ops
    ensures forall op :: op in ts ==> op in r.ops && Keeps(LeftTexts, op)
  {
    SelectKeeps(r.ops[|s.ops|..], LeftTexts);
    Select(r.ops[|s.ops|..], LeftTexts)
  }

  /** The final yPos of the wrapped loop is |lines| line heights below the first. */
  lemma {:induction false} WrapEnd(S: Setup, s: State, lines: seq<string>, align: Align, xPos: real, yPos: real, lh: real)
    ensures WrapLines(S, s, lines, align, xPos, yPos, lh).1 == Steps(yPos, |lines|, lh)
    decreases |lines|
  {
    if lines != [] {
      WrapEnd(S, s, lines[..|lines| - 1], align, xPos, yPos, lh);
    }
  }

  /** One step of the wrapped loop appends the page header, if any, and the line. */
  lemma WrapStep(S: Setup, s: State, lines: seq<string>, align: Align, xPos: real, yPos: real, lh: real)
    requires lines != []
    ensures var before := WrapLines(S, s, lines[..|lines| - 1], align, xPos, yPos, lh);
      var r := WrapLines(S, s, lines, align, xPos, yPos, lh);
      before.0.ops <= r.0.ops &&
      Select(r.0.ops[|before.0.ops|..], LeftTexts) ==
        [TextOp(r.0.pages, LineXAt(S, align, xPos, S.metrics.width(r.0.font, lines[|lines| - 1])), before.1, lines[|lines| - 1], Left, r.0.font)]
  {
    var before := WrapLines(S, s, lines[..|lines| - 1], align, xPos, yPos, lh);
    var t := Break(S, before.0, lh);
    var line := lines[|lines| - 1];
    TextAfterBreak(S, before.0, lh, TextOp(t.pages, LineXAt(S, align, xPos, S.metrics.width(t.font, line)), before.1, line, Left, t.font));
  }

  /** A break followed by one left-aligned text adds that text and no other. */
  lemma TextAfterBreak(S: Setup, u: State, need: real, op: Op)
    requires op.TextOp? && op.align == Left
    ensures var t := Break(S, u, need);
      u.ops <= t.ops + [op] && Select((t.ops + [op])[|u.ops|..], LeftTexts) == [op]
  {
    BreakAddsNoText(S, u, need);
    var t := Break(S, u, need);
    var b := t.ops[|u.ops|..];
    assert (t.ops + [op])[|u.ops|..] == b + [op];
    SelectSnoc(b, op, LeftTexts);
  }

  lemma NewTextsSplit(s: State, m: State, r: State)
    requires s.ops <= m.ops <= r.ops
    ensures NewTexts(s, r) == NewTexts(s, m) + NewTexts(m, r)
  {
    assert r.ops[|s.ops|..] == m.ops[|s.ops|..] + r.ops[|m.ops|..];
    SelectAppend(m.ops[|s.ops|..], r.ops[|m.ops|..], LeftTexts);
  }

  /** LinesFrom grows by one line at the next position. */
  lemma LinesFromSnoc(texts: seq<Op>, lines: seq<string>, y0: real, lh: real, op: Op)
    requires |lines| > 0 && LinesFrom(texts, lines[..|lines| - 1], y0, lh)
    requires op.TextOp? && op.text == lines[|lines| - 1] && op.y == Steps(y0, |lines| - 1, lh)
    ensures LinesFrom(texts + [op], lines, y0, lh)
  {
    var n := |lines| - 1;
    forall j | 0 <= j < |lines|
      ensures (texts + [op])[j].TextOp? && (texts + [op])[j].text == lines[j] && (texts + [op])[j].y == Steps(y0, j, lh)
    {
      if j < n {
        assert lines[j] == lines[..n][j];
      }
    }
  }

  /** The wrapped lines are drawn in order, each one line height below the one
      before it, starting at yPos, even across a page break. */
  lemma {:induction false} WrapPlacement(S: Setup, s: State, lines: seq<string>, align: Align, xPos: real, yPos: real, lh: real)
    ensures var r := WrapLines(S, s, lines, align, xPos, yPos, lh).0;
      s.ops <= r.ops && LinesFrom(NewTexts(s, r), lines, yPos, lh)
    decreases |lines|
  {
    if lines != [] {
      var n := |lines| - 1;
      var front := lines[..n];
      WrapPlacement(S, s, front, align, xPos, yPos, lh);
      WrapEnd(S, s, front, align, xPos, yPos, lh);
      WrapStep(S, s, lines, align, xPos, yPos, lh);
      var before := WrapLines(S, s, front, align, xPos, yPos, lh).0;
      var r := WrapLines(S, s, lines, align, xPos, yPos, lh).0;
      NewTextsSplit(s, before, r);
      var ts := NewTexts(before, r);
      LinesFromSnoc(NewTexts(s, before), lines, yPos, lh, ts[0]);
      assert NewTexts(s, r) == NewTexts(s, before) + [ts[0]];
    }
  }

  /** Left-aligned wrapped lines all start at xPos. */
  lemma {:induction false} WrapLeftX(S: Setup, s: State, lines: seq<string>, xPos: real, yPos: real, lh: real)
    ensures var r := WrapLines(S, s, lines, Left, xPos, yPos, lh).0;
      s.ops <= r.ops && forall op :: op in NewTexts(s, r) ==> op.x == xPos
    decreases |lines|
  {
    if lines != [] {
      var front := lines[..|lines| - 1];
      WrapLeftX(S, s, front, xPos, yPos, lh);
      WrapStep(S, s, lines, Left, xPos, yPos, lh);
      var before := WrapLines(S, s, front, Left, xPos, yPos, lh).0;
      var r := WrapLines(S, s, lines, Left, xPos, yPos, lh).0;
      NewTextsSplit(s, before, r);
    }
  }

  /** The page check of the wrapped loop measures the cursor, which the loop does
      not move: when the first line fits no page is added; otherwise the first line
      starts a page, and every later line starts one too exactly when a single line
      does not fit under the header. */
  lemma {:induction false} WrapBreaks(S: Setup, s: State, lines: seq<string>, align: Align, xPos: real, yPos: real, lh: real)
    requires lines != []
    ensures var r := WrapLines(S, s, lines, align, xPos, yPos, lh).0;
      r.pages == s.pages + (if s.y + lh <= Bottom(S) then 0 else if Top + lh > Bottom(S) then |lines| else 1) &&
      r.y == (if s.y + lh <= Bottom(S) then s.y else Top)
    decreases |lines|
  {
    var front := lines[..|lines| - 1];
    if front != [] {
      WrapBreaks(S, s, front, align, xPos, yPos, lh);
    }
  }

  /** Text that is not wrapped is one left-aligned line, normalised, drawn at the
      cursor as it was before the page check, also when that check started a new
      page; the line is then drawn in the header's font, not the one asked for. The
      cursor ends one line height below where the check left it. */
  lemma AddTextSingle(S: Setup, s: State, text: string, size: real, style: Style, align: Align, maxWidth: real, lh: real)
    requires s.pages >= 1 && text != ""
    requires maxWidth == 0.0 || S.metrics.width(Font(size, style), ProcessText(text)) <= maxWidth
    ensures var r, b := AddTextS(S, s, text, size, style, align, None, None, maxWidth, lh), Break(S, s, lh);
      var f := if s.y + lh > Bottom(S) then HeaderFont else Font(size, style);
      r.pages == b.pages && r.y == b.y + lh && r.font == f &&
      r.ops == b.ops + [TextOp(b.pages, LineXAt(S, align, Margin, S.metrics.width(Font(size, style), ProcessText(text))),
                               s.y, ProcessText(text), Left, f)]
  {
  }

  /** Wrapped text (no y given): its lines, as the library splits them, drawn in
      order one line height apart from the cursor down; the cursor ends |lines| line
      heights below where it started, whatever pages were added. */
  lemma AddTextWrapped(S: Setup, s: State, text: string, size: real, style: Style, align: Align, maxWidth: real, lh: real)
    requires text != ""
    requires maxWidth != 0.0 && S.metrics.width(Font(size, style), ProcessText(text)) > maxWidth
    ensures var r := AddTextS(S, s, text, size, style, align, None, None, maxWidth, lh);
      var lines := S.metrics.split(Font(size, style), ProcessText(text), maxWidth);
      r.y == Steps(s.y, |lines|, lh) && s.ops <= r.ops && LinesFrom(NewTexts(s, r), lines, s.y, lh)
  {
    var f := Font(size, style);
    var s1 := s.(font := f);
    var lines := S.metrics.split(f, ProcessText(text), maxWidth);
    var w := WrapLines(S, s1, lines, align, Margin, s.y, lh);
    var r := AddTextS(S, s, text, size, style, align, None, None, maxWidth, lh);
    assert r == w.0.(y := w.1);
    WrapPlacement(S, s1, lines, align, Margin, s.y, lh);
    WrapEnd(S, s1, lines, align, Margin, s.y, lh);
    assert NewTexts(s, r) == NewTexts(s1, w.0);
  }

  /** Empty text draws nothing and changes nothing. */
  lemma AddTextEmpty(S: Setup, s: State, size: real, style: Style, align: Align,
                     x: Option<real>, y: Option<real>, maxWidth: real, lh: real)
    ensures AddTextS(S, s, "", size, style, align, x, y, maxWidth, lh) == s
  {
  }

  // ---------------------------------------------------------------------------
  // Tables

  lemma {:induction false} HeaderCellsShape(S: Setup, t: Table, p: nat, hs: seq<string>, ty: real)
    requires |t.headers| > 0
    ensures var ops := HeaderCells(S, t, p, hs, ty);
      |ops| == |hs| &&
      forall c :: 0 <= c < |hs| ==> ops[c] == TextOp(p, CellX(S, t, c), ty, ProcessText(hs[c]), Left, Font(t.fontSize, Bold))
    decreases |hs|
  {
    if hs != [] {
      var n := |hs| - 1;
      HeaderCellsShape(S, t, p, hs[..n], ty);
      forall c | 0 <= c < n ensures hs[c] == hs[..n][c] {
      }
    }
  }

  lemma {:induction false} RowCellsShape(S: Setup, t: Table, p: nat, cells: seq<string>, ty: real)
    requires |t.headers| > 0
    ensures var ops := RowCells(S, t, p, cells, ty);
      |ops| == |cells| &&
      forall c :: 0 <= c < |cells| ==> ops[c] == TextOp(p, CellX(S, t, c), ty, CellText(S, t, cells[c]), Left, Font(t.fontSize, Normal))
    decreases |cells|
  {
    if cells != [] {
      var n := |cells| - 1;
      RowCellsShape(S, t, p, cells[..n], ty);
      forall c | 0 <= c < n ensures cells[c] == cells[..n][c] {
      }
    }
  }

  /** A cell shows its normalised text when that fits the column less the padding;
      otherwise the longest prefix that fits with "..." after it. */
  lemma CellTextFits(S: Setup, t: Table, cell: string)
    requires |t.headers| > 0
    ensures var f, text, max := Font(t.fontSize, Normal), ProcessText(cell), ColWidth(S, t) - 2.0 * t.cellPadding;
      var shown := CellText(S, t, cell);
      (S.metrics.width(f, text) <= max ==> shown == text) &&
      (S.metrics.width(f, text) > max ==>
        |shown| >= 3 && shown[|shown| - 3..] == "..." && shown[..|shown| - 3] <= text &&
        (S.metrics.width(f, shown) <= max || shown == "..."))
  {
    var f, text, max := Font(t.fontSize, Normal), ProcessText(cell), ColWidth(S, t) - 2.0 * t.cellPadding;
    EllipsizeShape(S.metrics, f, text, max);
  }

  lemma {:induction false} HeaderCellsTexts(S: Setup, t: Table, p: nat, hs: seq<string>, ty: real)
    requires |t.headers| > 0
    ensures AllTexts(HeaderCells(S, t, p, hs, ty))
    decreases |hs|
  {
    if hs != [] {
      HeaderCellsTexts(S, t, p, hs[..|hs| - 1], ty);
    }
  }

  lemma {:induction false} RowCellsTexts(S: Setup, t: Table, p: nat, cells: seq<string>, ty: real)
    requires |t.headers| > 0
    ensures AllTexts(RowCells(S, t, p, cells, ty))
    decreases |cells|
  {
    if cells != [] {
      RowCellsTexts(S, t, p, cells[..|cells| - 1], ty);
    }
  }

  /** One more header cell: the cell of column c. */
  lemma HeaderCellsSnoc(S: Setup, t: Table, p: nat, hs: seq<string>, c: nat, ty: real)
    requires |t.headers| > 0 && c < |hs|
    ensures HeaderCells(S, t, p, hs[..c + 1], ty) ==
      HeaderCells(S, t, p, hs[..c], ty) + [TextOp(p, CellX(S, t, c), ty, ProcessText(hs[c]), Left, Font(t.fontSize, Bold))]
  {
    assert hs[..c + 1][..c] == hs[..c];
  }

  /** One more body cell: the cell of column k, cut to its column. */
  lemma RowCellsSnoc(S: Setup, t: Table, p: nat, cells: seq<string>, k: nat, ty: real)
    requires |t.headers| > 0 && k < |cells|
    ensures RowCells(S, t, p, cells[..k + 1], ty) ==
      RowCells(S, t, p, cells[..k], ty) + [TextOp(p, CellX(S, t, k), ty, CellText(S, t, cells[k]), Left, Font(t.fontSize, Normal))]
  {
    assert cells[..k + 1][..k] == cells[..k];
  }

  /** The filled rectangle behind body row r. */
  function RowRect(S: Setup, t: Table, p: nat, y0: real, r: nat): Op
    requires |t.rowColors| > 0
  {
    RectOp(p, Margin, RowTop(t, y0, r), TableWidth(S), RowHeight(t), RowColor(t, r))
  }

  lemma BodyRectsStep(S: Setup, t: Table, p: nat, y0: real, n: nat)
    requires Drawable(t) && 0 < n <= |t.rows|
    ensures Select(BodyOps(S, t, p, y0, n), Rects) == Select(BodyOps(S, t, p, y0, n - 1), Rects) + [RowRect(S, t, p, y0, n - 1)]
  {
    var prev := BodyOps(S, t, p, y0, n - 1);
    var rect := RowRect(S, t, p, y0, n - 1);
    var cells := RowCells(S, t, p, t.rows[n - 1], CellY(t, RowTop(t, y0, n - 1)));
    assert BodyOps(S, t, p, y0, n) == prev + [rect] + cells;
    RowCellsTexts(S, t, p, t.rows[n - 1], CellY(t, RowTop(t, y0, n - 1)));
    SelectNone(cells, Rects);
    SelectAppend(prev + [rect], cells, Rects);
    SelectSnoc(prev, rect, Rects);
  }

  lemma RowRectsSnoc(S: Setup, t: Table, p: nat, y0: real, front: seq<Op>, n: nat)
    requires |t.rowColors| > 0 && n > 0 && |front| == n - 1
    requires forall r :: 0 <= r < n - 1 ==> front[r] == RowRect(S, t, p, y0, r)
    ensures var rs := front + [RowRect(S, t, p, y0, n - 1)];
      forall r :: 0 <= r < n ==> rs[r] == RowRect(S, t, p, y0, r)
  {
  }

  /** The row rectangles from the first up to row n: row r is filled with colour
      r modulo the number of colours, one row height below the previous row. */
  lemma {:induction false} BodyRects(S: Setup, t: Table, p: nat, y0: real, n: nat)
    requires Drawable(t) && n <= |t.rows|
    ensures var rs := Select(BodyOps(S, t, p, y0, n), Rects);
      |rs| == n && forall r :: 0 <= r < n ==> rs[r] == RowRect(S, t, p, y0, r)
  {
    if n > 0 {
      BodyRects(S, t, p, y0, n - 1);
      BodyRectsStep(S, t, p, y0, n);
      RowRectsSnoc(S, t, p, y0, Select(BodyOps(S, t, p, y0, n - 1), Rects), n);
    }
  }

  lemma {:induction false} BodyTexts(S: Setup, t: Table, p: nat, y0: real, n: nat)
    requires Drawable(t) && n <= |t.rows|
    ensures forall op :: op in BodyOps(S, t, p, y0, n) ==> op.RectOp? || op.TextOp?
  {
    if n > 0 {
      BodyTexts(S, t, p, y0, n - 1);
      RowCellsTexts(S, t, p, t.rows[n - 1], CellY(t, RowTop(t, y0, n - 1)));
    }
  }

  lemma {:induction false} ColumnLinesShape(S: Setup, t: Table, p: nat, y0: real, y1: real, n: nat)
    requires |t.headers| > 0
    ensures var ls := ColumnLines(S, t, p, y0, y1, n);
      |ls| == (if n == 0 then 0 else n - 1) &&
      forall i :: 0 <= i < |ls| ==> ls[i] == LineOp(p, SeparatorX(S, t, i + 1), y0, SeparatorX(S, t, i + 1), y1)
  {
    if n > 1 {
      ColumnLinesShape(S, t, p, y0, y1, n - 1);
    }
  }

  lemma {:induction false} ColumnLinesAreLines(S: Setup, t: Table, p: nat, y0: real, y1: real, n: nat)
    requires |t.headers| > 0
    ensures forall op :: op in ColumnLines(S, t, p, y0, y1, n) ==> op.LineOp?
  {
    if n > 1 {
      ColumnLinesAreLines(S, t, p, y0, y1, n - 1);
    }
  }

  lemma TableRectsSplit(S: Setup, t: Table, p: nat, y0: real)
    requires Drawable(t)
    ensures Select(TableOps(S, t, p, y0), Rects) ==
      [RectOp(p, Margin, y0, TableWidth(S), RowHeight(t), Some(t.headerBg))] +
      Select(BodyOps(S, t, p, y0, |t.rows|), Rects) +
      [RectOp(p, Margin, y0, TableWidth(S), TableHeight(t), None)]
  {
    var hc := HeaderCells(S, t, p, t.headers, CellY(t, y0));
    var cl := ColumnLines(S, t, p, y0, y0 + TableHeight(t), |t.headers|);
    HeaderCellsTexts(S, t, p, t.headers, CellY(t, y0));
    ColumnLinesAreLines(S, t, p, y0, y0 + TableHeight(t), |t.headers|);
    SelectAround(RectOp(p, Margin, y0, TableWidth(S), RowHeight(t), Some(t.headerBg)), hc,
      BodyOps(S, t, p, y0, |t.rows|), RectOp(p, Margin, y0, TableWidth(S), TableHeight(t), None), cl, Rects);
  }

  /** The rectangles of a table: the header filled with the header colour, each
      row filled with its stripe colour, and the outline around all of it. */
  lemma TableRects(S: Setup, t: Table, p: nat, y0: real)
    requires Drawable(t)
    ensures var rs := Select(TableOps(S, t, p, y0), Rects);
      |rs| == |t.rows| + 2 &&
      rs[0] == RectOp(p, Margin, y0, TableWidth(S), RowHeight(t), Some(t.headerBg)) &&
      (forall r :: 0 <= r < |t.rows| ==> rs[r + 1] == RowRect(S, t, p, y0, r)) &&
      rs[|t.rows| + 1] == RectOp(p, Margin, y0, TableWidth(S), TableHeight(t), None)
  {
    TableRectsSplit(S, t, p, y0);
    BodyRects(S, t, p, y0, |t.rows|);
    var rs, body := Select(TableOps(S, t, p, y0), Rects), Select(BodyOps(S, t, p, y0, |t.rows|), Rects);
    forall r | 0 <= r < |t.rows| ensures rs[r + 1] == RowRect(S, t, p, y0, r) {
      assert rs[r + 1] == body[r];
    }
  }

  /** The lines of a table are the column separators 1 .. N - 1, each running from
      the top of the header to the bottom of the last row. */
  lemma TableLines(S: Setup, t: Table, p: nat, y0: real)
    requires Drawable(t)
    ensures var ls := Select(TableOps(S, t, p, y0), Lines);
      |ls| == |t.headers| - 1 &&
      forall i :: 0 <= i < |ls| ==>
        ls[i] == LineOp(p, SeparatorX(S, t, i + 1), y0, SeparatorX(S, t, i + 1), y0 + TableHeight(t))
  {
    var cl := ColumnLines(S, t, p, y0, y0 + TableHeight(t), |t.headers|);
    HeaderCellsTexts(S, t, p, t.headers, CellY(t, y0));
    BodyTexts(S, t, p, y0, |t.rows|);
    ColumnLinesAreLines(S, t, p, y0, y0 + TableHeight(t), |t.headers|);
    SelectTail(RectOp(p, Margin, y0, TableWidth(S), RowHeight(t), Some(t.headerBg)), HeaderCells(S, t, p, t.headers, CellY(t, y0)),
      BodyOps(S, t, p, y0, |t.rows|), RectOp(p, Margin, y0, TableWidth(S), TableHeight(t), None), cl, Lines);
    ColumnLinesShape(S, t, p, y0, y0 + TableHeight(t), |t.headers|);
  }

  /** A table asks for room for all its rows at once: it starts at the cursor when
      that room is there, at the top of a new page otherwise, and the cursor ends 5
      below its last row. */
  lemma TablePlacement(S: Setup, s: State, t: Table)
    requires Drawable(t) && s.pages >= 1
    ensures var r, b := AddTableS(S, s, t), Break(S, s, TableHeight(t));
      b.ops <= r.ops &&
      r.ops[|b.ops|..] == TableOps(S, t, r.pages, b.y) &&
      (s.y + TableHeight(t) <= Bottom(S) ==> r.pages == s.pages && b.y == s.y) &&
      (s.y + TableHeight(t) > Bottom(S) ==> r.pages == s.pages + 1 && b.y == Top) &&
      r.y == b.y + TableHeight(t) + 5.0
  {
    var r, b := AddTableS(S, s, t), Break(S, s, TableHeight(t));
    assert r.ops == b.ops + TableOps(S, t, r.pages, b.y);
  }

  // ---------------------------------------------------------------------------
  // The banner and the signatures

  /** The lines of the electronic-signature notice are drawn in order 6 apart from
      ty down, each centred in the box. */
  lemma {:induction false} BannerLinesShape(S: Setup, p: nat, lines: seq<string>, ty: real)
    ensures var ops := BannerLines(S, p, lines, ty);
      |ops| == |lines| &&
      forall j :: 0 <= j < |lines| ==>
        ops[j].TextOp? && ops[j].page == p && ops[j].text == lines[j] && ops[j].y == ty + 6.0 * j as real &&
        ops[j].x + S.metrics.width(BannerFont, lines[j]) / 2.0 == Margin + 10.0 + BannerWidth(S) / 2.0
    decreases |lines|
  {
    if lines != [] {
      var n := |lines| - 1;
      BannerLinesShape(S, p, lines[..n], ty);
      forall j | 0 <= j < n ensures lines[j] == lines[..n][j] {
      }
    }
  }

  /** The non-empty strings of a list, in order. */
  function Filled(ts: seq<string>): seq<string> {
    if ts == [] then [] else Filled(ts[..|ts| - 1]) + (if ts[|ts| - 1] != "" then [ts[|ts| - 1]] else [])
  }

  lemma {:induction false} FilledAppend(a: seq<string>, b: seq<string>)
    ensures Filled(a + b) == Filled(a) + Filled(b)
    decreases |b|
  {
    if b == [] {
      assert a + b == a;
    } else {
      assert (a + b)[..|a + b| - 1] == a + b[..|b| - 1];
      FilledAppend(a, b[..|b| - 1]);
    }
  }

  lemma SignedCount(p: nat, text: string, x: real, y: real)
    ensures |Signed(p, text, x, y)| == |Filled([text])|
  {
    assert [text][..0] == [];
  }

  /** The signature block draws one text for each representative's name and
      position that is set, after the two signature lines. */
  lemma SignatureCount(S: Setup, p: nat, y: real, left: Representative, right: Representative)
    ensures |SignatureOps(S, p, y, left, right)| == 2 + |Filled([left.name, left.position, right.name, right.position])|
  {
    var fields := [left.name, left.position, right.name, right.position];
    assert fields == [left.name] + [left.position] + [right.name] + [right.position];
    FilledAppend([left.name] + [left.position] + [right.name], [right.position]);
    FilledAppend([left.name] + [left.position], [right.name]);
    FilledAppend([left.name], [left.position]);
    var rx := S.pw / 2.0 + 20.0;
    SignedCount(p, left.name, Margin + 20.0, y + 30.0);
    SignedCount(p, left.position, Margin + 20.0, y + 35.0);
    SignedCount(p, right.name, rx, y + 30.0);
    SignedCount(p, right.position, rx, y + 35.0);
  }

  /** Operations that are all texts in the signature font. */
  predicate SignatureFont(ops: seq<Op>) {
    forall op :: op in ops ==> op.TextOp? && op.font == Font(10.0, Normal)
  }

  lemma SignatureFontAppend(a: seq<Op>, b: seq<Op>)
    requires SignatureFont(a) && SignatureFont(b)
    ensures SignatureFont(a + b)
  {
  }

  lemma SignatureNamesFont(S: Setup, p: nat, y: real, left: Representative, right: Representative)
    ensures SignatureFont(SignatureNames(S, p, y, left, right))
  {
    var rx := S.pw / 2.0 + 20.0;
    var a, b := Signed(p, left.name, Margin + 20.0, y), Signed(p, left.position, Margin + 20.0, y + 5.0);
    var c, d := Signed(p, right.name, rx, y), Signed(p, right.position, rx, y + 5.0);
    SignatureFontAppend(a, b);
    SignatureFontAppend(a + b, c);
    SignatureFontAppend(a + b + c, d);
  }

  /** The two signature lines are 20 below y, one under each column; everything
      after them is text in the signature font. */
  lemma SignatureShape(S: Setup, p: nat, y: real, left: Representative, right: Representative)
    ensures var ops := SignatureOps(S, p, y, left, right);
      |ops| >= 2 &&
      ops[0] == LineOp(p, Margin + 20.0, y + 20.0, Margin + (S.pw - 2.0 * Margin) / 2.0 - 20.0, y + 20.0) &&
      ops[1] == LineOp(p, S.pw / 2.0 + 20.0, y + 20.0, S.pw - Margin - 20.0, y + 20.0) &&
      SignatureFont(ops[2..])
  {
    SignatureNamesFont(S, p, y + 30.0, left, right);
    assert SignatureOps(S, p, y, left, right)[2..] == SignatureNames(S, p, y + 30.0, left, right);
  }
}
