/**
 * `FastPDFGenerator` itself: an object holding the library document and the cursor
 * `yPos`, whose methods draw step by step. Each method is proved to leave the
 * object in the state the matching function of `FastLayout` describes, so every
 * lemma proved there about the functions holds of what the methods draw.
 */
module FastGenerator {
  import opened Basics
  import opened Canvas
  import opened Document
  import opened FastCompose
  import opened FastLayout

  class Generator {
    const doc: Doc
    const pageWidth: real
    const pageHeight: real
    var yPos: real

    /** The library draws on its last page: the Fast generator never goes back. */
    ghost predicate Valid()
      reads this, doc
    {
      doc.Valid() && doc.current == doc.pages
    }

    function Config(): Setup
      reads this
    {
      Setup(doc.metrics, pageWidth, pageHeight)
    }

    /** The generator and its document, seen as a layout state. */
    function Snapshot(): State
      reads this, doc
    {
      State(doc.pages, yPos, doc.font, doc.ops)
    }

    /** `new FastPDFGenerator()`: a fresh A4 document (its size and metrics come from
        the library) and the cursor at the margin; choosing the font family changes
        nothing the model tracks. */
    constructor (metrics: Metrics, pw: real, ph: real)
      ensures Valid() && fresh(doc) && Snapshot() == Start() && Config() == Setup(metrics, pw, ph)
    {
      doc := new Doc(metrics);
      pageWidth, pageHeight := pw, ph;
      yPos := Margin;
    }

    /** `checkPageBreak(requiredSpace)`. */
    method CheckPageBreak(requiredSpace: real)
      requires Valid()
      modifies this, doc
      ensures Valid() && Snapshot() == Break(Config(), old(Snapshot()), requiredSpace)
    {
      if yPos + requiredSpace > pageHeight - 30.0 {
        doc.AddPage();
        yPos := Margin;
      }
    }

    /** One pass of `addText`'s loop: the check, the x of the line by its
        alignment, the line, and one line height down. */
    method TextLine(line: string, align: Align)
      requires Valid()
      modifies this, doc
      ensures Valid() && doc.font == old(doc.font)
      ensures var at := Place(TextFlow(Config(), doc.font, align), Cursor(old(doc.pages), old(yPos)));
        doc.pages == at.page && yPos == at.y + LineHeight &&
        doc.ops == old(doc.ops) + [TextOp(at.page, LineX(TextFlow(Config(), doc.font, align), line), at.y, line, Left, doc.font)]
    {
      CheckPageBreak(DefaultNeed);
      var xPos := Margin;
      if align == Center {
        xPos := (pageWidth - doc.TextWidth(line)) / 2.0;
      } else if align == Right {
        xPos := pageWidth - Margin - doc.TextWidth(line);
      }
      doc.Text(line, xPos, yPos, Left);
      yPos := yPos + LineHeight;
    }

    /** The loop of `addText` over the wrapped lines. */
    method TextLines(lines: seq<string>, align: Align)
      requires Valid()
      modifies this, doc
      ensures Valid() && doc.font == old(doc.font)
      ensures var r := FlowLines(TextFlow(Config(), doc.font, align), lines, Cursor(old(doc.pages), old(yPos)));
        doc.pages == r.1.page && yPos == r.1.y && doc.ops == old(doc.ops) + r.0
    {
      var i := 0;
      while i < |lines|
        invariant 0 <= i <= |lines|
        invariant Valid() && doc.font == old(doc.font)
        invariant var r := FlowLines(TextFlow(Config(), doc.font, align), lines[..i], Cursor(old(doc.pages), old(yPos)));
          doc.pages == r.1.page && yPos == r.1.y && doc.ops == old(doc.ops) + r.0
      {
        TextLine(lines[i], align);
        assert lines[..i + 1][..i] == lines[..i];
        i := i + 1;
      }
      assert lines[..i] == lines;
    }

    /** `addText(text, { fontSize, fontStyle, align })`. */
    method AddText(text: string, fontSize: real, fontStyle: Style, align: Align)
      requires Valid()
      modifies this, doc
      ensures Valid() && Snapshot() == AddTextS(Config(), old(Snapshot()), text, fontSize, fontStyle, align)
    {
      if text == "" {
        return;
      }
      CheckPageBreak(DefaultNeed);
      doc.SetFontSize(fontSize);
      doc.SetFontStyle(fontStyle);
      var lines := doc.SplitText(text, pageWidth - 2.0 * Margin);
      TextLines(lines, align);
    }

    /** The cut of `addTable`: drop the last character while the cell is wider than
        the limit in the font in effect. Draws nothing. */
    method FitCell(cell: string, maxCellWidth: real) returns (cellText: string)
      ensures cellText == Cut(doc.metrics, doc.font, cell, maxCellWidth)
    {
      cellText := cell;
      while doc.TextWidth(cellText) > maxCellWidth && |cellText| > 0
        invariant Cut(doc.metrics, doc.font, cellText, maxCellWidth) == Cut(doc.metrics, doc.font, cell, maxCellWidth)
        decreases |cellText|
      {
        cellText := cellText[..|cellText| - 1];
      }
    }

    /** The header texts of `addTable`, on the header whose top is the cursor. */
    method HeaderRow(headers: seq<string>, fontSize: real)
      requires Valid() && |headers| > 0 && doc.font == Font(fontSize, Bold)
      modifies doc
      ensures Valid() && doc.pages == old(doc.pages) && doc.font == old(doc.font)
      ensures doc.ops == old(doc.ops) + HeaderTexts(Config(), |headers|, fontSize, doc.pages, headers, CellY(yPos))
    {
      var colWidth := (pageWidth - 2.0 * Margin) / |headers| as real;
      assert colWidth == ColWidth(Config(), |headers|);
      var c := 0;
      while c < |headers|
        invariant 0 <= c <= |headers|
        invariant Valid() && doc.pages == old(doc.pages) && doc.font == old(doc.font)
        invariant doc.ops == old(doc.ops) + HeaderTexts(Config(), |headers|, fontSize, doc.pages, headers[..c], CellY(yPos))
      {
        assert Margin + c as real * colWidth + 2.0 == CellX(Config(), |headers|, c);
        doc.Text(headers[c], Margin + c as real * colWidth + 2.0, yPos + RowHeight / 2.0 + 2.0, Left);
        assert headers[..c + 1][..c] == headers[..c];
        c := c + 1;
      }
      assert headers[..c] == headers;
    }

    /** The cells of one body row, each cut to its column, on the row whose top is
        the cursor. */
    method RowTexts(n: nat, fontSize: real, row: seq<string>)
      requires Valid() && n > 0 && doc.font == Font(fontSize, Normal)
      modifies doc
      ensures Valid() && doc.pages == old(doc.pages) && doc.font == old(doc.font)
      ensures doc.ops == old(doc.ops) + RowCells(Config(), n, fontSize, doc.pages, row, CellY(yPos))
    {
      var colWidth := (pageWidth - 2.0 * Margin) / n as real;
      assert colWidth == ColWidth(Config(), n);
      var k := 0;
      while k < |row|
        invariant 0 <= k <= |row|
        invariant Valid() && doc.pages == old(doc.pages) && doc.font == old(doc.font)
        invariant doc.ops == old(doc.ops) + RowCells(Config(), n, fontSize, doc.pages, row[..k], CellY(yPos))
      {
        var cellText := FitCell(row[k], colWidth - 4.0);
        assert Margin + k as real * colWidth + 2.0 == CellX(Config(), n, k);
        doc.Text(cellText, Margin + k as real * colWidth + 2.0, yPos + RowHeight / 2.0 + 2.0, Left);
        assert row[..k + 1][..k] == row[..k];
        k := k + 1;
      }
      assert row[..k] == row;
    }

    /** One body row: its stripe, its cells, and one row height down. */
    method BodyRow(n: nat, fontSize: real, rows: seq<seq<string>>, r: nat, ghost y0: real)
      requires Valid() && n > 0 && r < |rows| && doc.font == Font(fontSize, Normal) && yPos == RowTop(y0, r)
      modifies this, doc
      ensures Valid() && doc.pages == old(doc.pages) && doc.font == old(doc.font) && yPos == RowTop(y0, r + 1)
      ensures doc.ops == old(doc.ops) + [RowRect(Config(), doc.pages, y0, r)] +
        RowCells(Config(), n, fontSize, doc.pages, rows[r], CellY(RowTop(y0, r)))
    {
      var bgColor := if r % 2 == 0 then White else LightGray;
      doc.Rect(Margin, yPos, pageWidth - 2.0 * Margin, RowHeight, Some(bgColor));
      RowTexts(n, fontSize, rows[r]);
      yPos := yPos + RowHeight;
    }

    /** The body rows of `addTable`, under a header whose top was y0. */
    method BodyRows(n: nat, fontSize: real, rows: seq<seq<string>>, ghost y0: real)
      requires Valid() && n > 0 && doc.font == Font(fontSize, Normal) && yPos == RowTop(y0, 0)
      modifies this, doc
      ensures Valid() && doc.pages == old(doc.pages) && doc.font == old(doc.font) && yPos == RowTop(y0, |rows|)
      ensures doc.ops == old(doc.ops) + BodyOps(Config(), n, fontSize, doc.pages, y0, rows, |rows|)
    {
      var r := 0;
      while r < |rows|
        invariant 0 <= r <= |rows|
        invariant Valid() && doc.pages == old(doc.pages) && doc.font == old(doc.font) && yPos == RowTop(y0, r)
        invariant doc.ops == old(doc.ops) + BodyOps(Config(), n, fontSize, doc.pages, y0, rows, r)
      {
        BodyRow(n, fontSize, rows, r, y0);
        r := r + 1;
      }
    }

    /** The horizontal borders, from the top of the header to the cursor. */
    method HorizontalLines(rowCount: nat)
      requires Valid()
      modifies doc
      ensures Valid() && doc.pages == old(doc.pages) && doc.font == old(doc.font)
      ensures doc.ops == old(doc.ops) + HLines(Config(), doc.pages, yPos, rowCount, rowCount + 2)
    {
      var i := 0;
      while i <= rowCount + 1
        invariant 0 <= i <= rowCount + 2
        invariant Valid() && doc.pages == old(doc.pages) && doc.font == old(doc.font)
        invariant doc.ops == old(doc.ops) + HLines(Config(), doc.pages, yPos, rowCount, i)
      {
        var y := yPos - (rowCount + 1 - i) as real * RowHeight;
        doc.Line(Margin, y, Margin + (pageWidth - 2.0 * Margin), y);
        i := i + 1;
      }
    }

    /** The vertical borders at every column edge, from the top of the header to
        the cursor. */
    method VerticalLines(n: nat, rowCount: nat)
      requires Valid() && n > 0
      modifies doc
      ensures Valid() && doc.pages == old(doc.pages) && doc.font == old(doc.font)
      ensures doc.ops == old(doc.ops) + VLines(Config(), n, doc.pages, yPos, rowCount, n + 1)
    {
      var colWidth := (pageWidth - 2.0 * Margin) / n as real;
      assert colWidth == ColWidth(Config(), n);
      var i := 0;
      while i <= n
        invariant 0 <= i <= n + 1
        invariant Valid() && doc.pages == old(doc.pages) && doc.font == old(doc.font)
        invariant doc.ops == old(doc.ops) + VLines(Config(), n, doc.pages, yPos, rowCount, i)
      {
        var x := Margin + i as real * colWidth;
        assert x == ColumnX(Config(), n, i);
        doc.Line(x, yPos - (rowCount + 1) as real * RowHeight, x, yPos);
        i := i + 1;
      }
    }

    /** The header band and the bold header texts, then one row height down. */
    method TableHead(headers: seq<string>, fontSize: real)
      requires Valid() && |headers| > 0
      modifies this, doc
      ensures Valid() && doc.pages == old(doc.pages) && doc.font == Font(fontSize, Bold)
      ensures yPos == RowTop(old(yPos), 0)
      ensures doc.ops == old(doc.ops) + TableHeadOps(Config(), headers, fontSize, doc.pages, old(yPos))
    {
      doc.Rect(Margin, yPos, pageWidth - 2.0 * Margin, RowHeight, Some(Primary));
      doc.SetFontSize(fontSize);
      doc.SetFontStyle(Bold);
      ghost var o1 := doc.ops;
      HeaderRow(headers, fontSize);
      assert doc.ops == o1 + HeaderTexts(Config(), |headers|, fontSize, doc.pages, headers, CellY(yPos));
      assert Steps(yPos, 0, RowHeight) == yPos;
      yPos := yPos + RowHeight;
    }

    /** The borders of the table, the cursor at the bottom of its last row. */
    method Borders(n: nat, rowCount: nat)
      requires Valid() && n > 0
      modifies doc
      ensures Valid() && doc.pages == old(doc.pages) && doc.font == old(doc.font)
      ensures doc.ops == old(doc.ops) + BorderOps(Config(), n, doc.pages, yPos, rowCount)
    {
      HorizontalLines(rowCount);
      ghost var o1 := doc.ops;
      VerticalLines(n, rowCount);
      assert doc.ops == o1 + VLines(Config(), n, doc.pages, yPos, rowCount, n + 1);
    }

    /** `addTable(headers, rows, fontSize)`; the source divides the width among the
        columns, so there is at least one. */
    method AddTable(headers: seq<string>, rows: seq<seq<string>>, fontSize: real)
      requires Valid() && |headers| > 0
      modifies this, doc
      ensures Valid() && Snapshot() == AddTableS(Config(), old(Snapshot()), headers, rows, fontSize)
    {
      CheckPageBreak(RowHeight * (|rows| + 2) as real);
      ghost var y0, o0 := yPos, doc.ops;
      TableHead(headers, fontSize);
      ghost var o1 := doc.ops;
      doc.SetFontStyle(Normal);
      BodyRows(|headers|, fontSize, rows, y0);
      ghost var o2 := doc.ops;
      Borders(|headers|, |rows|);
      yPos := yPos + 10.0;
      assert doc.ops == o0 + TableOps(Config(), headers, rows, fontSize, doc.pages, y0);
    }

    /** `addLogo(companyLogo)`: `logoLoads` says whether the library accepts the
        image; when it throws, the exception is caught and nothing changes. */
    method AddLogo(logoLoads: bool)
      requires Valid()
      modifies this, doc
      ensures Valid() && Snapshot() == LogoS(old(Snapshot()), logoLoads)
    {
      if logoLoads {
        doc.Image(Margin, yPos, 40.0, 25.0);
        yPos := yPos + 25.0 + 10.0;
      }
    }

    /** `addLine(color, thickness)`; colour and thickness are not modelled. */
    method AddLine()
      requires Valid()
      modifies this, doc
      ensures Valid() && Snapshot() == LineS(Config(), old(Snapshot()))
    {
      doc.Line(Margin, yPos, pageWidth - Margin, yPos);
      yPos := yPos + 5.0;
    }

    /** The filled box under the notice of an electronic signature. */
    method Box()
      requires Valid()
      modifies doc
      ensures Valid() && Snapshot() == BoxS(Config(), old(Snapshot()))
    {
      doc.Rect(Margin + 10.0, yPos, pageWidth - 2.0 * Margin - 20.0, 20.0, Some(Primary));
    }

    /** A name or a position under a signature line, when it is set. */
    method SignedText(text: string, x: real, y: real)
      requires Valid() && doc.font == SignatureFont
      modifies doc
      ensures Valid() && doc.pages == old(doc.pages) && doc.font == old(doc.font)
      ensures doc.ops == old(doc.ops) + Signed(doc.pages, text, x, y)
    {
      if text != "" {
        doc.Text(text, x, y, Left);
      }
    }

    /** The two signature lines of a paper signature at the cursor. */
    method SignatureRules()
      requires Valid()
      modifies doc
      ensures Valid() && doc.pages == old(doc.pages) && doc.font == old(doc.font)
      ensures doc.ops == old(doc.ops) + SignatureLines(Config(), doc.pages, yPos)
    {
      var colWidth := (pageWidth - 2.0 * Margin) / 2.0;
      doc.Line(Margin + 20.0, yPos, Margin + colWidth - 20.0, yPos);
      doc.Line(pageWidth / 2.0 + 20.0, yPos, pageWidth - Margin - 20.0, yPos);
    }

    /** The left and the right text of one line under the signature lines. */
    method SignedPair(leftText: string, rightText: string)
      requires Valid() && doc.font == SignatureFont
      modifies doc
      ensures Valid() && doc.pages == old(doc.pages) && doc.font == old(doc.font)
      ensures doc.ops == old(doc.ops) + Signed(doc.pages, leftText, LeftX(), yPos) + Signed(doc.pages, rightText, RightX(Config()), yPos)
    {
      SignedText(leftText, Margin + 20.0, yPos);
      SignedText(rightText, pageWidth / 2.0 + 20.0, yPos);
    }

    /** The signature lines of a paper signature, the names 10 below them and the
        positions 5 lower. */
    method Signatures(left: Representative, right: Representative)
      requires Valid()
      modifies this, doc
      ensures Valid() && Snapshot() == SignaturesS(Config(), old(Snapshot()), left, right)
    {
      ghost var s0 := Snapshot();
      SignatureRules();
      SignatureTexts(left, right);
      SignatureOpsSplit(Config(), s0.ops, s0.pages, s0.y, left, right);
    }

    /** The names 10 below the signature lines and the positions 5 lower. */
    method SignatureTexts(left: Representative, right: Representative)
      requires Valid()
      modifies this, doc
      ensures Valid() && doc.pages == old(doc.pages) && doc.font == SignatureFont && yPos == old(yPos) + 15.0
      ensures var p, y := doc.pages, old(yPos);
        doc.ops == old(doc.ops) +
          Signed(p, left.name, LeftX(), y + 10.0) + Signed(p, right.name, RightX(Config()), y + 10.0) +
          Signed(p, left.position, LeftX(), y + 15.0) + Signed(p, right.position, RightX(Config()), y + 15.0)
    {
      yPos := yPos + 10.0;
      doc.SetFontSize(10.0);
      doc.SetFontStyle(Normal);
      SignedPair(left.name, right.name);
      yPos := yPos + 5.0;
      SignedPair(left.position, right.position);
    }

    /** One statement of `generatePDF`. */
    method Exec(b: Block, logoLoads: bool)
      requires Valid() && (b.TableBlock? ==> |b.headers| > 0)
      modifies this, doc
      ensures Valid() && Snapshot() == ExecS(Config(), old(Snapshot()), b, logoLoads)
    {
      match b
      case TextBlock(text, size, style, align) =>
        AddText(text, size, style, align);
      case TableBlock(headers, rows, fontSize) =>
        AddTable(headers, rows, fontSize);
      case LineBlock =>
        AddLine();
      case SpaceBlock(dy) =>
        yPos := yPos + dy;
      case MoveBlock(y) =>
        yPos := y;
      case BreakBlock(need) =>
        CheckPageBreak(need);
      case LogoBlock =>
        AddLogo(logoLoads);
      case BoxBlock =>
        Box();
      case SignatureBlock(left, right) =>
        Signatures(left, right);
    }

    /** The statements of `generatePDF`, in order. */
    method Run(bs: seq<Block>, logoLoads: bool)
      requires Valid() && TablesHaveColumns(bs)
      modifies this, doc
      ensures Valid() && Snapshot() == RunS(Config(), old(Snapshot()), bs, logoLoads)
    {
      ghost var s0 := Snapshot();
      var i := 0;
      while i < |bs|
        invariant 0 <= i <= |bs|
        invariant Valid() && TablesHaveColumns(bs[..i])
        invariant Snapshot() == RunS(Config(), s0, bs[..i], logoLoads)
      {
        assert bs[i] in bs;
        Exec(bs[i], logoLoads);
        assert bs[..i + 1][..i] == bs[..i];
        assert forall b :: b in bs[..i + 1] ==> b in bs;
        i := i + 1;
      }
      assert bs[..i] == bs;
    }

    /** `generatePDF(data)`: the cursor back at the margin, then every statement;
        the two readings of the clock are `signedAt` and `generatedAt`. */
    method GeneratePDF(d: DocumentData, signedAt: string, generatedAt: string, logoLoads: bool)
      requires Valid()
      modifies this, doc
      ensures Valid()
      ensures Snapshot() == FastRun(Config(), old(Snapshot()).(y := Margin), d, signedAt, generatedAt, logoLoads)
    {
      yPos := Margin;
      FastTablesHaveColumns(d, pageHeight, signedAt, generatedAt);
      Run(FastBlocks(d, pageHeight, signedAt, generatedAt), logoLoads);
    }
  }

  /** `generateFastPDF(data)`: what a new generator draws for the act, on how many
      pages. */
  method GenerateFastPDF(metrics: Metrics, pw: real, ph: real, d: DocumentData, signedAt: string,
                         generatedAt: string, logoLoads: bool) returns (pages: nat, ops: seq<Op>)
    ensures var r := FastGenerateS(Setup(metrics, pw, ph), d, signedAt, generatedAt, logoLoads);
      pages == r.pages && ops == r.ops
    ensures pages >= 2 && forall op :: op in ops ==> 1 <= op.page <= pages && (op.TextOp? ==> op.align == Left)
  {
    var generator := new Generator(metrics, pw, ph);
    generator.GeneratePDF(d, signedAt, generatedAt, logoLoads);
    pages, ops := generator.doc.pages, generator.doc.ops;
    FastGenerated(Setup(metrics, pw, ph), d, signedAt, generatedAt, logoLoads);
  }
}
