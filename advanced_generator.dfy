/**
 * `AdvancedPDFGenerator` itself: an object holding the library document, the cursor
 * `yPosition`, `currentPage`, `totalPages` and the loaded logo, whose methods draw
 * step by step. Each method is proved to leave the object in the state the matching
 * function of `AdvancedLayout` describes, so every lemma proved there about the
 * functions holds of what the methods draw.
 */
module AdvancedGenerator {
  import opened Basics
  import opened Canvas
  import opened Document
  import opened AdvancedText
  import opened AdvancedCompose
  import opened AdvancedLayout

  /** The logo `generatePDF` ends up with: none when the document has no logo or the
      image fails to load (`image` is None), otherwise the loaded image scaled by
      `loadLogo`. */
  function LoadedLogo(d: DocumentData, image: Option<(real, real)>): (l: Option<Logo>)
    requires image.Some? ==> image.value.0 >= 0.0 && image.value.1 >= 0.0
    ensures l.Some? <==> d.companyLogo != "" && image.Some?
    ensures l.Some? ==> l.value.w <= 50.0 && l.value.h <= 30.0 && (l.value.w > 0.0 <==> image.value.0 > 0.0)
  {
    if d.companyLogo != "" && image.Some? then Some(FitLogo(image.value.0, image.value.1)) else None
  }

  class Generator {
    const doc: Doc
    const pageWidth: real
    const pageHeight: real
    var yPosition: real
    var currentPage: nat
    var totalPages: nat
    var logo: Option<Logo>

    /** During layout the generator's page, the library's current page and the page
        count agree. */
    ghost predicate Valid()
      reads this, doc
    {
      doc.Valid() && doc.current == doc.pages == currentPage
    }

    /** What stays fixed while the document is laid out. */
    function Config(): Setup
      reads this
    {
      Setup(doc.metrics, pageWidth, pageHeight, logo)
    }

    /** The layout state the functions of `AdvancedLayout` work on. */
    function Snapshot(): State
      reads this, doc
    {
      State(doc.pages, yPosition, doc.font, doc.ops)
    }

    /** `new AdvancedPDFGenerator()`: a fresh A4 document (its size and metrics come
        from the library), the cursor at the top margin and no logo. */
    constructor (metrics: Metrics, pw: real, ph: real)
      ensures Valid() && fresh(doc) && Snapshot() == Start()
      ensures Config() == Setup(metrics, pw, ph, None) && totalPages == 0
    {
      doc := new Doc(metrics);
      pageWidth, pageHeight := pw, ph;
      yPosition, currentPage, totalPages := Margin, 1, 0;
      logo := None;
    }

    /** `loadLogo`: keeps the image scaled to fit 50 by 30, or no logo when the image
        fails to load. */
    method LoadLogo(image: Option<(real, real)>)
      requires image.Some? ==> image.value.0 >= 0.0 && image.value.1 >= 0.0
      modifies this
      ensures logo == (if image.Some? then Some(FitLogo(image.value.0, image.value.1)) else None)
      ensures yPosition == old(yPosition) && currentPage == old(currentPage) && totalPages == old(totalPages)
    {
      if image.Some? {
        logo := Some(FitLogo(image.value.0, image.value.1));
      } else {
        logo := None;
      }
    }

    /** `addHeader`: nothing on the first page, otherwise the page header. */
    method AddHeader()
      requires Valid()
      modifies doc
      ensures Valid() && doc.pages == old(doc.pages)
      ensures currentPage == 1 ==> doc.ops == old(doc.ops) && doc.font == old(doc.font)
      ensures currentPage != 1 ==> doc.ops == old(doc.ops) + HeaderOps(Config(), currentPage) && doc.font == HeaderFont
    {
      if currentPage == 1 {
        return;
      }
      ghost var before := doc.ops;
      if logo.Some? && logo.value.w > 0.0 {
        doc.Image(Margin, 5.0, logo.value.w * 0.7, logo.value.h * 0.7);
      }
      doc.SetFontSize(10.0);
      doc.SetFontStyle(Normal);
      doc.Text(HeaderTitle, pageWidth - Margin, 15.0, Right);
      doc.Line(Margin, 20.0, pageWidth - Margin, 20.0);
      assert doc.ops == before + HeaderOps(Config(), currentPage);
    }

    /** `addPage`. */
    method AddPage()
      requires Valid()
      modifies this, doc
      ensures Valid() && Config() == old(Config()) && totalPages == old(totalPages)
      ensures Snapshot() == NewPage(Config(), old(Snapshot()))
    {
      doc.AddPage();
      currentPage := currentPage + 1;
      yPosition := Margin + 40.0;
      AddHeader();
    }

    /** `checkPageBreak(requiredSpace)`. */
    method CheckPageBreak(requiredSpace: real)
      requires Valid()
      modifies this, doc
      ensures Valid() && Config() == old(Config()) && totalPages == old(totalPages)
      ensures Snapshot() == Break(Config(), old(Snapshot()), requiredSpace)
    {
      if yPosition + requiredSpace > pageHeight - 20.0 - Margin {
        AddPage();
      }
    }

    /** `addText(text, { fontSize, fontStyle, align, x, y, maxWidth, lineHeight })`. */
    method AddText(text: string, fontSize: real, fontStyle: Style, align: Align,
                   x: Option<real>, y: Option<real>, maxWidth: real, lineHeight: real)
      requires Valid()
      modifies this, doc
      ensures Valid() && Config() == old(Config()) && totalPages == old(totalPages)
      ensures Snapshot() == AddTextS(Config(), old(Snapshot()), text, fontSize, fontStyle, align, x, y, maxWidth, lineHeight)
    {
      if text == "" {
        return;
      }
      var processed := ProcessText(text);
      doc.SetFontSize(fontSize);
      doc.SetFontStyle(fontStyle);
      var xPos := if x.Some? then x.value else Margin;
      var yPos := if y.Some? then y.value else yPosition;
      if maxWidth != 0.0 && doc.TextWidth(processed) > maxWidth {
        var lines := doc.SplitText(processed, maxWidth);
        yPos := WrappedLines(lines, align, xPos, yPos, lineHeight);
        if y.None? {
          yPosition := yPos;
        }
      } else {
        FitText(processed, align, xPos, yPos, y.None?, lineHeight);
      }
    }

    /** The branch of `addText` for a text that needs no wrapping. */
    method FitText(text: string, align: Align, x: real, y: real, moves: bool, lineHeight: real)
      requires Valid()
      modifies this, doc
      ensures Valid() && Config() == old(Config()) && totalPages == old(totalPages)
      ensures Snapshot() == FitS(Config(), old(Snapshot()), text, align, x, y, moves, lineHeight)
    {
      var xPos := x;
      if align == Center {
        xPos := (pageWidth - doc.TextWidth(text)) / 2.0;
      } else if align == Right {
        xPos := pageWidth - Margin - doc.TextWidth(text);
      }
      CheckPageBreak(lineHeight);
      doc.Text(text, xPos, y, Left);
      if moves {
        yPosition := yPosition + lineHeight;
      }
    }

    /** The loop of `addText` over the lines `splitTextToSize` gave; returns the
        final yPos. */
    method WrappedLines(lines: seq<string>, align: Align, x0: real, yStart: real, lineHeight: real) returns (yEnd: real)
      requires Valid()
      modifies this, doc
      ensures Valid() && Config() == old(Config()) && totalPages == old(totalPages)
      ensures (Snapshot(), yEnd) == WrapLines(Config(), old(Snapshot()), lines, align, x0, yStart, lineHeight)
    {
      ghost var s0 := Snapshot();
      var xPos := x0;
      var yPos := yStart;
      var i := 0;
      while i < |lines|
        invariant 0 <= i <= |lines|
        invariant Valid() && Config() == old(Config()) && totalPages == old(totalPages)
        invariant align == Left ==> xPos == x0
        invariant (Snapshot(), yPos) == WrapLines(Config(), s0, lines[..i], align, x0, yStart, lineHeight)
      {
        CheckPageBreak(lineHeight);
        var line := lines[i];
        if align == Center {
          xPos := (pageWidth - doc.TextWidth(line)) / 2.0;
        } else if align == Right {
          xPos := pageWidth - Margin - doc.TextWidth(line);
        }
        doc.Text(line, xPos, yPos, Left);
        yPos := yPos + lineHeight;
        assert lines[..i + 1][..i] == lines[..i];
        i := i + 1;
      }
      assert lines[..i] == lines;
      yEnd := yPos;
    }

    /** The cut `addTable` applies to a cell in the body font: shorten while the
        text with "..." is wider than the column less its padding, then add "...".
        Draws nothing. */
    method FitCell(t: Table, cell: string) returns (cellText: string)
      requires |t.headers| > 0 && doc.font == Font(t.fontSize, Normal)
      ensures cellText == CellText(Config(), t, cell)
    {
      var maxCellWidth := (pageWidth - 2.0 * Margin) / |t.headers| as real - 2.0 * t.cellPadding;
      cellText := ProcessText(cell);
      if doc.TextWidth(cellText) > maxCellWidth {
        ghost var full := cellText;
        while doc.TextWidth(cellText + "...") > maxCellWidth && |cellText| > 0
          invariant Shrink(doc.metrics, doc.font, cellText, maxCellWidth) == Shrink(doc.metrics, doc.font, full, maxCellWidth)
          decreases |cellText|
        {
          cellText := cellText[..|cellText| - 1];
        }
        cellText := cellText + "...";
      }
    }

    /** The header cells of `addTable`, bold, on the header row whose top is y0. */
    method HeaderRow(t: Table, y0: real)
      requires Valid() && Drawable(t) && doc.font == Font(t.fontSize, Bold)
      modifies doc
      ensures Valid() && doc.pages == old(doc.pages) && doc.font == old(doc.font)
      ensures doc.ops == old(doc.ops) + HeaderCells(Config(), t, doc.pages, t.headers, CellY(t, y0))
    {
      var colWidth := (pageWidth - 2.0 * Margin) / |t.headers| as real;
      assert colWidth == ColWidth(Config(), t);
      var rowHeight := t.fontSize + 2.0 * t.cellPadding;
      assert rowHeight == RowHeight(t);
      var c := 0;
      while c < |t.headers|
        invariant 0 <= c <= |t.headers|
        invariant Valid() && doc.pages == old(doc.pages) && doc.font == old(doc.font)
        invariant doc.ops == old(doc.ops) + HeaderCells(Config(), t, doc.pages, t.headers[..c], CellY(t, y0))
      {
        assert Margin + c as real * colWidth + t.cellPadding == CellX(Config(), t, c);
        doc.Text(ProcessText(t.headers[c]), Margin + c as real * colWidth + t.cellPadding,
                 y0 + rowHeight / 2.0 + t.fontSize / 3.0, Left);
        HeaderCellsSnoc(Config(), t, doc.pages, t.headers, c, CellY(t, y0));
        c := c + 1;
      }
      assert t.headers[..c] == t.headers;
    }

    /** The cells of one body row, each cut to its column, at baseline ty. */
    method RowTexts(t: Table, row: seq<string>, ty: real)
      requires Valid() && |t.headers| > 0 && doc.font == Font(t.fontSize, Normal)
      modifies doc
      ensures Valid() && doc.pages == old(doc.pages) && doc.font == old(doc.font)
      ensures doc.ops == old(doc.ops) + RowCells(Config(), t, doc.pages, row, ty)
    {
      var k := 0;
      while k < |row|
        invariant 0 <= k <= |row|
        invariant Valid() && doc.pages == old(doc.pages) && doc.font == old(doc.font)
        invariant doc.ops == old(doc.ops) + RowCells(Config(), t, doc.pages, row[..k], ty)
      {
        var cellText := FitCell(t, row[k]);
        ghost var prev := RowCells(Config(), t, doc.pages, row[..k], ty);
        doc.Text(cellText, CellX(Config(), t, k), ty, Left);
        RowCellsSnoc(Config(), t, doc.pages, row, k, ty);
        assert old(doc.ops) + prev + [doc.ops[|doc.ops| - 1]] == old(doc.ops) + (prev + [doc.ops[|doc.ops| - 1]]);
        k := k + 1;
      }
      assert row[..k] == row;
    }

    /** One body row of `addTable` whose top is y: its stripe, then its cells. */
    method BodyRow(t: Table, r: nat, y: real)
      requires Valid() && Drawable(t) && r < |t.rows| && doc.font.size == t.fontSize
      modifies doc
      ensures Valid() && doc.pages == old(doc.pages) && doc.font == Font(t.fontSize, Normal)
      ensures doc.ops == old(doc.ops) +
        [RectOp(doc.pages, Margin, y, TableWidth(Config()), RowHeight(t), RowColor(t, r))] +
        RowCells(Config(), t, doc.pages, t.rows[r], CellY(t, y))
    {
      var tableWidth := pageWidth - 2.0 * Margin;
      var rowHeight := t.fontSize + 2.0 * t.cellPadding;
      doc.Rect(Margin, y, tableWidth, rowHeight, Some(t.rowColors[r % |t.rowColors|]));
      doc.SetFontStyle(Normal);
      ghost var mid := doc.ops;
      RowTexts(t, t.rows[r], CellY(t, y));
      assert doc.ops == mid + RowCells(Config(), t, doc.pages, t.rows[r], CellY(t, y));
    }

    /** The body rows of `addTable` under a header whose top is y0, each on its
        stripe colour; returns the bottom of the last row. */
    method BodyRows(t: Table, y0: real) returns (currentY: real)
      requires Valid() && Drawable(t) && doc.font == Font(t.fontSize, Bold)
      modifies doc
      ensures Valid() && doc.pages == old(doc.pages)
      ensures doc.font == Font(t.fontSize, if t.rows == [] then Bold else Normal)
      ensures doc.ops == old(doc.ops) + BodyOps(Config(), t, doc.pages, y0, |t.rows|)
      ensures currentY == Steps(y0, |t.rows| + 1, RowHeight(t))
    {
      var rowHeight := t.fontSize + 2.0 * t.cellPadding;
      currentY := y0 + rowHeight;
      assert Steps(y0, 0, RowHeight(t)) == y0;
      assert currentY == RowTop(t, y0, 0);
      var r := 0;
      while r < |t.rows|
        invariant 0 <= r <= |t.rows|
        invariant Valid() && doc.pages == old(doc.pages)
        invariant doc.font == Font(t.fontSize, if r == 0 then Bold else Normal)
        invariant currentY == RowTop(t, y0, r)
        invariant doc.ops == old(doc.ops) + BodyOps(Config(), t, doc.pages, y0, r)
      {
        BodyRow(t, r, currentY);
        BodyOpsSnoc(Config(), t, doc.pages, y0, r, old(doc.ops));
        currentY := currentY + rowHeight;
        r := r + 1;
      }
    }

    /** The vertical lines of `addTable` between the columns, from y0 to y1. */
    method Separators(t: Table, y0: real, y1: real)
      requires Valid() && |t.headers| > 0
      modifies doc
      ensures Valid() && doc.pages == old(doc.pages) && doc.font == old(doc.font)
      ensures doc.ops == old(doc.ops) + ColumnLines(Config(), t, doc.pages, y0, y1, |t.headers|)
    {
      var i := 1;
      while i < |t.headers|
        invariant 1 <= i <= |t.headers|
        invariant Valid() && doc.pages == old(doc.pages) && doc.font == old(doc.font)
        invariant doc.ops == old(doc.ops) + ColumnLines(Config(), t, doc.pages, y0, y1, i)
      {
        var x := SeparatorX(Config(), t, i);
        doc.Line(x, y0, x, y1);
        i := i + 1;
      }
    }

    /** The header row of the table: its filled band, then the bold cells. */
    method TableHead(t: Table)
      requires Valid() && Drawable(t)
      modifies doc
      ensures Valid() && doc.pages == old(doc.pages) && doc.font == Font(t.fontSize, Bold)
      ensures doc.ops == old(doc.ops) + TableHeadOps(Config(), t, doc.pages, yPosition)
    {
      var tableWidth := pageWidth - 2.0 * Margin;
      var rowHeight := t.fontSize + 2.0 * t.cellPadding;
      doc.Rect(Margin, yPosition, tableWidth, rowHeight, Some(t.headerBg));
      doc.SetFontSize(t.fontSize);
      doc.SetFontStyle(Bold);
      ghost var o1 := doc.ops;
      HeaderRow(t, yPosition);
      assert doc.ops == o1 + HeaderCells(Config(), t, doc.pages, t.headers, CellY(t, yPosition));
    }

    /** The outline of the whole table from y0 to y1 and the column separators. */
    method TableFrame(t: Table, y0: real, y1: real)
      requires Valid() && Drawable(t)
      modifies doc
      ensures Valid() && doc.pages == old(doc.pages) && doc.font == old(doc.font)
      ensures doc.ops == old(doc.ops) + TableFrameOps(Config(), t, doc.pages, y0, y1)
    {
      var tableWidth := pageWidth - 2.0 * Margin;
      doc.Rect(Margin, y0, tableWidth, y1 - y0, None);
      ghost var o1 := doc.ops;
      Separators(t, y0, y1);
      assert doc.ops == o1 + ColumnLines(Config(), t, doc.pages, y0, y1, |t.headers|);
    }

    /** The table itself, its header with its top at yPosition: returns the bottom
        of its last row. */
    method DrawTable(t: Table) returns (bottom: real)
      requires Valid() && Drawable(t)
      modifies doc
      ensures Valid() && doc.pages == old(doc.pages)
      ensures doc.font == Font(t.fontSize, if t.rows == [] then Bold else Normal)
      ensures doc.ops == old(doc.ops) + TableOps(Config(), t, doc.pages, yPosition)
      ensures bottom == yPosition + TableHeight(t)
    {
      TableHead(t);
      ghost var o1 := doc.ops;
      bottom := BodyRows(t, yPosition);
      ghost var o2 := doc.ops;
      TableBottom(t, yPosition);
      TableFrame(t, yPosition, bottom);
      TableOpsSplit(Config(), t, doc.pages, yPosition, old(doc.ops));
    }

    /** `addTable(headers, rows, options)`. */
    method AddTable(t: Table)
      requires Valid() && Drawable(t)
      modifies this, doc
      ensures Valid() && Config() == old(Config()) && totalPages == old(totalPages)
      ensures Snapshot() == AddTableS(Config(), old(Snapshot()), t)
    {
      var tableHeight := TableHeight(t);
      CheckPageBreak(tableHeight);
      ghost var s1 := Snapshot();
      var bottom := DrawTable(t);
      yPosition := bottom + 5.0;
      assert Snapshot() == State(s1.pages, s1.y + TableHeight(t) + 5.0, Font(t.fontSize, if t.rows == [] then Bold else Normal),
                                 s1.ops + TableOps(Config(), t, s1.pages, s1.y));
    }

    /** The filled notice box of an electronically signed document at the cursor,
        with the notice wrapped and centred inside it. */
    method Banner()
      requires Valid()
      modifies this, doc
      ensures Valid() && Config() == old(Config()) && totalPages == old(totalPages)
      ensures Snapshot() == BannerS(Config(), old(Snapshot()))
    {
      var rectWidth := pageWidth - 2.0 * Margin - 20.0;
      var rectX := Margin + 10.0;
      var rectHeight := 30.0;
      var rectY := yPosition;
      doc.Rect(rectX, rectY, rectWidth, rectHeight, Some(Primary));
      doc.SetFontSize(11.0);
      doc.SetFontStyle(Bold);
      var textLines := doc.SplitText(ElectronicText, rectWidth - 10.0);
      ghost var o1 := doc.ops;
      BannerText(textLines, rectY + 12.0);
      assert doc.ops == o1 + BannerLines(Config(), doc.pages, textLines, rectY + 12.0);
      yPosition := yPosition + rectHeight + 15.0;
    }

    /** The lines of the notice, one every 6 from ty down, each centred in the box. */
    method BannerText(lines: seq<string>, ty: real)
      requires Valid() && doc.font == BannerFont
      modifies doc
      ensures Valid() && doc.pages == old(doc.pages) && doc.font == BannerFont
      ensures doc.ops == old(doc.ops) + BannerLines(Config(), doc.pages, lines, ty)
    {
      var rectWidth := pageWidth - 2.0 * Margin - 20.0;
      var textY := ty;
      var j := 0;
      while j < |lines|
        invariant 0 <= j <= |lines|
        invariant Valid() && doc.pages == old(doc.pages) && doc.font == BannerFont
        invariant textY == ty + 6.0 * j as real
        invariant doc.ops == old(doc.ops) + BannerLines(Config(), doc.pages, lines[..j], ty)
      {
        var textWidth := doc.TextWidth(lines[j]);
        var textX := Margin + 10.0 + (rectWidth - textWidth) / 2.0;
        doc.Text(lines[j], textX, textY, Left);
        assert lines[..j + 1][..j] == lines[..j];
        textY := textY + 6.0;
        j := j + 1;
      }
      assert lines[..j] == lines;
    }

    /** The two signature lines and, under each, the representative's name and
        position when they are set. */
    method Signatures(left: Representative, right: Representative)
      requires Valid()
      modifies this, doc
      ensures Valid() && Config() == old(Config()) && totalPages == old(totalPages)
      ensures Snapshot() == SignaturesS(Config(), old(Snapshot()), left, right)
    {
      ghost var s0 := Snapshot();
      var signatureY := yPosition + 20.0;
      SignatureRules(signatureY);
      yPosition := signatureY + 10.0;
      doc.SetFontSize(10.0);
      doc.SetFontStyle(Normal);
      SignatureTexts(left, right);
      SignatureOpsSplit(Config(), s0.ops, s0.pages, s0.y, left, right);
      yPosition := yPosition + 20.0;
    }

    /** The two signature lines at lineY. */
    method SignatureRules(lineY: real)
      requires Valid()
      modifies doc
      ensures Valid() && doc.pages == old(doc.pages) && doc.font == old(doc.font)
      ensures doc.ops == old(doc.ops) + SignatureLines(Config(), doc.pages, lineY)
    {
      var colWidth := (pageWidth - 2.0 * Margin) / 2.0;
      doc.Line(Margin + 20.0, lineY, Margin + colWidth - 20.0, lineY);
      doc.Line(pageWidth / 2.0 + 20.0, lineY, pageWidth - Margin - 20.0, lineY);
    }

    /** The names and positions under the signature lines, the names at the cursor. */
    method SignatureTexts(left: Representative, right: Representative)
      requires Valid() && doc.font == Font(10.0, Normal)
      modifies doc
      ensures Valid() && doc.pages == old(doc.pages) && doc.font == old(doc.font)
      ensures doc.ops == old(doc.ops) + SignatureNames(Config(), doc.pages, yPosition, left, right)
    {
      RepresentativeTexts(left, Margin + 20.0, yPosition);
      ghost var o1 := doc.ops;
      RepresentativeTexts(right, pageWidth / 2.0 + 20.0, yPosition);
      assert doc.ops == o1 + Representing(doc.pages, right, pageWidth / 2.0 + 20.0, yPosition);
    }

    /** One party's representative: the name at (x, y), the position 5 below. */
    method RepresentativeTexts(r: Representative, x: real, y: real)
      requires Valid() && doc.font == Font(10.0, Normal)
      modifies doc
      ensures Valid() && doc.pages == old(doc.pages) && doc.font == old(doc.font)
      ensures doc.ops == old(doc.ops) + Representing(doc.pages, r, x, y)
    {
      SignedText(r.name, x, y);
      ghost var o1 := doc.ops;
      SignedText(r.position, x, y + 5.0);
      assert doc.ops == o1 + Signed(doc.pages, r.position, x, y + 5.0);
    }

    /** A name or a position, drawn only when it is set. */
    method SignedText(text: string, x: real, y: real)
      requires Valid() && doc.font == Font(10.0, Normal)
      modifies doc
      ensures Valid() && doc.pages == old(doc.pages) && doc.font == old(doc.font)
      ensures doc.ops == old(doc.ops) + Signed(doc.pages, text, x, y)
    {
      if text != "" {
        doc.Text(ProcessText(text), x, y, Left);
      }
    }

    /** A line across the text width at the cursor. */
    method Rule()
      requires Valid()
      modifies doc
      ensures Valid() && Config() == old(Config()) && totalPages == old(totalPages)
      ensures Snapshot() == RuleS(Config(), old(Snapshot()))
    {
      doc.Line(Margin, yPosition, pageWidth - Margin, yPosition);
    }

    /** The logo at the top of the title page, at its loaded size, when there is one. */
    method Logo()
      requires Valid()
      modifies this, doc
      ensures Valid() && Config() == old(Config()) && totalPages == old(totalPages)
      ensures Snapshot() == LogoS(Config(), old(Snapshot()))
    {
      if logo.Some? && logo.value.w > 0.0 {
        doc.Image(Margin, yPosition, logo.value.w, logo.value.h);
        yPosition := yPosition + logo.value.h + 10.0;
      }
    }

    /** One step of `createTitlePage` or `createMainDocument`. */
    method Exec(b: Block)
      requires Valid() && (b.TableBlock? ==> |b.headers| > 0)
      modifies this, doc
      ensures Valid() && Config() == old(Config()) && totalPages == old(totalPages)
      ensures Snapshot() == ExecS(Config(), old(Snapshot()), b)
    {
      match b
      case TextBlock(text, size, style, align, maxWidth) =>
        AddText(text, size, style, align, None, None, maxWidth, LineHeight(size));
      case TableBlock(_, _, _, _) =>
        AddTable(BlockTable(b));
      case SpaceBlock(dy) =>
        yPosition := yPosition + dy;
      case MoveBlock(y) =>
        yPosition := y;
      case BreakBlock(need) =>
        CheckPageBreak(need);
      case RuleBlock =>
        Rule();
      case LogoBlock =>
        Logo();
      case BannerBlock =>
        Banner();
      case SignatureBlock(left, right) =>
        Signatures(left, right);
    }

    /** The steps of a page's content, in order. */
    method Run(bs: seq<Block>)
      requires Valid() && TablesHaveColumns(bs)
      modifies this, doc
      ensures Valid() && Config() == old(Config()) && totalPages == old(totalPages)
      ensures Snapshot() == RunS(Config(), old(Snapshot()), bs)
    {
      ghost var s0 := Snapshot();
      var i := 0;
      while i < |bs|
        invariant 0 <= i <= |bs|
        invariant Valid() && Config() == old(Config()) && totalPages == old(totalPages)
        invariant TablesHaveColumns(bs[..i])
        invariant Snapshot() == RunS(Config(), s0, bs[..i])
      {
        assert bs[i] in bs;
        Exec(bs[i]);
        assert bs[..i + 1][..i] == bs[..i];
        assert forall b :: b in bs[..i + 1] ==> b in bs;
        i := i + 1;
      }
      assert bs[..i] == bs;
    }

    /** `addFooter` on the current page; `stamp` is what the clock gave. */
    method AddFooter(stamp: string)
      requires doc.Valid() && doc.current == currentPage
      modifies doc
      ensures doc.Valid() && doc.pages == old(doc.pages) && doc.current == old(doc.current)
      ensures doc.ops == old(doc.ops) + FooterOps(Config(), currentPage, totalPages, stamp)
    {
      var footerY := pageHeight - 15.0;
      doc.SetFontSize(9.0);
      doc.SetFontStyle(Normal);
      doc.Text("Lapa " + NatToString(currentPage) + " no " + NatToString(totalPages), pageWidth / 2.0, footerY, Center);
      doc.Text("Ģenerēts: " + stamp, pageWidth - Margin, footerY, Right);
      doc.Line(Margin, footerY - 5.0, pageWidth - Margin, footerY - 5.0);
    }

    /** The title page, a new page, and the main document, from the top margin of
        the first page. */
    method LayOut(d: DocumentData, signedAt: string)
      requires Valid() && Snapshot() == Start()
      modifies this, doc
      ensures Valid() && Config() == old(Config()) && totalPages == old(totalPages)
      ensures Snapshot() == Laid(Config(), d, signedAt)
    {
      TitleTablesHaveColumns(d, pageWidth, pageHeight);
      Run(TitleBlocks(d, pageWidth, pageHeight));
      AddPage();
      MainTablesHaveColumns(d, pageWidth, signedAt);
      Run(MainBlocks(d, pageWidth, signedAt));
    }

    /** The footer loop of `generatePDF`: `totalPages` becomes the page count and
        every page gets its footer, page i reading the clock as `stamps(i)`. */
    method AddFooters(stamps: nat -> string)
      requires doc.Valid()
      modifies this, doc
      ensures doc.Valid() && Config() == old(Config()) && doc.pages == old(doc.pages) && totalPages == doc.pages
      ensures doc.ops == old(doc.ops) + Footers(Config(), doc.pages, doc.pages, stamps)
    {
      totalPages := doc.pages;
      var i := 1;
      while i <= totalPages
        invariant 1 <= i <= totalPages + 1
        invariant doc.Valid() && doc.pages == totalPages == old(doc.pages) && Config() == old(Config())
        invariant doc.ops == old(doc.ops) + Footers(Config(), totalPages, i - 1, stamps)
      {
        doc.SetPage(i);
        currentPage := i;
        ghost var before := doc.ops;
        AddFooter(stamps(i));
        assert old(doc.ops) + Footers(Config(), totalPages, i - 1, stamps) + FooterOps(Config(), i, totalPages, stamps(i)) ==
               old(doc.ops) + Footers(Config(), totalPages, i, stamps);
        i := i + 1;
      }
    }

    /** `generatePDF(data)` on a new generator: the logo, the title page, a new page,
        the main document, then the footer of every page. Page i reads the clock as
        `stamps(i)`; `image` is what loading the logo gives. */
    method GeneratePDF(d: DocumentData, signedAt: string, image: Option<(real, real)>, stamps: nat -> string)
      requires Valid() && Snapshot() == Start() && logo.None?
      requires image.Some? ==> image.value.0 >= 0.0 && image.value.1 >= 0.0
      modifies this, doc
      ensures Config() == old(Config()).(logo := LoadedLogo(d, image))
      ensures doc.pages == Laid(Config(), d, signedAt).pages
      ensures doc.ops == GenerateS(Config(), d, signedAt, stamps)
    {
      if d.companyLogo != "" {
        LoadLogo(image);
      }
      yPosition := Margin;
      LayOut(d, signedAt);
      ghost var laid := Snapshot();
      AddFooters(stamps);
      assert doc.ops == Finished(Config(), laid, stamps);
    }
  }

  /** `generateAdvancedPDF(data)`: what a new generator draws for the document, on
      at least two pages, each with its footer and every page but the first with its header. */
  method GenerateAdvancedPDF(metrics: Metrics, pw: real, ph: real, d: DocumentData, signedAt: string,
                             image: Option<(real, real)>, stamps: nat -> string) returns (pages: nat, ops: seq<Op>)
    requires image.Some? ==> image.value.0 >= 0.0 && image.value.1 >= 0.0
    ensures var S := Setup(metrics, pw, ph, LoadedLogo(d, image));
      pages == Laid(S, d, signedAt).pages && ops == GenerateS(S, d, signedAt, stamps)
    ensures pages >= 2
    ensures var S := Setup(metrics, pw, ph, LoadedLogo(d, image));
      Footed(S, pages, ops, stamps) && Headed(S, pages, ops)
  {
    var generator := new Generator(metrics, pw, ph);
    generator.GeneratePDF(d, signedAt, image, stamps);
    pages, ops := generator.doc.pages, generator.doc.ops;
    ghost var S := Setup(metrics, pw, ph, LoadedLogo(d, image));
    assert pages == Laid(S, d, signedAt).pages && ops == GenerateS(S, d, signedAt, stamps);
    GenerateShape(S, d, signedAt, stamps);
  }
}
