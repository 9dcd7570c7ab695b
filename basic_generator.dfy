/**
 * The `generatePDF` function of the basic generator: its local helpers share the
 * library document and the cursor `yPosition`, which this class holds as fields;
 * each helper is a method. Each method is proved to leave the object in the state
 * the matching function of `BasicLayout` describes, so every lemma proved there
 * about the functions holds of what the methods draw.
 */
module BasicGenerator {
  import opened Basics
  import opened Canvas
  import opened Document
  import opened BasicText
  import opened BasicCompose
  import opened BasicLayout

  class Generator {
    const doc: Doc
    const pageWidth: real
    const pageHeight: real
    var yPosition: real

    /** During the layout the library draws on its last page. */
    ghost predicate Valid()
      reads this, doc
    {
      doc.Valid() && doc.current == doc.pages
    }

    function Config(): Setup
      reads this
    {
      Setup(doc.metrics, pageWidth, pageHeight)
    }

    /** The helpers' shared state, seen as a layout state. */
    function Snapshot(): State
      reads this, doc
    {
      State(doc.pages, yPosition, doc.font, doc.ops)
    }

    /** `new jsPDF('p', 'mm', 'a4')` with the size and metrics it reports, and
        `yPosition = margin`. */
    constructor (metrics: Metrics, pw: real, ph: real)
      ensures Valid() && fresh(doc) && Snapshot() == Start() && Config() == Setup(metrics, pw, ph)
    {
      doc := new Doc(metrics);
      pageWidth, pageHeight := pw, ph;
      yPosition := Margin;
    }

    /** `checkPageBreak(requiredSpace)`. */
    method CheckPageBreak(requiredSpace: real)
      requires Valid()
      modifies this, doc
      ensures Valid() && Snapshot() == Break(Config(), old(Snapshot()), requiredSpace)
    {
      if yPosition + requiredSpace > pageHeight - Margin {
        doc.AddPage();
        yPosition := Margin;
      }
    }

    /** `addText(text, fontSize, style, align)`; the colour is not modelled. */
    method AddText(text: string, fontSize: real, style: Style, align: Align)
      requires Valid()
      modifies this, doc
      ensures Valid() && Snapshot() == AddTextS(Config(), old(Snapshot()), text, fontSize, style, align)
    {
      var processedText := ProcessLatvianText(text);
      doc.SetFontSize(fontSize);
      doc.SetFontStyle(style);
      var x := Margin;
      if align == Center {
        var textWidth := doc.TextWidth(processedText);
        x := (pageWidth - textWidth) / 2.0;
      } else if align == Right {
        var textWidth := doc.TextWidth(processedText);
        x := pageWidth - Margin - textWidth;
      }
      doc.Text(processedText, x, yPosition, Left);
      yPosition := yPosition + fontSize * 0.4 + 3.0;
    }

    /** The loop of `addWrappedText`: for each line the default check, the line at
        the margin, one line height down. */
    method DrawLines(lines: seq<string>)
      requires Valid()
      modifies this, doc
      ensures Valid() && doc.font == old(doc.font)
      ensures var r := FlowLines(WrapFlow(Config(), doc.font), lines, Cursor(old(doc.pages), old(yPosition)));
        doc.pages == r.1.page && yPosition == r.1.y && doc.ops == old(doc.ops) + r.0
    {
      var i := 0;
      while i < |lines|
        invariant 0 <= i <= |lines|
        invariant Valid() && doc.font == old(doc.font)
        invariant var r := FlowLines(WrapFlow(Config(), doc.font), lines[..i], Cursor(old(doc.pages), old(yPosition)));
          doc.pages == r.1.page && yPosition == r.1.y && doc.ops == old(doc.ops) + r.0
      {
        CheckPageBreak(DefaultNeed);
        doc.Text(lines[i], Margin, yPosition, Left);
        yPosition := yPosition + doc.font.size * 0.4 + 3.0;
        assert lines[..i + 1][..i] == lines[..i];
        i := i + 1;
      }
      assert lines[..i] == lines;
    }

    /** `addWrappedText(text, fontSize, style)`; the colour is not modelled. */
    method AddWrappedText(text: string, fontSize: real, style: Style)
      requires Valid()
      modifies this, doc
      ensures Valid() && Snapshot() == AddWrappedS(Config(), old(Snapshot()), text, fontSize, style)
    {
      if text == "" {
        return;
      }
      doc.SetFontSize(fontSize);
      doc.SetFontStyle(style);
      var processedText := ProcessLatvianText(text);
      var lines := doc.SplitText(processedText, pageWidth - 2.0 * Margin);
      DrawLines(lines);
    }

    /** `addLine(thickness, color)`; thickness and colour are not modelled. */
    method AddLine()
      requires Valid()
      modifies this, doc
      ensures Valid() && Snapshot() == LineS(Config(), old(Snapshot()))
    {
      doc.Line(Margin, yPosition, pageWidth - Margin, yPosition);
      yPosition := yPosition + 5.0;
    }

    /** `addSpace(space)`. */
    method AddSpace(space: real)
      modifies this
      ensures Snapshot() == old(Snapshot()).(y := old(yPosition) + space)
    {
      yPosition := yPosition + space;
    }

    /** `doc.addPage(); yPosition = margin`. */
    method NewPage()
      requires Valid()
      modifies this, doc
      ensures Valid() && Snapshot() == NewPageS(old(Snapshot()))
    {
      doc.AddPage();
      yPosition := Margin;
    }

    /** The logo frame of the title page; its grey colour is not modelled. */
    method LogoFrame()
      requires Valid()
      modifies doc
      ensures Valid() && Snapshot() == LogoFrameS(old(Snapshot()))
    {
      doc.Rect(Margin, 30.0, 50.0, 30.0, None);
      doc.SetFontSize(8.0);
      doc.Text("LOGO", Margin + 20.0, 50.0, Left);
    }

    /** One party column in 12 points: the title in bold, 8 down, the processed
        name, 6 down, and the registration number when there is one. */
    method Column(x: real, title: string, party: Party)
      requires Valid() && doc.font.size == 12.0
      modifies this, doc
      ensures Valid() && doc.pages == old(doc.pages) && doc.font == ColumnFont
      ensures yPosition == old(yPosition) + 14.0
      ensures doc.ops == old(doc.ops) + ColumnOps(doc.pages, x, old(yPosition), title, party)
    {
      doc.SetFontStyle(Bold);
      doc.Text(title, x, yPosition, Left);
      yPosition := yPosition + 8.0;
      doc.SetFontStyle(Normal);
      doc.Text(ProcessLatvianText(party.name), x, yPosition, Left);
      yPosition := yPosition + 6.0;
      if party.registrationNumber != "" {
        doc.Text("Reģ. Nr.: " + party.registrationNumber, x, yPosition, Left);
      }
    }

    /** The party columns of the title page and `Math.max` of where they end. */
    method Columns(left: Party, right: Party)
      requires Valid()
      modifies this, doc
      ensures Valid() && Snapshot() == ColumnsS(Config(), old(Snapshot()), left, right)
    {
      doc.SetFontSize(12.0);
      doc.SetFontStyle(Bold);
      var leftColumn := Margin;
      var rightColumn := pageWidth / 2.0 + 10.0;
      var currentY := yPosition;
      yPosition := currentY;
      Column(leftColumn, "NODODĒJS:", left);
      if left.registrationNumber != "" {
        yPosition := yPosition + 6.0;
      }
      yPosition := currentY;
      Column(rightColumn, "PIEŅĒMĒJS:", right);
      if yPosition < currentY + 40.0 {
        yPosition := currentY + 40.0;
      }
    }

    /** The loop drawing the notice of an electronic signature, centred in the frame. */
    method BannerText(lines: seq<string>, rectX: real, rectWidth: real, y0: real)
      requires Valid() && doc.font == BannerFont && rectX == BannerX() && rectWidth == BannerWidth(Config())
      modifies doc
      ensures Valid() && doc.pages == old(doc.pages) && doc.font == old(doc.font)
      ensures doc.ops == old(doc.ops) + BannerTexts(Config(), doc.pages, lines, y0)
    {
      var textY := y0;
      var i := 0;
      while i < |lines|
        invariant 0 <= i <= |lines|
        invariant Valid() && doc.pages == old(doc.pages) && doc.font == old(doc.font)
        invariant textY == Steps(y0, i, 6.0)
        invariant doc.ops == old(doc.ops) + BannerTexts(Config(), doc.pages, lines[..i], y0)
      {
        var textWidth := doc.TextWidth(lines[i]);
        var textX := rectX + (rectWidth - textWidth) / 2.0;
        doc.Text(lines[i], textX, textY, Left);
        textY := textY + 6.0;
        assert lines[..i + 1][..i] == lines[..i];
        i := i + 1;
      }
      assert lines[..i] == lines;
    }

    /** The framed notice of an electronic signature; line width and colours are
        not modelled. */
    method Banner()
      requires Valid()
      modifies this, doc
      ensures Valid() && Snapshot() == BannerS(Config(), old(Snapshot()))
    {
      var rectWidth := pageWidth - 2.0 * Margin - 20.0;
      var rectHeight := 25.0;
      var rectX := Margin + 10.0;
      var rectY := yPosition;
      doc.Rect(rectX, rectY, rectWidth, rectHeight, None);
      doc.SetFontSize(12.0);
      doc.SetFontStyle(Bold);
      var textLines := doc.SplitText(ElectronicText, rectWidth - 10.0);
      BannerText(textLines, rectX, rectWidth, rectY + 10.0);
      yPosition := yPosition + rectHeight + 10.0;
    }

    /** One paper signature at the cursor: the title in bold, the line 15 below,
        then in 10 points the processed name and position. */
    method Signature(x: real, title: string, rep: Representative)
      requires Valid()
      modifies doc
      ensures Valid() && doc.pages == old(doc.pages) && doc.font == SignatureFont
      ensures doc.ops == old(doc.ops) + SignatureOps(doc.pages, x, yPosition, title, old(doc.font).size, rep)
    {
      var signatureY := yPosition;
      doc.SetFontStyle(Bold);
      doc.Text(title, x, signatureY, Left);
      doc.Line(x, signatureY + 15.0, x + 80.0, signatureY + 15.0);
      doc.SetFontStyle(Normal);
      doc.SetFontSize(10.0);
      doc.Text(ProcessLatvianText(rep.name), x, signatureY + 20.0, Left);
      doc.Text(ProcessLatvianText(rep.position), x, signatureY + 25.0, Left);
    }

    /** The two paper signatures, then the cursor 35 down; colours are not modelled. */
    method Signatures(left: Representative, right: Representative)
      requires Valid()
      modifies this, doc
      ensures Valid() && Snapshot() == SignaturesS(Config(), old(Snapshot()), left, right)
    {
      var signatureY := yPosition;
      Signature(Margin, "NODODĒJS:", left);
      var rightX := pageWidth / 2.0 + 10.0;
      doc.SetFontSize(12.0);
      Signature(rightX, "PIEŅĒMĒJS:", right);
      yPosition := signatureY + 35.0;
    }

    /** One statement of `generatePDF`. */
    method Exec(b: Block)
      requires Valid()
      modifies this, doc
      ensures Valid() && Snapshot() == ExecS(Config(), old(Snapshot()), b)
    {
      match b
      case TextBlock(text, size, style, align) =>
        AddText(text, size, style, align);
      case WrappedBlock(text, size, style) =>
        AddWrappedText(text, size, style);
      case BreakBlock(need) =>
        CheckPageBreak(need);
      case LineBlock =>
        AddLine();
      case SpaceBlock(dy) =>
        AddSpace(dy);
      case MoveBlock(y) =>
        yPosition := y;
      case NewPageBlock =>
        NewPage();
      case LogoFrameBlock =>
        LogoFrame();
      case ColumnsBlock(left, right) =>
        Columns(left, right);
      case BannerBlock =>
        Banner();
      case SignatureBlock(left, right) =>
        Signatures(left, right);
    }

    /** The statements of `generatePDF`, in order. */
    method Run(bs: seq<Block>)
      requires Valid()
      modifies this, doc
      ensures Valid() && Snapshot() == RunS(Config(), old(Snapshot()), bs)
    {
      ghost var s0 := Snapshot();
      var i := 0;
      while i < |bs|
        invariant 0 <= i <= |bs|
        invariant Valid() && Snapshot() == RunS(Config(), s0, bs[..i])
      {
        Exec(bs[i]);
        assert bs[..i + 1][..i] == bs[..i];
        i := i + 1;
      }
      assert bs[..i] == bs;
    }

    /** The page-numbering pass: every page in turn, its number in 9 points near
        the bottom right corner; the grey colour is not modelled. */
    method NumberPages()
      requires Valid()
      modifies doc
      ensures Valid() && doc.pages == old(doc.pages)
      ensures doc.ops == old(doc.ops) + Numbers(Config(), doc.pages, doc.pages, old(doc.font).style)
    {
      var totalPages := doc.pages;
      var i := 1;
      while i <= totalPages
        invariant 1 <= i <= totalPages + 1
        invariant doc.Valid() && doc.pages == totalPages && doc.font.style == old(doc.font).style
        invariant i > 1 ==> doc.current == i - 1
        invariant doc.ops == old(doc.ops) + Numbers(Config(), totalPages, i - 1, old(doc.font).style)
      {
        doc.SetPage(i);
        doc.SetFontSize(9.0);
        doc.Text(NatToString(i) + " / " + NatToString(totalPages), pageWidth - Margin - 15.0, pageHeight - 10.0, Left);
        i := i + 1;
      }
    }
  }

  /** `generatePDF(data)`: a new document, the title page, a new page and the main
      document, then the page numbers. The result is what was drawn and on how many
      pages; turning it into a blob is the library's business. */
  method GeneratePDF(metrics: Metrics, pw: real, ph: real, d: DocumentData) returns (pages: nat, ops: seq<Op>)
    ensures pages == Laid(Setup(metrics, pw, ph), d).pages && ops == GenerateS(Setup(metrics, pw, ph), d)
    ensures pages >= 2 && forall op :: op in ops ==> 1 <= op.page <= pages && (op.TextOp? ==> op.align == Left)
  {
    var g := new Generator(metrics, pw, ph);
    g.Run(BasicBlocks(d, ph));
    g.NumberPages();
    pages, ops := g.doc.pages, g.doc.ops;
    BasicGenerated(Setup(metrics, pw, ph), d);
  }
}
