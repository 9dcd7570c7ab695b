/**
 * What each block of the basic generator draws, as functions over a pure layout
 * state: the page count, the cursor `yPosition`, the font in effect and the
 * drawing operations issued so far; then the page-numbering pass. `BasicGenerator`
 * implements each function as a method; the lemmas here are about the functions.
 */
module BasicLayout {
  import opened Basics
  import opened Canvas
  import opened Document
  import opened BasicText
  import opened BasicCompose

  /** What stays fixed while a document is laid out: the library's metrics and the
      page size it reports. */
  datatype Setup = Setup(metrics: Metrics, pw: real, ph: real)

  datatype State = State(pages: nat, y: real, font: Font, ops: seq<Op>)

  /** What `checkPageBreak` asks for when called without an argument. */
  const DefaultNeed: real := 20.0

  /** The lowest point `checkPageBreak` lets content reach: the bottom margin. */
  function Bottom(S: Setup): real {
    S.ph - Margin
  }

  /** `contentWidth`: the page less both margins. */
  function ContentWidth(S: Setup): real {
    S.pw - 2.0 * Margin
  }

  /** How far one line of a given font size moves the cursor. */
  function LineHeight(size: real): real {
    size * 0.4 + 3.0
  }

  /** `checkPageBreak(need)`: a new page with the cursor back at the margin when the
      space asked for passes the bottom. */
  function Break(S: Setup, s: State, need: real): State {
    if s.y + need > Bottom(S) then State(s.pages + 1, Margin, s.font, s.ops) else s
  }

  // ---------------------------------------------------------------------------
  // Text

  /** `addText(text, fontSize, style, align)`: the processed text as one line at
      the cursor, placed by its alignment, then one line height down; no check. */
  function AddTextS(S: Setup, s: State, text: string, size: real, style: Style, align: Align): State {
    var f, t := Font(size, style), ProcessLatvianText(text);
    var x := AlignedX(align, S.pw, Margin, S.metrics.width(f, t));
    State(s.pages, s.y + LineHeight(size), f, s.ops + [TextOp(s.pages, x, s.y, t, Left, f)])
  }

  /** The flow of `addWrappedText`'s lines: before each line the default check,
      after it one line height down; every line starts at the margin. */
  function WrapFlow(S: Setup, f: Font): Flow {
    Flow(DefaultNeed, Bottom(S), Margin, LineHeight(f.size), Left, S.pw, Margin, S.metrics, f)
  }

  /** The lines `addWrappedText` draws: the processed text wrapped to the content
      width in its font. */
  function WrappedLines(S: Setup, text: string, f: Font): seq<string> {
    S.metrics.split(f, ProcessLatvianText(text), ContentWidth(S))
  }

  /** `addWrappedText(text, fontSize, style)`: nothing for an empty text; otherwise
      the font and the wrapped lines, each after a check of its own. */
  function AddWrappedS(S: Setup, s: State, text: string, size: real, style: Style): State {
    if text == "" then s
    else
      var f := Font(size, style);
      var r := FlowLines(WrapFlow(S, f), WrappedLines(S, text, f), Cursor(s.pages, s.y));
      State(r.1.page, r.1.y, f, s.ops + r.0)
  }

  // ---------------------------------------------------------------------------
  // Lines, pages and the logo frame

  /** `addLine(...)`: a line across the content width, then 5 down. */
  function LineS(S: Setup, s: State): State {
    State(s.pages, s.y + 5.0, s.font, s.ops + [LineOp(s.pages, Margin, s.y, S.pw - Margin, s.y)])
  }

  /** `doc.addPage(); yPosition = margin`. */
  function NewPageS(s: State): State {
    State(s.pages + 1, Margin, s.font, s.ops)
  }

  /** The outlined frame at a fixed place of the title page and "LOGO" inside it in
      8 points; the cursor is not used. */
  function LogoFrameS(s: State): State {
    var f := Font(8.0, s.font.style);
    State(s.pages, s.y, f, s.ops + [RectOp(s.pages, Margin, 30.0, 50.0, 30.0, None),
                                    TextOp(s.pages, Margin + 20.0, 50.0, "LOGO", Left, f)])
  }

  // ---------------------------------------------------------------------------
  // The party columns of the title page

  const ColumnTitleFont := Font(12.0, Bold)
  const ColumnFont := Font(12.0, Normal)

  /** `rightColumn`. */
  function RightColumn(S: Setup): real {
    S.pw / 2.0 + 10.0
  }

  /** One column: the title, the processed name 8 below, and the registration
      number (as typed) 6 lower when there is one. */
  function ColumnOps(p: nat, x: real, y: real, title: string, party: Party): seq<Op> {
    [TextOp(p, x, y, title, Left, ColumnTitleFont),
     TextOp(p, x, y + 8.0, ProcessLatvianText(party.name), Left, ColumnFont)] +
    (if party.registrationNumber != "" then
       [TextOp(p, x, y + 14.0, "Reģ. Nr.: " + party.registrationNumber, Left, ColumnFont)]
     else [])
  }

  /** Where the right column leaves the cursor: past the title and the name. The
      registration number moves nothing. */
  function RightColumnEnd(y: real): real {
    y + 8.0 + 6.0
  }

  /** The two columns from the cursor; the cursor then goes to the larger of the
      right column's end and 40 below the start. */
  function ColumnsS(S: Setup, s: State, left: Party, right: Party): State {
    var yRight := RightColumnEnd(s.y);
    var yEnd := if yRight > s.y + 40.0 then yRight else s.y + 40.0;
    State(s.pages, yEnd, ColumnFont,
          s.ops + ColumnOps(s.pages, Margin, s.y, "NODODĒJS:", left) +
          ColumnOps(s.pages, RightColumn(S), s.y, "PIEŅĒMĒJS:", right))
  }

  // ---------------------------------------------------------------------------
  // The banner of an electronic signature

  const ElectronicText := "ŠIS DOKUMENTS IR PARAKSTĪTS AR DROŠU ELEKTRONISKO PARAKSTU UN SATUR LAIKA ZĪMOGU"
  const BannerFont := Font(12.0, Bold)

  function BannerX(): real {
    Margin + 10.0
  }

  function BannerWidth(S: Setup): real {
    ContentWidth(S) - 20.0
  }

  /** The notice, as typed, wrapped to the frame less 5 on either side. */
  function BannerLines(S: Setup): seq<string> {
    S.metrics.split(BannerFont, ElectronicText, BannerWidth(S) - 10.0)
  }

  /** The lines of the notice, each centred in the frame, 6 apart from y0 down. */
  function BannerTexts(S: Setup, p: nat, lines: seq<string>, y0: real): seq<Op>
    decreases |lines|
  {
    if lines == [] then []
    else
      var j := |lines| - 1;
      var x := BannerX() + (BannerWidth(S) - S.metrics.width(BannerFont, lines[j])) / 2.0;
      BannerTexts(S, p, lines[..j], y0) + [TextOp(p, x, Steps(y0, j, 6.0), lines[j], Left, BannerFont)]
  }

  /** The frame at the cursor, the notice inside it from 10 below its top, then
      the cursor 35 down; there is no check. */
  function BannerS(S: Setup, s: State): State {
    State(s.pages, s.y + 25.0 + 10.0, BannerFont,
          s.ops + [RectOp(s.pages, BannerX(), s.y, BannerWidth(S), 25.0, None)] +
          BannerTexts(S, s.pages, BannerLines(S), s.y + 10.0))
  }

  // ---------------------------------------------------------------------------
  // The signatures of a paper signature

  const SignatureFont := Font(10.0, Normal)

  /** `rightX` of the signatures. */
  function SignatureRightX(S: Setup): real {
    S.pw / 2.0 + 10.0
  }

  /** One signature: the title at y, in bold in the given size, an 80 long line 15
      below, the processed name 20 below and the processed position 25 below. */
  function SignatureOps(p: nat, x: real, y: real, title: string, titleSize: real, rep: Representative): seq<Op> {
    [TextOp(p, x, y, title, Left, Font(titleSize, Bold)),
     LineOp(p, x, y + 15.0, x + 80.0, y + 15.0),
     TextOp(p, x, y + 20.0, ProcessLatvianText(rep.name), Left, SignatureFont),
     TextOp(p, x, y + 25.0, ProcessLatvianText(rep.position), Left, SignatureFont)]
  }

  /** Both signatures at the cursor, then the cursor 35 down. The left title keeps
      the size in effect; the right one is set to 12. */
  function SignaturesS(S: Setup, s: State, left: Representative, right: Representative): State {
    State(s.pages, s.y + 35.0, SignatureFont,
          s.ops + SignatureOps(s.pages, Margin, s.y, "NODODĒJS:", s.font.size, left) +
          SignatureOps(s.pages, SignatureRightX(S), s.y, "PIEŅĒMĒJS:", 12.0, right))
  }

  // ---------------------------------------------------------------------------
  // Running the blocks

  function ExecS(S: Setup, s: State, b: Block): State {
    match b
    case TextBlock(text, size, style, align) => AddTextS(S, s, text, size, style, align)
    case WrappedBlock(text, size, style) => AddWrappedS(S, s, text, size, style)
    case BreakBlock(need) => Break(S, s, need)
    case LineBlock => LineS(S, s)
    case SpaceBlock(dy) => s.(y := s.y + dy)
    case MoveBlock(y) => s.(y := y)
    case NewPageBlock => NewPageS(s)
    case LogoFrameBlock => LogoFrameS(s)
    case ColumnsBlock(left, right) => ColumnsS(S, s, left, right)
    case BannerBlock => BannerS(S, s)
    case SignatureBlock(left, right) => SignaturesS(S, s, left, right)
  }

  function RunS(S: Setup, s: State, bs: seq<Block>): State
    decreases |bs|
  {
    if bs == [] then s else ExecS(S, RunS(S, s, bs[..|bs| - 1]), bs[|bs| - 1])
  }

  /** A new document: one page, the cursor at the margin, the library's font. */
  function Start(): State {
    State(1, Margin, DefaultFont, [])
  }

  /** The document laid out, before its pages are numbered. */
  function Laid(S: Setup, d: DocumentData): State {
    RunS(S, Start(), BasicBlocks(d, S.ph))
  }

  // ---------------------------------------------------------------------------
  // Page numbers

  /** "i / n". */
  function NumberLabel(i: nat, n: nat): string {
    NatToString(i) + " / " + NatToString(n)
  }

  /** The number of page i of n, near the bottom right corner, in 9 points of the
      style in effect. */
  function NumberOp(S: Setup, i: nat, n: nat, style: Style): Op {
    TextOp(i, S.pw - Margin - 15.0, S.ph - 10.0, NumberLabel(i, n), Left, Font(9.0, style))
  }

  /** The numbers of pages 1 .. k of n. */
  function Numbers(S: Setup, n: nat, k: nat, style: Style): seq<Op> {
    if k == 0 then [] else Numbers(S, n, k - 1, style) + [NumberOp(S, k, n, style)]
  }

  /** Everything `generatePDF` draws: the laid-out document, then the number of
      each of its pages. */
  function GenerateS(S: Setup, d: DocumentData): seq<Op> {
    var l := Laid(S, d);
    l.ops + Numbers(S, l.pages, l.pages, l.font.style)
  }

  // ---------------------------------------------------------------------------
  // The page-break check

  /** `checkPageBreak` adds one page exactly when the space asked for passes the
      bottom margin, and starts it at the top margin; it draws nothing. When the
      space fits on an empty page, it is there after the check. */
  lemma BreakRule(S: Setup, s: State, need: real)
    ensures var r := Break(S, s, need);
      r.ops == s.ops && r.font == s.font &&
      (r.pages == s.pages + 1 <==> s.y + need > Bottom(S)) &&
      (r.pages == s.pages <==> s.y + need <= Bottom(S)) &&
      (r.pages != s.pages ==> r.y == Margin) &&
      (Margin + need <= Bottom(S) ==> r.y + need <= Bottom(S))
  {
  }

  // ---------------------------------------------------------------------------
  // Text placement

  /** `addText` never starts a page: it draws its processed text — which holds
      none of the letters with a diacritic — as one line at the cursor, and the
      cursor goes down by size × 0.4 + 3. A centred line is centred on the page and
      a right-aligned one ends at the right margin. */
  lemma AddTextLine(S: Setup, s: State, text: string, size: real, style: Style, align: Align)
    ensures var r, f := AddTextS(S, s, text, size, style, align), Font(size, style);
      r.pages == s.pages && r.y == s.y + size * 0.4 + 3.0 && r.font == f &&
      |r.ops| == |s.ops| + 1 && r.ops[..|s.ops|] == s.ops &&
      var op := r.ops[|s.ops|];
      op.TextOp? && op.page == s.pages && op.y == s.y && op.font == f && op.align == Left &&
      |op.text| == |text| && (forall i :: 0 <= i < |op.text| ==> !IsLatvianLetter(op.text[i])) &&
      var w := S.metrics.width(f, op.text);
      (align == Left ==> op.x == Margin) &&
      (align == Center ==> op.x + w / 2.0 == S.pw / 2.0) &&
      (align == Right ==> op.x + w == S.pw - Margin)
  {
    var r := AddTextS(S, s, text, size, style, align);
    ProcessedHasNoLatvianLetters(text);
    assert r.ops[..|s.ops|] == s.ops;
  }

  /** `addWrappedText` draws the wrapped processed text line by line, in order, at
      the margin in the chosen font; every line has the default space below it or
      opens a page at the top margin, pages are used in order, and the cursor ends
      one line height below the last line. An empty text draws nothing. */
  lemma WrappedPlacement(S: Setup, s: State, text: string, size: real, style: Style)
    ensures text == "" ==> AddWrappedS(S, s, text, size, style) == s
    ensures text != "" ==>
      var r, f := AddWrappedS(S, s, text, size, style), Font(size, style);
      var lines := WrappedLines(S, text, f);
      |s.ops| <= |r.ops| && r.ops[..|s.ops|] == s.ops && |r.ops| - |s.ops| == |lines| && r.font == f &&
      (forall k :: 0 <= k < |lines| ==>
        var op := r.ops[|s.ops| + k];
        op.TextOp? && op.text == lines[k] && op.align == Left && op.font == f && op.x == Margin &&
        (op.y + DefaultNeed <= Bottom(S) || op.y == Margin) &&
        s.pages <= op.page <= r.pages) &&
      (lines != [] ==> r.ops[|r.ops| - 1].TextOp? && r.y == r.ops[|r.ops| - 1].y + size * 0.4 + 3.0)
  {
    if text != "" {
      var f := Font(size, style);
      var lines := WrappedLines(S, text, f);
      var c := Cursor(s.pages, s.y);
      var fl := FlowLines(WrapFlow(S, f), lines, c);
      FlowPlacement(WrapFlow(S, f), lines, c);
      var r := AddWrappedS(S, s, text, size, style);
      assert r.ops == s.ops + fl.0;
      forall k | 0 <= k < |lines| ensures r.ops[|s.ops| + k] == fl.0[k] {
      }
    }
  }

  /** When the text fits below the cursor as it is, `addWrappedText` stays on the
      page and moves the cursor down one line height per line. */
  lemma WrappedWithoutBreaks(S: Setup, s: State, text: string, size: real, style: Style)
    requires text != "" && size * 0.4 + 3.0 >= 0.0
    requires s.y + |WrappedLines(S, text, Font(size, style))| as real * LineHeight(size) + DefaultNeed <= Bottom(S)
    ensures var r := AddWrappedS(S, s, text, size, style);
      r.pages == s.pages && r.y == s.y + |WrappedLines(S, text, Font(size, style))| as real * (size * 0.4 + 3.0)
  {
    var f := Font(size, style);
    var lines := WrappedLines(S, text, f);
    StepsClosed(s.y, |lines|, LineHeight(size));
    FlowWithoutBreaks(WrapFlow(S, f), lines, Cursor(s.pages, s.y));
  }

  // ---------------------------------------------------------------------------
  // The party columns

  /** The party columns stay on the page; each starts with its title at the
      cursor, the left one at the margin and the right one at the middle plus 10,
      with the name 8 below and the registration number 14 below exactly when it
      is set. The right column advances only 14, so the larger of its end and 40
      below the start is always the latter. */
  lemma ColumnsLayout(S: Setup, s: State, left: Party, right: Party)
    ensures var r := ColumnsS(S, s, left, right);
      var a, b := ColumnOps(s.pages, Margin, s.y, "NODODĒJS:", left), ColumnOps(s.pages, RightColumn(S), s.y, "PIEŅĒMĒJS:", right);
      r.pages == s.pages && r.y == s.y + 40.0 && r.font == ColumnFont && r.ops == s.ops + a + b &&
      a[0] == TextOp(s.pages, Margin, s.y, "NODODĒJS:", Left, ColumnTitleFont) &&
      b[0] == TextOp(s.pages, RightColumn(S), s.y, "PIEŅĒMĒJS:", Left, ColumnTitleFont) &&
      a[1] == TextOp(s.pages, Margin, s.y + 8.0, ProcessLatvianText(left.name), Left, ColumnFont) &&
      b[1] == TextOp(s.pages, RightColumn(S), s.y + 8.0, ProcessLatvianText(right.name), Left, ColumnFont) &&
      (|a| == 3 <==> left.registrationNumber != "") && (|b| == 3 <==> right.registrationNumber != "") &&
      (|a| == 3 ==> a[2].TextOp? && a[2].y == s.y + 14.0) && (|b| == 3 ==> b[2].TextOp? && b[2].y == s.y + 14.0) &&
      forall op :: op in a + b ==> op.TextOp? && op.page == s.pages && s.y <= op.y <= s.y + 14.0 && op.align == Left
  {
  }

  // ---------------------------------------------------------------------------
  // The banner

  lemma {:induction false} BannerTextsShape(S: Setup, p: nat, lines: seq<string>, y0: real)
    ensures var ops := BannerTexts(S, p, lines, y0);
      |ops| == |lines| &&
      forall j :: 0 <= j < |lines| ==>
        ops[j].TextOp? && ops[j].page == p && ops[j].text == lines[j] && ops[j].align == Left &&
        ops[j].font == BannerFont && ops[j].y == Steps(y0, j, 6.0) &&
        ops[j].x == BannerX() + (BannerWidth(S) - S.metrics.width(BannerFont, lines[j])) / 2.0
    decreases |lines|
  {
    if lines != [] {
      var n := |lines| - 1;
      BannerTextsShape(S, p, lines[..n], y0);
      var ops := BannerTexts(S, p, lines, y0);
      forall j | 0 <= j < n
        ensures ops[j] == BannerTexts(S, p, lines[..n], y0)[j] && lines[j] == lines[..n][j]
      {
      }
    }
  }

  /** The banner stays on the page, 35 high: its frame is at the cursor and centred
      on the page, and line j of the notice is centred on the page at 10 + 6·j
      below the frame's top. */
  lemma BannerLayout(S: Setup, s: State)
    ensures var r, lines := BannerS(S, s), BannerLines(S);
      r.pages == s.pages && r.y == s.y + 35.0 && |r.ops| == |s.ops| + 1 + |lines| && r.ops[..|s.ops|] == s.ops &&
      r.ops[|s.ops|] == RectOp(s.pages, BannerX(), s.y, BannerWidth(S), 25.0, None) &&
      BannerX() + BannerWidth(S) / 2.0 == S.pw / 2.0 &&
      forall j :: 0 <= j < |lines| ==>
        var op := r.ops[|s.ops| + 1 + j];
        op.TextOp? && op.page == s.pages && op.text == lines[j] && op.y == s.y + 10.0 + j as real * 6.0 &&
        op.x + S.metrics.width(BannerFont, lines[j]) / 2.0 == S.pw / 2.0
  {
    var lines := BannerLines(S);
    var texts := BannerTexts(S, s.pages, lines, s.y + 10.0);
    BannerTextsShape(S, s.pages, lines, s.y + 10.0);
    var r := BannerS(S, s);
    assert r.ops == s.ops + [RectOp(s.pages, BannerX(), s.y, BannerWidth(S), 25.0, None)] + texts;
    forall j | 0 <= j < |lines|
      ensures r.ops[|s.ops| + 1 + j] == texts[j] && texts[j].y == s.y + 10.0 + j as real * 6.0
    {
      StepsClosed(s.y + 10.0, j, 6.0);
    }
  }

  // ---------------------------------------------------------------------------
  // The signatures

  /** The paper signatures stay on the page and move the cursor 35 down: two lines
      80 long, 15 below the cursor, under the two titles; the names 20 below and the
      positions 25 below, processed, drawn even when empty. */
  lemma SignaturesLayout(S: Setup, s: State, left: Representative, right: Representative)
    ensures var r := SignaturesS(S, s, left, right);
      var a := SignatureOps(s.pages, Margin, s.y, "NODODĒJS:", s.font.size, left);
      var b := SignatureOps(s.pages, SignatureRightX(S), s.y, "PIEŅĒMĒJS:", 12.0, right);
      r.pages == s.pages && r.y == s.y + 35.0 && r.ops == s.ops + a + b && |a| == |b| == 4 &&
      a[1] == LineOp(s.pages, Margin, s.y + 15.0, Margin + 80.0, s.y + 15.0) &&
      b[1] == LineOp(s.pages, S.pw / 2.0 + 10.0, s.y + 15.0, S.pw / 2.0 + 90.0, s.y + 15.0) &&
      a[2].TextOp? && a[2].text == ProcessLatvianText(left.name) && a[2].y == s.y + 20.0 &&
      a[3].TextOp? && a[3].text == ProcessLatvianText(left.position) && a[3].y == s.y + 25.0 &&
      b[2].TextOp? && b[2].text == ProcessLatvianText(right.name) && b[2].y == s.y + 20.0 &&
      b[3].TextOp? && b[3].text == ProcessLatvianText(right.position) && b[3].y == s.y + 25.0 &&
      forall op :: op in a + b ==> op.page == s.pages && (op.TextOp? ==> op.align == Left)
  {
  }

  // ---------------------------------------------------------------------------
  // What every run keeps

  /** Every operation drawn so far is on an existing page and every text is
      left-aligned: the basic generator computes the x of each line itself. */
  predicate Good(s: State) {
    s.pages >= 1 && DrawnOn(s.ops, 1, s.pages)
  }

  /** Operations on pages lo .. hi whose texts are all left-aligned. */
  predicate DrawnOn(ops: seq<Op>, lo: nat, hi: nat) {
    forall op :: op in ops ==> lo <= op.page <= hi && (op.TextOp? ==> op.align == Left)
  }

  /** r carries on from s: no page is taken away, nothing drawn is changed, and
      whatever is new is on a page from s's last one to r's last one. */
  predicate Grows(s: State, r: State) {
    s.pages <= r.pages && |s.ops| <= |r.ops| && r.ops[..|s.ops|] == s.ops &&
    DrawnOn(r.ops[|s.ops|..], s.pages, r.pages)
  }

  lemma AppendGrows(s: State, extra: seq<Op>, p: nat, y: real, f: Font)
    requires s.pages <= p && DrawnOn(extra, s.pages, p)
    ensures Grows(s, State(p, y, f, s.ops + extra))
  {
    var ops := s.ops + extra;
    assert ops[..|s.ops|] == s.ops && ops[|s.ops|..] == extra;
  }

  lemma {:induction false} GrowsTrans(s: State, m: State, r: State)
    requires Grows(s, m) && Grows(m, r)
    ensures Grows(s, r)
  {
    assert r.ops[..|s.ops|] == r.ops[..|m.ops|][..|s.ops|];
    assert r.ops[|s.ops|..] == m.ops[|s.ops|..] + r.ops[|m.ops|..] by {
      assert r.ops == r.ops[..|m.ops|] + r.ops[|m.ops|..];
      assert r.ops[..|m.ops|] == m.ops[..|s.ops|] + m.ops[|s.ops|..];
    }
  }

  lemma GrowsGood(s: State, r: State)
    requires Good(s) && Grows(s, r)
    ensures Good(r)
  {
    assert r.ops == s.ops + r.ops[|s.ops|..];
    forall op | op in r.ops ensures 1 <= op.page <= r.pages && (op.TextOp? ==> op.align == Left) {
      if op !in s.ops {
        assert op in r.ops[|s.ops|..];
      }
    }
  }

  lemma AddTextGrows(S: Setup, s: State, text: string, size: real, style: Style, align: Align)
    ensures Grows(s, AddTextS(S, s, text, size, style, align))
  {
    var f, t := Font(size, style), ProcessLatvianText(text);
    var x := AlignedX(align, S.pw, Margin, S.metrics.width(f, t));
    AppendGrows(s, [TextOp(s.pages, x, s.y, t, Left, f)], s.pages, s.y + LineHeight(size), f);
  }

  lemma WrappedGrows(S: Setup, s: State, text: string, size: real, style: Style)
    ensures Grows(s, AddWrappedS(S, s, text, size, style))
  {
    if text != "" {
      var f := Font(size, style);
      var lines := WrappedLines(S, text, f);
      var c := Cursor(s.pages, s.y);
      var fl := FlowLines(WrapFlow(S, f), lines, c);
      FlowPlacement(WrapFlow(S, f), lines, c);
      forall op | op in fl.0 ensures s.pages <= op.page <= fl.1.page && (op.TextOp? ==> op.align == Left) {
        var k :| 0 <= k < |fl.0| && fl.0[k] == op;
      }
      AppendGrows(s, fl.0, fl.1.page, fl.1.y, f);
    } else {
      assert s.ops[|s.ops|..] == [];
    }
  }

  lemma {:induction false} BannerTextsOn(S: Setup, p: nat, lines: seq<string>, y0: real)
    ensures DrawnOn(BannerTexts(S, p, lines, y0), p, p)
    decreases |lines|
  {
    if lines != [] {
      BannerTextsOn(S, p, lines[..|lines| - 1], y0);
    }
  }

  lemma BannerGrows(S: Setup, s: State)
    ensures Grows(s, BannerS(S, s))
  {
    var texts := BannerTexts(S, s.pages, BannerLines(S), s.y + 10.0);
    BannerTextsOn(S, s.pages, BannerLines(S), s.y + 10.0);
    AppendGrows(s, [RectOp(s.pages, BannerX(), s.y, BannerWidth(S), 25.0, None)] + texts, s.pages, s.y + 35.0, BannerFont);
  }

  lemma ColumnsGrows(S: Setup, s: State, left: Party, right: Party)
    ensures Grows(s, ColumnsS(S, s, left, right))
  {
    var a, b := ColumnOps(s.pages, Margin, s.y, "NODODĒJS:", left), ColumnOps(s.pages, RightColumn(S), s.y, "PIEŅĒMĒJS:", right);
    assert DrawnOn(a, s.pages, s.pages) && DrawnOn(b, s.pages, s.pages);
    AppendGrows(s, a + b, s.pages, ColumnsS(S, s, left, right).y, ColumnFont);
  }

  lemma SignaturesGrows(S: Setup, s: State, left: Representative, right: Representative)
    ensures Grows(s, SignaturesS(S, s, left, right))
  {
    var a := SignatureOps(s.pages, Margin, s.y, "NODODĒJS:", s.font.size, left);
    var b := SignatureOps(s.pages, SignatureRightX(S), s.y, "PIEŅĒMĒJS:", 12.0, right);
    assert DrawnOn(a, s.pages, s.pages) && DrawnOn(b, s.pages, s.pages);
    AppendGrows(s, a + b, s.pages, s.y + 35.0, SignatureFont);
  }

  /** A step that draws nothing and takes no page away. */
  lemma SameOps(s: State, r: State)
    requires r.ops == s.ops && s.pages <= r.pages
    ensures Grows(s, r)
  {
    assert s.ops[|s.ops|..] == [];
  }

  /** Every block carries on from the state before it. */
  lemma ExecGrows(S: Setup, s: State, b: Block)
    ensures Grows(s, ExecS(S, s, b))
  {
    match b {
      case TextBlock(text, size, style, align) => AddTextGrows(S, s, text, size, style, align);
      case WrappedBlock(text, size, style) => WrappedGrows(S, s, text, size, style);
      case BreakBlock(need) => SameOps(s, ExecS(S, s, b));
      case LineBlock => AppendGrows(s, [LineOp(s.pages, Margin, s.y, S.pw - Margin, s.y)], s.pages, s.y + 5.0, s.font);
      case SpaceBlock(dy) => SameOps(s, ExecS(S, s, b));
      case MoveBlock(y) => SameOps(s, ExecS(S, s, b));
      case NewPageBlock => SameOps(s, ExecS(S, s, b));
      case LogoFrameBlock =>
        var f := Font(8.0, s.font.style);
        AppendGrows(s, [RectOp(s.pages, Margin, 30.0, 50.0, 30.0, None), TextOp(s.pages, Margin + 20.0, 50.0, "LOGO", Left, f)], s.pages, s.y, f);
      case ColumnsBlock(left, right) => ColumnsGrows(S, s, left, right);
      case BannerBlock => BannerGrows(S, s);
      case SignatureBlock(left, right) => SignaturesGrows(S, s, left, right);
    }
  }

  lemma {:induction false} RunGrows(S: Setup, s: State, bs: seq<Block>)
    ensures Grows(s, RunS(S, s, bs))
    decreases |bs|
  {
    if bs != [] {
      var m := RunS(S, s, bs[..|bs| - 1]);
      RunGrows(S, s, bs[..|bs| - 1]);
      ExecGrows(S, m, bs[|bs| - 1]);
      GrowsTrans(s, m, RunS(S, s, bs));
    } else {
      assert s.ops[|s.ops|..] == [];
    }
  }

  /** Running two lists of blocks one after the other is running them joined. */
  lemma {:induction false} RunAppend(S: Setup, s: State, a: seq<Block>, b: seq<Block>)
    ensures RunS(S, s, a + b) == RunS(S, RunS(S, s, a), b)
    decreases |b|
  {
    if b != [] {
      RunAppend(S, s, a, b[..|b| - 1]);
      assert (a + b)[..|a + b| - 1] == a + b[..|b| - 1];
    } else {
      assert a + b == a;
    }
  }

  // ---------------------------------------------------------------------------
  // Page numbers

  lemma {:induction false} NumbersShape(S: Setup, n: nat, k: nat, style: Style)
    ensures var ops := Numbers(S, n, k, style);
      |ops| == k && forall i :: 0 <= i < k ==> ops[i] == NumberOp(S, i + 1, n, style)
  {
    if k > 0 {
      NumbersShape(S, n, k - 1, style);
    }
  }

  /** The numbering pass gives every page i of n, and nothing else, the label
      "i / n" with the same n, whose digits read back as i and n. */
  lemma NumbersOnEveryPage(S: Setup, n: nat, style: Style)
    ensures var ops := Numbers(S, n, n, style);
      |ops| == n &&
      (forall i :: 1 <= i <= n ==> ops[i - 1].page == i && ops[i - 1] == NumberOp(S, i, n, style)) &&
      forall op :: op in ops ==> exists i :: 1 <= i <= n && op == NumberOp(S, i, n, style)
  {
    NumbersShape(S, n, n, style);
    var ops := Numbers(S, n, n, style);
    forall op | op in ops ensures exists i :: 1 <= i <= n && op == NumberOp(S, i, n, style) {
      var k :| 0 <= k < n && ops[k] == op;
      assert op == NumberOp(S, k + 1, n, style);
    }
  }

  /** The label of page i of n: the digits of i, " / ", the digits of n. */
  lemma LabelReads(i: nat, n: nat)
    ensures var t, a, b := NumberLabel(i, n), NatToString(i), NatToString(n);
      t[..|a|] == a && t[|a|..|a| + 3] == " / " && t[|a| + 3..] == b &&
      AllDigits(a) && DecimalValue(a) == i && AllDigits(b) && DecimalValue(b) == n
  {
    var t, a, b := NumberLabel(i, n), NatToString(i), NatToString(n);
    assert t == a + " / " + b;
    assert t[..|a|] == a;
    assert t[|a|..|a| + 3] == " / ";
    assert t[|a| + 3..] == b;
  }

  // ---------------------------------------------------------------------------
  // The whole document

  /** The laid-out document is the title page, a new page, and the main document
      run from there. */
  lemma LaidSplit(S: Setup, d: DocumentData)
    ensures Laid(S, d) == RunS(S, NewPageS(RunS(S, Start(), TitleBlocks(d, S.ph))), MainBlocks(d))
  {
    var tb, mb := TitleBlocks(d, S.ph), MainBlocks(d);
    var t := RunS(S, Start(), tb);
    assert [NewPageBlock][..0] == [];
    assert RunS(S, t, [NewPageBlock]) == NewPageS(t);
    RunAppend(S, Start(), tb, [NewPageBlock]);
    RunAppend(S, Start(), tb + [NewPageBlock], mb);
  }

  /** The title page ends on some page t; the main document starts on page t + 1
      and everything it draws is on a page after t. */
  lemma MainOnNewPage(S: Setup, d: DocumentData)
    ensures var t, l := RunS(S, Start(), TitleBlocks(d, S.ph)), Laid(S, d);
      Grows(t, l) && t.pages >= 1 && l.pages >= t.pages + 1 &&
      forall i :: |t.ops| <= i < |l.ops| ==> l.ops[i].page > t.pages
  {
    var t := RunS(S, Start(), TitleBlocks(d, S.ph));
    var np := NewPageS(t);
    LaidSplit(S, d);
    var l := Laid(S, d);
    RunGrows(S, Start(), TitleBlocks(d, S.ph));
    RunGrows(S, np, MainBlocks(d));
    SameOps(t, np);
    GrowsTrans(t, np, l);
    forall i | |t.ops| <= i < |l.ops| ensures l.ops[i].page > t.pages {
      assert l.ops[i] in l.ops[|np.ops|..];
    }
  }

  /** The laid-out document: every operation on one of its at least two pages,
      every text left-aligned. */
  lemma LaidGood(S: Setup, d: DocumentData)
    ensures var l := Laid(S, d); Good(l) && l.pages >= 2
  {
    var t := RunS(S, Start(), TitleBlocks(d, S.ph));
    MainOnNewPage(S, d);
    RunGrows(S, Start(), TitleBlocks(d, S.ph));
    assert Good(Start());
    GrowsGood(Start(), t);
    GrowsGood(t, Laid(S, d));
  }

  lemma NumbersOn(S: Setup, n: nat, style: Style)
    ensures DrawnOn(Numbers(S, n, n, style), 1, n)
  {
    NumbersOnEveryPage(S, n, style);
    forall op | op in Numbers(S, n, n, style) ensures 1 <= op.page <= n && (op.TextOp? ==> op.align == Left) {
      var i :| 1 <= i <= n && op == NumberOp(S, i, n, style);
    }
  }

  /** The generated document has at least two pages; every operation is on one of
      them and every text is left-aligned; after everything laid out come the page
      numbers, page i carrying "i / n" for the same page count n. */
  lemma BasicGenerated(S: Setup, d: DocumentData)
    ensures var l, ops := Laid(S, d), GenerateS(S, d);
      l.pages >= 2 && |ops| == |l.ops| + l.pages && ops[..|l.ops|] == l.ops && DrawnOn(ops, 1, l.pages) &&
      forall i :: 1 <= i <= l.pages ==> ops[|l.ops| + i - 1] == NumberOp(S, i, l.pages, l.font.style)
  {
    var l := Laid(S, d);
    LaidGood(S, d);
    var nums := Numbers(S, l.pages, l.pages, l.font.style);
    NumbersOnEveryPage(S, l.pages, l.font.style);
    NumbersOn(S, l.pages, l.font.style);
    var ops := GenerateS(S, d);
    assert ops == l.ops + nums;
    assert ops[..|l.ops|] == l.ops;
  }
}
