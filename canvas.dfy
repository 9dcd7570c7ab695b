/**
 * The drawing library the three generators write to, seen from outside: a
 * document with a number of pages, a current page, a current font, and the list of
 * drawing operations issued so far. Glyph metrics and line wrapping belong to the
 * library and are given as two functions (`Metrics`), about which nothing is assumed.
 *
 * `FlowLines` is the placement rule shared by the Fast generator's `addText` and the
 * basic generator's `addWrappedText`: every line is preceded by a page-break check.
 */
module Canvas {
  import opened Basics

  datatype Style = Normal | Bold | Italic
  datatype Align = Left | Center | Right
  datatype Font = Font(size: real, style: Style)
  datatype Rgb = Rgb(r: int, g: int, b: int)

  /** One drawing call, stamped with the page it landed on (and, for text, the font
      in effect when it was drawn). */
  datatype Op =
    | TextOp(page: nat, x: real, y: real, text: string, align: Align, font: Font)
    | RectOp(page: nat, x: real, y: real, w: real, h: real, fill: Option<Rgb>)
    | LineOp(page: nat, x1: real, y1: real, x2: real, y2: real)
    | ImageOp(page: nat, x: real, y: real, w: real, h: real)

  /** `getTextWidth` and `splitTextToSize`, as functions of the font in effect. */
  datatype Metrics = Metrics(width: (Font, string) -> real, split: (Font, string, real) -> seq<string>)

  /** The library's font before any `setFontSize`/`setFont` call. */
  const DefaultFont := Font(16.0, Normal)

  class Doc {
    const metrics: Metrics
    var pages: nat
    var current: nat
    var font: Font
    var ops: seq<Op>

    ghost predicate Valid()
      reads this
    {
      1 <= current <= pages
    }

    /** A new document has one empty page. */
    constructor (metrics: Metrics)
      ensures Valid() && this.metrics == metrics
      ensures pages == 1 && current == 1 && font == DefaultFont && ops == []
    {
      this.metrics := metrics;
      pages, current, font, ops := 1, 1, DefaultFont, [];
    }

    function TextWidth(s: string): real
      reads this
    {
      metrics.width(font, s)
    }

    function SplitText(s: string, maxWidth: real): seq<string>
      reads this
    {
      metrics.split(font, s, maxWidth)
    }

    /** `addPage`: appends a page and makes it the current one. */
    method AddPage()
      requires Valid()
      modifies this
      ensures Valid() && pages == old(pages) + 1 && current == pages
      ensures font == old(font) && ops == old(ops)
    {
      pages := pages + 1;
      current := pages;
    }

    /** `setPage(n)`. */
    method SetPage(n: nat)
      requires 1 <= n <= pages
      modifies this
      ensures Valid() && current == n
      ensures pages == old(pages) && font == old(font) && ops == old(ops)
    {
      current := n;
    }

    method SetFontSize(size: real)
      modifies this
      ensures font == Font(size, old(font).style)
      ensures pages == old(pages) && current == old(current) && ops == old(ops)
    {
      font := Font(size, font.style);
    }

    method SetFontStyle(style: Style)
      modifies this
      ensures font == Font(old(font).size, style)
      ensures pages == old(pages) && current == old(current) && ops == old(ops)
    {
      font := Font(font.size, style);
    }

    /** `text(s, x, y)`, with an optional `align` option. */
    method Text(s: string, x: real, y: real, align: Align)
      modifies this
      ensures ops == old(ops) + [TextOp(current, x, y, s, align, font)]
      ensures pages == old(pages) && current == old(current) && font == old(font)
    {
      ops := ops + [TextOp(current, x, y, s, align, font)];
    }

    /** `rect(...)`; `fill` is the fill colour of the 'F'/'FD' styles, None for an outline. */
    method Rect(x: real, y: real, w: real, h: real, fill: Option<Rgb>)
      modifies this
      ensures ops == old(ops) + [RectOp(current, x, y, w, h, fill)]
      ensures pages == old(pages) && current == old(current) && font == old(font)
    {
      ops := ops + [RectOp(current, x, y, w, h, fill)];
    }

    method Line(x1: real, y1: real, x2: real, y2: real)
      modifies this
      ensures ops == old(ops) + [LineOp(current, x1, y1, x2, y2)]
      ensures pages == old(pages) && current == old(current) && font == old(font)
    {
      ops := ops + [LineOp(current, x1, y1, x2, y2)];
    }

    method Image(x: real, y: real, w: real, h: real)
      modifies this
      ensures ops == old(ops) + [ImageOp(current, x, y, w, h)]
      ensures pages == old(pages) && current == old(current) && font == old(font)
    {
      ops := ops + [ImageOp(current, x, y, w, h)];
    }
  }

  /** The operations of ops of kind k, in order. */
  function Select(ops: seq<Op>, k: Kind): (r: seq<Op>)
    ensures |r| <= |ops|
    decreases |ops|
  {
    if ops == [] then []
    else Select(ops[..|ops| - 1], k) + (if Keeps(k, ops[|ops| - 1]) then [ops[|ops| - 1]] else [])
  }

  /** Select keeps only operations of ops, and only those of kind k. */
  lemma {:induction false} SelectKeeps(ops: seq<Op>, k: Kind)
    ensures forall op :: op in Select(ops, k) ==> op in ops && Keeps(k, op)
    decreases |ops|
  {
    if ops != [] {
      SelectKeeps(ops[..|ops| - 1], k);
    }
  }

  lemma {:induction false} SelectAppend(a: seq<Op>, b: seq<Op>, k: Kind)
    ensures Select(a + b, k) == Select(a, k) + Select(b, k)
    decreases |b|
  {
    if b == [] {
      assert a + b == a;
    } else {
      assert (a + b)[..|a + b| - 1] == a + b[..|b| - 1];
      SelectAppend(a, b[..|b| - 1], k);
    }
  }

  lemma {:induction false} SelectNone(ops: seq<Op>, k: Kind)
    requires forall op :: op in ops ==> !Keeps(k, op)
    ensures Select(ops, k) == []
    decreases |ops|
  {
    if ops != [] {
      assert forall op :: op in ops[..|ops| - 1] ==> op in ops;
      SelectNone(ops[..|ops| - 1], k);
    }
  }

  lemma {:induction false} SelectAll(ops: seq<Op>, k: Kind)
    requires forall op :: op in ops ==> Keeps(k, op)
    ensures Select(ops, k) == ops
    decreases |ops|
  {
    if ops != [] {
      var front, last := ops[..|ops| - 1], ops[|ops| - 1];
      assert ops == front + [last];
      assert Keeps(k, last);
      assert forall op :: op in front ==> op in ops;
      SelectAll(front, k);
    }
  }

  lemma SelectSnoc(a: seq<Op>, x: Op, k: Kind)
    requires Keeps(k, x)
    ensures Select(a + [x], k) == Select(a, k) + [x]
  {
    assert (a + [x])[..|a|] == a;
  }

  /** Selecting from a run made of a kept operation, operations none of which is
      kept, a middle part, another kept operation and a tail none of which is kept. */
  lemma SelectAround(a: Op, pre: seq<Op>, mid: seq<Op>, b: Op, post: seq<Op>, k: Kind)
    requires Keeps(k, a) && Keeps(k, b)
    requires forall op :: op in pre ==> !Keeps(k, op)
    requires forall op :: op in post ==> !Keeps(k, op)
    ensures Select([a] + pre + mid + [b] + post, k) == [a] + Select(mid, k) + [b]
  {
    SelectNone(post, k);
    SelectAppend([a] + pre + mid + [b], post, k);
    SelectSnoc([a] + pre + mid, b, k);
    SelectFront(a, pre, mid, k);
  }

  /** Selecting from a kept operation, operations none of which is kept and a
      middle part. */
  lemma SelectFront(a: Op, pre: seq<Op>, mid: seq<Op>, k: Kind)
    requires Keeps(k, a)
    requires forall op :: op in pre ==> !Keeps(k, op)
    ensures Select([a] + pre + mid, k) == [a] + Select(mid, k)
  {
    SelectNone(pre, k);
    SelectAppend([a] + pre, mid, k);
    SelectAppend([a], pre, k);
    SelectOne(a, k);
  }

  lemma SelectOne(a: Op, k: Kind)
    requires Keeps(k, a)
    ensures Select([a], k) == [a]
  {
    assert [a][..0] == [];
  }

  /** Selecting from a run whose only operations of kind k are at its end. */
  lemma SelectTail(a: Op, pre: seq<Op>, mid: seq<Op>, b: Op, post: seq<Op>, k: Kind)
    requires !Keeps(k, a) && !Keeps(k, b)
    requires forall op :: op in pre ==> !Keeps(k, op)
    requires forall op :: op in mid ==> !Keeps(k, op)
    requires forall op :: op in post ==> Keeps(k, op)
    ensures Select([a] + pre + mid + [b] + post, k) == post
  {
    SelectAll(post, k);
    SelectNone(pre, k);
    SelectNone(mid, k);
    SelectNone([a], k);
    SelectNone([b], k);
    SelectAppend([a] + pre + mid + [b], post, k);
    SelectAppend([a] + pre + mid, [b], k);
    SelectAppend([a] + pre, mid, k);
    SelectAppend([a], pre, k);
  }

  /** Operations that are all texts. */
  predicate AllTexts(ops: seq<Op>) {
    forall op :: op in ops ==> op.TextOp?
  }

  /** The kinds of operation a selection picks out. */
  datatype Kind = LeftTexts | Rects | Lines

  predicate Keeps(k: Kind, op: Op) {
    match k
    case LeftTexts => op.TextOp? && op.align == Left
    case Rects => op.RectOp?
    case Lines => op.LineOp?
  }

  /** The position j steps of d below y0, as a loop adding d each time reaches it. */
  function Steps(y0: real, j: nat, d: real): real {
    if j == 0 then y0 else Steps(y0, j - 1, d) + d
  }

  lemma {:induction false} StepsClosed(y0: real, j: nat, d: real)
    ensures Steps(y0, j, d) == y0 + j as real * d
  {
    if j > 0 {
      StepsClosed(y0, j - 1, d);
      assert (j - 1) as real * d + d == j as real * d;
    }
  }

  /** Horizontal position of a line of measured width w, as both generators compute it. */
  function AlignedX(align: Align, pageWidth: real, margin: real, w: real): real {
    match align
    case Center => (pageWidth - w) / 2.0
    case Right => pageWidth - margin - w
    case Left => margin
  }

  datatype Cursor = Cursor(page: nat, y: real)

  /** The geometry of a flow of lines: before each line, a check asks for `need`
      below the cursor and moves to `top` of a new page when that passes `bottom`;
      after each line the cursor moves down by `advance`. */
  datatype Flow = Flow(need: real, bottom: real, top: real, advance: real,
                       align: Align, pageWidth: real, margin: real, metrics: Metrics, font: Font)

  function LineX(f: Flow, line: string): real {
    AlignedX(f.align, f.pageWidth, f.margin, f.metrics.width(f.font, line))
  }

  /** Where a line goes when the cursor is at c: a new page when it does not fit. */
  function Place(f: Flow, c: Cursor): Cursor {
    if c.y + f.need > f.bottom then Cursor(c.page + 1, f.top) else c
  }

  /** The text operations a flow of lines issues and the cursor after them. */
  function FlowLines(f: Flow, lines: seq<string>, c: Cursor): (r: (seq<Op>, Cursor))
    ensures |r.0| == |lines| && c.page <= r.1.page <= c.page + |lines|
    decreases |lines|
  {
    if lines == [] then ([], c)
    else
      var before := FlowLines(f, lines[..|lines| - 1], c);
      var at := Place(f, before.1);
      var line := lines[|lines| - 1];
      (before.0 + [TextOp(at.page, LineX(f, line), at.y, line, Left, f.font)], Cursor(at.page, at.y + f.advance))
  }

  /** Every line of a flow is drawn where it fits above the bottom, or at the top of
      a page that the flow just started; pages are used in order, and the final
      cursor sits one advance below the last line. */
  lemma {:induction false} FlowPlacement(f: Flow, lines: seq<string>, c: Cursor)
    ensures var r := FlowLines(f, lines, c);
      (forall k :: 0 <= k < |lines| ==>
        r.0[k].TextOp? && r.0[k].text == lines[k] && r.0[k].align == Left && r.0[k].font == f.font &&
        r.0[k].x == LineX(f, lines[k]) &&
        (r.0[k].y + f.need <= f.bottom || r.0[k].y == f.top) &&
        c.page <= r.0[k].page <= r.1.page) &&
      (lines != [] ==> r.1.y == r.0[|lines| - 1].y + f.advance && r.1.page == r.0[|lines| - 1].page)
  {
    if lines != [] {
      var front := lines[..|lines| - 1];
      FlowPlacement(f, front, c);
      var before := FlowLines(f, front, c);
      var r := FlowLines(f, lines, c);
      forall k | 0 <= k < |lines|
        ensures r.0[k].TextOp? && r.0[k].text == lines[k] && r.0[k].align == Left && r.0[k].font == f.font &&
          r.0[k].x == LineX(f, lines[k]) &&
          (r.0[k].y + f.need <= f.bottom || r.0[k].y == f.top) &&
          c.page <= r.0[k].page <= r.1.page
      {
        if k < |front| {
          assert r.0[k] == before.0[k];
          assert lines[k] == front[k];
        }
      }
    }
  }

  /** Consecutive lines on one page are exactly one advance apart; a line on a new
      page is on the very next page, at the top. */
  lemma {:induction false} FlowSpacing(f: Flow, lines: seq<string>, c: Cursor, k: nat)
    requires k + 1 < |lines|
    ensures var ops := FlowLines(f, lines, c).0;
      ops[k].TextOp? && ops[k + 1].TextOp? &&
      if ops[k + 1].page == ops[k].page then ops[k + 1].y == ops[k].y + f.advance
      else ops[k + 1].page == ops[k].page + 1 && ops[k + 1].y == f.top
  {
    var front := lines[..|lines| - 1];
    var before := FlowLines(f, front, c);
    var r := FlowLines(f, lines, c);
    FlowPlacement(f, lines, c);
    if k + 1 < |front| {
      FlowSpacing(f, front, c, k);
      assert r.0[k] == before.0[k] && r.0[k + 1] == before.0[k + 1];
    } else {
      FlowPlacement(f, front, c);
      assert r.0[k] == before.0[k];
    }
  }

  /** The first line of a flow goes where `Place` puts the starting cursor. */
  lemma {:induction false} FlowFirst(f: Flow, lines: seq<string>, c: Cursor)
    requires lines != []
    ensures var at := Place(f, c);
      FlowLines(f, lines, c).0[0] == TextOp(at.page, LineX(f, lines[0]), at.y, lines[0], Left, f.font)
    decreases |lines|
  {
    var front := lines[..|lines| - 1];
    if front != [] {
      FlowFirst(f, front, c);
      assert front[0] == lines[0];
    }
  }

  /** When no check fires, n lines move the cursor down by exactly n advances
      (`Steps` adds the advance n times, as the loop does). */
  lemma {:induction false} FlowWithoutBreaks(f: Flow, lines: seq<string>, c: Cursor)
    requires f.advance >= 0.0
    requires Steps(c.y, |lines|, f.advance) + f.need <= f.bottom
    ensures FlowLines(f, lines, c).1 == Cursor(c.page, Steps(c.y, |lines|, f.advance))
  {
    if lines != [] {
      var front := lines[..|lines| - 1];
      FlowWithoutBreaks(f, front, c);
    }
  }
}
