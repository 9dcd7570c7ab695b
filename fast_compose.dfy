/**
 * What `generatePDF` of the Fast generator asks for, statement by statement: each
 * call of `addText`, `addTable`, `addLine`, `addSpace`, `addLogo` and the few direct
 * drawing steps becomes one `Block`, and the document is the list of blocks
 * computed from the act. `FastLayout` says what each block draws.
 */
module FastCompose {
  import opened Basics
  import opened Canvas
  import opened Document

  const Margin: real := 20.0

  const Primary := Rgb(0, 51, 102)
  const White := Rgb(255, 255, 255)
  const LightGray := Rgb(248, 249, 250)

  datatype Block =
    /** `addText(text, { fontSize, fontStyle, align })` with the default maximum width
        (the colour is not modelled). */
    | TextBlock(text: string, size: real, style: Style, align: Align)
    /** `addTable(headers, rows, fontSize)`. */
    | TableBlock(headers: seq<string>, rows: seq<seq<string>>, fontSize: real)
    /** `addLine(...)`: a line across the text width, then 5 down. */
    | LineBlock
    /** `addSpace(dy)`. */
    | SpaceBlock(dy: real)
    /** `this.yPos = y`. */
    | MoveBlock(y: real)
    /** `checkPageBreak(need)`. */
    | BreakBlock(need: real)
    /** `addLogo(companyLogo)`. */
    | LogoBlock
    /** The filled box drawn under the notice of an electronic signature. */
    | BoxBlock
    /** The two signature lines with the representatives' names and positions. */
    | SignatureBlock(left: Representative, right: Representative)

  /** `addText` with every option at its default. */
  function Plain(text: string): Block {
    TextBlock(text, 11.0, Normal, Left)
  }

  function Heading(text: string): Block {
    TextBlock(text, 14.0, Bold, Left)
  }

  // ---------------------------------------------------------------------------
  // Sections 1 to 3

  function Opening(d: DocumentData): seq<Block> {
    (if d.companyLogo != "" then [LogoBlock] else []) +
    [TextBlock(ToUpper(d.title), 20.0, Bold, Center)] +
    (if d.actNumber != "" then [TextBlock("Nr. " + d.actNumber, 14.0, Bold, Center)] else []) +
    [TextBlock(DateLocation(d), 12.0, Normal, Center), LineBlock, SpaceBlock(10.0),
     Heading("1. LĪGUMSLĒDZĒJAS PUSES"), SpaceBlock(5.0)]
  }

  /** A party under its title: each of its fields that is set, on a line of its own. */
  function PartyLines(title: string, p: Party): seq<Block> {
    [TextBlock(title, 12.0, Bold, Left)] +
    (if p.name != "" then [Plain("Nosaukums: " + p.name)] else []) +
    (if p.registrationNumber != "" then [Plain("Reģ. Nr.: " + p.registrationNumber)] else []) +
    (if p.address != "" then [Plain("Adrese: " + p.address)] else []) +
    (if p.representative.name != "" || p.representative.position != "" then
       [Plain("Pārstāvis: " + RepInfo(p.representative))]
     else [])
  }

  function Parties(d: DocumentData): seq<Block> {
    PartyLines("1.1. NODODĒJS:", d.handoverParty) + [SpaceBlock(8.0)] +
    PartyLines("1.2. PIEŅĒMĒJS:", d.receivingParty) + [SpaceBlock(15.0)]
  }

  /** Section 2 when there is a contract reference, and the heading of section 3. */
  function Basis(d: DocumentData): seq<Block> {
    (if d.contractReference != "" then
       [Heading("2. PAMATOJUMS"), SpaceBlock(5.0), Plain(d.contractReference), SpaceBlock(15.0)]
     else []) +
    [Heading("3. NODODAMĀS/PIEŅEMAMĀS LIETAS"), SpaceBlock(10.0)]
  }

  const ItemHeaders := ["Nr.", "Nosaukums", "Ražotājs", "Modelis", "Sērijas Nr.", "Daudzums", "Stāvoklis"]

  function ItemRow(i: nat, it: Item): seq<string> {
    [NatToString(i + 1), it.name, it.manufacturer, it.model, it.serialNumber,
     IntToString(it.quantity) + " gab.", it.condition]
  }

  function ItemRows(items: seq<Item>): seq<seq<string>> {
    seq(|items|, i requires 0 <= i < |items| => ItemRow(i, items[i]))
  }

  /** One row per item, in order, as wide as the header; the first column reads back
      as the item's position counted from 1 and the sixth is its quantity followed by
      " gab.". */
  lemma ItemRowsRead(items: seq<Item>)
    ensures var rows := ItemRows(items);
      |rows| == |items| &&
      forall i :: 0 <= i < |items| ==>
        |rows[i]| == |ItemHeaders| && AllDigits(rows[i][0]) && DecimalValue(rows[i][0]) == i + 1 &&
        rows[i][1] == items[i].name && rows[i][5] == IntToString(items[i].quantity) + " gab."
  {
  }

  function ItemTable(items: seq<Item>): Block {
    TableBlock(ItemHeaders, ItemRows(items), 9.0)
  }

  predicate HasDetails(it: Item) {
    it.components != "" || it.defects != ""
  }

  function ItemHeading(i: nat, it: Item): string {
    "3." + NatToString(i + 1) + ". " + it.name
  }

  /** The detail block of the item at index i: only for an item with components or
      defects. */
  function ItemDetail(i: nat, it: Item): seq<Block> {
    if HasDetails(it) then
      [BreakBlock(20.0)] + [TextBlock(ItemHeading(i, it), 11.0, Bold, Left)] + DetailLines(it)
    else []
  }

  /** The components and defects of an item, when set, and the space after them. */
  function DetailLines(it: Item): seq<Block> {
    (if it.components != "" then [TextBlock("Komplektācija: " + it.components, 10.0, Normal, Left)] else []) +
    (if it.defects != "" then [TextBlock("Defekti: " + it.defects, 10.0, Normal, Left)] else []) +
    [SpaceBlock(5.0)]
  }

  function ItemDetails(items: seq<Item>): seq<Block>
    decreases |items|
  {
    if items == [] then []
    else ItemDetails(items[..|items| - 1]) + ItemDetail(|items| - 1, items[|items| - 1])
  }

  /** The item table and the detail blocks, present only when there are items. */
  function ItemSection(items: seq<Item>): seq<Block> {
    (if |items| > 0 then [ItemTable(items)] + ItemDetails(items) else []) + [SpaceBlock(15.0)]
  }

  // ---------------------------------------------------------------------------
  // Sections 4 and 5, the signatures and the closing lines

  const Section4Title := "4. PAPILDU INFORMĀCIJA"

  predicate HasAdditionalTerms(d: DocumentData) {
    d.warranty != "" || d.documents != "" || d.specialConditions != "" || d.responsibility != ""
  }

  function Clause(heading: string, value: string): seq<Block> {
    if value != "" then [TextBlock(heading, 11.0, Bold, Left), TextBlock(value, 10.0, Normal, Left), SpaceBlock(5.0)]
    else []
  }

  /** The four clauses of section 4. */
  function Clauses(d: DocumentData): seq<Block> {
    Clause("4.1. Garantija:", d.warranty) + Clause("4.2. Dokumenti:", d.documents) +
    Clause("4.3. Īpašie nosacījumi:", d.specialConditions) + Clause("4.4. Atbildība:", d.responsibility)
  }

  function Section4(d: DocumentData): seq<Block> {
    if HasAdditionalTerms(d) then [Heading(Section4Title), SpaceBlock(5.0)] + Clauses(d) + [SpaceBlock(15.0)]
    else []
  }

  const ConclusionTexts := [
    "5.1. Puses apliecina, ka mantas stāvoklis ir pārbaudīts un atbilst aprakstam.",
    "5.2. Pretenzijas pret nodoto mantu nav.",
    "5.3. Atbildība par mantu pāriet pieņēmējam.",
    "5.4. Akts sastādīts 2 eksemplāros.",
    "5.5. Akts stājas spēkā ar parakstīšanu."]

  function Section5(): seq<Block> {
    [LineBlock, SpaceBlock(10.0), Heading("5. NOSLĒGUMA NOTEIKUMI"), SpaceBlock(5.0)] +
    seq(|ConclusionTexts|, i requires 0 <= i < |ConclusionTexts| => TextBlock(ConclusionTexts[i], 10.0, Normal, Left)) +
    [SpaceBlock(20.0), LineBlock, SpaceBlock(10.0)]
  }

  const ElectronicText := "ŠIS DOKUMENTS IR PARAKSTĪTS AR DROŠU ELEKTRONISKO PARAKSTU UN SATUR LAIKA ZĪMOGU"

  /** The signature branch; `signedAt` is the clock reading in the `lv-LV` locale. */
  function SignatureSection(d: DocumentData, signedAt: string): seq<Block> {
    if d.useElectronicSignature then
      [BoxBlock, TextBlock(ElectronicText, 10.0, Bold, Center), SpaceBlock(10.0),
       TextBlock("Laika zīmogs: " + signedAt, 9.0, Normal, Center)]
    else
      [TextBlock("PARAKSTI:", 12.0, Bold, Left), SpaceBlock(15.0),
       SignatureBlock(d.handoverParty.representative, d.receivingParty.representative), SpaceBlock(15.0)]
  }

  /** The generation stamp, written from 20 above the bottom edge; `generatedAt`
      is the second clock reading. */
  function Footer(ph: real, generatedAt: string): seq<Block> {
    [MoveBlock(ph - 20.0), TextBlock("Ģenerēts: " + generatedAt, 8.0, Normal, Center)]
  }

  function Closing(d: DocumentData, ph: real, generatedAt: string): seq<Block> {
    [TextBlock("Parakstīšanas datums: " + d.date, 10.0, Normal, Center)] + Footer(ph, generatedAt)
  }

  /** Everything `generatePDF` lays out after putting the cursor at the top margin. */
  function FastBlocks(d: DocumentData, ph: real, signedAt: string, generatedAt: string): seq<Block> {
    HeadBlocks(d) + ItemSection(d.items) + TailBlocks(d, ph, signedAt, generatedAt)
  }

  /** Sections 1 to 3 up to the item table. */
  function HeadBlocks(d: DocumentData): seq<Block> {
    Opening(d) + Parties(d) + Basis(d)
  }

  /** Sections 4 and 5, the signatures and the closing lines. */
  function TailBlocks(d: DocumentData, ph: real, signedAt: string, generatedAt: string): seq<Block> {
    Section4(d) + Section5() + SignatureSection(d, signedAt) + Closing(d, ph, generatedAt)
  }

  // ---------------------------------------------------------------------------
  // What the document contains

  /** Every table has at least one column, as `addTable` divides the width among them. */
  predicate TablesHaveColumns(bs: seq<Block>) {
    forall b :: b in bs && b.TableBlock? ==> |b.headers| > 0
  }

  /** An item heading: an 11-point bold line opening with "3.". */
  predicate IsItemHeading(b: Block) {
    b.TextBlock? && b.size == 11.0 && b.style == Bold && |b.text| >= 2 && b.text[0] == '3' && b.text[1] == '.'
  }

  /** A block shaped like the heading of section 4: a 14-point line opening with "4". */
  predicate IsSection4Heading(b: Block) {
    b.TextBlock? && b.size == 14.0 && |b.text| >= 1 && b.text[0] == '4'
  }

  /** A block none of the lemmas below looks for. */
  predicate Ordinary(b: Block) {
    !IsItemHeading(b) && !b.TableBlock? && !IsSection4Heading(b) && !b.BoxBlock? && !b.SignatureBlock?
  }

  predicate AllOrdinary(bs: seq<Block>) {
    forall b :: b in bs ==> Ordinary(b)
  }

  lemma OrdinaryAppend(a: seq<Block>, b: seq<Block>)
    requires AllOrdinary(a) && AllOrdinary(b)
    ensures AllOrdinary(a + b)
  {
  }

  lemma OpeningOrdinary(d: DocumentData)
    ensures AllOrdinary(Opening(d))
  {
  }

  lemma PartyLinesOrdinary(title: string, p: Party)
    requires |title| > 0 && title[0] != '3'
    ensures AllOrdinary(PartyLines(title, p))
  {
    var head := [TextBlock(title, 12.0, Bold, Left)];
    var name := if p.name != "" then [Plain("Nosaukums: " + p.name)] else [];
    var reg := if p.registrationNumber != "" then [Plain("Reģ. Nr.: " + p.registrationNumber)] else [];
    var addr := if p.address != "" then [Plain("Adrese: " + p.address)] else [];
    var rep := if p.representative.name != "" || p.representative.position != "" then
      [Plain("Pārstāvis: " + RepInfo(p.representative))] else [];
    assert PartyLines(title, p) == head + name + reg + addr + rep;
    OrdinaryAppend(head, name);
    OrdinaryAppend(head + name, reg);
    OrdinaryAppend(head + name + reg, addr);
    OrdinaryAppend(head + name + reg + addr, rep);
  }

  lemma PartiesOrdinary(d: DocumentData)
    ensures AllOrdinary(Parties(d))
  {
    var a := PartyLines("1.1. NODODĒJS:", d.handoverParty);
    var b := PartyLines("1.2. PIEŅĒMĒJS:", d.receivingParty);
    PartyLinesOrdinary("1.1. NODODĒJS:", d.handoverParty);
    PartyLinesOrdinary("1.2. PIEŅĒMĒJS:", d.receivingParty);
    OrdinaryAppend(a, [SpaceBlock(8.0)]);
    OrdinaryAppend(a + [SpaceBlock(8.0)], b);
    OrdinaryAppend(a + [SpaceBlock(8.0)] + b, [SpaceBlock(15.0)]);
  }

  lemma BasisOrdinary(d: DocumentData)
    ensures AllOrdinary(Basis(d))
  {
  }

  lemma Section5Ordinary()
    ensures AllOrdinary(Section5())
  {
    var texts := seq(|ConclusionTexts|, i requires 0 <= i < |ConclusionTexts| => TextBlock(ConclusionTexts[i], 10.0, Normal, Left));
    assert forall b :: b in texts ==> b.TextBlock? && b.size == 10.0;
  }

  lemma ClosingOrdinary(d: DocumentData, ph: real, generatedAt: string)
    ensures AllOrdinary(Closing(d, ph, generatedAt))
  {
  }

  lemma ClauseOrdinary(heading: string, value: string)
    requires |heading| > 0 && heading[0] != '3'
    ensures AllOrdinary(Clause(heading, value))
  {
  }

  lemma ClausesOrdinary(d: DocumentData)
    ensures AllOrdinary(Clauses(d))
  {
    var c1 := Clause("4.1. Garantija:", d.warranty);
    var c2 := Clause("4.2. Dokumenti:", d.documents);
    var c3 := Clause("4.3. Īpašie nosacījumi:", d.specialConditions);
    var c4 := Clause("4.4. Atbildība:", d.responsibility);
    ClauseOrdinary("4.1. Garantija:", d.warranty);
    ClauseOrdinary("4.2. Dokumenti:", d.documents);
    ClauseOrdinary("4.3. Īpašie nosacījumi:", d.specialConditions);
    ClauseOrdinary("4.4. Atbildība:", d.responsibility);
    OrdinaryAppend(c1, c2);
    OrdinaryAppend(c1 + c2, c3);
    OrdinaryAppend(c1 + c2 + c3, c4);
  }

  /** Section 4 holds its heading when it is present, and nothing else looked for. */
  lemma Section4Shape(d: DocumentData)
    ensures forall b :: b in Section4(d) ==> Ordinary(b) || IsSection4Heading(b)
    ensures Heading(Section4Title) in Section4(d) <==> HasAdditionalTerms(d)
  {
    if HasAdditionalTerms(d) {
      ClausesOrdinary(d);
      assert Section4(d)[0] == Heading(Section4Title);
    }
  }

  lemma DetailLinesOrdinary(it: Item)
    ensures AllOrdinary(DetailLines(it))
  {
  }

  lemma ItemDetailShape(i: nat, it: Item)
    ensures forall b :: b in ItemDetail(i, it) ==> Ordinary(b) || IsItemHeading(b)
  {
    DetailLinesOrdinary(it);
  }

  /** The detail blocks hold item headings and, besides them, only 10-point lines,
      page checks and spaces. */
  lemma {:induction false} ItemDetailsShape(items: seq<Item>)
    ensures forall b :: b in ItemDetails(items) ==> Ordinary(b) || IsItemHeading(b)
    decreases |items|
  {
    if items != [] {
      var n := |items| - 1;
      ItemDetailsShape(items[..n]);
      ItemDetailShape(n, items[n]);
    }
  }

  /** The item section holds the item table exactly when there are items, besides it
      item headings, and nothing else looked for. */
  lemma ItemSectionShape(items: seq<Item>)
    ensures forall b :: b in ItemSection(items) ==> b == ItemTable(items) || Ordinary(b) || IsItemHeading(b)
    ensures ItemTable(items) in ItemSection(items) <==> |items| > 0
  {
    ItemDetailsShape(items);
    if |items| > 0 {
      assert ItemSection(items)[0] == ItemTable(items);
    }
  }

  /** Where a block of the document comes from. */
  lemma FastPieces(d: DocumentData, ph: real, signedAt: string, generatedAt: string, b: Block)
    ensures b in FastBlocks(d, ph, signedAt, generatedAt) <==>
      b in Opening(d) || b in Parties(d) || b in Basis(d) || b in ItemSection(d.items) ||
      b in Section4(d) || b in Section5() || b in SignatureSection(d, signedAt) || b in Closing(d, ph, generatedAt)
  {
  }

  /** A block of the document that is not ordinary comes from the item section,
      section 4 or the signature branch. */
  lemma FastSource(d: DocumentData, ph: real, signedAt: string, generatedAt: string, b: Block)
    requires b in FastBlocks(d, ph, signedAt, generatedAt) && !Ordinary(b)
    ensures b in ItemSection(d.items) || b in Section4(d) || b in SignatureSection(d, signedAt)
  {
    FastPieces(d, ph, signedAt, generatedAt, b);
    OpeningOrdinary(d);
    PartiesOrdinary(d);
    BasisOrdinary(d);
    Section5Ordinary();
    ClosingOrdinary(d, ph, generatedAt);
  }

  /** The signature branch holds the box for an electronic signature and the
      signature lines otherwise, and nothing else looked for. */
  lemma SignatureSectionShape(d: DocumentData, signedAt: string, b: Block)
    ensures b in SignatureSection(d, signedAt) && !Ordinary(b) ==>
      if d.useElectronicSignature then b == BoxBlock
      else b == SignatureBlock(d.handoverParty.representative, d.receivingParty.representative)
  {
  }

  /** A table of the document is the item table. */
  lemma FastTable(d: DocumentData, ph: real, signedAt: string, generatedAt: string, b: Block)
    requires b in FastBlocks(d, ph, signedAt, generatedAt) && b.TableBlock?
    ensures b == ItemTable(d.items)
  {
    FastSource(d, ph, signedAt, generatedAt, b);
    ItemSectionShape(d.items);
    Section4Shape(d);
    SignatureSectionShape(d, signedAt, b);
  }

  lemma FastTablesHaveColumns(d: DocumentData, ph: real, signedAt: string, generatedAt: string)
    ensures TablesHaveColumns(FastBlocks(d, ph, signedAt, generatedAt))
  {
    forall b | b in FastBlocks(d, ph, signedAt, generatedAt) && b.TableBlock?
      ensures |b.headers| > 0
    {
      FastTable(d, ph, signedAt, generatedAt, b);
    }
  }

  /** The item table appears exactly when there are items. */
  lemma FastItemTablePresent(d: DocumentData, ph: real, signedAt: string, generatedAt: string)
    ensures ItemTable(d.items) in FastBlocks(d, ph, signedAt, generatedAt) <==> |d.items| > 0
  {
    var t := ItemTable(d.items);
    ItemSectionShape(d.items);
    FastPieces(d, ph, signedAt, generatedAt, t);
    if t in FastBlocks(d, ph, signedAt, generatedAt) {
      TableInItemSection(d, ph, signedAt, generatedAt);
    }
  }

  lemma TableInItemSection(d: DocumentData, ph: real, signedAt: string, generatedAt: string)
    requires ItemTable(d.items) in FastBlocks(d, ph, signedAt, generatedAt)
    ensures ItemTable(d.items) in ItemSection(d.items)
  {
    var t := ItemTable(d.items);
    FastSource(d, ph, signedAt, generatedAt, t);
    Section4Shape(d);
    SignatureSectionShape(d, signedAt, t);
  }

  /** The heading of section 4 appears exactly when one of its four texts is set. */
  lemma FastSection4Present(d: DocumentData, ph: real, signedAt: string, generatedAt: string)
    ensures Heading(Section4Title) in FastBlocks(d, ph, signedAt, generatedAt) <==> HasAdditionalTerms(d)
  {
    var h := Heading(Section4Title);
    Section4Shape(d);
    FastPieces(d, ph, signedAt, generatedAt, h);
    if h in FastBlocks(d, ph, signedAt, generatedAt) {
      HeadingInSection4(d, ph, signedAt, generatedAt);
    }
  }

  lemma HeadingInSection4(d: DocumentData, ph: real, signedAt: string, generatedAt: string)
    requires Heading(Section4Title) in FastBlocks(d, ph, signedAt, generatedAt)
    ensures Heading(Section4Title) in Section4(d)
  {
    var h := Heading(Section4Title);
    assert IsSection4Heading(h);
    FastSource(d, ph, signedAt, generatedAt, h);
    ItemSectionShape(d.items);
    SignatureSectionShape(d, signedAt, h);
  }

  /** A box or a signature block of the document comes from the signature branch. */
  lemma FastSpecial(d: DocumentData, ph: real, signedAt: string, generatedAt: string, b: Block)
    requires b in FastBlocks(d, ph, signedAt, generatedAt) && (b.BoxBlock? || b.SignatureBlock?)
    ensures b in SignatureSection(d, signedAt)
  {
    FastSource(d, ph, signedAt, generatedAt, b);
    ItemSectionShape(d.items);
    Section4Shape(d);
  }

  /** The box under the notice is drawn exactly for an electronic signature. */
  lemma FastBoxPresent(d: DocumentData, ph: real, signedAt: string, generatedAt: string)
    ensures BoxBlock in FastBlocks(d, ph, signedAt, generatedAt) <==> d.useElectronicSignature
  {
    FastPieces(d, ph, signedAt, generatedAt, BoxBlock);
    if BoxBlock in FastBlocks(d, ph, signedAt, generatedAt) {
      FastSpecial(d, ph, signedAt, generatedAt, BoxBlock);
      SignatureSectionShape(d, signedAt, BoxBlock);
    }
  }

  /** The signature lines with the representatives are drawn exactly when the act is
      signed on paper. */
  lemma FastSignaturesPresent(d: DocumentData, ph: real, signedAt: string, generatedAt: string)
    ensures (SignatureBlock(d.handoverParty.representative, d.receivingParty.representative) in
      FastBlocks(d, ph, signedAt, generatedAt)) <==> !d.useElectronicSignature
  {
    var b := SignatureBlock(d.handoverParty.representative, d.receivingParty.representative);
    FastPieces(d, ph, signedAt, generatedAt, b);
    if b in FastBlocks(d, ph, signedAt, generatedAt) {
      FastSpecial(d, ph, signedAt, generatedAt, b);
      SignatureSectionShape(d, signedAt, b);
    }
  }

  /** The document ends with the move to 20 above the bottom edge and the generation
      stamp. */
  lemma FastEndsWithFooter(d: DocumentData, ph: real, signedAt: string, generatedAt: string)
    ensures var bs := FastBlocks(d, ph, signedAt, generatedAt);
      |bs| >= 2 && bs[|bs| - 2..] == Footer(ph, generatedAt)
  {
    var bs := FastBlocks(d, ph, signedAt, generatedAt);
    var front := HeadBlocks(d) + ItemSection(d.items) + Section4(d) + Section5() +
      SignatureSection(d, signedAt) + [TextBlock("Parakstīšanas datums: " + d.date, 10.0, Normal, Center)];
    assert bs == front + Footer(ph, generatedAt);
  }

  // ---------------------------------------------------------------------------
  // Item headings

  /** The texts of the item headings among the blocks, in order. */
  function ItemHeadingsOf(bs: seq<Block>): seq<string>
    decreases |bs|
  {
    if bs == [] then []
    else ItemHeadingsOf(bs[..|bs| - 1]) + (if IsItemHeading(bs[|bs| - 1]) then [bs[|bs| - 1].text] else [])
  }

  /** "3.<position>. <name>" for the items that have components or defects, in order. */
  function DetailedHeadings(items: seq<Item>): seq<string>
    decreases |items|
  {
    if items == [] then []
    else
      var n := |items| - 1;
      DetailedHeadings(items[..n]) + (if HasDetails(items[n]) then [ItemHeading(n, items[n])] else [])
  }

  lemma {:induction false} ItemHeadingsAppend(a: seq<Block>, b: seq<Block>)
    ensures ItemHeadingsOf(a + b) == ItemHeadingsOf(a) + ItemHeadingsOf(b)
    decreases |b|
  {
    if b == [] {
      assert a + b == a;
    } else {
      assert (a + b)[..|a + b| - 1] == a + b[..|b| - 1];
      ItemHeadingsAppend(a, b[..|b| - 1]);
    }
  }

  lemma {:induction false} NoItemHeadings(bs: seq<Block>)
    requires forall b :: b in bs ==> !IsItemHeading(b)
    ensures ItemHeadingsOf(bs) == []
    decreases |bs|
  {
    if bs != [] {
      assert forall b :: b in bs[..|bs| - 1] ==> b in bs;
      NoItemHeadings(bs[..|bs| - 1]);
    }
  }

  lemma OneItemHeading(a: seq<Block>, h: Block, c: seq<Block>)
    requires ItemHeadingsOf(a) == [] && IsItemHeading(h) && ItemHeadingsOf(c) == []
    ensures ItemHeadingsOf(a + [h] + c) == [h.text]
  {
    ItemHeadingsAppend(a + [h], c);
    ItemHeadingsAppend(a, [h]);
    assert [h][..0] == [];
  }

  lemma HeadingIsItemHeading(i: nat, it: Item)
    ensures IsItemHeading(TextBlock(ItemHeading(i, it), 11.0, Bold, Left))
  {
    var t := ItemHeading(i, it);
    assert t[0] == '3' && t[1] == '.';
  }

  lemma DetailHeading(i: nat, it: Item)
    ensures ItemHeadingsOf(ItemDetail(i, it)) == if HasDetails(it) then [ItemHeading(i, it)] else []
  {
    if HasDetails(it) {
      var h := TextBlock(ItemHeading(i, it), 11.0, Bold, Left);
      DetailLinesOrdinary(it);
      NoItemHeadings(DetailLines(it));
      NoItemHeadings([BreakBlock(20.0)]);
      HeadingIsItemHeading(i, it);
      OneItemHeading([BreakBlock(20.0)], h, DetailLines(it));
    } else {
      NoItemHeadings(ItemDetail(i, it));
    }
  }

  lemma {:induction false} ItemDetailHeadings(items: seq<Item>)
    ensures ItemHeadingsOf(ItemDetails(items)) == DetailedHeadings(items)
    decreases |items|
  {
    if items != [] {
      var n := |items| - 1;
      ItemDetailHeadings(items[..n]);
      ItemHeadingsAppend(ItemDetails(items[..n]), ItemDetail(n, items[n]));
      DetailHeading(n, items[n]);
    }
  }

  lemma ItemSectionHeadings(items: seq<Item>)
    ensures ItemHeadingsOf(ItemSection(items)) == DetailedHeadings(items)
  {
    NoItemHeadings([SpaceBlock(15.0)]);
    if |items| > 0 {
      ItemDetailHeadings(items);
      NoItemHeadings([ItemTable(items)]);
      ItemHeadingsAppend([ItemTable(items)] + ItemDetails(items), [SpaceBlock(15.0)]);
      ItemHeadingsAppend([ItemTable(items)], ItemDetails(items));
    } else {
      NoItemHeadings(ItemSection(items));
    }
  }

  lemma HeadHasNoItemHeadings(d: DocumentData)
    ensures ItemHeadingsOf(HeadBlocks(d)) == []
  {
    OpeningOrdinary(d);
    PartiesOrdinary(d);
    BasisOrdinary(d);
    OrdinaryAppend(Opening(d), Parties(d));
    OrdinaryAppend(Opening(d) + Parties(d), Basis(d));
    NoItemHeadings(HeadBlocks(d));
  }

  lemma Section4HasNoItemHeadings(d: DocumentData)
    ensures ItemHeadingsOf(Section4(d)) == []
  {
    Section4Shape(d);
    NoItemHeadings(Section4(d));
  }

  lemma TailHasNoItemHeadings(d: DocumentData, ph: real, signedAt: string, generatedAt: string)
    ensures ItemHeadingsOf(TailBlocks(d, ph, signedAt, generatedAt)) == []
  {
    var s4, s5, sig, cl := Section4(d), Section5(), SignatureSection(d, signedAt), Closing(d, ph, generatedAt);
    Section4HasNoItemHeadings(d);
    Section5Ordinary();
    NoItemHeadings(s5);
    NoItemHeadings(sig);
    ClosingOrdinary(d, ph, generatedAt);
    NoItemHeadings(cl);
    ItemHeadingsAppend(s4, s5);
    ItemHeadingsAppend(s4 + s5, sig);
    ItemHeadingsAppend(s4 + s5 + sig, cl);
  }

  lemma HeadingsOfThree(a: seq<Block>, b: seq<Block>, c: seq<Block>)
    requires ItemHeadingsOf(a) == [] && ItemHeadingsOf(c) == []
    ensures ItemHeadingsOf(a + b + c) == ItemHeadingsOf(b)
  {
    ItemHeadingsAppend(a + b, c);
    ItemHeadingsAppend(a, b);
  }

  /** The document has a "3.<position>. <name>" heading for each item with
      components or defects, in order, and no other item heading. */
  lemma FastItemHeadings(d: DocumentData, ph: real, signedAt: string, generatedAt: string)
    ensures ItemHeadingsOf(FastBlocks(d, ph, signedAt, generatedAt)) == DetailedHeadings(d.items)
  {
    HeadHasNoItemHeadings(d);
    TailHasNoItemHeadings(d, ph, signedAt, generatedAt);
    ItemSectionHeadings(d.items);
    HeadingsOfThree(HeadBlocks(d), ItemSection(d.items), TailBlocks(d, ph, signedAt, generatedAt));
  }
}
