/**
 * What `createTitlePage` and `createMainDocument` of the Advanced generator ask
 * for, statement by statement: each call of `addText`, `addTable`, the cursor moves
 * and the drawing steps becomes one `Block`, and the two pages are lists of blocks
 * computed from the document. `AdvancedLayout` says what each block draws.
 */
module AdvancedCompose {
  import opened Basics
  import opened Canvas
  import opened Document

  const Margin: real := 20.0

  const Primary := Rgb(0, 51, 102)
  const White := Rgb(255, 255, 255)
  const LightGray := Rgb(248, 249, 250)
  /** The row stripes `addTable` uses when none are given. */
  const DefaultRowColors := [White, LightGray]

  datatype Block =
    /** `addText(text, { fontSize, fontStyle, align, maxWidth })` (the colour is not modelled). */
    | TextBlock(text: string, size: real, style: Style, align: Align, maxWidth: real)
    /** `addTable(headers, rows, { fontSize, cellPadding })` with the default colours. */
    | TableBlock(headers: seq<string>, rows: seq<seq<string>>, fontSize: real, cellPadding: real)
    /** `this.yPosition += dy`. */
    | SpaceBlock(dy: real)
    /** `this.yPosition = y`. */
    | MoveBlock(y: real)
    /** `checkPageBreak(need)`. */
    | BreakBlock(need: real)
    /** A line across the text width at the cursor. */
    | RuleBlock
    /** The company logo at the top of the title page. */
    | LogoBlock
    /** The framed notice of the electronic signature. */
    | BannerBlock
    /** The two signature lines with the representatives under them. */
    | SignatureBlock(left: Representative, right: Representative)

  /** `addText` with the default maximum width, the text width of the page. */
  function Para(text: string, size: real, style: Style, align: Align, pw: real): Block {
    TextBlock(text, size, style, align, pw - 2.0 * Margin)
  }

  /** A body paragraph: all options at their defaults. */
  function Plain(text: string, pw: real): Block {
    Para(text, 11.0, Normal, Left, pw)
  }

  // ---------------------------------------------------------------------------
  // The title page

  const PartyHeaders := ["NODODĒJS", "PIEŅĒMĒJS"]

  function RegLabel(reg: string): string {
    if reg != "" then "Reģ. Nr.: " + reg else ""
  }

  /** The two rows of the title page's party table. */
  function PartyRows(d: DocumentData): seq<seq<string>> {
    [[d.handoverParty.name, d.receivingParty.name],
     [RegLabel(d.handoverParty.registrationNumber), RegLabel(d.receivingParty.registrationNumber)]]
  }

  function TitleBlocks(d: DocumentData, pw: real, ph: real): seq<Block> {
    [LogoBlock, RuleBlock, SpaceBlock(20.0), MoveBlock(ph / 3.0),
     Para(ToUpper(d.title), 28.0, Bold, Center, pw), SpaceBlock(10.0)] +
    (if d.actNumber != "" then [Para("Nr. " + d.actNumber, 18.0, Bold, Center, pw)] else []) +
    [SpaceBlock(20.0), Para(DateLocation(d), 14.0, Normal, Center, pw), SpaceBlock(40.0),
     TableBlock(PartyHeaders, PartyRows(d), 12.0, 3.0), SpaceBlock(30.0)] +
    (if d.contractReference != "" then
       [Para("PAMATOJUMS:", 14.0, Bold, Left, pw), SpaceBlock(5.0),
        TextBlock(d.contractReference, 12.0, Normal, Left, pw - 2.0 * Margin - 20.0)]
     else []) +
    [MoveBlock(ph - 60.0), RuleBlock]
  }

  // ---------------------------------------------------------------------------
  // The main document

  /** `addPartyDetails(title, party)`. */
  function PartyDetails(title: string, p: Party, pw: real): seq<Block> {
    [Para(title, 12.0, Bold, Left, pw)] +
    (if p.name != "" then [Plain("Nosaukums: " + p.name, pw)] else []) +
    (if p.registrationNumber != "" then [Plain("Reģistrācijas numurs: " + p.registrationNumber, pw)] else []) +
    (if p.address != "" then [Plain("Juridiskā adrese: " + p.address, pw)] else []) +
    (if (p.representative.name != "" || p.representative.position != "") && RepInfo(p.representative) != "" then
       [Plain("Pārstāvis: " + RepInfo(p.representative), pw)]
     else [])
  }

  const ItemHeaders := ["Nr.", "Nosaukums", "Ražotājs/Modelis", "Sērijas Nr.", "Daudzums", "Stāvoklis"]

  /** The table row of the item at index i. */
  function ItemRow(i: nat, it: Item): seq<string> {
    [NatToString(i + 1), it.name, Trim(it.manufacturer + " " + it.model), it.serialNumber,
     IntToString(it.quantity) + " gab.", it.condition]
  }

  function ItemRows(items: seq<Item>): seq<seq<string>> {
    seq(|items|, i requires 0 <= i < |items| => ItemRow(i, items[i]))
  }

  /** One row per item, in order, as wide as the header; the first column reads back
      as the item's position counted from 1 and the fifth is its quantity followed by
      " gab.". */
  lemma ItemRowsRead(items: seq<Item>)
    ensures var rows := ItemRows(items);
      |rows| == |items| &&
      forall i :: 0 <= i < |items| ==>
        |rows[i]| == |ItemHeaders| && AllDigits(rows[i][0]) && DecimalValue(rows[i][0]) == i + 1 &&
        rows[i][1] == items[i].name && rows[i][4] == IntToString(items[i].quantity) + " gab."
  {
  }

  function ItemHeading(i: nat, it: Item): string {
    "3." + NatToString(i + 1) + ". " + it.name
  }

  /** The components and defects of an item, when set, and the space after them. */
  function DetailLines(it: Item, pw: real): seq<Block> {
    (if it.components != "" then [Para("Komplektācija: " + it.components, 10.0, Normal, Left, pw)] else []) +
    (if it.defects != "" then [Para("Defekti un bojājumi: " + it.defects, 10.0, Normal, Left, pw)] else []) +
    [SpaceBlock(5.0)]
  }

  /** The detail lines of the item at index i. */
  function ItemDetail(i: nat, it: Item, pw: real): seq<Block> {
    [BreakBlock(30.0)] + [Para(ItemHeading(i, it), 12.0, Bold, Left, pw)] + DetailLines(it, pw)
  }

  function ItemDetails(items: seq<Item>, pw: real): seq<Block>
    decreases |items|
  {
    if items == [] then []
    else ItemDetails(items[..|items| - 1], pw) + ItemDetail(|items| - 1, items[|items| - 1], pw)
  }

  function ItemTable(items: seq<Item>): Block {
    TableBlock(ItemHeaders, ItemRows(items), 9.0, 2.0)
  }

  /** The item table and the details, present only when there are items. */
  function ItemBlocks(items: seq<Item>, pw: real): seq<Block> {
    if |items| > 0 then [ItemTable(items), SpaceBlock(10.0)] + ItemDetails(items, pw) else []
  }

  const Section4Title := "4. PAPILDU NOTEIKUMI UN INFORMĀCIJA"

  predicate HasAdditionalTerms(d: DocumentData) {
    d.warranty != "" || d.documents != "" || d.specialConditions != "" || d.responsibility != ""
  }

  function Clause(heading: string, value: string, pw: real): seq<Block> {
    if value != "" then [Para(heading, 12.0, Bold, Left, pw), Plain(value, pw), SpaceBlock(5.0)] else []
  }

  function Section4(d: DocumentData, pw: real): seq<Block> {
    if HasAdditionalTerms(d) then
      [BreakBlock(40.0), Para(Section4Title, 16.0, Bold, Left, pw), SpaceBlock(5.0)] +
      Clause("4.1. Garantijas noteikumi:", d.warranty, pw) +
      Clause("4.2. Piederīgie dokumenti:", d.documents, pw) +
      Clause("4.3. Īpašie nosacījumi:", d.specialConditions, pw) +
      Clause("4.4. Atbildības sadalījums:", d.responsibility, pw)
    else []
  }

  const ConclusionTexts := [
    "5.1. Puses apliecina, ka mantas stāvoklis ir pārbaudīts un atbilst šajā aktā norādītajam aprakstam.",
    "5.2. Pretenzijas pret nodoto mantu uz akta parakstīšanas brīdi pusēm nav.",
    "5.3. No šī akta parakstīšanas brīža visa atbildība par nodoto mantu pāriet no nododēja uz pieņēmēju.",
    "5.4. Akts sastādīts 2 eksemplāros, pa vienam katrai pusei.",
    "5.5. Akts stājas spēkā ar abu pušu parakstīšanas brīdi."]

  /** Each sentence as a body paragraph followed by `yPosition += 2`. */
  function Conclusions(texts: seq<string>, pw: real): seq<Block>
    decreases |texts|
  {
    if texts == [] then []
    else Conclusions(texts[..|texts| - 1], pw) + [Plain(texts[|texts| - 1], pw), SpaceBlock(2.0)]
  }

  /** The timestamp line under the banner; `signedAt` is the clock reading in the
      `lv-LV` locale. */
  function StampLine(signedAt: string, pw: real): Block {
    Para("Elektroniskā paraksta laika zīmogs: " + signedAt, 10.0, Normal, Center, pw)
  }

  function SignatureSection(d: DocumentData, pw: real, signedAt: string): seq<Block> {
    if d.useElectronicSignature then [BannerBlock, StampLine(signedAt, pw)]
    else [Para("PARAKSTI:", 14.0, Bold, Left, pw), SpaceBlock(15.0),
          SignatureBlock(d.handoverParty.representative, d.receivingParty.representative)]
  }

  /** The title lines and the heading of section 1. */
  function Opening(d: DocumentData, pw: real): seq<Block> {
    [Para(ToUpper(d.title), 20.0, Bold, Center, pw)] +
    (if d.actNumber != "" then [Para("Nr. " + d.actNumber, 14.0, Bold, Center, pw)] else []) +
    [Para(DateLocation(d), 12.0, Normal, Center, pw), SpaceBlock(10.0), RuleBlock, SpaceBlock(15.0),
     Para("1. LĪGUMSLĒDZĒJAS PUSES", 16.0, Bold, Left, pw), SpaceBlock(5.0)]
  }

  function Parties(d: DocumentData, pw: real): seq<Block> {
    PartyDetails("1.1. NODODĒJS:", d.handoverParty, pw) + [SpaceBlock(8.0)] +
    PartyDetails("1.2. PIEŅĒMĒJS:", d.receivingParty, pw) + [SpaceBlock(15.0)]
  }

  /** Section 2 when there is a contract reference, and the heading of section 3. */
  function Basis(d: DocumentData, pw: real): seq<Block> {
    (if d.contractReference != "" then
       [Para("2. PAMATOJUMS", 16.0, Bold, Left, pw), SpaceBlock(5.0), Plain(d.contractReference, pw), SpaceBlock(15.0)]
     else []) +
    [Para("3. NODODAMĀS/PIEŅEMAMĀS LIETAS", 16.0, Bold, Left, pw), SpaceBlock(10.0)]
  }

  /** Sections 1 to 3 up to the item table. */
  function HeadBlocks(d: DocumentData, pw: real): seq<Block> {
    Opening(d, pw) + Parties(d, pw) + Basis(d, pw)
  }

  function Section5(pw: real): seq<Block> {
    [BreakBlock(60.0), SpaceBlock(10.0), RuleBlock, SpaceBlock(10.0),
     Para("5. NOSLĒGUMA NOTEIKUMI", 16.0, Bold, Left, pw), SpaceBlock(5.0)] +
    Conclusions(ConclusionTexts, pw) +
    [SpaceBlock(15.0), BreakBlock(100.0), RuleBlock, SpaceBlock(15.0)]
  }

  function Closing(d: DocumentData, pw: real): seq<Block> {
    [SpaceBlock(10.0), Para("Parakstīšanas datums: " + d.date, 11.0, Normal, Center, pw)]
  }

  /** Section 4, section 5, the signatures and the signing date. */
  function TailBlocks(d: DocumentData, pw: real, signedAt: string): seq<Block> {
    Section4(d, pw) + Section5(pw) + SignatureSection(d, pw, signedAt) + Closing(d, pw)
  }

  function MainBlocks(d: DocumentData, pw: real, signedAt: string): seq<Block> {
    HeadBlocks(d, pw) + ItemBlocks(d.items, pw) + TailBlocks(d, pw, signedAt)
  }

  // ---------------------------------------------------------------------------
  // What the main document contains

  /** Every table the two pages ask for has at least one column, as `addTable`
      needs to divide the width among them. */
  predicate TablesHaveColumns(bs: seq<Block>) {
    forall b :: b in bs && b.TableBlock? ==> |b.headers| > 0
  }

  /** A block that is an item heading: a 12-point bold paragraph opening with "3.". */
  predicate IsItemHeading(b: Block) {
    b.TextBlock? && b.size == 12.0 && b.style == Bold && |b.text| >= 2 && b.text[0] == '3' && b.text[1] == '.'
  }

  /** A block shaped like the heading of section 4: a 16-point paragraph opening
      with "4". */
  predicate IsSection4Heading(b: Block) {
    b.TextBlock? && b.size == 16.0 && |b.text| >= 1 && b.text[0] == '4'
  }

  /** A centred 10-point line, the shape of the electronic timestamp. */
  predicate IsStampShaped(b: Block) {
    b.TextBlock? && b.size == 10.0 && b.align == Center
  }

  /** A block none of the lemmas below looks for. */
  predicate Ordinary(b: Block) {
    !IsItemHeading(b) && !b.TableBlock? && !IsSection4Heading(b) && !IsStampShaped(b) &&
    !b.BannerBlock? && !b.SignatureBlock?
  }

  predicate AllOrdinary(bs: seq<Block>) {
    forall b :: b in bs ==> Ordinary(b)
  }

  lemma {:induction false} ConclusionsOrdinary(texts: seq<string>, pw: real)
    ensures AllOrdinary(Conclusions(texts, pw))
    decreases |texts|
  {
    if texts != [] {
      ConclusionsOrdinary(texts[..|texts| - 1], pw);
    }
  }

  lemma OpeningOrdinary(d: DocumentData, pw: real)
    ensures AllOrdinary(Opening(d, pw))
  {
  }

  lemma OrdinaryAppend(a: seq<Block>, b: seq<Block>)
    requires AllOrdinary(a) && AllOrdinary(b)
    ensures AllOrdinary(a + b)
  {
  }

  /** The party details hold plain body paragraphs under a 12-point title that does
      not open with "3.". */
  lemma PartyDetailsOrdinary(title: string, p: Party, pw: real)
    requires |title| > 0 && title[0] != '3'
    ensures AllOrdinary(PartyDetails(title, p, pw))
  {
    var head := [Para(title, 12.0, Bold, Left, pw)];
    var name := if p.name != "" then [Plain("Nosaukums: " + p.name, pw)] else [];
    var reg := if p.registrationNumber != "" then [Plain("Reģistrācijas numurs: " + p.registrationNumber, pw)] else [];
    var addr := if p.address != "" then [Plain("Juridiskā adrese: " + p.address, pw)] else [];
    var rep := if (p.representative.name != "" || p.representative.position != "") && RepInfo(p.representative) != "" then
      [Plain("Pārstāvis: " + RepInfo(p.representative), pw)] else [];
    assert PartyDetails(title, p, pw) == head + name + reg + addr + rep;
    OrdinaryAppend(head, name);
    OrdinaryAppend(head + name, reg);
    OrdinaryAppend(head + name + reg, addr);
    OrdinaryAppend(head + name + reg + addr, rep);
  }

  lemma PartiesOrdinary(d: DocumentData, pw: real)
    ensures AllOrdinary(Parties(d, pw))
  {
    var a := PartyDetails("1.1. NODODĒJS:", d.handoverParty, pw);
    var b := PartyDetails("1.2. PIEŅĒMĒJS:", d.receivingParty, pw);
    PartyDetailsOrdinary("1.1. NODODĒJS:", d.handoverParty, pw);
    PartyDetailsOrdinary("1.2. PIEŅĒMĒJS:", d.receivingParty, pw);
    OrdinaryAppend(a, [SpaceBlock(8.0)]);
    OrdinaryAppend(a + [SpaceBlock(8.0)], b);
    OrdinaryAppend(a + [SpaceBlock(8.0)] + b, [SpaceBlock(15.0)]);
  }

  lemma BasisOrdinary(d: DocumentData, pw: real)
    ensures AllOrdinary(Basis(d, pw))
  {
  }

  lemma Section5Ordinary(pw: real)
    ensures AllOrdinary(Section5(pw))
  {
    ConclusionsOrdinary(ConclusionTexts, pw);
  }

  lemma ClosingOrdinary(d: DocumentData, pw: real)
    ensures AllOrdinary(Closing(d, pw))
  {
  }

  /** A clause of section 4: a 12-point heading, the text and a space. */
  lemma ClauseOrdinary(heading: string, value: string, pw: real)
    requires |heading| > 0 && heading[0] != '3'
    ensures AllOrdinary(Clause(heading, value, pw))
  {
  }

  /** The four clauses of section 4. */
  function Clauses(d: DocumentData, pw: real): seq<Block> {
    Clause("4.1. Garantijas noteikumi:", d.warranty, pw) +
    Clause("4.2. Piederīgie dokumenti:", d.documents, pw) +
    Clause("4.3. Īpašie nosacījumi:", d.specialConditions, pw) +
    Clause("4.4. Atbildības sadalījums:", d.responsibility, pw)
  }

  lemma ClausesOrdinary(d: DocumentData, pw: real)
    ensures AllOrdinary(Clauses(d, pw))
  {
    var c1 := Clause("4.1. Garantijas noteikumi:", d.warranty, pw);
    var c2 := Clause("4.2. Piederīgie dokumenti:", d.documents, pw);
    var c3 := Clause("4.3. Īpašie nosacījumi:", d.specialConditions, pw);
    var c4 := Clause("4.4. Atbildības sadalījums:", d.responsibility, pw);
    ClauseOrdinary("4.1. Garantijas noteikumi:", d.warranty, pw);
    ClauseOrdinary("4.2. Piederīgie dokumenti:", d.documents, pw);
    ClauseOrdinary("4.3. Īpašie nosacījumi:", d.specialConditions, pw);
    ClauseOrdinary("4.4. Atbildības sadalījums:", d.responsibility, pw);
    OrdinaryAppend(c1, c2);
    OrdinaryAppend(c1 + c2, c3);
    OrdinaryAppend(c1 + c2 + c3, c4);
  }

  /** Section 4 holds its heading when it is present, and nothing else looked for. */
  lemma Section4Shape(d: DocumentData, pw: real)
    ensures forall b :: b in Section4(d, pw) ==> Ordinary(b) || IsSection4Heading(b)
    ensures HasAdditionalTerms(d) <==> Para(Section4Title, 16.0, Bold, Left, pw) in Section4(d, pw)
  {
    if HasAdditionalTerms(d) {
      var h := Para(Section4Title, 16.0, Bold, Left, pw);
      ClausesOrdinary(d, pw);
      assert Section4(d, pw) == [BreakBlock(40.0), h, SpaceBlock(5.0)] + Clauses(d, pw);
      assert Section4(d, pw)[1] == h;
    }
  }

  /** The detail lines of an item are 10-point left-aligned paragraphs and a space. */
  lemma DetailLinesOrdinary(it: Item, pw: real)
    ensures AllOrdinary(DetailLines(it, pw))
  {
  }

  lemma ItemDetailShape(i: nat, it: Item, pw: real)
    ensures forall b :: b in ItemDetail(i, it, pw) ==> Ordinary(b) || IsItemHeading(b)
  {
    DetailLinesOrdinary(it, pw);
  }

  /** The item details hold the item headings and, besides them, only 10-point
      paragraphs, page checks and spaces. */
  lemma {:induction false} ItemDetailsShape(items: seq<Item>, pw: real)
    ensures forall b :: b in ItemDetails(items, pw) ==> Ordinary(b) || IsItemHeading(b)
    decreases |items|
  {
    if items != [] {
      var n := |items| - 1;
      ItemDetailsShape(items[..n], pw);
      ItemDetailShape(n, items[n], pw);
    }
  }

  /** The item section: the item table and, besides it, item headings and blocks
      none of the lemmas looks for. */
  lemma ItemBlocksShape(items: seq<Item>, pw: real)
    ensures forall b :: b in ItemBlocks(items, pw) ==> b == ItemTable(items) || Ordinary(b) || IsItemHeading(b)
    ensures ItemTable(items) in ItemBlocks(items, pw) <==> |items| > 0
  {
    ItemDetailsShape(items, pw);
    if |items| > 0 {
      var t := ItemTable(items);
      assert ItemBlocks(items, pw) == [t, SpaceBlock(10.0)] + ItemDetails(items, pw);
      assert ItemBlocks(items, pw)[0] == t;
    }
  }

  /** Where a block of the main document comes from. */
  lemma MainPieces(d: DocumentData, pw: real, signedAt: string, b: Block)
    ensures b in MainBlocks(d, pw, signedAt) <==>
      b in Opening(d, pw) || b in Parties(d, pw) || b in Basis(d, pw) || b in ItemBlocks(d.items, pw) ||
      b in Section4(d, pw) || b in Section5(pw) || b in SignatureSection(d, pw, signedAt) || b in Closing(d, pw)
  {
  }

  /** A block of the main document that is not ordinary comes from the item section,
      section 4 or the signature branch. */
  lemma MainSource(d: DocumentData, pw: real, signedAt: string, b: Block)
    requires b in MainBlocks(d, pw, signedAt) && !Ordinary(b)
    ensures b in ItemBlocks(d.items, pw) || b in Section4(d, pw) || b in SignatureSection(d, pw, signedAt)
  {
    MainPieces(d, pw, signedAt, b);
    OpeningOrdinary(d, pw);
    PartiesOrdinary(d, pw);
    BasisOrdinary(d, pw);
    Section5Ordinary(pw);
    ClosingOrdinary(d, pw);
  }

  /** The signature branch holds the banner and its timestamp for an electronic
      signature, the heading, a space and the signature lines otherwise. */
  lemma SignatureSectionShape(d: DocumentData, pw: real, signedAt: string, b: Block)
    ensures b in SignatureSection(d, pw, signedAt) && !Ordinary(b) ==>
      if d.useElectronicSignature then b == BannerBlock || b == StampLine(signedAt, pw)
      else b == SignatureBlock(d.handoverParty.representative, d.receivingParty.representative)
  {
  }

  /** A table of the main document is the item table. */
  lemma MainTable(d: DocumentData, pw: real, signedAt: string, b: Block)
    requires b in MainBlocks(d, pw, signedAt) && b.TableBlock?
    ensures b == ItemTable(d.items)
  {
    MainSource(d, pw, signedAt, b);
    ItemBlocksShape(d.items, pw);
    Section4Shape(d, pw);
    SignatureSectionShape(d, pw, signedAt, b);
  }

  lemma TitleTablesHaveColumns(d: DocumentData, pw: real, ph: real)
    ensures TablesHaveColumns(TitleBlocks(d, pw, ph))
  {
  }

  lemma MainTablesHaveColumns(d: DocumentData, pw: real, signedAt: string)
    ensures TablesHaveColumns(MainBlocks(d, pw, signedAt))
  {
    forall b | b in MainBlocks(d, pw, signedAt) && b.TableBlock?
      ensures |b.headers| > 0
    {
      MainTable(d, pw, signedAt, b);
    }
  }

  /** The item table with its one row per item appears exactly when there are items. */
  lemma ItemTablePresent(d: DocumentData, pw: real, signedAt: string)
    ensures ItemTable(d.items) in MainBlocks(d, pw, signedAt) <==> |d.items| > 0
  {
    var t := ItemTable(d.items);
    ItemBlocksShape(d.items, pw);
    MainPieces(d, pw, signedAt, t);
    if t in MainBlocks(d, pw, signedAt) {
      TableInItemBlocks(d, pw, signedAt);
    }
  }

  lemma TableInItemBlocks(d: DocumentData, pw: real, signedAt: string)
    requires ItemTable(d.items) in MainBlocks(d, pw, signedAt)
    ensures ItemTable(d.items) in ItemBlocks(d.items, pw)
  {
    var t := ItemTable(d.items);
    MainSource(d, pw, signedAt, t);
    Section4Shape(d, pw);
    SignatureSectionShape(d, pw, signedAt, t);
  }

  /** The heading of section 4 appears exactly when one of its four texts is set. */
  lemma Section4Present(d: DocumentData, pw: real, signedAt: string)
    ensures Para(Section4Title, 16.0, Bold, Left, pw) in MainBlocks(d, pw, signedAt) <==> HasAdditionalTerms(d)
  {
    var h := Para(Section4Title, 16.0, Bold, Left, pw);
    Section4Shape(d, pw);
    MainPieces(d, pw, signedAt, h);
    if h in MainBlocks(d, pw, signedAt) {
      HeadingInSection4(d, pw, signedAt);
    }
  }

  lemma HeadingInSection4(d: DocumentData, pw: real, signedAt: string)
    requires Para(Section4Title, 16.0, Bold, Left, pw) in MainBlocks(d, pw, signedAt)
    ensures Para(Section4Title, 16.0, Bold, Left, pw) in Section4(d, pw)
  {
    var h := Para(Section4Title, 16.0, Bold, Left, pw);
    assert IsSection4Heading(h);
    MainSource(d, pw, signedAt, h);
    ItemBlocksShape(d.items, pw);
    SignatureSectionShape(d, pw, signedAt, h);
  }

  /** Where a block the lemmas look for can come from in the main document. */
  lemma MainSpecial(d: DocumentData, pw: real, signedAt: string, b: Block)
    requires b in MainBlocks(d, pw, signedAt) && !Ordinary(b) && !IsItemHeading(b) && !b.TableBlock? && !IsSection4Heading(b)
    ensures b in SignatureSection(d, pw, signedAt)
  {
    MainSource(d, pw, signedAt, b);
    ItemBlocksShape(d.items, pw);
    Section4Shape(d, pw);
  }

  /** The banner is laid out exactly for an electronic signature. */
  lemma BannerPresent(d: DocumentData, pw: real, signedAt: string)
    ensures BannerBlock in MainBlocks(d, pw, signedAt) <==> d.useElectronicSignature
  {
    MainPieces(d, pw, signedAt, BannerBlock);
    if BannerBlock in MainBlocks(d, pw, signedAt) {
      MainSpecial(d, pw, signedAt, BannerBlock);
      SignatureSectionShape(d, pw, signedAt, BannerBlock);
    }
  }

  /** So is the timestamp line under it. */
  lemma StampPresent(d: DocumentData, pw: real, signedAt: string)
    ensures StampLine(signedAt, pw) in MainBlocks(d, pw, signedAt) <==> d.useElectronicSignature
  {
    var b := StampLine(signedAt, pw);
    MainPieces(d, pw, signedAt, b);
    if b in MainBlocks(d, pw, signedAt) {
      MainSpecial(d, pw, signedAt, b);
      SignatureSectionShape(d, pw, signedAt, b);
    }
  }

  /** The two signature lines with the representatives under them are laid out
      exactly when the act is signed on paper. */
  lemma SignatureLinesPresent(d: DocumentData, pw: real, signedAt: string)
    ensures SignatureBlock(d.handoverParty.representative, d.receivingParty.representative) in MainBlocks(d, pw, signedAt)
      <==> !d.useElectronicSignature
  {
    var b := SignatureBlock(d.handoverParty.representative, d.receivingParty.representative);
    MainPieces(d, pw, signedAt, b);
    if b in MainBlocks(d, pw, signedAt) {
      MainSpecial(d, pw, signedAt, b);
      SignatureSectionShape(d, pw, signedAt, b);
    }
  }

  // ---------------------------------------------------------------------------
  // The item headings

  /** The texts of the item headings among the blocks, in order. */
  function ItemHeadingsOf(bs: seq<Block>): seq<string>
    decreases |bs|
  {
    if bs == [] then []
    else ItemHeadingsOf(bs[..|bs| - 1]) + (if IsItemHeading(bs[|bs| - 1]) then [bs[|bs| - 1].text] else [])
  }

  /** "3.<position>. <name>" for every item, in order. */
  function ItemHeadingTexts(items: seq<Item>): seq<string> {
    seq(|items|, i requires 0 <= i < |items| => ItemHeading(i, items[i]))
  }

  lemma ItemHeadingTextsSnoc(items: seq<Item>)
    requires items != []
    ensures ItemHeadingTexts(items) ==
      ItemHeadingTexts(items[..|items| - 1]) + [ItemHeading(|items| - 1, items[|items| - 1])]
  {
  }

  lemma {:induction false} ItemHeadingsAppend(a: seq<Block>, b: seq<Block>)
    ensures ItemHeadingsOf(a + b) == ItemHeadingsOf(a) + ItemHeadingsOf(b)
    decreases |b|
  {
    if b == [] {
      assert a + b == a;
    } else {
      assert (a + b)[..|a + b| - 1] == a + b[..|b| - 1];
      ItemHeadingsAppend(a, b[..|b| - 1]);
    }
  }

  lemma {:induction false} NoItemHeadings(bs: seq<Block>)
    requires forall b :: b in bs ==> !IsItemHeading(b)
    ensures ItemHeadingsOf(bs) == []
    decreases |bs|
  {
    if bs != [] {
      assert forall b :: b in bs[..|bs| - 1] ==> b in bs;
      NoItemHeadings(bs[..|bs| - 1]);
    }
  }

  lemma OneItemHeading(a: seq<Block>, h: Block, c: seq<Block>)
    requires ItemHeadingsOf(a) == [] && IsItemHeading(h) && ItemHeadingsOf(c) == []
    ensures ItemHeadingsOf(a + [h] + c) == [h.text]
  {
    ItemHeadingsAppend(a + [h], c);
    ItemHeadingsAppend(a, [h]);
    assert [h][..0] == [];
  }

  lemma HeadingIsItemHeading(i: nat, it: Item, pw: real)
    ensures IsItemHeading(Para(ItemHeading(i, it), 12.0, Bold, Left, pw))
  {
    var t := ItemHeading(i, it);
    assert t[0] == '3' && t[1] == '.';
  }

  lemma DetailHeading(i: nat, it: Item, pw: real)
    ensures ItemHeadingsOf(ItemDetail(i, it, pw)) == [ItemHeading(i, it)]
  {
    var h := Para(ItemHeading(i, it), 12.0, Bold, Left, pw);
    var rest := DetailLines(it, pw);
    DetailLinesOrdinary(it, pw);
    NoItemHeadings(rest);
    NoItemHeadings([BreakBlock(30.0)]);
    HeadingIsItemHeading(i, it, pw);
    OneItemHeading([BreakBlock(30.0)], h, rest);
  }

  lemma {:induction false} ItemDetailHeadings(items: seq<Item>, pw: real)
    ensures ItemHeadingsOf(ItemDetails(items, pw)) == ItemHeadingTexts(items)
    decreases |items|
  {
    if items != [] {
      var n := |items| - 1;
      var front := items[..n];
      ItemDetailHeadings(front, pw);
      ItemHeadingsAppend(ItemDetails(front, pw), ItemDetail(n, items[n], pw));
      DetailHeading(n, items[n], pw);
      ItemHeadingTextsSnoc(items);
    }
  }

  lemma HeadHasNoItemHeadings(d: DocumentData, pw: real)
    ensures ItemHeadingsOf(HeadBlocks(d, pw)) == []
  {
    OpeningOrdinary(d, pw);
    PartiesOrdinary(d, pw);
    BasisOrdinary(d, pw);
    OrdinaryAppend(Opening(d, pw), Parties(d, pw));
    OrdinaryAppend(Opening(d, pw) + Parties(d, pw), Basis(d, pw));
    NoItemHeadings(HeadBlocks(d, pw));
  }

  lemma Section4HasNoItemHeadings(d: DocumentData, pw: real)
    ensures ItemHeadingsOf(Section4(d, pw)) == []
  {
    Section4Shape(d, pw);
    NoItemHeadings(Section4(d, pw));
  }

  lemma TailHasNoItemHeadings(d: DocumentData, pw: real, signedAt: string)
    ensures ItemHeadingsOf(TailBlocks(d, pw, signedAt)) == []
  {
    var s4, s5, sig, cl := Section4(d, pw), Section5(pw), SignatureSection(d, pw, signedAt), Closing(d, pw);
    Section4HasNoItemHeadings(d, pw);
    Section5Ordinary(pw);
    NoItemHeadings(s5);
    NoItemHeadings(sig);
    ClosingOrdinary(d, pw);
    NoItemHeadings(cl);
    ItemHeadingsAppend(s4, s5);
    ItemHeadingsAppend(s4 + s5, sig);
    ItemHeadingsAppend(s4 + s5 + sig, cl);
  }

  lemma ItemBlocksHeadings(items: seq<Item>, pw: real)
    ensures ItemHeadingsOf(ItemBlocks(items, pw)) == ItemHeadingTexts(items)
  {
    if |items| > 0 {
      ItemHeadingsAppend([ItemTable(items), SpaceBlock(10.0)], ItemDetails(items, pw));
      NoItemHeadings([ItemTable(items), SpaceBlock(10.0)]);
      ItemDetailHeadings(items, pw);
    } else {
      NoItemHeadings(ItemBlocks(items, pw));
    }
  }

  lemma HeadingsOfThree(a: seq<Block>, b: seq<Block>, c: seq<Block>)
    requires ItemHeadingsOf(a) == [] && ItemHeadingsOf(c) == []
    ensures ItemHeadingsOf(a + b + c) == ItemHeadingsOf(b)
  {
    ItemHeadingsAppend(a + b, c);
    ItemHeadingsAppend(a, b);
  }

  /** The main document has one item heading per item, in order, reading
      "3.<position>. <name>", and no others. */
  lemma MainItemHeadings(d: DocumentData, pw: real, signedAt: string)
    ensures ItemHeadingsOf(MainBlocks(d, pw, signedAt)) == ItemHeadingTexts(d.items)
  {
    HeadHasNoItemHeadings(d, pw);
    TailHasNoItemHeadings(d, pw, signedAt);
    ItemBlocksHeadings(d.items, pw);
    HeadingsOfThree(HeadBlocks(d, pw), ItemBlocks(d.items, pw), TailBlocks(d, pw, signedAt));
  }
}
