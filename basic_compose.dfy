/**
 * What `generatePDF` of the basic generator asks for, statement by statement:
 * each call of its `addText`, `addWrappedText`, `checkPageBreak`, `addLine` and
 * `addSpace` helpers, and each group of direct drawing calls, becomes one `Block`.
 * The title page and the main document are lists of blocks computed from the act;
 * `BasicLayout` says what each block draws.
 */
module BasicCompose {
  import opened Basics
  import opened Canvas
  import opened Document

  const Margin: real := 25.0

  datatype Block =
    /** `addText(text, fontSize, style, align)`: one line, no page-break check. */
    | TextBlock(text: string, size: real, style: Style, align: Align)
    /** `addWrappedText(text, fontSize, style)`: wrapped lines, each after a check. */
    | WrappedBlock(text: string, size: real, style: Style)
    /** `checkPageBreak(need)`. */
    | BreakBlock(need: real)
    /** `addLine(...)`: a line across the text width, then 5 down. */
    | LineBlock
    /** `addSpace(dy)`. */
    | SpaceBlock(dy: real)
    /** `yPosition = y`. */
    | MoveBlock(y: real)
    /** `doc.addPage(); yPosition = margin`. */
    | NewPageBlock
    /** The grey frame with "LOGO" in it at the top of the title page. */
    | LogoFrameBlock
    /** The two party columns of the title page. */
    | ColumnsBlock(handover: Party, receiving: Party)
    /** The framed notice of an electronic signature. */
    | BannerBlock
    /** The two signature lines with the representatives' names and positions. */
    | SignatureBlock(left: Representative, right: Representative)

  /** `addWrappedText(text)` with every option at its default. */
  function Wrapped(text: string): Block {
    WrappedBlock(text, 11.0, Normal)
  }

  function Heading(text: string): Block {
    TextBlock(text, 14.0, Bold, Left)
  }

  function SubHeading(text: string): Block {
    TextBlock(text, 12.0, Bold, Left)
  }

  // ---------------------------------------------------------------------------
  // The title page

  /** The title page, from `yPosition = pageHeight / 4` to the contract reference. */
  function TitleBlocks(d: DocumentData, ph: real): seq<Block> {
    [MoveBlock(ph / 4.0), LogoFrameBlock, TextBlock(ToUpper(d.title), 24.0, Bold, Center), SpaceBlock(10.0)] +
    (if d.actNumber != "" then [TextBlock("Nr. " + d.actNumber, 16.0, Bold, Center), SpaceBlock(15.0)] else []) +
    [TextBlock(DateLocation(d), 14.0, Normal, Center), SpaceBlock(30.0),
     ColumnsBlock(d.handoverParty, d.receivingParty), SpaceBlock(20.0)] +
    (if d.contractReference != "" then
       [SubHeading("PAMATOJUMS:"), WrappedBlock(d.contractReference, 11.0, Normal), SpaceBlock(10.0)]
     else [])
  }

  // ---------------------------------------------------------------------------
  // Sections 1 to 3

  function Opening(d: DocumentData): seq<Block> {
    [TextBlock(ToUpper(d.title), 18.0, Bold, Center)] +
    (if d.actNumber != "" then [TextBlock("Nr. " + d.actNumber, 14.0, Bold, Center)] else []) +
    [TextBlock(DateLocation(d), 12.0, Normal, Center), SpaceBlock(15.0), LineBlock, SpaceBlock(10.0),
     Heading("1. LĪGUMSLĒDZĒJAS PUSES"), SpaceBlock(5.0)]
  }

  /** "Pārstāvis: name", followed by ", position" when there is one. */
  function RepresentativeLine(rep: Representative): string {
    "Pārstāvis: " + rep.name + (if rep.position != "" then ", " + rep.position else "")
  }

  /** A party under its title: its name always, then each other field that is set;
      the representative only when it has a name. */
  function PartyDetails(title: string, p: Party): seq<Block> {
    [SubHeading(title), Wrapped("Nosaukums: " + p.name)] +
    (if p.registrationNumber != "" then [Wrapped("Reģistrācijas numurs: " + p.registrationNumber)] else []) +
    (if p.address != "" then [Wrapped("Juridiskā adrese: " + p.address)] else []) +
    (if p.representative.name != "" then [Wrapped(RepresentativeLine(p.representative))] else [])
  }

  function Parties(d: DocumentData): seq<Block> {
    PartyDetails("1.1. NODODĒJS:", d.handoverParty) + [SpaceBlock(8.0)] +
    PartyDetails("1.2. PIEŅĒMĒJS:", d.receivingParty) + [SpaceBlock(10.0)]
  }

  /** Section 2 when there is a contract reference, and the heading of section 3. */
  function Basis(d: DocumentData): seq<Block> {
    (if d.contractReference != "" then
       [Heading("2. PAMATOJUMS"), SpaceBlock(5.0), Wrapped(d.contractReference), SpaceBlock(10.0)]
     else []) +
    [BreakBlock(30.0), Heading("3. NODODAMĀS/PIEŅEMAMĀS LIETAS"), SpaceBlock(5.0)]
  }

  function ItemHeading(i: nat, it: Item): string {
    "3." + NatToString(i + 1) + ". " + it.name
  }

  /** A 10-point line of an item's description, when its value is set. */
  function Detail(tag: string, value: string): seq<Block> {
    if value != "" then [WrappedBlock(tag + value, 10.0, Normal)] else []
  }

  function QuantityLine(q: int): Block {
    WrappedBlock("Daudzums: " + IntToString(q) + " gab.", 10.0, Normal)
  }

  /** The lines under an item's heading: each field that is set, and the quantity
      only when it is more than one. */
  function ItemLines(it: Item): seq<Block> {
    Identification(it) + (if it.quantity > 1 then [QuantityLine(it.quantity)] else []) + Description(it)
  }

  /** Manufacturer, model and serial number. */
  function Identification(it: Item): seq<Block> {
    Detail("Ražotājs: ", it.manufacturer) + Detail("Modelis/Marka: ", it.model) +
    Detail("Sērijas numurs: ", it.serialNumber)
  }

  /** Condition, components and defects. */
  function Description(it: Item): seq<Block> {
    Detail("Tehniskais stāvoklis: ", it.condition) + Detail("Komplektācija: ", it.components) +
    Detail("Defekti un bojājumi: ", it.defects)
  }

  /** One pass of `data.items.forEach`: a check, the heading, the lines, 8 down. */
  function ItemBlocks(i: nat, it: Item): seq<Block> {
    [BreakBlock(40.0), SubHeading(ItemHeading(i, it))] + ItemLines(it) + [SpaceBlock(8.0)]
  }

  function ItemsBlocks(items: seq<Item>): seq<Block>
    decreases |items|
  {
    if items == [] then []
    else ItemsBlocks(items[..|items| - 1]) + ItemBlocks(|items| - 1, items[|items| - 1])
  }

  // ---------------------------------------------------------------------------
  // Sections 4 and 5, the signatures

  const Section4Title := "4. PAPILDU NOTEIKUMI UN INFORMĀCIJA"

  predicate HasAdditionalTerms(d: DocumentData) {
    d.warranty != "" || d.documents != "" || d.specialConditions != "" || d.responsibility != ""
  }

  function Clause(heading: string, value: string): seq<Block> {
    if value != "" then [SubHeading(heading), Wrapped(value), SpaceBlock(5.0)] else []
  }

  function Clauses(d: DocumentData): seq<Block> {
    Clause("4.1. Garantijas noteikumi:", d.warranty) + Clause("4.2. Piederīgie dokumenti:", d.documents) +
    Clause("4.3. Īpašie nosacījumi:", d.specialConditions) + Clause("4.4. Atbildības sadalījums:", d.responsibility)
  }

  function Section4(d: DocumentData): seq<Block> {
    if HasAdditionalTerms(d) then [BreakBlock(30.0), Heading(Section4Title), SpaceBlock(5.0)] + Clauses(d)
    else []
  }

  const ConclusionTexts := [
    "5.1. Puses apliecina, ka mantas stāvoklis ir pārbaudīts un atbilst šajā aktā norādītajam aprakstam.",
    "5.2. Pretenzijas pret nodoto mantu uz akta parakstīšanas brīdi pusēm nav.",
    "5.3. No šī akta parakstīšanas brīža visa atbildība par nodoto mantu pāriet no nododēja uz pieņēmēju.",
    "5.4. Akts sastādīts 2 eksemplāros, pa vienam katrai pusei."]

  function Section5(): seq<Block> {
    [BreakBlock(50.0), SpaceBlock(10.0), LineBlock, SpaceBlock(5.0), Heading("5. NOSLĒGUMA NOTEIKUMI"), SpaceBlock(5.0),
     Wrapped(ConclusionTexts[0]), Wrapped(ConclusionTexts[1]), Wrapped(ConclusionTexts[2]), Wrapped(ConclusionTexts[3]),
     SpaceBlock(15.0)]
  }

  /** The signature branch, after its check and its line. */
  function SignatureSection(d: DocumentData): seq<Block> {
    [BreakBlock(80.0), LineBlock, SpaceBlock(10.0)] +
    (if d.useElectronicSignature then [BannerBlock]
     else [SubHeading("PARAKSTI:"), SpaceBlock(10.0),
           SignatureBlock(d.handoverParty.representative, d.receivingParty.representative)])
  }

  function Closing(d: DocumentData): seq<Block> {
    [SpaceBlock(10.0), TextBlock("Parakstīšanas datums: " + d.date, 11.0, Normal, Center)]
  }

  /** Sections 1 and 2 and the heading of section 3. */
  function MainHead(d: DocumentData): seq<Block> {
    Opening(d) + Parties(d) + Basis(d)
  }

  /** Sections 4 and 5, the signatures and the signing date. */
  function MainTail(d: DocumentData): seq<Block> {
    Section4(d) + Section5() + SignatureSection(d) + Closing(d)
  }

  /** The main document, from its title to the signing date. */
  function MainBlocks(d: DocumentData): seq<Block> {
    MainHead(d) + ItemsBlocks(d.items) + MainTail(d)
  }

  /** Everything `generatePDF` lays out before numbering the pages: the title page,
      a new page, and the main document on it. */
  function BasicBlocks(d: DocumentData, ph: real): seq<Block> {
    TitleBlocks(d, ph) + [NewPageBlock] + MainBlocks(d)
  }

  // ---------------------------------------------------------------------------
  // What the document contains

  /** An item heading: a 12-point bold line opening with "3.". */
  predicate IsItemHeading(b: Block) {
    b.TextBlock? && b.size == 12.0 && b.style == Bold && |b.text| >= 2 && b.text[0] == '3' && b.text[1] == '.'
  }

  /** A block shaped like the heading of section 4: a 14-point line opening with "4". */
  predicate IsSection4Heading(b: Block) {
    b.TextBlock? && b.size == 14.0 && |b.text| >= 1 && b.text[0] == '4'
  }

  /** A block none of the lemmas below looks for. */
  predicate Ordinary(b: Block) {
    !IsItemHeading(b) && !IsSection4Heading(b) && !b.BannerBlock? && !b.SignatureBlock? && !b.NewPageBlock?
  }

  predicate AllOrdinary(bs: seq<Block>) {
    forall b :: b in bs ==> Ordinary(b)
  }

  lemma OrdinaryAppend(a: seq<Block>, b: seq<Block>)
    requires AllOrdinary(a) && AllOrdinary(b)
    ensures AllOrdinary(a + b)
  {
  }

  lemma OpeningOrdinary(d: DocumentData)
    ensures AllOrdinary(Opening(d))
  {
  }

  lemma PartyDetailsOrdinary(title: string, p: Party)
    requires |title| > 0 && title[0] == '1'
    ensures AllOrdinary(PartyDetails(title, p))
  {
    var head := [SubHeading(title), Wrapped("Nosaukums: " + p.name)];
    var reg := if p.registrationNumber != "" then [Wrapped("Reģistrācijas numurs: " + p.registrationNumber)] else [];
    var addr := if p.address != "" then [Wrapped("Juridiskā adrese: " + p.address)] else [];
    var rep := if p.representative.name != "" then [Wrapped(RepresentativeLine(p.representative))] else [];
    assert PartyDetails(title, p) == head + reg + addr + rep;
    OrdinaryAppend(head, reg);
    OrdinaryAppend(head + reg, addr);
    OrdinaryAppend(head + reg + addr, rep);
  }

  lemma PartiesOrdinary(d: DocumentData)
    ensures AllOrdinary(Parties(d))
  {
    var a := PartyDetails("1.1. NODODĒJS:", d.handoverParty);
    var b := PartyDetails("1.2. PIEŅĒMĒJS:", d.receivingParty);
    PartyDetailsOrdinary("1.1. NODODĒJS:", d.handoverParty);
    PartyDetailsOrdinary("1.2. PIEŅĒMĒJS:", d.receivingParty);
    OrdinaryAppend(a, [SpaceBlock(8.0)]);
    OrdinaryAppend(a + [SpaceBlock(8.0)], b);
    OrdinaryAppend(a + [SpaceBlock(8.0)] + b, [SpaceBlock(10.0)]);
  }

  lemma BasisOrdinary(d: DocumentData)
    ensures AllOrdinary(Basis(d))
  {
  }

  lemma MainHeadOrdinary(d: DocumentData)
    ensures AllOrdinary(MainHead(d))
  {
    OpeningOrdinary(d);
    PartiesOrdinary(d);
    BasisOrdinary(d);
    OrdinaryAppend(Opening(d), Parties(d));
    OrdinaryAppend(Opening(d) + Parties(d), Basis(d));
  }

  lemma ClauseOrdinary(heading: string, value: string)
    requires |heading| > 0 && heading[0] == '4'
    ensures AllOrdinary(Clause(heading, value))
  {
  }

  lemma ClausesOrdinary(d: DocumentData)
    ensures AllOrdinary(Clauses(d))
  {
    var c1 := Clause("4.1. Garantijas noteikumi:", d.warranty);
    var c2 := Clause("4.2. Piederīgie dokumenti:", d.documents);
    var c3 := Clause("4.3. Īpašie nosacījumi:", d.specialConditions);
    var c4 := Clause("4.4. Atbildības sadalījums:", d.responsibility);
    ClauseOrdinary("4.1. Garantijas noteikumi:", d.warranty);
    ClauseOrdinary("4.2. Piederīgie dokumenti:", d.documents);
    ClauseOrdinary("4.3. Īpašie nosacījumi:", d.specialConditions);
    ClauseOrdinary("4.4. Atbildības sadalījums:", d.responsibility);
    OrdinaryAppend(c1, c2);
    OrdinaryAppend(c1 + c2, c3);
    OrdinaryAppend(c1 + c2 + c3, c4);
  }

  /** Section 4 holds its heading exactly when one of its clauses is set, and
      nothing else looked for. */
  lemma Section4Shape(d: DocumentData)
    ensures forall b :: b in Section4(d) ==> Ordinary(b) || b == Heading(Section4Title)
    ensures Heading(Section4Title) in Section4(d) <==> HasAdditionalTerms(d)
  {
    if HasAdditionalTerms(d) {
      ClausesOrdinary(d);
      assert Section4(d)[1] == Heading(Section4Title);
    }
  }

  lemma Section5Ordinary()
    ensures AllOrdinary(Section5())
  {
  }

  lemma ClosingOrdinary(d: DocumentData)
    ensures AllOrdinary(Closing(d))
  {
  }

  /** The signature branch: the banner for an electronic signature, the signature
      lines otherwise, and nothing else looked for. */
  lemma SignatureSectionShape(d: DocumentData)
    ensures forall b :: b in SignatureSection(d) && !Ordinary(b) ==>
      if d.useElectronicSignature then b == BannerBlock
      else b == SignatureBlock(d.handoverParty.representative, d.receivingParty.representative)
    ensures d.useElectronicSignature ==> BannerBlock in SignatureSection(d)
    ensures !d.useElectronicSignature ==>
      SignatureBlock(d.handoverParty.representative, d.receivingParty.representative) in SignatureSection(d)
  {
    if !d.useElectronicSignature {
      assert SignatureSection(d)[5] == SignatureBlock(d.handoverParty.representative, d.receivingParty.representative);
    }
  }

  /** The description lines of an item are 10-point wrapped lines. */
  lemma ItemLinesPlain(it: Item)
    ensures forall b :: b in ItemLines(it) ==> b.WrappedBlock? && b.size == 10.0
  {
  }

  lemma ItemBlocksShape(i: nat, it: Item)
    ensures forall b :: b in ItemBlocks(i, it) ==> Ordinary(b) || b == SubHeading(ItemHeading(i, it))
  {
    ItemLinesPlain(it);
  }

  /** The item part holds item headings and, besides them, only blocks not looked for. */
  lemma {:induction false} ItemsBlocksShape(items: seq<Item>)
    ensures forall b :: b in ItemsBlocks(items) ==> Ordinary(b) || IsItemHeading(b)
    decreases |items|
  {
    if items != [] {
      var n := |items| - 1;
      ItemsBlocksShape(items[..n]);
      ItemBlocksShape(n, items[n]);
      HeadingIsItemHeading(n, items[n]);
    }
  }

  /** Where a block of the main document comes from. */
  lemma MainPieces(d: DocumentData, b: Block)
    ensures b in MainBlocks(d) <==>
      b in MainHead(d) || b in ItemsBlocks(d.items) ||
      b in Section4(d) || b in Section5() || b in SignatureSection(d) || b in Closing(d)
  {
  }

  /** A block of the main document that is not ordinary comes from the items,
      section 4 or the signature branch. */
  lemma MainSource(d: DocumentData, b: Block)
    requires b in MainBlocks(d) && !Ordinary(b)
    ensures b in ItemsBlocks(d.items) || b in Section4(d) || b in SignatureSection(d)
  {
    MainPieces(d, b);
    MainHeadOrdinary(d);
    Section5Ordinary();
    ClosingOrdinary(d);
  }

  /** Section 4 appears exactly when one of its four clauses is set. */
  lemma Section4Present(d: DocumentData)
    ensures Heading(Section4Title) in MainBlocks(d) <==> HasAdditionalTerms(d)
  {
    var h := Heading(Section4Title);
    Section4Shape(d);
    MainPieces(d, h);
    if h in MainBlocks(d) {
      HeadingInSection4(d);
    }
  }

  lemma HeadingInSection4(d: DocumentData)
    requires Heading(Section4Title) in MainBlocks(d)
    ensures Heading(Section4Title) in Section4(d)
  {
    var h := Heading(Section4Title);
    assert IsSection4Heading(h);
    MainSource(d, h);
    ItemsBlocksShape(d.items);
    SignatureSectionShape(d);
  }

  /** A banner or a signature block of the document comes from the signature branch. */
  lemma MainSpecial(d: DocumentData, b: Block)
    requires b in MainBlocks(d) && (b.BannerBlock? || b.SignatureBlock?)
    ensures b in SignatureSection(d)
  {
    MainSource(d, b);
    ItemsBlocksShape(d.items);
    Section4Shape(d);
  }

  /** The banner of an electronic signature is there exactly when the act is signed
      electronically. */
  lemma BannerPresent(d: DocumentData)
    ensures BannerBlock in MainBlocks(d) <==> d.useElectronicSignature
  {
    SignatureSectionShape(d);
    MainPieces(d, BannerBlock);
    if BannerBlock in MainBlocks(d) {
      MainSpecial(d, BannerBlock);
    }
  }

  /** The signature lines are there exactly when the act is signed on paper, and
      they carry the two parties' representatives. */
  lemma SignaturesPresent(d: DocumentData)
    ensures SignatureBlock(d.handoverParty.representative, d.receivingParty.representative) in MainBlocks(d)
      <==> !d.useElectronicSignature
    ensures forall b :: b in MainBlocks(d) && b.SignatureBlock? ==>
      b.left == d.handoverParty.representative && b.right == d.receivingParty.representative
  {
    var s := SignatureBlock(d.handoverParty.representative, d.receivingParty.representative);
    SignatureSectionShape(d);
    MainPieces(d, s);
    if s in MainBlocks(d) {
      MainSpecial(d, s);
    }
    forall b | b in MainBlocks(d) && b.SignatureBlock?
      ensures b.left == d.handoverParty.representative && b.right == d.receivingParty.representative
    {
      MainSpecial(d, b);
    }
  }

  /** The main document starts no page of its own: the only new page is the one
      between the title page and it. */
  lemma MainHasNoNewPage(d: DocumentData)
    ensures NewPageBlock !in MainBlocks(d)
  {
    if NewPageBlock in MainBlocks(d) {
      MainSource(d, NewPageBlock);
      ItemsBlocksShape(d.items);
      Section4Shape(d);
      SignatureSectionShape(d);
    }
  }

  // ---------------------------------------------------------------------------
  // Item headings and item lines

  /** The texts of the item headings among bs, in order. */
  function ItemHeadingsOf(bs: seq<Block>): seq<string>
    decreases |bs|
  {
    if bs == [] then []
    else ItemHeadingsOf(bs[..|bs| - 1]) + (if IsItemHeading(bs[|bs| - 1]) then [bs[|bs| - 1].text] else [])
  }

  /** "3.<position>. <name>" for every item, in order. */
  function ItemHeadings(items: seq<Item>): seq<string> {
    seq(|items|, i requires 0 <= i < |items| => ItemHeading(i, items[i]))
  }

  lemma {:induction false} ItemHeadingsAppend(a: seq<Block>, b: seq<Block>)
    ensures ItemHeadingsOf(a + b) == ItemHeadingsOf(a) + ItemHeadingsOf(b)
    decreases |b|
  {
    if b == [] {
      assert a + b == a;
    } else {
      assert (a + b)[..|a + b| - 1] == a + b[..|b| - 1];
      ItemHeadingsAppend(a, b[..|b| - 1]);
    }
  }

  lemma {:induction false} NoItemHeadings(bs: seq<Block>)
    requires forall b :: b in bs ==> !IsItemHeading(b)
    ensures ItemHeadingsOf(bs) == []
    decreases |bs|
  {
    if bs != [] {
      assert forall b :: b in bs[..|bs| - 1] ==> b in bs;
      NoItemHeadings(bs[..|bs| - 1]);
    }
  }

  lemma OneItemHeading(a: seq<Block>, h: Block, c: seq<Block>)
    requires ItemHeadingsOf(a) == [] && IsItemHeading(h) && ItemHeadingsOf(c) == []
    ensures ItemHeadingsOf(a + [h] + c) == [h.text]
  {
    ItemHeadingsAppend(a + [h], c);
    ItemHeadingsAppend(a, [h]);
    assert [h][..0] == [];
  }

  lemma HeadingIsItemHeading(i: nat, it: Item)
    ensures IsItemHeading(SubHeading(ItemHeading(i, it)))
  {
    var h := ItemHeading(i, it);
    assert h[0] == '3' && h[1] == '.';
  }

  /** One item yields exactly its own heading. */
  lemma ItemBlocksHeadings(i: nat, it: Item)
    ensures ItemHeadingsOf(ItemBlocks(i, it)) == [ItemHeading(i, it)]
  {
    var h, rest := SubHeading(ItemHeading(i, it)), ItemLines(it) + [SpaceBlock(8.0)];
    assert ItemBlocks(i, it) == [BreakBlock(40.0)] + [h] + rest;
    ItemLinesPlain(it);
    assert forall b :: b in rest ==> !b.TextBlock?;
    NoItemHeadings(rest);
    NoItemHeadings([BreakBlock(40.0)]);
    HeadingIsItemHeading(i, it);
    OneItemHeading([BreakBlock(40.0)], h, rest);
  }

  /** The item part yields one heading "3.(i+1). name" per item, in order. */
  lemma {:induction false} ItemsBlocksHeadings(items: seq<Item>)
    ensures ItemHeadingsOf(ItemsBlocks(items)) == ItemHeadings(items)
    decreases |items|
  {
    if items != [] {
      var n := |items| - 1;
      ItemsBlocksHeadings(items[..n]);
      ItemBlocksHeadings(n, items[n]);
      ItemHeadingsAppend(ItemsBlocks(items[..n]), ItemBlocks(n, items[n]));
      ItemHeadingsSnoc(items);
    }
  }

  lemma ItemHeadingsSnoc(items: seq<Item>)
    requires items != []
    ensures var n := |items| - 1; ItemHeadings(items) == ItemHeadings(items[..n]) + [ItemHeading(n, items[n])]
  {
  }

  lemma TailHasNoItemHeadings(d: DocumentData)
    ensures ItemHeadingsOf(MainTail(d)) == []
  {
    Section4Shape(d);
    Section5Ordinary();
    SignatureSectionShape(d);
    ClosingOrdinary(d);
    NoItemHeadings(MainTail(d));
  }

  lemma HeadingsOfThree(a: seq<Block>, b: seq<Block>, c: seq<Block>)
    requires ItemHeadingsOf(a) == [] && ItemHeadingsOf(c) == []
    ensures ItemHeadingsOf(a + b + c) == ItemHeadingsOf(b)
  {
    ItemHeadingsAppend(a + b, c);
    ItemHeadingsAppend(a, b);
  }

  /** The main document names every item, in order, as "3.(i+1). name", and has no
      other line shaped like an item heading. */
  lemma MainItemHeadings(d: DocumentData)
    ensures ItemHeadingsOf(MainBlocks(d)) == ItemHeadings(d.items)
  {
    MainHeadOrdinary(d);
    NoItemHeadings(MainHead(d));
    TailHasNoItemHeadings(d);
    ItemsBlocksHeadings(d.items);
    HeadingsOfThree(MainHead(d), ItemsBlocks(d.items), MainTail(d));
  }

  /** The quantity line of an item is there exactly when its quantity is more than
      one. */
  lemma QuantityShown(i: nat, it: Item)
    ensures QuantityLine(it.quantity) in ItemBlocks(i, it) <==> it.quantity > 1
  {
    var q := QuantityLine(it.quantity);
    QuantityNotIdentification(it, q);
    QuantityNotDescription(it, q);
    var m := if it.quantity > 1 then [q] else [];
    OnlyIn(Identification(it), m, Description(it), q);
    OnlyIn([BreakBlock(40.0), SubHeading(ItemHeading(i, it))], ItemLines(it), [SpaceBlock(8.0)], q);
  }

  lemma QuantityPrefix(q: int)
    ensures var t := QuantityLine(q).text; |t| >= 10 && t[..10] == "Daudzums: "
  {
  }

  lemma QuantityNotIdentification(it: Item, q: Block)
    requires q == QuantityLine(it.quantity)
    ensures q !in Identification(it)
  {
    QuantityPrefix(it.quantity);
    NotQuantity("Ražotājs: ", it.manufacturer, q);
    NotQuantity("Modelis/Marka: ", it.model, q);
    NotQuantity("Sērijas numurs: ", it.serialNumber, q);
  }

  lemma QuantityNotDescription(it: Item, q: Block)
    requires q == QuantityLine(it.quantity)
    ensures q !in Description(it)
  {
    QuantityPrefix(it.quantity);
    NotQuantity("Tehniskais stāvoklis: ", it.condition, q);
    NotQuantity("Komplektācija: ", it.components, q);
    NotQuantity("Defekti un bojājumi: ", it.defects, q);
  }

  lemma OnlyIn(a: seq<Block>, m: seq<Block>, c: seq<Block>, q: Block)
    requires q !in a && q !in c
    ensures q in a + m + c <==> q in m
  {
  }

  /** A described field's line never reads as a quantity line. */
  lemma NotQuantity(tag: string, value: string, q: Block)
    requires |tag| >= 2 && (tag[0] != 'D' || tag[1] != 'a')
    requires q.WrappedBlock? && |q.text| >= 10 && q.text[..10] == "Daudzums: "
    ensures q !in Detail(tag, value)
  {
    if value != "" {
      assert (tag + value)[0] == tag[0] && (tag + value)[1] == tag[1];
      assert q.text[0] == q.text[..10][0] && q.text[1] == q.text[..10][1];
    }
  }
}
