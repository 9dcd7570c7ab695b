# Handover-act PDF generators and form edits, modelled in Dafny

The application fills in a Latvian acceptance–handover act (`pieņemšanas–nodošanas
akts`) in a form and renders it to PDF with one of three generators. This project models:

- **The three generators.** These are the `AdvancedPDFGenerator` class, the
  `FastPDFGenerator` class and the `generatePDF` closure of the basic generator.
  - Each one is a Dafny `class` with the generator's own cursor fields (`yPosition`,
    `currentPage`, `totalPages` or `yPos`). Its methods change those fields and a
    document object in place.
  - The PDF library is modelled as `Canvas.Doc`. Its state is a page count, the current
    page, the current font, and the list of drawing operations emitted so far (text,
    rectangle, line and image, each tagged with its page).
  - Text measurement and line splitting are a `Metrics` value: two functions the
    library would compute, about which nothing is assumed.
- **Each generator's layout as a pure specification.** A `State` holds the page count,
  cursor, font and operations. One function per helper (`checkPageBreak`, `addText`,
  `addTable`, …) gives the next `State`.
  - `createTitlePage`, `createMainDocument` and the body of `generatePDF` are written
    as a list of `Block`s, one per statement, which `RunS` interprets.
  - Every method is proved to leave the object in exactly the state its function gives.
  - The layout properties are then proved as lemmas over the functions: page breaks,
    cursor positions, table geometry, cell truncation, headers and footers, item
    headings, and which signature branch is taken.
- **The string helpers.** These are the two `processLatvianText` variants, the three
  `generateActNumber` formats, `pdfUtils.hexToRgb` and
  `pdfUtils.calculateOptimalFontSize`.
- **The form's edit operations.** These are the edit operations of `DocumentFormNew.tsx`,
  as functions over the `DocumentData` record of `page.tsx`. The saved-party list is a
  class field updated by `saveParty` and `deleteSavedParty`.
  - The quantity input rule `parseInt(v) || 1` is modelled with a JavaScript-style
    `parseInt`.
  - The initial document and mail settings of the page are modelled too.

The clock, the random source, the locale formatting and the loading of the logo image
become parameters: `DateTime` and a random real in [0, 1) for the act numbers,
`signedAt`/`generatedAt`/`stamps` strings for the timestamps, and the image's size
(or `None` when it fails to load) for the logo.

Two behaviours of the code are reproduced as they are written:

- **Advanced `addText`, wrapped branch.** The cursor after a wrapped text is the
  starting cursor plus one line height per line. This holds even when a page break
  inside the loop moved the cursor to the top of a new page (`WrapBreaks`,
  `AddTextWrapped`).
- **Fast generator, final timestamp.** The cursor is set to 20 above the bottom of the
  page, so the break check of `addText` always fires. "Ģenerēts" is therefore always
  drawn at the top of a new last page (`FooterOnNewPage`).

Where the comments of the code and the code disagree, the model follows the code:

- The quantity field stores negative numbers, despite its `min="1"` (`NegativeQuantityAccepted`).
- The quote replacements of the Advanced `processLatvianText` replace a plain `"` and `'`
  by themselves, so only `…`, `–` and `—` are rewritten.

## Model

| member | source | states |
|---|---|---|
| Basics.NatToString | src/lib/pdfGeneratorAdvanced.ts:545 | `(index + 1).toString()`: decimal digits with no leading zero whose value is the number |
| Basics.IntToString | src/lib/pdfGeneratorAdvanced.ts:549 | `${quantity}`: a minus sign exactly for negative numbers, followed by the digits of the absolute value |
| Basics.PadStart | src/lib/pdfGeneratorAdvanced.ts:873-880 | `padStart(n, c)`: the result is n long (or keeps a longer string), ends with the string and is filled with c in front |
| Basics.PaddedDigits | src/lib/pdfGeneratorAdvanced.ts:873-880 | a number below 10^k padded to k places with zeros is k digits that read back as the number |
| Basics.PaddedValue | src/lib/pdfGeneratorAdvanced.ts:873-880 | padding a digit string with zeros keeps its value |
| Basics.NatToStringLength | src/lib/pdfGeneratorAdvanced.ts:872 | how many digits a number below 10000 is written with |
| Basics.ToUpper | src/lib/pdfGenerator.ts:95 | `toUpperCase()`: same length, every character upper-cased |
| Basics.TrimStart | src/components/DocumentFormNew.tsx:506 | the white space `parseInt` skips: a suffix of the input that starts with no white space, with only white space cut |
| Basics.TrimEnds | src/lib/pdfGeneratorAdvanced.ts:547 | what `trim()` keeps is empty or starts and ends with a character that is not white space |
| Basics.TrimCut | src/lib/pdfGeneratorAdvanced.ts:547 | `trim()` cuts only white space, and only at both ends |
| Basics.TrimTwice | src/lib/pdfGeneratorAdvanced.ts:547 | trimming twice cuts nothing more |
| BasicText.ProcessLatvianText | src/lib/pdfGenerator.ts:5-12 | the basic `processLatvianText`: same length, each character replaced by its folded form |
| BasicText.FoldChar | src/lib/pdfGenerator.ts:5-8 | each of the 22 Latvian letters maps to its ASCII base letter with its case kept; every other character is kept; no result is a Latvian letter |
| BasicText.ProcessedHasNoLatvianLetters | src/lib/pdfGenerator.ts:10-12 | the output holds none of the 22 letters, and every other character is kept in place |
| BasicText.ProcessPlainText | src/lib/pdfGenerator.ts:10-12 | text without the letters is returned unchanged |
| BasicText.ProcessIdempotent | src/lib/pdfGenerator.ts:10-12 | processing twice equals processing once |
| BasicText.ProcessCommutesWithUpper | src/lib/pdfGenerator.ts:95 | upper-casing a title before or after processing gives the same text |
| AdvancedText.ProcessText | src/lib/pdfGeneratorAdvanced.ts:25-35 | the Advanced `processLatvianText`: no `…`, `–` or `—` is left, and the length grows at most threefold |
| AdvancedText.ProcessPlain | src/lib/pdfGeneratorAdvanced.ts:25-35 | text without the three marks is unchanged |
| AdvancedText.ProcessTextIdempotent | src/lib/pdfGeneratorAdvanced.ts:25-35 | normalising twice equals normalising once |
| AdvancedText.ProcessTextAppend | src/lib/pdfGeneratorAdvanced.ts:25-35 | the normaliser distributes over concatenation |
| AdvancedText.HexPair | src/lib/pdfGeneratorAdvanced.ts:914-916 | `parseInt(pair, 16)` of two hexadecimal digits is below 256 |
| AdvancedText.MatchHex | src/lib/pdfGeneratorAdvanced.ts:912 | the regular expression gives six hexadecimal digits when it matches |
| AdvancedText.MatchHexExactly | src/lib/pdfGeneratorAdvanced.ts:912 | the expression matches exactly an optional `#` and six hexadecimal digits of either case, and captures the last six characters |
| AdvancedText.HexToRgb | src/lib/pdfGeneratorAdvanced.ts:911-918 | three channels, each in 0..255; a mismatch gives [0, 0, 0] |
| AdvancedText.HexToRgbAccepts | src/lib/pdfGeneratorAdvanced.ts:911-918 | a valid colour gives the values of its three pairs; any other string gives black |
| AdvancedText.HexRoundTrip | src/lib/pdfGeneratorAdvanced.ts:911-918 | every colour written as `#rrggbb`, with or without `#`, reads back as its three channels |
| AdvancedText.OptimalFontSize | src/lib/pdfGeneratorAdvanced.ts:895-908 | the count-down returns 8 or the first size, counting down from the maximum, at which the text fits; every larger size tried does not fit |
| AdvancedText.ShrinkLongest | src/lib/pdfGeneratorAdvanced.ts:233-235 | the truncation loop keeps the longest prefix that fits with "..." (or the empty one), and every longer prefix does not fit |
| AdvancedText.EllipsizeShape | src/lib/pdfGeneratorAdvanced.ts:229-237 | a fitting cell is unchanged; an overflowing one becomes that longest prefix followed by "..." |
| ActNumbers.Draw | src/lib/pdfGeneratorAdvanced.ts:880 | `Math.floor(Math.random() * n)` is below n |
| ActNumbers.AdvancedActNumber | src/lib/pdfGeneratorAdvanced.ts:870-883 | "AKT-YYYY-MMDD-HHMMSS-RRR" is 20 characters plus the year's |
| ActNumbers.AdvancedActNumberFields | src/lib/pdfGeneratorAdvanced.ts:870-883 | for a four-digit year: 24 characters, the dashes in place, and each field the zero-padded value of its clock component or of the random number |
| ActNumbers.FastActNumber | src/lib/pdfGeneratorFast.ts:533-542 | "AKT-YYYY-MMDD-HHMM-RR" is 17 characters plus the year's |
| ActNumbers.FastActNumberFields | src/lib/pdfGeneratorFast.ts:533-542 | for a four-digit year: 21 characters, the dashes in place, each field its zero-padded value, the random part in 0..99 |
| ActNumbers.BasicActNumber | src/lib/pdfGenerator.ts:376-384 | "AKT-YYYY-MMDD-HHMM" is 14 characters plus the year's |
| ActNumbers.BasicActNumberFields | src/lib/pdfGenerator.ts:376-384 | for a four-digit year: 18 characters with no seconds and no random part, each field its zero-padded value |
| ActNumbers.YearDigits | src/lib/pdfGeneratorAdvanced.ts:882 | a four-digit year is written as four digits that read back as the year |
| ActNumbers.TwoDigits | src/lib/pdfGeneratorAdvanced.ts:873-877 | a two-place clock field is two digits that read back as its value |
| ActNumbers.AdvancedSlots | src/lib/pdfGeneratorAdvanced.ts:882 | where each piece of the Advanced template sits in the string |
| ActNumbers.FastSlots | src/lib/pdfGeneratorFast.ts:541 | where each piece of the Fast template sits in the string |
| Document.BlankParty | src/app/page.tsx:101-112 | a party starts with empty name, registration number and address, and an empty representative |
| Document.BlankItem | src/app/page.tsx:114-123 | an item starts with every text empty and quantity 1 |
| Document.InitialDocument | src/app/page.tsx:95-130 | the initial document: its title, today's date, empty act number, location, logo and reference, two blank parties, one blank item, empty clauses and attachments, and no electronic signature |
| Document.InitialSettings | src/app/page.tsx:132-138 | the initial mail settings: port 587, every text empty |
| Document.RepInfo | src/lib/pdfGeneratorAdvanced.ts:823-831 | the name and position joined with ", " are empty exactly when both are empty |
| Document.DateLocation | src/lib/pdfGeneratorAdvanced.ts:410 | the text starts with the date and equals it exactly when no location is set |
| Form.UpdateData | src/components/DocumentFormNew.tsx:32-34 | `updateData(field, value)`: the field takes the value and every other part of the record is unchanged |
| Form.AgreeEverywhere | src/components/DocumentFormNew.tsx:32-34 | the parts the edits are stated over cover the whole record: records agreeing on all parts are equal |
| Form.UpdatePartyData | src/components/DocumentFormNew.tsx:92-115 | a plain or a dotted `representative.x` field of the chosen party takes the value; its other fields, the other party and the rest of the record are unchanged |
| Form.PartyTextEverywhere | src/components/DocumentFormNew.tsx:92-115 | the party fields cover the whole party, the representative included |
| Form.UpdateItemData | src/components/DocumentFormNew.tsx:117-121 | the list keeps its length, only item i changes, and only in the edited field |
| Form.AddItem | src/components/DocumentFormNew.tsx:123-137 | exactly one blank item is appended; the existing items keep order and values |
| Form.RemoveAt | src/components/DocumentFormNew.tsx:140 | the `filter` on the index drops exactly that element, or nothing when the index is out of range |
| Form.RemoveItem | src/components/DocumentFormNew.tsx:139-142 | `removeItem(i)`: the items before i stay, those after it move up by one, and an out-of-range i changes nothing |
| Form.ToSaved | src/components/DocumentFormNew.tsx:61-65 | a saved party holds the id, the time and exactly the party's fields |
| Form.FindById | src/components/DocumentFormNew.tsx:74 | `find`: the first entry with the id, or none when no entry has it |
| Form.LoadSavedParty | src/components/DocumentFormNew.tsx:73-83 | the first entry with the id, stripped of id and time, replaces the chosen party; an unknown id changes nothing |
| Form.WithoutId | src/components/DocumentFormNew.tsx:87 | the `filter` on the id keeps exactly the entries with another id |
| Form.WithoutIdAppend | src/components/DocumentFormNew.tsx:87 | deleting distributes over concatenation, so the kept entries keep their order |
| Form.WithoutAbsentId | src/components/DocumentFormNew.tsx:87 | deleting an id no entry has changes nothing |
| Form.SaveThenLoad | src/components/DocumentFormNew.tsx:57-83 | saving a party under a fresh id and loading that id gives the party back |
| Form.DeleteThenLoad | src/components/DocumentFormNew.tsx:73-90 | after deleting an id, loading it changes nothing |
| Form.PartyStore.constructor | src/components/DocumentFormNew.tsx:25-30 | the list starts as what storage restored |
| Form.PartyStore.SaveParty | src/components/DocumentFormNew.tsx:57-70 | nothing is saved for a party without a name; otherwise exactly one saved party is appended |
| Form.PartyStore.DeleteSavedParty | src/components/DocumentFormNew.tsx:86-90 | the list becomes the old list without the id |
| Form.DigitRun | src/components/DocumentFormNew.tsx:506 | the longest prefix of digits, which `parseInt` reads |
| Form.QuantityInput | src/components/DocumentFormNew.tsx:506 | `parseInt(v) \|\| 1` is never 0: unparseable input and 0 give 1, and any other parsed integer is kept |
| Form.ParseIntRoundTrip | src/components/DocumentFormNew.tsx:506 | `parseInt` of a written integer gives it back |
| Form.QuantityRoundTrip | src/components/DocumentFormNew.tsx:505-506 | typing a non-zero quantity shown in the field stores exactly that quantity |
| Form.NegativeQuantityAccepted | src/components/DocumentFormNew.tsx:504-506 | "-3" is stored as -3, despite `min="1"` |
| Form.ApplyKeepsInvariant | src/components/DocumentFormNew.tsx:445 | because removal is offered only for lists of more than one item, every edit the form offers keeps the item list non-empty |
| Form.FormKeepsItems | src/components/DocumentFormNew.tsx:117-142 | any sequence of offered edits keeps the item list non-empty |
| Form.InitialDocumentKeepsItems | src/app/page.tsx:114-123 | starting from the initial document, the item list is never empty |
| Canvas.Doc.constructor | src/lib/pdfGenerator.ts:15 | a new document has one page, no operations and the default font |
| Canvas.Doc.AddPage | src/lib/pdfGeneratorAdvanced.ts:268 | `addPage` appends a page and makes it current |
| Canvas.Doc.SetPage | src/lib/pdfGeneratorAdvanced.ts:353 | `setPage(i)` makes page i current |
| Canvas.Doc.SetFontSize | src/lib/pdfGeneratorAdvanced.ts:117 | `setFontSize` changes only the size of the current font |
| Canvas.Doc.SetFontStyle | src/lib/pdfGeneratorAdvanced.ts:118 | `setFont(family, style)` changes only the style of the current font |
| Canvas.Doc.Text | src/lib/pdfGeneratorAdvanced.ts:156 | `text` appends one text operation on the current page in the current font |
| Canvas.Doc.Rect | src/lib/pdfGeneratorAdvanced.ts:200 | `rect` appends one rectangle on the current page, filled or outlined |
| Canvas.Doc.Line | src/lib/pdfGeneratorAdvanced.ts:253 | `line` appends one line on the current page |
| Canvas.Doc.Image | src/lib/pdfGeneratorAdvanced.ts:283-290 | `addImage` appends one image on the current page |
| Canvas.FlowLines | src/lib/pdfGeneratorFast.ts:64-84 | a flow of lines issues one operation per line and adds at most one page per line |
| Canvas.FlowPlacement | src/lib/pdfGeneratorFast.ts:64-84 | each flowed line is drawn on a page from the first to the last, either with the space asked for below it or at the top |
| Canvas.FlowSpacing | src/lib/pdfGeneratorFast.ts:69-84 | consecutive lines are one advance apart on the same page, or the second is at the top of the next page |
| Canvas.FlowFirst | src/lib/pdfGeneratorFast.ts:69-84 | the first line is drawn where the break check puts the starting cursor |
| Canvas.FlowWithoutBreaks | src/lib/pdfGeneratorFast.ts:64-84 | lines that fit move the cursor by one advance each and start no page |
| Canvas.StepsClosed | src/lib/pdfGeneratorAdvanced.ts:140 | adding the same advance j times is j times the advance |
| AdvancedLayout.FitLogo | src/lib/pdfGeneratorAdvanced.ts:72-77 | the logo is scaled into 50 × 30 with its proportions kept and one side at the bound; its width is positive exactly when the image's is, so an image of width 0 is never drawn |
| AdvancedLayout.BreakRule | src/lib/pdfGeneratorAdvanced.ts:260-272 | `checkPageBreak(h)`: nothing changes when `h` fits above footer and margin; otherwise one page is added, the cursor is at margin + header height, and the header is drawn on the new page |
| AdvancedLayout.BreakAddsNoText | src/lib/pdfGeneratorAdvanced.ts:275-306 | a break adds no left-aligned text: what it draws is the header |
| AdvancedLayout.AddTextEmpty | src/lib/pdfGeneratorAdvanced.ts:113 | an empty text changes nothing |
| AdvancedLayout.AddTextSingle | src/lib/pdfGeneratorAdvanced.ts:146-161 | unwrapped text is drawn at the cursor from before the check, and the cursor becomes the checked cursor plus the line height |
| AdvancedLayout.AddTextWrapped | src/lib/pdfGeneratorAdvanced.ts:124-145 | wrapped text is drawn line by line, each one line height below the previous, and the cursor ends at start + k × line height for k lines |
| AdvancedLayout.WrapBreaks | src/lib/pdfGeneratorAdvanced.ts:128-145 | the wrapped loop adds no page when the first line fits, otherwise one page, or one per line when not even the top of a page has room; its own cursor, not the reset one, decides where lines go |
| AdvancedLayout.WrapEnd | src/lib/pdfGeneratorAdvanced.ts:140-144 | the loop's cursor ends |lines| line heights below the start |
| AdvancedLayout.WrapPlacement | src/lib/pdfGeneratorAdvanced.ts:128-141 | the texts the loop draws are its lines, in order, one line height apart |
| AdvancedLayout.WrapLeftX | src/lib/pdfGeneratorAdvanced.ts:121-139 | left-aligned wrapped lines all start at the same x |
| AdvancedLayout.CellTextFits | src/lib/pdfGeneratorAdvanced.ts:229-237 | a cell is shown whole when it fits its column less padding, otherwise cut to a prefix followed by "..." that fits or is only "..." |
| AdvancedLayout.HeaderCellsShape | src/lib/pdfGeneratorAdvanced.ts:206-210 | header c is drawn processed and in bold in column c |
| AdvancedLayout.RowCellsShape | src/lib/pdfGeneratorAdvanced.ts:224-240 | cell c of a row is drawn, cut, in column c |
| AdvancedLayout.BodyRects | src/lib/pdfGeneratorAdvanced.ts:215-219 | one stripe per row, in order, row r in `rowBgColors[r mod len]` |
| AdvancedLayout.TableRects | src/lib/pdfGeneratorAdvanced.ts:198-248 | the rectangles of a table: the header band, one stripe per row, then the outline of the whole table |
| AdvancedLayout.TableLines | src/lib/pdfGeneratorAdvanced.ts:251-254 | N − 1 vertical separators at the column boundaries, spanning the table height |
| AdvancedLayout.TablePlacement | src/lib/pdfGeneratorAdvanced.ts:186-256 | the check asks for (rows + 1) × row height; the table is drawn at the checked cursor; the cursor ends 5 below the table |
| AdvancedLayout.TableBottom | src/lib/pdfGeneratorAdvanced.ts:212-242 | the rows end one table height, (rows + 1) × (fontSize + 2 × padding), below the top |
| AdvancedLayout.BannerLinesShape | src/lib/pdfGeneratorAdvanced.ts:695-703 | the notice lines are centred in the box, 6 apart |
| AdvancedLayout.SignatureShape | src/lib/pdfGeneratorAdvanced.ts:741-789 | the two signature lines, then the names and positions in 10-point normal |
| AdvancedLayout.SignatureCount | src/lib/pdfGeneratorAdvanced.ts:760-789 | one text per non-empty name or position, besides the two lines |
| AdvancedLayout.LaidGood | src/lib/pdfGeneratorAdvanced.ts:335-348 | the title page and main document use at least 2 pages; every operation is on one of them; the only text not left-aligned is the header, and every page from 2 on has it |
| AdvancedLayout.RunGood | src/lib/pdfGeneratorAdvanced.ts:362-801 | every statement keeps those facts and only adds pages |
| AdvancedLayout.FinishedHeaders | src/lib/pdfGeneratorAdvanced.ts:351-356 | adding the footers keeps the headers exactly on pages 2 .. N and every operation on a page 1 .. N |
| AdvancedLayout.FootersOnEveryPage | src/lib/pdfGeneratorAdvanced.ts:309-356 | every page i of N gets "Lapa i no N", its stamp and the footer line |
| AdvancedLayout.FootersOnly | src/lib/pdfGeneratorAdvanced.ts:351-356 | every footer operation is on a page 1..N, and every centred footer text is a page label with the same N |
| AdvancedLayout.GenerateFooters | src/lib/pdfGeneratorAdvanced.ts:335-358 | the whole output has at least 2 pages and every page's footer |
| AdvancedLayout.GenerateHeaders | src/lib/pdfGeneratorAdvanced.ts:335-358 | the header is on page i exactly when 2 ≤ i ≤ N; every operation is on a page 1..N; the centred texts are page labels |
| AdvancedLayout.GenerateShape | src/lib/pdfGeneratorAdvanced.ts:335-358 | the output has at least 2 pages, every page its footer, pages 2 .. N exactly their header, and no operation off the pages |
| AdvancedCompose.ItemRowsRead | src/lib/pdfGeneratorAdvanced.ts:544-551 | one row per item, with `Nr.` = index + 1, the name, and the quantity as "q gab." |
| AdvancedCompose.ItemTablePresent | src/lib/pdfGeneratorAdvanced.ts:534-556 | the item table is there exactly when there are items |
| AdvancedCompose.MainItemHeadings | src/lib/pdfGeneratorAdvanced.ts:561-584 | the main document's item headings are exactly "3.(i+1). name" for each item, in order |
| AdvancedCompose.ItemBlocksShape | src/lib/pdfGeneratorAdvanced.ts:534-584 | the item part holds the item table exactly when there are items, and besides it only headings and ordinary text |
| AdvancedCompose.Section4Present | src/lib/pdfGeneratorAdvanced.ts:588-634 | section 4 appears exactly when warranty, documents, special conditions or responsibility is set |
| AdvancedCompose.BannerPresent | src/lib/pdfGeneratorAdvanced.ts:676-705 | the electronic banner is there exactly when the electronic signature is on |
| AdvancedCompose.StampPresent | src/lib/pdfGeneratorAdvanced.ts:707-713 | so is its timestamp |
| AdvancedCompose.SignatureLinesPresent | src/lib/pdfGeneratorAdvanced.ts:715-792 | the paper signatures are there exactly when it is off |
| AdvancedCompose.SignatureSectionShape | src/lib/pdfGeneratorAdvanced.ts:676-792 | only one of the two signature branches is laid out |
| AdvancedCompose.MainTable | src/lib/pdfGeneratorAdvanced.ts:553 | the only table of the main document is the item table |
| AdvancedGenerator.LoadedLogo | src/lib/pdfGeneratorAdvanced.ts:60-86 | a logo is there exactly when the document has one and the image loaded, scaled into 50 × 30, with a positive width exactly when the image has one |
| AdvancedGenerator.Generator.constructor | src/lib/pdfGeneratorAdvanced.ts:38-58 | a new generator: one page, cursor at the margin, page 1, no total |
| AdvancedGenerator.Generator.LoadLogo | src/lib/pdfGeneratorAdvanced.ts:60-86 | the logo size is the fitted size, or none when the image fails |
| AdvancedGenerator.Generator.AddHeader | src/lib/pdfGeneratorAdvanced.ts:275-306 | nothing on page 1; otherwise the header title and line on the current page |
| AdvancedGenerator.Generator.AddPage | src/lib/pdfGeneratorAdvanced.ts:267-272 | the state becomes the next page with cursor at margin + header height and its header |
| AdvancedGenerator.Generator.CheckPageBreak | src/lib/pdfGeneratorAdvanced.ts:260-264 | the state becomes `Break` of the old state |
| AdvancedGenerator.Generator.AddText | src/lib/pdfGeneratorAdvanced.ts:89-162 | the state becomes `AddTextS` of the old state |
| AdvancedGenerator.Generator.WrappedLines | src/lib/pdfGeneratorAdvanced.ts:128-141 | the loop over the wrapped lines leaves the state and cursor `WrapLines` gives |
| AdvancedGenerator.Generator.FitCell | src/lib/pdfGeneratorAdvanced.ts:229-237 | the truncation loop returns `CellText` of the cell |
| AdvancedGenerator.Generator.HeaderRow | src/lib/pdfGeneratorAdvanced.ts:206-210 | the header loop draws `HeaderCells` of the headers |
| AdvancedGenerator.Generator.DrawTable | src/lib/pdfGeneratorAdvanced.ts:198-254 | the table is drawn as `TableOps` at the cursor and ends one table height below it |
| AdvancedGenerator.Generator.BodyRows | src/lib/pdfGeneratorAdvanced.ts:215-243 | the row loop draws `BodyOps` and ends the rows one table height down |
| AdvancedGenerator.Generator.AddTable | src/lib/pdfGeneratorAdvanced.ts:165-257 | the state becomes `AddTableS` of the old state |
| AdvancedGenerator.Generator.Banner | src/lib/pdfGeneratorAdvanced.ts:678-705 | the state becomes `BannerS` of the old state |
| AdvancedGenerator.Generator.Signatures | src/lib/pdfGeneratorAdvanced.ts:740-791 | the state becomes `SignaturesS` of the old state |
| AdvancedGenerator.Generator.Exec | src/lib/pdfGeneratorAdvanced.ts:362-801 | one statement of the title page or main document gives `ExecS` of the old state |
| AdvancedGenerator.Generator.Run | src/lib/pdfGeneratorAdvanced.ts:362-801 | the statements in order give `RunS` of the old state |
| AdvancedGenerator.Generator.FitText | src/lib/pdfGeneratorAdvanced.ts:146-161 | the unwrapped branch: the x by alignment, the break check, the text at the y taken before the check, and the cursor one line height down only when no y was given (`FitS`) |
| AdvancedGenerator.Generator.TableHead | src/lib/pdfGeneratorAdvanced.ts:198-210 | the filled header band at the cursor, then the bold header cells (`TableHeadOps`), leaving the font bold |
| AdvancedGenerator.Generator.RowTexts | src/lib/pdfGeneratorAdvanced.ts:224-240 | each cell of a row drawn cut to its column, at its column's x and the row's baseline (`RowCells`) |
| AdvancedGenerator.Generator.BodyRow | src/lib/pdfGeneratorAdvanced.ts:216-240 | one row: its stripe in `rowBgColors[r mod len]` (`RowColor`), then its cells in the normal font |
| AdvancedGenerator.Generator.Separators | src/lib/pdfGeneratorAdvanced.ts:251-254 | the vertical lines between the columns, 1 to N − 1, from the table's top to its bottom (`ColumnLines`) |
| AdvancedGenerator.Generator.TableFrame | src/lib/pdfGeneratorAdvanced.ts:246-254 | the outline of the whole table, then the column separators (`TableFrameOps`) |
| AdvancedGenerator.Generator.BannerText | src/lib/pdfGeneratorAdvanced.ts:696-703 | the notice lines, each centred in the box, 6 apart from ty down (`BannerLines`) |
| AdvancedGenerator.Generator.SignatureRules | src/lib/pdfGeneratorAdvanced.ts:741-750 | the two signature lines at the given height, one under each half of the page (`SignatureLines`), drawing nothing else |
| AdvancedGenerator.Generator.SignatureTexts | src/lib/pdfGeneratorAdvanced.ts:759-789 | the handover representative's name and position under the left line, then the receiving one's under the right (`SignatureNames`) |
| AdvancedGenerator.Generator.RepresentativeTexts | src/lib/pdfGeneratorAdvanced.ts:760-773 | one representative: the name at the cursor and the position 5 below, each only when set (`Representing`) |
| AdvancedGenerator.Generator.SignedText | src/lib/pdfGeneratorAdvanced.ts:760-766 | a name or position is drawn, processed, exactly when it is not empty (`Signed`) |
| AdvancedGenerator.Generator.Rule | src/lib/pdfGeneratorAdvanced.ts:383 | a line across the text width at the cursor, with the cursor and page unchanged (`RuleS`) |
| AdvancedGenerator.Generator.Logo | src/lib/pdfGeneratorAdvanced.ts:364-378 | the logo at the margin and the cursor, and the cursor its height plus 10 down, exactly when a logo of positive width is loaded (`LogoS`) |
| AdvancedGenerator.Generator.LayOut | src/lib/pdfGeneratorAdvanced.ts:341-348 | from the top of the first page: the title page, a new page, and the main document, giving `Laid` |
| AdvancedGenerator.Generator.AddFooter | src/lib/pdfGeneratorAdvanced.ts:309-332 | the footer of the current page is appended |
| AdvancedGenerator.Generator.AddFooters | src/lib/pdfGeneratorAdvanced.ts:351-356 | the total becomes the page count and every page's footer is appended, in page order |
| AdvancedGenerator.Generator.GeneratePDF | src/lib/pdfGeneratorAdvanced.ts:335-359 | the output is `GenerateS` of the document, with the logo loaded as `LoadedLogo` |
| AdvancedGenerator.GenerateAdvancedPDF | src/lib/pdfGeneratorAdvanced.ts:864-867 | a new generator draws `GenerateS` of the document on `Laid` pages, at least 2, each with its footer, pages 2 .. N exactly with the header, and nothing off the pages |
| FastLayout.BreakRule | src/lib/pdfGeneratorFast.ts:30-35 | `checkPageBreak(h)` adds one page exactly when y + h > page height − 30, and then the cursor is at the margin 20; otherwise nothing changes |
| FastLayout.AddTextPlacement | src/lib/pdfGeneratorFast.ts:38-85 | each wrapped line is drawn after a default check, so with 20 free below it or at the margin, at the x its alignment gives; the cursor ends one line height, 6, below the last line |
| FastLayout.AddTextWithoutBreaks | src/lib/pdfGeneratorFast.ts:64-84 | when the lines fit, the cursor moves exactly 6 per line and no page is added |
| FastLayout.CutLongest | src/lib/pdfGeneratorFast.ts:127-132 | a cell is cut to the longest prefix that fits `colWidth − 4`, or the empty string, with no ellipsis |
| FastLayout.CutKeepsFitting | src/lib/pdfGeneratorFast.ts:127-132 | a fitting cell is unchanged |
| FastLayout.HeaderTextsShape | src/lib/pdfGeneratorFast.ts:104-108 | header c is drawn unchanged and in bold in column c |
| FastLayout.RowCellsShape | src/lib/pdfGeneratorFast.ts:122-135 | cell c is drawn, cut, in column c |
| FastLayout.TableRects | src/lib/pdfGeneratorFast.ts:96-120 | the header band, then one stripe per row: white for even rows, light grey for odd ones |
| FastLayout.BodyRects | src/lib/pdfGeneratorFast.ts:116-120 | one stripe per body row, in order |
| FastLayout.HorizontalBorders | src/lib/pdfGeneratorFast.ts:145-149 | rows + 2 horizontal lines, 8 apart, across the table width |
| FastLayout.VerticalBorders | src/lib/pdfGeneratorFast.ts:150-154 | N + 1 vertical lines from margin to margin, spanning (rows + 1) × 8 |
| FastLayout.TablePlacement | src/lib/pdfGeneratorFast.ts:88-157 | the check asks for 8 × (rows + 2); the table is drawn at the checked cursor; the cursor ends (rows + 1) × 8 + 10 below it |
| FastLayout.SignatureLinesMirror | src/lib/pdfGeneratorFast.ts:470-478 | the two signature lines are at the cursor and mirror each other about the page centre |
| FastLayout.SignatureTexts | src/lib/pdfGeneratorFast.ts:486-501 | each name or position is drawn, under its line, exactly when it is set |
| FastLayout.SignatureNoEmptyText | src/lib/pdfGeneratorFast.ts:483-501 | no empty text is drawn, and every text is in 10-point normal |
| FastLayout.BoxCentred | src/lib/pdfGeneratorFast.ts:425-426 | the box under the notice is centred on the page at the cursor |
| FastLayout.FooterOnNewPage | src/lib/pdfGeneratorFast.ts:513-520 | the "Ģenerēts" footer always starts a new page, and its first line is drawn at the margin on it |
| FastLayout.FastGenerated | src/lib/pdfGeneratorFast.ts:196-523 | the act has at least 2 pages, every operation is on one of them, and every text is left-aligned |
| FastLayout.RunGood | src/lib/pdfGeneratorFast.ts:196-523 | every statement keeps operations on pages 1..N and only adds pages |
| FastCompose.ItemRowsRead | src/lib/pdfGeneratorFast.ts:313-321 | one row per item, with `Nr.` = index + 1, the name and "q gab." |
| FastCompose.FastItemTablePresent | src/lib/pdfGeneratorFast.ts:311-323 | the item table is there exactly when there are items |
| FastCompose.FastItemHeadings | src/lib/pdfGeneratorFast.ts:326-349 | the item headings are "3.(i+1). name" for exactly the items with components or defects, in order |
| FastCompose.DetailHeading | src/lib/pdfGeneratorFast.ts:327-334 | an item yields its heading exactly when it has components or defects |
| FastCompose.FastSection4Present | src/lib/pdfGeneratorFast.ts:355-389 | section 4 appears exactly when one of its four clauses is set |
| FastCompose.FastBoxPresent | src/lib/pdfGeneratorFast.ts:421-443 | the box is drawn exactly for an electronic signature |
| FastCompose.FastSignaturesPresent | src/lib/pdfGeneratorFast.ts:444-504 | the paper signatures are drawn exactly without it |
| FastCompose.FastEndsWithFooter | src/lib/pdfGeneratorFast.ts:513-520 | the act ends with the footer's cursor move and timestamp |
| FastGenerator.Generator.constructor | src/lib/pdfGeneratorFast.ts:5-28 | a new generator: one page, cursor at 20 |
| FastGenerator.Generator.CheckPageBreak | src/lib/pdfGeneratorFast.ts:30-35 | the state becomes `Break` of the old state |
| FastGenerator.Generator.TextLines | src/lib/pdfGeneratorFast.ts:64-84 | the line loop gives `FlowLines` of its lines |
| FastGenerator.Generator.AddText | src/lib/pdfGeneratorFast.ts:38-85 | the state becomes `AddTextS` of the old state |
| FastGenerator.Generator.FitCell | src/lib/pdfGeneratorFast.ts:127-132 | the truncation loop returns `Cut` of the cell |
| FastGenerator.Generator.TextLine | src/lib/pdfGeneratorFast.ts:69-84 | one pass of the loop: the break check, the line at its alignment's x at the checked cursor, then one line height down |
| FastGenerator.Generator.HeaderRow | src/lib/pdfGeneratorFast.ts:104-108 | the header texts, unchanged and bold, one per column (`HeaderTexts`) |
| FastGenerator.Generator.TableHead | src/lib/pdfGeneratorFast.ts:96-110 | the header band at the cursor, the bold header texts, then one row height down |
| FastGenerator.Generator.RowTexts | src/lib/pdfGeneratorFast.ts:122-135 | each cell of a row cut to its column and drawn at its column's x (`RowCells`) |
| FastGenerator.Generator.BodyRow | src/lib/pdfGeneratorFast.ts:117-137 | one row: its white or light grey stripe, its cells, then one row height down |
| FastGenerator.Generator.BodyRows | src/lib/pdfGeneratorFast.ts:116-138 | the body rows in order, the cursor ending under the last one (`BodyOps`) |
| FastGenerator.Generator.HorizontalLines | src/lib/pdfGeneratorFast.ts:145-148 | rows + 2 horizontal borders, one row height apart, ending at the cursor (`HLines`) |
| FastGenerator.Generator.VerticalLines | src/lib/pdfGeneratorFast.ts:151-154 | N + 1 vertical borders at the column edges, from the header's top to the cursor (`VLines`) |
| FastGenerator.Generator.Borders | src/lib/pdfGeneratorFast.ts:141-154 | the horizontal then the vertical borders of the table (`BorderOps`) |
| FastGenerator.Generator.SignatureRules | src/lib/pdfGeneratorFast.ts:470-478 | the two signature lines at the cursor, one under each half of the page (`SignatureLines`) |
| FastGenerator.Generator.SignatureTexts | src/lib/pdfGeneratorFast.ts:480-501 | the names 10 below the lines and the positions 5 lower, each under its party's line when set, and the cursor 15 down |
| FastGenerator.Generator.SignedPair | src/lib/pdfGeneratorFast.ts:486-491 | the handover party's text under the left line, then the receiving party's under the right, each only when set |
| FastGenerator.Generator.SignedText | src/lib/pdfGeneratorFast.ts:486-488 | a name or position is drawn exactly when it is not empty (`Signed`) |
| FastGenerator.Generator.AddTable | src/lib/pdfGeneratorFast.ts:88-157 | the state becomes `AddTableS` of the old state |
| FastGenerator.Generator.AddLogo | src/lib/pdfGeneratorFast.ts:160-180 | the state becomes `LogoS` of the old state |
| FastGenerator.Generator.AddLine | src/lib/pdfGeneratorFast.ts:183-188 | a line across the text width, then 5 down |
| FastGenerator.Generator.Box | src/lib/pdfGeneratorFast.ts:425-426 | the state becomes `BoxS` of the old state |
| FastGenerator.Generator.Signatures | src/lib/pdfGeneratorFast.ts:469-503 | the state becomes `SignaturesS` of the old state |
| FastGenerator.Generator.Exec | src/lib/pdfGeneratorFast.ts:196-520 | one statement of `generatePDF` gives `ExecS` of the old state |
| FastGenerator.Generator.Run | src/lib/pdfGeneratorFast.ts:196-520 | the statements in order give `RunS` of the old state |
| FastGenerator.Generator.GeneratePDF | src/lib/pdfGeneratorFast.ts:196-523 | the cursor goes back to the margin and the whole act is laid out as `FastRun` |
| FastGenerator.GenerateFastPDF | src/lib/pdfGeneratorFast.ts:527-530 | a new generator's output is the act; it has at least 2 pages, every operation is on one of them, and every text is left-aligned |
| BasicLayout.BreakRule | src/lib/pdfGenerator.ts:65-70 | `checkPageBreak(h)` adds a page exactly when y + h > page height − 25, with the cursor at 25; it draws nothing |
| BasicLayout.AddTextLine | src/lib/pdfGenerator.ts:29-46 | `addText` never breaks: one processed line at the cursor, placed by its alignment, and the cursor moves fontSize × 0.4 + 3 |
| BasicLayout.WrappedPlacement | src/lib/pdfGenerator.ts:48-63 | empty text does nothing; otherwise each wrapped line is drawn at the margin after `checkPageBreak(20)`, and the cursor ends one line height below the last |
| BasicLayout.WrappedWithoutBreaks | src/lib/pdfGenerator.ts:57-62 | lines that fit move the cursor one line height each and add no page |
| BasicLayout.ColumnsLayout | src/lib/pdfGenerator.ts:109-149 | the two party columns; the cursor ends at start + 40, because the right column advances only 14 |
| BasicLayout.BannerLayout | src/lib/pdfGenerator.ts:299-327 | the frame at the cursor; the notice lines centred on the page, 10 below its top and 6 apart; the cursor 35 down |
| BasicLayout.BannerTextsShape | src/lib/pdfGenerator.ts:314-324 | each notice line is centred in the frame, 6 below the previous one |
| BasicLayout.SignaturesLayout | src/lib/pdfGenerator.ts:328-357 | for each party, a title, a line 15 below, and the processed name and position at 20 and 25 below; the cursor 35 down |
| BasicLayout.RunGrows | src/lib/pdfGenerator.ts:14-361 | every statement keeps what was drawn and only draws on the current or new pages |
| BasicLayout.ExecGrows | src/lib/pdfGenerator.ts:14-361 | a single statement keeps what was drawn and draws only on its current or new pages |
| BasicLayout.MainOnNewPage | src/lib/pdfGenerator.ts:159-160 | everything after the title page is on a later page than the title page |
| BasicLayout.LaidGood | src/lib/pdfGenerator.ts:14-361 | the laid-out document has at least 2 pages, every operation on one of them |
| BasicLayout.NumbersOnEveryPage | src/lib/pdfGenerator.ts:364-370 | the numbering pass stamps page i with "i / N", the same N on every page, and nothing else |
| BasicLayout.NumbersShape | src/lib/pdfGenerator.ts:364-370 | the first k numbers are those of pages 1 .. k, in order |
| BasicLayout.BasicGenerated | src/lib/pdfGenerator.ts:14-373 | the output is the laid-out document followed by one number per page, all on pages 1..N with N ≥ 2 |
| BasicCompose.ItemsBlocksHeadings | src/lib/pdfGenerator.ts:217-245 | the item part yields one heading "3.(i+1). name" per item, in order |
| BasicCompose.MainItemHeadings | src/lib/pdfGenerator.ts:162-361 | so does the whole main document |
| BasicCompose.QuantityShown | src/lib/pdfGenerator.ts:231-233 | an item's quantity line is there exactly when its quantity exceeds 1 |
| BasicCompose.Section4Present | src/lib/pdfGenerator.ts:248-276 | section 4 appears exactly when one of its four clauses is set |
| BasicCompose.BannerPresent | src/lib/pdfGenerator.ts:299-327 | the electronic banner is laid out exactly for an electronic signature |
| BasicCompose.SignaturesPresent | src/lib/pdfGenerator.ts:328-357 | the paper signatures, with the two representatives, exactly without it |
| BasicCompose.SignatureSectionShape | src/lib/pdfGenerator.ts:295-357 | only one of the two branches is laid out |
| BasicCompose.MainHasNoNewPage | src/lib/pdfGenerator.ts:162-361 | the main document starts no page of its own; only breaks add pages |
| BasicGenerator.Generator.constructor | src/lib/pdfGenerator.ts:15-21 | a new document with the cursor at the margin 25 |
| BasicGenerator.Generator.CheckPageBreak | src/lib/pdfGenerator.ts:65-70 | the state becomes `Break` of the old state |
| BasicGenerator.Generator.AddText | src/lib/pdfGenerator.ts:29-46 | the state becomes `AddTextS` of the old state |
| BasicGenerator.Generator.DrawLines | src/lib/pdfGenerator.ts:57-62 | the line loop gives `FlowLines` of its lines |
| BasicGenerator.Generator.AddWrappedText | src/lib/pdfGenerator.ts:48-63 | the state becomes `AddWrappedS` of the old state |
| BasicGenerator.Generator.AddLine | src/lib/pdfGenerator.ts:72-77 | a line across the content width, then 5 down |
| BasicGenerator.Generator.AddSpace | src/lib/pdfGenerator.ts:79-81 | the cursor moves by the space and nothing else changes |
| BasicGenerator.Generator.NewPage | src/lib/pdfGenerator.ts:159-160 | the state becomes `NewPageS` of the old state |
| BasicGenerator.Generator.LogoFrame | src/lib/pdfGenerator.ts:87-92 | the logo frame and "LOGO" in 8 points, the cursor unchanged |
| BasicGenerator.Generator.Column | src/lib/pdfGenerator.ts:117-131 | one column: title, processed name 8 below, registration number 14 below when set |
| BasicGenerator.Generator.Columns | src/lib/pdfGenerator.ts:109-149 | the state becomes `ColumnsS` of the old state |
| BasicGenerator.Generator.BannerText | src/lib/pdfGenerator.ts:317-324 | the loop draws `BannerTexts` of its lines |
| BasicGenerator.Generator.Banner | src/lib/pdfGenerator.ts:299-327 | the state becomes `BannerS` of the old state |
| BasicGenerator.Generator.Signature | src/lib/pdfGenerator.ts:332-345 | one signature's title, line, name and position |
| BasicGenerator.Generator.Signatures | src/lib/pdfGenerator.ts:328-357 | the state becomes `SignaturesS` of the old state |
| BasicGenerator.Generator.Exec | src/lib/pdfGenerator.ts:84-361 | one statement gives `ExecS` of the old state |
| BasicGenerator.Generator.Run | src/lib/pdfGenerator.ts:84-361 | the statements in order give `RunS` of the old state |
| BasicGenerator.Generator.NumberPages | src/lib/pdfGenerator.ts:364-370 | the numbering pass appends `Numbers` for every page and adds no page |
| BasicGenerator.GeneratePDF | src/lib/pdfGenerator.ts:14-373 | the output is `GenerateS` of the document; it has at least 2 pages, every operation is on one of them, and every text is left-aligned |

## Left out

- The PDF library's own work is not modelled. Glyph metrics, the fonts' family, colours, line widths, `roundedRect` and `circle` drawing, and `output('blob')` are left out. Widths and line splits are given functions; a `roundedRect` is recorded as a rectangle.
- Nothing in the model is asynchronous. `async`/`await`, React rendering and the `localStorage` copy of the saved parties are left out; the saved parties are an in-memory list.
- The image decode of `loadLogo` happens in the browser, so it is left out. The model is given the image's size, or `None` when decoding fails.
- The Fast generator's `addImage` may throw, and this is left out; whether the logo loads is the parameter `logoLoads`.
- The Advanced generator's `addImage` calls on the title page and in `addHeader` may throw, and the exception is caught. A throw leaves the cursor as it was, which is the same as having no logo, so `image` is `None` also when the library rejects the image; the model assumes the library rejects an image at either place or at neither.
- FastGenerator.Generator.AddLogo: the check for an empty logo inside `addLogo` is not modelled separately, because its only caller already checks it.
- The clock, `Math.random`, `toLocaleString`, `pdfUtils.formatCurrency` and `pdfUtils.formatDate` are left out. The clock components, the random number and the timestamp strings are parameters.
- `addDecorative` of the Advanced generator is never called, so it is left out. `pdfUtils.calculateTextWidth` is only a width query, so it is left out.
- src/lib/pdfGeneratorOptimized.ts is not part of this model, because it is not valid TypeScript.
- src/lib/emailService.ts, src/components/Settings.tsx, src/components/PdfPreview.tsx and src/app/page_old.tsx are not part of this model.
- The form's `handleLogoUpload` uses a `FileReader`, so it is left out. `generateNewActNumber` is `updateData('actNumber', …)` of the basic act number, so it has no member of its own.
- AdvancedText.Shrink: strings are sequences of Unicode code points. JavaScript's `length` and `slice(0, -1)` count and remove UTF-16 code units, so a cell ending in a character outside the Basic Multilingual Plane loses one surrogate per pass in the source and one whole character per pass here.
- AdvancedText.ShrinkLongest: the prefix proved longest is longest in code points, not in UTF-16 code units, for the reason given for AdvancedText.Shrink.
- AdvancedText.EllipsizeShape: the kept prefix is counted in code points, as for AdvancedText.Shrink.
- AdvancedLayout.CellTextFits: the kept prefix is counted in code points, as for AdvancedText.Shrink.
- AdvancedGenerator.Generator.FitCell: the loop drops one code point per pass where `slice(0, -1)` drops one UTF-16 code unit, as for AdvancedText.Shrink.
- FastLayout.Cut: the cut drops one code point per pass where `slice(0, -1)` drops one UTF-16 code unit, as for AdvancedText.Shrink.
- FastLayout.CutLongest: the prefix proved longest is longest in code points, as for FastLayout.Cut.
- FastGenerator.Generator.FitCell: the loop drops one code point per pass, as for FastLayout.Cut.
- Form.ParseInt: the quantity is an unbounded integer. In the source `parseInt` returns a double, which cannot hold every integer beyond 2^53 (`parseInt("9007199254740993")` is 9007199254740992).
- Form.QuantityInput: keeps the exact integer, without the rounding beyond 2^53 described for Form.ParseInt.
- Form.ParseIntRoundTrip: holds for every integer here; in the source it holds only up to 2^53 in magnitude, because of the rounding described for Form.ParseInt.
- Form.QuantityRoundTrip: the same bound of 2^53 as for Form.ParseIntRoundTrip.
- Basics.IntToString: writes every digit. A JavaScript number of magnitude 10^21 or more is written in exponent form (`1e+21`) by a template string, which is not modelled.
- Basics.ToUpper: it upper-cases ASCII and the Latvian letters only, not all of Unicode.
- The `|| ''` fallbacks on strings are not modelled, because texts are never undefined here.
- The fields of `DocumentData` marked optional and never read by the core are left out: `documentType`, `priority`, `deadline`, `category`, `tags`, `notes`, `totalValue`, `currency`, `status`, `createdBy`, `lastModified`, and the optional item and saved-party fields.
- AdvancedGenerator.Generator.AddTable and FastGenerator.Generator.AddTable require at least one column, because the source divides by the column count. Every table the generators draw has columns.
- Concurrent renders of the preview are left out; the model is sequential.
