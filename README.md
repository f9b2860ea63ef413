# Freight document exporters, modelled in Dafny

This project models the export core of a freight-document web application. The application has two forms:

- a Bill of Lading (BOL) for sea freight;
- a CMR road consignment note.

Each form has two exporters:

- an XML serializer: `generateCMRXML` and `generateBOLXML`;
- a PDF layout routine drawn with jsPDF: `generateCMRPDF` and `generateBOLPDF`.

The model also covers the two form components' handlers. These edit the form record and its list of cargo lines.

Each part of the model and its modules:

- **Form records** (`CmrModel`, `BolModel`):
  - every form field, as a datatype;
  - field-by-field access `Get`;
  - the spread update `With` (`{ ...f, [k]: v }`);
  - blank cargo lines and the initial form.
- **Numbers** (`Numeric`):
  - `parseInt` / `parseFloat` as strict parsers returning `Option` (JavaScript's NaN is `None`);
  - sums in which NaN absorbs;
  - number text as a template literal prints it.
  - Weights are exact decimals `Decimal(units, scale)`, so totals can be written out and read back.
- **XML**:
  - `XmlEscape`: `escapeXml` as the five chained `replace` calls, with its inverse `Unescape` and the escaped-text predicate `Safe`.
  - `XmlTree`: a document tree whose text nodes are either `Escaped(raw)`, which the serializer passes through `escapeXml` once, or `Verbatim(text)`. The tree has well-formedness, `Raws` (the raw values a tree escapes, in document order) and a serializer.
  - `CmrXml` and `BolXml`: the two documents built as trees.
- **PDF** (`PdfTrace`, `CmrPdf`, `BolTotals`, `BolPdf`):
  - jsPDF is modelled as a trace: `Doc` is the current page plus the rectangles, texts and lines drawn, in order.
  - Class `PdfTrace.Pdf` holds a `Doc`; its methods `Rect`, `Text`, `Line` and `AddPage` append to it.
  - Every band of a layout is a spec function on `Doc` plus a `Draw…` method proved to produce exactly that function's result.
  - The cursor `currentY` is a local of the generator methods, as in the source.
  - The cargo loops are `while` loops with invariants over a count of lines drawn.
- **Form handlers** (`CargoList`, `CmrEditor`, `BolEditor`):
  - class `Editor` holds `formData` and `cargoItems` as fields;
  - its methods replace them as the React handlers do;
  - each new state is stated through filter / map / guarded-remove functions whose properties are proved as lemmas.

Behaviour of the source worth noting:

- **NaN totals.** A cargo field that does not parse gives a NaN total, not 0. Only an empty field counts as 0, through `|| '0'`.
- **Invalid dates.** `formatDate` on an invalid non-empty date raises the `toISOString` exception. The CMR XML export then fails, modelled as `Failure(InvalidDate(..))`.
- **BOL XML.** The BOL serializer escapes nothing. It computes package and weight totals but never writes them (`src/utils/xmlExport.ts:54-59`). Its reference element is closed by the wrong tag (see Findings).
- **BOL rectangles.** The BOL PDF's `drawBorder` has no guard, so a NaN width reaches `rect`. jsPDF's `rect` is taken to throw on a NaN argument (`PdfTrace.Accepted`), so as written the BOL PDF export stops at the eighth sub-header cell (see Findings). The CMR PDF's `drawBorder` skips NaN or non-positive sizes.
- **BOL page breaks.** The BOL PDF does not test for a page break before the grand-total band. It tests only before each cargo line and before the fee block.
- **CMR file names.** CMR file names use the carrier name, or `document` when it is empty. BOL file names use the bill of lading number, or `draft` when it is empty.

## Model

| member | source | states |
|---|---|---|
| Common.Or | src/utils/cmrXmlExport.ts:80 | `s \|\| fallback` on a string is `s` when it is non-empty and the fallback when it is empty |
| Common.BoolText | src/utils/cmrXmlExport.ts:159-160 | the emitted text is `true` exactly when the flag is set, otherwise `false` |
| Numeric.NatToDigits | src/components/BillOfLadingForm.tsx:90 | `n.toString()` for a natural number is a non-empty digit string that reads back as `n`, one digit exactly when `n < 10`, and starts with `0` only for 0 |
| Numeric.NatToDigitsUnique | src/components/BillOfLadingForm.tsx:90 | every digit string without a leading zero is the text `toString` gives for its value, so that text is the only one |
| Numeric.IntToString | src/utils/cmrXmlExport.ts:126 | an integer's text starts with `-` exactly for negatives, is otherwise digits with no leading zero (but for 0 itself), and parses back to the integer |
| Numeric.ParseInt | src/utils/cmrXmlExport.ts:67 | `parseInt` of a digit string is its value and of `-` and digits the negated value; any text it accepts opens with a digit, or with a sign followed by at least one more character, and is digits from its second character on |
| Numeric.ParseFloat | src/utils/cmrXmlExport.ts:65-66 | `parseFloat` of a digit string is that whole number; it accepts a text exactly when the text, after an optional sign, is an unsigned decimal (`ParseUnsignedDecimal`), so every character but the sign is a digit or a point; a leading `-` gives a value at most 0 |
| Numeric.ParseIntOfEmptyField | src/utils/cmrXmlExport.ts:67 | an empty quantity is read through `\|\| '0'` as 0 |
| Numeric.ParseFloatOfEmptyField | src/utils/cmrXmlExport.ts:65-66 | an empty weight or volume is read through `\|\| '0'` as 0 |
| Numeric.Add | src/utils/cmrXmlExport.ts:65 | the sum of two decimals has the sum of their values |
| Numeric.SumIntsMeaning | src/utils/cmrXmlExport.ts:67 | a `reduce` sum of parsed integers is NaN exactly when some term is NaN, and otherwise is the sum of the terms |
| Numeric.SumDecimalsMeaning | src/utils/cmrXmlExport.ts:65-66 | a `reduce` sum of parsed decimals is NaN exactly when some term is NaN, and otherwise has the sum of the terms' values |
| Numeric.SumIntsAppend | src/utils/cmrXmlExport.ts:67 | summing a concatenation adds the two partial sums |
| Numeric.SumDecimalsAppendValue | src/utils/cmrXmlExport.ts:65-66 | summing a concatenation is NaN exactly when a part is NaN, and otherwise adds the parts' values |
| Numeric.IntText | src/utils/cmrXmlExport.ts:126 | `${total}` for an integer total is number text that parses back to the total, or `NaN` |
| Numeric.DecimalText | src/utils/cmrXmlExport.ts:127-128 | `${total}` for a decimal total is number text, or `NaN` |
| Numeric.Normalize | src/utils/cmrXmlExport.ts:127 | a number is printed with no trailing fraction zeros and the same value |
| Numeric.DecimalToStringReadsBack | src/utils/cmrXmlExport.ts:127-128 | the printed decimal parses back to a value equal to the total |
| XmlEscape.EscapeXml | src/utils/cmrXmlExport.ts:49-56 | the escaped text holds no `<`, `>`, `"` or `'` |
| XmlEscape.ReplaceAllWithout | src/utils/cmrXmlExport.ts:49-56 | after one `replace(/c/g, r)` a character missing from `r` is gone when it is `c`, and stays missing when it was missing before |
| XmlEscape.EscapeXmlAppend | src/utils/cmrXmlExport.ts:49-56 | escaping works character by character: escaping a concatenation concatenates the escaped parts |
| XmlEscape.EscapeXmlChar | src/utils/cmrXmlExport.ts:49-56 | the five chained `replace` calls map `&`, `<`, `>`, `"` and `'` to their entities and leave any other character alone |
| XmlEscape.EscapeXmlIsEscapeEach | src/utils/cmrXmlExport.ts:49-56 | the chained replacements equal replacing each character by its entity in one pass; replacing `&` first never double-escapes |
| XmlEscape.UnescapeEscapeXml | src/utils/cmrXmlExport.ts:49-56 | decoding the five entities recovers the original text from the escaped text |
| XmlEscape.SafeEscapeXml | src/utils/cmrXmlExport.ts:49-56 | escaped text has no `<`, `>`, quote or apostrophe, and every `&` starts one of the five entities |
| XmlEscape.EscapeXmlIdentity | src/utils/cmrXmlExport.ts:49-56 | escaping leaves a text unchanged exactly when it has none of the five characters |
| XmlEscape.EscapeXmlTwice | src/utils/cmrXmlExport.ts:49-56 | escaping twice gives the same as once exactly when the text has none of the five characters; otherwise it double-escapes |
| XmlEscape.EscapeEachLength | src/utils/cmrXmlExport.ts:49-56 | escaping never shortens a text, and keeps its length exactly when there is nothing to escape |
| XmlTree.ElWellFormed | src/utils/cmrXmlExport.ts:69-198 | an element with the same opening and closing tag is well formed when its children are |
| XmlTree.IllFormedChild | src/utils/xmlExport.ts:61-186 | an element with an ill-formed child is ill-formed |
| XmlTree.EscapedLeaf | src/utils/cmrXmlExport.ts:80 | an element holding one escaped field is well formed, and the field is the only raw value it escapes |
| XmlTree.LeafReadsBack | src/utils/cmrXmlExport.ts:80 | an escaped field is written as `<t>escapeXml(v)</t>`, and decoding its content gives `v` back |
| XmlTree.SerializeAllAppend | src/utils/cmrXmlExport.ts:131-137 | serializing a concatenation of nodes concatenates their texts in order; the template joins the cargo lines with `'\n'`, which the serializer's one element per line matches up to whitespace |
| XmlTree.DocumentOpening | src/utils/xmlExport.ts:61-63 | a document whose root's first child is an element is the XML declaration, the root's opening tag and a newline, that child's text, then the other children and the closing tag |
| XmlTree.TextElementText | src/utils/xmlExport.ts:63 | an element with one text child is written on one line with its opening and its closing tag names |
| CmrModel.Get | src/utils/cmrXmlExport.ts:2-34 | the two check boxes of `CMRFormData` hold booleans and every other field holds a string |
| CmrModel.WithSets | src/components/CMRForm.tsx:124-126 | `{ ...prev, [field]: value }` gives the field the new value |
| CmrModel.WithKeepsOthers | src/components/CMRForm.tsx:124-126 | the spread update leaves every other field as it was |
| CmrModel.WithItem | src/components/CMRForm.tsx:146-150 | `{ ...item, [field]: value }` sets that cargo field and keeps all the others |
| CmrModel.BlankItem | src/components/CMRForm.tsx:129-137 | a new cargo line has the given id and every other field empty |
| CmrModel.InitialForm | src/components/CMRForm.tsx:86-118 | the initial form has COD currency `EUR`, "paid by sender" ticked and "paid by consignee" not, today's date of signing, and every other field empty |
| CmrXml.ZeroPad | src/utils/cmrXmlExport.ts:61 | padding on the left gives the larger of the text's length and the width, and keeps number text number text |
| CmrXml.IsoDay | src/utils/cmrXmlExport.ts:61 | the date part of `toISOString` is at least ten characters; up to year 9999 it is number text (digits and dashes), and past 9999 it is the expanded form, a `+` followed by number text |
| CmrXml.FormatDate | src/utils/cmrXmlExport.ts:58-62 | `formatDate('')` is `''`; a non-empty date gives a day exactly when the calendar accepts it (otherwise `toISOString` throws); the result never needs escaping |
| CmrXml.TotalsOfNoItems | src/utils/cmrXmlExport.ts:65-67 | with no cargo lines the three totals are 0 |
| CmrXml.PackagesTotalAppend | src/utils/cmrXmlExport.ts:67 | one more line adds its parsed quantity to the package total; an empty quantity adds nothing |
| CmrXml.WeightTotalAppend | src/utils/cmrXmlExport.ts:65 | one more line adds its parsed weight to the weight total, which is NaN exactly when a term is NaN; an empty weight adds nothing |
| CmrXml.VolumeTotalAppend | src/utils/cmrXmlExport.ts:66 | one more line adds its parsed volume to the volume total, which is NaN exactly when a term is NaN |
| CmrXml.DocumentNumberText | src/utils/cmrXmlExport.ts:73 | `CMR-${Date.now()}` never needs escaping |
| CmrXml.HeaderFacts | src/utils/cmrXmlExport.ts:71-76 | the document header is well formed and escapes exactly the place of signing |
| CmrXml.PartyFacts | src/utils/cmrXmlExport.ts:79-94 | a sender or consignee block escapes its name, street and country, in that order |
| CmrXml.TakeoverFacts | src/utils/cmrXmlExport.ts:97-100 | the takeover block escapes only the place; the date is written as formatted |
| CmrXml.DeliveryFacts | src/utils/cmrXmlExport.ts:103-105 | the delivery block escapes the place of delivery |
| CmrXml.CarrierFacts | src/utils/cmrXmlExport.ts:108-115 | the carrier block escapes name, street, country and successive carriers, in order |
| CmrXml.VehicleFacts | src/utils/cmrXmlExport.ts:118-121 | the vehicle block escapes both registrations |
| CmrXml.SummaryFacts | src/utils/cmrXmlExport.ts:125-129 | the summary of totals is well formed and holds no raw field |
| CmrXml.CargoFacts | src/utils/cmrXmlExport.ts:131-137 | a cargo line element escapes quantity, description, weight, volume and marks, in that order |
| CmrXml.CargoNodesRaws | src/utils/cmrXmlExport.ts:131-137 | the cargo lines contribute their fields line after line, in list order |
| CmrXml.GoodsFacts | src/utils/cmrXmlExport.ts:124-139 | the goods block is well formed and escapes every cargo field in order |
| CmrXml.CodFacts | src/utils/cmrXmlExport.ts:142-144 | the COD block escapes the currency (`EUR` when empty) and the amount |
| CmrXml.TextSectionFacts | src/utils/cmrXmlExport.ts:147-179 | an optional text section escapes exactly its one field |
| CmrXml.FreightFacts | src/utils/cmrXmlExport.ts:157-164 | the freight block escapes carriage charges and supplements; the two flags are `true`/`false` text |
| CmrXml.SignaturesFacts | src/utils/cmrXmlExport.ts:182-192 | the signatures block escapes the three signatures in order |
| CmrXml.LegalFacts | src/utils/cmrXmlExport.ts:195-197 | the legal notice is fixed text and well formed |
| CmrXml.BodyOutline | src/utils/cmrXmlExport.ts:69-198 | the root's children, comments included, follow the fixed section order, with each optional section present or absent as its field decides |
| CmrXml.OutlineSections | src/utils/cmrXmlExport.ts:142-179 | each of the six optional sections appears exactly when its driving field is non-empty; the freight charges and signatures always appear |
| CmrXml.OptionalSections | src/utils/cmrXmlExport.ts:142-179 | the same stated on the document body |
| CmrXml.BodyFacts | src/utils/cmrXmlExport.ts:69-198 | the body is well formed and escapes exactly the listed form and cargo fields, in document order |
| CmrXml.GenerateCmrXml | src/utils/cmrXmlExport.ts:45-198 | the export fails exactly when the date of signing or the takeover date is non-empty and not a valid date |
| CmrXml.DocumentFacts | src/utils/cmrXmlExport.ts:69-198 | the whole tree is well formed, and every free-text field goes through `escapeXml` exactly once, in document order |
| CmrXml.ExportedCmrDocument | src/utils/cmrXmlExport.ts:45-198 | a successful export is the serialization of a well-formed tree whose escaped values are exactly the form and cargo fields |
| CmrXml.CmrXmlFileNameReadsBack | src/utils/cmrXmlExport.ts:205 | the file name is `CMR_` + carrier name (or `document`) + `_` + date + `.xml` |
| BolModel.Get | src/utils/xmlExport.ts:2-32 | the prepaid and collect boxes hold booleans and every other field holds a string |
| BolModel.WithSets | src/components/BillOfLadingForm.tsx:76-81 | `{ ...prev, [field]: value }` gives the field the new value |
| BolModel.WithKeepsOthers | src/components/BillOfLadingForm.tsx:76-81 | the spread update leaves every other field as it was |
| BolModel.WithItem | src/components/BillOfLadingForm.tsx:83-87 | `{ ...item, [field]: value }` sets that cargo field and keeps all the others |
| BolModel.BlankItem | src/components/BillOfLadingForm.tsx:91-99 | a new cargo line has the given id and every other field empty |
| BolModel.InitialForm | src/components/BillOfLadingForm.tsx:24-69 | the initial form has three original bills, neither prepaid nor collect ticked, the standard terms, and every other field empty |
| BolXml.PaymentTermText | src/utils/xmlExport.ts:166 | the payment term is `COLLECT` exactly when collect is ticked and prepaid is not, and `PREPAID` otherwise |
| BolXml.Copies | src/utils/xmlExport.ts:69-70 | the copies count is never empty: it is the number of original bills whenever that field is filled in, and `3` when it is empty |
| BolXml.ChargesPresent | src/utils/xmlExport.ts:160-177 | the freight charge appears exactly when freight charges are non-empty, and the other charge exactly when other charges are; freight comes first |
| BolXml.ChildrenOutline | src/utils/xmlExport.ts:61-186 | the root's children follow the fixed element order, with the notify party only when it is named |
| BolXml.NotifyPartyPresent | src/utils/xmlExport.ts:90-99 | the notify party element appears exactly when the notify party name is non-empty; shipper, consignee and charges always appear |
| BolXml.CargoItemNodesFlat | src/utils/xmlExport.ts:102-120 | the cargo item elements are those of the lines of all containers, flattened in order |
| BolXml.CargoItemsInOrder | src/utils/xmlExport.ts:102-120 | line `j` of container `i` is the cargo item element at position (lines before container `i`) + `j` |
| BolXml.EquipmentPerContainer | src/utils/xmlExport.ts:124-136 | there is one equipment element per container, in container order |
| BolXml.ReferenceMismatch | src/utils/xmlExport.ts:63 | as written, the first child opens `shippingInstructionReference` and closes `shippingReference`, so the tree as written is never a well-formed tree holding every value as text |
| BolXml.ReferenceLine | src/utils/xmlExport.ts:63 | the reference line is written with the two different tag names |
| BolXml.CorrectionIsLocal | src/utils/xmlExport.ts:63 | the corrected document differs from the written one only in the reference element's closing tag |
| BolXml.VesselNameVerbatim | src/utils/xmlExport.ts:143 | fields are inserted unescaped: a vessel name with `<` means even the corrected tree is not a well-formed tree holding that name as text |
| BolXml.CorrectedWellFormed | src/utils/xmlExport.ts:61-186 | with the closing tag corrected, the document is well formed whenever no field holds a character that needs escaping |
| BolXml.GenerateBolXml | src/utils/xmlExport.ts:52-63 | the document starts with the XML declaration, the `ShippingInstruction` root with its namespace attributes, and a first line holding the bill of lading number between `<shippingInstructionReference>` and `</shippingReference>` |
| BolXml.BolXmlFileNameReadsBack | src/utils/xmlExport.ts:198 | the file name is `BOL_` + bill of lading number (or `draft`) + `_` + date + `.xml` |
| PdfTrace.Plus | src/utils/pdfExport.ts:256 | `a + b` on JavaScript numbers: NaN absorbs, otherwise the values add |
| PdfTrace.DrawingKeepsPages | src/utils/pdfExport.ts:55 | a new document has one page; each drawing call keeps everything on an existing page and only appends to what was drawn |
| PdfTrace.ExtendsTransitive | src/utils/pdfExport.ts:271-310 | drawing after drawing still only appends |
| PdfTrace.FirstRejected | src/utils/pdfExport.ts:61-63 | the position where drawing stops: every rectangle before it has four finite numbers, and the one there, if any, has a NaN, which jsPDF's `rect` refuses |
| PdfTrace.FirstRejectedAppend | src/utils/pdfExport.ts:61-63 | after rectangles `rect` takes, the stopping point is found in what follows |
| PdfTrace.RejectedAt | src/utils/pdfExport.ts:61-63 | a trace that starts with accepted rectangles and then a refused one stops there, whatever follows |
| PdfTrace.Guarded | src/utils/cmrPdfExport.ts:57-60 | the rectangles a NaN guard passes on: none has a NaN, and a trace without NaN passes unchanged |
| PdfTrace.GuardedMembers | src/utils/cmrPdfExport.ts:57-60 | the guard keeps a rectangle exactly when it was drawn and has no NaN |
| PdfTrace.GuardedAppend | src/utils/cmrPdfExport.ts:57-60 | guarding a concatenation guards each part, in order |
| CmrPdf.BorderGuard | src/utils/cmrPdfExport.ts:57-67 | `drawBorder` draws nothing exactly when a coordinate or size is NaN or a size is not positive, and otherwise draws that one rectangle |
| CmrPdf.ColumnGeometry | src/utils/cmrPdfExport.ts:211-223 | the five columns start at 10, 45, 80, 105 and 130, each ends where the next starts, and the last ends at 200 |
| CmrPdf.CellsLayout | src/utils/cmrPdfExport.ts:246-253 | a row of cells adds one rectangle and one text per column at the column's x, in column order |
| CmrPdf.Cells | src/utils/cmrPdfExport.ts:246-253 | the loop over the columns draws exactly the row of cells |
| CmrPdf.DrawPartyBand | src/utils/cmrPdfExport.ts:89-129 | the sender and consignee band draws its function and moves the cursor by 30 |
| CmrPdf.DrawPlaceBand | src/utils/cmrPdfExport.ts:131-160 | the takeover and delivery band moves the cursor by 25 |
| CmrPdf.DrawCarrierBand | src/utils/cmrPdfExport.ts:162-183 | the carrier band moves the cursor by 30 |
| CmrPdf.DrawVehicleBand | src/utils/cmrPdfExport.ts:185-201 | the vehicle band moves the cursor by 25 |
| CmrPdf.DrawHeading | src/utils/cmrPdfExport.ts:81-207 | everything above the table ends at 141 |
| CmrPdf.DrawTableHeader | src/utils/cmrPdfExport.ts:209-225 | the table header moves the cursor by 13 |
| CmrPdf.HeadingLayout | src/utils/cmrPdfExport.ts:81-225 | page 1 starts with six band borders inside the margins, the two halves meeting in the middle, then five header cells at y 146 |
| CmrPdf.HeadingBands | src/utils/cmrPdfExport.ts:81-207 | the bands draw six borders and 22 texts on page 1 |
| CmrPdf.RowTextsMeaning | src/utils/cmrPdfExport.ts:238-250 | each cell text is the field split to the column width less 2 |
| CmrPdf.DrawRow | src/utils/cmrPdfExport.ts:229-256 | a cargo row starts a new page when the cursor is below `pageHeight - 30` and ends 12 below its top |
| CmrPdf.DrawRows | src/utils/cmrPdfExport.ts:229-256 | the loop draws exactly the rows of all lines, and the cursor ends after them |
| CmrPdf.RowFits | src/utils/cmrPdfExport.ts:229-256 | on a page at least 50 high every row ends at least 18 above the page bottom, so no row is split, and a page is added exactly when the cursor passed `pageHeight - 30` |
| CmrPdf.FirstRow | src/utils/cmrPdfExport.ts:225-233 | on an A4-sized page the first row starts at 154 on page 1 |
| CmrPdf.RowStep | src/utils/cmrPdfExport.ts:229-256 | a row adds five borders and five texts, and a page only after the break test |
| CmrPdf.RowCell | src/utils/cmrPdfExport.ts:246-253 | cell `c` of a row is at column `c`, at the row's top, with the field's lines |
| CmrPdf.RowsNext | src/utils/cmrPdfExport.ts:229 | rows are drawn in list order |
| CmrPdf.RowsCount | src/utils/cmrPdfExport.ts:229-256 | after `n` rows there are `5n` more borders and texts and the pages the breaks added |
| CmrPdf.RowsPrefix | src/utils/cmrPdfExport.ts:229-256 | later rows never change earlier ones |
| CmrPdf.RowsBoxNow | src/utils/cmrPdfExport.ts:246-253 | row `k`'s cells are where the cursor put them, on the page it was on |
| CmrPdf.RowsBox | src/utils/cmrPdfExport.ts:246-253 | row `k`'s cells are still there, unchanged, after all rows |
| CmrPdf.DrawNotes | src/utils/cmrPdfExport.ts:258-297 | the COD, payment and agreements block draws its function and ends where `NotesEnd` says |
| CmrPdf.NotesLayout | src/utils/cmrPdfExport.ts:258-297 | the COD heading is drawn exactly when there is a COD amount, and with agreements the last text is their split lines; the cursor advances by 25, plus 15 for COD, plus 4 per agreement line plus 10 when there are agreements |
| CmrPdf.DrawSignatureBoxes | src/utils/cmrPdfExport.ts:316-335 | the three signature boxes draw their function |
| CmrPdf.DrawSignatures | src/utils/cmrPdfExport.ts:299-339 | the signature block draws its function |
| CmrPdf.SignaturePlacement | src/utils/cmrPdfExport.ts:299-306 | the signatures sit no higher than `pageHeight - 35` and below the cursor (20 after a break), and exactly at `pageHeight - 35` on any page at least 55 high |
| CmrPdf.SignatureLayout | src/utils/cmrPdfExport.ts:299-339 | three equal boxes 5 apart span the margins exactly, on a new page exactly when the cursor was below `pageHeight - 40`; the legal footer is last, at `pageHeight - 5` |
| CmrPdf.CmrPdfFileNameReadsBack | src/utils/cmrPdfExport.ts:342 | the file name is `CMR_` + carrier name (or `document`) + `_` + date + `.pdf` |
| CmrPdf.GenerateCmrPdf | src/utils/cmrPdfExport.ts:47-343 | the whole routine draws exactly the document function and names the file |
| CmrPdf.CmrDocumentShape | src/utils/cmrPdfExport.ts:47-343 | the page count is one plus the row breaks plus the signature break; there are `11 + 5n + 3` borders and no lines |
| BolTotals.FlattenLength | src/utils/pdfExport.ts:271-272 | the flattened cargo lines number the sum of the containers' line counts |
| BolTotals.FlattenAppend | src/utils/pdfExport.ts:271-272 | flattening works container by container |
| BolTotals.FlattenIndex | src/utils/pdfExport.ts:271-272 | line `j` of container `i` is at position (lines before `i`) + `j` of the flattened lines |
| BolTotals.TotalPackagesFlat | src/utils/pdfExport.ts:320-322 | the nested `reduce` of package counts equals one sum over the flattened lines |
| BolTotals.TotalWeightFlat | src/utils/pdfExport.ts:323-325 | the nested `reduce` of weights equals one sum over the flattened lines, in value |
| BolTotals.TotalPackagesMeaning | src/utils/pdfExport.ts:320-322 | the package total is NaN exactly when some line's count does not parse |
| BolTotals.TotalWeightMeaning | src/utils/pdfExport.ts:323-325 | the weight total is NaN exactly when some line's weight does not parse |
| BolPdf.ColumnGeometry | src/utils/pdfExport.ts:243-265 | the seven columns start at 10, 35, 60, 90, 120, 145 and 170, each ends where the next starts; the eighth sub-header has no width (NaN) |
| BolPdf.CellsLayout | src/utils/pdfExport.ts:261-265 | a row of eight cells adds one border and one text per column in order |
| BolPdf.Cells | src/utils/pdfExport.ts:261-265 | the loop, with `headerX += colWidths[index]`, draws exactly that row |
| BolPdf.HeaderRow | src/utils/pdfExport.ts:250-257 | only the four non-empty headers get a border and a text, each at its own column |
| BolPdf.HeaderCells | src/utils/pdfExport.ts:250-257 | the header loop draws exactly those four cells |
| BolPdf.DrawTop | src/utils/pdfExport.ts:71-81 | the date, page count and title; the cursor ends at 35 |
| BolPdf.DrawPartyBox | src/utils/pdfExport.ts:94-103 | a party box draws its border and the name, address and city lines 4 apart |
| BolPdf.DrawBand | src/utils/pdfExport.ts:84-91 | a black band across the page with its heading |
| BolPdf.DrawNumberBox | src/utils/pdfExport.ts:105-117 | the bill of lading number box |
| BolPdf.DrawShipFrom | src/utils/pdfExport.ts:83-119 | SHIP FROM draws its function and moves the cursor by 33 |
| BolPdf.DrawCarrierBox | src/utils/pdfExport.ts:143-159 | the carrier box, with the first container's number and seal only when there is a container |
| BolPdf.DrawShipTo | src/utils/pdfExport.ts:121-161 | SHIP TO draws its function and moves the cursor by 33 |
| BolPdf.DrawTermsBox | src/utils/pdfExport.ts:185-212 | the freight terms box with its three check boxes and mark |
| BolPdf.DrawNotify | src/utils/pdfExport.ts:164-214 | the third-party band draws its function and moves the cursor by 28 |
| BolPdf.DrawSpecial | src/utils/pdfExport.ts:217-239 | the special instructions and the CARRIER INFORMATION band move the cursor by 26 |
| BolPdf.DrawTableHeader | src/utils/pdfExport.ts:241-267 | the header and sub-header rows move the cursor by 14 |
| BolPdf.DrawHeading | src/utils/pdfExport.ts:71-267 | everything above the cargo rows, ending at 169 with a named notify party and 141 without |
| BolPdf.ShipFromLayout | src/utils/pdfExport.ts:83-119 | a band and two 25 high half-width boxes on the current page; the bill of lading number is in the right-hand box |
| BolPdf.ShipToLayout | src/utils/pdfExport.ts:121-161 | the forwarding agent is beside the carrier caption, and the first container's number and seal are beside their captions exactly when there is a container |
| BolPdf.NotifyLayout | src/utils/pdfExport.ts:164-214 | three check boxes; the mark X is drawn exactly when prepaid or collect is ticked, in the Prepaid box when prepaid is (even with collect), otherwise in Collect, and always strictly inside the box it marks |
| BolPdf.SpecialLayout | src/utils/pdfExport.ts:217-239 | the instructions box holds vessel, voyage and ports split to the inner width; the CARRIER INFORMATION band is 20 below its top |
| BolPdf.TableHeaderLayout | src/utils/pdfExport.ts:241-267 | the four header cells 8 high, then the eight sub-header cells 6 high |
| BolPdf.LowerHeadingLayout | src/utils/pdfExport.ts:217-267 | the instructions, band and table header borders in order, with 15 texts |
| BolPdf.PartiesLayout | src/utils/pdfExport.ts:71-161 | page 1 starts with the SHIP FROM and SHIP TO borders and 20 texts, 2 more with a container |
| BolPdf.HeadingLayout | src/utils/pdfExport.ts:71-267 | the first page's borders depend only on the page width and whether the third-party band is drawn; the text count is stated |
| BolPdf.ItemBoxesAt | src/utils/pdfExport.ts:293-308 | a cargo line is eight cells 8 high at the columns and a full-width 12 high description box under them |
| BolPdf.ItemLabelsAt | src/utils/pdfExport.ts:281-306 | cell `c` shows row field `c` at its column, the first two being packages and package type and the fifth the weight with ` kg`; the description is split to `pageWidth - 24` |
| BolPdf.ItemStep | src/utils/pdfExport.ts:272-308 | a cargo line adds a page exactly when the cursor is below `pageHeight - 30`, then nine borders and nine texts at the row top |
| BolPdf.ItemsNext | src/utils/pdfExport.ts:271-310 | lines are drawn in order, each at the cursor the previous left |
| BolPdf.DrawItem | src/utils/pdfExport.ts:272-308 | one cargo line and its description move the cursor 20 below the row top |
| BolPdf.DrawContainer | src/utils/pdfExport.ts:272-309 | the inner loop over a container's lines draws the next lines of the flattened list |
| BolTotals.ContainerLines | src/utils/pdfExport.ts:271-272 | container `i`'s lines are the slice of the flattened lines after those of the earlier containers |
| BolPdf.DrawCargo | src/utils/pdfExport.ts:271-310 | the nested loops draw exactly the flattened lines in order, and the cursor ends after them |
| BolPdf.ItemFits | src/utils/pdfExport.ts:272-308 | on a page at least 50 high every cargo line ends at least 10 above the page bottom, so none is split between pages |
| BolPdf.ItemsCount | src/utils/pdfExport.ts:271-310 | after `n` lines there are `9n` more borders and texts and the pages the breaks added |
| BolPdf.ItemsAtNow | src/utils/pdfExport.ts:272-308 | line `k`'s borders and texts are at the row top, on the page it was drawn on |
| BolPdf.ItemsAt | src/utils/pdfExport.ts:271-310 | line `k`'s borders and texts stay unchanged after all later lines |
| BolPdf.CargoLineAt | src/utils/pdfExport.ts:271-310 | line `j` of container `i` is drawn as the (lines before `i`) + `j`-th row of the table |
| BolPdf.PackagesText | src/utils/pdfExport.ts:320-327 | `${totalPackages} packages` reads back as the package total, or is `NaN packages` |
| BolPdf.WeightText | src/utils/pdfExport.ts:323-328 | `${totalWeight} kg` reads back as the weight total's value, or is `NaN kg` |
| BolPdf.DrawGrandTotal | src/utils/pdfExport.ts:312-330 | the grand total band moves the cursor by 18 |
| BolPdf.GrandTotalLayout | src/utils/pdfExport.ts:312-330 | one filled full-width band with the two totals at `pageWidth - 80` and `pageWidth - 40` |
| BolPdf.EmptyTotals | src/utils/pdfExport.ts:320-328 | with no cargo lines the band shows `0 packages` and a weight of 0 |
| BolPdf.DrawFees | src/utils/pdfExport.ts:332-352 | the COD, fee terms and legal notice draw their function |
| BolPdf.FeesLayout | src/utils/pdfExport.ts:332-352 | a new page exactly when the cursor is below `pageHeight - 40`; the COD amount is the other charges or `0.00`; Collect and Prepaid are ticked exactly when set; the legal notice lies above the signatures on any page at least 60 high |
| BolPdf.DrawSignatures | src/utils/pdfExport.ts:356-383 | the signature section draws its function |
| BolPdf.SignatureLayout | src/utils/pdfExport.ts:356-383 | two signature lines at `pageHeight - 20`, and ten texts between `pageHeight - 25` and `pageHeight - 5` on the current page |
| BolPdf.BolPdfFileNameReadsBack | src/utils/pdfExport.ts:386 | the file name is `BOL_` + bill of lading number (or `draft`) + `_` + date + `.pdf` |
| BolPdf.GenerateBolPdf | src/utils/pdfExport.ts:54-387 | the whole routine draws exactly the document function and names the file |
| BolPdf.CellBoxesLast | src/utils/pdfExport.ts:259-265 | of a row's eight cells the first seven have finite numbers and the eighth, at x 200, has a NaN width |
| BolPdf.HeadingRejected | src/utils/pdfExport.ts:71-267 | every heading border but the last has finite numbers; the last is the eighth sub-header cell, with a NaN width |
| BolPdf.HeadingFirst | src/utils/pdfExport.ts:54-267 | the document's borders begin with the heading's |
| BolPdf.SubHeaderRejected | src/utils/pdfExport.ts:259-265 | as written, the first rectangle jsPDF refuses is the eighth sub-header cell, 6 above the heading's end, for every form: the export throws before any cargo line, total, fee term or signature is drawn |
| BolPdf.ItemBoxesGuarded | src/utils/pdfExport.ts:293-303 | with the guard, a cargo line keeps eight of its nine borders |
| BolPdf.ItemGuarded | src/utils/pdfExport.ts:272-308 | with the guard, one cargo line adds eight borders |
| BolPdf.ItemsGuarded | src/utils/pdfExport.ts:271-310 | with the guard, `n` cargo lines add `8n` borders |
| BolPdf.HeadingGuarded | src/utils/pdfExport.ts:71-267 | with the guard, the heading keeps all its borders but one |
| BolPdf.BandGuarded | src/utils/pdfExport.ts:312-316 | the guard keeps the grand total band |
| BolPdf.BolGuardedCount | src/utils/pdfExport.ts:54-387 | the guard drops exactly one border for the heading and one per cargo line |
| BolPdf.CorrectedBolDrawn | src/utils/pdfExport.ts:61-63 | with a NaN guard in `drawBorder`, jsPDF takes every rectangle; the pages, texts and lines are those as written, and the borders are exactly the written ones with no NaN |
| BolPdf.BolDocumentShape | src/utils/pdfExport.ts:54-387 | the page count is one plus the cargo breaks plus the fee break; the borders are the heading's plus nine per line plus the total band; the two signature lines are on the last page |
| CargoList.Without | src/components/CMRForm.tsx:142 | the filtered list is no longer than the list and has no line with the id |
| CargoList.WithoutMembers | src/components/CMRForm.tsx:142 | `filter(item => item.id !== id)` keeps a line exactly when its id differs |
| CargoList.WithoutAppend | src/components/CMRForm.tsx:142 | the filter keeps the order: filtering a concatenation concatenates the filtered parts |
| CargoList.WithoutLength | src/components/CMRForm.tsx:142 | the filter drops exactly the matching lines |
| CargoList.WithoutEmpty | src/components/CMRForm.tsx:142 | the filter empties the list exactly when every line carries the id |
| CargoList.DistinctCount | src/components/CMRForm.tsx:142 | with distinct ids at most one line matches |
| CargoList.WithoutDistinct | src/components/BillOfLadingForm.tsx:104 | filtering keeps distinct ids distinct |
| CargoList.Remove | src/components/CMRForm.tsx:140-144 | a list of at most one line is left alone; a longer one loses every line with the id and nothing grows |
| CargoList.RemoveEmpties | src/components/CMRForm.tsx:140-144 | guarded removal leaves a one-line list alone and empties a longer one exactly when every line has the id; with distinct ids it drops at most one line and never empties a non-empty list |
| CargoList.Updated | src/components/CMRForm.tsx:146-150 | the `map` keeps the length and every line whose id differs |
| CargoList.UpdatedAt | src/components/CMRForm.tsx:146-150 | the `map` changes line `i` exactly when it carries the id |
| CargoList.UpdatedDistinct | src/components/BillOfLadingForm.tsx:83-87 | a change that keeps ids keeps distinct ids distinct |
| CargoList.AppendDistinct | src/components/BillOfLadingForm.tsx:89-100 | appending a line with an unused id keeps ids distinct |
| CmrEditor.InitialItems | src/components/CMRForm.tsx:120-122 | the initial cargo list is one blank line with id `1` |
| CmrEditor.Editor.constructor | src/components/CMRForm.tsx:85-122 | the component starts with the initial form and the initial cargo list |
| CmrEditor.Editor.HandleInputChange | src/components/CMRForm.tsx:124-126 | sets one form field and leaves the cargo lines alone |
| CmrEditor.Editor.AddCargoItem | src/components/CMRForm.tsx:128-138 | appends a blank line whose id is the clock's text |
| CmrEditor.Editor.RemoveCargoItem | src/components/CMRForm.tsx:140-144 | replaces the lines by the guarded removal |
| CmrEditor.Editor.UpdateCargoItem | src/components/CMRForm.tsx:146-150 | replaces the lines by the update of the matching ones |
| CmrEditor.RemoveCargoItemEffect | src/components/CMRForm.tsx:140-144 | a one-line list is unchanged; on a longer list a line survives exactly when its id differs; the list is emptied exactly when every line has the id; with distinct ids removal never empties the list |
| CmrEditor.RemoveKeepsOrder | src/components/CMRForm.tsx:142 | the surviving lines keep their order |
| CmrEditor.UpdateCargoItemEffect | src/components/CMRForm.tsx:146-150 | length and order are kept; a matching line gets the value in that field and keeps its other fields; other lines are unchanged |
| CmrEditor.UpdateKeepsIds | src/components/CMRForm.tsx:146-150 | editing any field but the id keeps distinct ids distinct |
| CmrEditor.AddCargoItemEffect | src/components/CMRForm.tsx:128-138 | the earlier lines are unchanged, the new line is blank with the given id, and an unused id keeps ids distinct |
| BolEditor.InitialItems | src/components/BillOfLadingForm.tsx:72-74 | the initial cargo list is one blank line with id `1` |
| BolEditor.NextId | src/components/BillOfLadingForm.tsx:90 | the new id is decimal digits without a leading zero reading as the length plus one, which by `NatToDigitsUnique` is exactly the text `toString` gives |
| BolEditor.Editor.constructor | src/components/BillOfLadingForm.tsx:23-74 | the component starts with the initial form and the initial cargo list |
| BolEditor.Editor.HandleInputChange | src/components/BillOfLadingForm.tsx:76-81 | sets one form field and leaves the cargo lines alone |
| BolEditor.Editor.HandleCargoChange | src/components/BillOfLadingForm.tsx:83-87 | replaces the lines by their update |
| BolEditor.Editor.AddCargoItem | src/components/BillOfLadingForm.tsx:89-100 | appends a blank line with the length-based id |
| BolEditor.Editor.RemoveCargoItem | src/components/BillOfLadingForm.tsx:102-106 | replaces the lines by the guarded removal |
| BolEditor.AddCargoItemEffect | src/components/BillOfLadingForm.tsx:89-100 | one more line, the earlier ones unchanged, the new one blank with id `(old length + 1).toString()`: digits with no leading zero reading as that number |
| BolEditor.RemoveCargoItemEffect | src/components/BillOfLadingForm.tsx:102-106 | a one-line list is unchanged; on a longer list a line survives exactly when its id differs; the list is emptied exactly when every line has the id |
| BolEditor.RemoveKeepsOrder | src/components/BillOfLadingForm.tsx:104 | the surviving lines keep their order |
| BolEditor.CargoChangeEffect | src/components/BillOfLadingForm.tsx:83-87 | length and order are kept; a matching line gets the value in that field and keeps its other fields; other lines are unchanged |
| BolEditor.RemovalCanEmpty | src/components/BillOfLadingForm.tsx:89-106 | as written: add, remove `1`, add gives two lines with id `2`, and removing `2` then empties the list |
| BolEditor.MaxNumber | src/components/BillOfLadingForm.tsx:90 | no line's numeric id exceeds it |
| BolEditor.FreshId | src/components/BillOfLadingForm.tsx:90 | the corrected id is carried by no line |
| BolEditor.FreshKeepsLines | src/components/BillOfLadingForm.tsx:72-106 | with the corrected id, the initial list and every handler keep the list non-empty with distinct ids, so no sequence of handler calls empties it |

## Findings

| source | as written | input that shows it | evidently intended | confidence | as-written member | corrected member |
|---|---|---|---|---|---|---|
| src/utils/xmlExport.ts:63 | `<shippingInstructionReference>` is closed by `</shippingReference>` | any form; the opening and closing names differ for every input | the element closes with its own name, `</shippingInstructionReference>`, so the document is well formed when no field needs escaping | high, not executed | BolXml.ReferenceMismatch | BolXml.CorrectedWellFormed |
| src/components/BillOfLadingForm.tsx:90 | a new line's id is `cargoItems.length + 1`, which can repeat an id still in use after a removal | start `[1]`, add (`[1, 2]`), remove `1` (`[2]`), add (`[2, 2]`), remove `2`: the list is empty | ids are unique, so the `length > 1` guard of `removeCargoItem` (lines 102-106) keeps at least one line | high, not executed | BolEditor.RemovalCanEmpty | BolEditor.FreshKeepsLines |
| src/utils/pdfExport.ts:243-265 | `colWidths` has seven entries while the sub-header row and every cargo row draw eight cells, so the eighth `drawBorder` passes `colWidths[7]`, `undefined`, and `drawBorder` has no guard | any form: the first rectangle refused is the eighth sub-header cell, at x 200 with a NaN width, before any cargo line | every border is drawn with finite numbers, as the CMR template ensures with its guard in `drawBorder`, so the whole document is produced | plausible, not executed: rests on jsPDF's `rect` throwing on NaN arguments | BolPdf.SubHeaderRejected | BolPdf.CorrectedBolDrawn |

The corrected id (`BolEditor.FreshId`) is one plus the largest numeric id in use. The corrected XML tree (`BolXml.CorrectedShippingInstructionTree`) differs from the written one only in that closing tag (`BolXml.CorrectionIsLocal`). The corrected PDF (`BolPdf.CorrectedBolDocument`) is the written trace with `drawBorder` skipping NaN arguments (`PdfTrace.Guarded`). That jsPDF's `rect` throws on NaN is the library's behaviour, stated by the predicate `PdfTrace.Accepted` and not modelled from jsPDF's code.

## Left out

**PDF rendering**
- Fonts, font sizes, text and fill colours, and the `align` option of jsPDF are not recorded in the trace. They change how the page looks, not what is drawn where.
- `addTextWithBorder` is left out of both PDF files (`src/utils/cmrPdfExport.ts:70-79`, `src/utils/pdfExport.ts:66-69`). It is defined but never called.
- `pdf.internal.pageSize` is replaced by the parameters `pw` and `ph`.
- `splitTextToSize` is a parameter of type `Splitter`. Its line breaking depends on font metrics.
- `PdfTrace.OnPages` is proved per drawing call (`PdfTrace.DrawingKeepsPages`) but is not threaded through the generator methods as an invariant.
- BolPdf.ColumnGeometry: the eighth BOL sub-header and row cell use `colWidths[7]`, which is `undefined`. The model passes `NaN` to `rect`. What jsPDF then does, throw, is an assumption about the library (`PdfTrace.Accepted`), and the trace does not stop at the refused call; `PdfTrace.FirstRejected` gives where drawing stops.

**Error handling and I/O**
- The `try`/`catch` blocks and `console` logging of the CMR exporters are left out. Of jsPDF's calls, only `rect` on a NaN argument is taken to throw (`PdfTrace.Accepted`); the CMR guard keeps every such call out, and where the BOL layout makes one is stated by `BolPdf.SubHeaderRejected`. The BOL exporter has no `try`/`catch`, so there the exception reaches the caller.
- `formatDate`'s one exception is modelled as a `Result`.
- File delivery is left out: Blob and object URLs, the download anchor, `pdf.save`, toasts, `window.print` and `handleSave`. Only the file names are modelled.
- There is no model of English text output by the UI, of the JSX markup, or of `src/components/DocumentTypeSelector.tsx` or `src/pages/Index.tsx`.

**Clock and numbers**
- The clock is a parameter:
  - `Date.now()` (the CMR document number and CMR cargo ids);
  - `new Date().toISOString()` (the BOL timestamps and the file-name dates);
  - `toLocaleDateString()` (the BOL PDF date).
  - `new Date(s)` for a non-empty date string is a `calendar` parameter.
- Numeric.ParseInt: parses strictly, where JavaScript's `parseInt` accepts a numeric prefix and leading whitespace. So `"12kg"` and `" 12"` give NaN in the model and 12 in the browser.
- Numeric.ParseFloat: parses strictly, where JavaScript's `parseFloat` also accepts a numeric prefix (`"12kg"` is 12), leading whitespace (`" 12"` is 12), exponent notation (`"1e3"` is 1000) and `Infinity`. Each of these gives NaN in the model.
- Numeric.DecimalToString: sums are exact decimals. Binary floating-point rounding of `parseFloat` sums (such as `0.1 + 0.2`) is not modelled. The printed weight total is stated by the value it reads back as, not by JavaScript's shortest round-trip digits. JavaScript's exponent form is not modelled either: a total of `1e21` or more prints as `1e+21`, and a non-zero value below `1e-6` in exponent form too (`0.0000001` as `1e-7`), where the model prints positional digits.
- CmrXml.IsoDay: the `calendar` parameter stands for `new Date(s)`. Its years are natural numbers, so the years before year 0, which `toISOString` writes as `-` and six digits, are not modelled. Years past 275760, where `Date` has no value, are not excluded.
- Numeric.IntText: integer totals are unbounded, where JavaScript numbers are doubles. This applies to `AddInt` and `SumInts` as well, and to the text `BolPdf.PackagesText` prints. Above 2^53 the browser rounds: a quantity of `"9007199254740993"` prints as `9007199254740992`, and the model prints the exact digits. A total of `1e21` or more prints as `1e+21` in the browser and as positional digits here.
- The BOL XML package and weight totals (`src/utils/xmlExport.ts:54-59`) are computed by the source but never written, so the model does not compute them.

**XML text**
- XmlTree.SerializeAllAppend: the serializer writes one element per line, two spaces per level. The templates of `generateCMRXML` and `generateBOLXML` differ from it in whitespace between elements only: their own indentation and blank lines, the whitespace-only lines left where an optional section is absent (`src/utils/cmrXmlExport.ts:142-179`, `src/utils/xmlExport.ts:90-99`, `src/utils/xmlExport.ts:161-176`), and the `'\n'` that joins the CMR cargo lines (`src/utils/cmrXmlExport.ts:137`). CmrXml.GenerateCmrXml and BolXml.GenerateBolXml state the element tree and its serialization, not the template's exact characters.
- BolXml.CorrectedWellFormed: well-formedness of the BOL XML is claimed only for the corrected closing tag and for fields with no character that needs escaping. The source escapes nothing.

**Form handlers**
- React state batching is not modelled; the handlers are sequential methods.
- The BOL `addCargoItem` reads `cargoItems.length` from its closure while appending to `prev`. The model reads the current list.
- CmrEditor.AddCargoItemEffect: keeps ids distinct only if the clock's id is unused. Two additions within the same millisecond repeat an id, and the model states this as a precondition of that one lemma, not of the handler.
