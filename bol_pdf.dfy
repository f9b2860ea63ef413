/** `generateBOLPDF`: the layout of the straight bill of lading on the page.

    The template advances a cursor `currentY` band by band: the date and the
    title, the SHIP FROM and SHIP TO bands, the third-party freight band when
    a notify party is named, the special instructions, the carrier
    information heading, a two-row table header and then, for every cargo
    line of every container, an 8 mm row of cells and a 12 mm description
    row, with a page break before any line that starts below
    `pageHeight - 30`. The grand total, the fee terms and the legal notice
    follow; the signature block and the footer sit at fixed heights above the
    bottom edge of the last page. Page width and height, the printed local
    date and `splitTextToSize` are parameters.

    Unlike the CMR template, `drawBorder` here draws its rectangle without a
    guard. */
module BolPdf {
  import opened Common
  import opened Numeric
  import opened PdfTrace
  import M = BolModel
  import T = BolTotals

  // ---- Fixed texts ------------------------------------------------------------------------

  const DatePrefix: string := "Date: "
  const PageCount: string := "Page 1 of 1"
  const TitleText: string := "BILL OF LADING"
  const ShipFromHeading: string := "SHIP FROM"
  const ShipToHeading: string := "SHIP TO"
  const NameLabel: string := "Name: "
  const AddressLabel: string := "Address: "
  const CityLabel: string := "City/State/Zip: "
  const BolNumberLabel: string := "Bill of Lading Number:"
  const BarCodeSpace: string := "BAR CODE SPACE"
  const CarrierNameLabel: string := "CARRIER NAME:"
  const TrailerLabel: string := "Trailer number:"
  const SealLabel: string := "Seal number(s):"
  const ScacLabel: string := "SCAC:"
  const ProLabel: string := "Pro number:"
  const ThirdPartyHeading: string := "THIRD PARTY FREIGHT CHARGES BILL TO:"
  const FreightTermsLabel: string := "Freight Charge Terms:"
  const FreightTermsNote: string := "(freight charges are prepaid unless marked otherwise)"
  const PrepaidLabel: string := "Prepaid"
  const CollectLabel: string := "Collect"
  const ThirdPartyLabel: string := "3rd Party"
  const Mark: string := "X"
  const SpecialHeading: string := "SPECIAL INSTRUCTIONS:"
  const CarrierInformation: string := "CARRIER INFORMATION"
  const GrandTotalLabel: string := "GRAND TOTAL"
  const PackagesSuffix: string := " packages"
  const KgSuffix: string := " kg"
  const CodPrefix: string := "COD Amount: $ "
  const FeeCollectPrefix: string := "Fee Terms:   Collect: "
  const FeePrepaidPrefix: string := "   Prepaid: "
  const LegalNotice: string := "NOTE: Liability Limitation for loss or damage in this shipment may be applicable. "
    + "See 49 U.S.C. • 14706(c)(1)(A) and (B)."
  const ShipperSignature: string := "SHIPPER SIGNATURE / DATE"
  const CarrierSignature: string := "CARRIER SIGNATURE / PICKUP DATE"
  const TrailerLoaded: string := "Trailer Loaded:"
  const ByShipper: string := "☐ By Shipper"
  const ByDriver: string := "☐ By Driver"
  const FreightCounted: string := "Freight Counted:"
  const ByDriverPallets: string := "☐ By Driver/pallets said to contain"
  const ByDriverPieces: string := "☐ By Driver/Pieces"
  const Footer: string := "This Bill of Lading is subject to the terms and conditions on the reverse side "
    + "hereof and to applicable federal regulations."

  // ---- The cargo table columns --------------------------------------------------------------

  /** The seven column widths. The sub-header row and the cargo rows have
      eight cells, so their last cell reads `colWidths[7]`, which is
      `undefined`. */
  const ColWidths: seq<real> := [25.0, 25.0, 30.0, 30.0, 25.0, 25.0, 30.0]

  const Headers: seq<string> := ["HANDLING UNIT", "PACKAGE", "", "COMMODITY DESCRIPTION", "", "LTL ONLY", ""]

  const SubHeaders: seq<string> := ["QTY", "TYPE", "QTY", "TYPE", "WEIGHT", "H.M.(X)", "NMFC #", "CLASS"]

  /** `colWidths[i]` as a number: NaN past the end, which `rect` refuses
      (`PdfTrace.Accepted`; see `SubHeaderRejected`). */
  function Width(i: nat): Num
  {
    if i < 7 then Fin(ColWidths[i]) else NaN
  }

  /** The left edge of cell `i`: `headerX` and `rowX` after `i` cells. */
  function ColX(i: nat): real
    requires i <= 7
  {
    if i == 0 then 10.0 else ColX(i - 1) + ColWidths[i - 1]
  }

  /** The seven columns start at 10, 35, 60, 90, 120, 145 and 170, abut, and
      the last ends at 200, where the eighth cell starts with no width. */
  lemma ColumnGeometry()
    ensures ColX(0) == 10.0 && ColX(1) == 35.0 && ColX(2) == 60.0 && ColX(3) == 90.0
    ensures ColX(4) == 120.0 && ColX(5) == 145.0 && ColX(6) == 170.0 && ColX(7) == 200.0
    ensures forall i :: 0 <= i < 7 ==> ColX(i) + ColWidths[i] == ColX(i + 1) && Width(i) == Fin(ColWidths[i])
    ensures Width(7).NaN?
  {
  }

  /** Cell `i` of an eight-cell row at `y`, `h` high: its border and its text `dy` lower. */
  function Cell(d: Doc, y: real, h: real, dy: real, texts: seq<string>, i: nat): Doc
    requires i < 8 && |texts| == 8
  {
    d.Rect(Fin(ColX(i)), Fin(y), Width(i), Fin(h), false).Text(One(texts[i]), ColX(i) + 1.0, y + dy)
  }

  /** The first `n` cells of a row. */
  function CellsUpTo(d: Doc, y: real, h: real, dy: real, texts: seq<string>, n: nat): Doc
    requires n <= 8 && |texts| == 8
  {
    if n == 0 then d else Cell(CellsUpTo(d, y, h, dy, texts, n - 1), y, h, dy, texts, n - 1)
  }

  /** The borders of the first `n` cells of a row on page `page`. */
  function CellBoxes(page: nat, y: real, h: real, n: nat): (r: seq<Box>)
    requires n <= 8
    ensures |r| == n
  {
    if n == 0 then [] else CellBoxes(page, y, h, n - 1) + [Box(page, Fin(ColX(n - 1)), Fin(y), Width(n - 1), Fin(h), false)]
  }

  /** The texts of the first `n` cells of a row on page `page`. */
  function CellLabels(page: nat, y: real, dy: real, texts: seq<string>, n: nat): (r: seq<Label>)
    requires n <= 8 && |texts| == 8
    ensures |r| == n
  {
    if n == 0 then [] else CellLabels(page, y, dy, texts, n - 1) + [Label(page, ColX(n - 1) + 1.0, y + dy, One(texts[n - 1]))]
  }

  /** Border `c` of a row is cell `c`'s border: in column `c`, `h` high, as
      wide as the column, and with no width for the eighth cell. */
  lemma {:induction false} CellBoxesAt(page: nat, y: real, h: real, n: nat, c: nat)
    requires c < n <= 8
    ensures |CellBoxes(page, y, h, n)| == n
    ensures CellBoxes(page, y, h, n)[c] == Box(page, Fin(ColX(c)), Fin(y), Width(c), Fin(h), false)
  {
    if c < n - 1 {
      CellBoxesAt(page, y, h, n - 1, c);
    } else if n > 1 {
      CellBoxesAt(page, y, h, n - 1, 0);
    }
  }

  /** Text `c` of a row is cell `c`'s text, 1 mm right of the column's edge. */
  lemma {:induction false} CellLabelsAt(page: nat, y: real, dy: real, texts: seq<string>, n: nat, c: nat)
    requires c < n <= 8 && |texts| == 8
    ensures |CellLabels(page, y, dy, texts, n)| == n
    ensures CellLabels(page, y, dy, texts, n)[c] == Label(page, ColX(c) + 1.0, y + dy, One(texts[c]))
  {
    if c < n - 1 {
      CellLabelsAt(page, y, dy, texts, n - 1, c);
    } else if n > 1 {
      CellLabelsAt(page, y, dy, texts, n - 1, 0);
    }
  }

  /** A row appends its cells' borders and texts, in column order, on the
      current page, and changes nothing else. */
  lemma {:induction false} CellsLayout(d: Doc, y: real, h: real, dy: real, texts: seq<string>, n: nat)
    requires n <= 8 && |texts| == 8
    ensures var r := CellsUpTo(d, y, h, dy, texts, n);
      r.page == d.page && r.segments == d.segments
      && r.boxes == d.boxes + CellBoxes(d.page, y, h, n)
      && r.labels == d.labels + CellLabels(d.page, y, dy, texts, n)
  {
    if n > 0 {
      CellsLayout(d, y, h, dy, texts, n - 1);
      var p := CellsUpTo(d, y, h, dy, texts, n - 1);
      var b := Box(d.page, Fin(ColX(n - 1)), Fin(y), Width(n - 1), Fin(h), false);
      var l := Label(d.page, ColX(n - 1) + 1.0, y + dy, One(texts[n - 1]));
      assert (d.boxes + CellBoxes(d.page, y, h, n - 1)) + [b] == d.boxes + (CellBoxes(d.page, y, h, n - 1) + [b]);
      assert (d.labels + CellLabels(d.page, y, dy, texts, n - 1)) + [l]
          == d.labels + (CellLabels(d.page, y, dy, texts, n - 1) + [l]);
    }
  }

  /** The `forEach` over the sub-headers and the one over a cargo line's
      `rowData`: `headerX` (or `rowX`) becomes NaN after the eighth cell. */
  method Cells(pdf: Pdf, y: real, h: real, dy: real, texts: seq<string>)
    requires |texts| == 8
    modifies pdf
    ensures pdf.doc == CellsUpTo(old(pdf.doc), y, h, dy, texts, 8)
  {
    var x := Fin(10.0);
    var i := 0;
    while i < 8
      invariant 0 <= i <= 8
      invariant i < 8 ==> x == Fin(ColX(i))
      invariant pdf.doc == CellsUpTo(old(pdf.doc), y, h, dy, texts, i)
    {
      pdf.Rect(x, Fin(y), Width(i), Fin(h), false);
      pdf.Text(One(texts[i]), x.v + 1.0, y + dy);
      x := Plus(x, Width(i));
      i := i + 1;
    }
  }

  /** Header cell `i`: drawn only when its header is not empty. */
  function HeaderCell(d: Doc, y: real, i: nat): Doc
    requires i < 7
  {
    if Headers[i] != "" then
      d.Rect(Fin(ColX(i)), Fin(y), Fin(ColWidths[i]), Fin(8.0), false).Text(One(Headers[i]), ColX(i) + 1.0, y + 5.0)
    else d
  }

  function HeaderCellsUpTo(d: Doc, y: real, n: nat): Doc
    requires n <= 7
  {
    if n == 0 then d else HeaderCell(HeaderCellsUpTo(d, y, n - 1), y, n - 1)
  }

  /** The `headers.forEach` loop: the cursor still moves past an empty header. */
  method HeaderCells(pdf: Pdf, y: real)
    modifies pdf
    ensures pdf.doc == HeaderCellsUpTo(old(pdf.doc), y, 7)
  {
    var x := 10.0;
    var i := 0;
    while i < 7
      invariant 0 <= i <= 7 && x == ColX(i)
      invariant pdf.doc == HeaderCellsUpTo(old(pdf.doc), y, i)
    {
      if Headers[i] != "" {
        pdf.Rect(Fin(x), Fin(y), Fin(ColWidths[i]), Fin(8.0), false);
        pdf.Text(One(Headers[i]), x + 1.0, y + 5.0);
      }
      x := x + ColWidths[i];
      i := i + 1;
    }
  }

  /** The borders of the four non-empty headers, HANDLING UNIT, PACKAGE,
      COMMODITY DESCRIPTION and LTL ONLY, each over its own column and 8 mm
      high; the empty headers leave gaps. */
  function HeaderBoxes(page: nat, y: real): seq<Box>
  {
    [Box(page, Fin(10.0), Fin(y), Fin(25.0), Fin(8.0), false), Box(page, Fin(35.0), Fin(y), Fin(25.0), Fin(8.0), false),
     Box(page, Fin(90.0), Fin(y), Fin(30.0), Fin(8.0), false), Box(page, Fin(145.0), Fin(y), Fin(25.0), Fin(8.0), false)]
  }

  function HeaderLabels(page: nat, y: real): seq<Label>
  {
    [Label(page, 11.0, y + 5.0, One(Headers[0])), Label(page, 36.0, y + 5.0, One(Headers[1])),
     Label(page, 91.0, y + 5.0, One(Headers[3])), Label(page, 146.0, y + 5.0, One(Headers[5]))]
  }

  /** The header row draws exactly the four non-empty headers, in their
      columns, on the current page. */
  lemma HeaderRow(d: Doc, y: real)
    ensures var r := HeaderCellsUpTo(d, y, 7);
      r.page == d.page && r.segments == d.segments
      && r.boxes == d.boxes + HeaderBoxes(d.page, y) && r.labels == d.labels + HeaderLabels(d.page, y)
  {
    ColumnGeometry();
    var p := d.page;
    var d1 := HeaderCell(d, y, 0);
    assert d1.boxes == d.boxes + [Box(p, Fin(10.0), Fin(y), Fin(25.0), Fin(8.0), false)];
    assert d1.labels == d.labels + [Label(p, 11.0, y + 5.0, One(Headers[0]))];
    var d2 := HeaderCell(d1, y, 1);
    assert d2.boxes == d1.boxes + [Box(p, Fin(35.0), Fin(y), Fin(25.0), Fin(8.0), false)];
    assert d2.labels == d1.labels + [Label(p, 36.0, y + 5.0, One(Headers[1]))];
    var d3 := HeaderCell(d2, y, 2);
    assert d3 == d2;
    var d4 := HeaderCell(d3, y, 3);
    assert d4.boxes == d3.boxes + [Box(p, Fin(90.0), Fin(y), Fin(30.0), Fin(8.0), false)];
    assert d4.labels == d3.labels + [Label(p, 91.0, y + 5.0, One(Headers[3]))];
    var d5 := HeaderCell(d4, y, 4);
    assert d5 == d4;
    var d6 := HeaderCell(d5, y, 5);
    assert d6.boxes == d5.boxes + [Box(p, Fin(145.0), Fin(y), Fin(25.0), Fin(8.0), false)];
    assert d6.labels == d5.labels + [Label(p, 146.0, y + 5.0, One(Headers[5]))];
    var d7 := HeaderCell(d6, y, 6);
    assert d7 == d6;
    assert HeaderCellsUpTo(d, y, 1) == d1 && HeaderCellsUpTo(d, y, 2) == d2 && HeaderCellsUpTo(d, y, 3) == d3;
    assert HeaderCellsUpTo(d, y, 4) == d4 && HeaderCellsUpTo(d, y, 5) == d5 && HeaderCellsUpTo(d, y, 6) == d6;
  }

  // ---- The header bands ---------------------------------------------------------------------

  /** The printed date, the page count and the title. */
  function Top(d: Doc, pw: real, localDate: string): Doc
  {
    d.Text(One(DatePrefix + localDate), 10.0, 15.0)
     .Text(One(PageCount), pw - 30.0, 15.0)
     .Text(One(TitleText), pw / 2.0, 20.0)
  }

  method DrawTop(pdf: Pdf, pw: real, localDate: string) returns (y: real)
    modifies pdf
    ensures y == 35.0
    ensures pdf.doc == Top(old(pdf.doc), pw, localDate)
  {
    y := 10.0;
    pdf.Text(One(DatePrefix + localDate), 10.0, y + 5.0);
    pdf.Text(One(PageCount), pw - 30.0, y + 5.0);
    y := y + 10.0;
    pdf.Text(One(TitleText), pw / 2.0, y);
    y := y + 15.0;
  }

  /** The x of the right-hand boxes: `10 + (pageWidth - 20) / 2`. */
  function RightX(pw: real): real { 10.0 + HalfWidth(pw) }

  /** A party box's three lines: name, address, and city and country. */
  function PartyLines(d: Doc, name: string, address: string, city: string, country: string, y: real): Doc
  {
    d.Text(One(NameLabel + name), 12.0, y)
     .Text(One(AddressLabel + address), 12.0, y + 4.0)
     .Text(One(CityLabel + city + ", " + country), 12.0, y + 8.0)
  }

  /** The left-hand box of a party band, `h` high, with the party's three lines. */
  function PartyBox(d: Doc, pw: real, top: real, h: real, name: string, address: string, city: string, country: string): Doc
  {
    PartyLines(d.Rect(Fin(10.0), Fin(top), Fin(HalfWidth(pw)), Fin(h), false), name, address, city, country, top + 3.0)
  }

  method DrawPartyBox(pdf: Pdf, pw: real, top: real, h: real, name: string, address: string, city: string, country: string)
    modifies pdf
    ensures pdf.doc == PartyBox(old(pdf.doc), pw, top, h, name, address, city, country)
  {
    var hw := (pw - 20.0) / 2.0;
    pdf.Rect(Fin(10.0), Fin(top), Fin(hw), Fin(h), false);
    var lineY := top + 3.0;
    pdf.Text(One(NameLabel + name), 12.0, lineY);
    lineY := lineY + 4.0;
    pdf.Text(One(AddressLabel + address), 12.0, lineY);
    lineY := lineY + 4.0;
    pdf.Text(One(CityLabel + city + ", " + country), 12.0, lineY);
  }

  /** A black band across the page, 6 mm high, with its heading. */
  function Band(d: Doc, pw: real, y: real, heading: string): Doc
  {
    d.Rect(Fin(10.0), Fin(y), Fin(FullWidth(pw)), Fin(6.0), true).Text(One(heading), 12.0, y + 4.0)
  }

  method DrawBand(pdf: Pdf, pw: real, y: real, heading: string)
    modifies pdf
    ensures pdf.doc == Band(old(pdf.doc), pw, y, heading)
  {
    pdf.Rect(Fin(10.0), Fin(y), Fin(pw - 20.0), Fin(6.0), true);
    pdf.Text(One(heading), 12.0, y + 4.0);
  }

  /** The right-hand box of SHIP FROM: the bill of lading number and the bar code space. */
  function NumberBox(d: Doc, f: M.BolForm, pw: real, top: real): Doc
  {
    var bx := RightX(pw);
    d.Rect(Fin(bx), Fin(top), Fin(HalfWidth(pw)), Fin(25.0), false)
     .Text(One(BolNumberLabel), bx + 2.0, top + 5.0)
     .Text(One(f.bolNumber), bx + 2.0, top + 10.0)
     .Text(One(BarCodeSpace), bx + 15.0, top + 18.0)
  }

  method DrawNumberBox(pdf: Pdf, f: M.BolForm, pw: real, y: real)
    modifies pdf
    ensures pdf.doc == NumberBox(old(pdf.doc), f, pw, y)
  {
    var hw := (pw - 20.0) / 2.0;
    var bx := 10.0 + hw;
    pdf.Rect(Fin(bx), Fin(y), Fin(hw), Fin(25.0), false);
    pdf.Text(One(BolNumberLabel), bx + 2.0, y + 5.0);
    pdf.Text(One(f.bolNumber), bx + 2.0, y + 10.0);
    pdf.Text(One(BarCodeSpace), bx + 15.0, y + 18.0);
  }

  /** SHIP FROM: the shipper on the left, the bill of lading number and the
      bar code space on the right, both boxes 25 mm high. */
  function ShipFrom(d: Doc, f: M.BolForm, pw: real, y: real): Doc
  {
    var top := y + 6.0;
    var d1 := PartyBox(Band(d, pw, y, ShipFromHeading), pw, top, 25.0,
                       f.shipperName, f.shipperAddress, f.shipperCity, f.shipperCountry);
    NumberBox(d1, f, pw, top)
  }

  method DrawShipFrom(pdf: Pdf, f: M.BolForm, pw: real, y0: real) returns (y: real)
    modifies pdf
    ensures y == y0 + 33.0
    ensures pdf.doc == ShipFrom(old(pdf.doc), f, pw, y0)
  {
    DrawBand(pdf, pw, y0, ShipFromHeading);
    y := y0 + 6.0;
    DrawPartyBox(pdf, pw, y, 25.0, f.shipperName, f.shipperAddress, f.shipperCity, f.shipperCountry);
    DrawNumberBox(pdf, f, pw, y);
    y := y + 25.0 + 2.0;
  }

  /** The carrier box's five captions, 4 mm apart. */
  function CarrierCaptions(d: Doc, x: real, top: real): Doc
  {
    d.Text(One(CarrierNameLabel), x, top + 4.0)
     .Text(One(TrailerLabel), x, top + 8.0)
     .Text(One(SealLabel), x, top + 12.0)
     .Text(One(ScacLabel), x, top + 16.0)
     .Text(One(ProLabel), x, top + 20.0)
  }

  /** The right-hand box of SHIP TO: the carrier captions, the forwarding
      agent and, when there is a container, the first container's number and seal. */
  function CarrierBox(d: Doc, f: M.BolForm, cs: seq<M.Container>, pw: real, top: real): Doc
  {
    var bx := RightX(pw);
    var d1 := CarrierCaptions(d.Rect(Fin(bx), Fin(top), Fin(HalfWidth(pw)), Fin(25.0), false), bx + 2.0, top)
      .Text(One(f.forwardingAgent), bx + 25.0, top + 4.0);
    if |cs| > 0 then
      d1.Text(One(cs[0].containerNumber), bx + 25.0, top + 8.0).Text(One(cs[0].sealNumber), bx + 25.0, top + 12.0)
    else d1
  }

  method DrawCarrierBox(pdf: Pdf, f: M.BolForm, cs: seq<M.Container>, pw: real, y: real)
    modifies pdf
    ensures pdf.doc == CarrierBox(old(pdf.doc), f, cs, pw, y)
  {
    var hw := (pw - 20.0) / 2.0;
    var bx := 10.0 + hw;
    pdf.Rect(Fin(bx), Fin(y), Fin(hw), Fin(25.0), false);
    pdf.Text(One(CarrierNameLabel), bx + 2.0, y + 4.0);
    pdf.Text(One(TrailerLabel), bx + 2.0, y + 8.0);
    pdf.Text(One(SealLabel), bx + 2.0, y + 12.0);
    pdf.Text(One(ScacLabel), bx + 2.0, y + 16.0);
    pdf.Text(One(ProLabel), bx + 2.0, y + 20.0);
    pdf.Text(One(f.forwardingAgent), bx + 25.0, y + 4.0);
    if |cs| > 0 {
      pdf.Text(One(cs[0].containerNumber), bx + 25.0, y + 8.0);
      pdf.Text(One(cs[0].sealNumber), bx + 25.0, y + 12.0);
    }
  }

  /** SHIP TO: the consignee on the left; on the right the carrier box with
      the forwarding agent and, when there is a container, the first
      container's number and seal. */
  function ShipTo(d: Doc, f: M.BolForm, cs: seq<M.Container>, pw: real, y: real): Doc
  {
    var top := y + 6.0;
    var d1 := PartyBox(Band(d, pw, y, ShipToHeading), pw, top, 25.0,
                       f.consigneeName, f.consigneeAddress, f.consigneeCity, f.consigneeCountry);
    CarrierBox(d1, f, cs, pw, top)
  }

  method DrawShipTo(pdf: Pdf, f: M.BolForm, cs: seq<M.Container>, pw: real, y0: real) returns (y: real)
    modifies pdf
    ensures y == y0 + 33.0
    ensures pdf.doc == ShipTo(old(pdf.doc), f, cs, pw, y0)
  {
    DrawBand(pdf, pw, y0, ShipToHeading);
    y := y0 + 6.0;
    DrawPartyBox(pdf, pw, y, 25.0, f.consigneeName, f.consigneeAddress, f.consigneeCity, f.consigneeCountry);
    DrawCarrierBox(pdf, f, cs, pw, y);
    y := y + 25.0 + 2.0;
  }

  /** The freight-terms mark: in the Prepaid box when prepaid is ticked,
      otherwise in the Collect box when collect is, otherwise none. */
  function FreightMark(d: Doc, f: M.BolForm, bx: real, top: real): Doc
  {
    if f.prepaid then d.Text(One(Mark), bx + 18.0, top + 11.5)
    else if f.collect then d.Text(One(Mark), bx + 56.0, top + 11.5)
    else d
  }

  /** The right-hand box of the third-party band: the freight charge terms
      with three 3 mm check boxes and the mark. */
  function TermsBox(d: Doc, f: M.BolForm, pw: real, top: real): Doc
  {
    var bx := RightX(pw);
    var d1 := d.Rect(Fin(bx), Fin(top), Fin(HalfWidth(pw)), Fin(20.0), false)
      .Text(One(FreightTermsLabel), bx + 2.0, top + 4.0)
      .Text(One(FreightTermsNote), bx + 2.0, top + 7.0)
      .Text(One(PrepaidLabel), bx + 2.0, top + 12.0)
      .Text(One(CollectLabel), bx + 40.0, top + 12.0)
      .Text(One(ThirdPartyLabel), bx + 75.0, top + 12.0)
      .Rect(Fin(bx + 17.0), Fin(top + 9.0), Fin(3.0), Fin(3.0), false)
      .Rect(Fin(bx + 55.0), Fin(top + 9.0), Fin(3.0), Fin(3.0), false)
      .Rect(Fin(bx + 93.0), Fin(top + 9.0), Fin(3.0), Fin(3.0), false);
    FreightMark(d1, f, bx, top)
  }

  method DrawTermsBox(pdf: Pdf, f: M.BolForm, pw: real, y: real)
    modifies pdf
    ensures pdf.doc == TermsBox(old(pdf.doc), f, pw, y)
  {
    var hw := (pw - 20.0) / 2.0;
    var bx := 10.0 + hw;
    pdf.Rect(Fin(bx), Fin(y), Fin(hw), Fin(20.0), false);
    pdf.Text(One(FreightTermsLabel), bx + 2.0, y + 4.0);
    pdf.Text(One(FreightTermsNote), bx + 2.0, y + 7.0);
    var prepaidX, collectX, partyX := bx + 2.0, bx + 40.0, bx + 75.0;
    pdf.Text(One(PrepaidLabel), prepaidX, y + 12.0);
    pdf.Text(One(CollectLabel), collectX, y + 12.0);
    pdf.Text(One(ThirdPartyLabel), partyX, y + 12.0);
    pdf.Rect(Fin(prepaidX + 15.0), Fin(y + 9.0), Fin(3.0), Fin(3.0), false);
    pdf.Rect(Fin(collectX + 15.0), Fin(y + 9.0), Fin(3.0), Fin(3.0), false);
    pdf.Rect(Fin(partyX + 18.0), Fin(y + 9.0), Fin(3.0), Fin(3.0), false);
    if f.prepaid {
      pdf.Text(One(Mark), prepaidX + 16.0, y + 11.5);
    } else if f.collect {
      pdf.Text(One(Mark), collectX + 16.0, y + 11.5);
    }
  }

  /** THIRD PARTY FREIGHT CHARGES BILL TO: the notify party on the left; on
      the right the freight charge terms with three 3 mm check boxes. */
  function Notify(d: Doc, f: M.BolForm, pw: real, y: real): Doc
  {
    var top := y + 6.0;
    var d1 := PartyBox(Band(d, pw, y, ThirdPartyHeading), pw, top, 20.0,
                       f.notifyPartyName, f.notifyPartyAddress, f.notifyPartyCity, f.notifyPartyCountry);
    TermsBox(d1, f, pw, top)
  }

  method DrawNotify(pdf: Pdf, f: M.BolForm, pw: real, y0: real) returns (y: real)
    modifies pdf
    ensures y == y0 + 28.0
    ensures pdf.doc == Notify(old(pdf.doc), f, pw, y0)
  {
    DrawBand(pdf, pw, y0, ThirdPartyHeading);
    y := y0 + 6.0;
    DrawPartyBox(pdf, pw, y, 20.0, f.notifyPartyName, f.notifyPartyAddress, f.notifyPartyCity, f.notifyPartyCountry);
    DrawTermsBox(pdf, f, pw, y);
    y := y + 20.0 + 2.0;
  }

  /** `Vessel: …\nVoyage: …\nPort of Loading: …\nPort of Discharge: …`. */
  function Instructions(f: M.BolForm): string
  {
    "Vessel: " + f.vesselName + "\nVoyage: " + f.voyageNumber
    + "\nPort of Loading: " + f.portOfLoading + "\nPort of Discharge: " + f.portOfDischarge
  }

  /** SPECIAL INSTRUCTIONS, in a 15 mm box on the left, followed by the black
      CARRIER INFORMATION band 5 mm lower. */
  function Special(d: Doc, f: M.BolForm, pw: real, split: Splitter, y: real): Doc
  {
    var hw := HalfWidth(pw);
    var d1 := d.Rect(Fin(10.0), Fin(y), Fin(hw), Fin(15.0), false)
      .Text(One(SpecialHeading), 12.0, y + 4.0)
      .Text(split(Instructions(f), hw - 4.0), 12.0, y + 8.0);
    Band(d1, pw, y + 20.0, CarrierInformation)
  }

  method DrawSpecial(pdf: Pdf, f: M.BolForm, pw: real, split: Splitter, y0: real) returns (y: real)
    modifies pdf
    ensures y == y0 + 26.0
    ensures pdf.doc == Special(old(pdf.doc), f, pw, split, y0)
  {
    var hw := (pw - 20.0) / 2.0;
    pdf.Rect(Fin(10.0), Fin(y0), Fin(hw), Fin(15.0), false);
    pdf.Text(One(SpecialHeading), 12.0, y0 + 4.0);
    var instructionLines := split(Instructions(f), hw - 4.0);
    pdf.Text(instructionLines, 12.0, y0 + 8.0);
    y := y0 + 15.0 + 5.0;
    DrawBand(pdf, pw, y, CarrierInformation);
    y := y + 6.0;
  }

  /** The header row, 8 mm high, and the sub-header row of eight cells, 6 mm high. */
  function TableHeader(d: Doc, y: real): Doc
  {
    CellsUpTo(HeaderCellsUpTo(d, y, 7), y + 8.0, 6.0, 4.0, SubHeaders, 8)
  }

  method DrawTableHeader(pdf: Pdf, y0: real) returns (y: real)
    modifies pdf
    ensures y == y0 + 14.0
    ensures pdf.doc == TableHeader(old(pdf.doc), y0)
  {
    HeaderCells(pdf, y0);
    y := y0 + 8.0;
    Cells(pdf, y, 6.0, 4.0, SubHeaders);
    y := y + 6.0;
  }

  /** The cursor after the party bands: 101, or 129 below the third-party band. */
  function PartiesEnd(f: M.BolForm): real
  {
    if f.notifyPartyName != "" then 129.0 else 101.0
  }

  /** Where the cargo rows start: right under the table header. */
  function HeadingEnd(f: M.BolForm): real { PartiesEnd(f) + 40.0 }

  /** Everything above the cargo rows. */
  function Heading(d: Doc, f: M.BolForm, cs: seq<M.Container>, pw: real, split: Splitter, localDate: string): Doc
  {
    var d1 := ShipTo(ShipFrom(Top(d, pw, localDate), f, pw, 35.0), f, cs, pw, 68.0);
    var d2 := if f.notifyPartyName != "" then Notify(d1, f, pw, 101.0) else d1;
    TableHeader(Special(d2, f, pw, split, PartiesEnd(f)), PartiesEnd(f) + 26.0)
  }

  method DrawHeading(pdf: Pdf, f: M.BolForm, cs: seq<M.Container>, pw: real, split: Splitter, localDate: string)
    returns (y: real)
    modifies pdf
    ensures y == HeadingEnd(f)
    ensures pdf.doc == Heading(old(pdf.doc), f, cs, pw, split, localDate)
  {
    y := DrawTop(pdf, pw, localDate);
    assert y == 35.0;
    y := DrawShipFrom(pdf, f, pw, y);
    assert y == 68.0;
    y := DrawShipTo(pdf, f, cs, pw, y);
    assert y == 101.0 && pdf.doc == ShipTo(ShipFrom(Top(old(pdf.doc), pw, localDate), f, pw, 35.0), f, cs, pw, 68.0);
    if f.notifyPartyName != "" {
      y := DrawNotify(pdf, f, pw, y);
    }
    assert y == PartiesEnd(f);
    y := DrawSpecial(pdf, f, pw, split, y);
    assert y == PartiesEnd(f) + 26.0;
    y := DrawTableHeader(pdf, y);
  }

  /** A black band at `y` and, under it, two boxes `h` high side by side,
      each half the width between the margins. */
  function SplitBand(page: nat, pw: real, y: real, h: real): seq<Box>
  {
    [Box(page, Fin(10.0), Fin(y), Fin(FullWidth(pw)), Fin(6.0), true),
     Box(page, Fin(10.0), Fin(y + 6.0), Fin(HalfWidth(pw)), Fin(h), false),
     Box(page, Fin(RightX(pw)), Fin(y + 6.0), Fin(HalfWidth(pw)), Fin(h), false)]
  }

  /** The Prepaid, Collect and 3rd Party check boxes of a third-party band at `y`. */
  function CheckBoxes(page: nat, pw: real, y: real): seq<Box>
  {
    var bx := RightX(pw);
    [Box(page, Fin(bx + 17.0), Fin(y + 15.0), Fin(3.0), Fin(3.0), false),
     Box(page, Fin(bx + 55.0), Fin(y + 15.0), Fin(3.0), Fin(3.0), false),
     Box(page, Fin(bx + 93.0), Fin(y + 15.0), Fin(3.0), Fin(3.0), false)]
  }

  /** The party bands draw their band and their two boxes, 25 mm high, on the
      current page; the bill of lading number is in the right-hand box. */
  lemma ShipFromLayout(d: Doc, f: M.BolForm, pw: real, y: real)
    ensures var r := ShipFrom(d, f, pw, y);
      r.page == d.page && r.segments == d.segments && r.boxes == d.boxes + SplitBand(d.page, pw, y, 25.0)
      && |r.labels| == |d.labels| + 7 && r.labels[..|d.labels|] == d.labels
      && r.labels[|d.labels| + 5] == Label(d.page, RightX(pw) + 2.0, y + 16.0, One(f.bolNumber))
  {
  }

  /** The carrier box shows the forwarding agent and, exactly when there is a
      container, the first container's number and seal number beside the
      trailer and seal captions. */
  lemma ShipToLayout(d: Doc, f: M.BolForm, cs: seq<M.Container>, pw: real, y: real)
    ensures var r, bx, n := ShipTo(d, f, cs, pw, y), RightX(pw), |d.labels|;
      r.page == d.page && r.segments == d.segments && r.boxes == d.boxes + SplitBand(d.page, pw, y, 25.0)
      && |r.labels| == n + 10 + (if |cs| > 0 then 2 else 0) && r.labels[..n] == d.labels
      && r.labels[n + 5] == Label(d.page, bx + 2.0, y + 14.0, One(TrailerLabel))
      && r.labels[n + 6] == Label(d.page, bx + 2.0, y + 18.0, One(SealLabel))
      && r.labels[n + 9] == Label(d.page, bx + 25.0, y + 10.0, One(f.forwardingAgent))
      && (|cs| > 0 ==>
            r.labels[n + 10] == Label(d.page, bx + 25.0, y + 14.0, One(cs[0].containerNumber))
            && r.labels[n + 11] == Label(d.page, bx + 25.0, y + 18.0, One(cs[0].sealNumber)))
  {
  }

  /** The third-party band draws its band, two 20 mm boxes and three 3 mm
      check boxes, Prepaid, Collect and 3rd Party. The mark X is drawn only
      when prepaid or collect is ticked, in the Prepaid box when prepaid is
      (even when collect is too), otherwise in the Collect box, and always
      inside the box it marks; the 3rd Party box is never marked. */
  lemma NotifyLayout(d: Doc, f: M.BolForm, pw: real, y: real)
    ensures var r, bx, n := Notify(d, f, pw, y), RightX(pw), |d.labels|;
      r.page == d.page && r.segments == d.segments
      && r.boxes == d.boxes + SplitBand(d.page, pw, y, 20.0) + CheckBoxes(d.page, pw, y)
      && |r.labels| == n + 9 + (if f.prepaid || f.collect then 1 else 0) && r.labels[..n] == d.labels
      && (f.prepaid ==> r.labels[n + 9] == Label(d.page, bx + 18.0, y + 17.5, One(Mark)))
      && (!f.prepaid && f.collect ==> r.labels[n + 9] == Label(d.page, bx + 56.0, y + 17.5, One(Mark)))
      && (f.prepaid || f.collect ==>
            var m, b := r.labels[n + 9], CheckBoxes(d.page, pw, y)[if f.prepaid then 0 else 1];
            b.x.v < m.x < b.x.v + b.w.v && b.y.v < m.y < b.y.v + b.h.v)
  {
  }

  /** The special instructions box shows the vessel, voyage and ports broken
      to the box's inner width; the CARRIER INFORMATION band follows 20 mm
      below its top. */
  lemma SpecialLayout(d: Doc, f: M.BolForm, pw: real, split: Splitter, y: real)
    ensures var r, hw := Special(d, f, pw, split, y), HalfWidth(pw);
      r.page == d.page && r.segments == d.segments
      && r.boxes == d.boxes + [Box(d.page, Fin(10.0), Fin(y), Fin(hw), Fin(15.0), false),
                               Box(d.page, Fin(10.0), Fin(y + 20.0), Fin(FullWidth(pw)), Fin(6.0), true)]
      && |r.labels| == |d.labels| + 3 && r.labels[..|d.labels|] == d.labels
      && r.labels[|d.labels| + 1] == Label(d.page, 12.0, y + 8.0, split(Instructions(f), hw - 4.0))
  {
  }

  /** The table header is the four non-empty header cells 8 mm high and,
      under them, the eight sub-header cells 6 mm high. */
  lemma TableHeaderLayout(d: Doc, y: real)
    ensures var r := TableHeader(d, y);
      r.page == d.page && r.segments == d.segments
      && r.boxes == d.boxes + HeaderBoxes(d.page, y) + CellBoxes(d.page, y + 8.0, 6.0, 8)
      && r.labels == d.labels + HeaderLabels(d.page, y) + CellLabels(d.page, y + 8.0, 4.0, SubHeaders, 8)
  {
    HeaderRow(d, y);
    CellsLayout(HeaderCellsUpTo(d, y, 7), y + 8.0, 6.0, 4.0, SubHeaders, 8);
  }

  /** The borders of the instructions box, the CARRIER INFORMATION band and
      the table header, starting at `y`. */
  function LowerBoxes(page: nat, pw: real, y: real): seq<Box>
  {
    [Box(page, Fin(10.0), Fin(y), Fin(HalfWidth(pw)), Fin(15.0), false),
     Box(page, Fin(10.0), Fin(y + 20.0), Fin(FullWidth(pw)), Fin(6.0), true)]
    + HeaderBoxes(page, y + 26.0) + CellBoxes(page, y + 34.0, 6.0, 8)
  }

  lemma LowerHeadingLayout(d: Doc, f: M.BolForm, pw: real, split: Splitter, y: real)
    ensures var r := TableHeader(Special(d, f, pw, split, y), y + 26.0);
      r.page == d.page && r.segments == d.segments && r.boxes == d.boxes + LowerBoxes(d.page, pw, y)
      && |r.labels| == |d.labels| + 15
  {
    var d3 := Special(d, f, pw, split, y);
    SpecialLayout(d, f, pw, split, y);
    TableHeaderLayout(d3, y + 26.0);
    CellLabelsAt(d.page, y + 34.0, 4.0, SubHeaders, 8, 0);
    var two := [Box(d.page, Fin(10.0), Fin(y), Fin(HalfWidth(pw)), Fin(15.0), false),
                Box(d.page, Fin(10.0), Fin(y + 20.0), Fin(FullWidth(pw)), Fin(6.0), true)];
    var hb, cb := HeaderBoxes(d.page, y + 26.0), CellBoxes(d.page, y + 34.0, 6.0, 8);
    assert d.boxes + two + hb + cb == d.boxes + (two + hb + cb);
  }

  /** The borders above the cargo rows of a first page: the SHIP FROM and
      SHIP TO bands, the third-party band when it is drawn, and the
      instructions and table header below them. They depend on the page
      width and on whether the third-party band is drawn, and on nothing
      else in the form. */
  function HeadingBoxes(pw: real, notify: bool): seq<Box>
  {
    SplitBand(1, pw, 35.0, 25.0) + SplitBand(1, pw, 68.0, 25.0)
    + (if notify then SplitBand(1, pw, 101.0, 20.0) + CheckBoxes(1, pw, 101.0) else [])
    + LowerBoxes(1, pw, if notify then 129.0 else 101.0)
  }

  /** The date, the title and the party bands of a first page. */
  lemma PartiesLayout(f: M.BolForm, cs: seq<M.Container>, pw: real, localDate: string)
    ensures var d := ShipTo(ShipFrom(Top(Blank(), pw, localDate), f, pw, 35.0), f, cs, pw, 68.0);
      d.page == 1 && d.segments == [] && d.boxes == SplitBand(1, pw, 35.0, 25.0) + SplitBand(1, pw, 68.0, 25.0)
      && |d.labels| == 20 + (if |cs| > 0 then 2 else 0)
  {
    var d0 := Top(Blank(), pw, localDate);
    var d1 := ShipFrom(d0, f, pw, 35.0);
    ShipFromLayout(d0, f, pw, 35.0);
    ShipToLayout(d1, f, cs, pw, 68.0);
    assert d0.boxes == [];
  }

  /** A first page's heading ends at 141, or at 169 when a notify party is
      named; it draws the borders of `HeadingBoxes` and no line, on page 1,
      and 35 texts, two more when there is a container (its number and seal)
      and nine more for the third-party band, plus one for its mark. */
  lemma HeadingLayout(f: M.BolForm, cs: seq<M.Container>, pw: real, split: Splitter, localDate: string)
    ensures HeadingEnd(f) == if f.notifyPartyName != "" then 169.0 else 141.0
    ensures var r, notify := Heading(Blank(), f, cs, pw, split, localDate), f.notifyPartyName != "";
      r.page == 1 && r.segments == [] && r.boxes == HeadingBoxes(pw, notify)
      && |r.labels| == 35 + (if |cs| > 0 then 2 else 0)
                     + (if notify then 9 + (if f.prepaid || f.collect then 1 else 0) else 0)
  {
    var notify := f.notifyPartyName != "";
    var d1 := ShipTo(ShipFrom(Top(Blank(), pw, localDate), f, pw, 35.0), f, cs, pw, 68.0);
    PartiesLayout(f, cs, pw, localDate);
    var parties := SplitBand(1, pw, 35.0, 25.0) + SplitBand(1, pw, 68.0, 25.0);
    var d2 := if notify then Notify(d1, f, pw, 101.0) else d1;
    var third := if notify then SplitBand(1, pw, 101.0, 20.0) + CheckBoxes(1, pw, 101.0) else [];
    if notify {
      NotifyLayout(d1, f, pw, 101.0);
      assert parties + SplitBand(1, pw, 101.0, 20.0) + CheckBoxes(1, pw, 101.0) == parties + third;
    }
    assert d2.boxes == parties + third && d2.page == 1;
    LowerHeadingLayout(d2, f, pw, split, PartiesEnd(f));
  }

  // ---- The cargo rows -----------------------------------------------------------------------

  /** A cargo line's `rowData`: the packages and the package type (each
      twice), the weight in kg and three blank cells. */
  function RowData(item: M.CargoItem): seq<string>
  {
    [item.packages, item.packageType, item.packages, item.packageType, item.weight + KgSuffix, "", "", ""]
  }

  /** One cargo line with the cursor at `y`: a new page first when the line
      would start below `pageHeight - 30`, then the eight cells, 8 mm high,
      and the description row, 12 mm high across the page, with the
      description broken to the width less 24 mm. */
  function Item(d: Doc, ph: real, pw: real, y: real, item: M.CargoItem, split: Splitter): Doc
  {
    var d1 := if y > ph - 30.0 then d.NewPage() else d;
    var top := RowTop(ph, y);
    CellsUpTo(d1, top, 8.0, 5.0, RowData(item), 8)
      .Rect(Fin(10.0), Fin(top + 8.0), Fin(FullWidth(pw)), Fin(12.0), false)
      .Text(split(item.description, pw - 24.0), 12.0, top + 12.0)
  }

  /** The borders of a cargo line whose cells start at `top`. */
  function ItemBoxes(page: nat, pw: real, top: real): seq<Box>
  {
    CellBoxes(page, top, 8.0, 8) + [Box(page, Fin(10.0), Fin(top + 8.0), Fin(FullWidth(pw)), Fin(12.0), false)]
  }

  /** The texts of a cargo line whose cells start at `top`. */
  function ItemLabels(page: nat, pw: real, top: real, item: M.CargoItem, split: Splitter): seq<Label>
  {
    CellLabels(page, top, 5.0, RowData(item), 8) + [Label(page, 12.0, top + 12.0, split(item.description, pw - 24.0))]
  }

  /** A cargo line's nine borders: its eight cells in their columns, 8 mm
      high, the eighth with no width, and the description row under them. */
  lemma ItemBoxesAt(page: nat, pw: real, top: real, c: nat)
    requires c < 9
    ensures |ItemBoxes(page, pw, top)| == 9
    ensures c < 8 ==> ItemBoxes(page, pw, top)[c] == Box(page, Fin(ColX(c)), Fin(top), Width(c), Fin(8.0), false)
    ensures c == 8 ==> ItemBoxes(page, pw, top)[c] == Box(page, Fin(10.0), Fin(top + 8.0), Fin(FullWidth(pw)), Fin(12.0), false)
  {
    CellBoxesAt(page, top, 8.0, 8, if c < 8 then c else 0);
  }

  /** A cargo line's nine texts: cell `c`'s `rowData` entry 1 mm right of its
      column and 5 mm down, so the packages under QTY, the package type
      under TYPE and the weight with ` kg` under WEIGHT; then the broken
      description. */
  lemma ItemLabelsAt(page: nat, pw: real, top: real, item: M.CargoItem, split: Splitter, c: nat)
    requires c < 9
    ensures |ItemLabels(page, pw, top, item, split)| == 9
    ensures c < 8 ==> ItemLabels(page, pw, top, item, split)[c] == Label(page, ColX(c) + 1.0, top + 5.0, One(RowData(item)[c]))
    ensures c == 8 ==> ItemLabels(page, pw, top, item, split)[c] == Label(page, 12.0, top + 12.0, split(item.description, pw - 24.0))
    ensures RowData(item)[0] == item.packages && RowData(item)[1] == item.packageType
    ensures RowData(item)[4] == item.weight + KgSuffix && SubHeaders[4] == "WEIGHT"
  {
    CellLabelsAt(page, top, 5.0, RowData(item), 8, if c < 8 then c else 0);
  }

  /** One cargo line leaves the page alone or adds one, and appends its nine
      borders and nine texts on the page it lands on. */
  lemma ItemStep(d: Doc, ph: real, pw: real, y: real, item: M.CargoItem, split: Splitter)
    ensures var r := Item(d, ph, pw, y, item, split);
      r.page == d.page + Break(ph, y) && r.segments == d.segments
      && r.boxes == d.boxes + ItemBoxes(r.page, pw, RowTop(ph, y))
      && r.labels == d.labels + ItemLabels(r.page, pw, RowTop(ph, y), item, split)
  {
    var d1 := if y > ph - 30.0 then d.NewPage() else d;
    var top := RowTop(ph, y);
    CellsLayout(d1, top, 8.0, 5.0, RowData(item), 8);
    var cb := CellBoxes(d1.page, top, 8.0, 8);
    var cl := CellLabels(d1.page, top, 5.0, RowData(item), 8);
    var db := Box(d1.page, Fin(10.0), Fin(top + 8.0), Fin(FullWidth(pw)), Fin(12.0), false);
    var dl := Label(d1.page, 12.0, top + 12.0, split(item.description, pw - 24.0));
    assert d.boxes + cb + [db] == d.boxes + (cb + [db]);
    assert d.labels + cl + [dl] == d.labels + (cl + [dl]);
  }

  /** The first `n` cargo lines, the cursor starting at `y0`. */
  function Items(d: Doc, ph: real, pw: real, y0: real, items: seq<M.CargoItem>, split: Splitter, n: nat): Doc
    requires n <= |items|
  {
    if n == 0 then d else Item(Items(d, ph, pw, y0, items, split, n - 1), ph, pw, CursorAfter(ph, y0, 20.0, n - 1), items[n - 1], split)
  }

  /** The body of the inner `cargoItems.forEach` loop. */
  method DrawItem(pdf: Pdf, ph: real, pw: real, y0: real, item: M.CargoItem, split: Splitter) returns (y: real)
    modifies pdf
    ensures y == RowTop(ph, y0) + 20.0
    ensures pdf.doc == Item(old(pdf.doc), ph, pw, y0, item, split)
  {
    y := y0;
    if y > ph - 30.0 {
      pdf.AddPage();
      y := 20.0;
    }
    assert y == RowTop(ph, y0);
    Cells(pdf, y, 8.0, 5.0, RowData(item));
    y := y + 8.0;
    pdf.Rect(Fin(10.0), Fin(y), Fin(pw - 20.0), Fin(12.0), false);
    var description := split(item.description, pw - 24.0);
    pdf.Text(description, 12.0, y + 4.0);
    y := y + 12.0;
  }

  /** The first `k + 1` lines are the first `k` and then line `k`. */
  lemma ItemsNext(d: Doc, ph: real, pw: real, y0: real, items: seq<M.CargoItem>, split: Splitter, k: nat)
    requires k < |items|
    ensures Items(d, ph, pw, y0, items, split, k + 1)
            == Item(Items(d, ph, pw, y0, items, split, k), ph, pw, CursorAfter(ph, y0, 20.0, k), items[k], split)
  {
  }

  /** The inner `forEach` over one container's cargo lines, which are lines
      `before` to `before + |items|` of all the lines. */
  method DrawContainer(pdf: Pdf, items: seq<M.CargoItem>, ph: real, pw: real, split: Splitter, y0: real,
                       ghost d0: Doc, ghost all: seq<M.CargoItem>, ghost before: nat, y: real) returns (y': real)
    requires before + |items| <= |all| && all[before..before + |items|] == items
    requires y == CursorAfter(ph, y0, 20.0, before)
    requires pdf.doc == Items(d0, ph, pw, y0, all, split, before)
    modifies pdf
    ensures y' == CursorAfter(ph, y0, 20.0, before + |items|)
    ensures pdf.doc == Items(d0, ph, pw, y0, all, split, before + |items|)
  {
    y' := y;
    var j := 0;
    ghost var k := before;
    while j < |items|
      invariant 0 <= j <= |items| && k == before + j
      invariant y' == CursorAfter(ph, y0, 20.0, k)
      invariant pdf.doc == Items(d0, ph, pw, y0, all, split, k)
    {
      assert all[k] == items[j] by { assert all[before..before + |items|][j] == items[j]; }
      ItemsNext(d0, ph, pw, y0, all, split, k);
      y' := DrawItem(pdf, ph, pw, y', items[j], split);
      j, k := j + 1, k + 1;
    }
    assert k == before + |items|;
  }

  /** The nested `forEach` loops over the containers and their cargo lines:
      the lines are drawn in the order of `Flatten`, container after
      container. */
  method DrawCargo(pdf: Pdf, cs: seq<M.Container>, ph: real, pw: real, split: Splitter, y0: real) returns (y: real)
    modifies pdf
    ensures y == CursorAfter(ph, y0, 20.0, |T.Flatten(cs)|)
    ensures pdf.doc == Items(old(pdf.doc), ph, pw, y0, T.Flatten(cs), split, |T.Flatten(cs)|)
  {
    ghost var all := T.Flatten(cs);
    y := y0;
    var ci := 0;
    while ci < |cs|
      invariant 0 <= ci <= |cs|
      invariant T.ItemCount(cs[..ci]) <= |all|
      invariant y == CursorAfter(ph, y0, 20.0, T.ItemCount(cs[..ci]))
      invariant pdf.doc == Items(old(pdf.doc), ph, pw, y0, all, split, T.ItemCount(cs[..ci]))
    {
      T.ContainerLines(cs, ci);
      y := DrawContainer(pdf, cs[ci].cargoItems, ph, pw, split, y0, old(pdf.doc), all, T.ItemCount(cs[..ci]), y);
      ci := ci + 1;
    }
    assert cs[..|cs|] == cs;
    T.FlattenLength(cs);
  }

  /** Each cargo line starts where the cursor stands, or at 20 on a new page
      when the cursor is below `pageHeight - 30`; it ends 20 mm lower, and on
      a page of at least 50 mm at or above `pageHeight - 10`, so it never
      runs off its page. */
  lemma ItemFits(ph: real, y0: real, k: nat)
    requires ph >= 50.0
    ensures CursorAfter(ph, y0, 20.0, k + 1) == RowTop(ph, CursorAfter(ph, y0, 20.0, k)) + 20.0
    ensures RowTop(ph, CursorAfter(ph, y0, 20.0, k)) + 20.0 <= ph - 10.0
    ensures PagesAdded(ph, y0, 20.0, k + 1) == PagesAdded(ph, y0, 20.0, k) + (if CursorAfter(ph, y0, 20.0, k) > ph - 30.0 then 1 else 0)
    ensures CursorAfter(ph, y0, 20.0, k) > ph - 30.0 ==> RowTop(ph, CursorAfter(ph, y0, 20.0, k)) == 20.0
    ensures CursorAfter(ph, y0, 20.0, k) <= ph - 30.0 ==> RowTop(ph, CursorAfter(ph, y0, 20.0, k)) == CursorAfter(ph, y0, 20.0, k)
  {
  }

  /** The first `n` lines go on page `page + PagesAdded`, append nine
      borders and nine texts per line and draw no line. */
  lemma {:induction false} ItemsCount(d: Doc, ph: real, pw: real, y0: real, items: seq<M.CargoItem>, split: Splitter, n: nat)
    requires n <= |items|
    ensures var r := Items(d, ph, pw, y0, items, split, n);
      r.page == d.page + PagesAdded(ph, y0, 20.0, n) && r.segments == d.segments
      && |r.boxes| == |d.boxes| + 9 * n && |r.labels| == |d.labels| + 9 * n && Extends(d, r)
  {
    if n > 0 {
      ItemsCount(d, ph, pw, y0, items, split, n - 1);
      var p, y := Items(d, ph, pw, y0, items, split, n - 1), CursorAfter(ph, y0, 20.0, n - 1);
      ItemStep(p, ph, pw, y, items[n - 1], split);
      ItemBoxesAt(p.page + Break(ph, y), pw, RowTop(ph, y), 0);
      ItemLabelsAt(p.page + Break(ph, y), pw, RowTop(ph, y), items[n - 1], split, 0);
      ExtendsTransitive(d, p, Items(d, ph, pw, y0, items, split, n));
    }
  }

  /** Border `c` and text `c` of line `k` right after line `k` is drawn. */
  lemma ItemsAtNow(d: Doc, ph: real, pw: real, y0: real, items: seq<M.CargoItem>, split: Splitter, k: nat, c: nat)
    requires k < |items| && c < 9
    ensures var r, page, top := Items(d, ph, pw, y0, items, split, k + 1),
                                d.page + PagesAdded(ph, y0, 20.0, k + 1), RowTop(ph, CursorAfter(ph, y0, 20.0, k));
      |d.boxes| + 9 * k + c < |r.boxes| && |d.labels| + 9 * k + c < |r.labels|
      && r.boxes[|d.boxes| + 9 * k + c] == ItemBoxes(page, pw, top)[c]
      && r.labels[|d.labels| + 9 * k + c] == ItemLabels(page, pw, top, items[k], split)[c]
  {
    var before, yk := Items(d, ph, pw, y0, items, split, k), CursorAfter(ph, y0, 20.0, k);
    assert PagesAdded(ph, y0, 20.0, k + 1) == PagesAdded(ph, y0, 20.0, k) + Break(ph, yk);
    ItemsNext(d, ph, pw, y0, items, split, k);
    ItemsCount(d, ph, pw, y0, items, split, k);
    ItemStep(before, ph, pw, yk, items[k], split);
    ItemBoxesAt(before.page + Break(ph, yk), pw, RowTop(ph, yk), c);
    ItemLabelsAt(before.page + Break(ph, yk), pw, RowTop(ph, yk), items[k], split, c);
  }

  /** Border `c` and text `c` of line `k` are still there after `n` lines:
      line `k` is drawn on the page the cursor had reached, in its cells,
      with its own texts. */
  lemma {:induction false} ItemsAt(d: Doc, ph: real, pw: real, y0: real, items: seq<M.CargoItem>, split: Splitter,
                                   n: nat, k: nat, c: nat)
    requires k < n <= |items| && c < 9
    ensures var r, page, top := Items(d, ph, pw, y0, items, split, n),
                                d.page + PagesAdded(ph, y0, 20.0, k + 1), RowTop(ph, CursorAfter(ph, y0, 20.0, k));
      |d.boxes| + 9 * k + c < |r.boxes| && |d.labels| + 9 * k + c < |r.labels|
      && r.boxes[|d.boxes| + 9 * k + c] == ItemBoxes(page, pw, top)[c]
      && r.labels[|d.labels| + 9 * k + c] == ItemLabels(page, pw, top, items[k], split)[c]
  {
    if n == k + 1 {
      ItemsAtNow(d, ph, pw, y0, items, split, k, c);
    } else {
      ItemsAt(d, ph, pw, y0, items, split, n - 1, k, c);
      var p, q := Items(d, ph, pw, y0, items, split, n - 1), Items(d, ph, pw, y0, items, split, n);
      assert Extends(p, q) by {
        ItemStep(p, ph, pw, CursorAfter(ph, y0, 20.0, n - 1), items[n - 1], split);
      }
      ExtendsAt(p, q, |d.boxes| + 9 * k + c);
      ExtendsLabelAt(p, q, |d.labels| + 9 * k + c);
    }
  }

  /** The position of line `j` of container `i` among all the cargo lines. */
  function LineIndex(cs: seq<M.Container>, i: nat, j: nat): nat
    requires i <= |cs|
  {
    T.ItemCount(cs[..i]) + j
  }

  /** Line `j` of container `i` is drawn as cargo line `LineIndex(cs, i, j)`,
      on the page the cursor had reached: its borders and texts are those
      `ItemBoxesAt` and `ItemLabelsAt` describe for that cargo line. */
  lemma CargoLineAt(d: Doc, ph: real, pw: real, y0: real, cs: seq<M.Container>, split: Splitter, i: nat, j: nat, c: nat)
    requires i < |cs| && j < |cs[i].cargoItems| && c < 9
    ensures LineIndex(cs, i, j) < |T.Flatten(cs)|
    ensures var all, k := T.Flatten(cs), LineIndex(cs, i, j);
      var r := Items(d, ph, pw, y0, all, split, |all|);
      var page, top := d.page + PagesAdded(ph, y0, 20.0, k + 1), RowTop(ph, CursorAfter(ph, y0, 20.0, k));
      |d.boxes| + 9 * k + c < |r.boxes| && |d.labels| + 9 * k + c < |r.labels|
      && r.boxes[|d.boxes| + 9 * k + c] == ItemBoxes(page, pw, top)[c]
      && r.labels[|d.labels| + 9 * k + c] == ItemLabels(page, pw, top, cs[i].cargoItems[j], split)[c]
  {
    var all, k := T.Flatten(cs), LineIndex(cs, i, j);
    assert k < |all| && all[k] == cs[i].cargoItems[j] by { T.FlattenIndex(cs, i, j); }
    ItemsAt(d, ph, pw, y0, all, split, |all|, k, c);
  }

  // ---- The grand total ----------------------------------------------------------------------

  /** `${totalPackages} packages`: the package total as JavaScript prints it. */
  function PackagesText(cs: seq<M.Container>): (s: string)
    ensures |s| >= 9 && s[|s| - 9..] == PackagesSuffix
    ensures T.TotalPackages(cs).Some? ==> ParseInt(s[..|s| - 9]) == T.TotalPackages(cs)
    ensures T.TotalPackages(cs).None? ==> s == "NaN" + PackagesSuffix
  {
    var n := IntText(T.TotalPackages(cs));
    var s := n + PackagesSuffix;
    assert s[..|s| - 9] == n;
    s
  }

  /** `${totalWeight} kg`: the weight total as JavaScript prints it. */
  function WeightText(cs: seq<M.Container>): (s: string)
    ensures |s| >= 3 && s[|s| - 3..] == KgSuffix
    ensures T.TotalWeight(cs).Some? ==>
              ParseFloat(s[..|s| - 3]).Some? && ParseFloat(s[..|s| - 3]).value.Value() == T.TotalWeight(cs).value.Value()
    ensures T.TotalWeight(cs).None? ==> s == "NaN" + KgSuffix
  {
    var w := DecimalText(T.TotalWeight(cs));
    var s := w + KgSuffix;
    assert s[..|s| - 3] == w;
    if T.TotalWeight(cs).Some? then DecimalToStringReadsBack(T.TotalWeight(cs).value); s else s
  }

  /** The grey GRAND TOTAL band, 8 mm high, with the two totals. */
  function GrandTotal(d: Doc, cs: seq<M.Container>, pw: real, y: real): Doc
  {
    d.Rect(Fin(10.0), Fin(y), Fin(FullWidth(pw)), Fin(8.0), true)
     .Text(One(GrandTotalLabel), 12.0, y + 5.0)
     .Text(One(PackagesText(cs)), pw - 80.0, y + 5.0)
     .Text(One(WeightText(cs)), pw - 40.0, y + 5.0)
  }

  method DrawGrandTotal(pdf: Pdf, cs: seq<M.Container>, pw: real, y0: real) returns (y: real)
    modifies pdf
    ensures y == y0 + 18.0
    ensures pdf.doc == GrandTotal(old(pdf.doc), cs, pw, y0)
  {
    pdf.Rect(Fin(10.0), Fin(y0), Fin(pw - 20.0), Fin(8.0), true);
    pdf.Text(One(GrandTotalLabel), 12.0, y0 + 5.0);
    var totalPackages := T.TotalPackages(cs);
    var totalWeight := T.TotalWeight(cs);
    pdf.Text(One(IntText(totalPackages) + PackagesSuffix), pw - 80.0, y0 + 5.0);
    pdf.Text(One(DecimalText(totalWeight) + KgSuffix), pw - 40.0, y0 + 5.0);
    y := y0 + 8.0 + 10.0;
  }

  /** The grand total band draws one filled border across the page and three
      texts on the current page: the label and both totals, 5 mm down. */
  lemma GrandTotalLayout(d: Doc, cs: seq<M.Container>, pw: real, y: real)
    ensures var r, n := GrandTotal(d, cs, pw, y), |d.labels|;
      r.page == d.page && r.segments == d.segments
      && r.boxes == d.boxes + [Box(d.page, Fin(10.0), Fin(y), Fin(FullWidth(pw)), Fin(8.0), true)]
      && |r.labels| == n + 3 && r.labels[..n] == d.labels
      && r.labels[n + 1] == Label(d.page, pw - 80.0, y + 5.0, One(PackagesText(cs)))
      && r.labels[n + 2] == Label(d.page, pw - 40.0, y + 5.0, One(WeightText(cs)))
  {
  }

  /** With no container, or none with a cargo line, the totals read
      `0 packages` and a weight of 0 kg. */
  lemma EmptyTotals(cs: seq<M.Container>)
    requires T.ItemCount(cs) == 0
    ensures PackagesText(cs) == "0" + PackagesSuffix
    ensures var w := WeightText(cs); ParseFloat(w[..|w| - 3]).Some? && ParseFloat(w[..|w| - 3]).value.Value() == 0.0
  {
    T.FlattenLength(cs);
    assert T.Flatten(cs) == [];
    assert T.TotalPackages(cs) == Some(0) by {
      T.TotalPackagesFlat(cs);
      assert T.PackageCounts([]) == [];
    }
    assert T.TotalWeight(cs).Some? && T.TotalWeight(cs).value.Value() == 0.0 by {
      T.TotalWeightFlat(cs);
      assert T.WeightValues([]) == [];
    }
    assert IntText(Some(0)) == "0";
  }

  // ---- Fee terms, the legal notice and the signatures ----------------------------------------

  /** The page break before the fee terms: when the cursor is below `pageHeight - 40`. */
  function FeesBreak(ph: real, y: real): bool { y > ph - 40.0 }

  function FeesTop(ph: real, y: real): real { if FeesBreak(ph, y) then 20.0 else y }

  /** `COD Amount: $ ${otherCharges || '0.00'}`. */
  function CodText(f: M.BolForm): string { CodPrefix + Or(f.otherCharges, "0.00") }

  /** `Fee Terms:   Collect: ☑/☐   Prepaid: ☑/☐`. */
  function FeeTermsText(f: M.BolForm): string
  {
    FeeCollectPrefix + CheckMark(f.collect) + FeePrepaidPrefix + CheckMark(f.prepaid)
  }

  /** The COD amount, the fee terms and the legal notice. */
  function Fees(d: Doc, f: M.BolForm, pw: real, ph: real, y: real): Doc
  {
    var d1 := if FeesBreak(ph, y) then d.NewPage() else d;
    var top := FeesTop(ph, y);
    d1.Text(One(CodText(f)), pw - 80.0, top)
      .Text(One(FeeTermsText(f)), pw - 80.0, top + 5.0)
      .Text(One(LegalNotice), 10.0, top + 15.0)
  }

  method DrawFees(pdf: Pdf, f: M.BolForm, pw: real, ph: real, y0: real)
    modifies pdf
    ensures pdf.doc == Fees(old(pdf.doc), f, pw, ph, y0)
  {
    var y := y0;
    if y > ph - 40.0 {
      pdf.AddPage();
      y := 20.0;
    }
    var codSection := CodPrefix + Or(f.otherCharges, "0.00");
    pdf.Text(One(codSection), pw - 80.0, y);
    var feeTerms := FeeCollectPrefix + CheckMark(f.collect) + FeePrepaidPrefix + CheckMark(f.prepaid);
    pdf.Text(One(feeTerms), pw - 80.0, y + 5.0);
    y := y + 15.0;
    pdf.Text(One(LegalNotice), 10.0, y);
  }

  /** The fee terms go on a new page, at 20, exactly when the cursor is below
      `pageHeight - 40`; they show the other charges as the COD amount
      (`0.00` when empty) and a ticked box for collect and for prepaid exactly
      when each is ticked. On a page of at least 60 mm the legal notice is
      never below the signature captions at `pageHeight - 25`. */
  lemma FeesLayout(d: Doc, f: M.BolForm, pw: real, ph: real, y: real)
    ensures var r, n := Fees(d, f, pw, ph, y), |d.labels|;
      r.page == d.page + (if FeesBreak(ph, y) then 1 else 0) && r.boxes == d.boxes && r.segments == d.segments
      && |r.labels| == n + 3 && r.labels[..n] == d.labels
      && r.labels[n] == Label(r.page, pw - 80.0, FeesTop(ph, y), One(CodText(f)))
      && r.labels[n + 2] == Label(r.page, 10.0, FeesTop(ph, y) + 15.0, One(LegalNotice))
      && (ph >= 60.0 ==> r.labels[n + 2].y <= ph - 25.0)
    ensures CodText(f)[..|CodPrefix|] == CodPrefix
    ensures CodText(f)[|CodPrefix|..] == (if f.otherCharges == "" then "0.00" else f.otherCharges)
    ensures var t, c := FeeTermsText(f), |FeeCollectPrefix|;
      |t| == c + 1 + |FeePrepaidPrefix| + 1
      && (t[c] == '☑' <==> f.collect) && (t[|t| - 1] == '☑' <==> f.prepaid)
  {
  }

  /** The captions and lines for the shipper's and the carrier's signature
      and the loading and counting check boxes, at `pageHeight - 25`
      whatever the cursor, and the footer at `pageHeight - 5`. */
  function Signatures(d: Doc, pw: real, ph: real): Doc
  {
    var sy := ph - 25.0;
    d.Text(One(ShipperSignature), 10.0, sy).Line(10.0, sy + 5.0, 80.0, sy + 5.0)
     .Text(One(CarrierSignature), pw - 100.0, sy).Line(pw - 100.0, sy + 5.0, pw - 10.0, sy + 5.0)
     .Text(One(TrailerLoaded), 10.0, sy + 10.0)
     .Text(One(ByShipper), 10.0, sy + 13.0)
     .Text(One(ByDriver), 10.0, sy + 16.0)
     .Text(One(FreightCounted), 50.0, sy + 10.0)
     .Text(One(ByShipper), 50.0, sy + 13.0)
     .Text(One(ByDriverPallets), 50.0, sy + 16.0)
     .Text(One(ByDriverPieces), 50.0, sy + 19.0)
     .Text(One(Footer), 10.0, ph - 5.0)
  }

  method DrawSignatures(pdf: Pdf, pw: real, ph: real)
    modifies pdf
    ensures pdf.doc == Signatures(old(pdf.doc), pw, ph)
  {
    var signatureY := ph - 25.0;
    pdf.Text(One(ShipperSignature), 10.0, signatureY);
    pdf.Line(10.0, signatureY + 5.0, 80.0, signatureY + 5.0);
    pdf.Text(One(CarrierSignature), pw - 100.0, signatureY);
    pdf.Line(pw - 100.0, signatureY + 5.0, pw - 10.0, signatureY + 5.0);
    pdf.Text(One(TrailerLoaded), 10.0, signatureY + 10.0);
    pdf.Text(One(ByShipper), 10.0, signatureY + 13.0);
    pdf.Text(One(ByDriver), 10.0, signatureY + 16.0);
    pdf.Text(One(FreightCounted), 50.0, signatureY + 10.0);
    pdf.Text(One(ByShipper), 50.0, signatureY + 13.0);
    pdf.Text(One(ByDriverPallets), 50.0, signatureY + 16.0);
    pdf.Text(One(ByDriverPieces), 50.0, signatureY + 19.0);
    pdf.Text(One(Footer), 10.0, ph - 5.0);
  }

  /** The signature block stays on the current page and never starts one;
      it draws the two signature lines 5 mm under their captions, the left
      one from 10 to 80 and the right one ending 10 mm from the right edge,
      and ten texts, all between `pageHeight - 25` and the footer at
      `pageHeight - 5`. */
  lemma SignatureLayout(d: Doc, pw: real, ph: real)
    ensures var r, n := Signatures(d, pw, ph), |d.labels|;
      r.page == d.page && r.boxes == d.boxes
      && r.segments == d.segments + [Segment(d.page, 10.0, ph - 20.0, 80.0, ph - 20.0),
                                     Segment(d.page, pw - 100.0, ph - 20.0, pw - 10.0, ph - 20.0)]
      && |r.labels| == n + 10 && r.labels[..n] == d.labels
      && r.labels[n] == Label(d.page, 10.0, ph - 25.0, One(ShipperSignature))
      && r.labels[n + 9] == Label(d.page, 10.0, ph - 5.0, One(Footer))
      && (forall i :: n <= i < n + 10 ==> r.labels[i].page == d.page && ph - 25.0 <= r.labels[i].y <= ph - 5.0)
  {
    var r, n := Signatures(d, pw, ph), |d.labels|;
    assert forall i :: n <= i < n + 10 ==> r.labels[i].page == d.page && ph - 25.0 <= r.labels[i].y <= ph - 5.0 by {
      assert r.labels[n..] == [Label(d.page, 10.0, ph - 25.0, One(ShipperSignature)),
        Label(d.page, pw - 100.0, ph - 25.0, One(CarrierSignature)),
        Label(d.page, 10.0, ph - 15.0, One(TrailerLoaded)), Label(d.page, 10.0, ph - 12.0, One(ByShipper)),
        Label(d.page, 10.0, ph - 9.0, One(ByDriver)), Label(d.page, 50.0, ph - 15.0, One(FreightCounted)),
        Label(d.page, 50.0, ph - 12.0, One(ByShipper)), Label(d.page, 50.0, ph - 9.0, One(ByDriverPallets)),
        Label(d.page, 50.0, ph - 6.0, One(ByDriverPieces)), Label(d.page, 10.0, ph - 5.0, One(Footer))];
    }
  }

  // ---- The whole document -------------------------------------------------------------------

  /** `BOL_${bolNumber || 'draft'}_${date}.pdf`. */
  function BolPdfFileName(f: M.BolForm, today: string): string
  {
    "BOL_" + Or(f.bolNumber, "draft") + "_" + today + ".pdf"
  }

  /** The file name reads back the bill of lading number, or `draft` without one. */
  lemma BolPdfFileNameReadsBack(f: M.BolForm, today: string)
    ensures var n := BolPdfFileName(f, today);
      n[..4] == "BOL_" && n[|n| - 4..] == ".pdf" && n[|n| - |today| - 5] == '_'
      && n[4..|n| - |today| - 5] == Or(f.bolNumber, "draft")
      && (f.bolNumber != "" ==> n[4..|n| - |today| - 5] == f.bolNumber)
  {
  }

  /** The cursor after the cargo lines. */
  function ItemsEnd(f: M.BolForm, cs: seq<M.Container>, ph: real): real
  {
    CursorAfter(ph, HeadingEnd(f), 20.0, |T.Flatten(cs)|)
  }

  /** The document `generateBOLPDF` draws. */
  function BolDocument(f: M.BolForm, cs: seq<M.Container>, pw: real, ph: real, split: Splitter, localDate: string): Doc
  {
    var all := T.Flatten(cs);
    var cargo := Items(Heading(Blank(), f, cs, pw, split, localDate), ph, pw, HeadingEnd(f), all, split, |all|);
    var y := ItemsEnd(f, cs, ph);
    Signatures(Fees(GrandTotal(cargo, cs, pw, y), f, pw, ph, y + 18.0), pw, ph)
  }

  /** `generateBOLPDF`: the drawn document and the name it is saved under;
      `localDate` is `new Date().toLocaleDateString()` and `today` the date
      part of `new Date().toISOString()`. */
  method GenerateBolPdf(f: M.BolForm, cs: seq<M.Container>, pw: real, ph: real, split: Splitter,
                        localDate: string, today: string)
    returns (pdf: Pdf, fileName: string)
    ensures fresh(pdf)
    ensures pdf.doc == BolDocument(f, cs, pw, ph, split, localDate)
    ensures fileName == BolPdfFileName(f, today)
  {
    pdf := new Pdf();
    var y := DrawHeading(pdf, f, cs, pw, split, localDate);
    assert y == HeadingEnd(f) && pdf.doc == Heading(Blank(), f, cs, pw, split, localDate);
    y := DrawCargo(pdf, cs, ph, pw, split, y);
    assert y == ItemsEnd(f, cs, ph);
    y := DrawGrandTotal(pdf, cs, pw, y);
    DrawFees(pdf, f, pw, ph, y);
    DrawSignatures(pdf, pw, ph);
    fileName := BolPdfFileName(f, today);
  }

  /** The document has one page for the heading and the lines on it, one
      more for each line that breaks and one more when the fee terms break;
      every cargo line takes nine borders and nine texts, and the grand
      total one more border; the only lines drawn are the two signature
      lines, on the last page. */
  lemma BolDocumentShape(f: M.BolForm, cs: seq<M.Container>, pw: real, ph: real, split: Splitter, localDate: string)
    ensures var r, n := BolDocument(f, cs, pw, ph, split, localDate), |T.Flatten(cs)|;
      r.page == 1 + PagesAdded(ph, HeadingEnd(f), 20.0, n) + (if FeesBreak(ph, ItemsEnd(f, cs, ph) + 18.0) then 1 else 0)
      && |r.boxes| == |HeadingBoxes(pw, f.notifyPartyName != "")| + 9 * n + 1
      && r.segments == [Segment(r.page, 10.0, ph - 20.0, 80.0, ph - 20.0),
                        Segment(r.page, pw - 100.0, ph - 20.0, pw - 10.0, ph - 20.0)]
  {
    var all := T.Flatten(cs);
    var h := Heading(Blank(), f, cs, pw, split, localDate);
    HeadingLayout(f, cs, pw, split, localDate);
    var cargo := Items(h, ph, pw, HeadingEnd(f), all, split, |all|);
    ItemsCount(h, ph, pw, HeadingEnd(f), all, split, |all|);
    var y := ItemsEnd(f, cs, ph);
    var g := GrandTotal(cargo, cs, pw, y);
    GrandTotalLayout(cargo, cs, pw, y);
    var fees := Fees(g, f, pw, ph, y + 18.0);
    FeesLayout(g, f, pw, ph, y + 18.0);
    SignatureLayout(fees, pw, ph);
  }

  // ---- The rectangles jsPDF refuses ---------------------------------------------------------

  /** The eight cells of a row: seven that `rect` takes, then the eighth, at
      200 and with no width, that it refuses. */
  lemma CellBoxesLast(page: nat, y: real, h: real)
    ensures CellBoxes(page, y, h, 8) == CellBoxes(page, y, h, 7) + [Box(page, Fin(200.0), Fin(y), NaN, Fin(h), false)]
    ensures AllAccepted(CellBoxes(page, y, h, 7))
  {
    ColumnGeometry();
    forall i | 0 <= i < 7
      ensures Accepted(CellBoxes(page, y, h, 7)[i])
    {
      CellBoxesAt(page, y, h, 7, i);
    }
  }

  /** The heading borders before the sub-header row, which `rect` all takes. */
  lemma UpperAccepted(pw: real, notify: bool)
    ensures var y := if notify then 129.0 else 101.0;
      AllAccepted(SplitBand(1, pw, 35.0, 25.0) + SplitBand(1, pw, 68.0, 25.0)
                  + (if notify then SplitBand(1, pw, 101.0, 20.0) + CheckBoxes(1, pw, 101.0) else [])
                  + ([Box(1, Fin(10.0), Fin(y), Fin(HalfWidth(pw)), Fin(15.0), false),
                      Box(1, Fin(10.0), Fin(y + 20.0), Fin(FullWidth(pw)), Fin(6.0), true)]
                     + HeaderBoxes(1, y + 26.0)))
  {
    var y := if notify then 129.0 else 101.0;
    var parties := SplitBand(1, pw, 35.0, 25.0) + SplitBand(1, pw, 68.0, 25.0);
    var third := if notify then SplitBand(1, pw, 101.0, 20.0) + CheckBoxes(1, pw, 101.0) else [];
    var lead := [Box(1, Fin(10.0), Fin(y), Fin(HalfWidth(pw)), Fin(15.0), false),
                 Box(1, Fin(10.0), Fin(y + 20.0), Fin(FullWidth(pw)), Fin(6.0), true)];
    AllAcceptedAppend(SplitBand(1, pw, 35.0, 25.0), SplitBand(1, pw, 68.0, 25.0));
    AllAcceptedAppend(SplitBand(1, pw, 101.0, 20.0), CheckBoxes(1, pw, 101.0));
    AllAcceptedAppend(parties, third);
    AllAcceptedAppend(lead, HeaderBoxes(1, y + 26.0));
    AllAcceptedAppend(parties + third, lead + HeaderBoxes(1, y + 26.0));
  }

  /** Of a first page's heading borders, `rect` takes all but the last, the
      eighth sub-header cell at `PartiesEnd + 34`. */
  lemma HeadingRejected(pw: real, notify: bool)
    ensures var hb, y := HeadingBoxes(pw, notify), if notify then 129.0 else 101.0;
      |hb| >= 1 && hb == hb[..|hb| - 1] + [hb[|hb| - 1]] && AllAccepted(hb[..|hb| - 1])
      && hb[|hb| - 1] == Box(1, Fin(200.0), Fin(y + 34.0), NaN, Fin(6.0), false)
  {
    var y := if notify then 129.0 else 101.0;
    var last := Box(1, Fin(200.0), Fin(y + 34.0), NaN, Fin(6.0), false);
    var third := if notify then SplitBand(1, pw, 101.0, 20.0) + CheckBoxes(1, pw, 101.0) else [];
    var lead := [Box(1, Fin(10.0), Fin(y), Fin(HalfWidth(pw)), Fin(15.0), false),
                 Box(1, Fin(10.0), Fin(y + 20.0), Fin(FullWidth(pw)), Fin(6.0), true)]
                + HeaderBoxes(1, y + 26.0);
    var p := SplitBand(1, pw, 35.0, 25.0) + SplitBand(1, pw, 68.0, 25.0) + third + lead;
    var c7 := CellBoxes(1, y + 34.0, 6.0, 7);
    UpperAccepted(pw, notify);
    CellBoxesLast(1, y + 34.0, 6.0);
    AllAcceptedAppend(p, c7);
    var hb := HeadingBoxes(pw, notify);
    assert hb == (p + c7) + [last];
    assert hb[..|hb| - 1] == p + c7;
  }

  /** The borders of the drawn document: the heading's, the cargo lines' and the grand total band. */
  lemma BolBoxes(f: M.BolForm, cs: seq<M.Container>, pw: real, ph: real, split: Splitter, localDate: string)
    ensures var all, h := T.Flatten(cs), Heading(Blank(), f, cs, pw, split, localDate);
      var cargo := Items(h, ph, pw, HeadingEnd(f), all, split, |all|);
      BolDocument(f, cs, pw, ph, split, localDate).boxes
        == cargo.boxes + [Box(cargo.page, Fin(10.0), Fin(ItemsEnd(f, cs, ph)), Fin(FullWidth(pw)), Fin(8.0), true)]
  {
    var all := T.Flatten(cs);
    var cargo := Items(Heading(Blank(), f, cs, pw, split, localDate), ph, pw, HeadingEnd(f), all, split, |all|);
    var y := ItemsEnd(f, cs, ph);
    var g := GrandTotal(cargo, cs, pw, y);
    FeesLayout(g, f, pw, ph, y + 18.0);
    SignatureLayout(Fees(g, f, pw, ph, y + 18.0), pw, ph);
  }

  /** The drawn document's borders begin with the heading's. */
  lemma HeadingFirst(f: M.BolForm, cs: seq<M.Container>, pw: real, ph: real, split: Splitter, localDate: string)
    ensures var boxes, hb := BolDocument(f, cs, pw, ph, split, localDate).boxes, HeadingBoxes(pw, f.notifyPartyName != "");
      |hb| <= |boxes| && boxes[..|hb|] == hb
  {
    var all, h := T.Flatten(cs), Heading(Blank(), f, cs, pw, split, localDate);
    var cargo := Items(h, ph, pw, HeadingEnd(f), all, split, |all|);
    var boxes := BolDocument(f, cs, pw, ph, split, localDate).boxes;
    assert h.boxes == HeadingBoxes(pw, f.notifyPartyName != "") by {
      HeadingLayout(f, cs, pw, split, localDate);
    }
    assert Extends(h, cargo) by {
      ItemsCount(h, ph, pw, HeadingEnd(f), all, split, |all|);
    }
    assert |cargo.boxes| <= |boxes| && boxes[..|cargo.boxes|] == cargo.boxes by {
      BolBoxes(f, cs, pw, ph, split, localDate);
    }
    PrefixOfPrefix(h.boxes, cargo.boxes, boxes);
  }

  lemma PrefixOfPrefix(a: seq<Box>, b: seq<Box>, c: seq<Box>)
    requires |a| <= |b| && b[..|a|] == a
    requires |b| <= |c| && c[..|b|] == b
    ensures |a| <= |c| && c[..|a|] == a
  {
    assert c[..|a|] == c[..|b|][..|a|];
  }

  /** As written, the first rectangle jsPDF refuses is the eighth sub-header
      cell, the first to read `colWidths[7]`: `generateBOLPDF` throws there
      for every form, after the heading and before any cargo line, the grand
      total, the fee terms or the signatures reach the page. */
  lemma SubHeaderRejected(f: M.BolForm, cs: seq<M.Container>, pw: real, ph: real, split: Splitter, localDate: string)
    ensures var r, k := BolDocument(f, cs, pw, ph, split, localDate), |HeadingBoxes(pw, f.notifyPartyName != "")| - 1;
      0 <= k < |r.boxes| && FirstRejected(r.boxes) == k
      && r.boxes[k] == Box(1, Fin(200.0), Fin(HeadingEnd(f) - 6.0), NaN, Fin(6.0), false)
  {
    var hb := HeadingBoxes(pw, f.notifyPartyName != "");
    assert |hb| >= 1 && AllAccepted(hb[..|hb| - 1])
           && hb[|hb| - 1] == Box(1, Fin(200.0), Fin(HeadingEnd(f) - 6.0), NaN, Fin(6.0), false) by {
      HeadingRejected(pw, f.notifyPartyName != "");
    }
    HeadingFirst(f, cs, pw, ph, split, localDate);
    RejectedAt(BolDocument(f, cs, pw, ph, split, localDate).boxes, hb);
  }

  /** A cargo line's borders that `rect` takes: all but its eighth cell. */
  lemma ItemBoxesGuarded(page: nat, pw: real, top: real)
    ensures |Guarded(ItemBoxes(page, pw, top))| == 8
  {
    var desc := Box(page, Fin(10.0), Fin(top + 8.0), Fin(FullWidth(pw)), Fin(12.0), false);
    var last := Box(page, Fin(200.0), Fin(top), NaN, Fin(8.0), false);
    var c7 := CellBoxes(page, top, 8.0, 7);
    CellBoxesLast(page, top, 8.0);
    assert ItemBoxes(page, pw, top) == c7 + [last] + [desc];
    GuardedAppend(c7 + [last], [desc]);
    GuardedAppend(c7, [last]);
    assert Guarded([last]) == [];
    assert Guarded([desc]) == [desc];
  }

  /** Guarded, a cargo line adds eight of its nine borders. */
  lemma ItemGuarded(d: Doc, ph: real, pw: real, y: real, item: M.CargoItem, split: Splitter)
    ensures |Guarded(Item(d, ph, pw, y, item, split).boxes)| == |Guarded(d.boxes)| + 8
  {
    var ib := ItemBoxes(d.page + Break(ph, y), pw, RowTop(ph, y));
    ItemStep(d, ph, pw, y, item, split);
    GuardedAppend(d.boxes, ib);
    ItemBoxesGuarded(d.page + Break(ph, y), pw, RowTop(ph, y));
  }

  /** Guarded, every cargo line keeps eight of its nine borders. */
  lemma ItemsGuarded(d: Doc, ph: real, pw: real, y0: real, items: seq<M.CargoItem>, split: Splitter, n: nat)
    requires n <= |items|
    ensures |Guarded(Items(d, ph, pw, y0, items, split, n).boxes)| == |Guarded(d.boxes)| + 8 * n
  {
    var count: nat -> nat := (i: nat) => if i <= |items| then |Guarded(Items(d, ph, pw, y0, items, split, i).boxes)| else 0;
    forall i: nat | 1 <= i <= n
      ensures count(i) == count(i - 1) + 8
    {
      ItemsStepGuarded(d, ph, pw, y0, items, split, i);
    }
    CountBySteps(count, 8, n);
    assert Items(d, ph, pw, y0, items, split, 0) == d;
  }

  /** Guarded, the `n`th cargo line adds eight borders. */
  lemma ItemsStepGuarded(d: Doc, ph: real, pw: real, y0: real, items: seq<M.CargoItem>, split: Splitter, n: nat)
    requires 1 <= n <= |items|
    ensures |Guarded(Items(d, ph, pw, y0, items, split, n).boxes)|
         == |Guarded(Items(d, ph, pw, y0, items, split, n - 1).boxes)| + 8
  {
    ItemGuarded(Items(d, ph, pw, y0, items, split, n - 1), ph, pw, CursorAfter(ph, y0, 20.0, n - 1), items[n - 1], split);
  }

  /** Guarded, the heading keeps all its borders but the eighth sub-header cell. */
  lemma HeadingGuarded(f: M.BolForm, cs: seq<M.Container>, pw: real, split: Splitter, localDate: string)
    ensures |Guarded(Heading(Blank(), f, cs, pw, split, localDate).boxes)| + 1 == |HeadingBoxes(pw, f.notifyPartyName != "")|
  {
    var hb := HeadingBoxes(pw, f.notifyPartyName != "");
    assert Heading(Blank(), f, cs, pw, split, localDate).boxes == hb by {
      HeadingLayout(f, cs, pw, split, localDate);
    }
    HeadingRejected(pw, f.notifyPartyName != "");
    GuardedAppend(hb[..|hb| - 1], [hb[|hb| - 1]]);
    assert Guarded([hb[|hb| - 1]]) == [];
  }

  /** Guarded, the grand total band is kept. */
  lemma BandGuarded(f: M.BolForm, cs: seq<M.Container>, pw: real, ph: real, split: Splitter, localDate: string)
    ensures var all := T.Flatten(cs);
      var cargo := Items(Heading(Blank(), f, cs, pw, split, localDate), ph, pw, HeadingEnd(f), all, split, |all|);
      |Guarded(BolDocument(f, cs, pw, ph, split, localDate).boxes)| == |Guarded(cargo.boxes)| + 1
  {
    var all := T.Flatten(cs);
    var cargo := Items(Heading(Blank(), f, cs, pw, split, localDate), ph, pw, HeadingEnd(f), all, split, |all|);
    var band := Box(cargo.page, Fin(10.0), Fin(ItemsEnd(f, cs, ph)), Fin(FullWidth(pw)), Fin(8.0), true);
    BolBoxes(f, cs, pw, ph, split, localDate);
    GuardedAppend(cargo.boxes, [band]);
    assert Guarded([band]) == [band];
  }

  /** Guarded, the document loses exactly one border for the heading and one per cargo line. */
  lemma BolGuardedCount(f: M.BolForm, cs: seq<M.Container>, pw: real, ph: real, split: Splitter, localDate: string)
    ensures var boxes := BolDocument(f, cs, pw, ph, split, localDate).boxes;
      |Guarded(boxes)| + 1 + |T.Flatten(cs)| == |boxes|
  {
    var all, h := T.Flatten(cs), Heading(Blank(), f, cs, pw, split, localDate);
    HeadingGuarded(f, cs, pw, split, localDate);
    ItemsGuarded(h, ph, pw, HeadingEnd(f), all, split, |all|);
    BandGuarded(f, cs, pw, ph, split, localDate);
    BolDocumentShape(f, cs, pw, ph, split, localDate);
  }

  /** The document `generateBOLPDF` draws once `drawBorder` skips NaN
      arguments, as the CMR template's does. */
  function CorrectedBolDocument(f: M.BolForm, cs: seq<M.Container>, pw: real, ph: real, split: Splitter,
                                localDate: string): Doc
  {
    var d := BolDocument(f, cs, pw, ph, split, localDate);
    d.(boxes := Guarded(d.boxes))
  }

  /** With the guard, jsPDF takes every rectangle, so the whole document is
      drawn: the same pages, texts and lines, every border of the trace that
      `rect` takes, and no other, so every border but the eighth sub-header
      cell and the eighth cell of each cargo line. */
  lemma CorrectedBolDrawn(f: M.BolForm, cs: seq<M.Container>, pw: real, ph: real, split: Splitter, localDate: string)
    ensures var r, d := CorrectedBolDocument(f, cs, pw, ph, split, localDate), BolDocument(f, cs, pw, ph, split, localDate);
      FirstRejected(r.boxes) == |r.boxes|
      && r.page == d.page && r.labels == d.labels && r.segments == d.segments
      && |r.boxes| + 1 + |T.Flatten(cs)| == |d.boxes|
      && forall b :: b in r.boxes <==> b in d.boxes && Accepted(b)
  {
    var r, d := CorrectedBolDocument(f, cs, pw, ph, split, localDate), BolDocument(f, cs, pw, ph, split, localDate);
    BolGuardedCount(f, cs, pw, ph, split, localDate);
    FirstRejectedAppend(r.boxes, []);
    assert r.boxes + [] == r.boxes;
    forall b
      ensures b in r.boxes <==> b in d.boxes && Accepted(b)
    {
      GuardedMembers(d.boxes, b);
    }
  }
}
