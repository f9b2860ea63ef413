/** `generateCMRPDF`: the layout of the CMR consignment note on the page.

    The template advances a cursor `currentY` band by band, lays out one
    12 mm row per cargo line with a page break before any row that starts
    below `pageHeight - 30`, and places the signatures near the bottom of
    the last page. Page width and height are parameters, and so is
    `splitTextToSize`, which breaks a text into the lines that fit a width.

    Each drawing method is specified by the function that maps the document
    drawn so far to the document it leaves; the lemmas state where things
    land. */
module CmrPdf {
  import opened Common
  import opened PdfTrace
  import M = CmrModel

  // ---- Fixed texts ------------------------------------------------------------------------

  const SenderHeading: string := "1. Expéditeur (nom, adresse, pays)"
  const ConsigneeHeading: string := "2. Destinataire (nom, adresse, pays)"
  const TakeoverHeading: string := "3. Lieu et date de prise en charge de la marchandise"
  const DeliveryHeading: string := "4. Lieu prévu pour la livraison"
  const CarrierHeading: string := "5. Transporteur (nom, adresse, pays)"
  const VehicleHeading: string := "8. Immatriculation du véhicule"
  const GoodsHeading: string := "9-12. Marchandises"
  const CodHeading: string := "13. Remboursement"
  const PaymentHeading: string := "16. A payer par"
  const AgreementsHeading: string := "Conventions particulières"
  const SenderSignature: string := "Signature de l'expéditeur"
  const CarrierSignature: string := "Signature du transporteur"
  const ConsigneeSignature: string := "Signature du destinataire"
  const TitleLine1: string := "CMR - CONVENTION RELATIVE AU CONTRAT DE TRANSPORT"
  const TitleLine2: string := "INTERNATIONAL DE MARCHANDISES PAR ROUTE"
  const PlaceLabel: string := "Lieu: "
  const DateLabel: string := "Date: "
  const NameLabel: string := "Nom: "
  const AddressLabel: string := "Adresse: "
  const CountryLabel: string := "Pays: "
  const VehicleLabel: string := "Véhicule: "
  const TrailerLabel: string := "Remorque: "
  const AmountLabel: string := "Montant: "
  const PaidBySenderLabel: string := "Expéditeur: "
  const PaidByConsigneeLabel: string := "Destinataire: "
  const PlaceOfSigningLabel: string := "Établi à: "
  const DateOfSigningLabel: string := "Le: "

  // ---- The guarded border -----------------------------------------------------------------

  /** The `drawBorder` guard: finite arguments and a positive size. */
  predicate Drawable(x: Num, y: Num, w: Num, h: Num)
  {
    x.Fin? && y.Fin? && w.Fin? && h.Fin? && w.v > 0.0 && h.v > 0.0
  }

  /** `drawBorder(x, y, w, h)`. */
  function Border(d: Doc, x: Num, y: Num, w: Num, h: Num): Doc
  {
    if Drawable(x, y, w, h) then d.Rect(x, y, w, h, false) else d
  }

  /** `drawBorder` draws nothing when an argument is NaN or the size is not
      positive, and otherwise exactly the one rectangle it is given. */
  lemma BorderGuard(d: Doc, x: Num, y: Num, w: Num, h: Num)
    ensures var r := Border(d, x, y, w, h);
      r.page == d.page && r.labels == d.labels && r.segments == d.segments
      && r.boxes[..|d.boxes|] == d.boxes
      && (|r.boxes| == |d.boxes| <==> x.NaN? || y.NaN? || w.NaN? || h.NaN? || w.v <= 0.0 || h.v <= 0.0)
      && (|r.boxes| != |d.boxes| ==> |r.boxes| == |d.boxes| + 1 && r.boxes[|d.boxes|] == Box(d.page, x, y, w, h, false))
  {
  }

  method DrawBorder(pdf: Pdf, x: Num, y: Num, w: Num, h: Num)
    modifies pdf
    ensures pdf.doc == Border(old(pdf.doc), x, y, w, h)
  {
    if x.NaN? || y.NaN? || w.NaN? || h.NaN? || w.v <= 0.0 || h.v <= 0.0 {
      return;
    }
    pdf.Rect(x, y, w, h, false);
  }

  // ---- The goods table columns --------------------------------------------------------------

  const ColWidths: seq<real> := [35.0, 35.0, 25.0, 25.0, 70.0]

  const TableHeaders: seq<string> := ["Nombre et nature des colis", "Marques et numéros", "Poids brut (kg)",
    "Volume (m³)", "Désignation de la marchandise"]

  /** The left edge of column `i`: `headerX` and `rowX` after `i` columns. */
  function ColX(i: nat): real
    requires i <= 5
  {
    if i == 0 then 10.0 else ColX(i - 1) + ColWidths[i - 1]
  }

  /** The five columns start at 10, 45, 80, 105 and 130, abut, and the last
      ends at 200. */
  lemma ColumnGeometry()
    ensures ColX(0) == 10.0 && ColX(1) == 45.0 && ColX(2) == 80.0 && ColX(3) == 105.0 && ColX(4) == 130.0
    ensures ColX(5) == 200.0
    ensures forall i :: 0 <= i < 5 ==> ColX(i) + ColWidths[i] == ColX(i + 1) && ColWidths[i] > 0.0
  {
  }

  /** Cell `i` of a table row at `y`, `h` high: its border and its text `dy`
      lower. Both loops guard a cell on a positive width and height; the
      widths are the constants above and the heights the constants 8 and 12,
      so every cell is drawn, and `drawBorder` draws its rectangle. */
  function Cell(d: Doc, y: real, h: real, dy: real, texts: seq<seq<string>>, i: nat): Doc
    requires i < 5 && |texts| == 5 && h > 0.0
  {
    d.Rect(Fin(ColX(i)), Fin(y), Fin(ColWidths[i]), Fin(h), false).Text(texts[i], ColX(i) + 1.0, y + dy)
  }

  /** The first `n` cells of a row. */
  function CellsUpTo(d: Doc, y: real, h: real, dy: real, texts: seq<seq<string>>, n: nat): Doc
    requires n <= 5 && |texts| == 5 && h > 0.0
  {
    if n == 0 then d else Cell(CellsUpTo(d, y, h, dy, texts, n - 1), y, h, dy, texts, n - 1)
  }

  /** A row appends one border and one text per cell, in column order, and
      changes nothing else. */
  lemma {:induction false} CellsLayout(d: Doc, y: real, h: real, dy: real, texts: seq<seq<string>>, n: nat)
    requires n <= 5 && |texts| == 5 && h > 0.0
    ensures var r := CellsUpTo(d, y, h, dy, texts, n);
      r.page == d.page && r.segments == d.segments
      && |r.boxes| == |d.boxes| + n && r.boxes[..|d.boxes|] == d.boxes
      && |r.labels| == |d.labels| + n && r.labels[..|d.labels|] == d.labels
      && (forall c :: 0 <= c < n ==>
            r.boxes[|d.boxes| + c] == Box(d.page, Fin(ColX(c)), Fin(y), Fin(ColWidths[c]), Fin(h), false))
      && (forall c :: 0 <= c < n ==> r.labels[|d.labels| + c] == Label(d.page, ColX(c) + 1.0, y + dy, texts[c]))
  {
    if n > 0 {
      CellsLayout(d, y, h, dy, texts, n - 1);
      var p := CellsUpTo(d, y, h, dy, texts, n - 1);
      var r := CellsUpTo(d, y, h, dy, texts, n);
      assert r.boxes == p.boxes + [Box(d.page, Fin(ColX(n - 1)), Fin(y), Fin(ColWidths[n - 1]), Fin(h), false)];
      assert r.labels == p.labels + [Label(d.page, ColX(n - 1) + 1.0, y + dy, texts[n - 1])];
    }
  }

  /** One row of cells: the header loop and the cargo row loop. The source
      passes the constant heights 8 and 12. */
  method Cells(pdf: Pdf, y: real, h: real, dy: real, texts: seq<seq<string>>)
    requires |texts| == 5 && h > 0.0
    modifies pdf
    ensures pdf.doc == CellsUpTo(old(pdf.doc), y, h, dy, texts, 5)
  {
    var x := 10.0;
    var i := 0;
    while i < 5
      invariant 0 <= i <= 5 && x == ColX(i)
      invariant pdf.doc == CellsUpTo(old(pdf.doc), y, h, dy, texts, i)
    {
      ColumnGeometry();
      if ColWidths[i] > 0.0 && h > 0.0 {
        DrawBorder(pdf, Fin(x), Fin(y), Fin(ColWidths[i]), Fin(h));
        pdf.Text(texts[i], x + 1.0, y + dy);
      }
      x := x + ColWidths[i];
      i := i + 1;
    }
  }

  // ---- The header bands ---------------------------------------------------------------------

  function Title(d: Doc, pw: real): Doc
  {
    d.Text(One(TitleLine1), pw / 2.0, 10.0)
     .Text(One(TitleLine2), pw / 2.0, 16.0)
  }

  /** Sections 1 and 2: sender and consignee side by side, 20 mm high. */
  function PartyBand(d: Doc, f: M.CmrForm, pw: real, y: real): Doc
  {
    var hw, top := HalfWidth(pw), y + 5.0;
    var d1 := d.Text(One(SenderHeading), 10.0, y);
    var d2 := if hw > 0.0 then Border(d1, Fin(10.0), Fin(top), Fin(hw), Fin(20.0)) else d1;
    var d3 := d2.Text(One(Or(f.senderName, "")), 12.0, top + 4.0)
                .Text(One(Or(f.senderAddress, "")), 12.0, top + 8.0)
                .Text(One(Or(f.senderCountry, "")), 12.0, top + 12.0)
                .Text(One(ConsigneeHeading), 10.0 + hw, top - 5.0);
    var d4 := if hw > 0.0 then Border(d3, Fin(10.0 + hw), Fin(top), Fin(hw), Fin(20.0)) else d3;
    d4.Text(One(Or(f.consigneeName, "")), 12.0 + hw, top + 4.0)
      .Text(One(Or(f.consigneeAddress, "")), 12.0 + hw, top + 8.0)
      .Text(One(Or(f.consigneeCountry, "")), 12.0 + hw, top + 12.0)
  }

  method DrawPartyBand(pdf: Pdf, f: M.CmrForm, pw: real, y: real) returns (y': real)
    modifies pdf
    ensures y' == y + 30.0
    ensures pdf.doc == PartyBand(old(pdf.doc), f, pw, y)
  {
    pdf.Text(One(SenderHeading), 10.0, y);
    var top := y + 5.0;
    var hw := HalfWidth(pw);
    if hw > 0.0 && 20.0 > 0.0 {
      DrawBorder(pdf, Fin(10.0), Fin(top), Fin(hw), Fin(20.0));
    }
    var textY := top + 4.0;
    pdf.Text(One(Or(f.senderName, "")), 12.0, textY);
    textY := textY + 4.0;
    pdf.Text(One(Or(f.senderAddress, "")), 12.0, textY);
    textY := textY + 4.0;
    pdf.Text(One(Or(f.senderCountry, "")), 12.0, textY);
    pdf.Text(One(ConsigneeHeading), 10.0 + hw, top - 5.0);
    if hw > 0.0 && 20.0 > 0.0 {
      DrawBorder(pdf, Fin(10.0 + hw), Fin(top), Fin(hw), Fin(20.0));
    }
    textY := top + 4.0;
    pdf.Text(One(Or(f.consigneeName, "")), 12.0 + hw, textY);
    textY := textY + 4.0;
    pdf.Text(One(Or(f.consigneeAddress, "")), 12.0 + hw, textY);
    textY := textY + 4.0;
    pdf.Text(One(Or(f.consigneeCountry, "")), 12.0 + hw, textY);
    y' := top + 20.0 + 5.0;
  }

  /** Sections 3 and 4: taking over and delivery, 15 mm high. */
  function PlaceBand(d: Doc, f: M.CmrForm, pw: real, y: real): Doc
  {
    var hw, top := HalfWidth(pw), y + 5.0;
    var d1 := d.Text(One(TakeoverHeading), 10.0, y);
    var d2 := if hw > 0.0 then Border(d1, Fin(10.0), Fin(top), Fin(hw), Fin(15.0)) else d1;
    var d3 := d2.Text(One(PlaceLabel + Or(f.placeOfTakeover, "")), 12.0, top + 5.0)
                .Text(One(DateLabel + Or(f.dateOfTakeover, "")), 12.0, top + 10.0)
                .Text(One(DeliveryHeading), 10.0 + hw, top - 5.0);
    var d4 := if hw > 0.0 then Border(d3, Fin(10.0 + hw), Fin(top), Fin(hw), Fin(15.0)) else d3;
    d4.Text(One(Or(f.placeOfDelivery, "")), 12.0 + hw, top + 8.0)
  }

  method DrawPlaceBand(pdf: Pdf, f: M.CmrForm, pw: real, y: real) returns (y': real)
    modifies pdf
    ensures y' == y + 25.0
    ensures pdf.doc == PlaceBand(old(pdf.doc), f, pw, y)
  {
    pdf.Text(One(TakeoverHeading), 10.0, y);
    var top := y + 5.0;
    var hw := HalfWidth(pw);
    if hw > 0.0 && 15.0 > 0.0 {
      DrawBorder(pdf, Fin(10.0), Fin(top), Fin(hw), Fin(15.0));
    }
    pdf.Text(One(PlaceLabel + Or(f.placeOfTakeover, "")), 12.0, top + 5.0);
    pdf.Text(One(DateLabel + Or(f.dateOfTakeover, "")), 12.0, top + 10.0);
    pdf.Text(One(DeliveryHeading), 10.0 + hw, top - 5.0);
    if hw > 0.0 && 15.0 > 0.0 {
      DrawBorder(pdf, Fin(10.0 + hw), Fin(top), Fin(hw), Fin(15.0));
    }
    pdf.Text(One(Or(f.placeOfDelivery, "")), 12.0 + hw, top + 8.0);
    y' := top + 15.0 + 5.0;
  }

  /** Section 5: the carrier, full width, 20 mm high. */
  function CarrierBand(d: Doc, f: M.CmrForm, pw: real, y: real): Doc
  {
    var fw, top := FullWidth(pw), y + 5.0;
    var d1 := d.Text(One(CarrierHeading), 10.0, y);
    var d2 := if fw > 0.0 then Border(d1, Fin(10.0), Fin(top), Fin(fw), Fin(20.0)) else d1;
    d2.Text(One(NameLabel + Or(f.carrierName, "")), 12.0, top + 4.0)
      .Text(One(AddressLabel + Or(f.carrierAddress, "")), 12.0, top + 8.0)
      .Text(One(CountryLabel + Or(f.carrierCountry, "")), 12.0, top + 12.0)
  }

  method DrawCarrierBand(pdf: Pdf, f: M.CmrForm, pw: real, y: real) returns (y': real)
    modifies pdf
    ensures y' == y + 30.0
    ensures pdf.doc == CarrierBand(old(pdf.doc), f, pw, y)
  {
    pdf.Text(One(CarrierHeading), 10.0, y);
    var top := y + 5.0;
    var fw := FullWidth(pw);
    if fw > 0.0 && 20.0 > 0.0 {
      DrawBorder(pdf, Fin(10.0), Fin(top), Fin(fw), Fin(20.0));
    }
    var textY := top + 4.0;
    pdf.Text(One(NameLabel + Or(f.carrierName, "")), 12.0, textY);
    textY := textY + 4.0;
    pdf.Text(One(AddressLabel + Or(f.carrierAddress, "")), 12.0, textY);
    textY := textY + 4.0;
    pdf.Text(One(CountryLabel + Or(f.carrierCountry, "")), 12.0, textY);
    y' := top + 20.0 + 5.0;
  }

  /** Section 8: the vehicle, full width, 15 mm high. */
  function VehicleBand(d: Doc, f: M.CmrForm, pw: real, y: real): Doc
  {
    var fw, top := FullWidth(pw), y + 5.0;
    var d1 := d.Text(One(VehicleHeading), 10.0, y);
    var d2 := if fw > 0.0 then Border(d1, Fin(10.0), Fin(top), Fin(fw), Fin(15.0)) else d1;
    d2.Text(One(VehicleLabel + Or(f.vehicleRegistration, "")), 12.0, top + 5.0)
      .Text(One(TrailerLabel + Or(f.trailerRegistration, "")), 12.0, top + 10.0)
  }

  method DrawVehicleBand(pdf: Pdf, f: M.CmrForm, pw: real, y: real) returns (y': real)
    modifies pdf
    ensures y' == y + 25.0
    ensures pdf.doc == VehicleBand(old(pdf.doc), f, pw, y)
  {
    pdf.Text(One(VehicleHeading), 10.0, y);
    var top := y + 5.0;
    var fw := FullWidth(pw);
    if fw > 0.0 && 15.0 > 0.0 {
      DrawBorder(pdf, Fin(10.0), Fin(top), Fin(fw), Fin(15.0));
    }
    pdf.Text(One(VehicleLabel + Or(f.vehicleRegistration, "")), 12.0, top + 5.0);
    pdf.Text(One(TrailerLabel + Or(f.trailerRegistration, "")), 12.0, top + 10.0);
    y' := top + 15.0 + 5.0;
  }

  /** The header cell texts, one line each. */
  function HeaderTexts(): (r: seq<seq<string>>)
    ensures |r| == 5
  {
    seq(5, i requires 0 <= i < 5 => One(TableHeaders[i]))
  }

  /** The title and sections 1 to 5 and 8, down to the goods table at 141. */
  function Heading(d: Doc, f: M.CmrForm, pw: real): Doc
  {
    VehicleBand(CarrierBand(PlaceBand(PartyBand(Title(d, pw), f, pw, 31.0), f, pw, 61.0), f, pw, 86.0), f, pw, 116.0)
  }

  method DrawHeading(pdf: Pdf, f: M.CmrForm, pw: real) returns (y: real)
    modifies pdf
    ensures y == 141.0
    ensures pdf.doc == Heading(old(pdf.doc), f, pw)
  {
    y := 10.0;
    pdf.Text(One(TitleLine1), pw / 2.0, y);
    y := y + 6.0;
    pdf.Text(One(TitleLine2), pw / 2.0, y);
    y := y + 15.0;
    assert y == 31.0 && pdf.doc == Title(old(pdf.doc), pw);
    y := DrawPartyBand(pdf, f, pw, y);
    assert y == 61.0;
    y := DrawPlaceBand(pdf, f, pw, y);
    assert y == 86.0;
    y := DrawCarrierBand(pdf, f, pw, y);
    assert y == 116.0;
    y := DrawVehicleBand(pdf, f, pw, y);
  }

  /** Sections 9 to 12: the goods heading and the header row of the table, 8 mm high. */
  function TableHeader(d: Doc, y: real): Doc
  {
    CellsUpTo(d.Text(One(GoodsHeading), 10.0, y), y + 5.0, 8.0, 5.0, HeaderTexts(), 5)
  }

  method DrawTableHeader(pdf: Pdf, y0: real) returns (y: real)
    modifies pdf
    ensures y == y0 + 13.0
    ensures pdf.doc == TableHeader(old(pdf.doc), y0)
  {
    y := y0;
    pdf.Text(One(GoodsHeading), 10.0, y);
    y := y + 5.0;
    Cells(pdf, y, 8.0, 5.0, HeaderTexts());
    y := y + 8.0;
  }

  /** The borders of the bands above the table: sender and consignee side by
      side, 20 mm high; taking over and delivery side by side, 15 mm high;
      the carrier and the vehicle at full width. */
  function BandBoxes(pw: real): seq<Box>
  {
    var hw, fw := HalfWidth(pw), FullWidth(pw);
    [Box(1, Fin(10.0), Fin(36.0), Fin(hw), Fin(20.0), false), Box(1, Fin(10.0 + hw), Fin(36.0), Fin(hw), Fin(20.0), false),
      Box(1, Fin(10.0), Fin(66.0), Fin(hw), Fin(15.0), false), Box(1, Fin(10.0 + hw), Fin(66.0), Fin(hw), Fin(15.0), false),
      Box(1, Fin(10.0), Fin(91.0), Fin(fw), Fin(20.0), false), Box(1, Fin(10.0), Fin(121.0), Fin(fw), Fin(15.0), false)]
  }

  /** On a page wider than 20 mm the heading and the table header of a blank
      document stay on page 1 and draw the six band borders, each pair
      spanning the page between the 10 mm margins, and then the five header
      cells, 8 mm high at y = 146 in their columns; they draw 28 texts, the
      last five the column headers 5 mm under the top of the cells. */
  lemma HeadingLayout(f: M.CmrForm, pw: real)
    requires pw > 20.0
    ensures var r := TableHeader(Heading(Blank(), f, pw), 141.0);
      r.page == 1 && r.segments == []
      && |r.boxes| == 11 && r.boxes[..6] == BandBoxes(pw)
      && (forall c :: 0 <= c < 5 ==>
            r.boxes[6 + c] == Box(1, Fin(ColX(c)), Fin(146.0), Fin(ColWidths[c]), Fin(8.0), false))
      && |r.labels| == 28
      && (forall c :: 0 <= c < 5 ==> r.labels[23 + c] == Label(1, ColX(c) + 1.0, 151.0, [TableHeaders[c]]))
    ensures forall i :: 0 <= i < 6 ==> BandBoxes(pw)[i].x.v + BandBoxes(pw)[i].w.v <= pw - 10.0
    ensures BandBoxes(pw)[0].x.v + BandBoxes(pw)[0].w.v == BandBoxes(pw)[1].x.v
    ensures BandBoxes(pw)[1].x.v + BandBoxes(pw)[1].w.v == pw - 10.0
  {
    var d1 := Heading(Blank(), f, pw);
    HeadingBands(f, pw);
    var d2 := d1.Text(One(GoodsHeading), 10.0, 141.0);
    CellsLayout(d2, 146.0, 8.0, 5.0, HeaderTexts(), 5);
  }

  /** The bands above the table draw the six band borders and 22 texts on page 1. */
  lemma HeadingBands(f: M.CmrForm, pw: real)
    requires pw > 20.0
    ensures var d := Heading(Blank(), f, pw);
      d.page == 1 && d.segments == [] && d.boxes == BandBoxes(pw) && |d.labels| == 22
  {
    var hw, fw := HalfWidth(pw), FullWidth(pw);
    var d0 := Title(Blank(), pw);
    var d1 := PartyBand(d0, f, pw, 31.0);
    assert d1.boxes == [Box(1, Fin(10.0), Fin(36.0), Fin(hw), Fin(20.0), false), Box(1, Fin(10.0 + hw), Fin(36.0), Fin(hw), Fin(20.0), false)];
    var d2 := PlaceBand(d1, f, pw, 61.0);
    assert d2.boxes == d1.boxes + [Box(1, Fin(10.0), Fin(66.0), Fin(hw), Fin(15.0), false), Box(1, Fin(10.0 + hw), Fin(66.0), Fin(hw), Fin(15.0), false)];
    var d3 := CarrierBand(d2, f, pw, 86.0);
    assert d3.boxes == d2.boxes + [Box(1, Fin(10.0), Fin(91.0), Fin(fw), Fin(20.0), false)];
    var d4 := VehicleBand(d3, f, pw, 116.0);
    assert d4.boxes == d3.boxes + [Box(1, Fin(10.0), Fin(121.0), Fin(fw), Fin(15.0), false)];
  }

  // ---- The cargo rows -----------------------------------------------------------------------

  /** The quantity, marks, weight, volume and description of a cargo line. */
  function RowData(item: M.CargoItem): seq<string>
  {
    [Or(item.quantity, ""), Or(item.marks, ""), Or(item.weight, ""), Or(item.volume, ""), Or(item.description, "")]
  }

  /** Each cell's text broken into the lines that fit its width less 2 mm. */
  function RowTexts(item: M.CargoItem, split: Splitter): seq<seq<string>>
  {
    [split(Or(item.quantity, ""), ColWidths[0] - 2.0), split(Or(item.marks, ""), ColWidths[1] - 2.0),
     split(Or(item.weight, ""), ColWidths[2] - 2.0), split(Or(item.volume, ""), ColWidths[3] - 2.0),
     split(Or(item.description, ""), ColWidths[4] - 2.0)]
  }

  /** Each cell's text is the field broken into the lines that fit the
      column less 2 mm. */
  lemma RowTextsMeaning(item: M.CargoItem, split: Splitter)
    ensures |RowTexts(item, split)| == 5
    ensures forall i :: 0 <= i < 5 ==> RowTexts(item, split)[i] == split(RowData(item)[i], ColWidths[i] - 2.0)
  {
  }

  /** One cargo row with the cursor at `y`: a new page first when the row
      would start below `pageHeight - 30`, then the five cells, 12 mm high. */
  function Row(d: Doc, ph: real, y: real, item: M.CargoItem, split: Splitter): Doc
  {
    var d1 := if y > ph - 30.0 then d.NewPage() else d;
    CellsUpTo(d1, RowTop(ph, y), 12.0, 4.0, RowTexts(item, split), 5)
  }

  /** The first `n` cargo rows, the cursor starting at `y0`. */
  function Rows(d: Doc, ph: real, y0: real, items: seq<M.CargoItem>, split: Splitter, n: nat): Doc
    requires n <= |items|
  {
    if n == 0 then d else Row(Rows(d, ph, y0, items, split, n - 1), ph, CursorAfter(ph, y0, 12.0, n - 1), items[n - 1], split)
  }

  /** The body of the `cargoItems.forEach` loop. */
  method DrawRow(pdf: Pdf, ph: real, y0: real, item: M.CargoItem, split: Splitter) returns (y: real)
    modifies pdf
    ensures y == RowTop(ph, y0) + 12.0
    ensures pdf.doc == Row(old(pdf.doc), ph, y0, item, split)
  {
    y := y0;
    if y > ph - 30.0 {
      pdf.AddPage();
      y := 20.0;
    }
    assert y == RowTop(ph, y0);
    Cells(pdf, y, 12.0, 4.0, RowTexts(item, split));
    y := y + 12.0;
  }

  /** The `cargoItems.forEach` loop. */
  method DrawRows(pdf: Pdf, items: seq<M.CargoItem>, ph: real, split: Splitter, y0: real) returns (y: real)
    modifies pdf
    ensures y == CursorAfter(ph, y0, 12.0, |items|)
    ensures pdf.doc == Rows(old(pdf.doc), ph, y0, items, split, |items|)
  {
    y := y0;
    var k := 0;
    while k < |items|
      invariant 0 <= k <= |items|
      invariant y == CursorAfter(ph, y0, 12.0, k)
      invariant pdf.doc == Rows(old(pdf.doc), ph, y0, items, split, k)
    {
      RowsNext(old(pdf.doc), ph, y0, items, split, k);
      y := DrawRow(pdf, ph, y, items[k], split);
      k := k + 1;
    }
  }

  /** Each row starts where the cursor stands, or at 20 on a new page when the
      cursor is below `pageHeight - 30`; it ends 12 mm lower, and on a page of
      at least 50 mm at or above `pageHeight - 18`, so it never runs off its
      page. */
  lemma RowFits(ph: real, y0: real, k: nat)
    requires ph >= 50.0
    ensures CursorAfter(ph, y0, 12.0, k + 1) == RowTop(ph, CursorAfter(ph, y0, 12.0, k)) + 12.0
    ensures RowTop(ph, CursorAfter(ph, y0, 12.0, k)) + 12.0 <= ph - 18.0
    ensures PagesAdded(ph, y0, 12.0, k + 1) == PagesAdded(ph, y0, 12.0, k) + (if CursorAfter(ph, y0, 12.0, k) > ph - 30.0 then 1 else 0)
    ensures CursorAfter(ph, y0, 12.0, k) > ph - 30.0 ==> RowTop(ph, CursorAfter(ph, y0, 12.0, k)) == 20.0
    ensures CursorAfter(ph, y0, 12.0, k) <= ph - 30.0 ==> RowTop(ph, CursorAfter(ph, y0, 12.0, k)) == CursorAfter(ph, y0, 12.0, k)
  {
  }

  /** On a page of at least 184 mm the first cargo row is drawn at 154, right
      under the header, on page 1. */
  lemma FirstRow(ph: real)
    requires ph >= 184.0
    ensures RowTop(ph, CursorAfter(ph, 154.0, 12.0, 0)) == 154.0 && PagesAdded(ph, 154.0, 12.0, 1) == 0
  {
  }

  /** One row leaves the page alone or adds one, and appends five borders
      and five texts. */
  lemma RowStep(d: Doc, ph: real, y: real, item: M.CargoItem, split: Splitter)
    ensures var r := Row(d, ph, y, item, split);
      r.page == d.page + (if y > ph - 30.0 then 1 else 0) && r.segments == d.segments
      && |r.boxes| == |d.boxes| + 5 && r.boxes[..|d.boxes|] == d.boxes
      && |r.labels| == |d.labels| + 5 && r.labels[..|d.labels|] == d.labels
  {
    var d1 := if y > ph - 30.0 then d.NewPage() else d;
    CellsLayout(d1, RowTop(ph, y), 12.0, 4.0, RowTexts(item, split), 5);
  }

  /** Cell `c` of one row: its border in column `c`, 12 mm high at the row's
      top, and its text 4 mm lower, on the row's page. */
  lemma RowCell(d: Doc, ph: real, y: real, item: M.CargoItem, split: Splitter, c: nat)
    requires c < 5
    ensures var r := Row(d, ph, y, item, split);
      |d.boxes| + c < |r.boxes| && |d.labels| + c < |r.labels|
      && r.boxes[|d.boxes| + c] == Box(r.page, Fin(ColX(c)), Fin(RowTop(ph, y)), Fin(ColWidths[c]), Fin(12.0), false)
      && r.labels[|d.labels| + c] == Label(r.page, ColX(c) + 1.0, RowTop(ph, y) + 4.0, RowTexts(item, split)[c])
  {
    var d1 := if y > ph - 30.0 then d.NewPage() else d;
    CellsLayout(d1, RowTop(ph, y), 12.0, 4.0, RowTexts(item, split), 5);
  }

  /** The first `k + 1` rows are the first `k` and then row `k`. */
  lemma RowsNext(d: Doc, ph: real, y0: real, items: seq<M.CargoItem>, split: Splitter, k: nat)
    requires k < |items|
    ensures Rows(d, ph, y0, items, split, k + 1)
            == Row(Rows(d, ph, y0, items, split, k), ph, CursorAfter(ph, y0, 12.0, k), items[k], split)
  {
  }

  /** The first `n` rows go on page `page + PagesAdded`, append five borders
      and five texts per cargo line and draw nothing else. */
  lemma {:induction false} RowsCount(d: Doc, ph: real, y0: real, items: seq<M.CargoItem>, split: Splitter, n: nat)
    requires n <= |items|
    ensures var r := Rows(d, ph, y0, items, split, n);
      r.page == d.page + PagesAdded(ph, y0, 12.0, n) && r.segments == d.segments
      && |r.boxes| == |d.boxes| + 5 * n && |r.labels| == |d.labels| + 5 * n && Extends(d, r)
  {
    if n > 0 {
      RowsCount(d, ph, y0, items, split, n - 1);
      var p := Rows(d, ph, y0, items, split, n - 1);
      RowStep(p, ph, CursorAfter(ph, y0, 12.0, n - 1), items[n - 1], split);
      ExtendsTransitive(d, p, Rows(d, ph, y0, items, split, n));
    }
  }

  /** Later rows only append: the first `m` rows are extended by the first `n`. */
  lemma {:induction false} RowsPrefix(d: Doc, ph: real, y0: real, items: seq<M.CargoItem>, split: Splitter,
                                      m: nat, n: nat)
    requires m <= n <= |items|
    ensures Extends(Rows(d, ph, y0, items, split, m), Rows(d, ph, y0, items, split, n))
  {
    if m < n {
      RowsPrefix(d, ph, y0, items, split, m, n - 1);
      var q := Rows(d, ph, y0, items, split, n - 1);
      RowStep(q, ph, CursorAfter(ph, y0, 12.0, n - 1), items[n - 1], split);
      ExtendsTransitive(Rows(d, ph, y0, items, split, m), q, Rows(d, ph, y0, items, split, n));
    }
  }

  /** Cell `c` of row `k` right after row `k` is drawn. */
  lemma RowsBoxNow(d: Doc, ph: real, y0: real, items: seq<M.CargoItem>, split: Splitter, k: nat, c: nat)
    requires k < |items| && c < 5
    ensures var r, i := Rows(d, ph, y0, items, split, k + 1), |d.boxes| + 5 * k + c;
      i < |r.boxes|
      && r.boxes[i] == Box(d.page + PagesAdded(ph, y0, 12.0, k + 1), Fin(ColX(c)), Fin(RowTop(ph, CursorAfter(ph, y0, 12.0, k))),
                           Fin(ColWidths[c]), Fin(12.0), false)
  {
    var before, yk := Rows(d, ph, y0, items, split, k), CursorAfter(ph, y0, 12.0, k);
    assert PagesAdded(ph, y0, 12.0, k + 1) == PagesAdded(ph, y0, 12.0, k) + Break(ph, yk);
    RowsNext(d, ph, y0, items, split, k);
    RowsCount(d, ph, y0, items, split, k);
    RowStep(before, ph, yk, items[k], split);
    RowCell(before, ph, yk, items[k], split, c);
  }

  lemma {:induction false} RowsBox(d: Doc, ph: real, y0: real, items: seq<M.CargoItem>, split: Splitter, n: nat, k: nat, c: nat)
    requires k < n <= |items| && c < 5
    ensures var r, i := Rows(d, ph, y0, items, split, n), |d.boxes| + 5 * k + c;
      i < |r.boxes|
      && r.boxes[i] == Box(d.page + PagesAdded(ph, y0, 12.0, k + 1), Fin(ColX(c)), Fin(RowTop(ph, CursorAfter(ph, y0, 12.0, k))),
                           Fin(ColWidths[c]), Fin(12.0), false)
  {
    if n == k + 1 {
      RowsBoxNow(d, ph, y0, items, split, k, c);
    } else {
      RowsBox(d, ph, y0, items, split, n - 1, k, c);
      var p := Rows(d, ph, y0, items, split, n - 1);
      RowStep(p, ph, CursorAfter(ph, y0, 12.0, n - 1), items[n - 1], split);
      ExtendsAt(p, Rows(d, ph, y0, items, split, n), |d.boxes| + 5 * k + c);
    }
  }

  // ---- Cash on delivery, payment and special agreements -------------------------------------

  function AgreementLines(f: M.CmrForm, pw: real, split: Splitter): seq<string>
  {
    split(f.specialAgreements, FullWidth(pw) - 4.0)
  }

  /** The cursor after the blocks below the goods table, which start 10 mm
      under the last row. */
  function NotesEnd(f: M.CmrForm, pw: real, split: Splitter, y: real): real
  {
    y + 10.0 + (if f.codAmount != "" then 15.0 else 0.0) + 15.0
    + (if f.specialAgreements != "" then 4.0 * |AgreementLines(f, pw, split)| as real + 10.0 else 0.0)
  }

  /** Sections 13 and 16 and the special agreements. */
  function Notes(d: Doc, f: M.CmrForm, pw: real, split: Splitter, y: real): Doc
  {
    var codY := y + 10.0;
    var d1 := if f.codAmount != "" then
        d.Text(One(CodHeading), 10.0, codY)
         .Text(One(AmountLabel + f.codAmount + " " + f.codCurrency), 12.0, codY + 5.0)
      else d;
    var paidY := codY + (if f.codAmount != "" then 15.0 else 0.0);
    var d2 := d1.Text(One(PaymentHeading), 10.0, paidY)
                .Text(One(PaidBySenderLabel + CheckMark(f.paidBySender)), 12.0, paidY + 5.0)
                .Text(One(PaidByConsigneeLabel + CheckMark(f.paidByConsignee)), 80.0, paidY + 5.0);
    var agreeY := paidY + 15.0;
    if f.specialAgreements != "" then
      d2.Text(One(AgreementsHeading), 10.0, agreeY)
        .Text(AgreementLines(f, pw, split), 12.0, agreeY + 5.0)
    else d2
  }

  method DrawNotes(pdf: Pdf, f: M.CmrForm, pw: real, split: Splitter, y0: real) returns (y: real)
    modifies pdf
    ensures y == NotesEnd(f, pw, split, y0)
    ensures pdf.doc == Notes(old(pdf.doc), f, pw, split, y0)
  {
    y := y0 + 10.0;
    if f.codAmount != "" {
      pdf.Text(One(CodHeading), 10.0, y);
      y := y + 5.0;
      pdf.Text(One(AmountLabel + f.codAmount + " " + f.codCurrency), 12.0, y);
      y := y + 10.0;
    }
    pdf.Text(One(PaymentHeading), 10.0, y);
    y := y + 5.0;
    pdf.Text(One(PaidBySenderLabel + CheckMark(f.paidBySender)), 12.0, y);
    pdf.Text(One(PaidByConsigneeLabel + CheckMark(f.paidByConsignee)), 80.0, y);
    y := y + 10.0;
    if f.specialAgreements != "" {
      pdf.Text(One(AgreementsHeading), 10.0, y);
      y := y + 5.0;
      var agreements := AgreementLines(f, pw, split);
      pdf.Text(agreements, 12.0, y);
      y := y + |agreements| as real * 4.0 + 5.0;
    }
  }

  /** The cash-on-delivery block is drawn, and takes 15 mm, exactly when an
      amount is given; the payment block always takes 15 mm; the special
      agreements take 4 mm a line plus 10 exactly when there are any, and
      show the agreements broken to the full width less 4 mm. Only texts are
      drawn, on the current page. */
  lemma NotesLayout(d: Doc, f: M.CmrForm, pw: real, split: Splitter, y: real)
    ensures NotesEnd(f, pw, split, y) - y - 25.0
      == (if f.codAmount != "" then 15.0 else 0.0)
        + (if f.specialAgreements != "" then 4.0 * |AgreementLines(f, pw, split)| as real + 10.0 else 0.0)
    ensures var r := Notes(d, f, pw, split, y);
      r.page == d.page && r.boxes == d.boxes && r.segments == d.segments
      && |r.labels| == |d.labels| + 3 + (if f.codAmount != "" then 2 else 0) + (if f.specialAgreements != "" then 2 else 0)
      && r.labels[..|d.labels|] == d.labels
      && (f.codAmount != "" <==> r.labels[|d.labels|].lines == One(CodHeading))
      && (f.specialAgreements != "" ==>
            r.labels[|r.labels| - 1] == Label(d.page, 12.0, NotesEnd(f, pw, split, y) - 5.0
              - 4.0 * |AgreementLines(f, pw, split)| as real, AgreementLines(f, pw, split)))
  {
    var r := Notes(d, f, pw, split, y);
    if f.codAmount == "" {
      assert r.labels[|d.labels|].lines == One(PaymentHeading);
      assert PaymentHeading[1] != CodHeading[1];
    }
  }

  // ---- Signatures ---------------------------------------------------------------------------

  function Max(a: real, b: real): real { if a < b then b else a }

  /** The page break before the signatures: when the cursor is below `pageHeight - 40`. */
  function SignatureBreak(ph: real, y: real): bool { y > ph - 40.0 }

  /** `Math.max(currentY, pageHeight - 35)` after the break. */
  function SignatureY(ph: real, y: real): real
  {
    Max(if SignatureBreak(ph, y) then 20.0 else y, ph - 35.0)
  }

  /** `(pageWidth - 30) / 3`. */
  function SignatureWidth(pw: real): real { (pw - 30.0) / 3.0 }

  const LegalFooter: string := "Cette lettre de voiture est soumise à la Convention relative au contrat "
    + "de transport international de marchandises par route (CMR)."

  /** The three signature boxes, `w` wide and 20 mm high, each under its caption. */
  function SignatureBoxes(d: Doc, pw: real, sy: real): Doc
  {
    var w := SignatureWidth(pw);
    var d1 := d.Text(One(SenderSignature), 10.0, sy + 8.0);
    var d2 := if w > 0.0 then Border(d1, Fin(10.0), Fin(sy + 10.0), Fin(w), Fin(20.0)) else d1;
    var d3 := d2.Text(One(CarrierSignature), 10.0 + w + 5.0, sy + 8.0);
    var d4 := if w > 0.0 then Border(d3, Fin(10.0 + w + 5.0), Fin(sy + 10.0), Fin(w), Fin(20.0)) else d3;
    var d5 := d4.Text(One(ConsigneeSignature), 10.0 + 2.0 * (w + 5.0), sy + 8.0);
    if w > 0.0 then Border(d5, Fin(10.0 + 2.0 * (w + 5.0)), Fin(sy + 10.0), Fin(w), Fin(20.0)) else d5
  }

  method DrawSignatureBoxes(pdf: Pdf, pw: real, sy: real)
    modifies pdf
    ensures pdf.doc == SignatureBoxes(old(pdf.doc), pw, sy)
  {
    var w := SignatureWidth(pw);
    pdf.Text(One(SenderSignature), 10.0, sy + 8.0);
    if w > 0.0 && 20.0 > 0.0 {
      DrawBorder(pdf, Fin(10.0), Fin(sy + 10.0), Fin(w), Fin(20.0));
    }
    pdf.Text(One(CarrierSignature), 10.0 + w + 5.0, sy + 8.0);
    if w > 0.0 && 20.0 > 0.0 {
      DrawBorder(pdf, Fin(10.0 + w + 5.0), Fin(sy + 10.0), Fin(w), Fin(20.0));
    }
    pdf.Text(One(ConsigneeSignature), 10.0 + 2.0 * (w + 5.0), sy + 8.0);
    if w > 0.0 && 20.0 > 0.0 {
      DrawBorder(pdf, Fin(10.0 + 2.0 * (w + 5.0)), Fin(sy + 10.0), Fin(w), Fin(20.0));
    }
  }

  /** The place and date of signing, the three signature boxes and the footer. */
  function Signatures(d: Doc, f: M.CmrForm, pw: real, ph: real, y: real): Doc
  {
    var d1 := if SignatureBreak(ph, y) then d.NewPage() else d;
    var sy := SignatureY(ph, y);
    var d2 := d1.Text(One(PlaceOfSigningLabel + Or(f.placeOfSigning, "")), 10.0, sy)
                .Text(One(DateOfSigningLabel + Or(f.dateOfSigning, "")), pw - 60.0, sy);
    SignatureBoxes(d2, pw, sy).Text(One(LegalFooter), 10.0, ph - 5.0)
  }

  method DrawSignatures(pdf: Pdf, f: M.CmrForm, pw: real, ph: real, y: real)
    modifies pdf
    ensures pdf.doc == Signatures(old(pdf.doc), f, pw, ph, y)
  {
    var currentY := y;
    if currentY > ph - 40.0 {
      pdf.AddPage();
      currentY := 20.0;
    }
    var sy := Max(currentY, ph - 35.0);
    pdf.Text(One(PlaceOfSigningLabel + Or(f.placeOfSigning, "")), 10.0, sy);
    pdf.Text(One(DateOfSigningLabel + Or(f.dateOfSigning, "")), pw - 60.0, sy);
    DrawSignatureBoxes(pdf, pw, sy);
    pdf.Text(One(LegalFooter), 10.0, ph - 5.0);
  }

  /** The signatures never go above the cursor (or above 20 on a new page),
      and on a page of at least 55 mm they sit at the fixed height
      `pageHeight - 35`. */
  lemma SignaturePlacement(ph: real, y: real)
    ensures SignatureY(ph, y) >= (if SignatureBreak(ph, y) then 20.0 else y)
    ensures SignatureY(ph, y) >= ph - 35.0
    ensures ph >= 55.0 ==> SignatureY(ph, y) == ph - 35.0
  {
  }

  /** On a page wider than 30 mm the signatures draw three boxes of width
      `(pageWidth - 30) / 3`, 20 mm high and 10 mm under the signature line,
      each 5 mm right of the one before, the last ending 10 mm from the right
      edge, on a new page exactly when the cursor is below `pageHeight - 40`. */
  lemma SignatureLayout(d: Doc, f: M.CmrForm, pw: real, ph: real, y: real)
    requires pw > 30.0
    ensures var r := Signatures(d, f, pw, ph, y);
      var sy, w, b := SignatureY(ph, y), SignatureWidth(pw), |d.boxes|;
      r.page == d.page + (if SignatureBreak(ph, y) then 1 else 0) && r.segments == d.segments
      && |r.boxes| == b + 3 && r.boxes[..b] == d.boxes
      && r.boxes[b] == Box(r.page, Fin(10.0), Fin(sy + 10.0), Fin(w), Fin(20.0), false)
      && r.boxes[b + 1] == Box(r.page, Fin(10.0 + w + 5.0), Fin(sy + 10.0), Fin(w), Fin(20.0), false)
      && r.boxes[b + 2] == Box(r.page, Fin(10.0 + 2.0 * (w + 5.0)), Fin(sy + 10.0), Fin(w), Fin(20.0), false)
      && (forall i :: b <= i < b + 2 ==> r.boxes[i].x.v + r.boxes[i].w.v + 5.0 == r.boxes[i + 1].x.v)
      && r.boxes[b + 2].x.v + r.boxes[b + 2].w.v == pw - 10.0
      && |r.labels| == |d.labels| + 6 && r.labels[|r.labels| - 1] == Label(r.page, 10.0, ph - 5.0, One(LegalFooter))
  {
  }

  // ---- The whole document -------------------------------------------------------------------

  /** `CMR_${carrierName || 'document'}_${date}.pdf`. */
  function CmrPdfFileName(f: M.CmrForm, today: string): string
  {
    "CMR_" + Or(f.carrierName, "document") + "_" + today + ".pdf"
  }

  /** The file name reads back the carrier's name, or `document` without one. */
  lemma CmrPdfFileNameReadsBack(f: M.CmrForm, today: string)
    ensures var n := CmrPdfFileName(f, today);
      n[..4] == "CMR_" && n[|n| - 4..] == ".pdf" && n[|n| - |today| - 5] == '_'
      && n[4..|n| - |today| - 5] == Or(f.carrierName, "document")
      && (f.carrierName != "" ==> n[4..|n| - |today| - 5] == f.carrierName)
  {
  }

  /** The cursor after the cargo rows. */
  function RowsEnd(items: seq<M.CargoItem>, ph: real): real { CursorAfter(ph, 154.0, 12.0, |items|) }

  /** The document `generateCMRPDF` draws. */
  function CmrDocument(f: M.CmrForm, items: seq<M.CargoItem>, pw: real, ph: real, split: Splitter): Doc
  {
    var rowsEnd := RowsEnd(items, ph);
    var d := Notes(Rows(TableHeader(Heading(Blank(), f, pw), 141.0), ph, 154.0, items, split, |items|), f, pw, split, rowsEnd);
    Signatures(d, f, pw, ph, NotesEnd(f, pw, split, rowsEnd))
  }

  /** `generateCMRPDF`: the drawn document and the name it is saved under;
      `today` is the date part of `new Date().toISOString()`. */
  method GenerateCmrPdf(f: M.CmrForm, items: seq<M.CargoItem>, pw: real, ph: real, split: Splitter, today: string)
    returns (pdf: Pdf, fileName: string)
    ensures fresh(pdf)
    ensures pdf.doc == CmrDocument(f, items, pw, ph, split)
    ensures fileName == CmrPdfFileName(f, today)
  {
    pdf := new Pdf();
    var y := DrawHeading(pdf, f, pw);
    y := DrawTableHeader(pdf, y);
    assert y == 154.0 && pdf.doc == TableHeader(Heading(Blank(), f, pw), 141.0);
    y := DrawRows(pdf, items, ph, split, y);
    assert y == RowsEnd(items, ph);
    y := DrawNotes(pdf, f, pw, split, y);
    DrawSignatures(pdf, f, pw, ph, y);
    fileName := CmrPdfFileName(f, today);
  }

  /** The document has one page for the heading and the rows on it, one more
      for each row that breaks, and one more when the signatures break; every
      cargo line takes five boxes and five texts, so the document holds
      11 + 5 * |items| + 3 boxes on a page wider than 30 mm. */
  lemma CmrDocumentShape(f: M.CmrForm, items: seq<M.CargoItem>, pw: real, ph: real, split: Splitter)
    requires pw > 30.0
    ensures var r := CmrDocument(f, items, pw, ph, split);
      r.page == 1 + PagesAdded(ph, 154.0, 12.0, |items|)
        + (if SignatureBreak(ph, NotesEnd(f, pw, split, RowsEnd(items, ph))) then 1 else 0)
      && |r.boxes| == 11 + 5 * |items| + 3 && r.segments == []
  {
    var h := TableHeader(Heading(Blank(), f, pw), 141.0);
    HeadingLayout(f, pw);
    var rs := Rows(h, ph, 154.0, items, split, |items|);
    RowsCount(h, ph, 154.0, items, split, |items|);
    var rowsEnd := RowsEnd(items, ph);
    var n := Notes(rs, f, pw, split, rowsEnd);
    NotesLayout(rs, f, pw, split, rowsEnd);
    SignatureLayout(n, f, pw, ph, NotesEnd(f, pw, split, rowsEnd));
  }
}
