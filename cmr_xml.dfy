/** The CMR consignment note as XML: the date formatting, the three totals
    and the document the exporter fills in, with its six optional sections. */
module CmrXml {
  import opened Common
  import opened Numeric
  import opened XmlEscape
  import opened XmlTree
  import M = CmrModel

  // ---- Dates ----------------------------------------------------------------------

  /** The UTC calendar day that `new Date(s)` denotes. */
  datatype CalendarDay = CalendarDay(year: nat, month: nat, day: nat)

  /** Why an export can fail: `toISOString` throws on an invalid date. */
  datatype ExportError = InvalidDate(input: string)

  /** `s` with zeros in front until it is `w` characters long. */
  function ZeroPad(s: string, w: nat): (r: string)
    ensures |r| == if |s| < w then w else |s|
    ensures NumberChars(s) ==> NumberChars(r)
    decreases w - |s|
  {
    if |s| < w then ZeroPad("0" + s, w) else s
  }

  /** The `YYYY-MM-DD` part of an ISO timestamp. A year past 9999 is written
      in the expanded form, a `+` and six digits. */
  function IsoDay(d: CalendarDay): (r: string)
    ensures |r| >= 10
    ensures d.year <= 9999 ==> NumberChars(r)
    ensures d.year > 9999 ==> |r| >= 13 && r[0] == '+' && NumberChars(r[1..])
  {
    var month, day := ZeroPad(NatToDigits(d.month), 2), ZeroPad(NatToDigits(d.day), 2);
    var rest := "-" + month + "-" + day;
    assert NumberChars(rest) by {
      NumberCharsConcat("-", month);
      NumberCharsConcat("-" + month, "-");
      NumberCharsConcat("-" + month + "-", day);
    }
    if d.year <= 9999 then
      NumberCharsConcat(ZeroPad(NatToDigits(d.year), 4), rest);
      ZeroPad(NatToDigits(d.year), 4) + rest
    else
      var year := ZeroPad(NatToDigits(d.year), 6);
      NumberCharsConcat(year, rest);
      assert ("+" + (year + rest))[1..] == year + rest;
      "+" + (year + rest)
  }

  lemma NumberCharsConcat(a: string, b: string)
    requires NumberChars(a) && NumberChars(b)
    ensures NumberChars(a + b)
  {
    assert forall i :: |a| <= i < |a + b| ==> (a + b)[i] == b[i - |a|];
  }

  /** `formatDate`: "" for an empty input; otherwise the date's day, or the
      exception `toISOString` raises when `calendar` finds no valid date. */
  function FormatDate(s: string, calendar: string -> Option<CalendarDay>): (r: Option<string>)
    ensures s == "" ==> r == Some("")
    ensures s != "" ==> (r.Some? <==> calendar(s).Some?)
    ensures r.Some? ==> NoSpecial(r.value)
  {
    if s == "" then Some("")
    else
      match calendar(s)
      case None => None
      case Some(d) =>
        var text := IsoDay(d);
        if d.year <= 9999 then
          NumberCharsPlain(text);
          Some(text)
        else
          NumberCharsPlain(text[1..]);
          assert forall i :: 1 <= i < |text| ==> text[i] == text[1..][i - 1];
          Some(text)
  }

  lemma NumberCharsPlain(s: string)
    requires NumberChars(s)
    ensures NoSpecial(s)
  {
    assert forall i :: 0 <= i < |s| ==> !IsSpecial(s[i]);
  }

  // ---- Totals -----------------------------------------------------------------------

  /** `parseInt(item.quantity || '0')` for each cargo line. */
  function PackageCounts(items: seq<M.CargoItem>): seq<Option<int>>
  {
    seq(|items|, i requires 0 <= i < |items| => ParseInt(Or(items[i].quantity, "0")))
  }

  function WeightValues(items: seq<M.CargoItem>): seq<Option<Decimal>>
  {
    seq(|items|, i requires 0 <= i < |items| => ParseFloat(Or(items[i].weight, "0")))
  }

  function VolumeValues(items: seq<M.CargoItem>): seq<Option<Decimal>>
  {
    seq(|items|, i requires 0 <= i < |items| => ParseFloat(Or(items[i].volume, "0")))
  }

  function PackagesTotal(items: seq<M.CargoItem>): Option<int>
  {
    SumInts(PackageCounts(items))
  }

  function WeightTotal(items: seq<M.CargoItem>): Option<Decimal>
  {
    SumDecimals(WeightValues(items))
  }

  function VolumeTotal(items: seq<M.CargoItem>): Option<Decimal>
  {
    SumDecimals(VolumeValues(items))
  }

  /** An empty list totals 0 on all three counts. */
  lemma TotalsOfNoItems()
    ensures PackagesTotal([]) == Some(0)
    ensures WeightTotal([]) == Some(Zero()) && VolumeTotal([]) == Some(Zero())
  {
  }

  /** Appending a line adds its parsed quantity to the package total (NaN
      absorbing); a line with an empty quantity adds 0. */
  lemma PackagesTotalAppend(items: seq<M.CargoItem>, item: M.CargoItem)
    ensures PackagesTotal(items + [item]) == AddInt(PackagesTotal(items), ParseInt(Or(item.quantity, "0")))
    ensures item.quantity == "" ==> PackagesTotal(items + [item]) == PackagesTotal(items)
  {
    assert PackageCounts(items + [item]) == PackageCounts(items) + [ParseInt(Or(item.quantity, "0"))];
    SumIntsAppend(PackageCounts(items), [ParseInt(Or(item.quantity, "0"))]);
    ParseIntOfEmptyField();
  }

  /** The same for the weight total: NaN when either part is, otherwise the
      sum of the values; an empty weight adds 0. */
  lemma WeightTotalAppend(items: seq<M.CargoItem>, item: M.CargoItem)
    ensures WeightTotal(items + [item]).None? <==>
      WeightTotal(items).None? || ParseFloat(Or(item.weight, "0")).None?
    ensures WeightTotal(items + [item]).Some? ==>
      WeightTotal(items + [item]).value.Value()
        == WeightTotal(items).value.Value() + ParseFloat(Or(item.weight, "0")).value.Value()
    ensures item.weight == "" ==> (WeightTotal(items + [item]).Some? <==> WeightTotal(items).Some?)
    ensures item.weight == "" && WeightTotal(items).Some? ==>
      WeightTotal(items + [item]).value.Value() == WeightTotal(items).value.Value()
  {
    assert WeightValues(items + [item]) == WeightValues(items) + [ParseFloat(Or(item.weight, "0"))];
    SumDecimalsAppendValue(WeightValues(items), [ParseFloat(Or(item.weight, "0"))]);
    ParseFloatOfEmptyField();
  }

  lemma VolumeTotalAppend(items: seq<M.CargoItem>, item: M.CargoItem)
    ensures VolumeTotal(items + [item]).None? <==>
      VolumeTotal(items).None? || ParseFloat(Or(item.volume, "0")).None?
    ensures VolumeTotal(items + [item]).Some? ==>
      VolumeTotal(items + [item]).value.Value()
        == VolumeTotal(items).value.Value() + ParseFloat(Or(item.volume, "0")).value.Value()
    ensures item.volume == "" ==> (VolumeTotal(items + [item]).Some? <==> VolumeTotal(items).Some?)
    ensures item.volume == "" && VolumeTotal(items).Some? ==>
      VolumeTotal(items + [item]).value.Value() == VolumeTotal(items).value.Value()
  {
    assert VolumeValues(items + [item]) == VolumeValues(items) + [ParseFloat(Or(item.volume, "0"))];
    SumDecimalsAppendValue(VolumeValues(items), [ParseFloat(Or(item.volume, "0"))]);
    ParseFloatOfEmptyField();
  }

  // ---- The document -----------------------------------------------------------------

  const LegalText: string :=
    "Cette lettre de voiture est " + "soumise à la Convention " + "relative au contrat de "
    + "transport international de " + "marchandises par route (CMR)."

  /** `CMR-${Date.now()}`. */
  function DocumentNumberText(now: nat): (r: string)
    ensures NoSpecial(r)
  {
    var digits := NatToDigits(now);
    assert NumberChars(digits);
    NumberCharsPlain(digits);
    "CMR-" + digits
  }

  function Measured(t: Tag, unit: string, c: Content): Node
  {
    Element(t, [Attr("unit", Verbatim(unit))], [Text(c)], t)
  }

  function HeaderNode(f: M.CmrForm, now: nat, issueDate: string): Node
  {
    El(DocumentHeader, [
      Leaf(DocumentType, Verbatim("CMR")),
      Leaf(DocumentNumber, Verbatim(DocumentNumberText(now))),
      Leaf(IssueDate, Verbatim(issueDate)),
      Leaf(IssuePlace, Escaped(f.placeOfSigning))])
  }

  function PartyNode(t: Tag, name: string, street: string, country: string): Node
  {
    El(t, [Leaf(Name, Escaped(name)), El(Address, [Leaf(Street, Escaped(street)), Leaf(Country, Escaped(country))])])
  }

  function TakeoverNode(f: M.CmrForm, takeoverDate: string): Node
  {
    El(TakeoverDetails, [Leaf(Place, Escaped(f.placeOfTakeover)), Leaf(DateTag, Verbatim(takeoverDate))])
  }

  function DeliveryNode(f: M.CmrForm): Node
  {
    El(DeliveryDetails, [Leaf(Place, Escaped(f.placeOfDelivery))])
  }

  function CarrierNode(f: M.CmrForm): Node
  {
    El(Carrier, [
      Leaf(Name, Escaped(f.carrierName)),
      El(Address, [Leaf(Street, Escaped(f.carrierAddress)), Leaf(Country, Escaped(f.carrierCountry))]),
      Leaf(SuccessiveCarriers, Escaped(f.successiveCarriers))])
  }

  function VehicleNode(f: M.CmrForm): Node
  {
    El(Vehicle, [Leaf(Registration, Escaped(f.vehicleRegistration)),
      Leaf(TrailerRegistration, Escaped(f.trailerRegistration))])
  }

  function SummaryNode(items: seq<M.CargoItem>): Node
  {
    El(Summary, [
      Leaf(TotalPackages, Verbatim(IntText(PackagesTotal(items)))),
      Measured(TotalWeight, "kg", Verbatim(DecimalText(WeightTotal(items)))),
      Measured(TotalVolume, "m3", Verbatim(DecimalText(VolumeTotal(items))))])
  }

  function CargoNode(item: M.CargoItem): Node
  {
    El(CargoItem, [
      Leaf(Quantity, Escaped(item.quantity)),
      Leaf(Description, Escaped(item.description)),
      Measured(Weight, "kg", Escaped(item.weight)),
      Measured(Volume, "m3", Escaped(item.volume)),
      Leaf(Marks, Escaped(item.marks))])
  }

  /** `cargoItems.map(item => <cargoItem>…)`. */
  function CargoNodes(items: seq<M.CargoItem>): seq<Node>
  {
    seq(|items|, i requires 0 <= i < |items| => CargoNode(items[i]))
  }

  function GoodsNode(items: seq<M.CargoItem>): Node
  {
    El(Goods, [SummaryNode(items), El(CargoItems, CargoNodes(items))])
  }

  function CodNode(f: M.CmrForm): Node
  {
    El(CashOnDelivery, [
      Element(Amount, [Attr("currency", Escaped(Or(f.codCurrency, "EUR")))], [Text(Escaped(f.codAmount))], Amount)])
  }

  function TextSection(t: Tag, s: string): Node
  {
    El(t, [Leaf(TextTag, Escaped(s))])
  }

  function FreightNode(f: M.CmrForm): Node
  {
    El(FreightCharges, [
      El(PaidBy, [Leaf(Sender, Verbatim(BoolText(f.paidBySender))), Leaf(Consignee, Verbatim(BoolText(f.paidByConsignee)))]),
      Leaf(CarriageCharges, Escaped(f.carriageCharges)),
      Leaf(Supplements, Escaped(f.supplements))])
  }

  function SignaturesNode(f: M.CmrForm): Node
  {
    El(Signatures, [
      El(Sender, [Leaf(Signature, Escaped(f.senderSignature))]),
      El(Carrier, [Leaf(Signature, Escaped(f.carrierSignature))]),
      El(Consignee, [Leaf(Signature, Escaped(f.consigneeSignature))])])
  }

  function LegalNode(): Node
  {
    El(LegalNotice, [Leaf(TextTag, Verbatim(LegalText))])
  }

  // The children of `<cmrDocument>` in template order, comments included,
  // assembled from fixed runs and the six optional sections.

  function LeadA(f: M.CmrForm, now: nat, issueDate: string): seq<Node>
  {
    [HeaderNode(f, now, issueDate), Comment("Section 1: Sender"),
      PartyNode(Sender, f.senderName, f.senderAddress, f.senderCountry)]
  }

  function LeadB(f: M.CmrForm, takeoverDate: string): seq<Node>
  {
    [Comment("Section 2: Consignee"), PartyNode(Consignee, f.consigneeName, f.consigneeAddress, f.consigneeCountry),
      Comment("Section 3: Place and date of taking over goods"), TakeoverNode(f, takeoverDate)]
  }

  function LeadC(f: M.CmrForm): seq<Node>
  {
    [Comment("Section 4: Place designated for delivery"), DeliveryNode(f), Comment("Section 5-7: Carrier"), CarrierNode(f)]
  }

  function LeadD(f: M.CmrForm, items: seq<M.CargoItem>): seq<Node>
  {
    [Comment("Section 8: Vehicle registration"), VehicleNode(f), Comment("Section 9-12: Goods"), GoodsNode(items),
      Comment("Section 13: Cash on delivery")]
  }

  function Middle(f: M.CmrForm): seq<Node>
  {
    [Comment("Section 16: To be paid by"), FreightNode(f), Comment("Section 17: Instructions for customs")]
  }

  function Tail(f: M.CmrForm): seq<Node>
  {
    [Comment("Signatures"), SignaturesNode(f), Comment("Legal notice"), LegalNode()]
  }

  function CodPart(f: M.CmrForm): seq<Node> { Optional(f.codAmount != "", CodNode(f)) }

  function ReservationsPart(f: M.CmrForm): seq<Node>
  {
    Optional(f.carriersReservations != "", TextSection(CarriersReservations, f.carriersReservations))
  }

  function AgreedPart(f: M.CmrForm): seq<Node> { Optional(f.agreedUpon != "", TextSection(AgreedUpon, f.agreedUpon)) }

  function CustomsPart(f: M.CmrForm): seq<Node>
  {
    Optional(f.customsInstructions != "", TextSection(CustomsInstructions, f.customsInstructions))
  }

  function SpecialPart(f: M.CmrForm): seq<Node>
  {
    Optional(f.specialAgreements != "", TextSection(SpecialAgreements, f.specialAgreements))
  }

  function DocumentsPart(f: M.CmrForm): seq<Node>
  {
    Optional(f.documentsAttached != "", TextSection(DocumentsAttached, f.documentsAttached))
  }

  /** The children for sections 1 to 12, from the header to the goods. */
  function Opening(f: M.CmrForm, items: seq<M.CargoItem>, now: nat, issueDate: string, takeoverDate: string): seq<Node>
  {
    LeadA(f, now, issueDate)
    + LeadB(f, takeoverDate)
    + LeadC(f)
    + LeadD(f, items)
  }

  /** The children for sections 13 to 15. */
  function Remarks(f: M.CmrForm): seq<Node>
  {
    CodPart(f)
    + [Comment("Section 14: Carrier's reservations")]
    + ReservationsPart(f)
    + [Comment("Section 15: Agreed upon")]
    + AgreedPart(f)
  }

  /** The children for sections 16 and 17 and the special agreements. */
  function Instructions(f: M.CmrForm): seq<Node>
  {
    Middle(f)
    + CustomsPart(f)
    + [Comment("Special agreements")]
    + SpecialPart(f)
  }

  /** The children for the documents attached, the signatures and the legal notice. */
  function Closing(f: M.CmrForm): seq<Node>
  {
    [Comment("Documents attached")]
    + DocumentsPart(f)
    + Tail(f)
  }

  function Body(f: M.CmrForm, items: seq<M.CargoItem>, now: nat, issueDate: string, takeoverDate: string): seq<Node>
  {
    Opening(f, items, now, issueDate, takeoverDate) + Remarks(f) + Instructions(f) + Closing(f)
  }

  // ---- Which sections the document has ------------------------------------------------

  /** The label list of an optional section. */
  function Present(cond: bool, t: Tag): seq<Option<Tag>>
  {
    if cond then [Some(t)] else []
  }

  const OpeningOutline: seq<Option<Tag>> :=
    [Some(DocumentHeader), None, Some(Sender)]
    + [None, Some(Consignee), None, Some(TakeoverDetails)]
    + [None, Some(DeliveryDetails), None, Some(Carrier)]
    + [None, Some(Vehicle), None, Some(Goods), None]

  function RemarksOutline(f: M.CmrForm): seq<Option<Tag>>
  {
    Present(f.codAmount != "", CashOnDelivery)
    + [None]
    + Present(f.carriersReservations != "", CarriersReservations)
    + [None]
    + Present(f.agreedUpon != "", AgreedUpon)
  }

  function InstructionsOutline(f: M.CmrForm): seq<Option<Tag>>
  {
    [None, Some(FreightCharges), None]
    + Present(f.customsInstructions != "", CustomsInstructions)
    + [None]
    + Present(f.specialAgreements != "", SpecialAgreements)
  }

  function ClosingOutline(f: M.CmrForm): seq<Option<Tag>>
  {
    [None]
    + Present(f.documentsAttached != "", DocumentsAttached)
    + [None, Some(Signatures), None, Some(LegalNotice)]
  }

  /** The children of `<cmrDocument>` by element name (`None` for a comment): the
      fixed sections always, each optional one exactly when its field is filled in. */
  function Outline(f: M.CmrForm): seq<Option<Tag>>
  {
    OpeningOutline + RemarksOutline(f) + InstructionsOutline(f) + ClosingOutline(f)
  }

  lemma LeadALabels(f: M.CmrForm, now: nat, issueDate: string)
    ensures Labels(LeadA(f, now, issueDate)) == [Some(DocumentHeader), None, Some(Sender)]
  {
    var p := LeadA(f, now, issueDate);
    assert Label(p[0]) == Some(DocumentHeader) && Label(p[1]) == None && Label(p[2]) == Some(Sender);
  }

  lemma LeadBLabels(f: M.CmrForm, takeoverDate: string)
    ensures Labels(LeadB(f, takeoverDate)) == [None, Some(Consignee), None, Some(TakeoverDetails)]
  {
    var p := LeadB(f, takeoverDate);
    assert Label(p[0]) == None && Label(p[1]) == Some(Consignee) && Label(p[2]) == None && Label(p[3]) == Some(TakeoverDetails);
  }

  lemma LeadCLabels(f: M.CmrForm)
    ensures Labels(LeadC(f)) == [None, Some(DeliveryDetails), None, Some(Carrier)]
  {
    var p := LeadC(f);
    assert Label(p[0]) == None && Label(p[1]) == Some(DeliveryDetails) && Label(p[2]) == None && Label(p[3]) == Some(Carrier);
  }

  lemma LeadDLabels(f: M.CmrForm, items: seq<M.CargoItem>)
    ensures Labels(LeadD(f, items)) == [None, Some(Vehicle), None, Some(Goods), None]
  {
    var v, g := VehicleNode(f), GoodsNode(items);
    assert Label(v) == Some(Vehicle) && Label(g) == Some(Goods);
    FiveLabels(Comment("Section 8: Vehicle registration"), v, Comment("Section 9-12: Goods"), g,
      Comment("Section 13: Cash on delivery"));
  }

  lemma FiveLabels(a: Node, b: Node, c: Node, d: Node, e: Node)
    ensures Labels([a, b, c, d, e]) == [Label(a), Label(b), Label(c), Label(d), Label(e)]
  {
  }

  lemma {:induction false} OpeningLabels(f: M.CmrForm, items: seq<M.CargoItem>, now: nat, issueDate: string, takeoverDate: string)
    ensures Labels(Opening(f, items, now, issueDate, takeoverDate)) == OpeningOutline
  {
    var p0 := LeadA(f, now, issueDate);
    var p1 := LeadB(f, takeoverDate);
    var p2 := LeadC(f);
    var p3 := LeadD(f, items);
    LeadALabels(f, now, issueDate);
    LeadBLabels(f, takeoverDate);
    LeadCLabels(f);
    LeadDLabels(f, items);
    LabelsAppend(p0, p1);
    LabelsAppend(p0 + p1, p2);
    LabelsAppend(p0 + p1 + p2, p3);
  }

  lemma {:induction false} RemarksLabels(f: M.CmrForm)
    ensures Labels(Remarks(f)) == RemarksOutline(f)
  {
    var p0 := CodPart(f);
    var p1 := [Comment("Section 14: Carrier's reservations")];
    var p2 := ReservationsPart(f);
    var p3 := [Comment("Section 15: Agreed upon")];
    var p4 := AgreedPart(f);
    assert Labels(p0) == Present(f.codAmount != "", CashOnDelivery);
    assert Labels(p1) == [None];
    assert Labels(p2) == Present(f.carriersReservations != "", CarriersReservations);
    assert Labels(p3) == [None];
    assert Labels(p4) == Present(f.agreedUpon != "", AgreedUpon);
    LabelsAppend(p0, p1);
    LabelsAppend(p0 + p1, p2);
    LabelsAppend(p0 + p1 + p2, p3);
    LabelsAppend(p0 + p1 + p2 + p3, p4);
  }

  lemma {:induction false} InstructionsLabels(f: M.CmrForm)
    ensures Labels(Instructions(f)) == InstructionsOutline(f)
  {
    var p0 := Middle(f);
    var p1 := CustomsPart(f);
    var p2 := [Comment("Special agreements")];
    var p3 := SpecialPart(f);
    assert Labels(p0) == [None, Some(FreightCharges), None];
    assert Labels(p1) == Present(f.customsInstructions != "", CustomsInstructions);
    assert Labels(p2) == [None];
    assert Labels(p3) == Present(f.specialAgreements != "", SpecialAgreements);
    LabelsAppend(p0, p1);
    LabelsAppend(p0 + p1, p2);
    LabelsAppend(p0 + p1 + p2, p3);
  }

  lemma {:induction false} ClosingLabels(f: M.CmrForm)
    ensures Labels(Closing(f)) == ClosingOutline(f)
  {
    var p0 := [Comment("Documents attached")];
    var p1 := DocumentsPart(f);
    var p2 := Tail(f);
    assert Labels(p0) == [None];
    assert Labels(p1) == Present(f.documentsAttached != "", DocumentsAttached);
    assert Labels(p2) == [None, Some(Signatures), None, Some(LegalNotice)];
    LabelsAppend(p0, p1);
    LabelsAppend(p0 + p1, p2);
  }

  lemma {:induction false} BodyOutline(f: M.CmrForm, items: seq<M.CargoItem>, now: nat, issueDate: string, takeoverDate: string)
    ensures Labels(Body(f, items, now, issueDate, takeoverDate)) == Outline(f)
  {
    var g0, g1, g2, g3 := Opening(f, items, now, issueDate, takeoverDate), Remarks(f), Instructions(f), Closing(f);
    OpeningLabels(f, items, now, issueDate, takeoverDate);
    RemarksLabels(f);
    InstructionsLabels(f);
    ClosingLabels(f);
    LabelsAppend(g0, g1);
    LabelsAppend(g0 + g1, g2);
    LabelsAppend(g0 + g1 + g2, g3);
  }

  lemma OpeningOutlineSections()
    ensures Some(CashOnDelivery) !in OpeningOutline
    ensures Some(CarriersReservations) !in OpeningOutline
    ensures Some(AgreedUpon) !in OpeningOutline
    ensures Some(CustomsInstructions) !in OpeningOutline
    ensures Some(SpecialAgreements) !in OpeningOutline
    ensures Some(DocumentsAttached) !in OpeningOutline
  {
  }

  lemma RemarksOutlineSections(f: M.CmrForm)
    ensures Some(CashOnDelivery) in RemarksOutline(f) <==> f.codAmount != ""
    ensures Some(CarriersReservations) in RemarksOutline(f) <==> f.carriersReservations != ""
    ensures Some(AgreedUpon) in RemarksOutline(f) <==> f.agreedUpon != ""
    ensures Some(CustomsInstructions) !in RemarksOutline(f)
    ensures Some(SpecialAgreements) !in RemarksOutline(f)
    ensures Some(DocumentsAttached) !in RemarksOutline(f)
  {
  }

  lemma InstructionsOutlineSections(f: M.CmrForm)
    ensures Some(CashOnDelivery) !in InstructionsOutline(f)
    ensures Some(CarriersReservations) !in InstructionsOutline(f)
    ensures Some(AgreedUpon) !in InstructionsOutline(f)
    ensures Some(CustomsInstructions) in InstructionsOutline(f) <==> f.customsInstructions != ""
    ensures Some(SpecialAgreements) in InstructionsOutline(f) <==> f.specialAgreements != ""
    ensures Some(DocumentsAttached) !in InstructionsOutline(f)
    ensures Some(FreightCharges) in InstructionsOutline(f)
  {
  }

  lemma ClosingOutlineSections(f: M.CmrForm)
    ensures Some(CashOnDelivery) !in ClosingOutline(f)
    ensures Some(CarriersReservations) !in ClosingOutline(f)
    ensures Some(AgreedUpon) !in ClosingOutline(f)
    ensures Some(CustomsInstructions) !in ClosingOutline(f)
    ensures Some(SpecialAgreements) !in ClosingOutline(f)
    ensures Some(DocumentsAttached) in ClosingOutline(f) <==> f.documentsAttached != ""
    ensures Some(Signatures) in ClosingOutline(f)
  {
  }

  lemma OutlineSections(f: M.CmrForm)
    ensures Some(CashOnDelivery) in Outline(f) <==> f.codAmount != ""
    ensures Some(CarriersReservations) in Outline(f) <==> f.carriersReservations != ""
    ensures Some(AgreedUpon) in Outline(f) <==> f.agreedUpon != ""
    ensures Some(CustomsInstructions) in Outline(f) <==> f.customsInstructions != ""
    ensures Some(SpecialAgreements) in Outline(f) <==> f.specialAgreements != ""
    ensures Some(DocumentsAttached) in Outline(f) <==> f.documentsAttached != ""
    ensures Some(FreightCharges) in Outline(f) && Some(Signatures) in Outline(f)
  {
    OpeningOutlineSections();
    RemarksOutlineSections(f);
    InstructionsOutlineSections(f);
    ClosingOutlineSections(f);
  }

  /** Each optional section is in the document exactly when its field is not
      empty; the freight charges and the signatures are always there. */
  lemma OptionalSections(f: M.CmrForm, items: seq<M.CargoItem>, now: nat, issueDate: string, takeoverDate: string)
    ensures var labels := Labels(Body(f, items, now, issueDate, takeoverDate));
      (Some(CashOnDelivery) in labels <==> f.codAmount != "")
      && (Some(CarriersReservations) in labels <==> f.carriersReservations != "")
      && (Some(AgreedUpon) in labels <==> f.agreedUpon != "")
      && (Some(CustomsInstructions) in labels <==> f.customsInstructions != "")
      && (Some(SpecialAgreements) in labels <==> f.specialAgreements != "")
      && (Some(DocumentsAttached) in labels <==> f.documentsAttached != "")
      && Some(FreightCharges) in labels && Some(Signatures) in labels
  {
    BodyOutline(f, items, now, issueDate, takeoverDate);
    OutlineSections(f);
  }

  // ---- Well-formedness and escaping, section by section ------------------------------

  lemma MeasuredFacts(t: Tag, unit: string, c: Content)
    requires NoSpecial(unit) && (c.Verbatim? ==> NoSpecial(c.text))
    ensures WellFormed(Measured(t, unit, c))
    ensures Raws(Measured(t, unit, c)) == ContentRaws(c)
  {
    ContentSafe(Verbatim(unit));
    ContentSafe(c);
    assert WellFormed(Text(c));
    AttrRaws1(Attr("unit", Verbatim(unit)));
    RawsAll1(Text(c));
  }

  lemma HeaderFacts(f: M.CmrForm, now: nat, issueDate: string)
    requires NoSpecial(issueDate)
    ensures WellFormed(HeaderNode(f, now, issueDate))
    ensures Raws(HeaderNode(f, now, issueDate)) == [f.placeOfSigning]
  {
    assert NoSpecial("CMR");
    PlainLeaf(DocumentType, "CMR");
    PlainLeaf(DocumentNumber, DocumentNumberText(now));
    PlainLeaf(IssueDate, issueDate);
    EscapedLeaf(IssuePlace, f.placeOfSigning);
    El4(DocumentHeader, Leaf(DocumentType, Verbatim("CMR")), Leaf(DocumentNumber, Verbatim(DocumentNumberText(now))),
      Leaf(IssueDate, Verbatim(issueDate)), Leaf(IssuePlace, Escaped(f.placeOfSigning)));
    AppendEmpty([f.placeOfSigning]);
  }

  lemma AddressFacts(street: string, country: string)
    ensures WellFormed(El(Address, [Leaf(Street, Escaped(street)), Leaf(Country, Escaped(country))]))
    ensures Raws(El(Address, [Leaf(Street, Escaped(street)), Leaf(Country, Escaped(country))])) == [street, country]
  {
    EscapedLeaf(Street, street);
    EscapedLeaf(Country, country);
    El2(Address, Leaf(Street, Escaped(street)), Leaf(Country, Escaped(country)));
  }

  lemma PartyFacts(t: Tag, name: string, street: string, country: string)
    ensures WellFormed(PartyNode(t, name, street, country))
    ensures Raws(PartyNode(t, name, street, country)) == [name, street, country]
  {
    EscapedLeaf(Name, name);
    AddressFacts(street, country);
    El2(t, Leaf(Name, Escaped(name)), El(Address, [Leaf(Street, Escaped(street)), Leaf(Country, Escaped(country))]));
  }

  lemma TakeoverFacts(f: M.CmrForm, takeoverDate: string)
    requires NoSpecial(takeoverDate)
    ensures WellFormed(TakeoverNode(f, takeoverDate))
    ensures Raws(TakeoverNode(f, takeoverDate)) == [f.placeOfTakeover]
  {
    EscapedLeaf(Place, f.placeOfTakeover);
    PlainLeaf(DateTag, takeoverDate);
    El2(TakeoverDetails, Leaf(Place, Escaped(f.placeOfTakeover)), Leaf(DateTag, Verbatim(takeoverDate)));
  }

  lemma DeliveryFacts(f: M.CmrForm)
    ensures WellFormed(DeliveryNode(f))
    ensures Raws(DeliveryNode(f)) == [f.placeOfDelivery]
  {
    EscapedLeaf(Place, f.placeOfDelivery);
    El1(DeliveryDetails, Leaf(Place, Escaped(f.placeOfDelivery)));
  }

  lemma CarrierFacts(f: M.CmrForm)
    ensures WellFormed(CarrierNode(f))
    ensures Raws(CarrierNode(f)) == [f.carrierName, f.carrierAddress, f.carrierCountry, f.successiveCarriers]
  {
    EscapedLeaf(Name, f.carrierName);
    AddressFacts(f.carrierAddress, f.carrierCountry);
    EscapedLeaf(SuccessiveCarriers, f.successiveCarriers);
    El3(Carrier, Leaf(Name, Escaped(f.carrierName)),
      El(Address, [Leaf(Street, Escaped(f.carrierAddress)), Leaf(Country, Escaped(f.carrierCountry))]),
      Leaf(SuccessiveCarriers, Escaped(f.successiveCarriers)));
  }

  lemma VehicleFacts(f: M.CmrForm)
    ensures WellFormed(VehicleNode(f))
    ensures Raws(VehicleNode(f)) == [f.vehicleRegistration, f.trailerRegistration]
  {
    EscapedLeaf(Registration, f.vehicleRegistration);
    EscapedLeaf(TrailerRegistration, f.trailerRegistration);
    El2(Vehicle, Leaf(Registration, Escaped(f.vehicleRegistration)), Leaf(TrailerRegistration, Escaped(f.trailerRegistration)));
  }

  /** The units are plain text. */
  lemma UnitsPlain()
    ensures NoSpecial("kg") && NoSpecial("m3")
  {
  }

  /** A rendered total is a number or "NaN": nothing to escape, nothing unsafe. */
  lemma NumberTextPlain(s: string)
    requires s == "NaN" || NumberChars(s)
    ensures NoSpecial(s)
  {
    if s != "NaN" { NumberCharsPlain(s); }
  }

  lemma SummaryFacts(items: seq<M.CargoItem>)
    ensures WellFormed(SummaryNode(items))
    ensures Raws(SummaryNode(items)) == []
  {
    var p, w, v := IntText(PackagesTotal(items)), DecimalText(WeightTotal(items)), DecimalText(VolumeTotal(items));
    var pn, wn, vn := Leaf(TotalPackages, Verbatim(p)), Measured(TotalWeight, "kg", Verbatim(w)),
      Measured(TotalVolume, "m3", Verbatim(v));
    UnitsPlain();
    NumberTextPlain(p);
    NumberTextPlain(w);
    NumberTextPlain(v);
    PlainLeaf(TotalPackages, p);
    MeasuredFacts(TotalWeight, "kg", Verbatim(w));
    MeasuredFacts(TotalVolume, "m3", Verbatim(v));
    El3(Summary, pn, wn, vn);
  }

  /** The five escaped values of one cargo line, in document order. */
  function ItemValues(item: M.CargoItem): seq<string>
  {
    [item.quantity, item.description, item.weight, item.volume, item.marks]
  }

  /** The escaped values of all cargo lines, line after line. */
  function ItemFields(items: seq<M.CargoItem>): seq<string>
  {
    if |items| == 0 then [] else ItemValues(items[0]) + ItemFields(items[1..])
  }

  lemma CargoFacts(item: M.CargoItem)
    ensures WellFormed(CargoNode(item))
    ensures Raws(CargoNode(item)) == ItemValues(item)
  {
    var q, d := Leaf(Quantity, Escaped(item.quantity)), Leaf(Description, Escaped(item.description));
    var w, v := Measured(Weight, "kg", Escaped(item.weight)), Measured(Volume, "m3", Escaped(item.volume));
    var m := Leaf(Marks, Escaped(item.marks));
    UnitsPlain();
    EscapedLeaf(Quantity, item.quantity);
    EscapedLeaf(Description, item.description);
    MeasuredFacts(Weight, "kg", Escaped(item.weight));
    MeasuredFacts(Volume, "m3", Escaped(item.volume));
    EscapedLeaf(Marks, item.marks);
    El5(CargoItem, q, d, w, v, m);
    Concat5(item.quantity, item.description, item.weight, item.volume, item.marks);
  }

  lemma {:induction false} CargoNodesRaws(items: seq<M.CargoItem>)
    ensures RawsAll(CargoNodes(items)) == ItemFields(items)
  {
    if |items| > 0 {
      assert CargoNodes(items) == [CargoNode(items[0])] + CargoNodes(items[1..]);
      RawsAllCons(CargoNode(items[0]), CargoNodes(items[1..]));
      CargoFacts(items[0]);
      CargoNodesRaws(items[1..]);
    } else {
      assert CargoNodes(items) == [];
    }
  }

  lemma GoodsFacts(items: seq<M.CargoItem>)
    ensures WellFormed(GoodsNode(items))
    ensures Raws(GoodsNode(items)) == ItemFields(items)
  {
    var cargo := El(CargoItems, CargoNodes(items));
    assert WellFormed(cargo) by {
      forall i | 0 <= i < |items| ensures WellFormed(CargoNodes(items)[i]) {
        CargoFacts(items[i]);
      }
      ElWellFormed(CargoItems, CargoNodes(items));
    }
    ElRaws(CargoItems, CargoNodes(items));
    CargoNodesRaws(items);
    SummaryFacts(items);
    El2(Goods, SummaryNode(items), cargo);
  }

  lemma CodFacts(f: M.CmrForm)
    ensures WellFormed(CodNode(f))
    ensures Raws(CodNode(f)) == [Or(f.codCurrency, "EUR"), f.codAmount]
  {
    var currency, amount := Escaped(Or(f.codCurrency, "EUR")), Escaped(f.codAmount);
    var e := Element(Amount, [Attr("currency", currency)], [Text(amount)], Amount);
    assert WellFormed(e) by {
      ContentSafe(currency);
      ContentSafe(amount);
      assert WellFormed(Text(amount));
    }
    assert Raws(e) == [Or(f.codCurrency, "EUR"), f.codAmount] by {
      AttrRaws1(Attr("currency", currency));
      RawsAll1(Text(amount));
    }
    RawsAll1(e);
  }

  lemma TextSectionFacts(t: Tag, s: string)
    ensures WellFormed(TextSection(t, s))
    ensures Raws(TextSection(t, s)) == [s]
  {
    EscapedLeaf(TextTag, s);
    RawsAll1(Leaf(TextTag, Escaped(s)));
  }

  lemma FreightFacts(f: M.CmrForm)
    ensures WellFormed(FreightNode(f))
    ensures Raws(FreightNode(f)) == [f.carriageCharges, f.supplements]
  {
    var s, c := BoolText(f.paidBySender), BoolText(f.paidByConsignee);
    var paid := El(PaidBy, [Leaf(Sender, Verbatim(s)), Leaf(Consignee, Verbatim(c))]);
    var charges, supplements := Leaf(CarriageCharges, Escaped(f.carriageCharges)), Leaf(Supplements, Escaped(f.supplements));
    assert NoSpecial(s) && NoSpecial(c) by {
      assert NoSpecial("true") && NoSpecial("false");
    }
    PlainLeaf(Sender, s);
    PlainLeaf(Consignee, c);
    El2(PaidBy, Leaf(Sender, Verbatim(s)), Leaf(Consignee, Verbatim(c)));
    EscapedLeaf(CarriageCharges, f.carriageCharges);
    EscapedLeaf(Supplements, f.supplements);
    El3(FreightCharges, paid, charges, supplements);
    Concat2(f.carriageCharges, f.supplements);
  }

  lemma SignatureFacts(t: Tag, signature: string)
    ensures WellFormed(El(t, [Leaf(Signature, Escaped(signature))]))
    ensures Raws(El(t, [Leaf(Signature, Escaped(signature))])) == [signature]
  {
    EscapedLeaf(Signature, signature);
    El1(t, Leaf(Signature, Escaped(signature)));
  }

  lemma SignaturesFacts(f: M.CmrForm)
    ensures WellFormed(SignaturesNode(f))
    ensures Raws(SignaturesNode(f)) == [f.senderSignature, f.carrierSignature, f.consigneeSignature]
  {
    SignatureFacts(Sender, f.senderSignature);
    SignatureFacts(Carrier, f.carrierSignature);
    SignatureFacts(Consignee, f.consigneeSignature);
    El3(Signatures, El(Sender, [Leaf(Signature, Escaped(f.senderSignature))]),
      El(Carrier, [Leaf(Signature, Escaped(f.carrierSignature))]),
      El(Consignee, [Leaf(Signature, Escaped(f.consigneeSignature))]));
  }

  lemma LegalTextPlain()
    ensures NoSpecial(LegalText)
  {
    var a, b, c, d, e := "Cette lettre de voiture est ", "soumise à la Convention ", "relative au contrat de ",
      "transport international de ", "marchandises par route (CMR).";
    assert NoSpecial(a);
    assert NoSpecial(b);
    assert NoSpecial(c);
    assert NoSpecial(d);
    assert NoSpecial(e);
    NoSpecialAppend(a, b);
    NoSpecialAppend(a + b, c);
    NoSpecialAppend(a + b + c, d);
    NoSpecialAppend(a + b + c + d, e);
  }

  lemma LegalFacts()
    ensures WellFormed(LegalNode())
    ensures Raws(LegalNode()) == []
  {
    LegalTextPlain();
    PlainLeaf(TextTag, LegalText);
    El1(LegalNotice, Leaf(TextTag, Verbatim(LegalText)));
  }

  // ---- What the exporter escapes ------------------------------------------------------

  function When(cond: bool, values: seq<string>): seq<string>
  {
    if cond then values else []
  }

  lemma LeadAFacts(f: M.CmrForm, now: nat, issueDate: string)
    requires NoSpecial(issueDate)
    ensures AllWellFormed(LeadA(f, now, issueDate))
    ensures RawsAll(LeadA(f, now, issueDate)) == [f.placeOfSigning] + [f.senderName, f.senderAddress, f.senderCountry]
  {
    HeaderFacts(f, now, issueDate);
    PartyFacts(Sender, f.senderName, f.senderAddress, f.senderCountry);
    Run3(HeaderNode(f, now, issueDate), Comment("Section 1: Sender"),
      PartyNode(Sender, f.senderName, f.senderAddress, f.senderCountry),
      [f.placeOfSigning], [], [f.senderName, f.senderAddress, f.senderCountry]);
    AppendEmpty([f.placeOfSigning]);
  }

  lemma LeadBFacts(f: M.CmrForm, takeoverDate: string)
    requires NoSpecial(takeoverDate)
    ensures AllWellFormed(LeadB(f, takeoverDate))
    ensures RawsAll(LeadB(f, takeoverDate))
      == [f.consigneeName, f.consigneeAddress, f.consigneeCountry] + [f.placeOfTakeover]
  {
    PartyFacts(Consignee, f.consigneeName, f.consigneeAddress, f.consigneeCountry);
    TakeoverFacts(f, takeoverDate);
    Run4(Comment("Section 2: Consignee"), PartyNode(Consignee, f.consigneeName, f.consigneeAddress, f.consigneeCountry),
      Comment("Section 3: Place and date of taking over goods"), TakeoverNode(f, takeoverDate),
      [], [f.consigneeName, f.consigneeAddress, f.consigneeCountry], [], [f.placeOfTakeover]);
    AppendEmpty([f.consigneeName, f.consigneeAddress, f.consigneeCountry]);
  }

  lemma LeadCFacts(f: M.CmrForm)
    ensures AllWellFormed(LeadC(f))
    ensures RawsAll(LeadC(f))
      == [f.placeOfDelivery] + [f.carrierName, f.carrierAddress, f.carrierCountry, f.successiveCarriers]
  {
    DeliveryFacts(f);
    CarrierFacts(f);
    Run4(Comment("Section 4: Place designated for delivery"), DeliveryNode(f), Comment("Section 5-7: Carrier"),
      CarrierNode(f), [], [f.placeOfDelivery], [], [f.carrierName, f.carrierAddress, f.carrierCountry, f.successiveCarriers]);
    AppendEmpty([f.placeOfDelivery]);
  }

  lemma LeadDFacts(f: M.CmrForm, items: seq<M.CargoItem>)
    ensures AllWellFormed(LeadD(f, items))
    ensures RawsAll(LeadD(f, items)) == [f.vehicleRegistration, f.trailerRegistration] + ItemFields(items)
  {
    VehicleFacts(f);
    GoodsFacts(items);
    Run5(Comment("Section 8: Vehicle registration"), VehicleNode(f), Comment("Section 9-12: Goods"), GoodsNode(items),
      Comment("Section 13: Cash on delivery"), [], [f.vehicleRegistration, f.trailerRegistration], [], ItemFields(items), []);
    AppendEmpty([f.vehicleRegistration, f.trailerRegistration]);
    AppendEmpty([f.vehicleRegistration, f.trailerRegistration] + ItemFields(items));
  }

  /** The form values written in sections 1 to 12, then the goods table's. */
  function OpeningFields(f: M.CmrForm, items: seq<M.CargoItem>): seq<string>
  {
    [f.placeOfSigning]
    + [f.senderName, f.senderAddress, f.senderCountry]
    + [f.consigneeName, f.consigneeAddress, f.consigneeCountry]
    + [f.placeOfTakeover]
    + [f.placeOfDelivery]
    + [f.carrierName, f.carrierAddress, f.carrierCountry, f.successiveCarriers]
    + [f.vehicleRegistration, f.trailerRegistration]
    + ItemFields(items)
  }

  lemma OpeningFacts(f: M.CmrForm, items: seq<M.CargoItem>, now: nat, issueDate: string, takeoverDate: string)
    requires NoSpecial(issueDate) && NoSpecial(takeoverDate)
    ensures AllWellFormed(Opening(f, items, now, issueDate, takeoverDate))
    ensures RawsAll(Opening(f, items, now, issueDate, takeoverDate)) == OpeningFields(f, items)
  {
    var sender, consignee := [f.senderName, f.senderAddress, f.senderCountry], [f.consigneeName, f.consigneeAddress, f.consigneeCountry];
    var carrier := [f.carrierName, f.carrierAddress, f.carrierCountry, f.successiveCarriers];
    var vehicle := [f.vehicleRegistration, f.trailerRegistration];
    LeadAFacts(f, now, issueDate);
    LeadBFacts(f, takeoverDate);
    LeadCFacts(f);
    LeadDFacts(f, items);
    Join4(LeadA(f, now, issueDate), LeadB(f, takeoverDate), LeadC(f), LeadD(f, items),
      [f.placeOfSigning] + sender, consignee + [f.placeOfTakeover], [f.placeOfDelivery] + carrier, vehicle + ItemFields(items));
    var x1 := [f.placeOfSigning] + sender;
    var x2 := x1 + consignee + [f.placeOfTakeover];
    var x3 := x2 + [f.placeOfDelivery] + carrier;
    Assoc(x1, consignee, [f.placeOfTakeover]);
    Assoc(x2, [f.placeOfDelivery], carrier);
    Assoc(x3, vehicle, ItemFields(items));
  }

  /** The cash-on-delivery currency (EUR when empty) and amount, the carrier's
      reservations and what was agreed, each only when filled in. */
  function RemarksFields(f: M.CmrForm): seq<string>
  {
    When(f.codAmount != "", [Or(f.codCurrency, "EUR"), f.codAmount])
    + When(f.carriersReservations != "", [f.carriersReservations])
    + When(f.agreedUpon != "", [f.agreedUpon])
  }

  lemma OptionalFacts(cond: bool, n: Node, values: seq<string>)
    requires WellFormed(n) && Raws(n) == values
    ensures AllWellFormed(Optional(cond, n))
    ensures RawsAll(Optional(cond, n)) == When(cond, values)
  {
    OptionalRaws(cond, n);
  }

  lemma RemarksFacts(f: M.CmrForm)
    ensures AllWellFormed(Remarks(f))
    ensures RawsAll(Remarks(f)) == RemarksFields(f)
  {
    var cod := When(f.codAmount != "", [Or(f.codCurrency, "EUR"), f.codAmount]);
    var reservations := When(f.carriersReservations != "", [f.carriersReservations]);
    var agreed := When(f.agreedUpon != "", [f.agreedUpon]);
    CodFacts(f);
    OptionalFacts(f.codAmount != "", CodNode(f), [Or(f.codCurrency, "EUR"), f.codAmount]);
    TextSectionFacts(CarriersReservations, f.carriersReservations);
    OptionalFacts(f.carriersReservations != "", TextSection(CarriersReservations, f.carriersReservations),
      [f.carriersReservations]);
    TextSectionFacts(AgreedUpon, f.agreedUpon);
    OptionalFacts(f.agreedUpon != "", TextSection(AgreedUpon, f.agreedUpon), [f.agreedUpon]);
    CommentRun("Section 14: Carrier's reservations");
    CommentRun("Section 15: Agreed upon");
    Join5(CodPart(f), [Comment("Section 14: Carrier's reservations")], ReservationsPart(f),
      [Comment("Section 15: Agreed upon")], AgreedPart(f), cod, [], reservations, [], agreed);
    AppendEmpty(cod);
    AppendEmpty(cod + reservations);
  }

  /** The carriage charges and supplements, then the customs instructions and
      the special agreements when filled in. */
  function InstructionsFields(f: M.CmrForm): seq<string>
  {
    [f.carriageCharges, f.supplements]
    + When(f.customsInstructions != "", [f.customsInstructions])
    + When(f.specialAgreements != "", [f.specialAgreements])
  }

  lemma InstructionsFacts(f: M.CmrForm)
    ensures AllWellFormed(Instructions(f))
    ensures RawsAll(Instructions(f)) == InstructionsFields(f)
  {
    var customs := When(f.customsInstructions != "", [f.customsInstructions]);
    var special := When(f.specialAgreements != "", [f.specialAgreements]);
    FreightFacts(f);
    Run3(Comment("Section 16: To be paid by"), FreightNode(f), Comment("Section 17: Instructions for customs"),
      [], [f.carriageCharges, f.supplements], []);
    TextSectionFacts(CustomsInstructions, f.customsInstructions);
    OptionalFacts(f.customsInstructions != "", TextSection(CustomsInstructions, f.customsInstructions),
      [f.customsInstructions]);
    TextSectionFacts(SpecialAgreements, f.specialAgreements);
    OptionalFacts(f.specialAgreements != "", TextSection(SpecialAgreements, f.specialAgreements), [f.specialAgreements]);
    CommentRun("Special agreements");
    Join4(Middle(f), CustomsPart(f), [Comment("Special agreements")], SpecialPart(f),
      [] + [f.carriageCharges, f.supplements] + [], customs, [], special);
    AppendEmpty([f.carriageCharges, f.supplements]);
    AppendEmpty([f.carriageCharges, f.supplements] + customs);
  }

  /** The list of attached documents when filled in, then the three signatures. */
  function ClosingFields(f: M.CmrForm): seq<string>
  {
    When(f.documentsAttached != "", [f.documentsAttached])
    + [f.senderSignature, f.carrierSignature, f.consigneeSignature]
  }

  lemma ClosingFacts(f: M.CmrForm)
    ensures AllWellFormed(Closing(f))
    ensures RawsAll(Closing(f)) == ClosingFields(f)
  {
    var docs := When(f.documentsAttached != "", [f.documentsAttached]);
    var signatures := [f.senderSignature, f.carrierSignature, f.consigneeSignature];
    TextSectionFacts(DocumentsAttached, f.documentsAttached);
    OptionalFacts(f.documentsAttached != "", TextSection(DocumentsAttached, f.documentsAttached), [f.documentsAttached]);
    SignaturesFacts(f);
    LegalFacts();
    Run4(Comment("Signatures"), SignaturesNode(f), Comment("Legal notice"), LegalNode(), [], signatures, [], []);
    CommentRun("Documents attached");
    Join3([Comment("Documents attached")], DocumentsPart(f), Tail(f), [], docs, [] + signatures + [] + []);
    AppendEmpty(docs);
    AppendEmpty(signatures);
  }

  /** Every value of the form and of the goods table that the exporter passes
      through `escapeXml`, in document order: each filled-in optional section's
      values, every fixed field, and nothing else. */
  function EscapedFields(f: M.CmrForm, items: seq<M.CargoItem>): seq<string>
  {
    OpeningFields(f, items) + RemarksFields(f) + InstructionsFields(f) + ClosingFields(f)
  }

  lemma BodyFacts(f: M.CmrForm, items: seq<M.CargoItem>, now: nat, issueDate: string, takeoverDate: string)
    requires NoSpecial(issueDate) && NoSpecial(takeoverDate)
    ensures AllWellFormed(Body(f, items, now, issueDate, takeoverDate))
    ensures RawsAll(Body(f, items, now, issueDate, takeoverDate)) == EscapedFields(f, items)
  {
    OpeningFacts(f, items, now, issueDate, takeoverDate);
    RemarksFacts(f);
    InstructionsFacts(f);
    ClosingFacts(f);
    Join4(Opening(f, items, now, issueDate, takeoverDate), Remarks(f), Instructions(f), Closing(f),
      OpeningFields(f, items), RemarksFields(f), InstructionsFields(f), ClosingFields(f));
  }

  const RootAttrs: seq<Attr> := [Attr("xmlns", Verbatim("urn:cmr:transport:1.0")), Attr("version", Verbatim("1.0"))]

  function CmrDocumentTree(f: M.CmrForm, items: seq<M.CargoItem>, now: nat, issueDate: string, takeoverDate: string): Node
  {
    Element(CmrDocument, RootAttrs, Body(f, items, now, issueDate, takeoverDate), CmrDocument)
  }

  /** `generateCMRXML`'s text: `now` stands for `Date.now()` and `calendar`
      for the parsing of dates by `new Date`. The text is the serialization of
      the element tree, which is the template's output up to the whitespace
      between elements. */
  function GenerateCmrXml(f: M.CmrForm, items: seq<M.CargoItem>, now: nat,
                          calendar: string -> Option<CalendarDay>): (r: Result<string, ExportError>)
    ensures r.Failure? <==>
      (f.dateOfSigning != "" && calendar(f.dateOfSigning).None?)
      || (f.dateOfTakeover != "" && calendar(f.dateOfTakeover).None?)
  {
    match FormatDate(f.dateOfSigning, calendar)
    case None => Failure(InvalidDate(f.dateOfSigning))
    case Some(issueDate) =>
      match FormatDate(f.dateOfTakeover, calendar)
      case None => Failure(InvalidDate(f.dateOfTakeover))
      case Some(takeoverDate) => Success(DocumentText(CmrDocumentTree(f, items, now, issueDate, takeoverDate)))
  }

  lemma RootAttrsFacts()
    ensures forall i :: 0 <= i < |RootAttrs| ==> Safe(ContentText(RootAttrs[i].value))
    ensures AttrRaws(RootAttrs) == []
  {
    assert NoSpecial("urn:cmr:transport:1.0") && NoSpecial("1.0");
    ContentSafe(Verbatim("urn:cmr:transport:1.0"));
    ContentSafe(Verbatim("1.0"));
    assert RootAttrs[1..] == [Attr("version", Verbatim("1.0"))];
    AttrRaws1(Attr("version", Verbatim("1.0")));
  }

  lemma DocumentFacts(f: M.CmrForm, items: seq<M.CargoItem>, now: nat, issueDate: string, takeoverDate: string)
    requires NoSpecial(issueDate) && NoSpecial(takeoverDate)
    ensures WellFormed(CmrDocumentTree(f, items, now, issueDate, takeoverDate))
    ensures Raws(CmrDocumentTree(f, items, now, issueDate, takeoverDate)) == EscapedFields(f, items)
  {
    BodyFacts(f, items, now, issueDate, takeoverDate);
    RootAttrsFacts();
    ElementFacts(CmrDocument, RootAttrs, Body(f, items, now, issueDate, takeoverDate), [], EscapedFields(f, items));
    AppendEmpty(EscapedFields(f, items));
  }

  /** A successful export is the text of a well-formed document, its two dates
      those `formatDate` gave, that escapes exactly the values `EscapedFields`
      lists and writes every other text as it stands. */
  lemma ExportedCmrDocument(f: M.CmrForm, items: seq<M.CargoItem>, now: nat,
                            calendar: string -> Option<CalendarDay>)
    requires GenerateCmrXml(f, items, now, calendar).Success?
    ensures FormatDate(f.dateOfSigning, calendar).Some? && FormatDate(f.dateOfTakeover, calendar).Some?
    ensures var tree := CmrDocumentTree(f, items, now, FormatDate(f.dateOfSigning, calendar).value,
                                        FormatDate(f.dateOfTakeover, calendar).value);
      GenerateCmrXml(f, items, now, calendar).value == DocumentText(tree)
      && WellFormed(tree) && Raws(tree) == EscapedFields(f, items)
  {
    DocumentFacts(f, items, now, FormatDate(f.dateOfSigning, calendar).value, FormatDate(f.dateOfTakeover, calendar).value);
  }

  /** `CMR_${carrierName || 'document'}_${date}.xml`. */
  function CmrXmlFileName(f: M.CmrForm, today: string): string
  {
    "CMR_" + Or(f.carrierName, "document") + "_" + today + ".xml"
  }

  /** The file name carries the carrier's name, or "document" when it is empty. */
  lemma CmrXmlFileNameReadsBack(f: M.CmrForm, today: string)
    ensures var n := CmrXmlFileName(f, today);
      n[..4] == "CMR_" && n[|n| - 4..] == ".xml"
      && n[4..|n| - |today| - 5] == Or(f.carrierName, "document")
  {
  }
}
