/** The bill of lading as a DCSA eBL v3 shipping instruction in XML: the
    document the exporter fills in, with its optional notify party and
    charges and its cargo lines flattened over the containers. Every value is
    inserted as it stands; nothing is escaped. */
module BolXml {
  import opened Common
  import opened XmlEscape
  import opened XmlTree
  import opened BolTotals
  import M = BolModel

  // ---- Pieces of the document ---------------------------------------------------------

  /** The payment term of both charges: PREPAID when the prepaid box is ticked,
      otherwise COLLECT when the collect box is, and PREPAID when neither is. */
  function PaymentTermText(f: M.BolForm): (r: string)
    ensures r == "PREPAID" || r == "COLLECT"
    ensures r == "COLLECT" <==> !f.prepaid && f.collect
  {
    if f.prepaid then "PREPAID" else if f.collect then "COLLECT" else "PREPAID"
  }

  /** `numberOfOriginalBols || '3'`, written both as the number of copies and as
      the number of originals. */
  function Copies(f: M.BolForm): (r: string)
    ensures r != ""
    ensures f.numberOfOriginalBols != "" ==> r == f.numberOfOriginalBols
    ensures f.numberOfOriginalBols == "" ==> r == "3"
  {
    Or(f.numberOfOriginalBols, "3")
  }

  function PartyNode(t: Tag, name: string, street: string, city: string, country: string): Node
  {
    El(t, [Leaf(PartyName, Verbatim(name)),
      El(Address, [Leaf(Street, Verbatim(street)), Leaf(City, Verbatim(city)), Leaf(Country, Verbatim(country))])])
  }

  function LineItemNode(item: M.CargoItem): Node
  {
    El(CargoLineItems, [El(CargoLineItem, [
      Leaf(ShippingMarks, Verbatim(item.marks)),
      Leaf(CargoDescription, Verbatim(item.description)),
      Empty(HSCode)])])
  }

  /** The weight in kilograms (KGM) and the volume in cubic metres (MTQ), the
      unit codes of UN/ECE Recommendation 20. */
  function CargoItemNode(item: M.CargoItem): Node
  {
    El(CargoItem, [
      LineItemNode(item),
      Leaf(Weight, Verbatim(item.weight)),
      Leaf(WeightUnit, Verbatim("KGM")),
      Leaf(Volume, Verbatim(item.measurement)),
      Leaf(VolumeUnit, Verbatim("MTQ")),
      Leaf(PackageQuantity, Verbatim(item.packages)),
      Leaf(PackageCode, Verbatim(item.packageType))])
  }

  /** `container.cargoItems.map(item => <cargoItem>…)`. */
  function ContainerCargo(c: M.Container): seq<Node>
  {
    seq(|c.cargoItems|, i requires 0 <= i < |c.cargoItems| => CargoItemNode(c.cargoItems[i]))
  }

  /** `containers.map(container => …).join('')`: the cargo lines of each
      container in turn. */
  function CargoItemNodes(cs: seq<M.Container>): seq<Node>
  {
    if |cs| == 0 then [] else ContainerCargo(cs[0]) + CargoItemNodes(cs[1..])
  }

  function EquipmentNode(c: M.Container): Node
  {
    El(UtilizedTransportEquipment, [
      Leaf(EquipmentReference, Verbatim(c.containerNumber)),
      Leaf(ISOEquipmentCode, Verbatim(c.containerType)),
      El(Seals, [El(Seal, [
        Leaf(SealNumber, Verbatim(c.sealNumber)),
        Leaf(SealSource, Verbatim("SHI")),
        Leaf(SealType, Verbatim("WIR"))])])])
  }

  function EquipmentNodes(cs: seq<M.Container>): seq<Node>
  {
    if |cs| == 0 then [] else [EquipmentNode(cs[0])] + EquipmentNodes(cs[1..])
  }

  function Location(t: Tag, name: string): Node
  {
    El(t, [Leaf(LocationName, Verbatim(name))])
  }

  function StageNode(f: M.BolForm): Node
  {
    El(TransportPlanStage, [
      Leaf(TransportPlanStageSequenceNumber, Verbatim("1")),
      Leaf(ModeOfTransport, Verbatim("VESSEL")),
      Leaf(VesselName, Verbatim(f.vesselName)),
      Leaf(VoyageNumber, Verbatim(f.voyageNumber)),
      Location(PlaceOfReceipt, f.placeOfReceipt),
      Location(PortOfLoading, f.portOfLoading),
      Location(PortOfDischarge, f.portOfDischarge),
      Location(PlaceOfDelivery, f.placeOfDelivery)])
  }

  function ChargeNode(name: string, amount: string, term: string): Node
  {
    El(Charge, [
      Leaf(ChargeName, Verbatim(name)),
      Leaf(ChargeAmount, Verbatim(amount)),
      Leaf(ChargeCurrency, Verbatim("USD")),
      Leaf(PaymentTerm, Verbatim(term))])
  }

  function FreightCharge(f: M.BolForm): Node
  {
    ChargeNode("FREIGHT", f.freightCharges, PaymentTermText(f))
  }

  function OtherCharge(f: M.BolForm): Node
  {
    ChargeNode("OTHER", f.otherCharges, PaymentTermText(f))
  }

  /** The children of `<charges>`: the freight charge and the other charges,
      each only when its amount is filled in. */
  function ChargeList(f: M.BolForm): seq<Node>
  {
    Optional(f.freightCharges != "", FreightCharge(f)) + Optional(f.otherCharges != "", OtherCharge(f))
  }

  function ReferencesNode(f: M.BolForm): Node
  {
    El(References, [El(Reference, [
      Leaf(ReferenceType, Verbatim("FF")),
      Leaf(ReferenceValue, Verbatim(f.exportReference))])])
  }

  // The children of `<ShippingInstruction>` in template order. The element
  // that holds the bill of lading number is closed by `close`.

  /** The element holding the bill of lading number, closed by `close`. */
  function ReferenceNode(bolNumber: string, close: Tag): Node
  {
    Element(ShippingInstructionReference, [], [Text(Verbatim(bolNumber))], close)
  }

  function Heading(f: M.BolForm, now: string, close: Tag): seq<Node>
  {
    [ReferenceNode(f.bolNumber, close),
      Leaf(DocumentStatus, Verbatim("RECEIVED")),
      Leaf(ShippingInstructionCreatedDateTime, Verbatim(now)),
      Leaf(ShippingInstructionUpdatedDateTime, Verbatim(now)),
      Leaf(TransportDocumentType, Verbatim("BOL")),
      Leaf(IsShippedOnBoardType, Verbatim("true")),
      Leaf(NumberOfCopies, Verbatim(Copies(f))),
      Leaf(NumberOfOriginals, Verbatim(Copies(f)))]
  }

  function NotifyNode(f: M.BolForm): Node
  {
    PartyNode(NotifyParty, f.notifyPartyName, f.notifyPartyAddress, f.notifyPartyCity, f.notifyPartyCountry)
  }

  function Parties(f: M.BolForm): seq<Node>
  {
    [PartyNode(Shipper, f.shipperName, f.shipperAddress, f.shipperCity, f.shipperCountry),
      PartyNode(Consignee, f.consigneeName, f.consigneeAddress, f.consigneeCity, f.consigneeCountry)]
    + Optional(f.notifyPartyName != "", NotifyNode(f))
  }

  function Shipment(f: M.BolForm, cs: seq<M.Container>): seq<Node>
  {
    [El(CargoItems, CargoItemNodes(cs)),
      El(UtilizedTransportEquipments, EquipmentNodes(cs)),
      El(TransportPlan, [StageNode(f)]),
      El(Charges, ChargeList(f)),
      ReferencesNode(f)]
  }

  function Children(f: M.BolForm, cs: seq<M.Container>, now: string, close: Tag): seq<Node>
  {
    Heading(f, now, close) + Parties(f) + Shipment(f, cs)
  }

  const Namespace: string := "https://dcsa.org/" + "schemas/ebl/v3"
  const SchemaInstance: string := "http://www.w3.org/" + "2001/XMLSchema-instance"
  const SchemaLocation: string := Namespace + " shipping-instruction" + "-v3.0.0.xsd"

  const RootAttrs: seq<Attr> := [
    Attr("xmlns", Verbatim(Namespace)),
    Attr("xmlns:xsi", Verbatim(SchemaInstance)),
    Attr("xsi:schemaLocation", Verbatim(SchemaLocation))]

  function Document(f: M.BolForm, cs: seq<M.Container>, now: string, close: Tag): Node
  {
    Element(ShippingInstruction, RootAttrs, Children(f, cs, now, close), ShippingInstruction)
  }

  /** The document as the exporter writes it: the bill of lading number is
      opened as `shippingInstructionReference` and closed as `shippingReference`. */
  function ShippingInstructionTree(f: M.BolForm, cs: seq<M.Container>, now: string): Node
  {
    Document(f, cs, now, ShippingReference)
  }

  /** The document with the bill of lading number closed by its own name. */
  function CorrectedShippingInstructionTree(f: M.BolForm, cs: seq<M.Container>, now: string): Node
  {
    Document(f, cs, now, ShippingInstructionReference)
  }

  /** `generateBOLXML`'s document, as text: `now` stands for
      `new Date().toISOString()`. The text is the serialization of the element
      tree, which is the template's output up to the whitespace between
      elements. It opens with the XML declaration and the root element, and
      its first line inside the root is the bill of lading number between two
      different tag names. */
  function GenerateBolXml(f: M.BolForm, cs: seq<M.Container>, now: string): (r: string)
    ensures var head := Prolog + ("<" + TagName(ShippingInstruction) + AttrsText(RootAttrs) + ">") + "\n"
                        + (Indent(1) + "<" + TagName(ShippingInstructionReference) + ">" + f.bolNumber
                           + "</" + TagName(ShippingReference) + ">\n");
      |head| <= |r| && r[..|head|] == head
  {
    var root := ShippingInstructionTree(f, cs, now);
    ReferenceMismatch(f, cs, now);
    ReferenceLine(f.bolNumber);
    DocumentOpening(root);
    PrefixOfConcat(Prolog + ("<" + TagName(ShippingInstruction) + AttrsText(RootAttrs) + ">") + "\n"
                   + Serialize(root.children[0], 1),
                   SerializeAll(root.children[1..], 1) + ("</" + TagName(ShippingInstruction) + ">\n"));
    DocumentText(root)
  }

  /** `BOL_${bolNumber || 'draft'}_${date}.xml`; `today` is the date part of
      `new Date().toISOString()`. */
  function BolXmlFileName(f: M.BolForm, today: string): string
  {
    "BOL_" + Or(f.bolNumber, "draft") + "_" + today + ".xml"
  }

  lemma BolXmlFileNameReadsBack(f: M.BolForm, today: string)
    ensures var n := BolXmlFileName(f, today);
      n[..4] == "BOL_" && n[|n| - 4..] == ".xml"
      && n[4..|n| - |today| - 5] == Or(f.bolNumber, "draft")
  {
  }

  // ---- Charges ---------------------------------------------------------------------------

  /** The freight charge is there exactly when its amount is filled in, and so
      is the other charge; the freight charge comes first. Both carry the one
      payment term. */
  lemma ChargesPresent(f: M.BolForm)
    ensures FreightCharge(f) in ChargeList(f) <==> f.freightCharges != ""
    ensures OtherCharge(f) in ChargeList(f) <==> f.otherCharges != ""
    ensures |ChargeList(f)| == (if f.freightCharges != "" then 1 else 0) + (if f.otherCharges != "" then 1 else 0)
    ensures f.freightCharges != "" ==> ChargeList(f)[0] == FreightCharge(f)
    ensures f.otherCharges != "" ==> ChargeList(f)[|ChargeList(f)| - 1] == OtherCharge(f)
  {
    assert FreightCharge(f) != OtherCharge(f) by {
      assert FreightCharge(f).children[0] != OtherCharge(f).children[0] by {
        assert "FREIGHT" != "OTHER" by { assert |"FREIGHT"| != |"OTHER"|; }
      }
    }
  }

  // ---- Sections ------------------------------------------------------------------------

  /** The children by element name. */
  function Outline(f: M.BolForm): seq<Option<Tag>>
  {
    [Some(ShippingInstructionReference), Some(DocumentStatus), Some(ShippingInstructionCreatedDateTime),
      Some(ShippingInstructionUpdatedDateTime), Some(TransportDocumentType), Some(IsShippedOnBoardType),
      Some(NumberOfCopies), Some(NumberOfOriginals)]
    + [Some(Shipper), Some(Consignee)] + (if f.notifyPartyName != "" then [Some(NotifyParty)] else [])
    + [Some(CargoItems), Some(UtilizedTransportEquipments), Some(TransportPlan), Some(Charges), Some(References)]
  }

  lemma HeadingLabels(f: M.BolForm, now: string, close: Tag)
    ensures Labels(Heading(f, now, close)) == [Some(ShippingInstructionReference), Some(DocumentStatus),
      Some(ShippingInstructionCreatedDateTime), Some(ShippingInstructionUpdatedDateTime), Some(TransportDocumentType),
      Some(IsShippedOnBoardType), Some(NumberOfCopies), Some(NumberOfOriginals)]
  {
  }

  lemma PartiesLabels(f: M.BolForm)
    ensures Labels(Parties(f)) == [Some(Shipper), Some(Consignee)] + (if f.notifyPartyName != "" then [Some(NotifyParty)] else [])
  {
  }

  lemma ShipmentLabels(f: M.BolForm, cs: seq<M.Container>)
    ensures Labels(Shipment(f, cs)) == [Some(CargoItems), Some(UtilizedTransportEquipments), Some(TransportPlan),
      Some(Charges), Some(References)]
  {
  }

  lemma ChildrenOutline(f: M.BolForm, cs: seq<M.Container>, now: string, close: Tag)
    ensures Labels(Children(f, cs, now, close)) == Outline(f)
  {
    var h, p, s := Heading(f, now, close), Parties(f), Shipment(f, cs);
    HeadingLabels(f, now, close);
    PartiesLabels(f);
    ShipmentLabels(f, cs);
    LabelsAppend(h, p);
    LabelsAppend(h + p, s);
  }

  /** The notify party is in the document exactly when its name is filled in;
      the shipper, the consignee and the charges always are. */
  lemma NotifyPartyPresent(f: M.BolForm, cs: seq<M.Container>, now: string)
    ensures var labels := Labels(ShippingInstructionTree(f, cs, now).children);
      (Some(NotifyParty) in labels <==> f.notifyPartyName != "")
      && Some(Shipper) in labels && Some(Consignee) in labels && Some(Charges) in labels
  {
    ChildrenOutline(f, cs, now, ShippingReference);
  }

  // ---- Cargo lines and equipment ----------------------------------------------------------

  /** The cargo lines are written in the flattened order: container after
      container, and within a container line after line. */
  lemma {:induction false} CargoItemNodesFlat(cs: seq<M.Container>)
    ensures CargoItemNodes(cs) == seq(|Flatten(cs)|, k requires 0 <= k < |Flatten(cs)| => CargoItemNode(Flatten(cs)[k]))
  {
    if |cs| > 0 {
      CargoItemNodesFlat(cs[1..]);
      var a, b := cs[0].cargoItems, Flatten(cs[1..]);
      assert Flatten(cs) == a + b;
      assert forall k :: 0 <= k < |a| + |b| ==> (a + b)[k] == if k < |a| then a[k] else b[k - |a|];
    }
  }

  /** One `<cargoItem>` per cargo line of every container, and line `j` of
      container `i` comes after all lines of the containers before it. */
  lemma CargoItemsInOrder(cs: seq<M.Container>, i: nat, j: nat)
    requires i < |cs| && j < |cs[i].cargoItems|
    ensures |CargoItemNodes(cs)| == ItemCount(cs)
    ensures ItemCount(cs[..i]) + j < ItemCount(cs)
    ensures CargoItemNodes(cs)[ItemCount(cs[..i]) + j] == CargoItemNode(cs[i].cargoItems[j])
  {
    CargoItemNodesFlat(cs);
    FlattenIndex(cs, i, j);
  }

  /** One `<utilizedTransportEquipment>` per container, in container order. */
  lemma {:induction false} EquipmentPerContainer(cs: seq<M.Container>)
    ensures |EquipmentNodes(cs)| == |cs|
    ensures forall i :: 0 <= i < |cs| ==> EquipmentNodes(cs)[i] == EquipmentNode(cs[i])
  {
    if |cs| > 0 {
      EquipmentPerContainer(cs[1..]);
      assert forall i :: 1 <= i < |cs| ==> EquipmentNodes(cs)[i] == EquipmentNodes(cs[1..])[i - 1];
    }
  }

  // ---- The closing tag and the missing escaping ----------------------------------------------

  /** The tree as written is never a well-formed tree holding every value as
      text: its first child, the bill of lading number, is closed by another
      name than it is opened with. */
  lemma ReferenceMismatch(f: M.BolForm, cs: seq<M.Container>, now: string)
    ensures ShippingInstructionTree(f, cs, now).children[0] == ReferenceNode(f.bolNumber, ShippingReference)
    ensures !WellFormed(ShippingInstructionTree(f, cs, now))
  {
    IllFormedChild(ShippingInstructionTree(f, cs, now), 0);
  }

  /** That child is written `<shippingInstructionReference>…</shippingReference>`. */
  lemma ReferenceLine(bolNumber: string)
    ensures Serialize(ReferenceNode(bolNumber, ShippingReference), 1)
      == Indent(1) + "<" + TagName(ShippingInstructionReference) + ">" + bolNumber
         + "</" + TagName(ShippingReference) + ">\n"
    ensures TagName(ShippingInstructionReference) == "shippingInstructionReference"
    ensures TagName(ShippingReference) == "shippingReference"
  {
    TextElementText(ShippingInstructionReference, Verbatim(bolNumber), ShippingReference, 1);
    ReferenceTagNames();
  }

  lemma ReferenceTagNames()
    ensures TagName(ShippingInstructionReference) == "shippingInstructionReference"
    ensures TagName(ShippingReference) == "shippingReference"
  {
  }

  /** The corrected document differs from the written one only in that closing tag. */
  lemma CorrectionIsLocal(f: M.BolForm, cs: seq<M.Container>, now: string)
    ensures var written, corrected := ShippingInstructionTree(f, cs, now).children,
                                      CorrectedShippingInstructionTree(f, cs, now).children;
      |written| == |corrected| && written[1..] == corrected[1..]
      && corrected[0] == written[0].(close := ShippingInstructionReference)
  {
    var tail := Parties(f) + Shipment(f, cs);
    var hw, hc := Heading(f, now, ShippingReference), Heading(f, now, ShippingInstructionReference);
    assert hw[1..] == hc[1..];
    assert Children(f, cs, now, ShippingReference) == hw + tail;
    assert Children(f, cs, now, ShippingInstructionReference) == hc + tail;
    SplitFirst(hw, tail);
    SplitFirst(hc, tail);
  }

  /** The first node of a concatenation and what follows it. */
  lemma SplitFirst(h: seq<Node>, t: seq<Node>)
    requires |h| >= 1
    ensures |h + t| == |h| + |t| && (h + t)[0] == h[0] && (h + t)[1..] == h[1..] + t
  {
  }

  /** The last five children are the shipment sections. */
  lemma ChildrenEnd(f: M.BolForm, cs: seq<M.Container>, now: string, close: Tag)
    ensures var ch := Children(f, cs, now, close);
      |ch| >= 5 && ch[|ch| - 5..] == Shipment(f, cs)
  {
    var hp := Heading(f, now, close) + Parties(f);
    assert Children(f, cs, now, close) == hp + Shipment(f, cs);
    assert (hp + Shipment(f, cs))[|hp|..] == Shipment(f, cs);
  }

  /** Since nothing is escaped, a `<` in the vessel name reaches the output as
      it is, and even the corrected tree is then not a well-formed tree holding
      the vessel name as text (the markup it brings may itself parse, as `<b/>`
      would). */
  lemma VesselNameVerbatim(f: M.BolForm, cs: seq<M.Container>, now: string)
    requires Contains(f.vesselName, '<')
    ensures !WellFormed(CorrectedShippingInstructionTree(f, cs, now))
  {
    StageIllFormed(f);
    var plan := El(TransportPlan, [StageNode(f)]);
    IllFormedChild(plan, 0);
    var tree := CorrectedShippingInstructionTree(f, cs, now);
    ChildrenEnd(f, cs, now, ShippingInstructionReference);
    assert tree.children[|tree.children| - 3] == plan by {
      var ch := tree.children;
      assert ch[|ch| - 5..][2] == Shipment(f, cs)[2];
    }
    IllFormedChild(tree, |tree.children| - 3);
  }

  /** A vessel name with a `<` breaks the transport plan stage it is written in. */
  lemma StageIllFormed(f: M.BolForm)
    requires Contains(f.vesselName, '<')
    ensures !WellFormed(StageNode(f))
  {
    var leaf := Leaf(VesselName, Verbatim(f.vesselName));
    assert !WellFormed(leaf) by {
      var k :| 0 <= k < |f.vesselName| && f.vesselName[k] == '<';
      assert !Safe(f.vesselName);
      IllFormedChild(leaf, 0);
    }
    assert StageNode(f).children[2] == leaf;
    IllFormedChild(StageNode(f), 2);
  }

  // ---- The corrected document is well formed ------------------------------------------------

  /** Every form value the document writes is free of the five special characters. */
  predicate PlainForm(f: M.BolForm)
  {
    NoSpecial(f.bolNumber) && NoSpecial(f.numberOfOriginalBols)
    && NoSpecial(f.shipperName) && NoSpecial(f.shipperAddress) && NoSpecial(f.shipperCity) && NoSpecial(f.shipperCountry)
    && NoSpecial(f.consigneeName) && NoSpecial(f.consigneeAddress) && NoSpecial(f.consigneeCity)
    && NoSpecial(f.consigneeCountry)
    && NoSpecial(f.notifyPartyName) && NoSpecial(f.notifyPartyAddress) && NoSpecial(f.notifyPartyCity)
    && NoSpecial(f.notifyPartyCountry)
    && NoSpecial(f.vesselName) && NoSpecial(f.voyageNumber) && NoSpecial(f.placeOfReceipt)
    && NoSpecial(f.portOfLoading) && NoSpecial(f.portOfDischarge) && NoSpecial(f.placeOfDelivery)
    && NoSpecial(f.freightCharges) && NoSpecial(f.otherCharges) && NoSpecial(f.exportReference)
  }

  predicate PlainItem(item: M.CargoItem)
  {
    NoSpecial(item.marks) && NoSpecial(item.description) && NoSpecial(item.weight)
    && NoSpecial(item.measurement) && NoSpecial(item.packages) && NoSpecial(item.packageType)
  }

  predicate PlainContainer(c: M.Container)
  {
    NoSpecial(c.containerNumber) && NoSpecial(c.containerType) && NoSpecial(c.sealNumber)
    && forall i :: 0 <= i < |c.cargoItems| ==> PlainItem(c.cargoItems[i])
  }

  predicate PlainContainers(cs: seq<M.Container>)
  {
    forall i :: 0 <= i < |cs| ==> PlainContainer(cs[i])
  }

  /** The fixed texts the template writes hold no special character. */
  lemma FixedTextsPlain()
    ensures NoSpecial("KGM") && NoSpecial("MTQ") && NoSpecial("SHI") && NoSpecial("WIR")
    ensures NoSpecial("1") && NoSpecial("VESSEL") && NoSpecial("USD") && NoSpecial("FF")
    ensures NoSpecial("RECEIVED") && NoSpecial("BOL") && NoSpecial("true") && NoSpecial("3")
    ensures NoSpecial("PREPAID") && NoSpecial("COLLECT") && NoSpecial("FREIGHT") && NoSpecial("OTHER")
  {
  }

  lemma PartyWellFormed(t: Tag, name: string, street: string, city: string, country: string)
    ensures NoSpecial(name) && NoSpecial(street) && NoSpecial(city) && NoSpecial(country)
      ==> WellFormed(PartyNode(t, name, street, city, country))
  {
    var n, st, ci, co := Leaf(PartyName, Verbatim(name)), Leaf(Street, Verbatim(street)),
      Leaf(City, Verbatim(city)), Leaf(Country, Verbatim(country));
    VerbatimWellFormed(PartyName, name);
    VerbatimWellFormed(Street, street);
    VerbatimWellFormed(City, city);
    VerbatimWellFormed(Country, country);
    El3(Address, st, ci, co);
    El2(t, n, El(Address, [st, ci, co]));
  }

  lemma CargoItemWellFormed(item: M.CargoItem)
    requires PlainItem(item)
    ensures WellFormed(CargoItemNode(item))
  {
    FixedTextsPlain();
    var m, d, h := Leaf(ShippingMarks, Verbatim(item.marks)), Leaf(CargoDescription, Verbatim(item.description)), Empty(HSCode);
    VerbatimWellFormed(ShippingMarks, item.marks);
    VerbatimWellFormed(CargoDescription, item.description);
    EmptyWellFormed(HSCode);
    El3(CargoLineItem, m, d, h);
    El1(CargoLineItems, El(CargoLineItem, [m, d, h]));
    var w, wu, v, vu := Leaf(Weight, Verbatim(item.weight)), Leaf(WeightUnit, Verbatim("KGM")),
      Leaf(Volume, Verbatim(item.measurement)), Leaf(VolumeUnit, Verbatim("MTQ"));
    var pq, pc := Leaf(PackageQuantity, Verbatim(item.packages)), Leaf(PackageCode, Verbatim(item.packageType));
    VerbatimWellFormed(Weight, item.weight);
    VerbatimWellFormed(WeightUnit, "KGM");
    VerbatimWellFormed(Volume, item.measurement);
    VerbatimWellFormed(VolumeUnit, "MTQ");
    VerbatimWellFormed(PackageQuantity, item.packages);
    VerbatimWellFormed(PackageCode, item.packageType);
    El7(CargoItem, LineItemNode(item), w, wu, v, vu, pq, pc);
  }

  lemma {:induction false} CargoItemNodesWellFormed(cs: seq<M.Container>)
    requires PlainContainers(cs)
    ensures AllWellFormed(CargoItemNodes(cs))
  {
    if |cs| > 0 {
      var c := cs[0];
      assert PlainContainer(c);
      forall i | 0 <= i < |c.cargoItems|
        ensures WellFormed(ContainerCargo(c)[i])
      {
        CargoItemWellFormed(c.cargoItems[i]);
      }
      assert PlainContainers(cs[1..]) by {
        assert forall i :: 0 <= i < |cs[1..]| ==> cs[1..][i] == cs[i + 1];
      }
      CargoItemNodesWellFormed(cs[1..]);
      AllWellFormedAppend(ContainerCargo(c), CargoItemNodes(cs[1..]));
    }
  }

  lemma EquipmentWellFormed(c: M.Container)
    requires PlainContainer(c)
    ensures WellFormed(EquipmentNode(c))
  {
    FixedTextsPlain();
    var r, i := Leaf(EquipmentReference, Verbatim(c.containerNumber)), Leaf(ISOEquipmentCode, Verbatim(c.containerType));
    var n, so, ty := Leaf(SealNumber, Verbatim(c.sealNumber)), Leaf(SealSource, Verbatim("SHI")), Leaf(SealType, Verbatim("WIR"));
    VerbatimWellFormed(EquipmentReference, c.containerNumber);
    VerbatimWellFormed(ISOEquipmentCode, c.containerType);
    VerbatimWellFormed(SealNumber, c.sealNumber);
    VerbatimWellFormed(SealSource, "SHI");
    VerbatimWellFormed(SealType, "WIR");
    El3(Seal, n, so, ty);
    El1(Seals, El(Seal, [n, so, ty]));
    El3(UtilizedTransportEquipment, r, i, El(Seals, [El(Seal, [n, so, ty])]));
  }

  lemma EquipmentNodesWellFormed(cs: seq<M.Container>)
    requires PlainContainers(cs)
    ensures AllWellFormed(EquipmentNodes(cs))
  {
    EquipmentPerContainer(cs);
    forall i | 0 <= i < |cs|
      ensures WellFormed(EquipmentNodes(cs)[i])
    {
      EquipmentWellFormed(cs[i]);
    }
  }

  lemma LocationWellFormed(t: Tag, name: string)
    ensures NoSpecial(name) ==> WellFormed(Location(t, name))
  {
    VerbatimWellFormed(LocationName, name);
    El1(t, Leaf(LocationName, Verbatim(name)));
  }

  lemma StageWellFormed(f: M.BolForm)
    requires PlainForm(f)
    ensures WellFormed(StageNode(f))
  {
    FixedTextsPlain();
    var sq, mo := Leaf(TransportPlanStageSequenceNumber, Verbatim("1")), Leaf(ModeOfTransport, Verbatim("VESSEL"));
    var ve, vo := Leaf(VesselName, Verbatim(f.vesselName)), Leaf(VoyageNumber, Verbatim(f.voyageNumber));
    VerbatimWellFormed(TransportPlanStageSequenceNumber, "1");
    VerbatimWellFormed(ModeOfTransport, "VESSEL");
    VerbatimWellFormed(VesselName, f.vesselName);
    VerbatimWellFormed(VoyageNumber, f.voyageNumber);
    LocationWellFormed(PlaceOfReceipt, f.placeOfReceipt);
    LocationWellFormed(PortOfLoading, f.portOfLoading);
    LocationWellFormed(PortOfDischarge, f.portOfDischarge);
    LocationWellFormed(PlaceOfDelivery, f.placeOfDelivery);
    El8(TransportPlanStage, sq, mo, ve, vo, Location(PlaceOfReceipt, f.placeOfReceipt),
      Location(PortOfLoading, f.portOfLoading), Location(PortOfDischarge, f.portOfDischarge),
      Location(PlaceOfDelivery, f.placeOfDelivery));
  }

  lemma ChargeWellFormed(name: string, amount: string, term: string)
    ensures NoSpecial(name) && NoSpecial(amount) && NoSpecial(term) ==> WellFormed(ChargeNode(name, amount, term))
  {
    FixedTextsPlain();
    VerbatimWellFormed(ChargeName, name);
    VerbatimWellFormed(ChargeAmount, amount);
    VerbatimWellFormed(ChargeCurrency, "USD");
    VerbatimWellFormed(PaymentTerm, term);
    El4(Charge, Leaf(ChargeName, Verbatim(name)), Leaf(ChargeAmount, Verbatim(amount)),
      Leaf(ChargeCurrency, Verbatim("USD")), Leaf(PaymentTerm, Verbatim(term)));
  }

  lemma ChargesWellFormed(f: M.BolForm)
    requires PlainForm(f)
    ensures AllWellFormed(ChargeList(f))
  {
    FixedTextsPlain();
    var term := PaymentTermText(f);
    ChargeWellFormed("FREIGHT", f.freightCharges, term);
    ChargeWellFormed("OTHER", f.otherCharges, term);
    OptionalWellFormed(f.freightCharges != "", FreightCharge(f));
    OptionalWellFormed(f.otherCharges != "", OtherCharge(f));
    AllWellFormedAppend(Optional(f.freightCharges != "", FreightCharge(f)), Optional(f.otherCharges != "", OtherCharge(f)));
  }

  lemma HeadingWellFormed(f: M.BolForm, now: string)
    requires PlainForm(f) && NoSpecial(now)
    ensures AllWellFormed(Heading(f, now, ShippingInstructionReference))
  {
    FixedTextsPlain();
    var copies := Copies(f);
    VerbatimWellFormed(ShippingInstructionReference, f.bolNumber);
    VerbatimWellFormed(DocumentStatus, "RECEIVED");
    VerbatimWellFormed(ShippingInstructionCreatedDateTime, now);
    VerbatimWellFormed(ShippingInstructionUpdatedDateTime, now);
    VerbatimWellFormed(TransportDocumentType, "BOL");
    VerbatimWellFormed(IsShippedOnBoardType, "true");
    VerbatimWellFormed(NumberOfCopies, copies);
    VerbatimWellFormed(NumberOfOriginals, copies);
    AllWf8(Leaf(ShippingInstructionReference, Verbatim(f.bolNumber)), Leaf(DocumentStatus, Verbatim("RECEIVED")),
      Leaf(ShippingInstructionCreatedDateTime, Verbatim(now)), Leaf(ShippingInstructionUpdatedDateTime, Verbatim(now)),
      Leaf(TransportDocumentType, Verbatim("BOL")), Leaf(IsShippedOnBoardType, Verbatim("true")),
      Leaf(NumberOfCopies, Verbatim(copies)), Leaf(NumberOfOriginals, Verbatim(copies)));
  }

  lemma PartiesWellFormed(f: M.BolForm)
    requires PlainForm(f)
    ensures AllWellFormed(Parties(f))
  {
    var sh := PartyNode(Shipper, f.shipperName, f.shipperAddress, f.shipperCity, f.shipperCountry);
    var co := PartyNode(Consignee, f.consigneeName, f.consigneeAddress, f.consigneeCity, f.consigneeCountry);
    var no := Optional(f.notifyPartyName != "", NotifyNode(f));
    assert WellFormed(sh) by {
      PartyWellFormed(Shipper, f.shipperName, f.shipperAddress, f.shipperCity, f.shipperCountry);
    }
    assert WellFormed(co) by {
      PartyWellFormed(Consignee, f.consigneeName, f.consigneeAddress, f.consigneeCity, f.consigneeCountry);
    }
    assert AllWellFormed(no) by {
      PartyWellFormed(NotifyParty, f.notifyPartyName, f.notifyPartyAddress, f.notifyPartyCity, f.notifyPartyCountry);
      OptionalWellFormed(f.notifyPartyName != "", NotifyNode(f));
    }
    PairThenRest(sh, co, no);
  }

  lemma PairThenRest(a: Node, b: Node, rest: seq<Node>)
    requires WellFormed(a) && WellFormed(b) && AllWellFormed(rest)
    ensures AllWellFormed([a, b] + rest)
  {
    AllWellFormedAppend([a, b], rest);
  }

  lemma ShipmentWellFormed(f: M.BolForm, cs: seq<M.Container>)
    requires PlainForm(f) && PlainContainers(cs)
    ensures AllWellFormed(Shipment(f, cs))
  {
    FixedTextsPlain();
    CargoItemNodesWellFormed(cs);
    ElWellFormed(CargoItems, CargoItemNodes(cs));
    EquipmentNodesWellFormed(cs);
    ElWellFormed(UtilizedTransportEquipments, EquipmentNodes(cs));
    StageWellFormed(f);
    El1(TransportPlan, StageNode(f));
    ChargesWellFormed(f);
    ElWellFormed(Charges, ChargeList(f));
    var rt, rv := Leaf(ReferenceType, Verbatim("FF")), Leaf(ReferenceValue, Verbatim(f.exportReference));
    VerbatimWellFormed(ReferenceType, "FF");
    VerbatimWellFormed(ReferenceValue, f.exportReference);
    El2(Reference, rt, rv);
    El1(References, El(Reference, [rt, rv]));
    AllWf5(El(CargoItems, CargoItemNodes(cs)), El(UtilizedTransportEquipments, EquipmentNodes(cs)),
      El(TransportPlan, [StageNode(f)]), El(Charges, ChargeList(f)), ReferencesNode(f));
  }

  lemma RootAttrsSafe()
    ensures forall i :: 0 <= i < |RootAttrs| ==> Safe(ContentText(RootAttrs[i].value))
  {
    NoSpecialAppend("https://dcsa.org/", "schemas/ebl/v3");
    NoSpecialAppend("http://www.w3.org/", "2001/XMLSchema-instance");
    NoSpecialAppend(Namespace, " shipping-instruction");
    NoSpecialAppend(Namespace + " shipping-instruction", "-v3.0.0.xsd");
    ContentSafe(Verbatim(Namespace));
    ContentSafe(Verbatim(SchemaInstance));
    ContentSafe(Verbatim(SchemaLocation));
  }

  /** With the closing tag corrected, the document is well formed whenever no
      value it writes holds one of the five special characters. */
  lemma CorrectedWellFormed(f: M.BolForm, cs: seq<M.Container>, now: string)
    requires PlainForm(f) && PlainContainers(cs) && NoSpecial(now)
    ensures WellFormed(CorrectedShippingInstructionTree(f, cs, now))
  {
    HeadingWellFormed(f, now);
    PartiesWellFormed(f);
    ShipmentWellFormed(f, cs);
    AllWellFormedAppend(Heading(f, now, ShippingInstructionReference), Parties(f));
    AllWellFormedAppend(Heading(f, now, ShippingInstructionReference) + Parties(f), Shipment(f, cs));
    RootAttrsSafe();
  }
}
