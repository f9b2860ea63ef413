/** The documents both XML exporters build, as a tree, and its serialisation.

    Text content is of two kinds. `Escaped(raw)` is a field value passed
    through `escapeXml` at the point of insertion (the serialiser applies
    `EscapeXml` to it exactly once); `Verbatim(s)` is inserted as it is. An
    element records the name of its closing tag separately, because one
    template closes an element with a different name than it opened. */
module XmlTree {
  import opened Common
  import opened XmlEscape

  /** Every element name the two exporters write. */
  datatype Tag =
    // CMR road consignment note
    | CmrDocument | DocumentHeader | DocumentType | DocumentNumber | IssueDate | IssuePlace
    | Sender | Name | Address | Street | Country | Consignee | TakeoverDetails | Place | DateTag
    | DeliveryDetails | Carrier | SuccessiveCarriers | Vehicle | Registration | TrailerRegistration
    | Goods | Summary | TotalPackages | TotalWeight | TotalVolume | CargoItems | CargoItem
    | Quantity | Description | Weight | Volume | Marks | CashOnDelivery | Amount
    | CarriersReservations | TextTag | AgreedUpon | FreightCharges | PaidBy | CarriageCharges
    | Supplements | CustomsInstructions | SpecialAgreements | DocumentsAttached | Signatures
    | Signature | LegalNotice
    // DCSA eBL v3 shipping instruction
    | ShippingInstruction | ShippingInstructionReference | ShippingReference | DocumentStatus
    | ShippingInstructionCreatedDateTime | ShippingInstructionUpdatedDateTime
    | TransportDocumentType | IsShippedOnBoardType | NumberOfCopies | NumberOfOriginals
    | Shipper | PartyName | City | NotifyParty | CargoLineItems | CargoLineItem | ShippingMarks
    | CargoDescription | HSCode | WeightUnit | VolumeUnit | PackageQuantity | PackageCode
    | UtilizedTransportEquipments | UtilizedTransportEquipment | EquipmentReference
    | ISOEquipmentCode | Seals | Seal | SealNumber | SealSource | SealType | TransportPlan
    | TransportPlanStage | TransportPlanStageSequenceNumber | ModeOfTransport | VesselName
    | VoyageNumber | PlaceOfReceipt | LocationName | PortOfLoading | PortOfDischarge
    | PlaceOfDelivery | Charges | Charge | ChargeName | ChargeAmount | ChargeCurrency
    | PaymentTerm | References | Reference | ReferenceType | ReferenceValue

  function TagName(t: Tag): string
  {
    match t
    case CmrDocument => "cmrDocument"
    case DocumentHeader => "documentHeader"
    case DocumentType => "documentType"
    case DocumentNumber => "documentNumber"
    case IssueDate => "issueDate"
    case IssuePlace => "issuePlace"
    case Sender => "sender"
    case Name => "name"
    case Address => "address"
    case Street => "street"
    case Country => "country"
    case Consignee => "consignee"
    case TakeoverDetails => "takeoverDetails"
    case Place => "place"
    case DateTag => "date"
    case DeliveryDetails => "deliveryDetails"
    case Carrier => "carrier"
    case SuccessiveCarriers => "successiveCarriers"
    case Vehicle => "vehicle"
    case Registration => "registration"
    case TrailerRegistration => "trailerRegistration"
    case Goods => "goods"
    case Summary => "summary"
    case TotalPackages => "totalPackages"
    case TotalWeight => "totalWeight"
    case TotalVolume => "totalVolume"
    case CargoItems => "cargoItems"
    case CargoItem => "cargoItem"
    case Quantity => "quantity"
    case Description => "description"
    case Weight => "weight"
    case Volume => "volume"
    case Marks => "marks"
    case CashOnDelivery => "cashOnDelivery"
    case Amount => "amount"
    case CarriersReservations => "carriersReservations"
    case TextTag => "text"
    case AgreedUpon => "agreedUpon"
    case FreightCharges => "freightCharges"
    case PaidBy => "paidBy"
    case CarriageCharges => "carriageCharges"
    case Supplements => "supplements"
    case CustomsInstructions => "customsInstructions"
    case SpecialAgreements => "specialAgreements"
    case DocumentsAttached => "documentsAttached"
    case Signatures => "signatures"
    case Signature => "signature"
    case LegalNotice => "legalNotice"
    case ShippingInstruction => "ShippingInstruction"
    case ShippingInstructionReference => "shippingInstructionReference"
    case ShippingReference => "shippingReference"
    case DocumentStatus => "documentStatus"
    case ShippingInstructionCreatedDateTime => "shippingInstructionCreatedDateTime"
    case ShippingInstructionUpdatedDateTime => "shippingInstructionUpdatedDateTime"
    case TransportDocumentType => "transportDocumentType"
    case IsShippedOnBoardType => "isShippedOnBoardType"
    case NumberOfCopies => "numberOfCopies"
    case NumberOfOriginals => "numberOfOriginals"
    case Shipper => "shipper"
    case PartyName => "partyName"
    case City => "city"
    case NotifyParty => "notifyParty"
    case CargoLineItems => "cargoLineItems"
    case CargoLineItem => "cargoLineItem"
    case ShippingMarks => "shippingMarks"
    case CargoDescription => "cargoDescription"
    case HSCode => "HSCode"
    case WeightUnit => "weightUnit"
    case VolumeUnit => "volumeUnit"
    case PackageQuantity => "packageQuantity"
    case PackageCode => "packageCode"
    case UtilizedTransportEquipments => "utilizedTransportEquipments"
    case UtilizedTransportEquipment => "utilizedTransportEquipment"
    case EquipmentReference => "equipmentReference"
    case ISOEquipmentCode => "ISOEquipmentCode"
    case Seals => "seals"
    case Seal => "seal"
    case SealNumber => "sealNumber"
    case SealSource => "sealSource"
    case SealType => "sealType"
    case TransportPlan => "transportPlan"
    case TransportPlanStage => "transportPlanStage"
    case TransportPlanStageSequenceNumber => "transportPlanStageSequenceNumber"
    case ModeOfTransport => "modeOfTransport"
    case VesselName => "vesselName"
    case VoyageNumber => "voyageNumber"
    case PlaceOfReceipt => "placeOfReceipt"
    case LocationName => "locationName"
    case PortOfLoading => "portOfLoading"
    case PortOfDischarge => "portOfDischarge"
    case PlaceOfDelivery => "placeOfDelivery"
    case Charges => "charges"
    case Charge => "charge"
    case ChargeName => "chargeName"
    case ChargeAmount => "chargeAmount"
    case ChargeCurrency => "chargeCurrency"
    case PaymentTerm => "paymentTerm"
    case References => "references"
    case Reference => "reference"
    case ReferenceType => "referenceType"
    case ReferenceValue => "referenceValue"
  }

  datatype Content = Escaped(raw: string) | Verbatim(text: string)

  datatype Attr = Attr(name: string, value: Content)

  datatype Node =
    | Element(tag: Tag, attrs: seq<Attr>, children: seq<Node>, close: Tag)
    | Text(content: Content)
    | Comment(body: string)

  /** The text that a content item contributes to the output. */
  function ContentText(c: Content): string
  {
    match c
    case Escaped(raw) => EscapeXml(raw)
    case Verbatim(s) => s
  }

  /** An element closed by its own name. */
  function El(t: Tag, children: seq<Node>): Node
  {
    Element(t, [], children, t)
  }

  /** `<t>content</t>`. */
  function Leaf(t: Tag, c: Content): Node
  {
    Element(t, [], [Text(c)], t)
  }

  /** `<t></t>`. */
  function Empty(t: Tag): Node
  {
    Element(t, [], [], t)
  }

  /** The template's `${cond ? `<section>` : ''}`: the section, or nothing at all. */
  function Optional(cond: bool, n: Node): seq<Node>
  {
    if cond then [n] else []
  }

  /** The element name of each node of a sequence (None for text and comments). */
  function Label(n: Node): Option<Tag>
  {
    if n.Element? then Some(n.tag) else None
  }

  function Labels(ns: seq<Node>): (r: seq<Option<Tag>>)
    ensures |r| == |ns|
    ensures forall i :: 0 <= i < |ns| ==> r[i] == Label(ns[i])
  {
    seq(|ns|, i requires 0 <= i < |ns| => Label(ns[i]))
  }

  lemma LabelsAppend(a: seq<Node>, b: seq<Node>)
    ensures Labels(a + b) == Labels(a) + Labels(b)
  {
  }

  // ---- Well-formedness ----------------------------------------------------------

  /** Every element is closed by its own name, and every text and attribute
      value is character data a parser reads as intended. */
  predicate WellFormed(n: Node)
  {
    match n
    case Text(c) => Safe(ContentText(c))
    case Comment(_) => true
    case Element(t, attrs, children, close) =>
      close == t
      && (forall i :: 0 <= i < |attrs| ==> Safe(ContentText(attrs[i].value)))
      && (forall i :: 0 <= i < |children| ==> WellFormed(children[i]))
  }

  predicate AllWellFormed(ns: seq<Node>)
  {
    forall i :: 0 <= i < |ns| ==> WellFormed(ns[i])
  }

  lemma AllWellFormedAppend(a: seq<Node>, b: seq<Node>)
    ensures AllWellFormed(a) && AllWellFormed(b) ==> AllWellFormed(a + b)
  {
  }

  /** Escaped text is always safe; verbatim text is safe when it holds no
      special character. */
  lemma ContentSafe(c: Content)
    requires c.Verbatim? ==> NoSpecial(c.text)
    ensures Safe(ContentText(c))
  {
    if c.Escaped? { SafeEscapeXml(c.raw); } else { NoSpecialSafe(c.text); }
  }

  lemma LeafWellFormed(t: Tag, c: Content)
    requires c.Verbatim? ==> NoSpecial(c.text)
    ensures WellFormed(Leaf(t, c))
  {
    ContentSafe(c);
    assert WellFormed(Text(c));
  }

  // ---- Escaped values -----------------------------------------------------------

  /** The raw values that pass through `EscapeXml`, in document order: every
      escaped text and attribute value. */
  function Raws(n: Node): seq<string>
    decreases n, 1
  {
    match n
    case Text(c) => ContentRaws(c)
    case Comment(_) => []
    case Element(_, attrs, children, _) => AttrRaws(attrs) + RawsAll(children)
  }

  function ContentRaws(c: Content): seq<string>
  {
    if c.Escaped? then [c.raw] else []
  }

  function AttrRaws(attrs: seq<Attr>): seq<string>
  {
    if |attrs| == 0 then [] else ContentRaws(attrs[0].value) + AttrRaws(attrs[1..])
  }

  function RawsAll(ns: seq<Node>): seq<string>
    decreases ns, 0
  {
    if |ns| == 0 then [] else Raws(ns[0]) + RawsAll(ns[1..])
  }

  lemma {:induction false} RawsAllAppend(a: seq<Node>, b: seq<Node>)
    ensures RawsAll(a + b) == RawsAll(a) + RawsAll(b)
  {
    if |a| > 0 {
      assert (a + b)[1..] == a[1..] + b;
      RawsAllAppend(a[1..], b);
    } else {
      assert a + b == b;
    }
  }

  lemma RawsAllCons(n: Node, ns: seq<Node>)
    ensures RawsAll([n] + ns) == Raws(n) + RawsAll(ns)
  {
    assert ([n] + ns)[1..] == ns;
  }

  lemma RawsAll1(a: Node)
    ensures RawsAll([a]) == Raws(a)
  {
    RawsAllCons(a, []);
    assert [a] + [] == [a];
  }

  lemma RawsAll2(a: Node, b: Node)
    ensures RawsAll([a, b]) == Raws(a) + Raws(b)
  {
    RawsAll1(b);
    RawsAllCons(a, [b]);
    assert [a] + [b] == [a, b];
  }

  lemma RawsAll3(a: Node, b: Node, c: Node)
    ensures RawsAll([a, b, c]) == Raws(a) + Raws(b) + Raws(c)
  {
    RawsAll2(b, c);
    RawsAllCons(a, [b, c]);
    assert [a] + [b, c] == [a, b, c];
    Assoc(Raws(a), Raws(b), Raws(c));
  }

  lemma RawsAll4(a: Node, b: Node, c: Node, d: Node)
    ensures RawsAll([a, b, c, d]) == Raws(a) + Raws(b) + Raws(c) + Raws(d)
  {
    RawsAll3(b, c, d);
    RawsAllCons(a, [b, c, d]);
    assert [a] + [b, c, d] == [a, b, c, d];
    Assoc(Raws(a), Raws(b) + Raws(c), Raws(d));
    Assoc(Raws(a), Raws(b), Raws(c));
  }

  lemma RawsAll5(a: Node, b: Node, c: Node, d: Node, e: Node)
    ensures RawsAll([a, b, c, d, e]) == Raws(a) + Raws(b) + Raws(c) + Raws(d) + Raws(e)
  {
    RawsAll4(b, c, d, e);
    RawsAllCons(a, [b, c, d, e]);
    assert [a] + [b, c, d, e] == [a, b, c, d, e];
    Assoc(Raws(a), Raws(b) + Raws(c) + Raws(d), Raws(e));
    Assoc(Raws(a), Raws(b) + Raws(c), Raws(d));
    Assoc(Raws(a), Raws(b), Raws(c));
  }

  lemma LeafRaws(t: Tag, c: Content)
    ensures Raws(Leaf(t, c)) == ContentRaws(c)
  {
    RawsAll1(Text(c));
  }

  lemma OptionalRaws(cond: bool, n: Node)
    ensures RawsAll(Optional(cond, n)) == if cond then Raws(n) else []
  {
    if cond { RawsAll1(n); }
  }

  lemma ElRaws(t: Tag, children: seq<Node>)
    ensures Raws(El(t, children)) == RawsAll(children)
  {
  }

  lemma AttrRaws1(a: Attr)
    ensures AttrRaws([a]) == ContentRaws(a.value)
  {
    assert [a][1..] == [];
  }

  lemma ElWellFormed(t: Tag, children: seq<Node>)
    ensures AllWellFormed(children) ==> WellFormed(El(t, children))
  {
  }

  lemma Concat5<T>(a: T, b: T, c: T, d: T, e: T)
    ensures [a] + [b] + [c] + [d] + [e] == [a, b, c, d, e]
  {
  }

  lemma Concat2<T>(a: T, b: T)
    ensures [] + [a] + [b] == [a, b]
  {
  }

  lemma Assoc<T>(a: seq<T>, b: seq<T>, c: seq<T>)
    ensures a + (b + c) == a + b + c
  {
  }

  /** Joining runs of nodes: well-formed runs give a well-formed run, and the
      escaped values are the runs' values one after the other. */
  lemma Join2(a: seq<Node>, b: seq<Node>, ra: seq<string>, rb: seq<string>)
    requires AllWellFormed(a) && AllWellFormed(b)
    requires RawsAll(a) == ra && RawsAll(b) == rb
    ensures AllWellFormed(a + b) && RawsAll(a + b) == ra + rb
  {
    RawsAllAppend(a, b);
  }

  lemma Join3(a: seq<Node>, b: seq<Node>, c: seq<Node>, ra: seq<string>, rb: seq<string>, rc: seq<string>)
    requires AllWellFormed(a) && AllWellFormed(b) && AllWellFormed(c)
    requires RawsAll(a) == ra && RawsAll(b) == rb && RawsAll(c) == rc
    ensures AllWellFormed(a + b + c) && RawsAll(a + b + c) == ra + rb + rc
  {
    Join2(a, b, ra, rb);
    Join2(a + b, c, ra + rb, rc);
  }

  lemma Join4(a: seq<Node>, b: seq<Node>, c: seq<Node>, d: seq<Node>,
              ra: seq<string>, rb: seq<string>, rc: seq<string>, rd: seq<string>)
    requires AllWellFormed(a) && AllWellFormed(b) && AllWellFormed(c) && AllWellFormed(d)
    requires RawsAll(a) == ra && RawsAll(b) == rb && RawsAll(c) == rc && RawsAll(d) == rd
    ensures AllWellFormed(a + b + c + d) && RawsAll(a + b + c + d) == ra + rb + rc + rd
  {
    Join3(a, b, c, ra, rb, rc);
    Join2(a + b + c, d, ra + rb + rc, rd);
  }

  lemma Join5(a: seq<Node>, b: seq<Node>, c: seq<Node>, d: seq<Node>, e: seq<Node>,
              ra: seq<string>, rb: seq<string>, rc: seq<string>, rd: seq<string>, re: seq<string>)
    requires AllWellFormed(a) && AllWellFormed(b) && AllWellFormed(c) && AllWellFormed(d) && AllWellFormed(e)
    requires RawsAll(a) == ra && RawsAll(b) == rb && RawsAll(c) == rc && RawsAll(d) == rd && RawsAll(e) == re
    ensures AllWellFormed(a + b + c + d + e) && RawsAll(a + b + c + d + e) == ra + rb + rc + rd + re
  {
    Join4(a, b, c, d, ra, rb, rc, rd);
    Join2(a + b + c + d, e, ra + rb + rc + rd, re);
  }

  lemma CommentRun(body: string)
    ensures AllWellFormed([Comment(body)]) && RawsAll([Comment(body)]) == []
  {
    RawsAll1(Comment(body));
  }

  lemma Run2(a: Node, b: Node, ra: seq<string>, rb: seq<string>)
    requires WellFormed(a) && WellFormed(b)
    requires Raws(a) == ra && Raws(b) == rb
    ensures AllWellFormed([a, b]) && RawsAll([a, b]) == ra + rb
  {
    RawsAll2(a, b);
  }

  lemma Run3(a: Node, b: Node, c: Node, ra: seq<string>, rb: seq<string>, rc: seq<string>)
    requires WellFormed(a) && WellFormed(b) && WellFormed(c)
    requires Raws(a) == ra && Raws(b) == rb && Raws(c) == rc
    ensures AllWellFormed([a, b, c]) && RawsAll([a, b, c]) == ra + rb + rc
  {
    RawsAll3(a, b, c);
  }

  lemma Run4(a: Node, b: Node, c: Node, d: Node, ra: seq<string>, rb: seq<string>, rc: seq<string>, rd: seq<string>)
    requires WellFormed(a) && WellFormed(b) && WellFormed(c) && WellFormed(d)
    requires Raws(a) == ra && Raws(b) == rb && Raws(c) == rc && Raws(d) == rd
    ensures AllWellFormed([a, b, c, d]) && RawsAll([a, b, c, d]) == ra + rb + rc + rd
  {
    RawsAll4(a, b, c, d);
  }

  lemma Run5(a: Node, b: Node, c: Node, d: Node, e: Node, ra: seq<string>, rb: seq<string>, rc: seq<string>, rd: seq<string>, re: seq<string>)
    requires WellFormed(a) && WellFormed(b) && WellFormed(c) && WellFormed(d) && WellFormed(e)
    requires Raws(a) == ra && Raws(b) == rb && Raws(c) == rc && Raws(d) == rd && Raws(e) == re
    ensures AllWellFormed([a, b, c, d, e]) && RawsAll([a, b, c, d, e]) == ra + rb + rc + rd + re
  {
    RawsAll5(a, b, c, d, e);
  }

  lemma AppendEmpty<T>(a: seq<T>)
    ensures [] + a == a && a + [] == a
  {
  }

  /** An element closed by its own name, with safe attribute values and well
      formed children, is well formed; its escaped values are its attributes'
      and then its children's. */
  lemma ElementFacts(t: Tag, attrs: seq<Attr>, children: seq<Node>, ra: seq<string>, rc: seq<string>)
    requires forall i :: 0 <= i < |attrs| ==> Safe(ContentText(attrs[i].value))
    requires AllWellFormed(children)
    requires AttrRaws(attrs) == ra && RawsAll(children) == rc
    ensures WellFormed(Element(t, attrs, children, t))
    ensures Raws(Element(t, attrs, children, t)) == ra + rc
  {
  }

  lemma El1(t: Tag, a: Node)
    ensures (WellFormed(a)) ==> WellFormed(El(t, [a]))
    ensures Raws(El(t, [a])) == Raws(a)
  {
    RawsAll1(a);
    ElRaws(t, [a]);
  }

  lemma El2(t: Tag, a: Node, b: Node)
    ensures (WellFormed(a) && WellFormed(b)) ==> WellFormed(El(t, [a, b]))
    ensures Raws(El(t, [a, b])) == Raws(a) + Raws(b)
  {
    RawsAll2(a, b);
    ElRaws(t, [a, b]);
  }

  lemma El3(t: Tag, a: Node, b: Node, c: Node)
    ensures (WellFormed(a) && WellFormed(b) && WellFormed(c)) ==> WellFormed(El(t, [a, b, c]))
    ensures Raws(El(t, [a, b, c])) == Raws(a) + Raws(b) + Raws(c)
  {
    assert Raws(El(t, [a, b, c])) == Raws(a) + Raws(b) + Raws(c) by {
      RawsAll3(a, b, c);
      ElRaws(t, [a, b, c]);
    }
    AllWf3(a, b, c);
    ElWellFormed(t, [a, b, c]);
  }

  lemma El4(t: Tag, a: Node, b: Node, c: Node, d: Node)
    ensures (WellFormed(a) && WellFormed(b) && WellFormed(c) && WellFormed(d)) ==> WellFormed(El(t, [a, b, c, d]))
    ensures Raws(El(t, [a, b, c, d])) == Raws(a) + Raws(b) + Raws(c) + Raws(d)
  {
    assert Raws(El(t, [a, b, c, d])) == Raws(a) + Raws(b) + Raws(c) + Raws(d) by {
      RawsAll4(a, b, c, d);
      ElRaws(t, [a, b, c, d]);
    }
    AllWf4(a, b, c, d);
    ElWellFormed(t, [a, b, c, d]);
  }

  lemma El5(t: Tag, a: Node, b: Node, c: Node, d: Node, e: Node)
    ensures (WellFormed(a) && WellFormed(b) && WellFormed(c) && WellFormed(d) && WellFormed(e)) ==> WellFormed(El(t, [a, b, c, d, e]))
    ensures Raws(El(t, [a, b, c, d, e])) == Raws(a) + Raws(b) + Raws(c) + Raws(d) + Raws(e)
  {
    assert Raws(El(t, [a, b, c, d, e])) == Raws(a) + Raws(b) + Raws(c) + Raws(d) + Raws(e) by {
      RawsAll5(a, b, c, d, e);
      ElRaws(t, [a, b, c, d, e]);
    }
    AllWf5(a, b, c, d, e);
    ElWellFormed(t, [a, b, c, d, e]);
  }

  /** Well-formed nodes in a row, and an element over them. */
  lemma AllWf3(a: Node, b: Node, c: Node)
    ensures WellFormed(a) && WellFormed(b) && WellFormed(c) ==> AllWellFormed([a, b, c])
  {
  }

  lemma AllWf4(a: Node, b: Node, c: Node, d: Node)
    ensures WellFormed(a) && WellFormed(b) && WellFormed(c) && WellFormed(d) ==> AllWellFormed([a, b, c, d])
  {
  }

  lemma AllWf5(a: Node, b: Node, c: Node, d: Node, e: Node)
    ensures WellFormed(a) && WellFormed(b) && WellFormed(c) && WellFormed(d) && WellFormed(e)
      ==> AllWellFormed([a, b, c, d, e])
  {
  }

  lemma AllWf7(a: Node, b: Node, c: Node, d: Node, e: Node, g: Node, h: Node)
    ensures WellFormed(a) && WellFormed(b) && WellFormed(c) && WellFormed(d)
      && WellFormed(e) && WellFormed(g) && WellFormed(h)
      ==> AllWellFormed([a, b, c, d, e, g, h])
  {
  }

  lemma AllWf8(a: Node, b: Node, c: Node, d: Node, e: Node, g: Node, h: Node, k: Node)
    ensures WellFormed(a) && WellFormed(b) && WellFormed(c) && WellFormed(d)
      && WellFormed(e) && WellFormed(g) && WellFormed(h) && WellFormed(k)
      ==> AllWellFormed([a, b, c, d, e, g, h, k])
  {
  }

  lemma El7(t: Tag, a: Node, b: Node, c: Node, d: Node, e: Node, g: Node, h: Node)
    ensures WellFormed(a) && WellFormed(b) && WellFormed(c) && WellFormed(d)
      && WellFormed(e) && WellFormed(g) && WellFormed(h)
      ==> WellFormed(El(t, [a, b, c, d, e, g, h]))
  {
    AllWf7(a, b, c, d, e, g, h);
    ElWellFormed(t, [a, b, c, d, e, g, h]);
  }

  lemma El8(t: Tag, a: Node, b: Node, c: Node, d: Node, e: Node, g: Node, h: Node, k: Node)
    ensures WellFormed(a) && WellFormed(b) && WellFormed(c) && WellFormed(d)
      && WellFormed(e) && WellFormed(g) && WellFormed(h) && WellFormed(k)
      ==> WellFormed(El(t, [a, b, c, d, e, g, h, k]))
  {
    AllWf8(a, b, c, d, e, g, h, k);
    ElWellFormed(t, [a, b, c, d, e, g, h, k]);
  }

  lemma OptionalWellFormed(cond: bool, n: Node)
    ensures WellFormed(n) ==> AllWellFormed(Optional(cond, n))
  {
  }

  /** An element with a child that is not well formed is not well formed either. */
  lemma IllFormedChild(n: Node, i: nat)
    requires n.Element? && i < |n.children| && !WellFormed(n.children[i])
    ensures !WellFormed(n)
  {
  }

  /** A verbatim leaf without special characters is well formed. */
  lemma VerbatimWellFormed(t: Tag, text: string)
    ensures NoSpecial(text) ==> WellFormed(Leaf(t, Verbatim(text)))
  {
    if NoSpecial(text) { LeafWellFormed(t, Verbatim(text)); }
  }

  lemma EmptyWellFormed(t: Tag)
    ensures WellFormed(Empty(t))
  {
  }

  /** An escaped leaf is well formed and escapes exactly its one value. */
  lemma EscapedLeaf(t: Tag, raw: string)
    ensures WellFormed(Leaf(t, Escaped(raw)))
    ensures Raws(Leaf(t, Escaped(raw))) == [raw]
  {
    LeafWellFormed(t, Escaped(raw));
    LeafRaws(t, Escaped(raw));
  }

  /** A verbatim leaf without special characters is well formed and escapes nothing. */
  lemma PlainLeaf(t: Tag, text: string)
    requires NoSpecial(text)
    ensures WellFormed(Leaf(t, Verbatim(text)))
    ensures Raws(Leaf(t, Verbatim(text))) == []
  {
    LeafWellFormed(t, Verbatim(text));
    LeafRaws(t, Verbatim(text));
  }

  // ---- Serialisation ------------------------------------------------------------

  const Prolog: string := "<?xml version=\"1.0\" encoding=\"UTF-8\"?>\n"

  function Indent(depth: nat): string
  {
    seq(2 * depth, _ => ' ')
  }

  function AttrsText(attrs: seq<Attr>): string
  {
    if |attrs| == 0 then ""
    else " " + attrs[0].name + "=\"" + ContentText(attrs[0].value) + "\"" + AttrsText(attrs[1..])
  }

  /** One element per line, two spaces of indentation per level; an element
      whose only child is text is written on one line. */
  function Serialize(n: Node, depth: nat): string
    decreases n, 1
  {
    match n
    case Text(c) => Indent(depth) + ContentText(c) + "\n"
    case Comment(b) => Indent(depth) + "<!-- " + b + " -->\n"
    case Element(t, attrs, children, close) =>
      var open := Indent(depth) + "<" + TagName(t) + AttrsText(attrs) + ">";
      var end := "</" + TagName(close) + ">\n";
      if |children| == 0 then open + end
      else if |children| == 1 && children[0].Text? then open + ContentText(children[0].content) + end
      else open + "\n" + SerializeAll(children, depth + 1) + Indent(depth) + end
  }

  function SerializeAll(ns: seq<Node>, depth: nat): string
    decreases ns, 0
  {
    if |ns| == 0 then "" else Serialize(ns[0], depth) + SerializeAll(ns[1..], depth)
  }

  /** The complete text of a document: the XML declaration and the root element. */
  function DocumentText(root: Node): string
  {
    Prolog + Serialize(root, 0)
  }

  /** A document whose root has an element as its first child is the XML
      declaration, the root's opening tag on a line of its own, that child's
      text, and then the other children and the closing tag. */
  lemma {:induction false} DocumentOpening(root: Node)
    requires root.Element? && |root.children| >= 1 && root.children[0].Element?
    ensures DocumentText(root)
         == (Prolog + ("<" + TagName(root.tag) + AttrsText(root.attrs) + ">") + "\n" + Serialize(root.children[0], 1))
            + (SerializeAll(root.children[1..], 1) + ("</" + TagName(root.close) + ">\n"))
  {
    RootLines(root);
    PrologShape(Prolog, "<" + TagName(root.tag) + AttrsText(root.attrs) + ">", Serialize(root.children[0], 1),
                SerializeAll(root.children[1..], 1) + ("</" + TagName(root.close) + ">\n"));
  }

  /** A root element whose first child is an element: its opening tag on the
      first line, then that child, then the rest. */
  lemma {:induction false} RootLines(root: Node)
    requires root.Element? && |root.children| >= 1 && root.children[0].Element?
    ensures Serialize(root, 0)
         == ("<" + TagName(root.tag) + AttrsText(root.attrs) + ">") + "\n" + Serialize(root.children[0], 1)
            + (SerializeAll(root.children[1..], 1) + ("</" + TagName(root.close) + ">\n"))
  {
    ElementLines(root, 0);
    SerializeAllFirst(root.children, 1);
    IndentZero();
    OpeningShape(Indent(0), TagName(root.tag), AttrsText(root.attrs), SerializeAll(root.children, 1),
                 Serialize(root.children[0], 1), SerializeAll(root.children[1..], 1), "</" + TagName(root.close) + ">\n",
                 Serialize(root, 0));
  }

  lemma PrologShape(prolog: string, open: string, k: string, rest: string)
    ensures prolog + (open + "\n" + k + rest) == (prolog + open + "\n" + k) + rest
  {
  }

  lemma IndentZero()
    ensures Indent(0) == []
  {
  }

  /** A non-empty sequence of nodes is written as its first node and then the rest. */
  lemma {:induction false} SerializeAllFirst(ns: seq<Node>, depth: nat)
    requires |ns| >= 1
    ensures SerializeAll(ns, depth) == Serialize(ns[0], depth) + SerializeAll(ns[1..], depth)
  {
  }

  /** An element with more than one child, or with one that is not text, is
      written with its children on lines of their own. */
  lemma {:induction false} ElementLines(n: Node, depth: nat)
    requires n.Element? && |n.children| >= 1 && !(|n.children| == 1 && n.children[0].Text?)
    ensures Serialize(n, depth)
         == Indent(depth) + "<" + TagName(n.tag) + AttrsText(n.attrs) + ">" + "\n" + SerializeAll(n.children, depth + 1)
            + Indent(depth) + ("</" + TagName(n.close) + ">\n")
  {
  }

  /** The shape of an element's text with its first child split off. */
  lemma OpeningShape(none: string, name: string, attrs: string, all: string, k: string, rest: string, end: string,
                     text: string)
    requires none == [] && all == k + rest && text == none + "<" + name + attrs + ">" + "\n" + all + none + end
    ensures text == ("<" + name + attrs + ">") + "\n" + k + (rest + end)
  {
  }

  /** The first part of a concatenation is its prefix. */
  lemma PrefixOfConcat(a: string, b: string)
    ensures |a| <= |a + b| && (a + b)[..|a|] == a
  {
  }

  /** Children are written one after another, in order. */
  lemma {:induction false} SerializeAllAppend(a: seq<Node>, b: seq<Node>, depth: nat)
    ensures SerializeAll(a + b, depth) == SerializeAll(a, depth) + SerializeAll(b, depth)
  {
    if |a| > 0 {
      assert (a + b)[1..] == a[1..] + b;
      SerializeAllAppend(a[1..], b, depth);
    } else {
      assert a + b == b;
    }
  }

  /** An element holding one text is written on one line, closed by its closing name. */
  lemma TextElementText(t: Tag, c: Content, close: Tag, depth: nat)
    ensures Serialize(Element(t, [], [Text(c)], close), depth)
      == Indent(depth) + "<" + TagName(t) + ">" + ContentText(c) + "</" + TagName(close) + ">\n"
  {
    var open, text, close := Indent(depth) + "<" + TagName(t) + ">", ContentText(c), TagName(close);
    assert AttrsText([]) == "";
    assert Indent(depth) + "<" + TagName(t) + AttrsText([]) + ">" == open;
    Assoc(open + text, "</" + close, ">\n");
    Assoc(open + text, "</", close);
  }

  /** The text of an escaped leaf reads back, through the five entities, as
      the raw value that was inserted. */
  lemma LeafReadsBack(t: Tag, raw: string, depth: nat)
    ensures Serialize(Leaf(t, Escaped(raw)), depth)
      == Indent(depth) + "<" + TagName(t) + ">" + EscapeXml(raw) + "</" + TagName(t) + ">\n"
    ensures Unescape(ContentText(Escaped(raw))) == raw
  {
    TextElementText(t, Escaped(raw), t, depth);
    UnescapeEscapeXml(raw);
  }
}
