/** The data the bill of lading form holds (its form record and cargo lines),
    the containers the exporters receive, and field-by-field access as the
    form's change handlers use it. */
module BolModel {

  /** The bill of lading form record: 27 text fields and the prepaid and
      collect check boxes. */
  datatype BolForm = BolForm(
    bolNumber: string,
    exportReference: string,
    forwardingAgent: string,
    shipperName: string,
    shipperAddress: string,
    shipperCity: string,
    shipperCountry: string,
    consigneeName: string,
    consigneeAddress: string,
    consigneeCity: string,
    consigneeCountry: string,
    notifyPartyName: string,
    notifyPartyAddress: string,
    notifyPartyCity: string,
    notifyPartyCountry: string,
    vesselName: string,
    voyageNumber: string,
    portOfLoading: string,
    portOfDischarge: string,
    placeOfReceipt: string,
    placeOfDelivery: string,
    freightPayableAt: string,
    numberOfOriginalBols: string,
    onBoardDate: string,
    freightCharges: string,
    otherCharges: string,
    prepaid: bool,
    collect: bool,
    termsAndConditions: string)

  /** One cargo line. */
  datatype CargoItem = CargoItem(
    id: string,
    description: string,
    marks: string,
    packages: string,
    packageType: string,
    weight: string,
    measurement: string)

  /** A container and the cargo lines loaded into it, as the exporters receive them. */
  datatype Container = Container(
    id: string,
    containerNumber: string,
    containerType: string,
    sealNumber: string,
    cargoItems: seq<CargoItem>)

  /** The field names the form's inputs pass to `handleInputChange`. */
  datatype BolField =
    | BolNumber | ExportReference | ForwardingAgent | ShipperName | ShipperAddress
    | ShipperCity | ShipperCountry | ConsigneeName | ConsigneeAddress | ConsigneeCity
    | ConsigneeCountry | NotifyPartyName | NotifyPartyAddress | NotifyPartyCity
    | NotifyPartyCountry | VesselName | VoyageNumber | PortOfLoading | PortOfDischarge
    | PlaceOfReceipt | PlaceOfDelivery | FreightPayableAt | NumberOfOriginalBols | OnBoardDate
    | FreightCharges | OtherCharges | Prepaid | Collect | TermsAndConditions

  /** The field names the cargo inputs pass to `handleCargoChange`. */
  datatype CargoField = Id | Description | Marks | Packages | PackageType | Weight | Measurement

  /** The `string | boolean` value a change handler receives. */
  datatype FieldValue = Str(s: string) | Flag(b: bool)

  /** The check boxes hold booleans, every other field a string. */
  predicate Fits(k: BolField, v: FieldValue)
  {
    if k == Prepaid || k == Collect then v.Flag? else v.Str?
  }

  function Get(f: BolForm, k: BolField): (v: FieldValue)
    ensures Fits(k, v)
  {
    match k
    case BolNumber => Str(f.bolNumber)
    case ExportReference => Str(f.exportReference)
    case ForwardingAgent => Str(f.forwardingAgent)
    case ShipperName => Str(f.shipperName)
    case ShipperAddress => Str(f.shipperAddress)
    case ShipperCity => Str(f.shipperCity)
    case ShipperCountry => Str(f.shipperCountry)
    case ConsigneeName => Str(f.consigneeName)
    case ConsigneeAddress => Str(f.consigneeAddress)
    case ConsigneeCity => Str(f.consigneeCity)
    case ConsigneeCountry => Str(f.consigneeCountry)
    case NotifyPartyName => Str(f.notifyPartyName)
    case NotifyPartyAddress => Str(f.notifyPartyAddress)
    case NotifyPartyCity => Str(f.notifyPartyCity)
    case NotifyPartyCountry => Str(f.notifyPartyCountry)
    case VesselName => Str(f.vesselName)
    case VoyageNumber => Str(f.voyageNumber)
    case PortOfLoading => Str(f.portOfLoading)
    case PortOfDischarge => Str(f.portOfDischarge)
    case PlaceOfReceipt => Str(f.placeOfReceipt)
    case PlaceOfDelivery => Str(f.placeOfDelivery)
    case FreightPayableAt => Str(f.freightPayableAt)
    case NumberOfOriginalBols => Str(f.numberOfOriginalBols)
    case OnBoardDate => Str(f.onBoardDate)
    case FreightCharges => Str(f.freightCharges)
    case OtherCharges => Str(f.otherCharges)
    case Prepaid => Flag(f.prepaid)
    case Collect => Flag(f.collect)
    case TermsAndConditions => Str(f.termsAndConditions)
  }

  /** `{ ...f, [k]: v }`. */
  function With(f: BolForm, k: BolField, v: FieldValue): BolForm
    requires Fits(k, v)
  {
    BolForm(
      if k == BolNumber then v.s else f.bolNumber,
      if k == ExportReference then v.s else f.exportReference,
      if k == ForwardingAgent then v.s else f.forwardingAgent,
      if k == ShipperName then v.s else f.shipperName,
      if k == ShipperAddress then v.s else f.shipperAddress,
      if k == ShipperCity then v.s else f.shipperCity,
      if k == ShipperCountry then v.s else f.shipperCountry,
      if k == ConsigneeName then v.s else f.consigneeName,
      if k == ConsigneeAddress then v.s else f.consigneeAddress,
      if k == ConsigneeCity then v.s else f.consigneeCity,
      if k == ConsigneeCountry then v.s else f.consigneeCountry,
      if k == NotifyPartyName then v.s else f.notifyPartyName,
      if k == NotifyPartyAddress then v.s else f.notifyPartyAddress,
      if k == NotifyPartyCity then v.s else f.notifyPartyCity,
      if k == NotifyPartyCountry then v.s else f.notifyPartyCountry,
      if k == VesselName then v.s else f.vesselName,
      if k == VoyageNumber then v.s else f.voyageNumber,
      if k == PortOfLoading then v.s else f.portOfLoading,
      if k == PortOfDischarge then v.s else f.portOfDischarge,
      if k == PlaceOfReceipt then v.s else f.placeOfReceipt,
      if k == PlaceOfDelivery then v.s else f.placeOfDelivery,
      if k == FreightPayableAt then v.s else f.freightPayableAt,
      if k == NumberOfOriginalBols then v.s else f.numberOfOriginalBols,
      if k == OnBoardDate then v.s else f.onBoardDate,
      if k == FreightCharges then v.s else f.freightCharges,
      if k == OtherCharges then v.s else f.otherCharges,
      if k == Prepaid then v.b else f.prepaid,
      if k == Collect then v.b else f.collect,
      if k == TermsAndConditions then v.s else f.termsAndConditions)
  }

  /** Setting a field gives it the new value. */
  lemma WithSets(f: BolForm, k: BolField, v: FieldValue)
    requires Fits(k, v)
    ensures Get(With(f, k, v), k) == v
  {
    match k
    case BolNumber =>
    case ExportReference =>
    case ForwardingAgent =>
    case ShipperName =>
    case ShipperAddress =>
    case ShipperCity =>
    case ShipperCountry =>
    case ConsigneeName =>
    case ConsigneeAddress =>
    case ConsigneeCity =>
    case ConsigneeCountry =>
    case NotifyPartyName =>
    case NotifyPartyAddress =>
    case NotifyPartyCity =>
    case NotifyPartyCountry =>
    case VesselName =>
    case VoyageNumber =>
    case PortOfLoading =>
    case PortOfDischarge =>
    case PlaceOfReceipt =>
    case PlaceOfDelivery =>
    case FreightPayableAt =>
    case NumberOfOriginalBols =>
    case OnBoardDate =>
    case FreightCharges =>
    case OtherCharges =>
    case Prepaid =>
    case Collect =>
    case TermsAndConditions =>
  }

  /** Setting one field leaves every other field as it was. */
  lemma WithKeepsOthers(f: BolForm, k: BolField, v: FieldValue, j: BolField)
    requires Fits(k, v) && j != k
    ensures Get(With(f, k, v), j) == Get(f, j)
  {
  }

  function GetItem(item: CargoItem, k: CargoField): string
  {
    match k
    case Id => item.id
    case Description => item.description
    case Marks => item.marks
    case Packages => item.packages
    case PackageType => item.packageType
    case Weight => item.weight
    case Measurement => item.measurement
  }

  /** `{ ...item, [k]: v }`. */
  function WithItem(item: CargoItem, k: CargoField, v: string): (r: CargoItem)
    ensures GetItem(r, k) == v
    ensures forall j :: j != k ==> GetItem(r, j) == GetItem(item, j)
  {
    match k
    case Id => item.(id := v)
    case Description => item.(description := v)
    case Marks => item.(marks := v)
    case Packages => item.(packages := v)
    case PackageType => item.(packageType := v)
    case Weight => item.(weight := v)
    case Measurement => item.(measurement := v)
  }

  /** A cargo line with the given id and every other field empty. */
  function BlankItem(id: string): (r: CargoItem)
    ensures r.id == id
    ensures forall k :: k != Id ==> GetItem(r, k) == ""
  {
    CargoItem(id, "", "", "", "", "", "")
  }

  const StandardTerms: string := "Received the goods herein mentioned in apparent good order and condition unless otherwise noted, to be transported and delivered as mentioned above."

  /** The form as first shown: three original bills, neither check box
      ticked, the standard terms, and every other field empty. */
  function InitialForm(): (f: BolForm)
    ensures f.numberOfOriginalBols == "3" && !f.prepaid && !f.collect
    ensures f.termsAndConditions == StandardTerms
    ensures forall k :: k != NumberOfOriginalBols && k != TermsAndConditions && k != Prepaid && k != Collect
              ==> Get(f, k) == Str("")
  {
    BolForm("", "", "", "", "", "", "", "", "", "", "", "", "", "", "", "", "", "", "", "", "", "", "3", "", "", "", false, false, StandardTerms)
  }
}
