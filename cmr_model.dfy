/** The data the CMR road consignment note form holds: the form record, its
    cargo lines, and field-by-field access as the form's change handlers use it. */
module CmrModel {

  /** `CMRFormData`: 29 text fields and the two "to be paid by" check boxes. */
  datatype CmrForm = CmrForm(
    senderName: string,
    senderAddress: string,
    senderCountry: string,
    consigneeName: string,
    consigneeAddress: string,
    consigneeCountry: string,
    placeOfTakeover: string,
    dateOfTakeover: string,
    placeOfDelivery: string,
    carrierName: string,
    carrierAddress: string,
    carrierCountry: string,
    successiveCarriers: string,
    vehicleRegistration: string,
    trailerRegistration: string,
    specialAgreements: string,
    documentsAttached: string,
    codAmount: string,
    codCurrency: string,
    carriersReservations: string,
    agreedUpon: string,
    paidBySender: bool,
    paidByConsignee: bool,
    carriageCharges: string,
    supplements: string,
    customsInstructions: string,
    placeOfSigning: string,
    dateOfSigning: string,
    senderSignature: string,
    carrierSignature: string,
    consigneeSignature: string)

  /** One line of the goods table. */
  datatype CargoItem = CargoItem(
    id: string,
    quantity: string,
    description: string,
    weight: string,
    volume: string,
    marks: string)

  /** `keyof CMRFormData`. */
  datatype CmrField =
    | SenderName | SenderAddress | SenderCountry
    | ConsigneeName | ConsigneeAddress | ConsigneeCountry
    | PlaceOfTakeover | DateOfTakeover | PlaceOfDelivery
    | CarrierName | CarrierAddress | CarrierCountry | SuccessiveCarriers
    | VehicleRegistration | TrailerRegistration
    | SpecialAgreements | DocumentsAttached
    | CodAmount | CodCurrency | CarriersReservations | AgreedUpon
    | PaidBySender | PaidByConsignee | CarriageCharges | Supplements
    | CustomsInstructions | PlaceOfSigning | DateOfSigning
    | SenderSignature | CarrierSignature | ConsigneeSignature

  /** `keyof CargoItem`. */
  datatype CargoField = Id | Quantity | Description | Weight | Volume | Marks

  /** The `string | boolean` value a change handler receives. */
  datatype FieldValue = Str(s: string) | Flag(b: bool)

  /** The check boxes hold booleans, every other field a string. */
  predicate Fits(k: CmrField, v: FieldValue)
  {
    if k == PaidBySender || k == PaidByConsignee then v.Flag? else v.Str?
  }

  function Get(f: CmrForm, k: CmrField): (v: FieldValue)
    ensures Fits(k, v)
  {
    match k
    case SenderName => Str(f.senderName)
    case SenderAddress => Str(f.senderAddress)
    case SenderCountry => Str(f.senderCountry)
    case ConsigneeName => Str(f.consigneeName)
    case ConsigneeAddress => Str(f.consigneeAddress)
    case ConsigneeCountry => Str(f.consigneeCountry)
    case PlaceOfTakeover => Str(f.placeOfTakeover)
    case DateOfTakeover => Str(f.dateOfTakeover)
    case PlaceOfDelivery => Str(f.placeOfDelivery)
    case CarrierName => Str(f.carrierName)
    case CarrierAddress => Str(f.carrierAddress)
    case CarrierCountry => Str(f.carrierCountry)
    case SuccessiveCarriers => Str(f.successiveCarriers)
    case VehicleRegistration => Str(f.vehicleRegistration)
    case TrailerRegistration => Str(f.trailerRegistration)
    case SpecialAgreements => Str(f.specialAgreements)
    case DocumentsAttached => Str(f.documentsAttached)
    case CodAmount => Str(f.codAmount)
    case CodCurrency => Str(f.codCurrency)
    case CarriersReservations => Str(f.carriersReservations)
    case AgreedUpon => Str(f.agreedUpon)
    case PaidBySender => Flag(f.paidBySender)
    case PaidByConsignee => Flag(f.paidByConsignee)
    case CarriageCharges => Str(f.carriageCharges)
    case Supplements => Str(f.supplements)
    case CustomsInstructions => Str(f.customsInstructions)
    case PlaceOfSigning => Str(f.placeOfSigning)
    case DateOfSigning => Str(f.dateOfSigning)
    case SenderSignature => Str(f.senderSignature)
    case CarrierSignature => Str(f.carrierSignature)
    case ConsigneeSignature => Str(f.consigneeSignature)
  }

  /** `{ ...f, [k]: v }`. */
  function With(f: CmrForm, k: CmrField, v: FieldValue): CmrForm
    requires Fits(k, v)
  {
    CmrForm(
      if k == SenderName then v.s else f.senderName,
      if k == SenderAddress then v.s else f.senderAddress,
      if k == SenderCountry then v.s else f.senderCountry,
      if k == ConsigneeName then v.s else f.consigneeName,
      if k == ConsigneeAddress then v.s else f.consigneeAddress,
      if k == ConsigneeCountry then v.s else f.consigneeCountry,
      if k == PlaceOfTakeover then v.s else f.placeOfTakeover,
      if k == DateOfTakeover then v.s else f.dateOfTakeover,
      if k == PlaceOfDelivery then v.s else f.placeOfDelivery,
      if k == CarrierName then v.s else f.carrierName,
      if k == CarrierAddress then v.s else f.carrierAddress,
      if k == CarrierCountry then v.s else f.carrierCountry,
      if k == SuccessiveCarriers then v.s else f.successiveCarriers,
      if k == VehicleRegistration then v.s else f.vehicleRegistration,
      if k == TrailerRegistration then v.s else f.trailerRegistration,
      if k == SpecialAgreements then v.s else f.specialAgreements,
      if k == DocumentsAttached then v.s else f.documentsAttached,
      if k == CodAmount then v.s else f.codAmount,
      if k == CodCurrency then v.s else f.codCurrency,
      if k == CarriersReservations then v.s else f.carriersReservations,
      if k == AgreedUpon then v.s else f.agreedUpon,
      if k == PaidBySender then v.b else f.paidBySender,
      if k == PaidByConsignee then v.b else f.paidByConsignee,
      if k == CarriageCharges then v.s else f.carriageCharges,
      if k == Supplements then v.s else f.supplements,
      if k == CustomsInstructions then v.s else f.customsInstructions,
      if k == PlaceOfSigning then v.s else f.placeOfSigning,
      if k == DateOfSigning then v.s else f.dateOfSigning,
      if k == SenderSignature then v.s else f.senderSignature,
      if k == CarrierSignature then v.s else f.carrierSignature,
      if k == ConsigneeSignature then v.s else f.consigneeSignature)
  }

  /** Setting a field gives it the new value. */
  lemma WithSets(f: CmrForm, k: CmrField, v: FieldValue)
    requires Fits(k, v)
    ensures Get(With(f, k, v), k) == v
  {
    match k
    case SenderName =>
    case SenderAddress =>
    case SenderCountry =>
    case ConsigneeName =>
    case ConsigneeAddress =>
    case ConsigneeCountry =>
    case PlaceOfTakeover =>
    case DateOfTakeover =>
    case PlaceOfDelivery =>
    case CarrierName =>
    case CarrierAddress =>
    case CarrierCountry =>
    case SuccessiveCarriers =>
    case VehicleRegistration =>
    case TrailerRegistration =>
    case SpecialAgreements =>
    case DocumentsAttached =>
    case CodAmount =>
    case CodCurrency =>
    case CarriersReservations =>
    case AgreedUpon =>
    case PaidBySender =>
    case PaidByConsignee =>
    case CarriageCharges =>
    case Supplements =>
    case CustomsInstructions =>
    case PlaceOfSigning =>
    case DateOfSigning =>
    case SenderSignature =>
    case CarrierSignature =>
    case ConsigneeSignature =>
  }

  /** Setting one field leaves every other field as it was. */
  lemma WithKeepsOthers(f: CmrForm, k: CmrField, v: FieldValue, j: CmrField)
    requires Fits(k, v) && j != k
    ensures Get(With(f, k, v), j) == Get(f, j)
  {
  }

  function GetItem(item: CargoItem, k: CargoField): string
  {
    match k
    case Id => item.id
    case Quantity => item.quantity
    case Description => item.description
    case Weight => item.weight
    case Volume => item.volume
    case Marks => item.marks
  }

  /** `{ ...item, [k]: v }`. */
  function WithItem(item: CargoItem, k: CargoField, v: string): (r: CargoItem)
    ensures GetItem(r, k) == v
    ensures forall j :: j != k ==> GetItem(r, j) == GetItem(item, j)
  {
    match k
    case Id => item.(id := v)
    case Quantity => item.(quantity := v)
    case Description => item.(description := v)
    case Weight => item.(weight := v)
    case Volume => item.(volume := v)
    case Marks => item.(marks := v)
  }

  /** A cargo line with the given id and every other field empty. */
  function BlankItem(id: string): (r: CargoItem)
    ensures r.id == id
    ensures forall k :: k != Id ==> GetItem(r, k) == ""
  {
    CargoItem(id, "", "", "", "", "")
  }

  /** The form as first shown: everything empty except the COD currency, the
      "paid by sender" box and the date of signing, which is today's date. */
  function InitialForm(today: string): (f: CmrForm)
    ensures f.codCurrency == "EUR" && f.paidBySender && !f.paidByConsignee
    ensures f.dateOfSigning == today
    ensures forall k :: k != CodCurrency && k != DateOfSigning && k != PaidBySender && k != PaidByConsignee
              ==> Get(f, k) == Str("")
  {
    CmrForm("", "", "", "", "", "", "", "", "", "", "", "", "", "", "", "", "", "", "EUR", "", "",
      true, false, "", "", "", "", today, "", "", "")
  }
}
