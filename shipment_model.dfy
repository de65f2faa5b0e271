/** The `Shipment` schema the client app stores: a unique tracking id, package
    and party details, a four-value status defaulting to "pending", a
    warehouse reference and an `isDelivered` flag defaulting to false. */
module ShipmentModel {
  import opened Wrappers
  import opened Failures

  datatype Status = Pending | InTransit | OutForDelivery | Delivered

  function StatusName(s: Status): string {
    match s
    case Pending => "pending"
    case InTransit => "in-transit"
    case OutForDelivery => "out-for-delivery"
    case Delivered => "delivered"
  }

  /** The schema's enum check on a status string. */
  function ParseStatus(s: string): (r: Option<Status>)
    ensures r.Some? ==> StatusName(r.value) == s
    ensures r.None? ==> forall st :: StatusName(st) != s
  {
    if s == "pending" then Some(Pending)
    else if s == "in-transit" then Some(InTransit)
    else if s == "out-for-delivery" then Some(OutForDelivery)
    else if s == "delivered" then Some(Delivered)
    else None
  }

  const DefaultStatus: Status := Pending
  const DefaultIsDelivered: bool := false

  /** A date as `new Date(x)` produced it: a time in milliseconds, or an
      Invalid Date, which the schema refuses to cast. */
  datatype DateValue = At(millis: int) | InvalidDate

  datatype Shipment = Shipment(
    id: ObjectId, trackingId: string, description: string, currentLocation: string, weight: real,
    dimensions: string, status: Status, warehouse: ObjectId,
    senderName: string, senderContact: string, senderAddress: string,
    recipientName: string, recipientContact: string, recipientAddress: string,
    pickupDate: int, expectedDate: int, isDelivered: bool, createdAt: int, updatedAt: int)

  /** Every required string field is non-empty. */
  predicate Valid(s: Shipment) {
    && s.trackingId != [] && s.description != [] && s.currentLocation != [] && s.dimensions != []
    && s.senderName != [] && s.senderContact != [] && s.senderAddress != []
    && s.recipientName != [] && s.recipientContact != [] && s.recipientAddress != []
  }

  /** The document handed to `Shipment.create` / `insertMany`. */
  datatype ShipmentInput = ShipmentInput(
    trackingId: string, description: string, currentLocation: string, weight: real,
    dimensions: string, status: Option<string>, warehouse: ObjectId,
    senderName: string, senderContact: string, senderAddress: string,
    recipientName: string, recipientContact: string, recipientAddress: string,
    pickupDate: DateValue, expectedDate: DateValue, isDelivered: Option<bool>)

  predicate RequiredPresent(d: ShipmentInput) {
    && d.trackingId != [] && d.description != [] && d.currentLocation != [] && d.dimensions != []
    && d.senderName != [] && d.senderContact != [] && d.senderAddress != []
    && d.recipientName != [] && d.recipientContact != [] && d.recipientAddress != []
    && d.pickupDate.At? && d.expectedDate.At?
  }

  /** What schema validation makes of `input`: the stored document, or the
      ValidationError it raises. Uniqueness of the tracking id is the
      collection's business, not validation's. */
  function Build(input: ShipmentInput, id: ObjectId, now: int): (r: Result<Shipment, Failure>)
    ensures r.Success? <==> RequiredPresent(input) && (input.status.None? || ParseStatus(input.status.value).Some?)
    ensures r.Success? ==> Valid(r.value) && r.value.id == id && r.value.trackingId == input.trackingId
                           && (input.status.None? ==> r.value.status == DefaultStatus)
                           && (input.status.Some? ==> StatusName(r.value.status) == input.status.value)
                           && r.value.isDelivered == input.isDelivered.GetOr(DefaultIsDelivered)
                           && r.value.warehouse == input.warehouse
                           && r.value.createdAt == now && r.value.updatedAt == now
    ensures r.Success? ==> && r.value.description == input.description
                           && r.value.currentLocation == input.currentLocation
                           && r.value.weight == input.weight && r.value.dimensions == input.dimensions
                           && r.value.senderName == input.senderName && r.value.senderContact == input.senderContact
                           && r.value.senderAddress == input.senderAddress
                           && r.value.recipientName == input.recipientName
                           && r.value.recipientContact == input.recipientContact
                           && r.value.recipientAddress == input.recipientAddress
                           && At(r.value.pickupDate) == input.pickupDate
                           && At(r.value.expectedDate) == input.expectedDate
    ensures r.Failure? ==> r.error.Thrown? && r.error.name == ValidationError
  {
    if !RequiredPresent(input) then Failure(Invalid("shipment field"))
    else
      var status := if input.status.None? then Some(DefaultStatus) else ParseStatus(input.status.value);
      if status.None? then Failure(Thrown(ValidationError, "status is not a valid enum value"))
      else Success(Shipment(
        id, input.trackingId, input.description, input.currentLocation, input.weight, input.dimensions,
        status.value, input.warehouse, input.senderName, input.senderContact, input.senderAddress,
        input.recipientName, input.recipientContact, input.recipientAddress,
        input.pickupDate.millis, input.expectedDate.millis, input.isDelivered.GetOr(DefaultIsDelivered),
        now, now))
  }
}
