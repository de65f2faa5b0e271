/** The older `Shipment` schema the root app stores: sender, receiver,
    origin and destination, a six-value status defaulting to "Pending", and
    timestamps. */
module LegacyShipmentModel {
  import opened Wrappers
  import opened Failures

  datatype Status = Pending | PickedUp | InTransit | OutForDelivery | Delivered | Delayed

  function StatusName(s: Status): string {
    match s
    case Pending => "Pending"
    case PickedUp => "PickedUp"
    case InTransit => "InTransit"
    case OutForDelivery => "OutForDelivery"
    case Delivered => "Delivered"
    case Delayed => "Delayed"
  }

  function ParseStatus(s: string): (r: Option<Status>)
    ensures r.Some? ==> StatusName(r.value) == s
    ensures r.None? ==> forall st :: StatusName(st) != s
  {
    if s == "Pending" then Some(Pending)
    else if s == "PickedUp" then Some(PickedUp)
    else if s == "InTransit" then Some(InTransit)
    else if s == "OutForDelivery" then Some(OutForDelivery)
    else if s == "Delivered" then Some(Delivered)
    else if s == "Delayed" then Some(Delayed)
    else None
  }

  const DefaultStatus: Status := Pending

  datatype Shipment = Shipment(id: ObjectId, sender: string, receiver: string, origin: string,
                               destination: string, status: Status, createdAt: int, updatedAt: int)

  predicate Valid(s: Shipment) {
    s.sender != [] && s.receiver != [] && s.origin != [] && s.destination != []
  }

  datatype ShipmentInput = ShipmentInput(sender: string, receiver: string, origin: string,
                                         destination: string, status: Option<string>)

  /** What `Shipment.create` stores for `input` (both timestamps set to the
      creation time), or its ValidationError. */
  function Build(input: ShipmentInput, id: ObjectId, now: int): (r: Result<Shipment, Failure>)
    ensures r.Success? <==> input.sender != [] && input.receiver != [] && input.origin != []
                            && input.destination != []
                            && (input.status.None? || ParseStatus(input.status.value).Some?)
    ensures r.Success? ==> Valid(r.value) && r.value.id == id
                           && r.value.sender == input.sender && r.value.receiver == input.receiver
                           && r.value.origin == input.origin && r.value.destination == input.destination
                           && (input.status.None? ==> r.value.status == DefaultStatus)
                           && (input.status.Some? ==> StatusName(r.value.status) == input.status.value)
                           && r.value.createdAt == now && r.value.updatedAt == now
    ensures r.Failure? ==> r.error.Thrown? && r.error.name == ValidationError
  {
    if input.sender == [] || input.receiver == [] || input.origin == [] || input.destination == [] then
      Failure(Invalid("shipment field"))
    else
      var status := if input.status.None? then Some(DefaultStatus) else ParseStatus(input.status.value);
      if status.None? then Failure(Thrown(ValidationError, "status is not a valid enum value"))
      else Success(Shipment(id, input.sender, input.receiver, input.origin, input.destination,
                            status.value, now, now))
  }
}
