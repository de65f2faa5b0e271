/** `GET` and `POST /api/shipments` of the root app, over the older shipment
    schema: the request body's frontend field names are mapped onto
    sender/receiver/origin/destination, and a lowercase frontend status onto
    the schema's capitalised one. */
module LegacyShipmentsRoute {
  import opened Wrappers
  import opened Text
  import opened Seqs
  import opened Failures
  import opened UserModel
  import opened Auth
  import LegacyShipmentModel
  import Store

  type LegacyShipment = LegacyShipmentModel.Shipment

  /** `GET`, given the failure (if any) connecting or querying throws. */
  function Get(fault: Option<Failure>, header: Option<string>, verify: string -> Option<Payload>,
               shipments: seq<LegacyShipment>): (r: Reply<seq<LegacyShipment>>)
    ensures fault.Some? ==> r == ServerError(fault.value)
    ensures fault.None? && !Authorize(VerifyAuth(header, verify), [Admin, Manager, WarehouseStaff])
            ==> r == Fail(401, "Unauthorized")
    ensures r.Ok? <==> fault.None? && Authorize(VerifyAuth(header, verify), [Admin, Manager, WarehouseStaff])
    ensures r.Ok? ==> r.status == 200 && r.payload == shipments
  {
    if fault.Some? then ServerError(fault.value)
    else if !Authorize(VerifyAuth(header, verify), [Admin, Manager, WarehouseStaff]) then Fail(401, "Unauthorized")
    else Ok(200, shipments)
  }

  // ---- mapStatusToModel --------------------------------------------------

  /** The four frontend statuses the map has as its own keys, and their
      schema names. */
  function OwnStatus(key: string): Option<string> {
    if key == "pending" then Some("Pending")
    else if key == "in-transit" then Some("InTransit")
    else if key == "out-for-delivery" then Some("OutForDelivery")
    else if key == "delivered" then Some("Delivered")
    else None
  }

  /** `mapStatusToModel`: the mapped status for one of the four frontend
      statuses, "Pending" for anything else, an absent status included. Only
      the map's own keys are consulted. */
  function MapStatusToModel(frontend: Option<string>): (r: string)
    ensures frontend == Some("pending") ==> r == "Pending"
    ensures frontend == Some("in-transit") ==> r == "InTransit"
    ensures frontend == Some("out-for-delivery") ==> r == "OutForDelivery"
    ensures frontend == Some("delivered") ==> r == "Delivered"
    ensures frontend.None? || OwnStatus(frontend.value).None? ==> r == "Pending"
    ensures LegacyShipmentModel.ParseStatus(r).Some?
  {
    if frontend.None? then "Pending"
    else match OwnStatus(frontend.value)
      case Some(s) => s
      case None => "Pending"
  }

  /** The mapping never yields PickedUp or Delayed, so this handler cannot
      create shipments in those states. */
  lemma MapNeverPickedUpOrDelayed(frontend: Option<string>)
    ensures var st := LegacyShipmentModel.ParseStatus(MapStatusToModel(frontend)).value;
            st != LegacyShipmentModel.PickedUp && st != LegacyShipmentModel.Delayed
  {
  }

  /** The names every plain JavaScript object inherits from
      `Object.prototype`; `statusMap[key]` finds these too. */
  const PrototypeMembers: set<string> := {
    "constructor", "hasOwnProperty", "isPrototypeOf", "propertyIsEnumerable", "toString",
    "valueOf", "toLocaleString", "__proto__", "__defineGetter__", "__defineSetter__",
    "__lookupGetter__", "__lookupSetter__" }

  /** A value `statusMap[key] || 'Pending'` can produce: a string, or an
      inherited function or object, which is truthy. */
  datatype Mapped = Text(s: string) | InheritedMember(name: string)

  /** A status naming a member every plain object inherits. */
  predicate InheritedStatus(frontend: Option<string>) {
    frontend.Some? && frontend.value in PrototypeMembers
  }

  /** `mapStatusToModel` as written: `statusMap[frontendStatus]` is an
      ordinary property read, so an inherited member name reads that member;
      every other status reads what the corrected map gives. */
  function MapStatusAsWritten(frontend: Option<string>): (r: Mapped)
    ensures r.InheritedMember? <==> InheritedStatus(frontend)
    ensures r.InheritedMember? ==> r.name == frontend.value
    ensures r.Text? ==> r.s == MapStatusToModel(frontend)
  {
    if frontend.None? then Text("Pending")
    else if OwnStatus(frontend.value).Some? then Text(OwnStatus(frontend.value).value)
    else if frontend.value in PrototypeMembers then InheritedMember(frontend.value)
    else Text("Pending")
  }

  /** The status Mongoose's String cast makes of what the handler passes on:
      a mapped string as it is, an inherited function as its source text. (An
      inherited object such as `Object.prototype` fails the cast itself, which
      Mongoose reports as a ValidationError too.) */
  function StatusValue(m: Mapped): (v: string)
    ensures m.Text? ==> v == m.s
    ensures m.InheritedMember? ==> LegacyShipmentModel.ParseStatus(v).None?
  {
    match m
    case Text(s) => s
    case InheritedMember(name) =>
      var v := "function " + name + "() { [native code] }";
      assert v[0] == 'f';
      v
  }

  /** A status of "constructor" does not fall back to "Pending": the handler
      passes `Object` itself on as the status, which the schema's string enum
      refuses, so the request fails validation where the fallback would have
      stored a Pending shipment. */
  lemma ConstructorIsNotPending()
    ensures MapStatusAsWritten(Some("constructor")) == InheritedMember("constructor")
    ensures MapStatusToModel(Some("constructor")) == "Pending"
  {
  }

  // ---- POST ---------------------------------------------------------------

  /** The JSON body: frontend names and model names for each party field. */
  datatype LegacyBody = LegacyBody(
    senderName: Option<string>, sender: Option<string>, recipientName: Option<string>, receiver: Option<string>,
    senderAddress: Option<string>, origin: Option<string>, recipientAddress: Option<string>,
    destination: Option<string>, status: Option<string>)

  /** `shipmentData`: each field is the first non-empty of its frontend
      name, its model name, and "". The status is the enum name the corrected
      map gives, except for an inherited member name, whose value no enum
      name matches. */
  function MapFields(body: LegacyBody): (d: LegacyShipmentModel.ShipmentInput)
    ensures d.sender == Or(body.senderName, Or(body.sender, ""))
    ensures d.receiver == Or(body.recipientName, Or(body.receiver, ""))
    ensures d.origin == Or(body.senderAddress, Or(body.origin, ""))
    ensures d.destination == Or(body.recipientAddress, Or(body.destination, ""))
    ensures d.status.Some?
    ensures !InheritedStatus(body.status) ==> d.status == Some(MapStatusToModel(body.status))
    ensures InheritedStatus(body.status) <==> LegacyShipmentModel.ParseStatus(d.status.value).None?
  {
    LegacyShipmentModel.ShipmentInput(
      Or(body.senderName, Or(body.sender, "")), Or(body.recipientName, Or(body.receiver, "")),
      Or(body.senderAddress, Or(body.origin, "")), Or(body.recipientAddress, Or(body.destination, "")),
      Some(StatusValue(MapStatusAsWritten(body.status))))
  }

  const RequiredFields: seq<string> := ["sender", "receiver", "origin", "destination"]

  function Field(d: LegacyShipmentModel.ShipmentInput, field: string): string {
    if field == "sender" then d.sender
    else if field == "receiver" then d.receiver
    else if field == "origin" then d.origin
    else if field == "destination" then d.destination
    else []
  }

  /** `field => !shipmentData[field]` */
  function EmptyIn(d: LegacyShipmentModel.ShipmentInput): string -> bool {
    f => Field(d, f) == []
  }

  /** `requiredFields.filter(field => !shipmentData[field])` */
  function MissingFields(d: LegacyShipmentModel.ShipmentInput): (missing: seq<string>)
    ensures |missing| <= 4
  {
    Filter(RequiredFields, EmptyIn(d))
  }

  function Flag(empty: bool, name: string): seq<string> {
    if empty then [name] else []
  }

  /** The filter written out: the empty fields among sender, receiver,
      origin and destination, in that order. */
  lemma MissingFieldsInOrder(d: LegacyShipmentModel.ShipmentInput)
    ensures MissingFields(d) == Flag(d.sender == [], "sender")
                                + (Flag(d.receiver == [], "receiver")
                                   + (Flag(d.origin == [], "origin") + Flag(d.destination == [], "destination")))
  {
    var p := EmptyIn(d);
    var r0 := RequiredFields;
    var r1, r2, r3 := r0[1..], r0[2..], r0[3..];
    assert r1 == ["receiver", "origin", "destination"] && r1[1..] == r2;
    assert r2 == ["origin", "destination"] && r2[1..] == r3;
    assert r3 == ["destination"] && r3[1..] == [];
    assert Filter(r3, p) == Flag(d.destination == [], "destination") + Filter([], p);
    assert Flag(d.destination == [], "destination") + [] == Flag(d.destination == [], "destination");
    assert Filter(r2, p) == Flag(d.origin == [], "origin") + Filter(r3, p);
    assert Filter(r1, p) == Flag(d.receiver == [], "receiver") + Filter(r2, p);
    assert Filter(r0, p) == Flag(d.sender == [], "sender") + Filter(r1, p);
  }

  /** Once the handler's own check passes, the schema accepts the document
      exactly when the status does not name an inherited member; such a
      status fails validation. */
  lemma CheckedBodyValidates(body: LegacyBody, id: ObjectId, now: int)
    requires MissingFields(MapFields(body)) == []
    ensures LegacyShipmentModel.Build(MapFields(body), id, now).Success? <==> !InheritedStatus(body.status)
    ensures !InheritedStatus(body.status) ==>
              LegacyShipmentModel.Build(MapFields(body), id, now).value.status
              == LegacyShipmentModel.ParseStatus(MapStatusToModel(body.status)).value
  {
    MissingFieldsInOrder(MapFields(body));
  }

  /** With the corrected map in place of the lookup as written, every body
      that passes the handler's check is accepted by the schema. */
  lemma CorrectedCheckedBodyValidates(body: LegacyBody, id: ObjectId, now: int)
    requires MissingFields(MapFields(body)) == []
    ensures LegacyShipmentModel.Build(MapFields(body).(status := Some(MapStatusToModel(body.status))), id, now).Success?
  {
    MissingFieldsInOrder(MapFields(body));
  }

  /** `POST`, given the failure (if any) connecting throws, the header, the
      token verifier, the parsed body (None when `req.json()` throws) and the
      failure (if any) `Shipment.create` throws. */
  method Post(db: Store.Database, fault: Option<Failure>, header: Option<string>,
              verify: string -> Option<Payload>, body: Option<LegacyBody>, now: int, createFault: Option<Failure>)
    returns (r: Reply<LegacyShipment>)
    requires db.Valid()
    modifies db`legacyShipments, db`nextId
    ensures db.Valid()
    ensures fault.Some? ==> r == ShipmentError(fault.value)
    // The role gate comes before the body is read.
    ensures fault.None? && !Authorize(VerifyAuth(header, verify), [Admin, Manager]) ==> r == Fail(403, "Forbidden")
    ensures fault.None? && Authorize(VerifyAuth(header, verify), [Admin, Manager]) && body.None?
            ==> r.Status() == 500
    ensures fault.None? && Authorize(VerifyAuth(header, verify), [Admin, Manager]) && body.Some? ==>
              var d := MapFields(body.value);
              && (MissingFields(d) != [] ==> r == Err(400, ErrorBody("Missing required fields", None, Some(MissingFields(d)))))
              && (MissingFields(d) == [] && createFault.Some? ==> r == ShipmentError(createFault.value))
              && (MissingFields(d) == [] && createFault.None? ==> (r.Ok? <==> !InheritedStatus(body.value.status)))
              && (MissingFields(d) == [] && createFault.None? && InheritedStatus(body.value.status)
                  ==> r.Status() == 400)
              && (r.Ok? ==> && r.status == 201 && db.legacyShipments == old(db.legacyShipments) + [r.payload]
                            && LegacyShipmentModel.Build(d, r.payload.id, now) == Success(r.payload))
    ensures !r.Ok? ==> db.legacyShipments == old(db.legacyShipments) && db.nextId == old(db.nextId)
  {
    if fault.Some? {
      return ShipmentError(fault.value);
    }
    if !Authorize(VerifyAuth(header, verify), [Admin, Manager]) {
      return Fail(403, "Forbidden");
    }
    if body.None? {
      return ShipmentError(Thrown("SyntaxError", "Unexpected end of JSON input"));
    }
    var d := MapFields(body.value);
    var missing := MissingFields(d);
    if |missing| > 0 {
      return Err(400, ErrorBody("Missing required fields", None, Some(missing)));
    }
    CheckedBodyValidates(body.value, db.nextId, now);
    var created := db.CreateLegacyShipment(d, now, createFault);
    match created
    case Failure(e) =>
      r := ShipmentError(e);
    case Success(s) =>
      r := Ok(201, s);
  }
}
