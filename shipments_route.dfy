/** `GET` and `POST /api/shipments` of the client app, with its helper
    `getDefaultWarehouse`: listing shipments (seeding three samples into an
    empty collection) and creating one from a loosely filled request body. */
module ShipmentsRoute {
  import opened Wrappers
  import opened Text
  import opened Seqs
  import opened Failures
  import opened UserModel
  import opened ShipmentModel
  import opened Auth
  import WarehouseModel
  import Store

  const DefaultWarehouseName: string := "Default Warehouse"

  /** One day in milliseconds. */
  const Day: int := 24 * 60 * 60 * 1000

  /** The warehouse `getDefaultWarehouse` creates. */
  function DefaultWarehouseInput(): WarehouseModel.WarehouseInput {
    WarehouseModel.WarehouseInput(Some(DefaultWarehouseName), Some("Main Distribution Center"), Some(1000), Some(0))
  }

  /** The id `getDefaultWarehouse` answers for a warehouses collection whose
      next fresh id is `next`: the first one named "Default Warehouse", or the
      one it is about to create. */
  function DefaultWarehouseId(ws: seq<Store.Warehouse>, next: ObjectId): ObjectId {
    match Store.FindWarehouseByName(ws, DefaultWarehouseName)
    case Some(w) => w.id
    case None => next
  }

  lemma FindAfterAppend(ws: seq<Store.Warehouse>, w: Store.Warehouse, name: string)
    requires Store.FindWarehouseByName(ws, name).None? && w.name == name
    ensures Store.FindWarehouseByName(ws + [w], name) == Some(w)
  {
    if ws != [] {
      assert (ws + [w])[1..] == ws[1..] + [w];
      FindAfterAppend(ws[1..], w, name);
    }
  }

  /** `getDefaultWarehouse`: find-or-create. Afterwards a warehouse of that
      name exists and the answer is its id, so a second call finds it,
      changes nothing and answers the same id. */
  method GetDefaultWarehouse(db: Store.Database, now: int) returns (id: ObjectId)
    requires db.Valid()
    modifies db`warehouses, db`nextId
    ensures db.Valid()
    ensures id == DefaultWarehouseId(old(db.warehouses), old(db.nextId))
    ensures Store.FindWarehouseByName(old(db.warehouses), DefaultWarehouseName).Some?
            ==> db.warehouses == old(db.warehouses) && db.nextId == old(db.nextId)
    ensures Store.FindWarehouseByName(old(db.warehouses), DefaultWarehouseName).None?
            ==> db.warehouses == old(db.warehouses)
                  + [WarehouseModel.Warehouse(id, DefaultWarehouseName, "Main Distribution Center", 1000, 0, now, now)]
                && db.nextId == old(db.nextId) + 1
    ensures Store.FindWarehouseByName(db.warehouses, DefaultWarehouseName).Some?
            && Store.FindWarehouseByName(db.warehouses, DefaultWarehouseName).value.id == id
    ensures DefaultWarehouseId(db.warehouses, db.nextId) == id
  {
    var found := Store.FindWarehouseByName(db.warehouses, DefaultWarehouseName);
    if found.Some? {
      return found.value.id;
    }
    var created := db.CreateWarehouse(DefaultWarehouseInput(), now, None);
    FindAfterAppend(old(db.warehouses), created.value, DefaultWarehouseName);
    id := created.value.id;
  }

  /** The three sample shipments, all in `warehouse`, dated relative to `now`. */
  function Samples(warehouse: ObjectId, now: int): seq<ShipmentInput> {
    [ ShipmentInput("TRK001", "Electronics Package", "New York Distribution Center", 2.5, "30x20x15 cm",
                    Some("in-transit"), warehouse, "John Smith", "+1-555-0101", "123 Main St, New York, NY 10001",
                    "Alice Johnson", "+1-555-0102", "456 Oak Ave, Los Angeles, CA 90210",
                    At(now - 2 * Day), At(now + 3 * Day), Some(false)),
      ShipmentInput("TRK002", "Clothing Package", "Chicago Sorting Facility", 1.8, "25x25x10 cm",
                    Some("out-for-delivery"), warehouse, "Maria Garcia", "+1-555-0201", "789 Pine St, Miami, FL 33101",
                    "Bob Wilson", "+1-555-0202", "321 Elm Dr, Seattle, WA 98101",
                    At(now - Day), At(now + Day), Some(false)),
      ShipmentInput("TRK003", "Books and Documents", "Denver Processing Center", 3.2, "35x25x20 cm",
                    Some("pending"), warehouse, "David Chen", "+1-555-0301", "147 Cedar Ln, San Francisco, CA 94102",
                    "Sarah Davis", "+1-555-0302", "852 Maple St, Chicago, IL 60601",
                    At(now + Day), At(now + 5 * Day), Some(false)) ]
  }

  function TrackingIds(ss: seq<Shipment>): (ids: seq<string>)
    ensures |ids| == |ss| && forall i :: 0 <= i < |ss| ==> ids[i] == ss[i].trackingId
  {
    seq(|ss|, i requires 0 <= i < |ss| => ss[i].trackingId)
  }

  /** In a consistent store no two shipments share a tracking id, so the
      tracking ids the GET handler lists are all distinct. */
  lemma TrackingIdsDistinct(ss: seq<Shipment>, next: ObjectId)
    requires Store.ShipmentsOk(ss, next)
    ensures forall i, j :: 0 <= i < j < |ss| ==> TrackingIds(ss)[i] != TrackingIds(ss)[j]
  {
  }

  /** Into an empty collection the samples always insert, as three documents
      with tracking ids TRK001, TRK002, TRK003 in that order. */
  lemma SamplesInsert(warehouse: ObjectId, next: ObjectId, now: int)
    ensures var r := Store.BuildShipments([], next, Samples(warehouse, now), now);
            && r.Success? && TrackingIds(r.value) == ["TRK001", "TRK002", "TRK003"]
            && forall i :: 0 <= i < 3 ==> r.value[i].warehouse == warehouse && !r.value[i].isDelivered
  {
    var s := Samples(warehouse, now);
    var a := Store.InsertShipment([], next, s[0], now, None);
    assert a.Success?;
    var b := Store.InsertShipment([a.value], next + 1, s[1], now, None);
    assert !Store.TrackingIdTaken([a.value], "TRK002");
    assert b.Success?;
    var c := Store.InsertShipment([a.value] + [b.value], next + 2, s[2], now, None);
    assert !Store.TrackingIdTaken([a.value] + [b.value], "TRK003") by {
      assert ([a.value] + [b.value])[0].trackingId == "TRK001";
      assert ([a.value] + [b.value])[1].trackingId == "TRK002";
    }
    assert c.Success?;
    var ab := [a.value] + [b.value];
    var s2 := s[2..];
    assert s2[0] == s[2] && s2[1..] == [];
    assert Store.BuildShipments(ab + [c.value], next + 2 + 1, s2[1..], now) == Success([]);
    assert Store.BuildShipments(ab, next + 2, s2, now) == Success([c.value] + []);
    var s1 := s[1..];
    assert s1[0] == s[1] && s1[1..] == s2;
    assert Store.BuildShipments([a.value], next + 1, s1, now) == Success([b.value] + ([c.value] + []));
    var all := [a.value] + ([b.value] + ([c.value] + []));
    assert [] + [a.value] == [a.value];
    assert Store.BuildShipments([], next, s, now) == Success(all);
    assert all == [a.value, b.value, c.value];
    assert TrackingIds(all) == ["TRK001", "TRK002", "TRK003"];
  }

  /** `GET`, given the failure (if any) that connecting or querying throws,
      the Authorization header, the token verifier and the failure (if any)
      `insertMany` throws. */
  method Get(db: Store.Database, fault: Option<Failure>, header: Option<string>,
             verify: string -> Option<Payload>, now: int, seedFault: Option<Failure>)
    returns (r: Reply<seq<Shipment>>)
    requires db.Valid()
    modifies db`shipments, db`warehouses, db`nextId
    ensures db.Valid()
    ensures fault.Some? ==> r == ServerError(fault.value)
    ensures fault.None? && !Authorize(VerifyAuth(header, verify), [Admin, Manager, WarehouseStaff])
            ==> r == Fail(401, "Unauthorized")
    ensures r.Ok? <==> fault.None? && Authorize(VerifyAuth(header, verify), [Admin, Manager, WarehouseStaff])
    ensures old(db.shipments) != [] || !r.Ok?
            ==> db.shipments == old(db.shipments) && db.warehouses == old(db.warehouses) && db.nextId == old(db.nextId)
    ensures r.Ok? && old(db.shipments) != [] ==> r == Ok(200, old(db.shipments))
    // Seeding: the default warehouse is found or created first.
    ensures r.Ok? && old(db.shipments) == [] ==>
              && r.status == 200
              && (Store.FindWarehouseByName(old(db.warehouses), DefaultWarehouseName).Some?
                  ==> db.warehouses == old(db.warehouses))
              && (Store.FindWarehouseByName(old(db.warehouses), DefaultWarehouseName).None?
                  ==> |db.warehouses| == |old(db.warehouses)| + 1)
              && (seedFault.Some? ==> r.payload == [] && db.shipments == [])
              && (seedFault.None? ==>
                    && db.shipments == r.payload
                    && TrackingIds(r.payload) == ["TRK001", "TRK002", "TRK003"]
                    && forall i :: 0 <= i < 3 ==>
                         r.payload[i].warehouse == DefaultWarehouseId(old(db.warehouses), old(db.nextId)))
  {
    if fault.Some? {
      return ServerError(fault.value);
    }
    var user := VerifyAuth(header, verify);
    if !Authorize(user, [Admin, Manager, WarehouseStaff]) {
      return Fail(401, "Unauthorized");
    }
    var shipments := db.shipments;
    if |shipments| == 0 {
      var warehouse := GetDefaultWarehouse(db, now);
      SamplesInsert(warehouse, db.nextId, now);
      var created := db.InsertShipments(Samples(warehouse, now), now, seedFault);
      if created.Success? {
        return Ok(200, created.value);
      }
      return Ok(200, []);
    }
    r := Ok(200, shipments);
  }

  /** The JSON body of `POST`; any field may be absent. */
  datatype ShipmentBody = ShipmentBody(
    description: Option<string>, currentLocation: Option<string>, weight: Option<real>,
    dimensions: Option<string>, status: Option<string>, warehouse: Option<ObjectId>,
    senderName: Option<string>, senderContact: Option<string>, senderAddress: Option<string>,
    recipientName: Option<string>, recipientContact: Option<string>, recipientAddress: Option<string>,
    pickupDate: Option<string>, expectedDate: Option<string>)

  /** `body.weight || 1`: an absent weight and a weight of 0 both become 1. */
  function WeightOr(w: Option<real>): (r: real)
    ensures r != 0.0
    ensures w.Some? && w.value != 0.0 ==> r == w.value
    ensures r == 1.0 || (w.Some? && r == w.value)
  {
    if w.Some? && w.value != 0.0 then w.value else 1.0
  }

  /** `body.warehouse || user?.warehouse`; None means the default warehouse. */
  function WarehouseChoice(body: ShipmentBody, user: Option<Payload>): Option<ObjectId> {
    if body.warehouse.Some? then body.warehouse
    else if user.Some? && user.value.Claims? then user.value.warehouse
    else None
  }

  /** `body.warehouse || user?.warehouse || await getDefaultWarehouse()`
      against the collection as it stood before the request. */
  function ResolvedWarehouse(ws: seq<Store.Warehouse>, next: ObjectId, body: ShipmentBody,
                             user: Option<Payload>): ObjectId {
    match WarehouseChoice(body, user)
    case Some(id) => id
    case None => DefaultWarehouseId(ws, next)
  }

  /** Whether an insert succeeds does not depend on the id it assigns. */
  lemma InsertIgnoresId(ss: seq<Shipment>, n1: ObjectId, n2: ObjectId, d: ShipmentInput, now: int)
    ensures Store.InsertShipment(ss, n1, d, now, None).Success?
            <==> Store.InsertShipment(ss, n2, d, now, None).Success?
  {
  }

  /** The `shipmentData` object handed to `Shipment.create`, given the
      generated tracking id, the resolved warehouse and `new Date(...)` as
      `parseDate`. */
  function Normalise(body: ShipmentBody, trackingId: string, warehouse: ObjectId, now: int,
                     parseDate: string -> DateValue): (d: ShipmentInput)
    ensures d.trackingId == trackingId && d.warehouse == warehouse
    ensures d.description == Or(body.description, "Package shipment")
    ensures Filled(body.currentLocation) ==> d.currentLocation == body.currentLocation.value
    ensures !Filled(body.currentLocation) ==> d.currentLocation == Or(body.senderAddress, "")
    ensures d.weight == WeightOr(body.weight)
    ensures d.dimensions == Or(body.dimensions, "10x10x10 cm")
    ensures d.status == Some(Or(body.status, "pending"))
    ensures d.senderName == Or(body.senderName, "") && d.senderContact == Or(body.senderContact, "")
    ensures d.senderAddress == Or(body.senderAddress, "")
    ensures d.recipientName == Or(body.recipientName, "") && d.recipientContact == Or(body.recipientContact, "")
    ensures d.recipientAddress == Or(body.recipientAddress, "")
    ensures Filled(body.pickupDate) ==> d.pickupDate == parseDate(body.pickupDate.value)
    ensures !Filled(body.pickupDate) ==> d.pickupDate == At(now)
    ensures Filled(body.expectedDate) ==> d.expectedDate == parseDate(body.expectedDate.value)
    ensures !Filled(body.expectedDate) ==> d.expectedDate == At(now + 7 * Day)
    ensures d.isDelivered == Some(body.status == Some("delivered"))
  {
    ShipmentInput(
      trackingId, Or(body.description, "Package shipment"),
      Or(body.currentLocation, Or(body.senderAddress, "")), WeightOr(body.weight),
      Or(body.dimensions, "10x10x10 cm"), Some(Or(body.status, "pending")), warehouse,
      Or(body.senderName, ""), Or(body.senderContact, ""), Or(body.senderAddress, ""),
      Or(body.recipientName, ""), Or(body.recipientContact, ""), Or(body.recipientAddress, ""),
      if Filled(body.pickupDate) then parseDate(body.pickupDate.value) else At(now),
      if Filled(body.expectedDate) then parseDate(body.expectedDate.value) else At(now + 7 * Day),
      Some(body.status == Some("delivered")))
  }

  /** The fields the handler checks itself, in its order. */
  const RequiredFields: seq<string> := ["senderName", "recipientName", "senderAddress", "recipientAddress"]

  /** `shipmentData[field]` for the checked fields. */
  function Field(d: ShipmentInput, field: string): string {
    if field == "senderName" then d.senderName
    else if field == "recipientName" then d.recipientName
    else if field == "senderAddress" then d.senderAddress
    else if field == "recipientAddress" then d.recipientAddress
    else []
  }

  /** `field => !shipmentData[field]` */
  function EmptyIn(d: ShipmentInput): string -> bool {
    f => Field(d, f) == []
  }

  /** `requiredFields.filter(field => !shipmentData[field])` */
  function MissingFields(d: ShipmentInput): (missing: seq<string>)
    ensures |missing| <= 4
  {
    Filter(RequiredFields, EmptyIn(d))
  }

  /** `[name]` when `empty`, else nothing. */
  function Flag(empty: bool, name: string): seq<string> {
    if empty then [name] else []
  }

  /** The filter written out over the four checked fields, in their order. */
  lemma MissingFieldsInOrder(d: ShipmentInput)
    ensures MissingFields(d) == Flag(d.senderName == [], "senderName")
                                + (Flag(d.recipientName == [], "recipientName")
                                   + (Flag(d.senderAddress == [], "senderAddress")
                                      + Flag(d.recipientAddress == [], "recipientAddress")))
  {
    var p := EmptyIn(d);
    var r0 := RequiredFields;
    var r1, r2, r3 := r0[1..], r0[2..], r0[3..];
    assert r1 == ["recipientName", "senderAddress", "recipientAddress"] && r1[1..] == r2;
    assert r2 == ["senderAddress", "recipientAddress"] && r2[1..] == r3;
    assert r3 == ["recipientAddress"] && r3[1..] == [];
    assert Filter(r3, p) == Flag(d.recipientAddress == [], "recipientAddress") + Filter([], p);
    assert Flag(d.recipientAddress == [], "recipientAddress") + [] == Flag(d.recipientAddress == [], "recipientAddress");
    assert Filter(r2, p) == Flag(d.senderAddress == [], "senderAddress") + Filter(r3, p);
    assert Filter(r1, p) == Flag(d.recipientName == [], "recipientName") + Filter(r2, p);
    assert Filter(r0, p) == Flag(d.senderName == [], "senderName") + Filter(r1, p);
  }

  /** The report is empty exactly when all four checked fields are filled,
      and it names precisely the empty ones. */
  lemma MissingFieldsMeaning(d: ShipmentInput)
    ensures MissingFields(d) == [] <==>
              d.senderName != [] && d.recipientName != [] && d.senderAddress != [] && d.recipientAddress != []
    ensures "senderName" in MissingFields(d) <==> d.senderName == []
    ensures "recipientName" in MissingFields(d) <==> d.recipientName == []
    ensures "senderAddress" in MissingFields(d) <==> d.senderAddress == []
    ensures "recipientAddress" in MissingFields(d) <==> d.recipientAddress == []
  {
    MissingFieldsInOrder(d);
  }

  /** The handler checks neither contact field, but the schema requires
      both: a body with every checked field but no sender contact passes the
      handler's check and is refused by validation, as a 400. */
  lemma ContactsLeftToSchema(body: ShipmentBody, trackingId: string, warehouse: ObjectId, now: int,
                             parseDate: string -> DateValue, ss: seq<Shipment>, next: ObjectId)
    requires !Filled(body.senderContact)
    ensures var d := Normalise(body, trackingId, warehouse, now, parseDate);
            && Store.InsertShipment(ss, next, d, now, None).Failure?
            && ShipmentError<Shipment>(Store.InsertShipment(ss, next, d, now, None).error).Status() == 400
  {
  }

  /** The part of `POST` after the role gate and the body parse: resolve
      the warehouse, normalise the body, check the four fields, create. */
  method Submit(db: Store.Database, body: ShipmentBody, user: Option<Payload>, trackingId: string,
                parseDate: string -> DateValue, now: int, createFault: Option<Failure>)
    returns (r: Reply<Shipment>)
    requires db.Valid()
    modifies db`shipments, db`warehouses, db`nextId
    ensures db.Valid()
    // The default warehouse is looked up (and perhaps created) before the
    // missing-field check, so even a 400 may leave a new warehouse behind.
    ensures db.warehouses == old(db.warehouses) || |db.warehouses| == |old(db.warehouses)| + 1
    ensures !r.Ok? ==> db.shipments == old(db.shipments)
    ensures var d := Normalise(body, trackingId, ResolvedWarehouse(old(db.warehouses), old(db.nextId), body, user),
                               now, parseDate);
            && (MissingFields(d) != [] ==> r == Err(400, ErrorBody("Missing required fields", None, Some(MissingFields(d)))))
            && (MissingFields(d) == [] && createFault.Some? ==> r == ShipmentError(createFault.value))
            && (MissingFields(d) == [] && createFault.None? ==>
                  (r.Ok? <==> Store.InsertShipment(old(db.shipments), old(db.nextId), d, now, None).Success?))
            && (r.Ok? ==> && r.status == 201 && db.shipments == old(db.shipments) + [r.payload]
                          && ShipmentModel.Build(d, r.payload.id, now) == Success(r.payload))
            && (!r.Ok? ==> r.Status() == 400 || r.Status() == 500)
  {
    var warehouse := Warehouse(db, body, user, now);
    var d := Normalise(body, trackingId, warehouse, now, parseDate);
    InsertIgnoresId(db.shipments, db.nextId, old(db.nextId), d, now);
    r := CreateChecked(db, d, now, createFault);
  }

  /** `body.warehouse || user?.warehouse || await getDefaultWarehouse()`,
      run against the store. */
  method Warehouse(db: Store.Database, body: ShipmentBody, user: Option<Payload>, now: int)
    returns (warehouse: ObjectId)
    requires db.Valid()
    modifies db`warehouses, db`nextId
    ensures db.Valid()
    ensures warehouse == ResolvedWarehouse(old(db.warehouses), old(db.nextId), body, user)
    ensures db.warehouses == old(db.warehouses) || |db.warehouses| == |old(db.warehouses)| + 1
  {
    var choice := WarehouseChoice(body, user);
    if choice.Some? {
      warehouse := choice.value;
    } else {
      warehouse := GetDefaultWarehouse(db, now);
    }
  }

  /** The missing-field check and the create, for a normalised body. */
  method CreateChecked(db: Store.Database, d: ShipmentInput, now: int, createFault: Option<Failure>)
    returns (r: Reply<Shipment>)
    requires db.Valid()
    modifies db`shipments, db`nextId
    ensures db.Valid()
    ensures !r.Ok? ==> db.shipments == old(db.shipments)
    ensures MissingFields(d) != [] ==> r == Err(400, ErrorBody("Missing required fields", None, Some(MissingFields(d))))
    ensures MissingFields(d) == [] && createFault.Some? ==> r == ShipmentError(createFault.value)
    ensures MissingFields(d) == [] && createFault.None? ==>
              (r.Ok? <==> Store.InsertShipment(old(db.shipments), old(db.nextId), d, now, None).Success?)
    ensures r.Ok? ==> && r.status == 201 && db.shipments == old(db.shipments) + [r.payload]
                      && ShipmentModel.Build(d, r.payload.id, now) == Success(r.payload)
    ensures !r.Ok? ==> r.Status() == 400 || r.Status() == 500
  {
    var missing := MissingFields(d);
    if |missing| > 0 {
      return Err(400, ErrorBody("Missing required fields", None, Some(missing)));
    }
    ghost var id := db.nextId;
    var created := db.CreateShipment(d, now, createFault);
    match created
    case Failure(e) =>
      r := ShipmentError(e);
    case Success(s) =>
      assert ShipmentModel.Build(d, id, now) == Success(s);
      r := Ok(201, s);
  }

  /** `POST`, given the failure (if any) connecting throws, the header, the
      token verifier, the parsed body (None when `req.json()` throws), the
      generated tracking id, `new Date(...)`, and the failure (if any)
      `Shipment.create` throws other than its own validation. */
  method Post(db: Store.Database, fault: Option<Failure>, header: Option<string>,
              verify: string -> Option<Payload>, body: Option<ShipmentBody>, trackingId: string,
              parseDate: string -> DateValue, now: int, createFault: Option<Failure>)
    returns (r: Reply<Shipment>)
    requires db.Valid()
    modifies db`shipments, db`warehouses, db`nextId
    ensures db.Valid()
    ensures fault.Some? ==> r == ShipmentError(fault.value)
    ensures fault.None? && !Authorize(VerifyAuth(header, verify), [Admin, Manager]) ==> r == Fail(403, "Forbidden")
    ensures fault.None? && Authorize(VerifyAuth(header, verify), [Admin, Manager]) && body.None?
            ==> r.Status() == 500
    ensures fault.Some? || !Authorize(VerifyAuth(header, verify), [Admin, Manager]) || body.None?
            ==> db.warehouses == old(db.warehouses) && db.shipments == old(db.shipments) && db.nextId == old(db.nextId)
    ensures fault.None? && Authorize(VerifyAuth(header, verify), [Admin, Manager]) && body.Some? ==>
              var d := Normalise(body.value, trackingId,
                                 ResolvedWarehouse(old(db.warehouses), old(db.nextId), body.value, VerifyAuth(header, verify)),
                                 now, parseDate);
              && (MissingFields(d) != [] ==> r == Err(400, ErrorBody("Missing required fields", None, Some(MissingFields(d)))))
              && (MissingFields(d) == [] && createFault.Some? ==> r == ShipmentError(createFault.value))
              && (MissingFields(d) == [] && createFault.None? ==>
                    (r.Ok? <==> Store.InsertShipment(old(db.shipments), old(db.nextId), d, now, None).Success?))
              && (r.Ok? ==> && r.status == 201 && db.shipments == old(db.shipments) + [r.payload]
                            && ShipmentModel.Build(d, r.payload.id, now) == Success(r.payload))
    ensures !r.Ok? ==> db.shipments == old(db.shipments)
  {
    if fault.Some? {
      return ShipmentError(fault.value);
    }
    var user := VerifyAuth(header, verify);
    if !Authorize(user, [Admin, Manager]) {
      return Fail(403, "Forbidden");
    }
    if body.None? {
      return ShipmentError(Thrown("SyntaxError", "Unexpected end of JSON input"));
    }
    r := Submit(db, body.value, user, trackingId, parseDate, now, createFault);
  }
}
