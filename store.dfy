/** The MongoDB database the route handlers share, as one object holding a
    sequence per collection (in insertion order, which is the order `find({})`
    returns) and the next `_id` to hand out. Every insert validates against
    the collection's schema and enforces its unique indexes, as Mongoose and
    MongoDB do. */
module Store {
  import opened Wrappers
  import opened Failures
  import UserModel
  import WarehouseModel
  import InventoryItemModel
  import ShipmentModel
  import LegacyShipmentModel

  type User = UserModel.User
  type Warehouse = WarehouseModel.Warehouse
  type InventoryItem = InventoryItemModel.InventoryItem
  type Shipment = ShipmentModel.Shipment
  type LegacyShipment = LegacyShipmentModel.Shipment

  // ---- collection invariants -------------------------------------------

  /** Ids below `next` and distinct, every document schema-valid, and no two
      users sharing an email (the unique index on `email`). */
  ghost predicate UsersOk(us: seq<User>, next: ObjectId) {
    && (forall i :: 0 <= i < |us| ==> us[i].id < next && UserModel.Valid(us[i]))
    && (forall i, j :: 0 <= i < j < |us| ==> us[i].id != us[j].id && us[i].email != us[j].email)
  }

  ghost predicate WarehousesOk(ws: seq<Warehouse>, next: ObjectId) {
    && (forall i :: 0 <= i < |ws| ==> ws[i].id < next && WarehouseModel.Valid(ws[i]))
    && (forall i, j :: 0 <= i < j < |ws| ==> ws[i].id != ws[j].id)
  }

  ghost predicate ItemsOk(items: seq<InventoryItem>, next: ObjectId) {
    && (forall i :: 0 <= i < |items| ==> items[i].id < next && InventoryItemModel.Valid(items[i]))
    && (forall i, j :: 0 <= i < j < |items| ==> items[i].id != items[j].id)
  }

  /** ... and no two shipments sharing a tracking id (its unique index). */
  ghost predicate ShipmentsOk(ss: seq<Shipment>, next: ObjectId) {
    && (forall i :: 0 <= i < |ss| ==> ss[i].id < next && ShipmentModel.Valid(ss[i]))
    && (forall i, j :: 0 <= i < j < |ss| ==> ss[i].id != ss[j].id && ss[i].trackingId != ss[j].trackingId)
  }

  ghost predicate LegacyShipmentsOk(ss: seq<LegacyShipment>, next: ObjectId) {
    && (forall i :: 0 <= i < |ss| ==> ss[i].id < next && LegacyShipmentModel.Valid(ss[i]))
    && (forall i, j :: 0 <= i < j < |ss| ==> ss[i].id != ss[j].id)
  }

  // ---- queries ----------------------------------------------------------

  /** `User.findOne({ email })` */
  function FindUserByEmail(us: seq<User>, email: string): (r: Option<User>)
    ensures r.Some? ==> r.value in us && r.value.email == email
    ensures r.None? ==> forall i :: 0 <= i < |us| ==> us[i].email != email
  {
    if us == [] then None
    else if us[0].email == email then Some(us[0])
    else FindUserByEmail(us[1..], email)
  }

  /** `User.findById(id)` */
  function FindUserById(us: seq<User>, id: ObjectId): (r: Option<User>)
    ensures r.Some? ==> r.value in us && r.value.id == id
    ensures r.None? ==> forall i :: 0 <= i < |us| ==> us[i].id != id
  {
    if us == [] then None
    else if us[0].id == id then Some(us[0])
    else FindUserById(us[1..], id)
  }

  /** `Warehouse.findOne({ name })`: the first warehouse with that name. */
  function FindWarehouseByName(ws: seq<Warehouse>, name: string): (r: Option<Warehouse>)
    ensures r.Some? ==> r.value in ws && r.value.name == name
    ensures r.None? ==> forall i :: 0 <= i < |ws| ==> ws[i].name != name
  {
    if ws == [] then None
    else if ws[0].name == name then Some(ws[0])
    else FindWarehouseByName(ws[1..], name)
  }

  predicate TrackingIdTaken(ss: seq<Shipment>, trackingId: string) {
    exists i :: 0 <= i < |ss| && ss[i].trackingId == trackingId
  }

  // ---- what one insert does, as values ------------------------------------

  /** `User.create(input)`: a raised `fault` (lost connection and the like),
      else the schema's verdict, else the unique-email check. */
  function InsertUser(us: seq<User>, next: ObjectId, input: UserModel.UserInput, now: int,
                      fault: Option<Failure>): (r: Result<User, Failure>)
    ensures fault.Some? ==> r == Failure(fault.value)
    ensures r.Success? <==> fault.None? && UserModel.Build(input, next, now).Success?
                            && FindUserByEmail(us, UserModel.Build(input, next, now).value.email).None?
    ensures r.Success? ==> r.value == UserModel.Build(input, next, now).value
                           && FindUserByEmail(us, r.value.email).None? && r.value.id == next
                           && UserModel.Valid(r.value)
    ensures fault.None? && UserModel.Build(input, next, now).Success? && r.Failure?
            ==> r.error == DuplicateKey("email")
  {
    if fault.Some? then Failure(fault.value)
    else match UserModel.Build(input, next, now)
      case Failure(e) => Failure(e)
      case Success(u) => if FindUserByEmail(us, u.email).Some? then Failure(DuplicateKey("email")) else Success(u)
  }

  function InsertShipment(ss: seq<Shipment>, next: ObjectId, input: ShipmentModel.ShipmentInput, now: int,
                          fault: Option<Failure>): (r: Result<Shipment, Failure>)
    ensures fault.Some? ==> r == Failure(fault.value)
    ensures r.Success? <==> fault.None? && ShipmentModel.Build(input, next, now).Success?
                            && !TrackingIdTaken(ss, ShipmentModel.Build(input, next, now).value.trackingId)
    ensures r.Success? ==> r.value == ShipmentModel.Build(input, next, now).value
                           && !TrackingIdTaken(ss, r.value.trackingId) && r.value.id == next
                           && ShipmentModel.Valid(r.value)
    ensures fault.None? && ShipmentModel.Build(input, next, now).Success? && r.Failure?
            ==> r.error == DuplicateKey("trackingId")
  {
    if fault.Some? then Failure(fault.value)
    else match ShipmentModel.Build(input, next, now)
      case Failure(e) => Failure(e)
      case Success(s) => if TrackingIdTaken(ss, s.trackingId) then Failure(DuplicateKey("trackingId")) else Success(s)
  }

  lemma ConsAssoc<T>(a: seq<T>, x: T, b: seq<T>)
    ensures a + ([x] + b) == (a + [x]) + b
  {
  }

  lemma AppendWarehouseOk(ws: seq<Warehouse>, next: ObjectId, w: Warehouse)
    requires WarehousesOk(ws, next)
    requires w.id == next && WarehouseModel.Valid(w)
    ensures WarehousesOk(ws + [w], next + 1)
  {
  }

  lemma AppendShipmentOk(ss: seq<Shipment>, next: ObjectId, s: Shipment)
    requires ShipmentsOk(ss, next)
    requires s.id == next && ShipmentModel.Valid(s) && !TrackingIdTaken(ss, s.trackingId)
    ensures ShipmentsOk(ss + [s], next + 1)
  {
  }

  /** What `insertMany` validates and stores, numbering the new documents
      from `next`; the first invalid input decides the error. */
  function BuildWarehouses(next: ObjectId, inputs: seq<WarehouseModel.WarehouseInput>, now: int)
    : (r: Result<seq<Warehouse>, Failure>)
    ensures r.Success? ==> |r.value| == |inputs|
    ensures r.Success? ==> forall i :: 0 <= i < |inputs| ==> WarehouseModel.Build(inputs[i], next + i, now) == Success(r.value[i])
    ensures r.Failure? <==> exists i :: 0 <= i < |inputs| && WarehouseModel.Build(inputs[i], next + i, now).Failure?
    decreases |inputs|
  {
    if inputs == [] then Success([])
    else match WarehouseModel.Build(inputs[0], next, now)
      case Failure(e) => Failure(e)
      case Success(w) =>
        match BuildWarehouses(next + 1, inputs[1..], now)
        case Failure(e) => Failure(e)
        case Success(rest) => Success([w] + rest)
  }

  lemma {:induction false} BuildWarehousesOk(ws: seq<Warehouse>, next: ObjectId,
                                             inputs: seq<WarehouseModel.WarehouseInput>, now: int)
    requires WarehousesOk(ws, next)
    requires BuildWarehouses(next, inputs, now).Success?
    ensures WarehousesOk(ws + BuildWarehouses(next, inputs, now).value, next + |inputs|)
    decreases |inputs|
  {
    if inputs != [] {
      var w := WarehouseModel.Build(inputs[0], next, now).value;
      AppendWarehouseOk(ws, next, w);
      BuildWarehousesOk(ws + [w], next + 1, inputs[1..], now);
      ConsAssoc(ws, w, BuildWarehouses(next + 1, inputs[1..], now).value);
    }
  }

  /** The shipments `insertMany` would store after `ss`, numbered from
      `next`: each input passes validation and carries a tracking id not
      already stored and not earlier in the batch. */
  function BuildShipments(ss: seq<Shipment>, next: ObjectId, inputs: seq<ShipmentModel.ShipmentInput>, now: int)
    : (r: Result<seq<Shipment>, Failure>)
    ensures r.Success? ==> |r.value| == |inputs|
    ensures r.Success? ==> forall i :: 0 <= i < |inputs| ==>
                             ShipmentModel.Build(inputs[i], next + i, now) == Success(r.value[i])
    decreases |inputs|
  {
    if inputs == [] then Success([])
    else match InsertShipment(ss, next, inputs[0], now, None)
      case Failure(e) => Failure(e)
      case Success(s) =>
        match BuildShipments(ss + [s], next + 1, inputs[1..], now)
        case Failure(e) => Failure(e)
        case Success(rest) => Success([s] + rest)
  }

  lemma {:induction false} BuildShipmentsOk(ss: seq<Shipment>, next: ObjectId,
                                            inputs: seq<ShipmentModel.ShipmentInput>, now: int)
    requires ShipmentsOk(ss, next)
    requires BuildShipments(ss, next, inputs, now).Success?
    ensures ShipmentsOk(ss + BuildShipments(ss, next, inputs, now).value, next + |inputs|)
    decreases |inputs|
  {
    if inputs != [] {
      var h := InsertShipment(ss, next, inputs[0], now, None);
      assert h.Success?;
      var s := h.value;
      var tail := BuildShipments(ss + [s], next + 1, inputs[1..], now);
      assert tail.Success?;
      var v := BuildShipments(ss, next, inputs, now).value;
      assert v == [s] + tail.value;
      AppendShipmentOk(ss, next, s);
      BuildShipmentsOk(ss + [s], next + 1, inputs[1..], now);
      ConsAssoc(ss, s, tail.value);
    }
  }

  class Database {
    var users: seq<User>
    var warehouses: seq<Warehouse>
    var items: seq<InventoryItem>
    var shipments: seq<Shipment>
    var legacyShipments: seq<LegacyShipment>
    var nextId: ObjectId

    ghost predicate Valid()
      reads this
    {
      && UsersOk(users, nextId) && WarehousesOk(warehouses, nextId) && ItemsOk(items, nextId)
      && ShipmentsOk(shipments, nextId) && LegacyShipmentsOk(legacyShipments, nextId)
    }

    constructor ()
      ensures Valid()
      ensures users == [] && warehouses == [] && items == [] && shipments == [] && legacyShipments == []
    {
      users, warehouses, items, shipments, legacyShipments := [], [], [], [], [];
      nextId := 0;
    }

    method CreateUser(input: UserModel.UserInput, now: int, fault: Option<Failure>) returns (r: Result<User, Failure>)
      requires Valid()
      modifies this`users, this`nextId
      ensures Valid()
      ensures r == InsertUser(old(users), old(nextId), input, now, fault)
      ensures r.Success? ==> users == old(users) + [r.value] && nextId == old(nextId) + 1
      ensures r.Failure? ==> users == old(users) && nextId == old(nextId)
    {
      r := InsertUser(users, nextId, input, now, fault);
      if r.Success? {
        users := users + [r.value];
        nextId := nextId + 1;
      }
    }

    method CreateWarehouse(input: WarehouseModel.WarehouseInput, now: int, fault: Option<Failure>)
      returns (r: Result<Warehouse, Failure>)
      requires Valid()
      modifies this`warehouses, this`nextId
      ensures Valid()
      ensures fault.Some? ==> r == Failure(fault.value)
      ensures fault.None? ==> r == WarehouseModel.Build(input, old(nextId), now)
      ensures r.Success? ==> warehouses == old(warehouses) + [r.value] && nextId == old(nextId) + 1
      ensures r.Failure? ==> warehouses == old(warehouses) && nextId == old(nextId)
    {
      if fault.Some? {
        return Failure(fault.value);
      }
      r := WarehouseModel.Build(input, nextId, now);
      if r.Success? {
        warehouses := warehouses + [r.value];
        nextId := nextId + 1;
      }
    }

    /** `Warehouse.insertMany(inputs)`: all or nothing. */
    method InsertWarehouses(inputs: seq<WarehouseModel.WarehouseInput>, now: int)
      returns (r: Result<seq<Warehouse>, Failure>)
      requires Valid()
      modifies this`warehouses, this`nextId
      ensures Valid()
      ensures r == BuildWarehouses(old(nextId), inputs, now)
      ensures r.Success? ==> warehouses == old(warehouses) + r.value && nextId == old(nextId) + |inputs|
      ensures r.Failure? ==> warehouses == old(warehouses) && nextId == old(nextId)
    {
      r := BuildWarehouses(nextId, inputs, now);
      if r.Success? {
        BuildWarehousesOk(warehouses, nextId, inputs, now);
        warehouses := warehouses + r.value;
        nextId := nextId + |inputs|;
      }
    }

    method CreateItem(input: InventoryItemModel.ItemInput, now: int, fault: Option<Failure>)
      returns (r: Result<InventoryItem, Failure>)
      requires Valid()
      modifies this`items, this`nextId
      ensures Valid()
      ensures fault.Some? ==> r == Failure(fault.value)
      ensures fault.None? ==> r == InventoryItemModel.Build(input, old(nextId), now)
      ensures r.Success? ==> items == old(items) + [r.value] && nextId == old(nextId) + 1
      ensures r.Failure? ==> items == old(items) && nextId == old(nextId)
    {
      if fault.Some? {
        return Failure(fault.value);
      }
      r := InventoryItemModel.Build(input, nextId, now);
      if r.Success? {
        items := items + [r.value];
        nextId := nextId + 1;
      }
    }

    method CreateShipment(input: ShipmentModel.ShipmentInput, now: int, fault: Option<Failure>)
      returns (r: Result<Shipment, Failure>)
      requires Valid()
      modifies this`shipments, this`nextId
      ensures Valid()
      ensures r == InsertShipment(old(shipments), old(nextId), input, now, fault)
      ensures r.Success? ==> shipments == old(shipments) + [r.value] && nextId == old(nextId) + 1
      ensures r.Failure? ==> shipments == old(shipments) && nextId == old(nextId)
    {
      r := InsertShipment(shipments, nextId, input, now, fault);
      if r.Success? {
        shipments := shipments + [r.value];
        nextId := nextId + 1;
      }
    }

    /** `Shipment.insertMany(inputs)` into the client app's collection: all
        or nothing. */
    method InsertShipments(inputs: seq<ShipmentModel.ShipmentInput>, now: int, fault: Option<Failure>)
      returns (r: Result<seq<Shipment>, Failure>)
      requires Valid()
      modifies this`shipments, this`nextId
      ensures Valid()
      ensures fault.Some? ==> r == Failure(fault.value)
      ensures fault.None? ==> r == BuildShipments(old(shipments), old(nextId), inputs, now)
      ensures r.Success? ==> shipments == old(shipments) + r.value && nextId == old(nextId) + |inputs|
      ensures r.Failure? ==> shipments == old(shipments) && nextId == old(nextId)
    {
      if fault.Some? {
        return Failure(fault.value);
      }
      r := BuildShipments(shipments, nextId, inputs, now);
      if r.Success? {
        BuildShipmentsOk(shipments, nextId, inputs, now);
        shipments := shipments + r.value;
        nextId := nextId + |inputs|;
      }
    }

    method CreateLegacyShipment(input: LegacyShipmentModel.ShipmentInput, now: int, fault: Option<Failure>)
      returns (r: Result<LegacyShipment, Failure>)
      requires Valid()
      modifies this`legacyShipments, this`nextId
      ensures Valid()
      ensures fault.Some? ==> r == Failure(fault.value)
      ensures fault.None? ==> r == LegacyShipmentModel.Build(input, old(nextId), now)
      ensures r.Success? ==> legacyShipments == old(legacyShipments) + [r.value] && nextId == old(nextId) + 1
      ensures r.Failure? ==> legacyShipments == old(legacyShipments) && nextId == old(nextId)
    {
      if fault.Some? {
        return Failure(fault.value);
      }
      r := LegacyShipmentModel.Build(input, nextId, now);
      if r.Success? {
        legacyShipments := legacyShipments + [r.value];
        nextId := nextId + 1;
      }
    }
  }
}
