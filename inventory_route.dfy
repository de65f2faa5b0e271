/** `GET` and `POST /api/inventory` of the root app: listing items with a
    low-stock flag, and adding an item to a warehouse. The connection is
    opened outside any `try`, so its failure escapes the handler. */
module InventoryRoute {
  import opened Wrappers
  import opened Failures
  import opened UserModel
  import opened Auth
  import opened InventoryItemModel
  import Store

  /** An item as the list returns it: the document plus `lowStock`. */
  datatype ItemView = ItemView(item: InventoryItem, lowStock: bool)

  /** `quantity < threshold`: an item exactly at its threshold is not low. */
  predicate LowStock(item: InventoryItem) {
    item.quantity < item.threshold
  }

  /** `items.map(item => ({ ...item, lowStock }))` */
  function WithAlerts(items: seq<InventoryItem>): (views: seq<ItemView>)
    ensures |views| == |items|
    ensures forall i :: 0 <= i < |items| ==> views[i].item == items[i]
    ensures forall i :: 0 <= i < |items| ==> (views[i].lowStock <==> items[i].quantity < items[i].threshold)
  {
    seq(|items|, i requires 0 <= i < |items| => ItemView(items[i], LowStock(items[i])))
  }

  /** `GET`, given whether connecting succeeds and whether the
      `find().populate()` query throws; neither is caught. */
  function Get(connected: bool, header: Option<string>, verify: string -> Option<Payload>,
               items: seq<InventoryItem>, findThrows: bool): (r: Reply<seq<ItemView>>)
    ensures !connected ==> r.Crash?
    ensures connected && Authorize(VerifyAuth(header, verify), [Admin, Manager, WarehouseStaff]) && findThrows
            ==> r.Crash?
    ensures connected && !Authorize(VerifyAuth(header, verify), [Admin, Manager, WarehouseStaff])
            ==> r == Fail(401, "Unauthorized")
    ensures r.Ok? <==> connected && Authorize(VerifyAuth(header, verify), [Admin, Manager, WarehouseStaff])
                       && !findThrows
    ensures r.Ok? ==> r.status == 200 && |r.payload| == |items|
                      && forall i :: 0 <= i < |items| ==>
                           r.payload[i].item == items[i] && (r.payload[i].lowStock <==> items[i].quantity < items[i].threshold)
  {
    if !connected then Crash
    else if !Authorize(VerifyAuth(header, verify), [Admin, Manager, WarehouseStaff]) then Fail(401, "Unauthorized")
    else if findThrows then Crash
    else Ok(200, WithAlerts(items))
  }

  /** The 500 body: the error's message, or "Failed to add item" for a thrown
      non-Error. */
  function ErrorMessage(f: Failure): (m: string)
    ensures f.Thrown? ==> m == f.message
    ensures f.NotAnError? ==> m == "Failed to add item"
  {
    match f
    case Thrown(_, message) => message
    case NotAnError => "Failed to add item"
  }

  /** `POST`, given whether connecting succeeds, the header, the token
      verifier, the parsed body (None when `req.json()` throws) and the
      failure (if any) `InventoryItem.create` throws besides validation. */
  method Post(db: Store.Database, connected: bool, header: Option<string>, verify: string -> Option<Payload>,
              body: Option<ItemInput>, now: int, createFault: Option<Failure>)
    returns (r: Reply<InventoryItem>)
    requires db.Valid()
    modifies db`items, db`nextId
    ensures db.Valid()
    ensures !connected ==> r.Crash?
    ensures connected && !Authorize(VerifyAuth(header, verify), [Admin, Manager]) ==> r == Fail(403, "Forbidden")
    ensures connected && Authorize(VerifyAuth(header, verify), [Admin, Manager]) && body.None?
            ==> r.Status() == 500
    ensures (connected && Authorize(VerifyAuth(header, verify), [Admin, Manager]) && body.Some?
             && body.value.warehouse.None?) ==> r == Fail(400, "Warehouse is required")
    ensures (connected && Authorize(VerifyAuth(header, verify), [Admin, Manager]) && body.Some?
             && body.value.warehouse.Some?) ==>
              && (createFault.Some? ==> r == Fail(500, ErrorMessage(createFault.value)))
              && (createFault.None? ==>
                    match InventoryItemModel.Build(body.value, old(db.nextId), now)
                    case Success(item) => r == Ok(201, item)
                    case Failure(e) => r == Fail(500, ErrorMessage(e)))
    ensures r.Ok? ==> r.status == 201 && db.items == old(db.items) + [r.payload]
    ensures !r.Ok? ==> db.items == old(db.items) && db.nextId == old(db.nextId)
  {
    if !connected {
      return Crash;
    }
    if !Authorize(VerifyAuth(header, verify), [Admin, Manager]) {
      return Fail(403, "Forbidden");
    }
    if body.None? {
      return Fail(500, ErrorMessage(Thrown("SyntaxError", "Unexpected end of JSON input")));
    }
    if body.value.warehouse.None? {
      return Fail(400, "Warehouse is required");
    }
    var created := db.CreateItem(body.value, now, createFault);
    match created
    case Failure(e) =>
      r := Fail(500, ErrorMessage(e));
    case Success(item) =>
      // `findById(item._id)` reads back the document just stored.
      r := Ok(201, item);
  }
}
