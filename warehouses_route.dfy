/** `GET` and `POST /api/warehouses` of the client app: listing warehouses
    (seeding two samples into an empty collection) and adding one. The
    connection is opened outside any `try`. */
module WarehousesRoute {
  import opened Wrappers
  import opened Failures
  import opened UserModel
  import opened Auth
  import opened WarehouseModel
  import Store

  /** The two sample warehouses. */
  function Samples(): seq<WarehouseInput> {
    [ WarehouseInput(Some("Main Warehouse"), Some("Downtown"), Some(10000), Some(0)),
      WarehouseInput(Some("Secondary Warehouse"), Some("Industrial District"), Some(5000), Some(0)) ]
  }

  /** The samples always validate, as exactly these two documents. */
  lemma SamplesInsert(next: ObjectId, now: int)
    ensures Store.BuildWarehouses(next, Samples(), now)
            == Success([Warehouse(next, "Main Warehouse", "Downtown", 10000, 0, now, now),
                        Warehouse(next + 1, "Secondary Warehouse", "Industrial District", 5000, 0, now, now)])
  {
    var s := Samples();
    assert s[1..][0] == s[1] && s[1..][1..] == [];
    assert Store.BuildWarehouses(next + 1 + 1, s[1..][1..], now) == Success([]);
    var w2 := Warehouse(next + 1, "Secondary Warehouse", "Industrial District", 5000, 0, now, now);
    assert Store.BuildWarehouses(next + 1, s[1..], now) == Success([w2] + []);
    var w1 := Warehouse(next, "Main Warehouse", "Downtown", 10000, 0, now, now);
    assert WarehouseModel.Build(s[0], next, now) == Success(w1);
    assert Store.BuildWarehouses(next, s, now) == Success([w1] + ([w2] + []));
    assert [w1] + ([w2] + []) == [w1, w2];
  }

  /** `GET`, given whether connecting succeeds, whether `Warehouse.find`
      throws and whether seeding with `insertMany` throws; none of these is
      caught. */
  method Get(db: Store.Database, connected: bool, header: Option<string>, verify: string -> Option<Payload>, now: int,
             findThrows: bool, insertThrows: bool)
    returns (r: Reply<seq<Warehouse>>)
    requires db.Valid()
    modifies db`warehouses, db`nextId
    ensures db.Valid()
    ensures !connected ==> r.Crash?
    ensures (&& connected && Authorize(VerifyAuth(header, verify), [Admin, Manager, WarehouseStaff])
             && (findThrows || (old(db.warehouses) == [] && insertThrows)))
            ==> r.Crash?
    ensures connected && !Authorize(VerifyAuth(header, verify), [Admin, Manager, WarehouseStaff])
            ==> r == Fail(401, "Unauthorized")
    ensures r.Ok? <==> connected && Authorize(VerifyAuth(header, verify), [Admin, Manager, WarehouseStaff])
                       && !findThrows && (old(db.warehouses) != [] || !insertThrows)
    // A non-empty collection is returned as it is, and nothing is written.
    ensures old(db.warehouses) != [] || !r.Ok? ==> db.warehouses == old(db.warehouses) && db.nextId == old(db.nextId)
    ensures r.Ok? && old(db.warehouses) != [] ==> r == Ok(200, old(db.warehouses))
    ensures r.Ok? && old(db.warehouses) == [] ==>
              && r.status == 200 && db.warehouses == r.payload
              && r.payload == [Warehouse(old(db.nextId), "Main Warehouse", "Downtown", 10000, 0, now, now),
                               Warehouse(old(db.nextId) + 1, "Secondary Warehouse", "Industrial District", 5000, 0, now, now)]
  {
    if !connected {
      return Crash;
    }
    if !Authorize(VerifyAuth(header, verify), [Admin, Manager, WarehouseStaff]) {
      return Fail(401, "Unauthorized");
    }
    if findThrows {
      return Crash;
    }
    var warehouses := db.warehouses;
    if |warehouses| == 0 {
      if insertThrows {
        return Crash;
      }
      SamplesInsert(db.nextId, now);
      var created := db.InsertWarehouses(Samples(), now);
      warehouses := created.value;
    }
    r := Ok(200, warehouses);
  }

  /** `POST`, given whether connecting succeeds, the header, the token
      verifier, the parsed body (None when `req.json()` throws) and the
      failure (if any) `Warehouse.create` throws besides validation. Only
      Admins may add a warehouse. */
  method Post(db: Store.Database, connected: bool, header: Option<string>, verify: string -> Option<Payload>,
              body: Option<WarehouseInput>, now: int, createFault: Option<Failure>)
    returns (r: Reply<Warehouse>)
    requires db.Valid()
    modifies db`warehouses, db`nextId
    ensures db.Valid()
    ensures !connected ==> r.Crash?
    ensures connected && !Authorize(VerifyAuth(header, verify), [Admin]) ==> r == Fail(403, "Forbidden")
    ensures r.Ok? <==> connected && Authorize(VerifyAuth(header, verify), [Admin]) && body.Some?
                       && createFault.None? && WarehouseModel.Build(body.value, old(db.nextId), now).Success?
    ensures r.Ok? ==> r.status == 201 && db.warehouses == old(db.warehouses) + [r.payload]
                      && WarehouseModel.Build(body.value, r.payload.id, now) == Success(r.payload)
    ensures connected && Authorize(VerifyAuth(header, verify), [Admin]) && !r.Ok?
            ==> r == Fail(500, "Failed to add warehouse")
    ensures !r.Ok? ==> db.warehouses == old(db.warehouses) && db.nextId == old(db.nextId)
  {
    if !connected {
      return Crash;
    }
    if !Authorize(VerifyAuth(header, verify), [Admin]) {
      return Fail(403, "Forbidden");
    }
    if body.None? {
      return Fail(500, "Failed to add warehouse");
    }
    var created := db.CreateWarehouse(body.value, now, createFault);
    match created
    case Failure(_) =>
      r := Fail(500, "Failed to add warehouse");
    case Success(w) =>
      r := Ok(201, w);
  }
}
