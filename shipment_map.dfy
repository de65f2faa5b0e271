/** The live shipment map: a list kept current from socket updates, and a
    marker for every shipment whose location can be placed. */
module ShipmentMap {
  import opened Wrappers
  import opened Seqs

  /** `currentLocation` is either an object with coordinates or a place name. */
  datatype Location = Point(latitude: real, longitude: real) | Named(name: string)

  datatype MapShipment = MapShipment(id: string, trackingId: string, currentLocation: Location, status: string)

  /** `locationCoordinates`, in declaration order. */
  const Table: seq<(string, (real, real))> := [
    ("Downtown", (28.6139, 77.209)),
    ("Industrial District", (28.5355, 77.391)),
    ("Main Warehouse", (28.7041, 77.1025)),
    ("Secondary Warehouse", (28.4595, 77.0266)),
    ("in-transit", (28.6139, 77.209)),
    ("delivery-center", (28.6129, 77.2295))
  ]

  function Lookup(table: seq<(string, (real, real))>, name: string): (r: Option<(real, real)>)
    ensures r.Some? <==> exists i :: 0 <= i < |table| && table[i].0 == name
    ensures r.Some? ==> (name, r.value) in table
  {
    if table == [] then None
    else if table[0].0 == name then Some(table[0].1)
    else
      var r := Lookup(table[1..], name);
      assert forall i :: 0 < i < |table| ==> table[i] == table[1..][i - 1];
      r
  }

  /** `prev.map(s => s._id === updated._id ? updated : s)` */
  function ReplaceById(prev: seq<MapShipment>, updated: MapShipment): (r: seq<MapShipment>)
    ensures |r| == |prev|
    ensures forall i :: 0 <= i < |prev| && prev[i].id == updated.id ==> r[i] == updated
    ensures forall i :: 0 <= i < |prev| && prev[i].id != updated.id ==> r[i] == prev[i]
  {
    seq(|prev|, i requires 0 <= i < |prev| => if prev[i].id == updated.id then updated else prev[i])
  }

  /** An update for a shipment the list does not hold changes nothing. */
  lemma ReplaceAbsent(prev: seq<MapShipment>, updated: MapShipment)
    requires forall i :: 0 <= i < |prev| ==> prev[i].id != updated.id
    ensures ReplaceById(prev, updated) == prev
  {
  }

  /** Delivering the same update twice is the same as once. */
  lemma ReplaceTwice(prev: seq<MapShipment>, updated: MapShipment)
    ensures ReplaceById(ReplaceById(prev, updated), updated) == ReplaceById(prev, updated)
  {
  }

  /** The coordinate resolution: an object needs a truthy (non-zero) latitude
      and longitude; a name must be in the table. */
  function Coordinates(loc: Location): (r: Option<(real, real)>)
    ensures loc.Point? ==> (r.Some? <==> loc.latitude != 0.0 && loc.longitude != 0.0)
    ensures loc.Point? && r.Some? ==> r.value == (loc.latitude, loc.longitude)
    ensures loc.Named? ==> (r.Some? <==> exists i :: 0 <= i < |Table| && Table[i].0 == loc.name)
    ensures loc.Named? && r.Some? ==> (loc.name, r.value) in Table
  {
    match loc
    case Point(lat, lng) => if lat != 0.0 && lng != 0.0 then Some((lat, lng)) else None
    case Named(name) => Lookup(Table, name)
  }

  predicate Placeable(s: MapShipment) {
    Coordinates(s.currentLocation).Some?
  }

  datatype Marker = Marker(shipment: MapShipment, position: (real, real))

  /** The `map`/`filter` pair that builds the markers. */
  function Markers(ss: seq<MapShipment>): (r: seq<Marker>)
    ensures |r| <= |ss|
    ensures forall i :: 0 <= i < |r| ==> Coordinates(r[i].shipment.currentLocation) == Some(r[i].position)
  {
    if ss == [] then []
    else
      var c := Coordinates(ss[0].currentLocation);
      (if c.Some? then [Marker(ss[0], c.value)] else []) + Markers(ss[1..])
  }

  function Shown(ms: seq<Marker>): seq<MapShipment> {
    seq(|ms|, i requires 0 <= i < |ms| => ms[i].shipment)
  }

  /** The markers show exactly the placeable shipments, in list order. */
  lemma {:induction false} MarkersAreFilter(ss: seq<MapShipment>)
    ensures Shown(Markers(ss)) == Filter(ss, Placeable)
  {
    if ss != [] {
      MarkersAreFilter(ss[1..]);
      var c := Coordinates(ss[0].currentLocation);
      var head := if c.Some? then [Marker(ss[0], c.value)] else [];
      assert Shown(head + Markers(ss[1..])) == Shown(head) + Shown(Markers(ss[1..]));
    }
  }

  /** A shipment sitting on the zero meridian or the equator is never drawn. */
  lemma ZeroIsHidden(s: MapShipment)
    requires s.currentLocation.Point? && (s.currentLocation.latitude == 0.0 || s.currentLocation.longitude == 0.0)
    ensures Markers([s]) == []
  {
  }

  /** The component's `shipments` state. */
  class Live {
    var shipments: seq<MapShipment>

    constructor()
      ensures shipments == []
    {
      shipments := [];
    }

    /** The initial fetch's `setShipments(data)`. */
    method Loaded(data: seq<MapShipment>)
      modifies this
      ensures shipments == data
    {
      shipments := data;
    }

    /** The `shipmentUpdated` handler. */
    method Updated(updated: MapShipment)
      modifies this
      ensures shipments == ReplaceById(old(shipments), updated)
      ensures |shipments| == |old(shipments)|
    {
      shipments := ReplaceById(shipments, updated);
    }
  }
}
