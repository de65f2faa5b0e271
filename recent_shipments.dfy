/** The dashboard's "Recent Shipments" table: the caller's list sorted in
    place, newest first, and its first ten rows. */
module RecentShipments {
  import opened Sorting
  import LegacyShipmentModel

  /** A listed shipment; `createdAt` is its creation time in milliseconds. */
  datatype Row = Row(id: string, trackingLabel: string, status: string, createdAt: int)

  function CreatedAt(r: Row): int {
    r.createdAt
  }

  const MaxRows := 10

  /** `getStatusColor` */
  function StatusColor(status: string): string {
    if status == "Pending" then "orange"
    else if status == "PickedUp" || status == "InTransit" then "blue"
    else if status == "OutForDelivery" then "purple"
    else if status == "Delivered" then "green"
    else if status == "Delayed" then "red"
    else "gray"
  }

  /** Every status the schema stores gets a colour of its own kind; gray is
      left for values outside the schema. */
  lemma StatusColorCoversSchema(status: string)
    ensures StatusColor(status) == "gray" <==> LegacyShipmentModel.ParseStatus(status).None?
  {
  }

  /** Positions `lo..hi` of `a` are in non-increasing `createdAt` order. */
  ghost predicate NewestFirst(a: array<Row>, lo: int, hi: int)
    requires 0 <= lo <= hi <= a.Length
    reads a
  {
    forall p, q :: lo <= p < q < hi ==> a[p].createdAt >= a[q].createdAt
  }

  method Swap(a: array<Row>, i: nat, j: nat)
    requires i < a.Length && j < a.Length
    modifies a
    ensures a[..] == old(a[..])[i := old(a[j])][j := old(a[i])]
    ensures multiset(a[..]) == multiset(old(a[..]))
  {
    a[i], a[j] := a[j], a[i];
  }

  /** One insertion step: the row at `i` moves left past every older row. */
  method Sink(a: array<Row>, i: nat)
    requires 0 < i < a.Length && NewestFirst(a, 0, i)
    modifies a
    ensures NewestFirst(a, 0, i + 1)
    ensures multiset(a[..]) == multiset(old(a[..]))
    ensures a[i + 1..] == old(a[i + 1..])
  {
    var j := i;
    while j > 0 && a[j - 1].createdAt < a[j].createdAt
      invariant 0 <= j <= i
      invariant forall p, q :: 0 <= p < q <= i && p != j && q != j ==> a[p].createdAt >= a[q].createdAt
      invariant forall q :: j < q <= i ==> a[j].createdAt > a[q].createdAt
      invariant 0 < j < i ==> a[j - 1].createdAt >= a[j + 1].createdAt
      invariant multiset(a[..]) == multiset(old(a[..]))
      invariant a[i + 1..] == old(a[i + 1..])
    {
      Swap(a, j - 1, j);
      j := j - 1;
    }
  }

  /** `shipments.sort(...)` with the comparator `b.createdAt - a.createdAt`:
      the array itself is reordered, newest first. */
  method SortNewestFirst(a: array<Row>)
    modifies a
    ensures NewestFirst(a, 0, a.Length)
    ensures multiset(a[..]) == multiset(old(a[..]))
  {
    if a.Length == 0 {
      return;
    }
    var i := 1;
    while i < a.Length
      invariant 1 <= i <= a.Length
      invariant NewestFirst(a, 0, i)
      invariant multiset(a[..]) == multiset(old(a[..]))
    {
      Sink(a, i);
      i := i + 1;
    }
  }

  /** `recentShipments`: sort in place, then `slice(0, 10)`. */
  method Recent(a: array<Row>) returns (r: seq<Row>)
    modifies a
    ensures multiset(a[..]) == multiset(old(a[..]))
    ensures SortedDesc(a[..], CreatedAt)
    ensures |r| == (if a.Length < MaxRows then a.Length else MaxRows)
    ensures r == a[..|r|]
    ensures forall i, j :: 0 <= i < |r| <= j < a.Length ==> r[i].createdAt >= a[j].createdAt
    ensures r == [] <==> a.Length == 0
  {
    SortNewestFirst(a);
    assert SortedDesc(a[..], CreatedAt);
    var n := if a.Length < MaxRows then a.Length else MaxRows;
    r := a[..n];
  }
}
