/** The client dashboard page: it loads the shipment list and counts the
    four KPI figures. */
module DashboardPage {
  import opened Wrappers
  import opened Browser

  /** The two fields of a listed shipment the page reads. `updatedAt` is in
      milliseconds since the epoch. */
  datatype Row = Row(status: string, updatedAt: int)

  datatype Metrics = Metrics(outForDelivery: nat, pendingPickup: nat, inTransit: nat, deliveredToday: nat)

  /** The local calendar day of an instant (what `toDateString` compares) is
      supplied by the caller, as is today's day. */
  type DayOf = int -> int

  /** Rows with exactly this status. */
  ghost function CountStatus(rows: seq<Row>, status: string): nat {
    if rows == [] then 0
    else CountStatus(rows[..|rows| - 1], status) + (if rows[|rows| - 1].status == status then 1 else 0)
  }

  /** Delivered rows last updated on `today`. */
  ghost function CountDeliveredOn(rows: seq<Row>, dayOf: DayOf, today: int): nat {
    if rows == [] then 0
    else
      var r := rows[|rows| - 1];
      CountDeliveredOn(rows[..|rows| - 1], dayOf, today)
      + (if r.status == "delivered" && dayOf(r.updatedAt) == today then 1 else 0)
  }

  ghost function Sum(m: Metrics): nat {
    m.outForDelivery + m.pendingPickup + m.inTransit + m.deliveredToday
  }

  /** `calculateKPIMetrics`: the reduce that bumps one counter per matching
      row. Unknown statuses, and deliveries on other days, add nothing. */
  method CalculateKPIMetrics(rows: seq<Row>, dayOf: DayOf, today: int) returns (m: Metrics)
    ensures m.outForDelivery == CountStatus(rows, "out-for-delivery")
    ensures m.pendingPickup == CountStatus(rows, "pending")
    ensures m.inTransit == CountStatus(rows, "in-transit")
    ensures m.deliveredToday == CountDeliveredOn(rows, dayOf, today)
    ensures Sum(m) <= |rows|
  {
    m := Metrics(0, 0, 0, 0);
    var i := 0;
    while i < |rows|
      invariant 0 <= i <= |rows|
      invariant m.outForDelivery == CountStatus(rows[..i], "out-for-delivery")
      invariant m.pendingPickup == CountStatus(rows[..i], "pending")
      invariant m.inTransit == CountStatus(rows[..i], "in-transit")
      invariant m.deliveredToday == CountDeliveredOn(rows[..i], dayOf, today)
      invariant Sum(m) <= i
    {
      assert rows[..i + 1][..i] == rows[..i];
      var r := rows[i];
      if r.status == "out-for-delivery" {
        m := m.(outForDelivery := m.outForDelivery + 1);
      } else if r.status == "pending" {
        m := m.(pendingPickup := m.pendingPickup + 1);
      } else if r.status == "in-transit" {
        m := m.(inTransit := m.inTransit + 1);
      } else if r.status == "delivered" {
        if dayOf(r.updatedAt) == today {
          m := m.(deliveredToday := m.deliveredToday + 1);
        }
      }
      i := i + 1;
    }
    assert rows[..|rows|] == rows;
  }

  /** Counting is per row: a list is counted as the sum of its parts. */
  lemma {:induction false} CountStatusAppend(a: seq<Row>, b: seq<Row>, status: string)
    ensures CountStatus(a + b, status) == CountStatus(a, status) + CountStatus(b, status)
    decreases |b|
  {
    if b == [] {
      assert a + b == a;
    } else {
      var b' := b[..|b| - 1];
      assert (a + b)[..|a + b| - 1] == a + b';
      assert (a + b)[|a + b| - 1] == b[|b| - 1];
      CountStatusAppend(a, b', status);
    }
  }

  /** The answer of `fetch('/api/shipments')`: a status code and, when the
      body parses as a list, that list; or an exception. */
  datatype FetchReply = Response(status: int, body: Option<seq<Row>>) | NetworkError

  predicate IsOk(status: int) {
    200 <= status <= 299
  }

  class Page {
    var token: Option<string>
    var shipments: seq<Row>
    var metrics: Metrics
    var loading: bool
    var pushed: seq<string>

    constructor(token: Option<string>)
      ensures this.token == token && shipments == [] && metrics == Metrics(0, 0, 0, 0)
      ensures loading && pushed == []
    {
      this.token := token;
      shipments := [];
      metrics := Metrics(0, 0, 0, 0);
      loading := true;
      pushed := [];
    }

    /** `fetchShipments`. The whole body sits in `try`/`finally`, so every
        path ends with `loading` false. */
    method FetchShipments(reply: FetchReply, dayOf: DayOf, today: int)
      modifies this
      ensures !loading
      ensures !HasToken(old(token)) ==> token == old(token) && pushed == old(pushed) + [LoginPath]
                                        && shipments == old(shipments) && metrics == old(metrics)
      ensures HasToken(old(token)) && reply.Response? && reply.status == 401 ==>
                token.None? && pushed == old(pushed) + [LoginPath]
                && shipments == old(shipments) && metrics == old(metrics)
      ensures HasToken(old(token)) && reply.Response? && IsOk(reply.status) && reply.body.Some? ==>
                token == old(token) && pushed == old(pushed)
                && shipments == reply.body.value
                && metrics.outForDelivery == CountStatus(shipments, "out-for-delivery")
                && metrics.pendingPickup == CountStatus(shipments, "pending")
                && metrics.inTransit == CountStatus(shipments, "in-transit")
                && metrics.deliveredToday == CountDeliveredOn(shipments, dayOf, today)
      ensures (HasToken(old(token)) && (reply.NetworkError? || (reply.status != 401 && (!IsOk(reply.status) || reply.body.None?)))) ==>
                token == old(token) && pushed == old(pushed)
                && shipments == old(shipments) && metrics == old(metrics)
    {
      if !HasToken(token) {
        pushed := pushed + [LoginPath];
      } else if reply.Response? && reply.status == 401 {
        token := None;
        pushed := pushed + [LoginPath];
      } else if reply.Response? && IsOk(reply.status) && reply.body.Some? {
        shipments := reply.body.value;
        metrics := CalculateKPIMetrics(shipments, dayOf, today);
      }
      loading := false;
    }
  }
}
