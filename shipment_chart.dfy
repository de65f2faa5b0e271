/** The dashboard's "Shipment Status Breakdown": one bar per lowercased
    status with its count, largest first. */
module ShipmentChart {
  import opened Text
  import opened Tally
  import opened Sorting
  import LegacyShipmentModel

  /** A chart entry. `key` is the record key it came from; `category` is
      that key with white space removed, lowercased. */
  datatype Bar = Bar(key: string, name: string, value: nat, category: string)

  /** `shipment.status.toLowerCase()` for every shipment. */
  function Keys(statuses: seq<string>): (ks: seq<string>)
    ensures |ks| == |statuses|
    ensures forall i :: 0 <= i < |ks| ==> ks[i] == ToLower(statuses[i])
  {
    seq(|statuses|, i requires 0 <= i < |statuses| => ToLower(statuses[i]))
  }

  /** A character JavaScript's `\s` matches. */
  predicate IsSpace(c: char) {
    var n := c as int;
    (9 <= n <= 13) || n == 0x20 || n == 0xA0 || n == 0x1680 || (0x2000 <= n <= 0x200A)
    || n == 0x2028 || n == 0x2029 || n == 0x202F || n == 0x205F || n == 0x3000 || n == 0xFEFF
  }

  /** `s.replace(/\s+/g, '')` */
  function StripSpaces(s: string): (r: string)
    ensures forall c :: c in r ==> !IsSpace(c) && c in s
    ensures forall c :: c in s && !IsSpace(c) ==> c in r
  {
    if s == [] then []
    else (if IsSpace(s[0]) then [] else [s[0]]) + StripSpaces(s[1..])
  }

  /** The bar label: three two-word statuses get a space, the rest are
      capitalised. */
  function DisplayName(key: string): string {
    if key == "pickedup" then "Picked Up"
    else if key == "intransit" then "In Transit"
    else if key == "outfordelivery" then "Out for Delivery"
    else Capitalize(key)
  }

  function ToBar(e: (string, nat)): Bar {
    Bar(e.0, DisplayName(e.0), e.1, ToLower(StripSpaces(e.0)))
  }

  function BarValue(b: Bar): int {
    b.value
  }

  function BarKey(b: Bar): string {
    b.key
  }

  /** `Object.entries(statusCounts).map(...)` */
  function Bars(c: seq<(string, nat)>): (r: seq<Bar>)
    ensures |r| == |c|
    ensures forall i :: 0 <= i < |c| ==> r[i] == ToBar(c[i])
  {
    seq(|c|, i requires 0 <= i < |c| => ToBar(c[i]))
  }

  ghost predicate HasBar(bars: seq<Bar>, k: string) {
    exists i :: 0 <= i < |bars| && bars[i].key == k
  }

  /** `chartData`: count the lowercased statuses, label them and sort by
      count. */
  method ChartData(statuses: seq<string>) returns (bars: seq<Bar>)
    ensures SortedDesc(bars, BarValue)
    ensures forall i :: 0 <= i < |bars| ==>
              bars[i].value == Occurrences(Keys(statuses), bars[i].key) && bars[i].value >= 1
              && bars[i].name == DisplayName(bars[i].key)
    ensures forall k :: k in Keys(statuses) <==> HasBar(bars, k)
    ensures DistinctBy(bars, BarKey)
    ensures SumKeys(bars, BarValue) == |statuses|
    ensures bars == [] <==> statuses == []
  {
    var ks := Keys(statuses);
    var counts := CountAll(ks);
    bars := SortDesc(Bars(counts), BarValue);
    forall i | 0 <= i < |bars|
      ensures bars[i].value == Occurrences(ks, bars[i].key) && bars[i].value >= 1
      ensures bars[i].name == DisplayName(bars[i].key)
    {
      BarCounts(ks, i);
    }
    forall k
      ensures k in ks <==> HasBar(bars, k)
    {
      BarKeys(ks, k);
    }
    BarsDistinct(ks);
    BarsTotal(ks);
    if statuses != [] {
      assert ks[0] in ks;
    }
  }

  lemma BarCounts(ks: seq<string>, i: nat)
    requires i < |SortDesc(Bars(Tallied(ks)), BarValue)|
    ensures var b := SortDesc(Bars(Tallied(ks)), BarValue)[i];
            b.value == Occurrences(ks, b.key) && b.value >= 1 && b.name == DisplayName(b.key)
  {
    var unsorted := Bars(Tallied(ks));
    var b := SortDesc(unsorted, BarValue)[i];
    assert b in multiset(unsorted);
    var j :| 0 <= j < |unsorted| && unsorted[j] == b;
    TallyEntry(ks, j);
  }

  lemma BarKeys(ks: seq<string>, k: string)
    ensures k in ks <==> HasBar(SortDesc(Bars(Tallied(ks)), BarValue), k)
  {
    TallyKeys(ks, k);
    if k in ks {
      CountedHasBar(ks, k);
    }
    if HasBar(SortDesc(Bars(Tallied(ks)), BarValue), k) {
      BarWasCounted(ks, k);
    }
  }

  lemma CountedHasBar(ks: seq<string>, k: string)
    requires exists j :: 0 <= j < |Tallied(ks)| && Tallied(ks)[j].0 == k
    ensures HasBar(SortDesc(Bars(Tallied(ks)), BarValue), k)
  {
    var counts := Tallied(ks);
    var unsorted := Bars(counts);
    var bars := SortDesc(unsorted, BarValue);
    var j :| 0 <= j < |counts| && counts[j].0 == k;
    assert unsorted[j].key == k;
    assert unsorted[j] in multiset(bars);
    var i :| 0 <= i < |bars| && bars[i] == unsorted[j];
  }

  lemma BarWasCounted(ks: seq<string>, k: string)
    requires HasBar(SortDesc(Bars(Tallied(ks)), BarValue), k)
    ensures exists j :: 0 <= j < |Tallied(ks)| && Tallied(ks)[j].0 == k
  {
    var counts := Tallied(ks);
    var unsorted := Bars(counts);
    var bars := SortDesc(unsorted, BarValue);
    var i :| 0 <= i < |bars| && bars[i].key == k;
    assert bars[i] in multiset(unsorted);
    var j :| 0 <= j < |unsorted| && unsorted[j] == bars[i];
    assert counts[j].0 == k;
  }

  lemma BarsDistinct(ks: seq<string>)
    ensures DistinctBy(SortDesc(Bars(Tallied(ks)), BarValue), BarKey)
  {
    TallyDistinct(ks);
    assert DistinctBy(Bars(Tallied(ks)), BarKey);
    SortDistinct(Bars(Tallied(ks)), BarValue, BarKey);
  }

  lemma BarsTotal(ks: seq<string>)
    ensures SumKeys(SortDesc(Bars(Tallied(ks)), BarValue), BarValue) == |ks|
  {
    SortSum(Bars(Tallied(ks)), BarValue);
    BarsSum(Tallied(ks));
    TallyTotal(ks);
  }

  lemma {:induction false} BarsSum(c: seq<(string, nat)>)
    ensures SumKeys(Bars(c), BarValue) == Total(c)
  {
    if c != [] {
      assert Bars(c)[1..] == Bars(c[1..]);
      BarsSum(c[1..]);
    }
  }

  /** The labels the three two-word stored statuses get: a space between
      the words. */
  lemma TwoWordLabels()
    ensures DisplayName(ToLower("PickedUp")) == "Picked Up"
    ensures DisplayName(ToLower("InTransit")) == "In Transit"
    ensures DisplayName(ToLower("OutForDelivery")) == "Out for Delivery"
  {
    assert ToLower("PickedUp") == "pickedup";
    assert ToLower("InTransit") == "intransit";
    assert ToLower("OutForDelivery") == "outfordelivery";
  }

  /** The one-word stored statuses come back as they were stored. */
  lemma OneWordLabels()
    ensures DisplayName(ToLower("Pending")) == "Pending"
    ensures DisplayName(ToLower("Delivered")) == "Delivered"
    ensures DisplayName(ToLower("Delayed")) == "Delayed"
  {
    OneWordLabel("Pending", "pending");
    OneWordLabel("Delivered", "delivered");
    OneWordLabel("Delayed", "delayed");
  }

  lemma OneWordLabel(stored: string, key: string)
    requires |stored| == |key| && stored != []
    requires 'A' <= stored[0] <= 'Z' && key[0] == LowerChar(stored[0])
    requires forall i :: 1 <= i < |stored| ==> 'a' <= stored[i] <= 'z' && key[i] == stored[i]
    requires key != "pickedup" && key != "intransit" && key != "outfordelivery"
    ensures DisplayName(ToLower(stored)) == stored
  {
    assert ToLower(stored) == key;
    assert Capitalize(key) == stored;
  }
}
