/** The dashboard's "Packages by Location" pie: shipments counted by
    destination, coloured in first-seen order, largest six kept. */
module LocationChart {
  import opened Wrappers
  import opened Text
  import opened Tally
  import opened Sorting

  const Palette: seq<string> := [
    "hsl(var(--chart-blue))", "hsl(var(--chart-orange))", "hsl(var(--chart-green))",
    "hsl(var(--chart-red))", "hsl(var(--chart-purple))", "hsl(var(--chart-cyan))"
  ]

  const MaxSlices := 6

  datatype Slice = Slice(name: string, value: nat, color: string)

  /** `shipment.destination || 'Unknown Location'` for every shipment. */
  function Locations(destinations: seq<Option<string>>): (ls: seq<string>)
    ensures |ls| == |destinations|
    ensures forall i :: 0 <= i < |ls| ==> ls[i] == Or(destinations[i], "Unknown Location")
  {
    seq(|destinations|, i requires 0 <= i < |destinations| => Or(destinations[i], "Unknown Location"))
  }

  /** `Object.entries(...).map(([location, count], index) => ...)`: the colour
      comes from the entry's position, before any sorting. */
  function Coloured(c: seq<(string, nat)>): (r: seq<Slice>)
    ensures |r| == |c|
    ensures forall i :: 0 <= i < |c| ==> r[i] == Slice(c[i].0, c[i].1, Palette[i % |Palette|])
  {
    seq(|c|, i requires 0 <= i < |c| => Slice(c[i].0, c[i].1, Palette[i % |Palette|]))
  }

  function SliceValue(s: Slice): int {
    s.value
  }

  function SliceName(s: Slice): string {
    s.name
  }

  ghost predicate HasSlice(slices: seq<Slice>, name: string) {
    exists i :: 0 <= i < |slices| && slices[i].name == name
  }

  /** All entries, coloured and sorted, before the cut to six. */
  ghost function Ranked(ls: seq<string>): seq<Slice> {
    SortDesc(Coloured(Tallied(ls)), SliceValue)
  }

  /** `chartData`: count, colour, sort by count, keep the first six. */
  method ChartData(destinations: seq<Option<string>>) returns (slices: seq<Slice>)
    ensures |slices| == if |Tallied(Locations(destinations))| < MaxSlices then |Tallied(Locations(destinations))| else MaxSlices
    ensures SortedDesc(slices, SliceValue)
    ensures DistinctBy(slices, SliceName)
    ensures forall i :: 0 <= i < |slices| ==>
              slices[i].value == Occurrences(Locations(destinations), slices[i].name) && slices[i].value >= 1
              && slices[i].color == Palette[Find(Tallied(Locations(destinations)), slices[i].name) % |Palette|]
              && slices[i].name in Locations(destinations)
    ensures forall k :: k in Locations(destinations) && !HasSlice(slices, k) ==>
              forall i :: 0 <= i < |slices| ==> slices[i].value >= Occurrences(Locations(destinations), k)
    ensures SumKeys(slices, SliceValue) <= |destinations|
    ensures |Tallied(Locations(destinations))| <= MaxSlices ==> SumKeys(slices, SliceValue) == |destinations|
  {
    var ls := Locations(destinations);
    var counts := CountAll(ls);
    var ranked := SortDesc(Coloured(counts), SliceValue);
    var n := if |ranked| < MaxSlices then |ranked| else MaxSlices;
    slices := ranked[..n];
    TopSlices(ls, n);
  }

  /** What the cut to `n` entries keeps. */
  lemma TopSlices(ls: seq<string>, n: nat)
    requires n <= |Ranked(ls)|
    ensures |Ranked(ls)| == |Tallied(ls)|
    ensures SortedDesc(Ranked(ls)[..n], SliceValue)
    ensures DistinctBy(Ranked(ls)[..n], SliceName)
    ensures forall i :: 0 <= i < n ==>
              Ranked(ls)[i].value == Occurrences(ls, Ranked(ls)[i].name) && Ranked(ls)[i].value >= 1
              && Ranked(ls)[i].color == Palette[Find(Tallied(ls), Ranked(ls)[i].name) % |Palette|]
              && Ranked(ls)[i].name in ls
    ensures forall k :: k in ls && !HasSlice(Ranked(ls)[..n], k) ==>
              forall i :: 0 <= i < n ==> Ranked(ls)[i].value >= Occurrences(ls, k)
    ensures SumKeys(Ranked(ls)[..n], SliceValue) <= |ls|
    ensures n == |Ranked(ls)| ==> SumKeys(Ranked(ls)[..n], SliceValue) == |ls|
  {
    var ranked := Ranked(ls);
    RankedEntries(ls);
    SortedPrefix(ranked, SliceValue, n);
    RankedDistinct(ls);
    DistinctPrefix(ranked, SliceName, n);
    RankedTotal(ls);
    SumPrefix(ranked, n);
    TopKeepsLargest(ls, n);
  }

  /** A location left out of the first `n` slices has no more deliveries
      than any slice kept. */
  lemma TopKeepsLargest(ls: seq<string>, n: nat)
    requires n <= |Ranked(ls)|
    ensures forall k :: k in ls && !HasSlice(Ranked(ls)[..n], k) ==>
              forall i :: 0 <= i < n ==> Ranked(ls)[i].value >= Occurrences(ls, k)
  {
    var ranked := Ranked(ls);
    forall k | k in ls && !HasSlice(ranked[..n], k)
      ensures forall i :: 0 <= i < n ==> ranked[i].value >= Occurrences(ls, k)
    {
      RankedHas(ls, k);
      var p :| 0 <= p < |ranked| && ranked[p].name == k && ranked[p].value == Occurrences(ls, k);
      PrefixWitness(ranked, n, p);
      assert n <= p;
    }
  }

  /** Each ranked entry carries its location's count and the colour of its
      first-seen position. */
  lemma RankedEntries(ls: seq<string>)
    ensures forall i :: 0 <= i < |Ranked(ls)| ==>
              Ranked(ls)[i].value == Occurrences(ls, Ranked(ls)[i].name) && Ranked(ls)[i].value >= 1
              && Ranked(ls)[i].color == Palette[Find(Tallied(ls), Ranked(ls)[i].name) % |Palette|]
              && Ranked(ls)[i].name in ls
  {
    var c := Tallied(ls);
    var unsorted := Coloured(c);
    TallyDistinct(ls);
    forall i | 0 <= i < |Ranked(ls)|
      ensures Ranked(ls)[i].value == Occurrences(ls, Ranked(ls)[i].name) && Ranked(ls)[i].value >= 1
      ensures Ranked(ls)[i].color == Palette[Find(c, Ranked(ls)[i].name) % |Palette|]
      ensures Ranked(ls)[i].name in ls
    {
      var s := Ranked(ls)[i];
      assert s in multiset(unsorted);
      var j :| 0 <= j < |unsorted| && unsorted[j] == s;
      TallyEntry(ls, j);
      FindDistinct(c, j);
      TallyKeys(ls, c[j].0);
      assert HasKey(c, c[j].0);
    }
  }

  /** Every location that occurs has a ranked entry with its count. */
  lemma RankedHas(ls: seq<string>, k: string)
    requires k in ls
    ensures exists p :: 0 <= p < |Ranked(ls)| && Ranked(ls)[p].name == k && Ranked(ls)[p].value == Occurrences(ls, k)
  {
    var c := Tallied(ls);
    TallyKeys(ls, k);
    var j :| 0 <= j < |c| && c[j].0 == k;
    TallyEntry(ls, j);
    assert Coloured(c)[j] in multiset(Ranked(ls));
    var p :| 0 <= p < |Ranked(ls)| && Ranked(ls)[p] == Coloured(c)[j];
  }

  lemma RankedDistinct(ls: seq<string>)
    ensures DistinctBy(Ranked(ls), SliceName)
  {
    TallyDistinct(ls);
    assert DistinctBy(Coloured(Tallied(ls)), SliceName);
    SortDistinct(Coloured(Tallied(ls)), SliceValue, SliceName);
  }

  lemma RankedTotal(ls: seq<string>)
    ensures SumKeys(Ranked(ls), SliceValue) == |ls|
  {
    SortSum(Coloured(Tallied(ls)), SliceValue);
    ColouredSum(Tallied(ls));
    TallyTotal(ls);
  }

  lemma {:induction false} ColouredSum(c: seq<(string, nat)>)
    ensures SumKeys(Coloured(c), SliceValue) == Total(c)
  {
    if c != [] {
      var r := Coloured(c);
      var t := Coloured(c[1..]);
      ColouredSum(c[1..]);
      // The tail's colours differ (positions shift by one) but its counts do not.
      SumValuesOnly(r[1..], t);
    }
  }

  lemma {:induction false} SumValuesOnly(a: seq<Slice>, b: seq<Slice>)
    requires |a| == |b|
    requires forall i :: 0 <= i < |a| ==> a[i].value == b[i].value
    ensures SumKeys(a, SliceValue) == SumKeys(b, SliceValue)
  {
    if a != [] {
      SumValuesOnly(a[1..], b[1..]);
    }
  }

  lemma PrefixWitness(s: seq<Slice>, n: nat, p: nat)
    requires n <= |s| && p < |s|
    ensures p < n ==> HasSlice(s[..n], s[p].name)
  {
    if p < n {
      assert s[..n][p] == s[p];
    }
  }

  /** Cutting never adds: a prefix sums to at most the whole. */
  lemma {:induction false} SumPrefix(s: seq<Slice>, n: nat)
    requires n <= |s|
    ensures SumKeys(s[..n], SliceValue) <= SumKeys(s, SliceValue)
    ensures n == |s| ==> s[..n] == s
  {
    if n > 0 {
      assert s[..n][1..] == s[1..][..n - 1];
      SumPrefix(s[1..], n - 1);
    } else if s != [] {
      NonNegative(s[1..]);
    }
  }

  lemma {:induction false} NonNegative(s: seq<Slice>)
    ensures SumKeys(s, SliceValue) >= 0
  {
    if s != [] {
      NonNegative(s[1..]);
    }
  }
}
