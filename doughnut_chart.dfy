/** `DoughnutChart`: the slices handed to the pie are the input entries
    whose `value` is greater than zero, in input order, each reduced to its
    `key` and `value`; one text label is drawn per slice. */
module DoughnutChart {
  import opened Seqs
  import Js

  /** One element of `pieData` (its fill colour is not modelled). */
  datatype PieSlice = PieSlice(key: Js.Value, value: Js.Value)

  /** `(item) => item.value > 0`. */
  function HasPositiveValue(): Js.Obj -> bool
  {
    (item: Js.Obj) => Js.GreaterThanZero(Js.Get(item, "value"))
  }

  /** `({ key: item.key, value: item.value, … })`. */
  function SliceOf(item: Js.Obj): PieSlice
  {
    PieSlice(Js.Get(item, "key"), Js.Get(item, "value"))
  }

  /** `data.filter(…).map(…)`. */
  function PieData(data: seq<Js.Obj>): (r: seq<PieSlice>)
    ensures |r| <= |data|
    ensures forall i :: 0 <= i < |r| ==> Js.GreaterThanZero(r[i].value)
    ensures forall x :: x in r <==> exists item :: item in data && Js.GreaterThanZero(Js.Get(item, "value")) && x == SliceOf(item)
  {
    var kept := Filter(data, HasPositiveValue());
    var r := seq(|kept|, i requires 0 <= i < |kept| => SliceOf(kept[i]));
    assert forall i :: 0 <= i < |kept| ==> HasPositiveValue()(kept[i]);
    assert forall x :: x in r ==> exists item :: item in kept && x == SliceOf(item);
    assert forall item :: item in kept ==> SliceOf(item) in r by {
      forall item | item in kept ensures SliceOf(item) in r {
        var i :| 0 <= i < |kept| && kept[i] == item;
        assert r[i] == SliceOf(item);
      }
    }
    r
  }

  /** The labels: `pieData.map((item, index) => <Text>{item.value}</Text>)`. */
  function Labels(pie: seq<PieSlice>): seq<Js.Value>
  {
    seq(|pie|, i requires 0 <= i < |pie| => pie[i].value)
  }

  /** The pie of a concatenation is the concatenation of the pies: input
      order is kept. */
  lemma PieDataAppend(a: seq<Js.Obj>, b: seq<Js.Obj>)
    ensures PieData(a + b) == PieData(a) + PieData(b)
  {
    FilterAppend(a, b, HasPositiveValue());
  }

  /** When every entry has a positive value, each becomes the slice at its
      own position. */
  lemma PieDataKeepsAllPositive(data: seq<Js.Obj>)
    requires forall i :: 0 <= i < |data| ==> Js.GreaterThanZero(Js.Get(data[i], "value"))
    ensures |PieData(data)| == |data|
    ensures forall i :: 0 <= i < |data| ==> PieData(data)[i] == SliceOf(data[i])
  {
    FilterKeepsAll(data, HasPositiveValue());
  }

  /** When no entry has a positive value, there are no slices. */
  lemma PieDataDropsAllNonPositive(data: seq<Js.Obj>)
    requires forall i :: 0 <= i < |data| ==> !Js.GreaterThanZero(Js.Get(data[i], "value"))
    ensures PieData(data) == []
  {
    FilterKeepsNone(data, HasPositiveValue());
  }

  /** The slices are the entries with a positive value, each kept as often
      as it occurs, and in the order they come in. */
  lemma PieDataCounts(data: seq<Js.Obj>)
    ensures |PieData(data)| == |Filter(data, HasPositiveValue())|
    ensures forall i :: 0 <= i < |PieData(data)| ==> PieData(data)[i] == SliceOf(Filter(data, HasPositiveValue())[i])
    ensures SubsequenceOf(Filter(data, HasPositiveValue()), data)
  {
    FilterIsSubsequence(data, HasPositiveValue());
  }

  /** Exactly one label per slice, each showing that slice's value, which is
      positive. */
  lemma OneLabelPerSlice(data: seq<Js.Obj>)
    ensures |Labels(PieData(data))| == |PieData(data)|
    ensures forall i :: 0 <= i < |PieData(data)| ==>
      Labels(PieData(data))[i] == PieData(data)[i].value && Js.GreaterThanZero(Labels(PieData(data))[i])
  {
  }
}
