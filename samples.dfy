/** Samples and datasets of the live line chart, and the content equality that the
    push-update gate uses to decide whether a pushed dataset is a change. */
module Samples {

  /** One timestamped reading as it arrives from the data service. The timestamp is
      kept as the wire string; the numeric value is opaque (no arithmetic is done on it). */
  datatype Sample = Sample(timestamp: string, value: int)

  /** A dataset is an ordered sequence of samples, in arrival order. */
  type Dataset = seq<Sample>

  /** Field-by-field comparison of two samples. */
  predicate SameSample(x: Sample, y: Sample) {
    x.timestamp == y.timestamp && x.value == y.value
  }

  /** Order-sensitive content comparison of two datasets, position by position: the
      structural reading of comparing their serialisations. */
  predicate SameContent(a: Dataset, b: Dataset)
    decreases |a|
  {
    if a == [] || b == [] then a == [] && b == []
    else SameSample(a[0], b[0]) && SameContent(a[1..], b[1..])
  }

  /** Content comparison is exactly value equality of the two sequences: same length,
      and the same sample at every position. */
  lemma {:induction false} SameContentIsEquality(a: Dataset, b: Dataset)
    ensures SameContent(a, b) <==> a == b
    decreases |a|
  {
    if a != [] && b != [] {
      SameContentIsEquality(a[1..], b[1..]);
      assert a == [a[0]] + a[1..];
      assert b == [b[0]] + b[1..];
    }
  }

  /** Content comparison is order-sensitive: a dataset with two different samples is
      not equal in content to the same samples swapped. */
  lemma SameContentIsOrderSensitive(x: Sample, y: Sample)
    requires x != y
    ensures !SameContent([x, y], [y, x])
  {
  }
}
