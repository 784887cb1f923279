/** The rendering surface, kept abstract: a chart built from a dataset holds one label
    per sample, the value series, and the zoom/pan view the user has put it in. */
module ChartSurface {
  import opened Samples

  /** The chart's view: the default (fully zoomed out, unpanned) or a user transform. */
  datatype Zoom = DefaultZoom | Transformed(scaleX: int, scaleY: int, panX: int, panY: int)

  /** A chart instance; `serial` is its creation ordinal (1 for the first chart). */
  datatype ChartInstance = ChartInstance(serial: nat, labels: seq<string>, values: seq<int>, zoom: Zoom)

  /** The component's chart-instance ref: empty, or the last chart built. */
  datatype ChartRef = NoChart | Ref(chart: ChartInstance)

  /** The x-axis labels: the formatted timestamp of each sample, in order. The formatter,
      which depends on the locale and the time zone, is the parameter `fmt`. */
  function Labels(ds: Dataset, fmt: string -> string): (r: seq<string>)
    ensures |r| == |ds|
    ensures forall i :: 0 <= i < |ds| ==> r[i] == fmt(ds[i].timestamp)
  {
    if ds == [] then [] else [fmt(ds[0].timestamp)] + Labels(ds[1..], fmt)
  }

  /** The value series: the value of each sample, in order. */
  function Values(ds: Dataset): (r: seq<int>)
    ensures |r| == |ds|
    ensures forall i :: 0 <= i < |ds| ==> r[i] == ds[i].value
  {
    if ds == [] then [] else [ds[0].value] + Values(ds[1..])
  }

  /** `new Chart(...)` over a dataset: one point per sample, order kept, default view. */
  function Build(ds: Dataset, fmt: string -> string, serial: nat): (c: ChartInstance)
    ensures c.serial == serial && c.zoom == DefaultZoom
    ensures |c.labels| == |ds| && |c.values| == |ds|
    ensures forall i :: 0 <= i < |ds| ==> c.labels[i] == fmt(ds[i].timestamp) && c.values[i] == ds[i].value
  {
    ChartInstance(serial, Labels(ds, fmt), Values(ds), DefaultZoom)
  }

  /** The value series is an order-preserving projection: it maps a concatenation of
      datasets to the concatenation of their series. */
  lemma ValuesOfConcat(a: Dataset, b: Dataset)
    ensures Values(a + b) == Values(a) + Values(b)
  {
  }

  /** Two datasets with the same value series and the same labels under an injective
      formatter are the same dataset: the chart loses no sample. */
  lemma BuildDeterminesData(a: Dataset, b: Dataset, fmt: string -> string, n: nat)
    requires forall s, t :: fmt(s) == fmt(t) ==> s == t
    requires Build(a, fmt, n) == Build(b, fmt, n)
    ensures a == b
  {
  }
}
