/** The LineChart component as an event machine: its React state (`data`, `loading`),
    the chart-instance ref, the live surface and its create/destroy bookkeeping, and
    the socket subscription. `Step` is the meaning of one delivered event, including
    the render effect that React commits after a state change. */
module LineChartModel {
  import opened Samples
  import opened UpdateGate
  import opened ChartSurface

  /** How the one-shot snapshot request settles. */
  datatype FetchOutcome = Fetched(ds: Dataset) | FetchFailed

  /** The events the component reacts to. */
  datatype Event =
    | SnapshotSettled(outcome: FetchOutcome)   // the GET of fetchData resolves or throws
    | DataUpdate(pushed: Dataset)              // a "dataUpdate" message on the socket
    | UserGesture(zoom: Zoom)                  // wheel, pinch or drag on the live chart
    | ResetClick                               // the "Reset Zoom" button
    | Unmounted                                // the component is removed

  /** The component's whole state.
      - `surfaceLive`: a chart built by the render effect has not been destroyed yet;
      - `instanceRef`: `chartInstance.current`, set on every build and never cleared;
      - `creates`, `destroys`: charts built and destroyed so far;
      - `connected`, `disconnects`: the socket subscription and how often it was closed. */
  datatype ViewState = ViewState(
    data: Dataset,
    loading: bool,
    connected: bool,
    disconnects: nat,
    surfaceLive: bool,
    instanceRef: ChartRef,
    creates: nat,
    destroys: nat)

  /** The state right after mount: empty data, loading, subscribed, no chart (the
      first render effect returns at once because the data is empty). */
  function Mounted(): ViewState {
    ViewState([], true, true, 0, false, NoChart, 0, 0)
  }

  /** The render effect, run whenever `data` or `loading` changed: first the previous
      effect's cleanup destroys its chart, then a new chart is built unless the data is
      empty or still loading. */
  function RenderEffect(s: ViewState, fmt: string -> string): ViewState {
    var cleaned := if s.surfaceLive then s.(surfaceLive := false, destroys := s.destroys + 1) else s;
    if |cleaned.data| == 0 || cleaned.loading then cleaned
    else
      var n := cleaned.creates + 1;
      cleaned.(surfaceLive := true, creates := n, instanceRef := Ref(Build(cleaned.data, fmt, n)))
  }

  /** fetchData settling: on success the data is written unconditionally (a new array,
      so the effect always reruns); both paths clear `loading`, which reruns the effect
      only when it actually changed. */
  function OnSnapshot(s: ViewState, outcome: FetchOutcome, fmt: string -> string): ViewState {
    match outcome
    case Fetched(ds) => RenderEffect(s.(data := ds, loading := false), fmt)
    case FetchFailed => if s.loading then RenderEffect(s.(loading := false), fmt) else s
  }

  /** The socket handler: setData with the gating updater. Keeping the previous dataset
      makes React bail out, so nothing changes and no effect runs. */
  function OnDataUpdate(s: ViewState, pushed: Dataset, fmt: string -> string): ViewState {
    match Updater(s.data, pushed)
    case KeepPrevious => s
    case Replace(next) => RenderEffect(s.(data := next), fmt)
  }

  /** The zoom plugin changing the view of the live chart. */
  function OnGesture(s: ViewState, z: Zoom): ViewState {
    if s.surfaceLive && s.instanceRef.Ref? then s.(instanceRef := Ref(s.instanceRef.chart.(zoom := z))) else s
  }

  /** handleResetZoom: guarded only by the ref, which is set once any chart was built. */
  function OnReset(s: ViewState): ViewState {
    if s.instanceRef.Ref? then s.(instanceRef := Ref(s.instanceRef.chart.(zoom := DefaultZoom))) else s
  }

  /** Unmount: the first effect's cleanup disconnects the socket, the render effect's
      cleanup destroys the live chart; a second unmount does nothing. */
  function OnUnmount(s: ViewState): ViewState {
    if !s.connected then s
    else
      s.(connected := false, disconnects := s.disconnects + 1, surfaceLive := false,
         destroys := if s.surfaceLive then s.destroys + 1 else s.destroys)
  }

  /** One event. Once unmounted, the socket delivers nothing and state setters are
      no-ops, so every event leaves the state as it is. */
  function Step(s: ViewState, e: Event, fmt: string -> string): ViewState {
    if !s.connected then s
    else
      match e
      case SnapshotSettled(o) => OnSnapshot(s, o, fmt)
      case DataUpdate(ds) => OnDataUpdate(s, ds, fmt)
      case UserGesture(z) => OnGesture(s, z)
      case ResetClick => OnReset(s)
      case Unmounted => OnUnmount(s)
  }

  /** A sequence of events, delivered in order. */
  function Run(s: ViewState, es: seq<Event>, fmt: string -> string): ViewState
    decreases |es|
  {
    if es == [] then s else Run(Step(s, es[0], fmt), es[1..], fmt)
  }

  /** The lifecycle invariant of the component:
      - at most one surface is live, and it is the one the ref points to;
      - the live surface shows exactly the held data;
      - while mounted, a surface is live exactly when loading is over and data is non-empty;
      - the ref is empty exactly until the first chart is built, which is after loading;
      - the subscription is closed exactly once, on unmount, and then nothing is live. */
  predicate Inv(s: ViewState, fmt: string -> string) {
    && s.destroys <= s.creates
    && s.creates - s.destroys == (if s.surfaceLive then 1 else 0)
    && (s.instanceRef.NoChart? <==> s.creates == 0)
    && (s.instanceRef.Ref? ==> s.instanceRef.chart.serial == s.creates)
    && (s.surfaceLive ==>
          && s.instanceRef.Ref?
          && s.instanceRef.chart.labels == Labels(s.data, fmt)
          && s.instanceRef.chart.values == Values(s.data))
    && (s.connected ==> (s.surfaceLive <==> !s.loading && |s.data| > 0))
    && (!s.connected ==> !s.surfaceLive)
    && s.disconnects == (if s.connected then 0 else 1)
    && (s.loading ==> s.creates == 0)
  }

  /** Every event preserves the invariant. */
  lemma StepKeepsInv(s: ViewState, e: Event, fmt: string -> string)
    requires Inv(s, fmt)
    ensures Inv(Step(s, e, fmt), fmt)
  {
  }
}
