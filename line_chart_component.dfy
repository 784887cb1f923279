/** The LineChart component itself: React state, the chart-instance ref and the live
    surface as fields, one method per callback. Each method is proved to do what `Step`
    says for its event, and to keep the lifecycle invariant. */
module LineChartComponent {
  import opened Samples
  import opened UpdateGate
  import opened ChartSurface
  import opened LineChartModel
  import opened LineChartProperties

  class LineChart {
    /** The timestamp formatter (dependent on the locale and the time zone). */
    const fmt: string -> string
    /** `useState([])` */
    var data: Dataset
    /** `useState(true)` */
    var loading: bool
    /** The socket subscription and how often it was disconnected. */
    var connected: bool
    var disconnects: nat
    /** Whether the chart built by the last render effect still exists. */
    var surfaceLive: bool
    /** `chartInstance.current`: set on every build, never cleared. */
    var instanceRef: ChartRef
    /** Charts built and destroyed so far. */
    var creates: nat
    var destroys: nat

    /** The component's state as a value. */
    function Abstract(): ViewState
      reads this
    {
      ViewState(data, loading, connected, disconnects, surfaceLive, instanceRef, creates, destroys)
    }

    ghost predicate Valid()
      reads this
    {
      Inv(Abstract(), fmt)
    }

    /** Mount: initial state, the snapshot request started, the socket connected; the
        first render effect finds no data and builds nothing. */
    constructor (fmt: string -> string)
      ensures Valid() && this.fmt == fmt
      ensures data == [] && loading && connected && disconnects == 0
      ensures !surfaceLive && instanceRef == NoChart && creates == 0 && destroys == 0
    {
      this.fmt := fmt;
      data, loading := [], true;
      connected, disconnects := true, 0;
      surfaceLive, instanceRef := false, NoChart;
      creates, destroys := 0, 0;
    }

    /** The render effect with its cleanup: destroy the previous chart, then build a
        new one unless the data is empty or still loading. */
    method RunRenderEffect()
      modifies this
      ensures Abstract() == RenderEffect(old(Abstract()), fmt)
    {
      if surfaceLive {
        surfaceLive := false;          // myChart.destroy()
        destroys := destroys + 1;
      }
      if |data| == 0 || loading {
        return;
      }
      var chart := Build(data, fmt, creates + 1);
      creates := creates + 1;
      surfaceLive := true;
      instanceRef := Ref(chart);
    }

    /** fetchData settling, with the response or with an error. */
    method FetchSettled(outcome: FetchOutcome)
      requires Valid()
      modifies this
      ensures Valid()
      ensures Abstract() == Step(old(Abstract()), SnapshotSettled(outcome), fmt)
    {
      StepKeepsInv(Abstract(), SnapshotSettled(outcome), fmt);
      if !connected {
        return;
      }
      match outcome
      case Fetched(ds) =>
        data := ds;
        loading := false;
        RunRenderEffect();
      case FetchFailed =>
        var changed := loading;
        loading := false;
        if changed {
          RunRenderEffect();
        }
    }

    /** The "dataUpdate" handler: setData through the gating updater. */
    method OnDataUpdate(pushed: Dataset)
      requires Valid()
      modifies this
      ensures Valid()
      ensures Abstract() == Step(old(Abstract()), DataUpdate(pushed), fmt)
    {
      StepKeepsInv(Abstract(), DataUpdate(pushed), fmt);
      if !connected {
        return;
      }
      match Updater(data, pushed)
      case KeepPrevious =>
      case Replace(next) =>
        data := next;
        RunRenderEffect();
    }

    /** A wheel, pinch or drag gesture on the live chart. */
    method OnGesture(z: Zoom)
      requires Valid()
      modifies this
      ensures Valid()
      ensures Abstract() == Step(old(Abstract()), UserGesture(z), fmt)
    {
      StepKeepsInv(Abstract(), UserGesture(z), fmt);
      if connected && surfaceLive && instanceRef.Ref? {
        instanceRef := Ref(instanceRef.chart.(zoom := z));
      }
    }

    /** handleResetZoom. */
    method HandleResetZoom()
      requires Valid()
      modifies this
      ensures Valid()
      ensures Abstract() == Step(old(Abstract()), ResetClick, fmt)
      ensures data == old(data) && loading == old(loading)
    {
      StepKeepsInv(Abstract(), ResetClick, fmt);
      if connected && instanceRef.Ref? {
        instanceRef := Ref(instanceRef.chart.(zoom := DefaultZoom));
      }
    }

    /** Unmount: disconnect the socket and run the render effect's cleanup. */
    method Unmount()
      requires Valid()
      modifies this
      ensures Valid()
      ensures Abstract() == Step(old(Abstract()), Unmounted, fmt)
      ensures !connected && disconnects == 1 && !surfaceLive && creates == destroys
    {
      StepKeepsInv(Abstract(), Unmounted, fmt);
      if !connected {
        return;
      }
      connected := false;               // socket.disconnect()
      disconnects := disconnects + 1;
      if surfaceLive {
        surfaceLive := false;           // myChart.destroy()
        destroys := destroys + 1;
      }
    }
  }

  /** Reset before any data does nothing. */
  method ScenarioResetBeforeData(fmt: string -> string)
  {
    var c := new LineChart(fmt);
    c.HandleResetZoom();
    assert c.instanceRef == NoChart && c.data == [] && c.loading && c.creates == 0;
  }

  /** A snapshot of one sample shows that sample: one chart, one label, one value. */
  method ScenarioOneSampleShown(fmt: string -> string)
  {
    var c := new LineChart(fmt);
    var five := Sample("2024-01-01T00:00:00Z", 5);
    c.FetchSettled(Fetched([five]));
    assert c.surfaceLive && c.creates == 1;
    assert c.instanceRef.chart.values == [5] && c.instanceRef.chart.labels == [fmt(five.timestamp)];
  }

  /** Pushing the displayed sample again is suppressed: no chart destroyed or built. */
  method ScenarioSamePushSuppressed(fmt: string -> string)
  {
    var c := new LineChart(fmt);
    var five := Sample("2024-01-01T00:00:00Z", 5);
    c.FetchSettled(Fetched([five]));
    ghost var s := c.Abstract();
    c.OnDataUpdate([five]);
    EqualUpdateIsSuppressed(s, [five], fmt);
    assert c.creates == 1 && c.destroys == 0;
  }

  /** Pushing a changed value destroys the chart and builds one showing the new value. */
  method ScenarioChangedValueRebuilds(fmt: string -> string)
  {
    var c := new LineChart(fmt);
    var five, seven := Sample("2024-01-01T00:00:00Z", 5), Sample("2024-01-01T00:00:00Z", 7);
    c.FetchSettled(Fetched([five]));
    ghost var s := c.Abstract();
    c.OnDataUpdate([seven]);
    SameContentIsEquality([seven], [five]);
    ChangedUpdateReplaces(s, [seven], fmt);
    BuildOnlyWhenReady(s, DataUpdate([seven]), fmt);
    assert c.creates == 2 && c.destroys == 1 && c.instanceRef.chart.values == [7];
  }

  /** After unmount neither a push nor the snapshot changes anything: no chart is
      built and the component stays loading. */
  method ScenarioNothingAfterUnmount(fmt: string -> string)
  {
    var c := new LineChart(fmt);
    c.Unmount();
    var seven := Sample("2024-01-01T00:00:00Z", 7);
    c.OnDataUpdate([seven]);
    c.FetchSettled(Fetched([seven]));
    assert c.data == [] && c.loading && c.disconnects == 1 && !c.surfaceLive && c.creates == 0;
  }
}
