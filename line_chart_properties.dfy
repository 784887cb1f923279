/** What the LineChart event machine promises: the equality gate, the ungated snapshot
    path, the one-live-surface lifecycle, reset zoom and teardown. */
module LineChartProperties {
  import opened Samples
  import opened UpdateGate
  import opened ChartSurface
  import opened LineChartModel

  /** `n` copies of one event. */
  function Repeat(e: Event, n: nat): (r: seq<Event>)
    ensures |r| == n && forall i :: 0 <= i < n ==> r[i] == e
  {
    if n == 0 then [] else [e] + Repeat(e, n - 1)
  }

  /** Two events in a row. */
  lemma RunTwo(s: ViewState, e1: Event, e2: Event, fmt: string -> string)
    ensures Run(s, [e1, e2], fmt) == Step(Step(s, e1, fmt), e2, fmt)
  {
    var u := Step(s, e1, fmt);
    assert [e1, e2][1..] == [e2];
    assert Run(s, [e1, e2], fmt) == Run(u, [e2], fmt);
    assert Run(u, [e2], fmt) == Run(Step(u, e2, fmt), [], fmt);
  }

  /** The invariant holds after any sequence of events from a state where it holds. */
  lemma {:induction false} RunKeepsInv(s: ViewState, es: seq<Event>, fmt: string -> string)
    requires Inv(s, fmt)
    ensures Inv(Run(s, es, fmt), fmt)
    decreases |es|
  {
    if es != [] {
      StepKeepsInv(s, es[0], fmt);
      RunKeepsInv(Step(s, es[0], fmt), es[1..], fmt);
    }
  }

  /** The lifecycle bookkeeping of a state: at most one surface is live (creates -
      destroys is 0 or 1), the subscription was closed at most once, after unmount
      nothing is live and every chart ever built has been destroyed, and a live
      surface is the ref's chart and shows the held values. */
  predicate LifecycleBounds(t: ViewState) {
    && 0 <= t.creates - t.destroys <= 1
    && t.disconnects <= 1
    && (!t.connected ==> t.disconnects == 1 && !t.surfaceLive && t.creates == t.destroys)
    && (t.surfaceLive ==> t.instanceRef.Ref? && t.instanceRef.chart.values == Values(t.data))
  }

  /** From any state where the invariant holds, every later state keeps the bookkeeping. */
  lemma ReachableFrom(s: ViewState, es: seq<Event>, fmt: string -> string)
    requires Inv(s, fmt)
    ensures LifecycleBounds(Run(s, es, fmt))
  {
    RunKeepsInv(s, es, fmt);
  }

  /** Every state reachable from mount keeps the bookkeeping. */
  lemma Reachable(es: seq<Event>, fmt: string -> string)
    ensures LifecycleBounds(Run(Mounted(), es, fmt))
  {
    ReachableFrom(Mounted(), es, fmt);
  }

  /** A pushed dataset equal in content to the held one changes nothing: the data is
      kept and no chart is destroyed or built. */
  lemma EqualUpdateIsSuppressed(s: ViewState, pushed: Dataset, fmt: string -> string)
    requires SameContent(pushed, s.data)
    ensures Step(s, DataUpdate(pushed), fmt) == s
  {
    SameContentIsEquality(pushed, s.data);
  }

  /** A pushed dataset that differs replaces the held one wholesale, leaves `loading`
      alone, and rebuilds the chart: the live one is destroyed and a new one is built
      exactly when loading is over and the pushed dataset is non-empty. */
  lemma ChangedUpdateReplaces(s: ViewState, pushed: Dataset, fmt: string -> string)
    requires Inv(s, fmt) && s.connected
    requires !SameContent(pushed, s.data)
    ensures var t := Step(s, DataUpdate(pushed), fmt);
      && t.data == pushed && t.loading == s.loading
      && t.destroys == s.destroys + (if s.surfaceLive then 1 else 0)
      && t.creates == s.creates + (if !s.loading && |pushed| > 0 then 1 else 0)
  {
  }

  /** A successful snapshot writes its dataset without any equality gate and clears
      `loading`: a chart is rebuilt whenever the dataset is non-empty, even when it has
      the same content as the held data. */
  lemma SnapshotIsUngated(s: ViewState, ds: Dataset, fmt: string -> string)
    requires Inv(s, fmt) && s.connected
    ensures var t := Step(s, SnapshotSettled(Fetched(ds)), fmt);
      && t.data == ds && !t.loading
      && t.destroys == s.destroys + (if s.surfaceLive then 1 else 0)
      && t.creates == s.creates + (if |ds| > 0 then 1 else 0)
  {
  }

  /** A failed snapshot keeps the held data (empty, unless a push came first) and still
      clears `loading`. */
  lemma SnapshotFailureKeepsData(s: ViewState, fmt: string -> string)
    requires s.connected
    ensures var t := Step(s, SnapshotSettled(FetchFailed), fmt);
      t.data == s.data && !t.loading
  {
  }

  /** Whenever an event builds a chart: exactly one is built, only after loading and
      on non-empty data, the previously live one was destroyed first, and the new one
      is live, shows the held data point for point and starts at the default zoom. */
  lemma BuildOnlyWhenReady(s: ViewState, e: Event, fmt: string -> string)
    requires Inv(s, fmt)
    ensures var t := Step(s, e, fmt);
      && s.creates <= t.creates <= s.creates + 1
      && (t.creates != s.creates ==>
            && !t.loading && |t.data| > 0 && t.surfaceLive
            && t.destroys == s.destroys + (if s.surfaceLive then 1 else 0)
            && t.instanceRef == Ref(Build(t.data, fmt, t.creates))
            && t.instanceRef.chart.zoom == DefaultZoom)
  {
  }

  /** Reset zoom never touches `data` or `loading`; it does nothing before any chart was
      built, and otherwise resets the view of the last chart built, live or not. */
  lemma ResetZoomSemantics(s: ViewState, fmt: string -> string)
    ensures var t := Step(s, ResetClick, fmt);
      && t.data == s.data && t.loading == s.loading
      && (s.instanceRef.NoChart? ==> t == s)
      && (s.connected && s.instanceRef.Ref? ==>
            t == s.(instanceRef := Ref(s.instanceRef.chart.(zoom := DefaultZoom))))
  {
  }

  /** The ref outlives the surface: after a push empties the data the chart is
      destroyed, yet reset still reaches it and restores its default view. */
  lemma {:induction false} ResetReachesDestroyedChart(s: ViewState, z: Zoom, fmt: string -> string)
    requires Inv(s, fmt) && s.connected && s.surfaceLive
    ensures var u := Run(s, [UserGesture(z), DataUpdate([])], fmt);
      && !u.surfaceLive && u.instanceRef.Ref? && u.instanceRef.chart.zoom == z
      && Step(u, ResetClick, fmt).instanceRef == Ref(u.instanceRef.chart.(zoom := DefaultZoom))
  {
    var g := Step(s, UserGesture(z), fmt);
    assert g.data == s.data && g.surfaceLive;
    SameContentIsEquality([], g.data);
    RunTwo(s, UserGesture(z), DataUpdate([]), fmt);
  }

  /** Unmount closes the subscription once and destroys the live surface, if any;
      the data is left as it was. */
  lemma UnmountTearsDown(s: ViewState, fmt: string -> string)
    requires Inv(s, fmt) && s.connected
    ensures var t := Step(s, Unmounted, fmt);
      && !t.connected && t.disconnects == s.disconnects + 1 == 1
      && !t.surfaceLive && t.creates == t.destroys
      && t.destroys == s.destroys + (if s.surfaceLive then 1 else 0)
      && t.data == s.data && t.instanceRef == s.instanceRef
  {
  }

  /** After unmount no event changes anything. */
  lemma {:induction false} NothingAfterUnmount(s: ViewState, es: seq<Event>, fmt: string -> string)
    requires !s.connected
    ensures Run(s, es, fmt) == s
    decreases |es|
  {
    if es != [] {
      NothingAfterUnmount(Step(s, es[0], fmt), es[1..], fmt);
    }
  }

  /** Repeated deliveries of one pushed dataset act like a single delivery: the
      displayed dataset and the chart never change after the first acceptance. */
  lemma {:induction false} RepeatedUpdateIsIdempotent(s: ViewState, ds: Dataset, n: nat, fmt: string -> string)
    ensures Run(s, Repeat(DataUpdate(ds), n + 1), fmt) == Step(s, DataUpdate(ds), fmt)
    decreases n
  {
    var t := Step(s, DataUpdate(ds), fmt);
    assert Step(t, DataUpdate(ds), fmt) == t by {
      if t.connected {
        assert t.data == ds;
        SameContentIsEquality(ds, t.data);
        EqualUpdateIsSuppressed(t, ds, fmt);
      }
    }
    if n == 0 {
      assert Repeat(DataUpdate(ds), 1)[1..] == [];
    } else {
      RepeatedUpdateIsIdempotent(t, ds, n - 1, fmt);
      assert Repeat(DataUpdate(ds), n + 1)[1..] == Repeat(DataUpdate(ds), n);
      assert Run(t, Repeat(DataUpdate(ds), n), fmt) == Step(t, DataUpdate(ds), fmt);
    }
  }

  /** The same dataset pushed twice in a row causes at most one rebuild. */
  lemma SameUpdateTwiceRebuildsAtMostOnce(s: ViewState, ds: Dataset, fmt: string -> string)
    requires Inv(s, fmt)
    ensures Run(s, [DataUpdate(ds), DataUpdate(ds)], fmt).creates <= s.creates + 1
  {
    RunTwo(s, DataUpdate(ds), DataUpdate(ds), fmt);
    var t := Step(s, DataUpdate(ds), fmt);
    if t.connected {
      assert t.data == ds;
      SameContentIsEquality(ds, t.data);
      EqualUpdateIsSuppressed(t, ds, fmt);
    }
    BuildOnlyWhenReady(s, DataUpdate(ds), fmt);
  }

  /** Two different non-empty datasets pushed after loading cause exactly two rebuilds
      (each destroying the chart before it) and leave the second one displayed. */
  lemma {:induction false} DistinctUpdatesRebuildTwice(s: ViewState, d1: Dataset, d2: Dataset, fmt: string -> string)
    requires Inv(s, fmt) && s.connected && !s.loading
    requires d1 != s.data && d2 != d1 && |d1| > 0 && |d2| > 0
    ensures var t := Run(s, [DataUpdate(d1), DataUpdate(d2)], fmt);
      && t.creates == s.creates + 2 && t.destroys == s.destroys + 1 + (if s.surfaceLive then 1 else 0)
      && t.data == d2 && t.surfaceLive && t.instanceRef.Ref? && t.instanceRef.chart.values == Values(d2)
  {
    SameContentIsEquality(d1, s.data);
    ChangedUpdateReplaces(s, d1, fmt);
    var u := Step(s, DataUpdate(d1), fmt);
    StepKeepsInv(s, DataUpdate(d1), fmt);
    SameContentIsEquality(d2, u.data);
    ChangedUpdateReplaces(u, d2, fmt);
    var t := Step(u, DataUpdate(d2), fmt);
    StepKeepsInv(u, DataUpdate(d2), fmt);
    RunTwo(s, DataUpdate(d1), DataUpdate(d2), fmt);
  }

  /** The snapshot and the first push race, and whichever settles last wins. */
  lemma {:induction false} LastWriteWins(s: ViewState, snap: Dataset, pushed: Dataset, fmt: string -> string)
    requires s.connected
    ensures Run(s, [DataUpdate(pushed), SnapshotSettled(Fetched(snap))], fmt).data == snap
    ensures Run(s, [SnapshotSettled(Fetched(snap)), DataUpdate(pushed)], fmt).data == pushed
  {
    RunTwo(s, DataUpdate(pushed), SnapshotSettled(Fetched(snap)), fmt);
    RunTwo(s, SnapshotSettled(Fetched(snap)), DataUpdate(pushed), fmt);
    HeldIsPushed(s.data, pushed);
    var b := Step(s, SnapshotSettled(Fetched(snap)), fmt);
    HeldIsPushed(b.data, pushed);
  }

  /** A user's zoom survives a push with unchanged content, and is discarded by a
      push with changed content, whose new chart starts at the default view. */
  lemma {:induction false} ZoomAcrossUpdates(s: ViewState, z: Zoom, d: Dataset, fmt: string -> string)
    requires Inv(s, fmt) && s.connected && s.surfaceLive
    ensures var t := Run(s, [UserGesture(z), DataUpdate(s.data)], fmt);
      t.instanceRef.Ref? && t.instanceRef.chart.zoom == z
    ensures var t := Run(s, [UserGesture(z), DataUpdate(d)], fmt);
      d != s.data && |d| > 0 ==> t.instanceRef.Ref? && t.instanceRef.chart.zoom == DefaultZoom
  {
    var g := Step(s, UserGesture(z), fmt);
    SameContentIsEquality(s.data, g.data);
    EqualUpdateIsSuppressed(g, s.data, fmt);
    RunTwo(s, UserGesture(z), DataUpdate(s.data), fmt);
    RunTwo(s, UserGesture(z), DataUpdate(d), fmt);
    SameContentIsEquality(d, g.data);
  }
}
