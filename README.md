# LineChart: a verified model of the live time-series chart component

This project models the `LineChart` React component of a small client/server
dashboard. The component loads an initial snapshot of timestamped samples over
HTTP, subscribes to a socket that pushes whole replacement datasets, keeps a
Chart.js line chart in step with the latest accepted dataset (with wheel, pinch and
drag zoom/pan), and offers a "Reset Zoom" button.

The model is in six modules, one file each:

- `Samples` (`samples.dfy`): a sample `{timestamp, value}`, a dataset as a sequence
  of samples, and `SameContent`, the order-sensitive, position-by-position content
  comparison that stands for comparing the two `JSON.stringify` strings.
- `UpdateGate` (`update_gate.dfy`): the functional updater passed to `setData` by the
  `dataUpdate` handler. It either keeps the previous dataset, so React skips the
  re-render, or returns the pushed dataset.
- `ChartSurface` (`chart_surface.dfy`): the chart as an abstract surface. It holds one
  label per sample (the timestamp formatter is a parameter), the value series, and a
  zoom view that is the default when the chart is built. It also holds the
  chart-instance ref.
- `LineChartModel` (`line_chart.dfy`): the component's whole state as a value
  `ViewState`, the events it reacts to, and `Step`, the meaning of one event. `Step`
  includes the render effect React commits after a state change: cleanup destroys the
  previous chart, then a new chart is built unless loading or empty. `Inv` is the
  lifecycle invariant, and `StepKeepsInv` proves that every event preserves it.
- `LineChartProperties` (`line_chart_properties.dfy`): lemmas over single events and
  over event sequences (`Run`).
- `LineChartComponent` (`line_chart_component.dfy`): the class `LineChart`. Its
  fields are `data`, `loading`, the socket connection, `surfaceLive`, `instanceRef`
  (`chartInstance.current`), and create/destroy counters. It has one method per
  callback, and each method is proved to change the fields exactly as `Step` says.

Following React's rules, the model's events behave as follows:

- Setting state to the identical value is a no-op. The render effect reruns only when
  `data` or `loading` really changed.
- A successful snapshot always installs a new array, so it always reruns the effect,
  even when its content equals the held data. There is no equality gate on that path.
- A failed snapshot reruns the effect only if `loading` flips.
- The chart-instance ref is set on every build and never cleared. "A chart was ever
  built" (`instanceRef.Ref?`) is therefore kept apart from "a chart is live now"
  (`surfaceLive`). Reset zoom is guarded by the first of these only. After a push
  empties the data, the destroyed chart's view is still reset.
- Once the component is unmounted, the socket delivers nothing and state setters do
  nothing, so every later event leaves the state unchanged.
- The race between the snapshot and the first push is last-write-wins, as in the code.

Sample values are JavaScript numbers. The model treats them as opaque `int`s and does
no arithmetic on them. Five `Scenario…` methods in `LineChartComponent` walk a
fresh `LineChart` object through concrete calls, with assertions at each step: one
sample shown, the same push suppressed, a changed value rebuilds, reset before any
data does nothing, and nothing happens after unmount.

## Model

| member | source | states |
|---|---|---|
| Samples.SameContentIsEquality | client/src/LineChart.js:30 | The content comparison holds exactly when the two datasets have the same length and the same timestamp and value at every position |
| Samples.SameContentIsOrderSensitive | client/src/LineChart.js:30 | The comparison is order-sensitive: two different samples in swapped order are a different dataset |
| UpdateGate.Updater | client/src/LineChart.js:29-34 | The updater keeps the previous dataset if and only if the pushed one has equal content; otherwise it returns exactly the pushed dataset |
| UpdateGate.HeldIsPushed | client/src/LineChart.js:33 | After the updater, the held dataset is exactly the pushed one: replacement is wholesale, never a merge |
| UpdateGate.UpdaterIdempotent | client/src/LineChart.js:29-32 | Delivering the same push a second time is always suppressed |
| ChartSurface.Labels | client/src/LineChart.js:52-62 | Exactly one label per sample: the formatted timestamp at the same position |
| ChartSurface.Values | client/src/LineChart.js:66 | The value series has one entry per sample: that sample's value, in the same order |
| ChartSurface.Build | client/src/LineChart.js:49-99 | A new chart carries its creation ordinal, one label and one value per sample in order, and the default zoom |
| ChartSurface.ValuesOfConcat | client/src/LineChart.js:66 | The value projection preserves order: the series of a concatenation is the concatenation of the series |
| ChartSurface.BuildDeterminesData | client/src/LineChart.js:52-66 | With an injective formatter, the chart determines the dataset it was built from: no sample is lost or reordered |
| Samples.SameContent | client/src/LineChart.js:30 | Definition of the content comparison. Its properties are stated by `SameContentIsEquality` and `SameContentIsOrderSensitive` |
| UpdateGate.Held | client/src/LineChart.js:31-33 | Definition of the dataset React holds after the updater's decision. Its properties are stated by `HeldIsPushed` and `UpdaterIdempotent` |
| LineChartModel.Mounted | client/src/LineChart.js:9-12 | Definition of the state after mount. `Reachable` and the constructor's contract are about it |
| LineChartModel.RenderEffect | client/src/LineChart.js:42-105 | Definition of the render effect with its cleanup. Its properties are stated by `BuildOnlyWhenReady`, `StepKeepsInv` and `LineChart.RunRenderEffect` |
| LineChartModel.OnSnapshot | client/src/LineChart.js:15-23 | Definition of `fetchData` settling. Its properties are stated by `SnapshotIsUngated`, `SnapshotFailureKeepsData` and `LastWriteWins` |
| LineChartModel.OnDataUpdate | client/src/LineChart.js:28-35 | Definition of the `dataUpdate` handler. Its properties are stated by `EqualUpdateIsSuppressed`, `ChangedUpdateReplaces`, `RepeatedUpdateIsIdempotent`, `SameUpdateTwiceRebuildsAtMostOnce` and `DistinctUpdatesRebuildTwice` |
| LineChartModel.OnGesture | client/src/LineChart.js:80-96 | Definition of a zoom-plugin gesture on the live chart. Its properties are stated by `ZoomAcrossUpdates` and `LineChart.OnGesture` |
| LineChartModel.OnReset | client/src/LineChart.js:107-111 | Definition of `handleResetZoom`. Its properties are stated by `ResetZoomSemantics` and `ResetReachesDestroyedChart` |
| LineChartModel.OnUnmount | client/src/LineChart.js:37-39 | Definition of unmount: the socket cleanup here and the render effect's cleanup at lines 102-104. Its properties are stated by `UnmountTearsDown` and `NothingAfterUnmount` |
| LineChartModel.Step | client/src/LineChart.js:14-111 | Definition of one event, ignored after unmount. Its properties are stated by `StepKeepsInv`, `RunKeepsInv`, `NothingAfterUnmount` and the lemmas in `LineChartProperties`; each class method is proved to change the fields as `Step` says |
| LineChartModel.Inv | client/src/LineChart.js:14-111 | Definition of the lifecycle invariant. `StepKeepsInv` and `RunKeepsInv` state that it is preserved |
| LineChartProperties.LifecycleBounds | client/src/LineChart.js:42-105 | Definition of the bookkeeping facts that `ReachableFrom` and `Reachable` state for every reachable state |
| LineChartModel.StepKeepsInv | client/src/LineChart.js:14-111 | Every event keeps the lifecycle invariant. Creates minus destroys is 1 exactly when a surface is live. The live chart shows the held data. The ref is empty until the first build. The subscription is closed at most once |
| LineChartProperties.RunKeepsInv | client/src/LineChart.js:14-111 | The lifecycle invariant holds after any sequence of events |
| LineChartProperties.ReachableFrom | client/src/LineChart.js:42-105 | From any state satisfying the lifecycle invariant, every later state satisfies `LifecycleBounds`: creates minus destroys is 0 or 1, disconnects are at most 1, after unmount nothing is live and every chart built has been destroyed, and a live chart shows the held values |
| LineChartProperties.Reachable | client/src/LineChart.js:42-105 | Every state reachable from mount satisfies `LifecycleBounds` |
| LineChartProperties.EqualUpdateIsSuppressed | client/src/LineChart.js:29-32 | A push with content equal to the held data leaves the whole state unchanged: no chart is destroyed or built |
| LineChartProperties.ChangedUpdateReplaces | client/src/LineChart.js:28-35 | A push with different content becomes the data wholesale and leaves `loading` alone. The live chart is destroyed, and a new one is built exactly when loading is over and the push is non-empty |
| LineChartProperties.SnapshotIsUngated | client/src/LineChart.js:15-19 | A successful snapshot sets the data unconditionally and clears `loading`. A chart is rebuilt whenever the snapshot is non-empty, even if it equals the held data |
| LineChartProperties.SnapshotFailureKeepsData | client/src/LineChart.js:20-23 | A failed snapshot keeps the data and still clears `loading` |
| LineChartProperties.BuildOnlyWhenReady | client/src/LineChart.js:42-105 | An event builds at most one chart. It builds one only when loading is over and the data is non-empty, after destroying the previous live chart. The new chart is live, is built from the held data, and starts at the default zoom |
| LineChartProperties.ResetZoomSemantics | client/src/LineChart.js:107-111 | Reset never changes `data` or `loading`. It is a no-op if no chart was ever built. Otherwise it resets the view of the last chart built and changes nothing else |
| LineChartProperties.ResetReachesDestroyedChart | client/src/LineChart.js:100-111 | After a push empties the data, the chart is destroyed but the ref still points to it, and reset restores that chart's default view |
| LineChartProperties.UnmountTearsDown | client/src/LineChart.js:37-39 | Unmount disconnects the socket once and destroys the live chart if there is one. Afterwards creates equal destroys |
| LineChartProperties.NothingAfterUnmount | client/src/LineChart.js:37-39 | After unmount, no sequence of events changes the state |
| LineChartProperties.RepeatedUpdateIsIdempotent | client/src/LineChart.js:28-35 | Any number of repeated identical pushes acts exactly like one |
| LineChartProperties.SameUpdateTwiceRebuildsAtMostOnce | client/src/LineChart.js:28-35 | The same dataset pushed twice in a row causes at most one rebuild |
| LineChartProperties.DistinctUpdatesRebuildTwice | client/src/LineChart.js:42-105 | After loading, a non-empty push that differs from the held data, followed by a different non-empty push, causes exactly two rebuilds. The first destroys the live chart, if any; the second destroys the first. The second dataset is displayed |
| LineChartProperties.LastWriteWins | client/src/LineChart.js:15-35 | When the snapshot and a push race, whichever settles last determines the data |
| LineChartProperties.ZoomAcrossUpdates | client/src/LineChart.js:49-104 | A user zoom survives a push with unchanged content. A push with changed content discards it, and its new chart starts at the default view |
| LineChartComponent.LineChart.constructor | client/src/LineChart.js:9-12 | Mount starts with empty data, loading, the socket connected and no chart: field by field the state `Mounted` describes, and the invariant holds |
| LineChartComponent.LineChart.RunRenderEffect | client/src/LineChart.js:42-105 | The effect with its cleanup: destroy the previous chart, then build from the data unless it is empty or loading |
| LineChartComponent.LineChart.FetchSettled | client/src/LineChart.js:15-23 | The fields change exactly as the snapshot event says, and the invariant is kept |
| LineChartComponent.LineChart.OnDataUpdate | client/src/LineChart.js:28-35 | The fields change exactly as the push event says, and the invariant is kept |
| LineChartComponent.LineChart.OnGesture | client/src/LineChart.js:80-96 | A gesture moves the view of the live chart only, and the invariant is kept |
| LineChartComponent.LineChart.HandleResetZoom | client/src/LineChart.js:107-111 | The fields change exactly as the reset event says, and `data` and `loading` are untouched |
| LineChartComponent.LineChart.Unmount | client/src/LineChart.js:37-39 | The socket is disconnected exactly once, nothing stays live, and every chart built has been destroyed |

## Left out

- Transport: the HTTP GET (line 17) and the socket.io connection (lines 27, 38) are
  not modelled. Their results arrive as event inputs: a snapshot result or failure, a
  pushed dataset, and unmount. The `console.error` logging on failure is left out.
- Chart.js internals and styling: colours, border width, tension, `beginAtZero` and
  the zoom plugin's gesture configuration (lines 63-98) are left out. The chart is an
  abstract surface with a zoom view. Gestures are a single `UserGesture` event that
  sets the view of the live chart.
- Label formatting: with these options (no year), `toLocaleString` (lines 53-61)
  depends on the locale and the time zone, so it is the parameter `fmt`. The dataset
  caption `currentYear` (lines 47, 65) depends on the clock and is left out.
- Sample shape: `entry?.timestamp` and `entry?.value` (lines 53, 66) tolerate
  missing entries. The model's samples always have both fields, so the
  `undefined`/"Invalid Date" display of malformed samples is not modelled.
- `Samples.SameContent`: compares samples field by field. `JSON.stringify` is also
  sensitive to the order of keys within a sample, and that sensitivity is not
  modelled.
- Reset on a destroyed chart: calling `resetZoom` on a chart that was already
  destroyed is modelled as resetting the view that the ref holds. What Chart.js does
  internally in that case is not modelled.
- React rendering: the JSX, the "Loading..." view and the canvas (lines 113-122) are
  left out. Scheduling is modelled only as "state change, then cleanup, then effect".
  Batching of the two setters in the snapshot path is not distinguished. With or
  without batching, the end state and the counts are the same, because an effect
  that returns early has no cleanup.
- server/src/config/dbConnect.js is not part of this model. It is a database
  connection with logging and has no logic to verify.
