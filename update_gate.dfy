/** The functional updater passed to setData by the "dataUpdate" socket handler:
    it keeps the previous dataset when the pushed one has the same content. */
module UpdateGate {
  import opened Samples

  /** What the updater returns: the previous dataset itself (React then skips the
      re-render and no effect runs) or the pushed dataset as the new state. */
  datatype Decision = KeepPrevious | Replace(next: Dataset)

  /** The updater's choice for a pushed dataset `updated` against the held `prev`. */
  function Updater(prev: Dataset, updated: Dataset): (d: Decision)
    ensures d.KeepPrevious? <==> prev == updated
    ensures d.Replace? ==> d.next == updated
  {
    SameContentIsEquality(prev, updated);
    if SameContent(prev, updated) then KeepPrevious else Replace(updated)
  }

  /** The dataset held after the updater's decision has been applied. */
  function Held(prev: Dataset, d: Decision): Dataset {
    match d
    case KeepPrevious => prev
    case Replace(next) => next
  }

  /** Whatever the updater decides, the held dataset afterwards has exactly the pushed
      content: a pushed dataset replaces the old one wholesale and is never merged. */
  lemma HeldIsPushed(prev: Dataset, updated: Dataset)
    ensures Held(prev, Updater(prev, updated)) == updated
  {
  }

  /** Delivering the same pushed dataset a second time is always suppressed. */
  lemma UpdaterIdempotent(prev: Dataset, updated: Dataset)
    ensures Updater(Held(prev, Updater(prev, updated)), updated) == KeepPrevious
  {
  }
}
