/**
 The budget loop of `build_execution_prompt`: old events go first, the summary
 goes last, and whatever remains is returned.
 */
module PromptWindow {

  /** What one prompt carries of the past. */
  datatype Window<T> = Window(recent: seq<T>, withSummary: bool)

  /** Any token counter, as the test whether a window stays within the budget. */
  type Counter<!T> = Window<T> -> bool

  /** A suffix of `recent`, and no longer one fits together with the summary. */
  ghost predicate LongestFitting<T>(recent: seq<T>, fits: Counter<T>, suffix: seq<T>) {
    && |suffix| <= |recent| && suffix == recent[|recent| - |suffix|..]
    && (forall i | 0 <= i < |recent| - |suffix| :: !fits(Window(recent[i..], true)))
  }

  /** The longest suffix that fits; the summary is dropped, and only together with all events,
      if it is there and nothing fits beside it. */
  ghost predicate Fitted<T>(recent: seq<T>, hasSummary: bool, fits: Counter<T>, w: Window<T>) {
    && LongestFitting(recent, fits, w.recent)
    && (w.withSummary ==> fits(w) || (w.recent == [] && !hasSummary))
    && (!w.withSummary ==> hasSummary && w.recent == [] && !fits(Window([], true)))
  }

  method Fit<T>(recent: seq<T>, hasSummary: bool, fits: Counter<T>) returns (w: Window<T>)
    ensures Fitted(recent, hasSummary, fits, w)
  {
    w := Window(recent, true);
    while true
      invariant LongestFitting(recent, fits, w.recent)
      invariant !w.withSummary ==> hasSummary && w.recent == [] && !fits(Window([], true))
      decreases |w.recent|, w.withSummary
    {
      if fits(w) {
        return;
      }
      if w.recent != [] {
        w := w.(recent := w.recent[1..]);
      } else if hasSummary && w.withSummary {
        w := w.(withSummary := false);
      } else {
        return;
      }
    }
  }
}
