/**
 * The metrics store of src/features/metrics/metricsSlice.ts: the four
 * average completion times and the outcome of the one request that fetches
 * them. `MetricsReducer` is the reducer over state values; `MetricsStore`
 * is the same store updated in place. The averages are JavaScript numbers
 * that the reducer only copies; they are modelled as reals.
 */
module MetricsSlice {
  import opened Wrappers

  datatype Metrics = Metrics(
    generalAverageTime: real,
    lowAverageTime: real,
    highAverageTime: real,
    mediumAverageTime: real)

  datatype MetricsState = MetricsState(loading: bool, metrics: Metrics, error: Option<string>)

  const InitialState: MetricsState :=
    MetricsState(false, Metrics(0.0, 0.0, 0.0, 0.0), None)

  datatype MetricsAction =
    | FetchMetricsPending
    | FetchMetricsFulfilled(payload: Metrics)
    | FetchMetricsRejected(message: Option<string>)

  /** `metricsReducer`: the state after one action. */
  function MetricsReducer(s: MetricsState, action: MetricsAction): (r: MetricsState)
    ensures r.loading <==> action.FetchMetricsPending?
    ensures action.FetchMetricsFulfilled? || r.metrics == s.metrics
    ensures action.FetchMetricsPending? ==> r.error == s.error
  {
    match action
    case FetchMetricsPending => s.(loading := true)
    case FetchMetricsFulfilled(payload) => s.(loading := false, metrics := payload, error := Some(""))
    case FetchMetricsRejected(message) => s.(loading := false, error := message)
  }

  /** The store starts idle, with every average at zero and no error. */
  lemma InitialStateIsZero()
    ensures !InitialState.loading && InitialState.error == None
    ensures InitialState.metrics.generalAverageTime == InitialState.metrics.lowAverageTime
         == InitialState.metrics.mediumAverageTime == InitialState.metrics.highAverageTime == 0.0
  {
  }

  /** Pending raises `loading` and keeps the metrics and the error. */
  lemma PendingKeepsMetrics(s: MetricsState)
    ensures var r := MetricsReducer(s, FetchMetricsPending);
      r.loading && r.metrics == s.metrics && r.error == s.error
  {
  }

  /** A success takes all four averages from the response, whatever was there before. */
  lemma FulfilledTakesResponse(s: MetricsState, t: MetricsState, payload: Metrics)
    ensures var r := MetricsReducer(s, FetchMetricsFulfilled(payload));
      r.metrics == payload && r.error == Some("") && !r.loading &&
      r == MetricsReducer(t, FetchMetricsFulfilled(payload))
  {
  }

  /** A failure keeps the stale averages and records the message. */
  lemma RejectedKeepsStaleMetrics(s: MetricsState, message: Option<string>)
    ensures var r := MetricsReducer(s, FetchMetricsRejected(message));
      r.metrics == s.metrics && r.error == message && !r.loading
  {
  }

  /**
   * Whatever sequence of outcomes arrives, the averages shown are those of
   * the last success, or the initial ones if no request has succeeded yet.
   */
  function Run(s: MetricsState, actions: seq<MetricsAction>): (r: MetricsState)
    ensures actions != [] ==> (r.loading <==> actions[|actions| - 1].FetchMetricsPending?)
    decreases |actions|
  {
    if actions == [] then s else Run(MetricsReducer(s, actions[0]), actions[1..])
  }

  function LastReported(initial: Metrics, actions: seq<MetricsAction>): (r: Metrics)
    ensures r == initial || exists i :: 0 <= i < |actions| && actions[i].FetchMetricsFulfilled? && r == actions[i].payload
    decreases |actions|
  {
    if actions == [] then initial
    else if actions[|actions| - 1].FetchMetricsFulfilled? then actions[|actions| - 1].payload
    else LastReported(initial, actions[..|actions| - 1])
  }

  lemma {:induction false} RunShowsLastSuccess(s: MetricsState, actions: seq<MetricsAction>)
    ensures Run(s, actions).metrics == LastReported(s.metrics, actions)
    decreases |actions|
  {
    if actions != [] {
      var n := |actions| - 1;
      RunSnoc(s, actions[..n], actions[n]);
      assert actions[..n] + [actions[n]] == actions;
      RunShowsLastSuccess(s, actions[..n]);
    }
  }

  lemma {:induction false} RunSnoc(s: MetricsState, actions: seq<MetricsAction>, last: MetricsAction)
    ensures Run(s, actions + [last]) == MetricsReducer(Run(s, actions), last)
    decreases |actions|
  {
    if actions != [] {
      assert (actions + [last])[1..] == actions[1..] + [last];
      RunSnoc(MetricsReducer(s, actions[0]), actions[1..], last);
    }
  }

  class MetricsStore {
    var loading: bool
    var metrics: Metrics
    var error: Option<string>

    function State(): MetricsState
      reads this
    {
      MetricsState(loading, metrics, error)
    }

    constructor ()
      ensures State() == InitialState
    {
      loading := false;
      metrics := Metrics(0.0, 0.0, 0.0, 0.0);
      error := None;
    }

    method FetchMetricsPending()
      modifies this
      ensures State() == MetricsReducer(old(State()), MetricsAction.FetchMetricsPending)
    {
      loading := true;
    }

    method FetchMetricsFulfilled(payload: Metrics)
      modifies this
      ensures State() == MetricsReducer(old(State()), MetricsAction.FetchMetricsFulfilled(payload))
    {
      loading := false;
      metrics := payload;
      error := Some("");
    }

    method FetchMetricsRejected(message: Option<string>)
      modifies this
      ensures State() == MetricsReducer(old(State()), MetricsAction.FetchMetricsRejected(message))
    {
      loading := false;
      error := message;
    }
  }
}
