/** The tuning loop: batches of trials over a grid, an optional suggester, early stopping. */
module Tuning {
  import opened Options

  type Params = map<string, real>

  datatype Status = Ok | Failed

  datatype Trial = Trial(params: Params, metrics: map<string, real>, status: Status)

  datatype Mode = Max | Min

  datatype Config = Config(
    maxIterations: int, parallelism: int, exploreStart: int,
    monitor: string, mode: Mode, patience: int, minDelta: real)

  // ---- the grid

  const DEFAULT_POINTS := 5

  /** The values tried for a continuous parameter. */
  function Discretize(low: real, high: real, step: Option<real>): seq<real> {
    if step.None? || step.value <= 0.0 then
      var stepVal := (high - low) / 4.0;
      seq(DEFAULT_POINTS, i requires 0 <= i < DEFAULT_POINTS => low + i as real * stepVal)
    else
      var n := ((high - low) / step.value).Floor + 1;
      seq(if n < 0 then 0 else n, i requires 0 <= i => low + i as real * step.value)
  }

  /** With a positive step the values start at the lower end, stay within the range and stop only when
      the next one would leave it. */
  lemma {:induction false} StepsFillTheRange(low: real, high: real, step: real)
    requires step > 0.0
    ensures
      var points := Discretize(low, high, Some(step));
      && (points == [] <==> high < low)
      && (forall i :: 0 <= i < |points| ==> points[i] == low + i as real * step && points[i] <= high)
      && (low <= high ==> low + |points| as real * step > high)
  {
    var points := Discretize(low, high, Some(step));
    var q := (high - low) / step;
    assert q.Floor as real <= q < q.Floor as real + 1.0;
    if low <= high {
      assert q >= 0.0;
      Scale(q, (q.Floor + 1) as real, step);
    } else {
      assert q < 0.0;
    }
    forall i | 0 <= i < |points| ensures points[i] <= high {
      assert i <= q.Floor;
      PointInRange(low, high, step, i);
    }
  }

  /** Without a usable step there are five values, evenly spaced from one end of the range to the other. */
  lemma {:induction false} FivePoints(low: real, high: real, step: Option<real>)
    requires step.None? || step.value <= 0.0
    ensures
      var points := Discretize(low, high, step);
      && |points| == 5 && points[0] == low && points[4] == high
      && forall i :: 0 <= i < 4 ==> points[i + 1] - points[i] == (high - low) / 4.0
  {
  }

  lemma {:induction false} PointInRange(low: real, high: real, step: real, i: nat)
    requires step > 0.0 && i as real <= (high - low) / step
    ensures low + i as real * step <= high
  {
    Scale(i as real, (high - low) / step, step);
  }

  lemma {:induction false} Scale(a: real, b: real, step: real)
    requires step > 0.0
    ensures a <= b ==> a * step <= b * step
    ensures a < b ==> a * step < b * step
  {
  }

  /** All ways to take one value of each list, in the order of nested loops. */
  function Product<V>(values: seq<seq<V>>): seq<seq<V>> {
    if values == [] then [[]] else Prefixed(values[0], Product(values[1..]))
  }

  function Prefixed<V>(heads: seq<V>, tails: seq<seq<V>>): seq<seq<V>> {
    if heads == [] then []
    else seq(|tails|, i requires 0 <= i < |tails| => [heads[0]] + tails[i]) + Prefixed(heads[1..], tails)
  }

  function Sizes<V>(values: seq<seq<V>>): nat {
    if values == [] then 1 else |values[0]| * Sizes(values[1..])
  }

  lemma {:induction false} PrefixedMembers<V>(heads: seq<V>, tails: seq<seq<V>>, c: seq<V>)
    ensures |Prefixed(heads, tails)| == |heads| * |tails|
    ensures c in Prefixed(heads, tails) <==> c != [] && c[0] in heads && c[1..] in tails
    decreases |heads|
  {
    if heads != [] {
      PrefixedMembers(heads[1..], tails, c);
      var first := seq(|tails|, i requires 0 <= i < |tails| => [heads[0]] + tails[i]);
      if c != [] && c[0] == heads[0] && c[1..] in tails {
        var i :| 0 <= i < |tails| && tails[i] == c[1..];
        assert first[i] == c;
      }
      if c in first {
        var i :| 0 <= i < |first| && first[i] == c;
        assert c[1..] == tails[i];
      }
    }
  }

  /** The grid is complete: it has a combination exactly if each value comes from its own list, and as
      many combinations as the sizes of the lists multiply to. */
  lemma {:induction false} GridIsComplete<V>(values: seq<seq<V>>, c: seq<V>)
    ensures |Product(values)| == Sizes(values)
    ensures c in Product(values) <==> |c| == |values| && forall i :: 0 <= i < |c| ==> c[i] in values[i]
    decreases |values|
  {
    if values == [] {
      assert c in Product(values) <==> c == [];
    } else {
      var rest := if c == [] then [] else c[1..];
      GridIsComplete(values[1..], rest);
      PrefixedMembers(values[0], Product(values[1..]), c);
      if c != [] && |c| == |values| {
        assert (forall i :: 0 <= i < |rest| ==> rest[i] in values[1..][i]) && c[0] in values[0] ==>
          forall i :: 0 <= i < |c| ==> c[i] in values[i];
        if forall i :: 0 <= i < |c| ==> c[i] in values[i] {
          assert forall i :: 0 <= i < |rest| ==> rest[i] == c[i + 1] && c[i + 1] in values[i + 1];
        }
      }
    }
  }

  /** The check for an empty search space fires when some parameter has no values; a space without any
      parameters has one combination and passes. */
  lemma {:induction false} GridEmptyIff<V>(values: seq<seq<V>>)
    ensures Product(values) == [] <==> exists i :: 0 <= i < |values| && values[i] == []
    decreases |values|
  {
    GridIsComplete(values, []);
    if values != [] {
      GridEmptyIff(values[1..]);
      GridIsComplete(values[1..], []);
      assert Sizes(values) == 0 <==> values[0] == [] || Sizes(values[1..]) == 0;
      if exists i :: 0 <= i < |values[1..]| && values[1..][i] == [] {
        var i :| 0 <= i < |values[1..]| && values[1..][i] == [];
        assert values[i + 1] == [];
      }
      if exists i :: 0 < i < |values| && values[i] == [] {
        var i :| 0 < i < |values| && values[i] == [];
        assert values[1..][i - 1] == [];
      }
    }
  }

  // ---- the best trial so far

  predicate Valid(cfg: Config, r: Trial) {
    r.status == Ok && cfg.monitor in r.metrics
  }

  predicate IsImprovement(curr: real, prev: real, mode: Mode, minDelta: real) {
    if mode == Max then curr - prev > minDelta else prev - curr > minDelta
  }

  predicate Improves(cfg: Config, r: Trial, best: Trial)
    requires Valid(cfg, r) && Valid(cfg, best)
  {
    IsImprovement(r.metrics[cfg.monitor], best.metrics[cfg.monitor], cfg.mode, cfg.minDelta)
  }

  datatype Tracker = Tracker(best: Option<Trial>, patience: nat)

  function Update(cfg: Config, t: Tracker, r: Trial): (t': Tracker)
    requires t.best.Some? ==> Valid(cfg, t.best.value)
    ensures t'.best.Some? ==> Valid(cfg, t'.best.value)
  {
    if !Valid(cfg, r) then t
    else if t.best.None? || Improves(cfg, r, t.best.value) then Tracker(Some(r), 0)
    else Tracker(t.best, t.patience + 1)
  }

  /** The state of the tracking variables after these results. */
  function Track(cfg: Config, results: seq<Trial>): (t: Tracker)
    ensures t.best.Some? ==> Valid(cfg, t.best.value)
  {
    if results == [] then Tracker(None, 0)
    else Update(cfg, Track(cfg, results[..|results| - 1]), results[|results| - 1])
  }

  /** No trial succeeded and reported the metric. */
  ghost predicate NoneCounts(cfg: Config, results: seq<Trial>) {
    forall r :: r in results ==> r.status == Failed || cfg.monitor !in r.metrics
  }

  /** The metric of one trial is at most `slack` better than that of another: higher when maximizing, lower
      when minimizing. */
  ghost predicate AtMostBetter(cfg: Config, r: Trial, best: Trial, slack: real) {
    cfg.monitor in r.metrics && cfg.monitor in best.metrics &&
    match cfg.mode
    case Max => r.metrics[cfg.monitor] <= best.metrics[cfg.monitor] + slack
    case Min => r.metrics[cfg.monitor] >= best.metrics[cfg.monitor] - slack
  }

  /** The best trial is one that succeeded and reported the metric, and no other such trial has a metric
      that is better by more than the slack. */
  ghost predicate OptimalWithin(cfg: Config, results: seq<Trial>, best: Trial, slack: real) {
    best in results && best.status == Ok && cfg.monitor in best.metrics &&
    forall r :: r in results && r.status == Ok && cfg.monitor in r.metrics ==> AtMostBetter(cfg, r, best, slack)
  }

  ghost predicate EpsilonOptimal(cfg: Config, results: seq<Trial>, best: Trial) {
    OptimalWithin(cfg, results, best, cfg.minDelta)
  }

  /** The tracked best is epsilon-optimal, or no trial is valid. */
  ghost predicate TracksBest(cfg: Config, results: seq<Trial>) {
    var best := Track(cfg, results).best;
    if best.Some? then EpsilonOptimal(cfg, results, best.value) else NoneCounts(cfg, results)
  }

  lemma {:induction false} BestIsEpsilonOptimal(cfg: Config, results: seq<Trial>)
    requires cfg.minDelta >= 0.0
    ensures TracksBest(cfg, results)
    decreases |results|
  {
    if results != [] {
      var front, last := results[..|results| - 1], results[|results| - 1];
      BestIsEpsilonOptimal(cfg, front);
      assert forall r :: r in results <==> r in front || r == last;
    }
  }

  /** A negative minimal difference breaks this: the best is then given up for a slightly worse trial. */
  lemma {:induction false} NegativeDeltaForgetsBest(cfg: Config) returns (results: seq<Trial>)
    requires cfg.minDelta < 0.0
    ensures Track(cfg, results).best.Some? && !EpsilonOptimal(cfg, results, Track(cfg, results).best.value)
  {
    var worse := if cfg.mode == Max then cfg.minDelta / 2.0 else -cfg.minDelta / 2.0;
    var a := Trial(map[], map[cfg.monitor := 0.0], Ok);
    var b := Trial(map[], map[cfg.monitor := worse], Ok);
    results := [a, b];
    assert results[..1] == [a] && [a][..0] == [];
    assert Track(cfg, [a]) == Tracker(Some(a), 0);
    assert Track(cfg, results) == Tracker(Some(b), 0);
    assert a in results && Improves(cfg, a, b);
  }

  /** So the tracked best is right for all results exactly if the minimal difference is not negative. */
  lemma {:induction false} AlwaysTracksBestIff(cfg: Config)
    ensures cfg.minDelta >= 0.0 <==> forall results :: TracksBest(cfg, results)
  {
    if cfg.minDelta >= 0.0 {
      forall results ensures TracksBest(cfg, results) {
        BestIsEpsilonOptimal(cfg, results);
      }
    } else {
      var results := NegativeDeltaForgetsBest(cfg);
      assert !TracksBest(cfg, results);
    }
  }

  function CountValid(cfg: Config, results: seq<Trial>): nat {
    if results == [] then 0
    else CountValid(cfg, results[..|results| - 1]) + if Valid(cfg, results[|results| - 1]) then 1 else 0
  }

  ghost predicate SinceBest(cfg: Config, results: seq<Trial>, i: nat)
    requires i < |results|
  {
    var t := Track(cfg, results);
    t.best == Some(results[i]) && t.patience == CountValid(cfg, results[i + 1..]) &&
    forall r :: r in results[i + 1..] && r.status == Ok && cfg.monitor in r.metrics ==>
      AtMostBetter(cfg, r, results[i], cfg.minDelta)
  }

  lemma {:induction false} SinceBestStays(cfg: Config, front: seq<Trial>, last: Trial, i: nat)
    requires i < |front| && SinceBest(cfg, front, i)
    requires Valid(cfg, last) ==> !Improves(cfg, last, front[i])
    ensures SinceBest(cfg, front + [last], i)
  {
    var results := front + [last];
    assert results[..|front|] == front;
    assert Track(cfg, results) == Update(cfg, Track(cfg, front), last);
    assert results[i + 1..] == front[i + 1..] + [last];
  }

  /** The patience counter is the number of valid trials since the best one was found, none of which
      improved on it; it is zero as long as there is none. */
  lemma {:induction false} PatienceCounts(cfg: Config, results: seq<Trial>)
    ensures NoneCounts(cfg, results) ==> Track(cfg, results).patience == 0
    ensures !NoneCounts(cfg, results) ==> exists i :: 0 <= i < |results| && SinceBest(cfg, results, i)
    decreases |results|
  {
    NoBestIffNoneCounts(cfg, results);
    if results == [] {
      return;
    }
    var front, last := results[..|results| - 1], results[|results| - 1];
    var t := Track(cfg, front);
    if Valid(cfg, last) && (t.best.None? || Improves(cfg, last, t.best.value)) {
      assert results[|results|..] == [];
      assert SinceBest(cfg, results, |results| - 1);
    } else {
      PatienceCounts(cfg, front);
      NoBestIffNoneCounts(cfg, front);
      if t.best.Some? {
        var i :| 0 <= i < |front| && SinceBest(cfg, front, i);
        SinceBestStays(cfg, front, last, i);
        assert results == front + [last];
      }
    }
  }

  /** `results[i]` is the first of the trials with the best metric: a stable sort puts it in front. */
  ghost predicate FirstOptimal(cfg: Config, results: seq<Trial>, i: nat)
    requires i < |results|
  {
    OptimalWithin(cfg, results, results[i], 0.0) &&
    forall j :: 0 <= j < i && results[j].status == Ok && cfg.monitor in results[j].metrics ==>
      results[j].metrics[cfg.monitor] != results[i].metrics[cfg.monitor]
  }

  lemma {:induction false} FirstOptimalStep(cfg: Config, front: seq<Trial>, last: Trial, i: nat)
    requires i < |front| && FirstOptimal(cfg, front, i) && Valid(cfg, last)
    ensures
      if Improves(cfg.(minDelta := 0.0), last, front[i]) then FirstOptimal(cfg, front + [last], |front|)
      else FirstOptimal(cfg, front + [last], i)
  {
    var results := front + [last];
    assert forall r :: r in results <==> r in front || r == last;
    assert forall j :: 0 <= j < |front| ==> results[j] == front[j] && front[j] in front;
  }

  method SelectBest(cfg: Config, results: seq<Trial>) returns (best: Trial)
    ensures NoneCounts(cfg, results) ==> best == Trial(map[], map[], Failed)
    ensures !NoneCounts(cfg, results) ==>
      exists i :: 0 <= i < |results| && best == results[i] && FirstOptimal(cfg, results, i)
  {
    best := Trial(map[], map[], Failed);
    var found := false;
    ghost var at: nat := 0;
    for i := 0 to |results|
      invariant !found ==> best == Trial(map[], map[], Failed) && NoneCounts(cfg, results[..i])
      invariant found ==> at < i && best == results[at] && FirstOptimal(cfg, results[..i], at)
    {
      var r := results[i];
      assert results[..i + 1] == results[..i] + [r];
      if Valid(cfg, r) {
        if found { FirstOptimalStep(cfg, results[..i], r, at); }
        if !found || Improves(cfg.(minDelta := 0.0), r, best) {
          best := r;
          at := i;
        }
        found := true;
      }
    }
    assert results[..|results|] == results;
  }

  // ---- the loop

  function MaxIterations(cfg: Config, grid: seq<Params>): int {
    if cfg.maxIterations < |grid| then cfg.maxIterations else |grid|
  }

  /** The candidate of trial `idx`: the suggester is asked after the exploration phase, and the grid
      stands in for it when it has nothing valid to suggest. */
  function Candidate(cfg: Config, grid: seq<Params>, suggest: Option<(seq<Trial>, nat) -> Option<Params>>,
                     results: seq<Trial>, idx: nat): Params
    requires idx < |grid|
  {
    if idx < cfg.exploreStart || suggest.None? then grid[idx]
    else
      var cand := suggest.value(results, idx);
      if cand.Some? && cand.value != map[] then cand.value else grid[idx]
  }

  method SelectBatch(cfg: Config, grid: seq<Params>, suggest: Option<(seq<Trial>, nat) -> Option<Params>>,
                     results: seq<Trial>) returns (batch: seq<Params>)
    requires |results| < cfg.maxIterations && |results| < |grid|
    ensures |batch| <= |grid| - |results| && |batch| <= cfg.maxIterations - |results|
    ensures cfg.parallelism <= 0 ==> batch == []
    ensures cfg.parallelism > 0 ==> |batch| <= cfg.parallelism
    ensures cfg.parallelism > 0 ==>
      |batch| == cfg.parallelism || |batch| == |grid| - |results| || |batch| == cfg.maxIterations - |results|
    ensures forall i :: 0 <= i < |batch| && (suggest.None? || |results| + i < cfg.exploreStart) ==>
      batch[i] == grid[|results| + i]
    ensures forall i :: 0 <= i < |batch| && suggest.Some? && |results| + i >= cfg.exploreStart ==>
      var idea := suggest.value(results, |results| + i);
      batch[i] == if idea.None? || idea.value == map[] then grid[|results| + i] else idea.value
  {
    var idx := |results|;
    var left := MaxIterations(cfg, grid) - idx;
    var size := if cfg.parallelism < left then cfg.parallelism else left;
    batch := [];
    while |batch| < size
      invariant |batch| <= left && (|batch| <= size || |batch| == 0)
      invariant forall i :: 0 <= i < |batch| ==> batch[i] == Candidate(cfg, grid, suggest, results, idx + i)
    {
      batch := batch + [Candidate(cfg, grid, suggest, results, idx + |batch|)];
    }
  }

  /** The results of a batch whose first trial has number `at`. */
  function Evaluated(eval: (nat, Params) -> Trial, batch: seq<Params>, at: nat): (r: seq<Trial>)
    ensures |r| == |batch|
  {
    seq(|batch|, i requires 0 <= i < |batch| => eval(at + i, batch[i]))
  }

  /** Runs a batch and collects its results one by one. */
  method Collect(cfg: Config, results: seq<Trial>, t: Tracker, batch: seq<Params>, eval: (nat, Params) -> Trial)
    returns (results': seq<Trial>, t': Tracker)
    requires t == Track(cfg, results)
    ensures results' == results + Evaluated(eval, batch, |results|) && t' == Track(cfg, results')
    ensures |results'| == |results| + |batch| && results <= results'
    ensures forall i :: 0 <= i < |batch| ==> results'[|results| + i] == eval(|results| + i, batch[i])
  {
    var best, patienceCounter := t.best, t.patience;
    var batchResults := Evaluated(eval, batch, |results|);
    results' := results;
    for k := 0 to |batch|
      invariant results' == results + batchResults[..k]
      invariant Track(cfg, results') == Tracker(best, patienceCounter)
    {
      var r := batchResults[k];
      assert (results' + [r])[..|results'|] == results';
      assert batchResults[..k + 1] == batchResults[..k] + [r];
      results' := results' + [r];
      if Valid(cfg, r) {
        if best.None? || Improves(cfg, r, best.value) {
          best := Some(r);
          patienceCounter := 0;
        } else {
          patienceCounter := patienceCounter + 1;
        }
      }
    }
    t' := Tracker(best, patienceCounter);
  }

  ghost predicate GridPrefix(results: seq<Trial>, grid: seq<Params>, eval: (nat, Params) -> Trial) {
    |results| <= |grid| && forall i :: 0 <= i < |results| ==> results[i] == eval(i, grid[i])
  }

  lemma {:induction false} GridPrefixGrows(results: seq<Trial>, grid: seq<Params>, eval: (nat, Params) -> Trial,
                                           batch: seq<Params>)
    requires GridPrefix(results, grid, eval) && |results| + |batch| <= |grid|
    requires forall i :: 0 <= i < |batch| ==> batch[i] == grid[|results| + i]
    ensures GridPrefix(results + Evaluated(eval, batch, |results|), grid, eval)
  {
  }

  /** The loop ends: a batch is never empty, or no trial is wanted, or no patience is left at all. */
  predicate Ends(cfg: Config) {
    cfg.parallelism >= 1 || cfg.maxIterations <= 0 || cfg.patience <= 0
  }

  /** What the workflow answers for these results. */
  ghost predicate GoodOutcome(cfg: Config, grid: seq<Params>, suggests: bool, eval: (nat, Params) -> Trial,
                              best: Trial, results: seq<Trial>) {
    |results| <= |grid| && (results == [] || |results| <= cfg.maxIterations) &&
    (|results| < |grid| && |results| < cfg.maxIterations ==> Track(cfg, results).patience >= cfg.patience) &&
    (!suggests ==> GridPrefix(results, grid, eval)) &&
    best == Track(cfg, results).best.GetOr(Trial(map[], map[], Failed)) &&
    (NoneCounts(cfg, results) ==> best == Trial(map[], map[], Failed)) &&
    (!NoneCounts(cfg, results) && cfg.minDelta >= 0.0 ==> EpsilonOptimal(cfg, results, best))
  }

  /** `grid` is the shuffled grid; `eval` gives the result of a trial and may depend on when it runs.
      The loop is watched for at most `turns` turns, and the answer is None if it is still running then:
      within as many turns as trials are wanted it ends, or it never does. */
  method TuneDynamic(cfg: Config, grid: seq<Params>, suggest: Option<(seq<Trial>, nat) -> Option<Params>>,
                     eval: (nat, Params) -> Trial, turns: nat)
    returns (r: Option<Result<(Trial, seq<Trial>), string>>)
    ensures (r.Some? && r.value.Failure?) <==> grid == []
    ensures grid != [] && !Ends(cfg) ==> r == None
    ensures Ends(cfg) && turns >= 1 && (turns >= cfg.maxIterations || turns >= |grid|) ==> r.Some?
    ensures r.Some? && r.value.Success? ==>
      GoodOutcome(cfg, grid, suggest.Some?, eval, r.value.value.0, r.value.value.1)
  {
    if |grid| == 0 {
      return Some(Failure("Empty search space; provide at least one parameter"));
    }
    var results: seq<Trial> := [];
    var t := Tracker(None, 0);
    var maxIters := MaxIterations(cfg, grid);
    var turn := 0;
    while |results| < maxIters
      invariant results == [] || |results| <= maxIters
      invariant t == Track(cfg, results)
      invariant suggest.None? ==> GridPrefix(results, grid, eval)
      invariant turn <= turns && (cfg.patience <= 0 ==> turn == 0)
      invariant if cfg.parallelism >= 1 then turn <= |results| else results == []
      decreases turns - turn
    {
      if turn == turns {
        return None;
      }
      turn := turn + 1;
      var batch := SelectBatch(cfg, grid, suggest, results);
      if suggest.None? { GridPrefixGrows(results, grid, eval, batch); }
      results, t := Collect(cfg, results, t, batch, eval);
      if t.patience >= cfg.patience {
        break;
      }
    }
    var best := Choose(cfg, results, t.best);
    return Some(Success((best, results)));
  }

  /** An empty batch changes nothing: one turn leaves the results and the tracker as they were, with the
      loop wanting to go on. */
  method IdleTurn(cfg: Config, grid: seq<Params>, suggest: Option<(seq<Trial>, nat) -> Option<Params>>,
                  eval: (nat, Params) -> Trial, results: seq<Trial>, t: Tracker)
    returns (results': seq<Trial>, t': Tracker)
    requires cfg.parallelism < 1 && |results| < cfg.maxIterations && |results| < |grid| && t == Track(cfg, results)
    ensures results' == results && t' == t && |results'| < cfg.maxIterations && |results'| < |grid|
    ensures t.patience < cfg.patience ==> t'.patience < cfg.patience
  {
    var batch := SelectBatch(cfg, grid, suggest, results);
    results', t' := Collect(cfg, results, t, batch, eval);
  }

  /** Falls back to the selection over all results if no best trial was tracked. */
  method Choose(cfg: Config, results: seq<Trial>, tracked: Option<Trial>) returns (best: Trial)
    requires tracked == Track(cfg, results).best
    ensures best == Track(cfg, results).best.GetOr(Trial(map[], map[], Failed))
    ensures NoneCounts(cfg, results) ==> best == Trial(map[], map[], Failed)
    ensures cfg.minDelta >= 0.0 && !NoneCounts(cfg, results) ==> EpsilonOptimal(cfg, results, best)
  {
    if cfg.minDelta >= 0.0 { BestIsEpsilonOptimal(cfg, results); }
    NoBestIffNoneCounts(cfg, results);
    if tracked.None? {
      best := SelectBest(cfg, results);
    } else {
      best := tracked.value;
    }
  }

  lemma {:induction false} NoBestIffNoneCounts(cfg: Config, results: seq<Trial>)
    ensures Track(cfg, results).best.None? <==> NoneCounts(cfg, results)
    decreases |results|
  {
    if results != [] {
      NoBestIffNoneCounts(cfg, results[..|results| - 1]);
      assert forall r :: r in results <==> r in results[..|results| - 1] || r == results[|results| - 1];
    }
  }
}
