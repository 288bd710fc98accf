/** End-of-tick bookkeeping (js/model.js:337-352): the cached 95th-percentile
    wait and the fixed-priority bottleneck label. */
module Metrics {
  import opened Utils
  import opened Entities

  /** Stations with a stall still running. */
  function StalledCount(sts: seq<Station>): (n: nat)
    ensures n <= |sts|
  {
    if |sts| == 0 then 0
    else StalledCount(sts[..|sts| - 1]) + (if sts[|sts| - 1].stall > 0.0 then 1 else 0)
  }

  /** Busy stations that are not stalled. */
  function BusyCount(sts: seq<Station>): (n: nat)
    ensures n <= |sts|
  {
    if |sts| == 0 then 0
    else BusyCount(sts[..|sts| - 1]) + (if sts[|sts| - 1].busy && sts[|sts| - 1].stall <= 0.0 then 1 else 0)
  }

  /** A station is counted as stalled or as busy, never both, so the two counts
      together never exceed the number of stations. */
  lemma {:induction false} CountsDisjoint(sts: seq<Station>)
    ensures StalledCount(sts) + BusyCount(sts) <= |sts|
  {
    if |sts| > 0 {
      CountsDisjoint(sts[..|sts| - 1]);
    }
  }

  /** The bottleneck label: the first that applies of Bandwidth (at least
      `max(1, floor(n / 2))` stalled), Compute (every station busy and more than
      6 waiting), Batch (batching unlocked, batch at least 3 and more than 10
      waiting), Remakes (quality unlocked and remakes above `max(4, 0.35 served)`),
      Traffic (more than 12 waiting), and OK. */
  function Classify(stalled: nat, busy: nat, n: nat, qlen: nat, lv: Level, cfg: Config, remakes: nat, served: nat): (b: Bottleneck)
    ensures b == Bandwidth <==> stalled >= Max1(n / 2)
    ensures b == Compute <==> stalled < Max1(n / 2) && busy == n && qlen > 6
    ensures b == BatchLimit <==>
              && stalled < Max1(n / 2) && !(busy == n && qlen > 6)
              && lv.unlockBatch && cfg.batch >= 3 && qlen > 10
    ensures b == Remakes <==>
              && stalled < Max1(n / 2) && !(busy == n && qlen > 6)
              && !(lv.unlockBatch && cfg.batch >= 3 && qlen > 10)
              && lv.unlockQuality && remakes as real > Max(4.0, served as real * 0.35)
    ensures b == Traffic <==>
              && stalled < Max1(n / 2) && !(busy == n && qlen > 6)
              && !(lv.unlockBatch && cfg.batch >= 3 && qlen > 10)
              && !(lv.unlockQuality && remakes as real > Max(4.0, served as real * 0.35))
              && qlen > 12
    ensures b == OK <==>
              && stalled < Max1(n / 2) && !(busy == n && qlen > 6)
              && !(lv.unlockBatch && cfg.batch >= 3 && qlen > 10)
              && !(lv.unlockQuality && remakes as real > Max(4.0, served as real * 0.35))
              && qlen <= 12
  {
    if stalled >= Max1(n / 2) then Bandwidth
    else if busy == n && qlen > 6 then Compute
    else if lv.unlockBatch && cfg.batch >= 3 && qlen > 10 then BatchLimit
    else if lv.unlockQuality && remakes as real > Max(4.0, served as real * 0.35) then Remakes
    else if qlen > 12 then Traffic
    else OK
  }

  /** The P95 cache: recomputed once there are at least 4 samples, kept otherwise. */
  function P95Update(waits: seq<real>, cached: Option<real>): (r: Option<real>)
    ensures |waits| < 4 ==> r == cached
    ensures |waits| >= 4 ==> r.Some? && r.value == Quantile(waits, 0.95)
  {
    if |waits| >= 4 then Some(Quantile(waits, 0.95)) else cached
  }

  /** A recomputed P95 lies between the shortest and the longest recorded wait. */
  lemma P95WithinSamples(waits: seq<real>, cached: Option<real>)
    requires |waits| >= 4
    ensures SeqMin(waits) <= P95Update(waits, cached).value <= SeqMax(waits)
  {
    QuantileBounds(waits, 0.95);
  }
}
