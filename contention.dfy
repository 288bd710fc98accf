/** The per-tick configuration a level and the levers give the stations
    (js/model.js:172-187, 216): effective batch size and quality tier, remake
    chance, service slowdown, batch efficiency and the bandwidth stall rate. */
module Contention {
  import opened Utils
  import opened Entities

  /** Batching is only in effect once the level unlocks it. */
  function BatchSize(lv: Level, cfg: Config): nat
  {
    if lv.unlockBatch then cfg.batch else 0
  }

  /** Until the level unlocks quality the tier is fixed at 1 (Medium). */
  function QualityTier(lv: Level, cfg: Config): nat
  {
    if lv.unlockQuality then cfg.quality else 1
  }

  /** The remake roll `Math.random() < level.remakeByQ[q]`. A tier outside the
      table reads `undefined`, and a comparison with it is false. */
  predicate Remade(lv: Level, q: nat, roll: real)
  {
    q < |lv.remakeByQ| && roll < lv.remakeByQ[q]
  }

  /** Higher quality is slower: 0.92, 1.00 and 1.18 for Low, Medium and High. */
  function QSlow(q: nat): (s: real)
    ensures q == 0 ==> s == 0.92
    ensures q == 1 ==> s == 1.0
    ensures q >= 2 ==> s == 1.18
  {
    if q == 0 then 0.92 else if q == 1 then 1.0 else 1.18
  }

  /** Batching saves 5.5% per extra member, at most 25%. */
  function BatchEff(b: nat): (e: real)
    ensures 0.75 <= e <= 1.0
    ensures b <= 1 ==> e == 1.0
  {
    if b <= 1 then 1.0 else 1.0 - Min(0.25, 0.055 * (b - 1) as real)
  }

  /** The efficiency factor never increases with the batch size. */
  lemma BatchEffMonotone(b1: nat, b2: nat)
    requires 1 <= b1 <= b2
    ensures BatchEff(b2) <= BatchEff(b1)
  {
  }

  /** The scaling of the stall base by pantry speed. Only the upper cap
      `min(0.9, ...)` is applied, so a pantry slower than 0.6 makes stalls more
      likely than the 1.25 starting factor. */
  function StallFactor(bw: real): (f: real)
    ensures 0.35 <= f
    ensures bw < 0.6 ==> 1.25 < f
    ensures bw >= 1.86 ==> f == 0.35
  {
    1.25 - Min(0.9, (bw - 0.6) / 1.4)
  }

  /** A faster pantry never raises the stall factor. */
  lemma StallFactorMonotone(bw1: real, bw2: real)
    requires bw1 <= bw2
    ensures StallFactor(bw2) <= StallFactor(bw1)
  {
  }

  function StallBase(lv: Level, cfg: Config): real
  {
    lv.bwStallBase * StallFactor(cfg.bw)
  }

  /** `Math.ceil(b / 2)` for a whole `b`. */
  function HalfUp(b: nat): (h: nat)
    ensures b <= 2 * h <= b + 1
  {
    (b + 1) / 2
  }

  /** On a contended level every barista and every pair of batch members makes
      the shared pantry busier. */
  function ContentionMult(lv: Level, cfg: Config): (m: nat)
    ensures !lv.bwContention ==> m == 1
    ensures lv.bwContention ==> m == cfg.compute * Max1(HalfUp(BatchSize(lv, cfg)))
  {
    if lv.bwContention then cfg.compute * Max1(HalfUp(BatchSize(lv, cfg))) else 1
  }

  /** Stalls per second of one station. */
  function StallRate(lv: Level, cfg: Config): real
  {
    StallBase(lv, cfg) * ContentionMult(lv, cfg) as real
  }

  /** On a contended level with a positive stall base, adding baristas strictly
      raises every station's stall rate; on other levels the rate does not
      depend on the number of baristas at all. */
  lemma StallRateByCompute(lv: Level, cfg: Config, more: nat)
    requires cfg.compute < more
    ensures lv.bwContention && 0.0 < StallBase(lv, cfg) ==>
              StallRate(lv, cfg) < StallRate(lv, cfg.(compute := more))
    ensures !lv.bwContention ==> StallRate(lv, cfg) == StallRate(lv, cfg.(compute := more))
  {
    var cfg' := cfg.(compute := more);
    var base := StallBase(lv, cfg);
    assert StallBase(lv, cfg') == base;
    if lv.bwContention {
      var h := Max1(HalfUp(BatchSize(lv, cfg)));
      assert BatchSize(lv, cfg') == BatchSize(lv, cfg);
      NatMulStrict(cfg.compute, more, h);
      var m1, m2 := ContentionMult(lv, cfg), ContentionMult(lv, cfg');
      assert m1 < m2;
      if 0.0 < base {
        MulStrict(base, m1 as real, m2 as real);
      }
    }
  }

  lemma NatMulStrict(c: nat, m: nat, h: nat)
    requires c < m && 1 <= h
    ensures c * h < m * h
  {
    assert m * h - c * h == (m - c) * h;
  }

  lemma MulStrict(a: real, x: real, y: real)
    requires 0.0 < a && x < y
    ensures a * x < a * y
  {
    assert a * y - a * x == a * (y - x);
  }

  /** Length of a new stall for the roll `u`: `(0.65 + 0.65 u) / max(0.7, bw)`. */
  function StallDuration(bw: real, u: real): real
  {
    (0.65 + u * 0.65) / Max(0.7, bw)
  }

  /** For a roll in [0, 1) a stall lasts at least `0.65 / max(0.7, bw)` and
      less than `1.30 / max(0.7, bw)`; in particular it is positive. */
  lemma StallDurationRange(bw: real, u: real)
    requires 0.0 <= u < 1.0
    ensures 0.65 / Max(0.7, bw) <= StallDuration(bw, u) < 1.30 / Max(0.7, bw)
    ensures 0.0 < StallDuration(bw, u)
  {
    var m := Max(0.7, bw);
    DivMono(0.65, 0.65 + u * 0.65, m);
    DivStrict(0.65 + u * 0.65, 1.30, m);
  }

  lemma DivMono(x: real, y: real, m: real)
    requires 0.0 < m && x <= y
    ensures x / m <= y / m
  {
    assert y / m - x / m == (y - x) / m;
  }

  lemma DivStrict(x: real, y: real, m: real)
    requires 0.0 < m && x < y
    ensures x / m < y / m
  {
    assert y / m - x / m == (y - x) / m;
  }

  /** Service time of a single-customer pickup. */
  function SingleServiceTime(lv: Level, q: nat): real
  {
    lv.serviceBase * QSlow(q)
  }

  /** Service time of a batch of `b`: each extra member adds 8% before the efficiency discount. */
  function BatchServiceTime(lv: Level, q: nat, b: nat): real
  {
    lv.serviceBase * QSlow(q) * BatchEff(b) * (0.90 + 0.08 * b as real)
  }

  /** A batch of two or more takes longer than one drink but, per drink, less
      time than serving them one by one. */
  lemma BatchServiceAmortised(lv: Level, q: nat, b: nat)
    requires 2 <= b && 0.0 < lv.serviceBase
    ensures SingleServiceTime(lv, q) < BatchServiceTime(lv, q, b)
    ensures BatchServiceTime(lv, q, b) < b as real * SingleServiceTime(lv, q)
  {
    var s := SingleServiceTime(lv, q);
    var f := BatchEff(b) * (0.90 + 0.08 * b as real);
    assert BatchServiceTime(lv, q, b) == s * f;
    assert 0.0 < s by { MulPos(lv.serviceBase, QSlow(q)); }
    BatchFactorRange(b);
    MulStrict(s, 1.0, f);
    MulStrict(s, f, b as real);
    assert s * (b as real) == b as real * s;
  }

  lemma MulPos(a: real, b: real)
    requires 0.0 < a && 0.0 < b
    ensures 0.0 < a * b
  {
  }

  /** The batch multiplier `batchEff * (0.90 + 0.08 b)` lies strictly between 1 and `b` for `b >= 2`. */
  lemma BatchFactorRange(b: nat)
    requires 2 <= b
    ensures 1.0 < BatchEff(b) * (0.90 + 0.08 * b as real) < b as real
  {
    var e := BatchEff(b);
    var g := 0.90 + 0.08 * b as real;
    if b <= 5 {
      // here the discount is 5.5% per extra member
      assert e == 1.0 - 0.055 * (b - 1) as real;
      assert b == 2 || b == 3 || b == 4 || b == 5;
    } else {
      assert e == 0.75;
      assert e * g == 0.675 + 0.06 * b as real;
    }
  }
}
