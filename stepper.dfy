/** The simulation state and its tick (js/model.js:16-355): `State`, `reset`,
    `ensureStations`, `spawnCustomer` and `step`. Each stage of `step` is a
    method of `State` proved against a pure stage function on a value snapshot
    (`Sim`); `StepSpec` composes the stages, and the lemmas about it state what
    one tick promises. */
module Stepper {
  import opened Utils
  import opened Entities
  import opened Arrival
  import opened QueueMotion
  import opened Contention
  import opened Scheduler
  import opened Metrics

  /** The simulated part of `State`, as a value. */
  datatype Sim = Sim(
    levelIdx: nat,
    tLeft: real,
    queue: seq<Customer>,
    stations: seq<Station>,
    spawnAcc: real,
    served: nat,
    remakes: nat,
    lost: nat,
    streak: nat,
    waits: seq<real>,
    p95: Option<real>,
    bottleneck: Bottleneck,
    events: seq<Event>)

  /** `ensureStations`: exactly `n` stations, the first ones kept as they were,
      new ones idle. */
  function Resized(sts: seq<Station>, n: nat): (r: seq<Station>)
    ensures |r| == n
    ensures forall i :: 0 <= i < n && i < |sts| ==> r[i] == sts[i]
    ensures forall i :: |sts| <= i < n ==> r[i] == IdleStation
  {
    seq(n, i requires 0 <= i < n => if i < |sts| then sts[i] else IdleStation)
  }

  /** Resizing to the current size changes nothing. */
  lemma ResizedSame(sts: seq<Station>)
    ensures Resized(sts, |sts|) == sts
  {
  }

  lemma {:induction false} InServicePrefix(sts: seq<Station>, k: nat)
    requires k <= |sts|
    ensures InService(sts[..k]) <= InService(sts)
    decreases |sts|
  {
    if k < |sts| {
      var init := sts[..|sts| - 1];
      assert init[..k] == sts[..k];
      InServicePrefix(init, k);
    } else {
      assert sts[..k] == sts;
    }
  }

  lemma {:induction false} InServiceIdlePadding(sts: seq<Station>, n: nat)
    requires |sts| <= n
    ensures InService(Resized(sts, n)) == InService(sts)
  {
    if n > |sts| {
      InServiceIdlePadding(sts, n - 1);
      assert Resized(sts, n)[..n - 1] == Resized(sts, n - 1);
    } else {
      ResizedSame(sts);
    }
  }

  /** Growing the station array adds only idle stations, so nobody in service is
      lost; shrinking it discards the dropped stations together with anyone in
      their batches. */
  lemma InServiceResized(sts: seq<Station>, n: nat)
    ensures |sts| <= n ==> InService(Resized(sts, n)) == InService(sts)
    ensures n < |sts| ==> InService(Resized(sts, n)) == InService(sts[..n]) <= InService(sts)
  {
    if |sts| <= n {
      InServiceIdlePadding(sts, n);
    } else {
      assert Resized(sts, n) == sts[..n];
      InServicePrefix(sts, n);
    }
  }

  /** Spawn stage: add `trafficRps * dt` to the accumulator and append one new
      customer per whole unit. */
  function SpawnStage(s: Sim, lv: Level, dt: real, draws: Draws, now: real, back: Point, total: real): Sim
  {
    s.(spawnAcc := Accrued(s, lv, dt) - SpawnCount(Accrued(s, lv, dt)) as real,
       queue := Spawned(s.queue, s.levelIdx, draws, now, back, total, SpawnCount(Accrued(s, lv, dt))))
  }

  /** The accumulator after this tick's share of the arrival rate. */
  function Accrued(s: Sim, lv: Level, dt: real): real
  {
    s.spawnAcc + lv.trafficRps * dt
  }

  /** `n` leave events. */
  function Leaves(n: nat): (r: seq<Event>)
    ensures |r| == n && forall e :: e in r ==> e == Leave
  {
    seq(n, _ => Leave)
  }

  /** One leave event more. */
  lemma LeavesStep(n: nat)
    ensures Leaves(n + 1) == Leaves(n) + [Leave]
  {
  }

  /** Drain stage: survivors stay in order, every leaver is counted as lost with
      one leave event, and any leaver breaks the streak. */
  function DrainStage(s: Sim, dt: real): Sim
  {
    var n := LeaveCount(s.queue, dt);
    s.(queue := Survivors(s.queue, dt), lost := s.lost + n,
       streak := if n > 0 then 0 else s.streak, events := s.events + Leaves(n))
  }

  /** The drain accounts for every customer it removes: `lost` rises by the
      number who left the line, with one leave event each after the earlier
      events; the streak breaks exactly when someone left; the stations and
      the score are untouched. */
  lemma DrainAccounting(s: Sim, dt: real)
    ensures var r := DrainStage(s, dt);
            && |r.queue| + r.lost == |s.queue| + s.lost
            && r.events == s.events + Leaves(r.lost - s.lost)
            && (r.lost > s.lost ==> r.streak == 0)
            && (r.lost == s.lost ==> r.streak == s.streak && r.queue == Survivors(s.queue, dt))
            && r.stations == s.stations && r.served == s.served && r.remakes == s.remakes
  {
  }

  function ShopOf(s: Sim): Shop
  {
    Shop(s.queue, s.served, s.remakes, s.streak, s.waits, s.events)
  }

  /** Station stage: the loop over all stations. */
  function StationStage(s: Sim, cx: TickCtx): Sim
  {
    var (sh, sts) := StationsFrom(ShopOf(s), s.stations, 0, cx);
    s.(queue := sh.queue, served := sh.served, remakes := sh.remakes, streak := sh.streak,
       waits := sh.waits, events := sh.events, stations := sts)
  }

  /** End of tick: the P95 cache, the bottleneck label and the countdown. */
  function MetricsStage(s: Sim, lv: Level, cfg: Config, dt: real): Sim
  {
    s.(p95 := P95Update(s.waits, s.p95),
       bottleneck := Classify(StalledCount(s.stations), BusyCount(s.stations), |s.stations|,
                              |s.queue|, lv, cfg, s.remakes, s.served),
       tLeft := s.tLeft - dt)
  }

  /** Whether the head of the queue stands within 10 of the counter point. */
  function FrontReady(q: seq<Customer>, front: Point, hypot: (real, real) -> real): bool
  {
    |q| > 0 && hypot(q[0].pos.x - front.x, q[0].pos.y - front.y) < 10.0
  }

  /** With a true hypotenuse, the head is ready exactly when its squared
      distance to the counter point is below 100. */
  lemma FrontReadyByDistance(q: seq<Customer>, front: Point, hypot: (real, real) -> real)
    requires IsHypot(hypot)
    ensures FrontReady(q, front, hypot) <==> |q| > 0 && SqDist(q[0].pos, front) < 100.0
  {
    if |q| > 0 {
      var dx, dy := q[0].pos.x - front.x, q[0].pos.y - front.y;
      var h := hypot(dx, dy);
      assert 0.0 <= h && h * h == SqDist(q[0].pos, front);
      if h < 10.0 {
        assert h * h <= h * 10.0 < 100.0;
      } else {
        assert h * h >= h * 10.0 >= 100.0;
      }
    }
  }

  /** The queue after the spawn, slot and walking stages. */
  function MovedQueue(s: Sim, dt: real, lv: Level, pts: seq<Point>, lens: PathLens, now: real, draws: Draws): Sim
    requires |pts| >= 1 && |lens.seg| >= |pts| - 1
  {
    var s2 := SpawnStage(s, lv, dt, draws, now, PointAt(pts, lens, lens.total), lens.total);
    var s3 := s2.(queue := Slotted(s2.queue, lens.total));
    s3.(queue := WalkedAll(s3.queue, dt, pts, lens))
  }

  /** The context the station loop of this tick sees. */
  function ContextOf(q: seq<Customer>, dt: real, lv: Level, cfg: Config, pts: seq<Point>, lens: PathLens,
                     now: real, draws: Draws, hypot: (real, real) -> real): TickCtx
    requires |pts| >= 1 && |lens.seg| >= |pts| - 1
  {
    TickCtx(lv, cfg, dt, FrontReady(q, PointAt(pts, lens, 0.0), hypot), now, lens.total, draws)
  }

  /** One whole tick of `step`, stage by stage in the order of the source. */
  function StepSpec(s: Sim, dt: real, lv: Level, cfg: Config, pts: seq<Point>, lens: PathLens,
                    now: real, draws: Draws, hypot: (real, real) -> real): Sim
    requires |pts| >= 1 && |lens.seg| >= |pts| - 1
  {
    var s1 := s.(stations := Resized(s.stations, cfg.compute));
    var s4 := MovedQueue(s1, dt, lv, pts, lens, now, draws);
    var s5 := DrainStage(s4, dt);
    var s6 := StationStage(s5, ContextOf(s5.queue, dt, lv, cfg, pts, lens, now, draws, hypot));
    MetricsStage(s6, lv, cfg, dt)
  }

  /** `n` idle stations. */
  function IdleStations(n: nat): (r: seq<Station>)
    ensures |r| == n && forall i :: 0 <= i < n ==> r[i] == IdleStation
  {
    seq(n, _ => IdleStation)
  }

  /** `reset`: the countdown restarts at the level's duration; the line, the
      accumulator, the counters, the samples, the cache, the label and the event
      buffer are cleared; and `compute` idle stations are built. */
  function ResetSim(s: Sim, lv: Level, cfg: Config): Sim
  {
    s.(tLeft := lv.duration, queue := [], spawnAcc := 0.0, served := 0, remakes := 0,
       lost := 0, streak := 0, waits := [], p95 := None, bottleneck := OK,
       stations := IdleStations(cfg.compute), events := [])
  }

  // ---------------------------------------------------------------------
  // What one tick promises

  /** The healthy state: every waiting or in-service customer has patience in
      (0, 1] and a non-negative drain rate, a station is busy exactly when it holds
      a batch, and the spawn accumulator keeps only a fraction. */
  predicate SimOk(s: Sim)
  {
    && QueueOk(s.queue)
    && (forall i :: 0 <= i < |s.stations| ==> StationOk(s.stations[i]))
    && 0.0 <= s.spawnAcc < 1.0
  }

  /** The state `reset` leaves is healthy, fresh and still on the same level. */
  lemma ResetIsOk(s: Sim, lv: Level, cfg: Config)
    ensures var r := ResetSim(s, lv, cfg);
            && SimOk(r) && r.levelIdx == s.levelIdx && r.tLeft == lv.duration
            && |r.stations| == cfg.compute && InService(r.stations) == 0
            && r.served == 0 && r.remakes == 0 && r.lost == 0 && r.streak == 0
            && r.waits == [] && r.p95 == None && r.events == []
  {
    InServiceIdle(cfg.compute);
  }

  lemma {:induction false} InServiceIdle(n: nat)
    ensures InService(IdleStations(n)) == 0
  {
    if n > 0 {
      InServiceIdle(n - 1);
      assert IdleStations(n)[..n - 1] == IdleStations(n - 1);
    }
  }

  lemma {:induction false} SpawnedOk(q: seq<Customer>, lvl: nat, draws: Draws, now: real, back: Point, total: real, k: nat)
    requires QueueOk(q)
    ensures QueueOk(Spawned(q, lvl, draws, now, back, total, k))
  {
    if k > 0 {
      SpawnedOk(q, lvl, draws, now, back, total, k - 1);
      var c := NewCustomer(lvl, draws.arrival(k - 1), now, back, total);
      NewCustomerPatience(lvl, draws.arrival(k - 1), now, back, total);
      assert CustomerOk(c);
    }
  }

  lemma SlottedOk(q: seq<Customer>, total: real)
    requires QueueOk(q)
    ensures QueueOk(Slotted(q, total))
  {
    var r := Slotted(q, total);
    forall c | c in r ensures CustomerOk(c) {
      var i :| 0 <= i < |r| && r[i] == c;
      assert q[i] in q;
    }
  }

  lemma WalkedOk(q: seq<Customer>, dt: real, pts: seq<Point>, lens: PathLens)
    requires |pts| >= 1 && |lens.seg| >= |pts| - 1
    requires QueueOk(q)
    ensures QueueOk(WalkedAll(q, dt, pts, lens))
  {
    var r := WalkedAll(q, dt, pts, lens);
    forall c | c in r ensures CustomerOk(c) {
      var i :| 0 <= i < |r| && r[i] == c;
      assert q[i] in q;
    }
  }

  lemma MovedQueueOk(s: Sim, dt: real, lv: Level, pts: seq<Point>, lens: PathLens, now: real, draws: Draws)
    requires |pts| >= 1 && |lens.seg| >= |pts| - 1
    requires QueueOk(s.queue) && 0.0 <= s.spawnAcc < 1.0 && 0.0 <= lv.trafficRps * dt
    ensures var m := MovedQueue(s, dt, lv, pts, lens, now, draws);
            && QueueOk(m.queue) && 0.0 <= m.spawnAcc < 1.0
            && m.stations == s.stations && m.served == s.served && m.lost == s.lost
            && |m.queue| == |s.queue| + SpawnCount(s.spawnAcc + lv.trafficRps * dt)
  {
    var back := PointAt(pts, lens, lens.total);
    var s2 := SpawnStage(s, lv, dt, draws, now, back, lens.total);
    var k := SpawnCount(s.spawnAcc + lv.trafficRps * dt);
    assert s2.queue == Spawned(s.queue, s.levelIdx, draws, now, back, lens.total, k);
    SpawnedOk(s.queue, s.levelIdx, draws, now, back, lens.total, k);
    SlottedOk(s2.queue, lens.total);
    WalkedOk(Slotted(s2.queue, lens.total), dt, pts, lens);
  }

  lemma DrainOk(s: Sim, dt: real)
    requires QueueOk(s.queue) && 0.0 <= dt
    ensures QueueOk(DrainStage(s, dt).queue)
  {
    SurvivorsPatienceBounded(s.queue, dt);
  }

  /** A tick with a non-negative `dt` and arrival rate keeps the state healthy. */
  lemma StepKeepsOk(s: Sim, dt: real, lv: Level, cfg: Config, pts: seq<Point>, lens: PathLens,
                    now: real, draws: Draws, hypot: (real, real) -> real)
    requires |pts| >= 1 && |lens.seg| >= |pts| - 1
    requires SimOk(s) && 0.0 <= dt && 0.0 <= lv.trafficRps
    ensures SimOk(StepSpec(s, dt, lv, cfg, pts, lens, now, draws, hypot))
  {
    var s1 := s.(stations := Resized(s.stations, cfg.compute));
    assert forall i :: 0 <= i < |s1.stations| ==> StationOk(s1.stations[i]);
    MulNonneg(lv.trafficRps, dt);
    var s4 := MovedQueue(s1, dt, lv, pts, lens, now, draws);
    MovedQueueOk(s1, dt, lv, pts, lens, now, draws);
    var s5 := DrainStage(s4, dt);
    DrainOk(s4, dt);
    var cx := ContextOf(s5.queue, dt, lv, cfg, pts, lens, now, draws, hypot);
    StationsInvariant(ShopOf(s5), s5.stations, 0, cx);
  }

  /** Customers are conserved: everyone waiting, in service, served or lost after
      the tick was waiting, in service (after the resize), served or lost before,
      or arrived during it. */
  lemma StepConservesCustomers(s: Sim, dt: real, lv: Level, cfg: Config, pts: seq<Point>, lens: PathLens,
                               now: real, draws: Draws, hypot: (real, real) -> real)
    requires |pts| >= 1 && |lens.seg| >= |pts| - 1
    requires SimOk(s) && 0.0 <= dt && 0.0 <= lv.trafficRps
    ensures var s' := StepSpec(s, dt, lv, cfg, pts, lens, now, draws, hypot);
            |s'.queue| + InService(s'.stations) + s'.served + s'.lost
              == |s.queue| + InService(Resized(s.stations, cfg.compute)) + s.served + s.lost
                 + SpawnCount(s.spawnAcc + lv.trafficRps * dt)
  {
    var s1 := s.(stations := Resized(s.stations, cfg.compute));
    assert forall i :: 0 <= i < |s1.stations| ==> StationOk(s1.stations[i]);
    MulNonneg(lv.trafficRps, dt);
    var s4 := MovedQueue(s1, dt, lv, pts, lens, now, draws);
    MovedQueueOk(s1, dt, lv, pts, lens, now, draws);
    var s5 := DrainStage(s4, dt);
    DrainOk(s4, dt);
    var cx := ContextOf(s5.queue, dt, lv, cfg, pts, lens, now, draws, hypot);
    StationsInvariant(ShopOf(s5), s5.stations, 0, cx);
  }

  lemma {:induction false} StationsMonotone(sh: Shop, sts: seq<Station>, i: nat, cx: TickCtx)
    requires i <= |sts|
    ensures var sh' := StationsFrom(sh, sts, i, cx).0;
            && sh.served <= sh'.served && sh.remakes <= sh'.remakes
            && sh.waits <= sh'.waits && sh.events <= sh'.events
    decreases |sts| - i
  {
    if i < |sts| {
      var (sh1, st1) := StationStep(sh, sts[i], i, cx);
      var st := sts[i];
      if !(st.stall > 0.0) && !(cx.draws.stallRoll(i) < StallRate(cx.lv, cx.cfg) * cx.dt)
         && st.busy && st.t - cx.dt <= 0.0 {
        CompleteAccounting(sh, st.batch, i, 0, cx);
      }
      StationsMonotone(sh1, sts[i := st1], i + 1, cx);
    }
  }

  /** Counters only grow, the wait samples and the event buffer only get
      appended to, the station array has exactly `compute` entries, the level
      index is untouched and the countdown drops by exactly `dt`. */
  lemma StepMonotone(s: Sim, dt: real, lv: Level, cfg: Config, pts: seq<Point>, lens: PathLens,
                     now: real, draws: Draws, hypot: (real, real) -> real)
    requires |pts| >= 1 && |lens.seg| >= |pts| - 1
    ensures var s' := StepSpec(s, dt, lv, cfg, pts, lens, now, draws, hypot);
            && s.served <= s'.served && s.remakes <= s'.remakes && s.lost <= s'.lost
            && s.waits <= s'.waits && s.events <= s'.events
            && |s'.stations| == cfg.compute && s'.levelIdx == s.levelIdx
            && s'.tLeft == s.tLeft - dt
  {
    var s1 := s.(stations := Resized(s.stations, cfg.compute));
    var s4 := MovedQueue(s1, dt, lv, pts, lens, now, draws);
    var s5 := DrainStage(s4, dt);
    var cx := ContextOf(s5.queue, dt, lv, cfg, pts, lens, now, draws, hypot);
    StationsMonotone(ShopOf(s5), s5.stations, 0, cx);
  }

  /** The P95 cache after a tick: the 95th percentile of all samples once there
      are at least four, the previous value otherwise; and a recomputed value
      lies between the shortest and the longest wait. */
  lemma StepP95(s: Sim, dt: real, lv: Level, cfg: Config, pts: seq<Point>, lens: PathLens,
                now: real, draws: Draws, hypot: (real, real) -> real)
    requires |pts| >= 1 && |lens.seg| >= |pts| - 1
    ensures var s' := StepSpec(s, dt, lv, cfg, pts, lens, now, draws, hypot);
            && (|s'.waits| >= 4 ==>
                  && s'.p95 == Some(Quantile(s'.waits, 0.95))
                  && SeqMin(s'.waits) <= s'.p95.value <= SeqMax(s'.waits))
            && (|s'.waits| < 4 ==> s'.p95 == s.p95)
  {
    var s' := StepSpec(s, dt, lv, cfg, pts, lens, now, draws, hypot);
    if |s'.waits| >= 4 {
      QuantileBounds(s'.waits, 0.95);
    }
  }
}
