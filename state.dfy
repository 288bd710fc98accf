/** The mutable simulation state of js/model.js:16-47 and the operations that
    change it in place: `reset`, `ensureStations`, `spawnCustomer` and `step`.
    Every stage of `step` is a method proved against the pure stage function of
    module Stepper, and `Step` against their composition `StepSpec`. */
module Simulation {
  import opened Utils
  import opened Entities
  import opened Arrival
  import opened QueueMotion
  import opened Contention
  import opened Scheduler
  import opened Metrics
  import opened Stepper

  class State {
    var running: bool
    var levelIdx: nat
    var tLeft: real
    var queue: seq<Customer>
    var stations: seq<Station>
    var spawnAcc: real
    var served: nat
    var remakes: nat
    var lost: nat
    var serveStreak: nat
    var waitSamples: seq<real>
    var p95Cached: Option<real>
    var bottleneck: Bottleneck
    var events: seq<Event>
    var lv4Attempts: nat

    /** The simulated part of the state as a value. */
    function Snapshot(): Sim
      reads this
    {
      Sim(levelIdx, tLeft, queue, stations, spawnAcc, served, remakes, lost,
          serveStreak, waitSamples, p95Cached, bottleneck, events)
    }

    /** The part the station loop reads and writes besides the stations. */
    function ShopNow(): Shop
      reads this
    {
      Shop(queue, served, remakes, serveStreak, waitSamples, events)
    }

    /** A fresh state: not running, level 0, no time, no one waiting, no stations. */
    constructor()
      ensures !running && levelIdx == 0 && tLeft == 0.0
      ensures queue == [] && stations == [] && spawnAcc == 0.0
      ensures served == 0 && remakes == 0 && lost == 0 && serveStreak == 0
      ensures waitSamples == [] && p95Cached == None && bottleneck == OK
      ensures events == [] && lv4Attempts == 0
    {
      running := false;
      levelIdx := 0;
      tLeft := 0.0;
      queue := [];
      stations := [];
      spawnAcc := 0.0;
      served := 0;
      remakes := 0;
      lost := 0;
      serveStreak := 0;
      waitSamples := [];
      p95Cached := None;
      bottleneck := OK;
      events := [];
      lv4Attempts := 0;
    }

    /** `reset`: stop, and put the simulation in the state `ResetSim`
        describes; the level index and the attempt counter are kept. */
    method Reset(lv: Level, cfg: Config)
      modifies this`running, this`tLeft, this`queue, this`stations, this`spawnAcc, this`served, this`remakes
      modifies this`lost, this`serveStreak, this`waitSamples, this`p95Cached, this`bottleneck, this`events
      ensures Snapshot() == ResetSim(old(Snapshot()), lv, cfg)
      ensures !running
    {
      running := false;
      tLeft := lv.duration;
      ClearLine();
      ClearScore();
      RebuildStations(cfg.compute);
    }

    /** The line and the arrival accumulator of `reset`. */
    method ClearLine()
      modifies this`queue, this`spawnAcc
      ensures Snapshot() == old(Snapshot()).(queue := [], spawnAcc := 0.0)
    {
      queue := [];
      spawnAcc := 0.0;
    }

    /** The label, the `n` fresh idle stations and the empty event buffer of `reset`. */
    method RebuildStations(n: nat)
      modifies this`bottleneck, this`stations, this`events
      ensures Snapshot() == old(Snapshot()).(bottleneck := OK, stations := IdleStations(n), events := [])
    {
      bottleneck := OK;
      stations := IdleStations(n);
      events := [];
    }

    /** The score and the wait statistics of `reset`. */
    method ClearScore()
      modifies this`served, this`remakes, this`lost, this`serveStreak, this`waitSamples, this`p95Cached
      ensures Snapshot() == old(Snapshot()).(served := 0, remakes := 0, lost := 0, streak := 0, waits := [], p95 := None)
    {
      served := 0;
      remakes := 0;
      lost := 0;
      serveStreak := 0;
      waitSamples := [];
      p95Cached := None;
    }

    /** `ensureStations`: nothing changes when there are already `n` stations;
        otherwise the first `n` are kept and missing ones are idle. */
    method EnsureStations(n: nat)
      modifies this`stations
      ensures stations == Resized(old(stations), n)
      ensures Snapshot() == old(Snapshot()).(stations := Resized(old(stations), n))
    {
      if |stations| == n {
        ResizedSame(stations);
        return;
      }
      var old_ := stations;
      stations := seq(n, i requires 0 <= i < n => if i < |old_| then old_[i] else IdleStation);
    }

    /** `spawnCustomer`: append one new customer, of the archetype the roll `r`
        picks, standing at the back of the line. */
    method SpawnCustomer(r: real, now: real, pts: seq<Point>, lens: PathLens)
      requires |pts| >= 1 && |lens.seg| >= |pts| - 1
      modifies this`queue
      ensures queue == old(queue) + [NewCustomer(levelIdx, r, now, PointAt(pts, lens, lens.total), lens.total)]
    {
      var back := PointOnPath(pts, lens, lens.total);
      var lvl := levelIdx;
      var k := ArchetypeOf(lvl, r);
      var base := PatienceBase(k);
      queue := queue + [Customer(now, back, lens.total, lens.total, 1.0, 1.0 / base, k)];
    }

    /** The spawn loop: one customer per whole unit of the accumulator. */
    method SpawnArrivals(lv: Level, dt: real, draws: Draws, now: real, pts: seq<Point>, lens: PathLens)
      requires |pts| >= 1 && |lens.seg| >= |pts| - 1
      modifies this`spawnAcc, this`queue
      ensures Snapshot() == SpawnStage(old(Snapshot()), lv, dt, draws, now, PointAt(pts, lens, lens.total), lens.total)
    {
      ghost var s0 := Snapshot();
      ghost var back := PointAt(pts, lens, lens.total);
      spawnAcc := spawnAcc + lv.trafficRps * dt;
      ghost var acc := Accrued(s0, lv, dt);
      ghost var n := SpawnCount(acc);
      var k: nat := 0;
      while spawnAcc >= 1.0
        invariant k <= n
        invariant spawnAcc == acc - k as real
        invariant k + SpawnCount(spawnAcc) == n
        invariant queue == Spawned(s0.queue, s0.levelIdx, draws, now, back, lens.total, k)
        decreases n - k
      {
        SpawnCountStep(spawnAcc);
        SpawnCustomer(draws.arrival(k), now, pts, lens);
        spawnAcc := spawnAcc - 1.0;
        k := k + 1;
      }
      assert k == n;
    }

    /** The slot loop: customer `i` is sent to `min(total, i * spacing)`. */
    method AssignSlots(total: real)
      modifies this`queue
      ensures Snapshot() == old(Snapshot()).(queue := Slotted(old(queue), total))
    {
      ghost var q0 := queue;
      for i := 0 to |queue|
        invariant |queue| == |q0|
        invariant forall j :: 0 <= j < i ==> queue[j] == q0[j].(targetDist := SlotDist(j, total))
        invariant forall j :: i <= j < |q0| ==> queue[j] == q0[j]
      {
        queue := queue[i := queue[i].(targetDist := Min(total, i as real * Spacing))];
      }
    }

    /** The walking loop: everyone not within 1 of the slot steps toward it. */
    method WalkQueue(dt: real, pts: seq<Point>, lens: PathLens)
      requires |pts| >= 1 && |lens.seg| >= |pts| - 1
      modifies this`queue
      ensures Snapshot() == old(Snapshot()).(queue := WalkedAll(old(queue), dt, pts, lens))
    {
      ghost var q0 := queue;
      for i := 0 to |queue|
        invariant |queue| == |q0|
        invariant forall j :: 0 <= j < i ==> queue[j] == Walked(q0[j], dt, pts, lens)
        invariant forall j :: i <= j < |q0| ==> queue[j] == q0[j]
      {
        var c := queue[i];
        var delta := c.dist - c.targetDist;
        if Abs(delta) < 1.0 {
          continue;
        }
        var stepDist := Min(Abs(delta), WalkSpeed * dt);
        var d := c.dist + (if delta > 0.0 then -stepDist else stepDist);
        var p := PointOnPath(pts, lens, d);
        queue := queue[i := c.(dist := d, pos := p)];
      }
    }

    /** The spawn, slot and walking stages of a tick. */
    method MoveQueue(dt: real, lv: Level, pts: seq<Point>, lens: PathLens, now: real, draws: Draws)
      requires |pts| >= 1 && |lens.seg| >= |pts| - 1
      modifies this`spawnAcc, this`queue
      ensures Snapshot() == MovedQueue(old(Snapshot()), dt, lv, pts, lens, now, draws)
    {
      SpawnArrivals(lv, dt, draws, now, pts, lens);
      AssignSlots(lens.total);
      WalkQueue(dt, pts, lens);
    }

    /** Customer `i` gives up: it leaves the line, is counted as lost, resets
        the streak and raises a leave event. */
    method Abandon(i: nat)
      requires i < |queue|
      modifies this`queue, this`lost, this`serveStreak, this`events
      ensures queue == old(queue[..i] + queue[i + 1..])
      ensures lost == old(lost) + 1 && serveStreak == 0 && events == old(events) + [Leave]
    {
      queue := queue[..i] + queue[i + 1..];
      lost := lost + 1;
      serveStreak := 0;
      events := events + [Leave];
    }

    /** The patience loop, from the back of the line to the front: everyone's
        patience drains, and whoever runs out leaves, is counted as lost,
        resets the streak and raises a leave event. */
    method DrainPatience(dt: real)
      modifies this`queue, this`lost, this`serveStreak, this`events
      ensures Snapshot() == DrainStage(old(Snapshot()), dt)
    {
      ghost var q0, lost0, streak0, ev0 := queue, lost, serveStreak, events;
      var i := |queue|;
      while i > 0
        invariant 0 <= i <= |q0|
        invariant queue == q0[..i] + Survivors(q0[i..], dt)
        invariant lost == lost0 + LeaveCount(q0[i..], dt)
        invariant events == ev0 + Leaves(LeaveCount(q0[i..], dt))
        invariant serveStreak == if LeaveCount(q0[i..], dt) > 0 then 0 else streak0
      {
        i := i - 1;
        assert queue[i] == q0[i];
        var c := queue[i];
        c := c.(patience := c.patience - c.patienceRate * dt);
        assert c == Drained(q0[i], dt);
        if c.patience <= 0.0 {
          LeaveAt(q0, i, dt);
          Abandon(i);
          LeavesStep(LeaveCount(q0[i + 1..], dt));
        } else {
          KeepAt(q0, i, dt);
          queue := queue[i := c];
        }
      }
      assert q0[..0] + Survivors(q0[0..], dt) == Survivors(q0, dt);
    }

    /** The completion of one batch member with remake roll `roll`: its wait is
        recorded, and the drink is either remade (the customer goes back to the
        line) or served. */
    method CompleteMember(c: Customer, roll: real, cx: TickCtx)
      modifies this`queue, this`served, this`remakes, this`serveStreak, this`waitSamples, this`events
      ensures ShopNow() == CompleteOne(old(ShopNow()), c, roll, cx)
    {
      waitSamples := waitSamples + [cx.now - c.born];
      var bad := Remade(cx.lv, QualityTier(cx.lv, cx.cfg), roll);
      if bad {
        remakes := remakes + 1;
        serveStreak := 0;
        events := events + [Remake];
        queue := queue + [c.(born := cx.now, dist := cx.total, patience := 0.7)];
      } else {
        served := served + 1;
        serveStreak := serveStreak + 1;
        events := events + [Serve];
        if serveStreak > 0 && serveStreak % 5 == 0 {
          events := events + [Combo];
        }
      }
    }

    /** The completion of a batch, member by member. */
    method CompleteBatch(b: seq<Customer>, i: nat, cx: TickCtx)
      modifies this`queue, this`served, this`remakes, this`serveStreak, this`waitSamples, this`events
      ensures ShopNow() == CompleteFrom(old(ShopNow()), b, i, 0, cx)
    {
      for j := 0 to |b|
        invariant CompleteFrom(ShopNow(), b, i, j, cx) == CompleteFrom(old(ShopNow()), b, i, 0, cx)
      {
        CompleteMember(b[j], cx.draws.remakeRoll(i, j), cx);
      }
    }

    /** One station's turn in the station loop. */
    method TickStation(i: nat, cx: TickCtx)
      requires i < |stations|
      modifies this`queue, this`served, this`remakes, this`serveStreak, this`waitSamples, this`events, this`stations
      ensures var (sh, st) := StationStep(old(ShopNow()), old(stations[i]), i, cx);
              ShopNow() == sh && stations == old(stations)[i := st]
    {
      var st := stations[i];
      if st.stall > 0.0 {
        stations := stations[i := st.(stall := st.stall - cx.dt)];
        return;
      }
      if cx.draws.stallRoll(i) < StallRate(cx.lv, cx.cfg) * cx.dt {
        stations := stations[i := st.(stall := (0.65 + cx.draws.stallLen(i) * 0.65) / Max(0.7, cx.cfg.bw))];
        return;
      }
      if !st.busy {
        PickUp(i, cx);
      } else {
        var t := st.t - cx.dt;
        if t <= 0.0 {
          CompleteBatch(st.batch, i, cx);
          stations := stations[i := st.(busy := false, t := t, batch := [])];
        } else {
          stations := stations[i := st.(t := t)];
        }
      }
    }

    /** An idle, unstalled station's turn: with the front customer at the
        counter it takes the head of the line, one customer or a whole batch. */
    method PickUp(i: nat, cx: TickCtx)
      requires i < |stations|
      modifies this`queue, this`stations
      ensures var (sh, st) := Pickup(old(ShopNow()), old(stations[i]), cx);
              ShopNow() == sh && stations == old(stations)[i := st]
    {
      var st := stations[i];
      ghost var sh := ShopNow();
      assert sh.queue == queue;
      var batchSize := BatchSize(cx.lv, cx.cfg);
      var q := QualityTier(cx.lv, cx.cfg);
      if !cx.frontReady {
        return;
      }
      if batchSize <= 1 {
        if |queue| > 0 {
          var c := queue[0];
          var t := cx.lv.serviceBase * QSlow(q);
          assert Pickup(sh, st, cx).0 == sh.(queue := sh.queue[1..]);
          assert Pickup(sh, st, cx).1.batch == [c];
          assert Pickup(sh, st, cx).1.t == t;
          assert Pickup(sh, st, cx).1.busy;
          assert Pickup(sh, st, cx).1.stall == st.stall;
          assert Pickup(sh, st, cx) == (sh.(queue := sh.queue[1..]), st.(busy := true, batch := [c], t := t));
          queue := queue[1..];
          stations := stations[i := st.(busy := true, batch := [c], t := t)];
        }
      } else if |queue| >= batchSize && batchSize >= 2 {
        if !KthReady(queue[batchSize - 1]) {
          return;
        }
        var batch := queue[..batchSize];
        var t := cx.lv.serviceBase * QSlow(q) * BatchEff(batchSize) * (0.90 + 0.08 * batchSize as real);
        assert Pickup(sh, st, cx).0 == sh.(queue := sh.queue[batchSize..]);
        assert Pickup(sh, st, cx).1.batch == batch;
        assert Pickup(sh, st, cx).1.t == t;
        assert Pickup(sh, st, cx).1.busy;
        assert Pickup(sh, st, cx).1.stall == st.stall;
        assert Pickup(sh, st, cx) == (sh.(queue := sh.queue[batchSize..]), st.(busy := true, batch := batch, t := t));
        queue := queue[batchSize..];
        stations := stations[i := st.(busy := true, batch := batch, t := t)];
      }
    }

    /** The station loop, each station in index order. */
    method StationPass(cx: TickCtx)
      modifies this`queue, this`served, this`remakes, this`serveStreak, this`waitSamples, this`events, this`stations
      ensures Snapshot() == StationStage(old(Snapshot()), cx)
    {
      for i := 0 to |stations|
        invariant |stations| == |old(stations)|
        invariant StationsFrom(ShopNow(), stations, i, cx) == StationsFrom(old(ShopNow()), old(stations), 0, cx)
      {
        TickStation(i, cx);
      }
    }

    /** The end of a tick: the P95 cache once there are four samples, the
        bottleneck label from this tick's stations and line, and the countdown. */
    method FinishTick(lv: Level, cfg: Config, dt: real)
      modifies this`p95Cached, this`bottleneck, this`tLeft
      ensures Snapshot() == MetricsStage(old(Snapshot()), lv, cfg, dt)
    {
      if |waitSamples| >= 4 {
        p95Cached := Some(Quantile(waitSamples, 0.95));
      }
      var stalled := StalledCount(stations);
      var busy := BusyCount(stations);
      bottleneck := Classify(stalled, busy, |stations|, |queue|, lv, cfg, remakes, served);
      tLeft := tLeft - dt;
    }

    /** `step`: one tick of length `dt`, exactly as `StepSpec` says. The frame
        leaves `running`, the level index and the attempt counter alone. */
    method Step(dt: real, lv: Level, cfg: Config, pts: seq<Point>, lens: PathLens,
                now: real, draws: Draws, hypot: (real, real) -> real)
      requires |pts| >= 1 && |lens.seg| >= |pts| - 1
      modifies this`tLeft, this`queue, this`stations, this`spawnAcc, this`served, this`remakes, this`lost
      modifies this`serveStreak, this`waitSamples, this`p95Cached, this`bottleneck, this`events
      ensures Snapshot() == StepSpec(old(Snapshot()), dt, lv, cfg, pts, lens, now, draws, hypot)
    {
      EnsureStations(cfg.compute);
      MoveQueue(dt, lv, pts, lens, now, draws);
      DrainPatience(dt);
      var front := PointOnPath(pts, lens, 0.0);
      var frontReady := |queue| > 0 && hypot(queue[0].pos.x - front.x, queue[0].pos.y - front.y) < 10.0;
      var cx := TickCtx(lv, cfg, dt, frontReady, now, lens.total, draws);
      assert cx == ContextOf(queue, dt, lv, cfg, pts, lens, now, draws, hypot);
      StationPass(cx);
      FinishTick(lv, cfg, dt);
    }
  }
}
