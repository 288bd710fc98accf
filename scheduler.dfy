/** The station loop of a tick (js/model.js:204-313): each station in turn is
    stalled, rolls a new stall, is idle and may pick up the head of the queue
    (one customer or a whole batch), or is busy and counts its service time
    down to a completion that serves or remakes every member of its batch. */
module Scheduler {
  import opened Utils
  import opened Entities
  import opened Contention

  /** The part of the state the station loop reads and writes besides the stations. */
  datatype Shop = Shop(
    queue: seq<Customer>,
    served: nat,
    remakes: nat,
    streak: nat,
    waits: seq<real>,
    events: seq<Event>)

  /** What the station loop is given: the level, levers and tick length, the
      once-per-tick `frontReady` flag, the clock, the line length and the draws. */
  datatype TickCtx = TickCtx(
    lv: Level,
    cfg: Config,
    dt: real,
    frontReady: bool,
    now: real,
    total: real,
    draws: Draws)

  /** A customer who gets a remade drink: back at the end of the line, with the
      clock restarted and less patience. */
  function Requeue(c: Customer, cx: TickCtx): Customer
  {
    c.(born := cx.now, dist := cx.total, patience := 0.7)
  }

  /** The completion of one batch member with remake roll `roll`. */
  function CompleteOne(sh: Shop, c: Customer, roll: real, cx: TickCtx): Shop
  {
    var waits := sh.waits + [cx.now - c.born];
    if Remade(cx.lv, QualityTier(cx.lv, cx.cfg), roll) then
      sh.(waits := waits, remakes := sh.remakes + 1, streak := 0,
          events := sh.events + [Remake], queue := sh.queue + [Requeue(c, cx)])
    else
      var streak := sh.streak + 1;
      sh.(waits := waits, served := sh.served + 1, streak := streak,
          events := sh.events + [Serve] + (if streak % 5 == 0 then [Combo] else []))
  }

  /** Completion of members `j..` of the batch of station `i`. */
  function CompleteFrom(sh: Shop, b: seq<Customer>, i: nat, j: nat, cx: TickCtx): Shop
    requires j <= |b|
    decreases |b| - j
  {
    if j == |b| then sh
    else CompleteFrom(CompleteOne(sh, b[j], cx.draws.remakeRoll(i, j), cx), b, i, j + 1, cx)
  }

  /** The customers of members `j..` that are sent back to the line, in order. */
  function RequeuedFrom(b: seq<Customer>, i: nat, j: nat, cx: TickCtx): (r: seq<Customer>)
    requires j <= |b|
    ensures |r| <= |b| - j
    decreases |b| - j
  {
    if j == |b| then []
    else
      (if Remade(cx.lv, QualityTier(cx.lv, cx.cfg), cx.draws.remakeRoll(i, j)) then [Requeue(b[j], cx)] else [])
      + RequeuedFrom(b, i, j + 1, cx)
  }

  /** The wait of every member `j..`, in order. */
  function WaitsFrom(b: seq<Customer>, now: real, j: nat): (r: seq<real>)
    requires j <= |b|
    ensures |r| == |b| - j
    ensures forall k :: 0 <= k < |r| ==> r[k] == now - b[j + k].born
    decreases |b| - j
  {
    if j == |b| then [] else [now - b[j].born] + WaitsFrom(b, now, j + 1)
  }

  /** One completion appends one wait sample and either serves the customer
      (one more served, a longer streak, a `Serve` event followed by a `Combo`
      exactly when the new streak is a multiple of 5) or remakes the drink (one
      more remake, streak reset, a `Remake` event, the customer back at the tail
      with patience 0.7, `dist = total` and `born = now`). */
  lemma CompleteOneOutcome(sh: Shop, c: Customer, roll: real, cx: TickCtx)
    ensures var r := CompleteOne(sh, c, roll, cx);
            && r.waits == sh.waits + [cx.now - c.born]
            && (Remade(cx.lv, QualityTier(cx.lv, cx.cfg), roll) ==>
                  && r.remakes == sh.remakes + 1 && r.served == sh.served && r.streak == 0
                  && r.events == sh.events + [Remake]
                  && r.queue == sh.queue + [c.(born := cx.now, dist := cx.total, patience := 0.7)])
            && (!Remade(cx.lv, QualityTier(cx.lv, cx.cfg), roll) ==>
                  && r.served == sh.served + 1 && r.remakes == sh.remakes
                  && r.streak == sh.streak + 1 && r.queue == sh.queue
                  && r.events == sh.events + [Serve] + (if r.streak % 5 == 0 then [Combo] else []))
  {
  }

  /** Completing a batch accounts for every member exactly once: one wait sample
      each, in member order; `served + remakes` grows by the batch size; the
      remade members, and only they, are appended to the line in member order;
      and earlier events are kept. */
  lemma {:induction false} CompleteAccounting(sh: Shop, b: seq<Customer>, i: nat, j: nat, cx: TickCtx)
    requires j <= |b|
    ensures var r := CompleteFrom(sh, b, i, j, cx);
            && r.waits == sh.waits + WaitsFrom(b, cx.now, j)
            && r.queue == sh.queue + RequeuedFrom(b, i, j, cx)
            && r.served + r.remakes == sh.served + sh.remakes + (|b| - j)
            && r.served + |RequeuedFrom(b, i, j, cx)| == sh.served + (|b| - j)
            && sh.events <= r.events
    decreases |b| - j
  {
    if j < |b| {
      var sh1 := CompleteOne(sh, b[j], cx.draws.remakeRoll(i, j), cx);
      CompleteAccounting(sh1, b, i, j + 1, cx);
      assert sh.events <= sh1.events;
    }
  }

  /** Whether the `k`-th customer has (almost) reached its slot. */
  predicate KthReady(c: Customer)
  {
    Abs(c.dist - c.targetDist) < 6.0
  }

  /** An idle, unstalled station and the head of the queue. */
  function Pickup(sh: Shop, st: Station, cx: TickCtx): (Shop, Station)
  {
    var k := BatchSize(cx.lv, cx.cfg);
    var q := QualityTier(cx.lv, cx.cfg);
    if !cx.frontReady then (sh, st)
    else if k <= 1 then
      if |sh.queue| > 0 then
        (sh.(queue := sh.queue[1..]), st.(busy := true, batch := [sh.queue[0]], t := SingleServiceTime(cx.lv, q)))
      else (sh, st)
    else if |sh.queue| >= k && KthReady(sh.queue[k - 1]) then
      (sh.(queue := sh.queue[k..]), st.(busy := true, batch := sh.queue[..k], t := BatchServiceTime(cx.lv, q, k)))
    else (sh, st)
  }

  /** One station's turn in the loop. */
  function StationStep(sh: Shop, st: Station, i: nat, cx: TickCtx): (Shop, Station)
  {
    if st.stall > 0.0 then (sh, st.(stall := st.stall - cx.dt))
    else if cx.draws.stallRoll(i) < StallRate(cx.lv, cx.cfg) * cx.dt then
      (sh, st.(stall := StallDuration(cx.cfg.bw, cx.draws.stallLen(i))))
    else if !st.busy then Pickup(sh, st, cx)
    else
      var t := st.t - cx.dt;
      if t <= 0.0 then (CompleteFrom(sh, st.batch, i, 0, cx), st.(busy := false, t := t, batch := []))
      else (sh, st.(t := t))
  }

  /** The loop over stations `i..`, each seeing the queue its predecessors left. */
  function StationsFrom(sh: Shop, sts: seq<Station>, i: nat, cx: TickCtx): (r: (Shop, seq<Station>))
    requires i <= |sts|
    ensures |r.1| == |sts|
    decreases |sts| - i
  {
    if i == |sts| then (sh, sts)
    else
      var (sh1, st1) := StationStep(sh, sts[i], i, cx);
      StationsFrom(sh1, sts[i := st1], i + 1, cx)
  }

  // ---------------------------------------------------------------------
  // One station at a time

  /** A stalled station only counts its stall down: its busy flag, timer and
      batch stay as they are, and the queue and counters are untouched. */
  lemma StalledStationWaits(sh: Shop, st: Station, i: nat, cx: TickCtx)
    requires st.stall > 0.0
    ensures StationStep(sh, st, i, cx).0 == sh
    ensures var st' := StationStep(sh, st, i, cx).1;
            st'.busy == st.busy && st'.t == st.t && st'.batch == st.batch && st'.stall == st.stall - cx.dt
  {
  }

  /** The stall roll comes before the busy check: a station that rolls a stall,
      busy or not, keeps its timer and batch, and the new stall lasts between
      `0.65 / max(0.7, bw)` and `1.30 / max(0.7, bw)`. */
  lemma StallRollPausesService(sh: Shop, st: Station, i: nat, cx: TickCtx)
    requires st.stall <= 0.0 && cx.draws.stallRoll(i) < StallRate(cx.lv, cx.cfg) * cx.dt
    requires 0.0 <= cx.draws.stallLen(i) < 1.0
    ensures StationStep(sh, st, i, cx).0 == sh
    ensures var st' := StationStep(sh, st, i, cx).1;
            && st'.busy == st.busy && st'.t == st.t && st'.batch == st.batch
            && 0.65 / Max(0.7, cx.cfg.bw) <= st'.stall < 1.30 / Max(0.7, cx.cfg.bw)
  {
    StallDurationRange(cx.cfg.bw, cx.draws.stallLen(i));
  }

  /** Pickup needs the front customer at the counter; without it an idle station
      does nothing. */
  lemma NoPickupWithoutFront(sh: Shop, st: Station, cx: TickCtx)
    requires !cx.frontReady
    ensures Pickup(sh, st, cx) == (sh, st)
  {
  }

  /** In single mode (`batchSize <= 1`) the station takes exactly the head of a
      non-empty queue, with service time `serviceBase * qSlow`. */
  lemma SinglePickup(sh: Shop, st: Station, cx: TickCtx)
    requires cx.frontReady && BatchSize(cx.lv, cx.cfg) <= 1 && |sh.queue| > 0
    ensures var (sh', st') := Pickup(sh, st, cx);
            && sh'.queue == sh.queue[1..] && st'.batch == [sh.queue[0]] && st'.busy
            && st'.t == cx.lv.serviceBase * QSlow(QualityTier(cx.lv, cx.cfg))
            && sh' == sh.(queue := sh.queue[1..])
  {
  }

  /** In batch mode (`batchSize = k >= 2`) the station moves only when the line
      holds at least `k` customers and the `k`-th has (almost) reached its slot;
      then it takes exactly the first `k`, in order, with the batch service time. */
  lemma BatchPickup(sh: Shop, st: Station, cx: TickCtx)
    requires cx.frontReady && BatchSize(cx.lv, cx.cfg) >= 2
    ensures var k := BatchSize(cx.lv, cx.cfg);
            var (sh', st') := Pickup(sh, st, cx);
            && ((|sh.queue| >= k && KthReady(sh.queue[k - 1])) ==>
                  && st'.batch == sh.queue[..k] && sh'.queue == sh.queue[k..] && st'.busy
                  && st'.t == cx.lv.serviceBase * QSlow(QualityTier(cx.lv, cx.cfg)) * BatchEff(k) * (0.90 + 0.08 * k as real))
            && (!(|sh.queue| >= k && KthReady(sh.queue[k - 1])) ==> (sh', st') == (sh, st))
  {
  }

  /** Pickup is atomic and loses nobody: the queue before it is the new batch
      followed by the queue after it, and the batch is empty, one customer in
      single mode, or exactly `batchSize` customers in batch mode. */
  lemma PickupConserves(sh: Shop, st: Station, cx: TickCtx)
    requires !st.busy && st.batch == []
    ensures var (sh', st') := Pickup(sh, st, cx);
            && st'.batch + sh'.queue == sh.queue
            && (|st'.batch| == 0 || |st'.batch| == Max1(BatchSize(cx.lv, cx.cfg)))
            && (st'.busy <==> |st'.batch| > 0)
            && sh'.(queue := sh.queue) == sh
  {
    var k := BatchSize(cx.lv, cx.cfg);
    if cx.frontReady && k <= 1 && |sh.queue| > 0 {
      assert [sh.queue[0]] + sh.queue[1..] == sh.queue;
    } else if cx.frontReady && k > 1 && |sh.queue| >= k {
      assert sh.queue[..k] + sh.queue[k..] == sh.queue;
    }
  }

  /** A busy, unstalled station whose timer runs out completes its whole batch
      and becomes idle with an empty batch. */
  lemma CompletionEmptiesStation(sh: Shop, st: Station, i: nat, cx: TickCtx)
    requires st.stall <= 0.0 && !(cx.draws.stallRoll(i) < StallRate(cx.lv, cx.cfg) * cx.dt)
    requires st.busy && st.t - cx.dt <= 0.0
    ensures var (sh', st') := StationStep(sh, st, i, cx);
            && sh' == CompleteFrom(sh, st.batch, i, 0, cx)
            && !st'.busy && st'.batch == [] && st'.t == st.t - cx.dt
  {
  }

  // ---------------------------------------------------------------------
  // Invariants of the loop

  /** A waiting customer has some patience left, at most a full unit, and does
      not regain it. */
  predicate CustomerOk(c: Customer)
  {
    0.0 < c.patience <= 1.0 && 0.0 <= c.patienceRate
  }

  /** A station is busy exactly when it holds a batch, and holds healthy customers. */
  predicate StationOk(st: Station)
  {
    (st.busy <==> |st.batch| > 0) && forall c :: c in st.batch ==> CustomerOk(c)
  }

  predicate QueueOk(q: seq<Customer>)
  {
    forall c :: c in q ==> CustomerOk(c)
  }

  /** Customers held by the stations. */
  function InService(sts: seq<Station>): nat
  {
    if |sts| == 0 then 0 else InService(sts[..|sts| - 1]) + |sts[|sts| - 1].batch|
  }

  lemma {:induction false} InServiceUpdate(sts: seq<Station>, i: nat, st: Station)
    requires i < |sts|
    ensures InService(sts[i := st]) + |sts[i].batch| == InService(sts) + |st.batch|
  {
    var n := |sts|;
    var u := sts[i := st];
    assert u[..n - 1] == if i < n - 1 then sts[..n - 1][i := st] else sts[..n - 1];
    if i < n - 1 {
      InServiceUpdate(sts[..n - 1], i, st);
    }
  }

  lemma {:induction false} RequeuedOk(b: seq<Customer>, i: nat, j: nat, cx: TickCtx)
    requires j <= |b|
    requires forall c :: c in b ==> CustomerOk(c)
    ensures QueueOk(RequeuedFrom(b, i, j, cx))
    decreases |b| - j
  {
    if j < |b| {
      RequeuedOk(b, i, j + 1, cx);
      assert b[j] in b;
    }
  }

  /** One station's turn keeps the healthy-state invariants, conserves the
      customers it can see (queue, its batch, served), only grows the counters
      and only appends to the wait samples and the event buffer. */
  lemma StationStepInvariant(sh: Shop, st: Station, i: nat, cx: TickCtx)
    requires StationOk(st) && QueueOk(sh.queue)
    ensures var (sh', st') := StationStep(sh, st, i, cx);
            && StationOk(st') && QueueOk(sh'.queue)
            && |sh'.queue| + |st'.batch| + sh'.served == |sh.queue| + |st.batch| + sh.served
            && sh.served <= sh'.served && sh.remakes <= sh'.remakes
            && sh.waits <= sh'.waits && sh.events <= sh'.events
  {
    var (sh', st') := StationStep(sh, st, i, cx);
    if st.stall > 0.0 || cx.draws.stallRoll(i) < StallRate(cx.lv, cx.cfg) * cx.dt {
    } else if !st.busy {
      PickupConserves(sh, st, cx);
      assert forall c :: c in st'.batch ==> c in sh.queue;
      assert forall c :: c in sh'.queue ==> c in sh.queue;
    } else if st.t - cx.dt <= 0.0 {
      CompleteAccounting(sh, st.batch, i, 0, cx);
      RequeuedOk(st.batch, i, 0, cx);
      assert sh'.queue == sh.queue + RequeuedFrom(st.batch, i, 0, cx);
    }
  }

  /** The whole station loop (from station `i` on) keeps every station and the
      queue healthy, conserves `queue + in service + served`, and only grows the
      counters, the wait samples and the event buffer. */
  lemma {:induction false} StationsInvariant(sh: Shop, sts: seq<Station>, i: nat, cx: TickCtx)
    requires i <= |sts|
    requires forall k :: 0 <= k < |sts| ==> StationOk(sts[k])
    requires QueueOk(sh.queue)
    ensures var (sh', sts') := StationsFrom(sh, sts, i, cx);
            && (forall k :: 0 <= k < |sts'| ==> StationOk(sts'[k]))
            && QueueOk(sh'.queue)
            && |sh'.queue| + InService(sts') + sh'.served == |sh.queue| + InService(sts) + sh.served
            && sh.served <= sh'.served && sh.remakes <= sh'.remakes
            && sh.waits <= sh'.waits && sh.events <= sh'.events
    decreases |sts| - i
  {
    if i < |sts| {
      var (sh1, st1) := StationStep(sh, sts[i], i, cx);
      StationStepInvariant(sh, sts[i], i, cx);
      InServiceUpdate(sts, i, st1);
      var sts1 := sts[i := st1];
      assert forall k :: 0 <= k < |sts1| ==> StationOk(sts1[k]);
      StationsInvariant(sh1, sts1, i + 1, cx);
    }
  }

  /** `frontReady` is computed once per tick: with the front customer at the
      counter, two idle unstalled stations in single mode both pick up in the
      same tick, the second taking the customer who was second in line. */
  lemma TwoStationsPickUpInOneTick(sh: Shop, cx: TickCtx)
    requires cx.frontReady && BatchSize(cx.lv, cx.cfg) <= 1 && |sh.queue| >= 2
    requires !(cx.draws.stallRoll(0) < StallRate(cx.lv, cx.cfg) * cx.dt)
    requires !(cx.draws.stallRoll(1) < StallRate(cx.lv, cx.cfg) * cx.dt)
    ensures var (sh', sts') := StationsFrom(sh, [IdleStation, IdleStation], 0, cx);
            && sh'.queue == sh.queue[2..]
            && sts'[0].batch == [sh.queue[0]] && sts'[1].batch == [sh.queue[1]]
  {
    var t := SingleServiceTime(cx.lv, QualityTier(cx.lv, cx.cfg));
    var st0 := IdleStation.(busy := true, batch := [sh.queue[0]], t := t);
    var st1 := IdleStation.(busy := true, batch := [sh.queue[1]], t := t);
    var sh1 := sh.(queue := sh.queue[1..]);
    assert sh.queue[1..][1..] == sh.queue[2..];
    var sh2 := sh1.(queue := sh.queue[2..]);
    var sts := [IdleStation, IdleStation];
    assert Pickup(sh, IdleStation, cx) == (sh1, st0);
    assert StationStep(sh, IdleStation, 0, cx) == (sh1, st0);
    assert Pickup(sh1, IdleStation, cx) == (sh2, st1);
    assert StationStep(sh1, IdleStation, 1, cx) == (sh2, st1);
    var sts1 := sts[0 := st0];
    var sts2 := sts1[1 := st1];
    assert StationsFrom(sh, sts, 0, cx) == StationsFrom(sh1, sts1, 1, cx);
    assert StationsFrom(sh1, sts1, 1, cx) == StationsFrom(sh2, sts2, 2, cx);
    assert StationsFrom(sh2, sts2, 2, cx) == (sh2, sts2);
  }
}
