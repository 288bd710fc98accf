/** The game rules of js/app.js around the simulation: the star rating, the
    win/lose check and its escalating bandwidth-wall page, level selection,
    the speed button, the frame loop's time step, the event drain and the
    layout arithmetic of `geom` with the serpentine line path. */
module App {
  import opened Utils
  import opened Entities
  import opened Stepper
  import opened Simulation

  // ---------------------------------------------------------------------
  // Star rating

  /** Remakes as a share of all outcomes; 0 before the first outcome. */
  function RemakeRate(served: nat, remakes: nat): (r: real)
    ensures served + remakes == 0 ==> r == 0.0
    ensures 0.0 <= r <= 1.0
    ensures remakes == 0 ==> r == 0.0
  {
    if served + remakes > 0 then remakes as real / (served + remakes) as real else 0.0
  }

  /** `timePct > 0.10` with `timePct = max(0, tLeft) / duration`. A zero
      duration divides to +Infinity when time is left (which passes) and to NaN
      when it is not (which fails); a negative duration never passes. */
  predicate TimeLeftOk(tLeft: real, duration: real)
  {
    if duration > 0.0 then Max(0.0, tLeft) / duration > 0.10
    else if duration == 0.0 then Max(0.0, tLeft) > 0.0
    else false
  }

  /** The conditions for two stars. */
  predicate TwoStarRun(p95: Option<real>, served: nat, remakes: nat, lost: nat)
  {
    p95.Some? && p95.value < 8.0 && RemakeRate(served, remakes) < 0.25 && lost <= 3
  }

  /** The conditions for three stars. */
  predicate ThreeStarRun(p95: Option<real>, served: nat, remakes: nat, lost: nat, tLeft: real, duration: real)
  {
    p95.Some? && p95.value < 5.0 && RemakeRate(served, remakes) < 0.15 && lost == 0
    && TimeLeftOk(tLeft, duration)
  }

  /** `calcStars`: start at one star, raise to two, then to three. */
  function Stars(p95: Option<real>, served: nat, remakes: nat, lost: nat, tLeft: real, duration: real): (stars: nat)
    ensures 1 <= stars <= 3
    ensures p95.None? ==> stars == 1
    ensures stars == 3 <==> ThreeStarRun(p95, served, remakes, lost, tLeft, duration)
    ensures stars == 2 <==>
              !ThreeStarRun(p95, served, remakes, lost, tLeft, duration) && TwoStarRun(p95, served, remakes, lost)
  {
    var s1 := 1;
    var s2 := if TwoStarRun(p95, served, remakes, lost) then 2 else s1;
    if ThreeStarRun(p95, served, remakes, lost, tLeft, duration) then 3 else s2
  }

  /** A three-star run also meets every two-star condition, so the second
      raise never undoes the first. */
  lemma ThreeStarsMeetTwo(p95: Option<real>, served: nat, remakes: nat, lost: nat, tLeft: real, duration: real)
    requires ThreeStarRun(p95, served, remakes, lost, tLeft, duration)
    ensures TwoStarRun(p95, served, remakes, lost)
  {
  }

  /** A run that is no worse on every measure (a recorded P95 no longer, a
      remake rate no higher, no more lost customers, the time condition kept)
      never earns fewer stars. */
  lemma StarsMonotone(p95: Option<real>, served: nat, remakes: nat, lost: nat, tLeft: real, duration: real,
                      p95': Option<real>, served': nat, remakes': nat, lost': nat, tLeft': real, duration': real)
    requires p95.Some? ==> p95'.Some? && p95'.value <= p95.value
    requires RemakeRate(served', remakes') <= RemakeRate(served, remakes)
    requires lost' <= lost
    requires TimeLeftOk(tLeft, duration) ==> TimeLeftOk(tLeft', duration')
    ensures Stars(p95, served, remakes, lost, tLeft, duration) <= Stars(p95', served', remakes', lost', tLeft', duration')
  {
  }

  // ---------------------------------------------------------------------
  // Win and lose

  /** The title of the bandwidth-wall lose page. */
  datatype WallTitle = TimesUp | BandwidthWall | HardwareLimit

  /** Which lose page opens: the normal one, or the bandwidth-wall page with
      its title and whether it carries the "HARDWARE LIMIT" tag. */
  datatype LosePage = NormalLose | WallLose(title: WallTitle, hardwareTag: bool)

  /** The outcome of `checkWinLose`. */
  datatype Verdict = Continue | Won | Lost(page: LosePage)

  /** The bandwidth-wall page for the `attempts`-th failure: the title escalates
      at the second and third attempt, and the tag appears from the third on. */
  function WallPage(attempts: nat): (p: LosePage)
    ensures p.WallLose?
    ensures p.title == TimesUp <==> attempts <= 1
    ensures p.title == BandwidthWall <==> attempts == 2
    ensures p.title == HardwareLimit <==> attempts >= 3
    ensures p.hardwareTag <==> attempts >= 3
  {
    var title := if attempts <= 1 then TimesUp else if attempts <= 2 then BandwidthWall else HardwareLimit;
    WallLose(title, attempts >= 3)
  }

  /** The page order, for the escalation lemma. */
  function TitleRank(t: WallTitle): nat
  {
    match t
    case TimesUp => 0
    case BandwidthWall => 1
    case HardwareLimit => 2
  }

  /** Trying again never softens the bandwidth-wall page, and once the tag has
      appeared it stays. */
  lemma WallEscalates(a1: nat, a2: nat)
    requires a1 <= a2
    ensures TitleRank(WallPage(a1).title) <= TitleRank(WallPage(a2).title)
    ensures WallPage(a1).hardwareTag ==> WallPage(a2).hardwareTag
  {
  }

  /** `checkWinLose` on a state with `priorAttempts` earlier bandwidth-wall
      failures: nothing while paused; a reached goal wins even when the time is
      up; otherwise an expired countdown loses, on the bandwidth-wall page
      exactly when the level has pantry contention. */
  function Decide(running: bool, served: nat, goal: nat, tLeft: real, bwContention: bool, priorAttempts: nat): (v: Verdict)
    ensures !running ==> v == Continue
    ensures running && served >= goal ==> v == Won
    ensures v == Won <==> running && served >= goal
    ensures v.Lost? <==> running && served < goal && tLeft <= 0.0
    ensures v.Lost? ==> (v.page.WallLose? <==> bwContention)
    ensures v.Lost? && bwContention ==> v.page == WallPage(priorAttempts + 1)
  {
    if !running then Continue
    else if served >= goal then Won
    else if tLeft <= 0.0 then Lost(if bwContention then WallPage(priorAttempts + 1) else NormalLose)
    else Continue
  }

  /** Whether a verdict opens the bandwidth-wall page, which counts an attempt. */
  predicate CountsAttempt(v: Verdict)
  {
    v.Lost? && v.page.WallLose?
  }

  // ---------------------------------------------------------------------
  // Levels, speed and the time step

  /** `U.clamp(i, 0, count - 1)` on a level index: `max(0, min(count - 1, i))`. */
  function LevelIndex(i: int, count: nat): (r: int)
    ensures r as real == Clamp(i as real, 0.0, (count - 1) as real)
    ensures count > 0 ==> 0 <= r < count
    ensures 0 <= i < count ==> r == i
    ensures count == 0 ==> r == 0
  {
    var m := if count - 1 <= i then count - 1 else i;
    if 0 >= m then 0 else m
  }

  /** The speed table. */
  const Speeds: seq<real> := [1.0, 2.0, 3.0]

  /** The speed button's next index. */
  function NextSpeed(i: nat): (j: nat)
    ensures j < |Speeds|
    ensures i + 1 < |Speeds| ==> j == i + 1
  {
    (i + 1) % |Speeds|
  }

  /** From any index the speed button walks 1x, 2x, 3x in turn and comes back
      after three presses. */
  lemma SpeedCycle(i: nat)
    requires i < |Speeds|
    ensures NextSpeed(NextSpeed(NextSpeed(i))) == i
    ensures Speeds[NextSpeed(i)] == if i == 2 then 1.0 else Speeds[i] + 1.0
  {
  }

  /** The simulated time step of a frame: the elapsed wall time in seconds,
      capped at 50 ms, times the speed multiplier. */
  function FrameDt(elapsedMs: real, mult: real): (dt: real)
    ensures 0.0 <= mult && elapsedMs <= 50.0 ==> dt == elapsedMs / 1000.0 * mult
    ensures 0.0 <= mult && elapsedMs >= 50.0 ==> dt == 0.05 * mult
  {
    Min(0.05, elapsedMs / 1000.0) * mult
  }

  /** A tick never simulates more than 50 ms per unit of speed, so at most
      0.15 s at the top speed, and never negative time when the clock does
      not run backwards. */
  lemma FrameDtBounded(elapsedMs: real, i: nat)
    requires i < |Speeds|
    ensures FrameDt(elapsedMs, Speeds[i]) <= 0.05 * Speeds[i] <= 0.15
    ensures 0.0 <= elapsedMs ==> 0.0 <= FrameDt(elapsedMs, Speeds[i])
  {
    var m := Min(0.05, elapsedMs / 1000.0);
    assert m <= 0.05;
    assert Speeds[i] == 1.0 || Speeds[i] == 2.0 || Speeds[i] == 3.0;
  }

  // ---------------------------------------------------------------------
  // Layout

  datatype Rect = Rect(x: real, y: real, w: real, h: real)
  {
    function Right(): real { x + w }
    function Bottom(): real { y + h }
  }

  datatype Layout = Layout(queue: Rect, counter: Rect, bar: Rect, pantry: Rect,
                           pickup: Rect, remake: Rect, worldBottom: real)

  const Pad := 24.0
  const TopY := 110.0
  const FooterH := 170.0

  /** The top of the footer zones and the bottom of the playfield. */
  function FooterY(H: real): real { H - FooterH - Pad }
  function MainBottom(H: real): real { FooterY(H) - 12.0 }

  /** `geom(W, H)`. */
  function Geom(W: real, H: real): Layout
  {
    var mainBottom := MainBottom(H);
    var q0 := Rect(Pad, TopY, W * 0.44, Max(260.0, mainBottom - TopY));
    var queue := q0.(h := Min(q0.h, mainBottom - q0.y));
    var counter := Rect(queue.x + queue.w + 14.0, queue.y, W * 0.10, 100.0);
    var b0 := Rect(queue.x + queue.w + 14.0, queue.y + 120.0, W * 0.32, 280.0);
    var bar := b0.(h := Min(b0.h, Max(180.0, mainBottom - b0.y)));
    var pantry := Rect(bar.x + bar.w + 14.0, bar.y, 130.0, 110.0);
    var zoneW := Min(250.0, (W - Pad * 3.0) / 2.0);
    var zoneH := FooterH - 20.0;
    var remake := Rect(Pad, FooterY(H), zoneW, zoneH);
    var pickup := Rect(W - Pad - zoneW, FooterY(H), zoneW, zoneH);
    Layout(queue, counter, bar, pantry, pickup, remake, H)
  }

  /** The footer zones never overlap: the remake zone ends at least `pad` left
      of the pickup zone, both sit on the footer line below the playfield, and
      both end 44 above the bottom of the world. The queue box ends exactly on the
      playfield's bottom line, the counter and the bar start 14 right of it, the
      counter ends 20 above the bar, and the pantry starts 14 right of the bar. */
  lemma FooterZonesApart(W: real, H: real)
    ensures var g := Geom(W, H);
            && g.remake.Right() + Pad <= g.pickup.x
            && g.remake.y == g.pickup.y == MainBottom(H) + 12.0
            && g.remake.Bottom() == g.pickup.Bottom() == H - 44.0
            && g.queue.Bottom() == MainBottom(H)
            && g.counter.x == g.bar.x == g.queue.Right() + 14.0
            && g.counter.Bottom() + 20.0 == g.bar.y
            && g.pantry.x == g.bar.Right() + 14.0
  {
    var zoneW := Min(250.0, (W - Pad * 3.0) / 2.0);
    assert 2.0 * zoneW <= W - 3.0 * Pad;
  }

  /** The bar keeps at least 180 of height, so on a canvas shorter than 604 it
      reaches into the footer line, and shorter than 616 it passes the
      playfield's bottom; from 616 on it stays inside the playfield. */
  lemma BarAgainstFooter(W: real, H: real)
    ensures H < 604.0 ==> Geom(W, H).bar.Bottom() > FooterY(H)
    ensures H < 616.0 ==> Geom(W, H).bar.Bottom() > MainBottom(H)
    ensures H >= 616.0 ==> Geom(W, H).bar.Bottom() <= MainBottom(H)
  {
  }

  /** `linePathFor(g)`: a serpentine of three rows inside the queue box. */
  function LinePath(g: Layout): (pts: seq<Point>)
    ensures |pts| == 8
  {
    var q := g.queue;
    var xL := q.x + 24.0;
    var xR := q.x + q.w - 24.0;
    var yTop := q.y + 58.0;
    var yBot := q.y + q.h - 18.0;
    var rowH := (yBot - yTop) / 3.0;
    [Point(xR, yTop), Point(xL, yTop), Point(xL, yTop + rowH), Point(xR, yTop + rowH),
     Point(xR, yTop + 2.0 * rowH), Point(xL, yTop + 2.0 * rowH), Point(xL, yBot), Point(xR, yBot)]
  }

  /** The line runs in alternating horizontal legs joined by vertical ones: the
      counter end of the line is at the top right of the box, the entrance at
      the bottom right, and every leg keeps either its x or its y. */
  lemma LinePathShape(g: Layout)
    ensures var pts := LinePath(g);
            && pts[0] == Point(g.queue.Right() - 24.0, g.queue.y + 58.0)
            && pts[7] == Point(g.queue.Right() - 24.0, g.queue.Bottom() - 18.0)
            && forall i :: 0 <= i < 7 ==> pts[i].x == pts[i + 1].x || pts[i].y == pts[i + 1].y
  {
    var pts := LinePath(g);
    assert forall i :: 0 <= i < 7 ==> pts[i].x == pts[i + 1].x || pts[i].y == pts[i + 1].y by {
      forall i | 0 <= i < 7
        ensures pts[i].x == pts[i + 1].x || pts[i].y == pts[i + 1].y
      {
        assert i == 0 || i == 1 || i == 2 || i == 3 || i == 4 || i == 5 || i == 6;
      }
    }
  }

  // ---------------------------------------------------------------------
  // The app's own state

  /** The closure state of the app around the shared simulation state. */
  class Game {
    const state: State
    const levels: seq<Level>
    var levelIdx: int
    var speedIdx: nat
    var speedMult: real
    var last: real

    /** The current level exists and the multiplier is the one the speed index names. */
    predicate Valid()
      reads this
    {
      && 0 < |levels|
      && 0 <= levelIdx < |levels|
      && speedIdx < |Speeds|
      && speedMult == Speeds[speedIdx]
    }

    function Level(): Level
      reads this
      requires Valid()
    {
      levels[levelIdx]
    }

    /** The app at load time, before `setLevel(0)`: level 0, speed 1x, the
        frame clock at `start`. */
    constructor(table: seq<Level>, start: real)
      requires 0 < |table|
      ensures Valid() && fresh(state)
      ensures levels == table && levelIdx == 0 && speedIdx == 0 && last == start
      ensures !state.running && state.lv4Attempts == 0
    {
      state := new State();
      levels := table;
      levelIdx := 0;
      speedIdx := 0;
      speedMult := 1.0;
      last := start;
    }

    /** `setLevel(i)`: clamp the index into the table, clear the attempt
        counter only when the level actually changes, and reset the simulation
        for the new level with the levers `c`. */
    method SetLevel(i: int, c: Config)
      requires Valid()
      modifies this`levelIdx, state
      ensures Valid()
      ensures levelIdx == LevelIndex(i, |levels|)
      ensures state.lv4Attempts == if levelIdx != old(levelIdx) then 0 else old(state.lv4Attempts)
      ensures state.Snapshot() == ResetSim(old(state.Snapshot()), Level(), c).(levelIdx := levelIdx)
      ensures !state.running
    {
      var prev := levelIdx;
      levelIdx := LevelIndex(i, |levels|);
      if levelIdx != prev {
        state.lv4Attempts := 0;
      }
      state.Reset(levels[levelIdx], c);
      state.levelIdx := levelIdx;
    }

    /** The Reset button: the same level again, with the current levers; the
        attempt counter is kept. */
    method Restart(c: Config)
      requires Valid()
      modifies state
      ensures state.Snapshot() == ResetSim(old(state.Snapshot()), Level(), c)
      ensures !state.running && state.lv4Attempts == old(state.lv4Attempts)
    {
      state.Reset(levels[levelIdx], c);
    }

    /** The GO button. */
    method Go()
      modifies state`running
      ensures state.running
    {
      state.running := true;
    }

    /** The Pause button. */
    method Pause()
      modifies state`running
      ensures !state.running
    {
      state.running := false;
    }

    /** The speed button: the next entry of the speed table. */
    method CycleSpeed()
      requires Valid()
      modifies this`speedIdx, this`speedMult
      ensures Valid()
      ensures speedIdx == NextSpeed(old(speedIdx)) && speedMult == Speeds[speedIdx]
    {
      speedIdx := (speedIdx + 1) % |Speeds|;
      speedMult := Speeds[speedIdx];
    }

    /** `checkWinLose`: decide, stop on either outcome, and count an attempt
        when the bandwidth-wall page opens. */
    method CheckWinLose() returns (v: Verdict)
      requires Valid()
      modifies state`running, state`lv4Attempts
      ensures v == Decide(old(state.running), state.served, Level().goal, state.tLeft,
                          Level().bwContention, old(state.lv4Attempts))
      ensures state.running == (old(state.running) && v == Continue)
      ensures state.lv4Attempts == old(state.lv4Attempts) + (if CountsAttempt(v) then 1 else 0)
    {
      var lv := levels[levelIdx];
      if !state.running {
        return Continue;
      }
      if state.served >= lv.goal {
        state.running := false;
        return Won;
      }
      if state.tLeft <= 0.0 {
        state.running := false;
        if lv.bwContention {
          state.lv4Attempts := state.lv4Attempts + 1;
          v := Lost(WallPage(state.lv4Attempts));
        } else {
          v := Lost(NormalLose);
        }
        return;
      }
      return Continue;
    }

    /** `processEvents`: every buffered event is dispatched in order, and the
        buffer is left empty. */
    method ProcessEvents() returns (played: seq<Event>)
      modifies state`events
      ensures played == old(state.events) && state.events == []
    {
      played := [];
      var evs := state.events;
      for k := 0 to |evs|
        invariant played == evs[..k]
      {
        played := played + [evs[k]];
      }
      assert evs[..|evs|] == evs;
      state.events := [];
    }

    /** The running part of a frame: one step of `dt` and the event drain,
        or nothing at all while the game is paused or over. */
    method Advance(dt: real, lv: Level, c: Config, pts: seq<Point>, lens: PathLens,
                   now: real, draws: Draws, hypot: (real, real) -> real) returns (played: seq<Event>)
      requires |pts| >= 1 && |lens.seg| >= |pts| - 1
      modifies state`tLeft, state`queue, state`stations, state`spawnAcc, state`served, state`remakes, state`lost
      modifies state`serveStreak, state`waitSamples, state`p95Cached, state`bottleneck, state`events
      ensures state.running ==>
                var s := StepSpec(old(state.Snapshot()), dt, lv, c, pts, lens, now, draws, hypot);
                state.Snapshot() == s.(events := []) && played == s.events
      ensures !state.running ==> state.Snapshot() == old(state.Snapshot()) && played == []
    {
      played := [];
      if state.running {
        state.Step(dt, lv, c, pts, lens, now, draws, hypot);
        played := ProcessEvents();
      }
    }

    /** The line path of a `W` x `H` canvas and its length table, as every
        frame recomputes them. */
    static method Track(W: real, H: real, hypot: (real, real) -> real) returns (pts: seq<Point>, lens: PathLens)
      requires IsHypot(hypot)
      ensures pts == LinePath(Geom(W, H)) && Measures(pts, lens)
      ensures forall i :: 0 <= i < |lens.seg| ==> lens.seg[i] == SegLen(pts, hypot, i)
    {
      pts := LinePath(Geom(W, H));
      lens := PathLengths(pts, hypot);
    }

    /** `loop(ts)` on the line `pts` with lengths `lens` and the levers `c`:
        the elapsed time is capped at 50 ms and scaled by the speed; the step
        runs, and its events are drained, only while the game is running; the
        win/lose check runs on every frame. */
    method Loop(ts: real, c: Config, pts: seq<Point>, lens: PathLens, now: real, draws: Draws, hypot: (real, real) -> real)
      returns (dt: real, played: seq<Event>, v: Verdict)
      requires Valid() && |pts| >= 1 && |lens.seg| >= |pts| - 1
      modifies this`last, state
      ensures last == ts && dt == FrameDt(ts - old(last), speedMult)
      ensures old(state.running) ==>
                var s := StepSpec(old(state.Snapshot()), dt, Level(), c, pts, lens, now, draws, hypot);
                state.Snapshot() == s.(events := []) && played == s.events
      ensures !old(state.running) ==> state.Snapshot() == old(state.Snapshot()) && played == []
      ensures v == Decide(old(state.running), state.served, Level().goal, state.tLeft,
                          Level().bwContention, old(state.lv4Attempts))
      ensures state.running == (old(state.running) && v == Continue)
      ensures state.lv4Attempts == old(state.lv4Attempts) + (if CountsAttempt(v) then 1 else 0)
    {
      var rawDt := Min(0.05, (ts - last) / 1000.0);
      last := ts;
      dt := rawDt * speedMult;
      var lv := levels[levelIdx];
      played := Advance(dt, lv, c, pts, lens, now, draws, hypot);
      v := CheckWinLose();
    }
  }
}
