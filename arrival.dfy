/** Arrivals (js/model.js:96-136): the fractional spawn accumulator and the
    customer a spawn appends, with its archetype chosen by a random roll. */
module Arrival {
  import opened Utils
  import opened Entities

  /** Chance that an arrival is a rusher; it grows with the level and caps at 0.55. */
  function RusherChance(lvl: nat): real
  {
    Min(0.55, 0.05 + lvl as real * 0.15)
  }

  /** Chance that an arrival is chill; it shrinks with the level and floors at 0.05. */
  function ChillChance(lvl: nat): real
  {
    Max(0.05, 0.20 - lvl as real * 0.04)
  }

  /** The archetype picked by the roll `r`: below the rusher chance a rusher,
      below the sum of both chances a chill customer, otherwise a regular. */
  function ArchetypeOf(lvl: nat, r: real): (k: Archetype)
    ensures k == Rusher <==> r < RusherChance(lvl)
    ensures k == Chill <==> RusherChance(lvl) <= r < RusherChance(lvl) + ChillChance(lvl)
    ensures k == Regular <==> RusherChance(lvl) + ChillChance(lvl) <= r
  {
    if r < RusherChance(lvl) then Rusher
    else if r < RusherChance(lvl) + ChillChance(lvl) then Chill
    else Regular
  }

  /** Seconds of patience of a fresh customer of each archetype. */
  function PatienceBase(k: Archetype): real
  {
    match k
    case Rusher => 16.0
    case Chill => 42.0
    case Regular => 28.0
  }

  /** The customer `spawnCustomer` appends: standing at the back of the line,
      with full patience that drains in `PatienceBase` seconds. */
  function NewCustomer(lvl: nat, r: real, now: real, back: Point, total: real): (c: Customer)
    ensures c.dist == total && c.targetDist == total && c.pos == back && c.born == now
    ensures c.patience == 1.0
    ensures c.kind == ArchetypeOf(lvl, r)
  {
    var kind := ArchetypeOf(lvl, r);
    Customer(now, back, total, total, 1.0, 1.0 / PatienceBase(kind), kind)
  }

  /** A new customer's full patience drains in exactly `PatienceBase` seconds,
      so its drain rate lies between that of a chill customer and a rusher. */
  lemma NewCustomerPatience(lvl: nat, r: real, now: real, back: Point, total: real)
    ensures var c := NewCustomer(lvl, r, now, back, total);
            && c.patienceRate * PatienceBase(c.kind) == 1.0
            && 1.0 / 42.0 <= c.patienceRate <= 1.0 / 16.0
  {
  }

  /** The two thresholds never cover the whole unit interval: at every level at
      least 40% of the rolls give a regular customer, and a rusher is always
      possible. */
  lemma ChancesLeaveRoomForRegulars(lvl: nat)
    ensures 0.05 <= RusherChance(lvl) <= 0.55
    ensures 0.05 <= ChillChance(lvl) <= 0.20
    ensures RusherChance(lvl) + ChillChance(lvl) <= 0.60
  {
  }

  /** Later levels send rushers at least as often, and chill customers at most as often. */
  lemma ChancesByLevel(l1: nat, l2: nat)
    requires l1 <= l2
    ensures RusherChance(l1) <= RusherChance(l2)
    ensures ChillChance(l2) <= ChillChance(l1)
  {
  }

  /** How many customers the `while (spawnAcc >= 1)` loop spawns from the
      accumulator value `acc`. */
  function SpawnCount(acc: real): (k: nat)
    ensures acc - k as real < 1.0
    ensures 1.0 <= acc ==> 0.0 <= acc - k as real
    ensures acc < 1.0 ==> k == 0
  {
    if acc < 1.0 then 0 else acc.Floor
  }

  /** One pass of the loop body takes exactly one unit off the count. */
  lemma SpawnCountStep(acc: real)
    requires 1.0 <= acc
    ensures SpawnCount(acc - 1.0) + 1 == SpawnCount(acc)
  {
  }

  /** The queue after `k` spawns, the `j`-th arrival using roll `draws.arrival(j)`. */
  function Spawned(q: seq<Customer>, lvl: nat, draws: Draws, now: real, back: Point, total: real, k: nat): (r: seq<Customer>)
    ensures |r| == |q| + k
  {
    if k == 0 then q
    else
      var prev := Spawned(q, lvl, draws, now, back, total, k - 1);
      prev + [NewCustomer(lvl, draws.arrival(k - 1), now, back, total)]
  }

  /** Spawning keeps the waiting customers in front and appends the `k` new
      ones in arrival order, the `j`-th built from roll `draws.arrival(j)`. */
  lemma {:induction false} SpawnedAppends(q: seq<Customer>, lvl: nat, draws: Draws, now: real, back: Point, total: real, k: nat)
    ensures var r := Spawned(q, lvl, draws, now, back, total, k);
            && r[..|q|] == q
            && forall j :: 0 <= j < k ==> r[|q| + j] == NewCustomer(lvl, draws.arrival(j), now, back, total)
  {
    if k > 0 {
      SpawnedAppends(q, lvl, draws, now, back, total, k - 1);
    }
  }

  // ---------------------------------------------------------------------
  // The accumulator over many ticks

  /** Customers spawned over ticks whose accumulator increments
      (`trafficRps * dt`) are `incs`, starting from `acc`. */
  function TotalSpawned(acc: real, incs: seq<real>): nat
  {
    if |incs| == 0 then 0
    else
      var before := TotalSpawned(acc, incs[..|incs| - 1]);
      var left := acc + Sum(incs[..|incs| - 1]) - before as real;
      before + SpawnCount(left + incs[|incs| - 1])
  }

  /** Over any run of ticks with non-negative increments, the number of customers
      spawned is the whole part of everything accumulated, and the remainder the
      accumulator keeps stays in [0, 1). */
  lemma {:induction false} TotalSpawnedIsFloor(acc: real, incs: seq<real>)
    requires 0.0 <= acc < 1.0
    requires forall i :: 0 <= i < |incs| ==> 0.0 <= incs[i]
    ensures TotalSpawned(acc, incs) == (acc + Sum(incs)).Floor
    ensures 0.0 <= acc + Sum(incs) - TotalSpawned(acc, incs) as real < 1.0
  {
    if |incs| > 0 {
      var init := incs[..|incs| - 1];
      TotalSpawnedIsFloor(acc, init);
      var before := TotalSpawned(acc, init);
      var left := acc + Sum(init) - before as real;
      var x := left + incs[|incs| - 1];
      assert acc + Sum(incs) == before as real + x;
      if x < 1.0 {
        assert SpawnCount(x) == 0;
      } else {
        assert SpawnCount(x) == x.Floor;
      }
    }
  }
}
