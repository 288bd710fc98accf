/** The values the coffee-counter simulation (js/model.js) works on: customers,
    espresso stations, sound events, the bottleneck label, the level table
    entries and the player's lever settings. */
module Entities {
  import opened Utils

  /** `custType`: how impatient a customer is. */
  datatype Archetype = Rusher | Chill | Regular

  /** A customer in the queue or in a station's batch. `dist` is how far along
      the queue polyline the customer stands (0 is the counter), `targetDist`
      the slot it walks to, `pos` its drawn position. The drink order and the
      id are cosmetic and not part of the model. */
  datatype Customer = Customer(
    born: real,
    pos: Point,
    targetDist: real,
    dist: real,
    patience: real,
    patienceRate: real,
    kind: Archetype)

  /** One barista station. The drawing position `x`/`y` is written by the
      renderer and only used for cosmetic targets; it is not part of the model. */
  datatype Station = Station(busy: bool, t: real, batch: seq<Customer>, stall: real)

  /** The station `reset` and `ensureStations` create. */
  const IdleStation := Station(false, 0.0, [], 0.0)

  /** An entry of the event buffer the app drains into sound effects. */
  datatype Event = Serve | Remake | Leave | Combo

  /** The bottleneck label shown in the HUD. */
  datatype Bottleneck = OK | Bandwidth | Compute | BatchLimit | Remakes | Traffic

  /** One entry of the level table (js/levels.js), without its display texts. */
  datatype Level = Level(
    goal: nat,
    duration: real,
    trafficRps: real,
    serviceBase: real,
    bwStallBase: real,
    remakeByQ: seq<real>,
    bwContention: bool,
    unlockBatch: bool,
    unlockQuality: bool)

  /** The four levers: baristas, pantry speed, batch size and quality tier. */
  datatype Config = Config(compute: nat, bw: real, batch: nat, quality: nat)

  /** The `Math.random()` values one tick consumes, as indexed oracles:
      the archetype roll of the `k`-th arrival, the stall roll and the stall
      length roll of station `i`, and the remake roll of member `j` of the
      batch station `i` completes. */
  datatype Draws = Draws(
    arrival: nat -> real,
    stallRoll: nat -> real,
    stallLen: nat -> real,
    remakeRoll: (nat, nat) -> real)

  /** The levels table of js/levels.js. */
  const Levels: seq<Level> := [
    Level(12, 48.0, 0.85, 2.50, 0.22, [0.18, 0.10, 0.04], false, false, false),
    Level(18, 55.0, 1.15, 2.35, 0.30, [0.18, 0.10, 0.04], false, false, false),
    Level(24, 65.0, 1.40, 2.30, 0.24, [0.22, 0.12, 0.05], false, true, false),
    Level(35, 55.0, 2.20, 2.40, 0.55, [0.28, 0.16, 0.09], true, true, true)
  ]
}
