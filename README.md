# Coffee-counter roofline simulation, modelled in Dafny

This is a model of the simulation core of a small browser game. The game
teaches the roofline model: a coffee counter has baristas (compute), a shared
pantry (memory bandwidth), batch brewing and a quality setting. A player tunes
these levers to serve a goal number of customers before the countdown runs out.

The model covers:

- **the stepper** (`js/model.js`): the state, `reset`, `ensureStations`,
  `spawnCustomer` and one tick of `step`. The tick runs these stages in order:
  - the fractional arrival accumulator;
  - slot assignment and walking along the serpentine line;
  - patience drain and abandonment;
  - the station loop, each station stalled, idle (single or batch pickup) or
    busy (completion with served or remade outcomes);
  - the P95 cache, the fixed-priority bottleneck label and the countdown.
- **the helpers it uses** (`js/utils.js`): `clamp`, `qname`, the interpolated
  `quantile`, `pathLengths` and `pointOnPath`.
- **the game rules around it** (`js/app.js`):
  - the star rating and `checkWinLose` with its escalating bandwidth-wall
    page;
  - `setLevel`, the reset, GO, pause and speed buttons;
  - the frame loop's time step and the event drain;
  - the layout arithmetic of `geom` and `linePathFor`.

Module layout, one module per file:

| module | file | contents |
|---|---|---|
| `Utils` | utils.dfy | the helpers of js/utils.js, on `real` numbers |
| `Entities` | entities.dfy | customers, stations, events, levels, levers, random draws |
| `Arrival` | arrival.dfy | the arrival accumulator and the new customer |
| `QueueMotion` | queue_motion.dfy | slots, walking, patience drain |
| `Contention` | contention.dfy | effective batch and quality, stall rate, service times |
| `Scheduler` | scheduler.dfy | one station's turn and the whole station loop |
| `Metrics` | metrics.dfy | the P95 cache and the bottleneck label |
| `Stepper` | stepper.dfy | the state as a value (`Sim`), `reset`, the stages of a tick, and the tick lemmas |
| `Simulation` | state.dfy | class `State` with the methods that update it in place |
| `App` | app.dfy | the rules of js/app.js and class `Game` |

How `step` is modelled:

- `step` mutates a `State` object, so `Simulation.State` is a class with one
  field per simulated field of the source.
- Each stage of `step` is a method with a `while` or `for` loop, like the
  source's loops. It is proved to leave the state that a pure stage function of
  `Stepper` describes. For example, `DrainPatience` runs the back-to-front
  splice loop and is proved to give `DrainStage`.
- `State.Step` is proved to give `StepSpec`, the composition of the stages.
  The properties of a tick are lemmas about `StepSpec`:
  - the state stays healthy;
  - customers are conserved;
  - counters only grow, and the buffers are only appended to;
  - the countdown drops by exactly `dt`.
- Randomness is a `Draws` value of four indexed oracles: the archetype roll of
  the `k`-th arrival, the stall roll and the stall-length roll of station `i`,
  and the remake roll of member `j` of station `i`'s batch. The clock `U.now()`
  is a `now` parameter, read once for the whole tick (see "## Left out"). `Math.hypot` is a function parameter. Where a property
  needs it to be a true hypotenuse, the lemma or method requires `IsHypot`:
  non-negative, at least either leg, and squaring to `dx² + dy²`.

Where the source and a plain reading of the game differ, the model follows the
source:

- The stall base clamps `(bw - 0.6) / 1.4` only from above (`min(0.9, …)`).
  A pantry slower than 0.6 therefore makes stalls more likely than the
  starting factor 1.25 (`Contention.StallFactor`).
- Every unstalled station rolls for a stall, busy or not. A busy station that
  stalls keeps its timer and batch, so its service pauses rather than being
  uninterruptible (`Scheduler.StallRollPausesService`).
- `frontReady` is computed once before the station loop. Two idle stations can
  both pick up in the same tick (`Scheduler.TwoStationsPickUpInOneTick`).
  A batch size of 1 takes the single-customer branch.
- Shrinking the station array drops the truncated stations together with the
  customers in their batches. They are neither served nor lost
  (`Stepper.InServiceResized`). The conservation lemma counts customers in
  service after the resize.
- A quality tier outside `remakeByQ` reads `undefined` in the source, and
  `roll < undefined` is false, so such a tier never remakes (`Contention.Remade`).
- The bar of `geom` keeps at least 180 of height. On a canvas shorter than 604
  it therefore reaches into the footer line, although the source's comment says
  the zones never overlap. The footer zones themselves never overlap
  (`App.BarAgainstFooter`, `App.FooterZonesApart`).

## Model

| member | source | states |
|---|---|---|
| Utils.Clamp | js/utils.js:2 | the result lies in [a, b] when a ≤ b, is x itself when x is already inside, and is always one of a, b, x |
| Utils.QName | js/utils.js:3 | "Low" exactly for 0, "Medium" exactly for 1, "High" for anything else |
| Utils.Max1 | js/model.js:185 | `max(1, n)` is at least 1 and at least n |
| Utils.PathLengths | js/utils.js:42-53 | one length per segment (none for an empty line), each the hypotenuse of its segment and non-negative, the total their sum; the table is a faithful measure of the line (zero only between equal points) |
| Utils.PointAt | js/utils.js:55-69 | definition of `pointOnPath` as a function: the distance clamped to [0, total], then a linear interpolation on the first segment that covers it, and the last point when none does; properties in `Utils.PointOnPath`, `Utils.PointAtStart`, `Utils.PointAtEnd` and `Utils.PointAtFirstFit` |
| Utils.PointOnPath | js/utils.js:55-69 | the loop that clamps and then walks the segments returns exactly the point `PointAt` specifies |
| Utils.PointAtStart | js/utils.js:55-56 | a distance at or before 0 gives the first point |
| Utils.PointAtEnd | js/utils.js:56-68 | a distance at or past the total gives the last point |
| Utils.PointAtFirstFit | js/utils.js:57-63 | the point lies in the first segment whose end reaches the distance, at `a + (b - a) t` with t in [0, 1]; a zero-length segment gives its start point |
| Utils.SortAsc | js/utils.js:33 | the sorted copy has the same length and the same multiset of values as the input, in ascending order |
| Utils.SortAscOfSorted | js/utils.js:33 | sorting an already sorted sequence returns it unchanged |
| Utils.SortedEnds | js/utils.js:33 | the first and last elements of the sorted copy are the minimum and the maximum of the input |
| Utils.Ceil | js/utils.js:36 | the least integer at or above x; equal to the floor exactly on integers |
| Utils.Rank | js/utils.js:34 | the rank `(n - 1) q` lies in [0, n - 1] for q in [0, 1] |
| Utils.InterpShape | js/utils.js:35-39 | at a fractional index, the interpolation of a sorted sequence is `a[lo] (1 - t) + a[lo + 1] t` (just `a[lo]` at the end) and lies between `a[floor]` and `a[ceil]` |
| Utils.Quantile | js/utils.js:31-40 | definition of `quantile`: 0 for an empty array, else the value at rank `(n - 1) q` of the sorted copy, interpolated between floor and ceiling; properties in `Utils.QuantileEmpty`, `Utils.QuantileAtRank`, `Utils.QuantileOfSorted`, `Utils.QuantileBounds` and `Utils.QuantileMonotone` |
| Utils.QuantileEmpty | js/utils.js:32 | the quantile of an empty array is 0 |
| Utils.QuantileAtRank | js/utils.js:34-37 | when `(n - 1) q` is a whole number k, the quantile is exactly the k-th order statistic |
| Utils.QuantileOfSorted | js/utils.js:31-40 | on a sorted input the quantile interpolates the input itself |
| Utils.QuantileOneToFive | js/utils.js:31-40 | the 0.95 quantile of [1, 2, 3, 4, 5] is 4.8 |
| Utils.QuantileBounds | js/utils.js:31-40 | for q in [0, 1] and a non-empty array the quantile lies between the minimum and the maximum |
| Utils.QuantileMonotone | js/utils.js:34-39 | the quantile never decreases as q grows |
| Arrival.ArchetypeOf | js/model.js:101-112 | rusher iff the roll is below the rusher chance, chill iff it is between that and the sum of both chances, regular otherwise |
| Arrival.RusherChance | js/model.js:102 | definition `min(0.55, 0.05 + 0.15 lvl)`; properties in `Arrival.ArchetypeOf`, `Arrival.ChancesLeaveRoomForRegulars` and `Arrival.ChancesByLevel` |
| Arrival.ChillChance | js/model.js:103 | definition `max(0.05, 0.20 - 0.04 lvl)`; properties in `Arrival.ArchetypeOf`, `Arrival.ChancesLeaveRoomForRegulars` and `Arrival.ChancesByLevel` |
| Arrival.PatienceBase | js/model.js:106-112 | definition: 16, 42 and 28 seconds for rusher, chill and regular; properties in `Arrival.NewCustomerPatience` |
| Arrival.NewCustomer | js/model.js:114-125 | the new customer stands at the back of the line (`dist = targetDist = total`, drawn at the back point), with full patience, born now, of the rolled archetype |
| Arrival.NewCustomerPatience | js/model.js:105-123 | the drain rate times the archetype's base (16, 42, 28) is 1, so it lies in [1/42, 1/16] |
| Arrival.ChancesLeaveRoomForRegulars | js/model.js:102-103 | the rusher chance lies in [0.05, 0.55], the chill chance in [0.05, 0.20], their sum at most 0.60 |
| Arrival.ChancesByLevel | js/model.js:102-103 | later levels have no lower rusher chance and no higher chill chance |
| Arrival.SpawnCount | js/model.js:133-136 | the spawn loop runs k times, leaving an accumulator below 1, non-negative when it started at 1 or more, and k = 0 below 1 |
| Arrival.SpawnCountStep | js/model.js:133-136 | one pass of the loop body takes exactly one off the remaining count |
| Arrival.Spawned | js/model.js:133-135 | k spawns lengthen the queue by exactly k |
| Arrival.SpawnedAppends | js/model.js:133-135 | spawning keeps the waiting customers in front and appends the k new ones in arrival order, the j-th from the j-th roll |
| Arrival.TotalSpawnedIsFloor | js/model.js:132-136 | over any run of ticks with non-negative increments, the customers spawned are the whole part of everything accumulated, and the remainder stays in [0, 1) |
| QueueMotion.Slotted | js/model.js:139-142 | every customer's target becomes `min(total, 46 i)` for its index i, and nothing else changes |
| QueueMotion.SlotsOrdered | js/model.js:139-142 | slots lie in [0, total], the head's slot is 0, and slots never decrease toward the back |
| QueueMotion.Walked | js/model.js:146-154 | definition of one customer's walk toward its slot; properties in `QueueMotion.WalkNeverOvershoots` |
| QueueMotion.WalkNeverOvershoots | js/model.js:145-154 | a customer within 1 of its slot is untouched; any other moves toward it by the smaller of its distance to the slot and `110 dt`, never past it, is drawn at the new distance, and keeps its other fields |
| QueueMotion.WalkedAll | js/model.js:146-154 | the walking loop walks every customer, in place |
| QueueMotion.DrainedAll | js/model.js:157-159 | every customer's patience drops by `patienceRate * dt` |
| QueueMotion.Drained | js/model.js:159 | definition `patience - patienceRate * dt`, other fields unchanged; properties in `QueueMotion.DrainedAll`, `QueueMotion.SurvivorsInOrder` and `QueueMotion.SurvivorsPatienceBounded` |
| QueueMotion.LeaveCount | js/model.js:160-163 | definition: the queue length less the survivors; properties in `QueueMotion.SurvivorsInOrder` and `QueueMotion.LeaveCountPrefix` (the number of positions that ran out) and `Stepper.DrainAccounting` |
| QueueMotion.Survivors | js/model.js:157-163 | the customers left after the drain are no more than before and all have positive patience |
| QueueMotion.SurvivorsInOrder | js/model.js:157-170 | the survivors are the drained queue with exactly the non-positive ones removed, in their original order: a subsequence of the drained queue in which every drained customer with positive patience occurs as often as in the queue and no other occurs, and the number of leavers equals the number of positions whose drained patience is at most 0 |
| QueueMotion.SurvivorsMultiplicity | js/model.js:157-164 | each drained customer with positive patience is kept as many times as it occurs, and every other is dropped, so equal same-tick arrivals are counted one by one |
| QueueMotion.LeaveCountPrefix | js/model.js:157-164 | among the first n customers, the number who leave is the number of positions whose drained patience is at most 0 |
| QueueMotion.SurvivorsPatienceBounded | js/model.js:159-160 | with dt ≥ 0 nobody gains patience, so survivors keep patience in (0, 1] |
| QueueMotion.LeaveAt | js/model.js:157-164 | a step of the back-to-front loop that splices out an exhausted customer leaves the processed suffix as `Survivors` says, with one more leaver |
| QueueMotion.KeepAt | js/model.js:157-160 | a step that keeps the customer writes back its drained copy, as `Survivors` says, with no more leavers |
| Contention.QSlow | js/model.js:177 | the slowdown is 0.92, 1.00 and 1.18 for Low, Medium and High |
| Contention.Remade | js/model.js:260 | definition of `Math.random() < remakeByQ[q]` (the table read at js/model.js:175), false for a tier outside the table; properties in `Scheduler.CompleteOneOutcome` and `Scheduler.CompleteAccounting` |
| Contention.BatchEff | js/model.js:178 | the batch efficiency lies in [0.75, 1] and is 1 for batches of at most 1 |
| Contention.BatchEffMonotone | js/model.js:178 | a larger batch never has a higher efficiency factor |
| Contention.StallFactor | js/model.js:181 | the factor is at least 0.35, exceeds 1.25 for a pantry slower than 0.6 (no lower clamp), and is 0.35 from 1.86 on |
| Contention.StallFactorMonotone | js/model.js:181 | a faster pantry never raises the stall factor |
| Contention.HalfUp | js/model.js:185 | `ceil(b / 2)` for whole b |
| Contention.ContentionMult | js/model.js:184-186 | 1 without contention, `compute * max(1, ceil(batch / 2))` with it |
| Contention.StallRate | js/model.js:181-187 | definition `stallBase * contentionMult`; properties in `Contention.StallRateByCompute` |
| Contention.StallRateByCompute | js/model.js:181-187 | with contention and a positive stall base, more baristas strictly raise the stall rate; without contention the rate does not depend on them |
| Contention.StallDuration | js/model.js:216 | definition `(0.65 + 0.65 u) / max(0.7, bw)`; properties in `Contention.StallDurationRange` |
| Contention.StallDurationRange | js/model.js:216 | for a roll in [0, 1) a new stall lasts between `0.65 / max(0.7, bw)` and `1.30 / max(0.7, bw)` and is positive |
| Contention.SingleServiceTime | js/model.js:236 | definition `serviceBase * qSlow`; properties in `Contention.BatchServiceAmortised` and `Scheduler.SinglePickup` |
| Contention.BatchServiceTime | js/model.js:250 | definition `serviceBase * qSlow * batchEff * (0.90 + 0.08 b)`; properties in `Contention.BatchServiceAmortised`, `Contention.BatchFactorRange` and `Scheduler.BatchPickup` |
| Contention.BatchServiceAmortised | js/model.js:236-250 | a batch of two or more takes longer than a single drink but less than that many single drinks |
| Contention.BatchFactorRange | js/model.js:250 | the batch multiplier `batchEff (0.90 + 0.08 b)` lies strictly between 1 and b for b ≥ 2 |
| Scheduler.WaitsFrom | js/model.js:256-258 | one wait sample `now - born` per batch member, in member order |
| Scheduler.RequeuedFrom | js/model.js:286-289 | at most one re-queued customer per batch member |
| Scheduler.Requeue | js/model.js:286-289 | definition of a remade customer back at the tail: `born = now`, `dist = total`, patience 0.7; properties in `Scheduler.CompleteOneOutcome` |
| Scheduler.CompleteOne | js/model.js:256-307 | definition of one member's completion; properties in `Scheduler.CompleteOneOutcome` |
| Scheduler.CompleteFrom | js/model.js:255-311 | definition of the member loop of a completion; properties in `Scheduler.CompleteAccounting` and `Simulation.State.CompleteBatch` |
| Scheduler.CompleteOneOutcome | js/model.js:256-307 | one completion appends one wait; a remake counts a remake, resets the streak, raises `Remake` and re-appends the customer with patience 0.7, `dist = total`, `born = now`; a serve counts a serve, extends the streak, and its events gain exactly `Serve`, followed by `Combo` when the new streak is a multiple of 5 and by nothing otherwise |
| Scheduler.CompleteAccounting | js/model.js:255-311 | completing a batch adds one wait per member in order, raises `served + remakes` by the batch size, appends exactly the remade members to the line in order, and keeps earlier events |
| Scheduler.StationsFrom | js/model.js:208-313 | the station loop keeps the number of stations |
| Scheduler.Pickup | js/model.js:228-252 | definition of an idle station's turn; properties in `Scheduler.NoPickupWithoutFront`, `Scheduler.SinglePickup`, `Scheduler.BatchPickup` and `Scheduler.PickupConserves` |
| Scheduler.StationStep | js/model.js:208-312 | definition of one station's turn (stalled, stall roll, pickup or service); properties in `Scheduler.StalledStationWaits`, `Scheduler.StallRollPausesService`, `Scheduler.CompletionEmptiesStation` and `Scheduler.StationStepInvariant` |
| Scheduler.StalledStationWaits | js/model.js:209-212 | a stalled station only counts its stall down by dt; busy flag, timer, batch, queue and counters are untouched |
| Scheduler.StallRollPausesService | js/model.js:215-226 | a station that rolls a stall, busy or not, keeps its timer and batch, and its stall lies in the duration range |
| Scheduler.NoPickupWithoutFront | js/model.js:228-229 | without the head at the counter an idle station does nothing |
| Scheduler.SinglePickup | js/model.js:231-238 | in single mode the station takes exactly the head of a non-empty line, with time `serviceBase * qSlow`, and nothing else changes |
| Scheduler.BatchPickup | js/model.js:239-251 | in batch mode the station moves only with at least k waiting and the k-th within 6 of its slot, then takes exactly the first k in order with the batch service time; otherwise nothing changes |
| Scheduler.PickupConserves | js/model.js:228-252 | the new batch followed by the remaining line is the line before; the batch is empty or exactly the batch size (1 in single mode); busy iff it holds a batch |
| Scheduler.CompletionEmptiesStation | js/model.js:253-311 | a busy station whose timer runs out completes its whole batch and becomes idle with an empty batch |
| Scheduler.StationStepInvariant | js/model.js:208-313 | one station's turn keeps stations and line healthy, conserves `line + batch + served`, and only grows counters, waits and events |
| Scheduler.StationsInvariant | js/model.js:208-313 | the whole station loop keeps every station and the line healthy, conserves `line + in service + served`, and only grows counters, waits and events |
| Scheduler.TwoStationsPickUpInOneTick | js/model.js:204-238 | with the head ready once per tick, two idle stations in single mode take the first and the second customer in the same tick |
| Metrics.StalledCount | js/model.js:343 | at most the number of stations |
| Metrics.BusyCount | js/model.js:344 | at most the number of stations |
| Metrics.CountsDisjoint | js/model.js:343-344 | stalled and busy-unstalled stations together never exceed the station count |
| Metrics.Classify | js/model.js:347-352 | the label is the first match of Bandwidth (stalled ≥ `max(1, floor(n / 2))`), Compute, Batch, Remakes, Traffic (more than 12 waiting), OK, each stated as an iff with the earlier ones failing |
| Metrics.P95Update | js/model.js:338-340 | the cache is recomputed as the 0.95 quantile once there are at least 4 samples and kept otherwise |
| Metrics.P95WithinSamples | js/model.js:338-340 | a recomputed P95 lies between the shortest and the longest wait |
| Stepper.Resized | js/model.js:90-94 | exactly n stations; every station below `min(old, n)` kept, every new one idle |
| Stepper.ResizedSame | js/model.js:91 | resizing to the current size changes nothing |
| Stepper.InServiceResized | js/model.js:90-94 | growing keeps everyone in service; shrinking keeps exactly those in the surviving stations |
| Stepper.Leaves | js/model.js:164 | n leave events and nothing else |
| Stepper.DrainAccounting | js/model.js:157-170 | every customer who leaves the line is counted as lost with one leave event after the earlier ones; the streak breaks exactly when someone left; stations and score untouched |
| Stepper.FrontReady | js/model.js:204-206 | definition: the head exists and `hypot` of its offset from the front point is below 10; properties in `Stepper.FrontReadyByDistance` |
| Stepper.FrontReadyByDistance | js/model.js:204-206 | with a true hypotenuse, the head is ready iff it stands less than 10 from the counter point (squared distance below 100) |
| Stepper.IdleStations | js/model.js:67-74 | n stations, all `busy = false, t = 0, batch = [], stall = 0` |
| Stepper.ResetSim | js/model.js:49-88 | definition of `reset` on the simulated fields; properties in `Stepper.ResetIsOk` and `Simulation.State.Reset` |
| Stepper.ResetIsOk | js/model.js:49-88 | after `reset`: healthy, same level, `tLeft = duration`, exactly `compute` idle stations with nobody in service, zero counters and streak, no samples, no P95, no events |
| Stepper.MovedQueueOk | js/model.js:131-154 | spawning, slotting and walking keep the line healthy and the accumulator in [0, 1), grow the line by the spawn count, and leave stations, served and lost alone |
| Stepper.StepSpec | js/model.js:128-355 | definition of one tick as the composition of its stages; properties in `Stepper.StepKeepsOk`, `Stepper.StepConservesCustomers`, `Stepper.StepMonotone`, `Stepper.StepP95` and `Simulation.State.Step` |
| Stepper.StepKeepsOk | js/model.js:128-355 | a tick with non-negative dt and arrival rate keeps every waiting and in-service customer's patience in (0, 1], every station busy iff it holds a batch, and the accumulator in [0, 1) |
| Stepper.StepConservesCustomers | js/model.js:128-355 | waiting + in service + served + lost after a tick equals that count before (after the resize) plus the arrivals |
| Stepper.StepMonotone | js/model.js:128-355 | served, remakes and lost only grow; waits and events are only appended to; exactly `compute` stations; same level; `tLeft` drops by exactly dt |
| Stepper.StepP95 | js/model.js:337-340 | after a tick the P95 is the 0.95 quantile of all samples once there are four (and lies between min and max), and unchanged before |
| Simulation.State.constructor | js/model.js:17-46 | a fresh state: not running, level 0, no time, empty line and stations, zero counters, no samples, no P95, label OK, no events, no attempts |
| Simulation.State.Reset | js/model.js:49-88 | stops the game and leaves exactly the state `ResetSim` describes, keeping the level index and the attempt counter |
| Simulation.State.ClearLine | js/model.js:53-56 | empties the line and the accumulator, nothing else |
| Simulation.State.ClearScore | js/model.js:58-63 | zeroes the counters and the streak, clears samples and P95, nothing else |
| Simulation.State.RebuildStations | js/model.js:65-86 | label OK, n fresh idle stations, empty event buffer, nothing else |
| Simulation.State.EnsureStations | js/model.js:90-94 | the stations become `Resized(old, n)`, nothing else changes |
| Simulation.State.SpawnCustomer | js/model.js:96-126 | appends exactly the `NewCustomer` for the roll at the back point of the line |
| Simulation.State.SpawnArrivals | js/model.js:131-136 | the accumulator loop leaves exactly the spawn stage's state |
| Simulation.State.AssignSlots | js/model.js:138-142 | the slot loop leaves exactly `Slotted` of the old line |
| Simulation.State.WalkQueue | js/model.js:144-154 | the walking loop leaves exactly `WalkedAll` of the old line |
| Simulation.State.MoveQueue | js/model.js:131-154 | spawn, slots and walking leave exactly `MovedQueue` of the old state |
| Simulation.State.Abandon | js/model.js:160-164 | splices customer i out, counts a loss, resets the streak and appends one leave event |
| Simulation.State.DrainPatience | js/model.js:156-170 | the back-to-front splice loop leaves exactly the drain stage's state |
| Simulation.State.CompleteMember | js/model.js:256-307 | one completion changes the shop exactly as `CompleteOne` |
| Simulation.State.CompleteBatch | js/model.js:256-308 | the member loop changes the shop exactly as `CompleteFrom` |
| Simulation.State.PickUp | js/model.js:228-252 | an idle station's turn changes line and station exactly as `Pickup` |
| Simulation.State.TickStation | js/model.js:208-312 | one station's turn changes the shop and that station exactly as `StationStep`, and no other station |
| Simulation.State.StationPass | js/model.js:208-313 | the station loop leaves exactly the station stage's state |
| Simulation.State.FinishTick | js/model.js:337-354 | P95 cache, bottleneck label and countdown as the metrics stage says |
| Simulation.State.Step | js/model.js:128-355 | one tick leaves exactly `StepSpec` of the old state; running flag, level index and attempt counter untouched |
| App.RemakeRate | js/app.js:178-179 | the remake share is 0 before the first outcome and without remakes, and lies in [0, 1] |
| App.TimeLeftOk | js/app.js:181-186 | definition of `timePct > 0.10` with `timePct = max(0, tLeft) / duration`, including the zero-duration division; properties in `App.Stars` |
| App.Stars | js/app.js:176-188 | 1 to 3 stars; 1 without a P95; 3 iff the three-star conditions hold; 2 iff they fail and the two-star conditions hold |
| App.ThreeStarsMeetTwo | js/app.js:185-186 | a three-star run meets every two-star condition |
| App.StarsMonotone | js/app.js:176-188 | a run no worse on every measure never earns fewer stars |
| App.WallPage | js/app.js:267-308 | the attempt-th bandwidth-wall page: "Time's Up" at 1, "Bandwidth Wall" at 2, "Hardware Limit" from 3, with the HARDWARE LIMIT tag iff attempts ≥ 3 |
| App.WallEscalates | js/app.js:273-308 | more attempts never soften the page, and the tag stays once shown |
| App.Decide | js/app.js:328-344 | nothing while paused; a reached goal wins even when time is up; otherwise an expired countdown loses, on the wall page (for the next attempt) iff the level has contention |
| App.LevelIndex | js/app.js:154 | the index is `clamp(i, 0, count - 1)`, lies in the table, and is i itself when in range |
| App.NextSpeed | js/app.js:371 | the next speed index stays in the table and is i + 1 before the end |
| App.SpeedCycle | js/app.js:370-372 | the speed button goes 1x, 2x, 3x and back to 1x, returning after three presses |
| App.FrameDt | js/app.js:407-409 | the simulated step is the elapsed seconds capped at 0.05, times the multiplier |
| App.FrameDtBounded | js/app.js:407-409 | at most 0.05 per unit of speed (0.15 at 3x), and never negative when the clock does not run backwards |
| App.FooterZonesApart | js/app.js:72-98 | the remake zone ends at least `pad` left of the pickup zone, both sit on the footer line and end 44 above the bottom; the queue box ends on the playfield's bottom; counter and bar start 14 right of the queue, the counter ends 20 above the bar, the pantry starts 14 right of the bar |
| App.BarAgainstFooter | js/app.js:86-87 | the bar reaches into the footer line below height 604 and past the playfield below 616, and stays inside from 616 on |
| App.Geom | js/app.js:73-98 | definition of the layout rectangles, the queue and bar heights capped at the main area; properties in `App.FooterZonesApart` and `App.BarAgainstFooter` |
| App.LinePath | js/app.js:101-119 | the serpentine has 8 points |
| App.LinePathShape | js/app.js:101-119 | it starts at the top right of the queue box, ends at the bottom right, and every leg keeps its x or its y |
| App.Game.constructor | js/app.js:60-62 | the app at load time: level 0, speed 1x, the frame clock at the start time, not running, no attempts |
| App.Game.SetLevel | js/app.js:152-165 | the index becomes the clamped one; the attempt counter is cleared iff the level changed; the simulation is reset for the new level and takes its index; not running |
| App.Game.Restart | js/app.js:167-173 | the simulation is reset for the same level; the attempt counter is kept |
| App.Game.Go | js/app.js:358-362 | the game runs |
| App.Game.Pause | js/app.js:363-366 | the game stops |
| App.Game.CycleSpeed | js/app.js:370-375 | the next speed index, with the multiplier the table gives it |
| App.Game.CheckWinLose | js/app.js:328-344 | the verdict is `Decide` of the state; either outcome stops the game; the attempt counter rises by one exactly when the bandwidth-wall page opens |
| App.Game.ProcessEvents | js/app.js:347-355 | every buffered event is dispatched, in order, and the buffer is left empty |
| App.Game.Advance | js/app.js:418-420 | while running, one `step` and the event drain, returning the tick's events; while paused, nothing |
| App.Game.Track | js/app.js:413-415 | the line for the canvas size and a faithful length table for it |
| App.Game.Loop | js/app.js:406-433 | the frame clock moves to ts; dt is the capped elapsed time times the speed; the tick runs, and its events are drained, only while running; the verdict of the win/lose check and the new running flag follow, and the wall-page attempt counter grows by one exactly when the bandwidth-wall page opens |

## Left out

- The runner, token and cup animation of `step`, the bubbles, the screen
  shake, the message picks, and each customer's drink order and id. They are
  cosmetic, and the simulation never reads them back.
- The stations' drawing positions `x` and `y`. They are written by the
  renderer and used only for cosmetic targets.
- `stepConfetti` and `burstConfetti`. They are cosmetic decay and random
  particles.
- The countdown tick sound of `loop` (`lastTickSec`), `Render.draw` and the
  `requestAnimationFrame` scheduling: sound, drawing and browser scheduling.
- The DOM and audio side of the app: toasts, the modal texts and HTML, the
  lever read-out, `applyUnlocks`'s slider writes, the info and sound buttons,
  and the sounds `processEvents` plays.
  - The levers are a `Config` parameter. Locked levers are ignored through
    `Contention.BatchSize` and `Contention.QualityTier`.
  - `ProcessEvents` returns the events it dispatched.
- The win page's "next level" button and the lose page's "try again" button.
  They are `SetLevel` and `Restart` called by the page.
- js/levels.js, js/render.js, js/modal.js and js/sounds.js. The level table is
  the constant `Entities.Levels`, without its texts. The other three are not
  part of this model.
- Floating point. All numbers are `real`, so there is no rounding and no NaN or
  infinity. `App.TimeLeftOk` spells out the zero-duration division the source
  can do.
- Simulation.State.Reset: the `g` and `pathLens` arguments of `reset` feed only
  the runner's home position, so the model does not take them.
  App.Game.SetLevel and App.Game.Restart therefore do not compute the layout.
- Utils.PathLengths: `Math.hypot` is a parameter. The length table is tied to
  the true distances only under the `IsHypot` assumption.
- App.Game.Loop: it takes the line and its length table as arguments instead of
  recomputing them inside the frame. `App.Game.Track` is that recomputation.
- Aliasing. Customers and stations are values. In the source, a remade
  customer is the same object, pushed back onto the line. Only the cosmetic
  tokens hold a customer object (js/model.js:234, 246); the cups copy the
  order's emoji and hold none. Tokens are left out, so no simulated behaviour
  depends on this.
- Simulation.State.Step: one `now` serves the whole tick. The source reads the
  wall clock anew for each spawned customer's `born` (js/model.js:117), for each
  wait sample (js/model.js:257) and for each remade customer's new `born`
  (js/model.js:286), so within one tick those instants can differ by the time
  the tick takes to compute; the model takes them all to be the same instant.
