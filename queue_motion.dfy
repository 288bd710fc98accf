/** The queue stages of a tick (js/model.js:138-170): slot assignment, walking
    toward the slot, and patience drain with abandonment. */
module QueueMotion {
  import opened Utils
  import opened Entities

  /** Distance between neighbouring slots of the line. */
  const Spacing := 46.0
  /** Walking speed, in distance per second. */
  const WalkSpeed := 110.0

  /** The slot of queue index `i`: `i * spacing` along the line, capped at its end. */
  function SlotDist(i: nat, total: real): real
  {
    Min(total, i as real * Spacing)
  }

  /** The queue after the slot loop: every customer's `targetDist` set to its slot. */
  function Slotted(q: seq<Customer>, total: real): (r: seq<Customer>)
    ensures |r| == |q|
    ensures forall i :: 0 <= i < |q| ==> r[i] == q[i].(targetDist := SlotDist(i, total))
  {
    seq(|q|, i requires 0 <= i < |q| => q[i].(targetDist := SlotDist(i, total)))
  }

  /** The slots start at the counter, never lie past the end of the line, and
      never decrease toward the back, so nobody is told to stand in front of a
      customer ahead of them. */
  lemma SlotsOrdered(q: seq<Customer>, total: real)
    requires 0.0 <= total
    ensures forall i :: 0 <= i < |q| ==> 0.0 <= Slotted(q, total)[i].targetDist <= total
    ensures |q| > 0 ==> Slotted(q, total)[0].targetDist == 0.0
    ensures forall i, j :: 0 <= i < j < |q| ==> Slotted(q, total)[i].targetDist <= Slotted(q, total)[j].targetDist
  {
    var r := Slotted(q, total);
    forall i, j | 0 <= i < j < |q|
      ensures r[i].targetDist <= r[j].targetDist
    {
      assert i as real * Spacing <= j as real * Spacing;
    }
  }

  /** One customer's walk during a tick of length `dt`: a customer within 1 of
      the slot does not move; any other steps `min(|delta|, walkSpeed * dt)`
      toward it and is drawn at the new distance along the line. */
  function Walked(c: Customer, dt: real, pts: seq<Point>, lens: PathLens): Customer
    requires |pts| >= 1 && |lens.seg| >= |pts| - 1
  {
    var delta := c.dist - c.targetDist;
    if Abs(delta) < 1.0 then c
    else
      var stepDist := Min(Abs(delta), WalkSpeed * dt);
      var d := if delta > 0.0 then c.dist - stepDist else c.dist + stepDist;
      c.(dist := d, pos := PointAt(pts, lens, d))
  }

  /** A walking customer moves toward its slot by `min(|delta|, walkSpeed * dt)`,
      never past it, and nothing but the distance and the drawn position changes;
      one already within 1 of the slot is left untouched. */
  lemma WalkNeverOvershoots(c: Customer, dt: real, pts: seq<Point>, lens: PathLens)
    requires |pts| >= 1 && |lens.seg| >= |pts| - 1
    requires 0.0 <= dt
    ensures var w := Walked(c, dt, pts, lens);
            && w.targetDist == c.targetDist && w.patience == c.patience
            && w.patienceRate == c.patienceRate && w.born == c.born && w.kind == c.kind
            && (Abs(c.dist - c.targetDist) < 1.0 ==> w == c)
            && (Abs(c.dist - c.targetDist) >= 1.0 ==>
                  && Abs(w.dist - c.dist) == Min(Abs(c.dist - c.targetDist), WalkSpeed * dt)
                  && Abs(w.dist - c.targetDist) == Abs(c.dist - c.targetDist) - Abs(w.dist - c.dist)
                  && w.pos == PointAt(pts, lens, w.dist))
            && (c.targetDist <= c.dist ==> c.targetDist <= w.dist <= c.dist)
            && (c.dist <= c.targetDist ==> c.dist <= w.dist <= c.targetDist)
  {
  }

  /** The queue after the walking loop. */
  function WalkedAll(q: seq<Customer>, dt: real, pts: seq<Point>, lens: PathLens): (r: seq<Customer>)
    requires |pts| >= 1 && |lens.seg| >= |pts| - 1
    ensures |r| == |q|
    ensures forall i :: 0 <= i < |q| ==> r[i] == Walked(q[i], dt, pts, lens)
  {
    seq(|q|, i requires 0 <= i < |q| => Walked(q[i], dt, pts, lens))
  }

  // ---------------------------------------------------------------------
  // Patience drain

  /** A customer after `patience -= patienceRate * dt`. */
  function Drained(c: Customer, dt: real): Customer
  {
    c.(patience := c.patience - c.patienceRate * dt)
  }

  /** The drained customers that keep waiting, in their queue order. */
  function Survivors(q: seq<Customer>, dt: real): (r: seq<Customer>)
    ensures |r| <= |q|
    ensures forall c :: c in r ==> 0.0 < c.patience
  {
    if |q| == 0 then []
    else
      var c := Drained(q[0], dt);
      (if 0.0 < c.patience then [c] else []) + Survivors(q[1..], dt)
  }

  /** How many customers give up. */
  function LeaveCount(q: seq<Customer>, dt: real): nat
  {
    |q| - |Survivors(q, dt)|
  }

  /** `a` is `b` with some elements deleted, the rest kept in order. */
  predicate SubsequenceOf(a: seq<Customer>, b: seq<Customer>)
    decreases |b|
  {
    if |a| == 0 then true
    else if |b| == 0 then false
    else if a[0] == b[0] then SubsequenceOf(a[1..], b[1..])
    else SubsequenceOf(a, b[1..])
  }

  function DrainedAll(q: seq<Customer>, dt: real): (r: seq<Customer>)
    ensures |r| == |q|
    ensures forall i :: 0 <= i < |q| ==> r[i] == Drained(q[i], dt)
  {
    seq(|q|, i requires 0 <= i < |q| => Drained(q[i], dt))
  }

  /** Abandonment removes exactly the customers whose drained patience is not
      positive: the survivors keep their relative order, every drained customer
      with positive patience survives as often as it occurs in the queue and no
      other does, and the number of leavers is the number of queue positions
      whose drained patience is not positive. */
  lemma SurvivorsInOrder(q: seq<Customer>, dt: real)
    ensures SubsequenceOf(Survivors(q, dt), DrainedAll(q, dt))
    ensures forall i :: 0 <= i < |q| && 0.0 < Drained(q[i], dt).patience ==> Drained(q[i], dt) in Survivors(q, dt)
    ensures forall x :: multiset(Survivors(q, dt))[x]
                     == (if 0.0 < x.patience then multiset(DrainedAll(q, dt))[x] else 0)
    ensures LeaveCount(q, dt) == |set i | 0 <= i < |q| && Drained(q[i], dt).patience <= 0.0|
  {
    SurvivorsSubsequence(q, dt);
    SurvivorsMultiplicity(q, dt);
    LeaveCountPrefix(q, dt, |q|);
    assert q[..|q|] == q;
  }

  /** The survivors are a subsequence of the drained queue, and every drained
      customer with positive patience is among them. */
  lemma {:induction false} SurvivorsSubsequence(q: seq<Customer>, dt: real)
    ensures SubsequenceOf(Survivors(q, dt), DrainedAll(q, dt))
    ensures forall i :: 0 <= i < |q| && 0.0 < Drained(q[i], dt).patience ==> Drained(q[i], dt) in Survivors(q, dt)
  {
    if |q| > 0 {
      SurvivorsSubsequence(q[1..], dt);
      var c := Drained(q[0], dt);
      var rest := Survivors(q[1..], dt);
      assert DrainedAll(q, dt)[1..] == DrainedAll(q[1..], dt);
      if 0.0 < c.patience {
        assert Survivors(q, dt) == [c] + rest;
        assert ([c] + rest)[1..] == rest;
      } else {
        assert Survivors(q, dt) == rest;
        SubsequenceSkip(rest, DrainedAll(q, dt));
      }
      forall i | 0 <= i < |q| && 0.0 < Drained(q[i], dt).patience
        ensures Drained(q[i], dt) in Survivors(q, dt)
      {
        if i > 0 {
          assert q[i] == q[1..][i - 1];
        }
      }
    }
  }

  /** Each drained customer with positive patience occurs among the survivors as
      often as in the drained queue; no other customer occurs there. */
  lemma {:induction false} SurvivorsMultiplicity(q: seq<Customer>, dt: real)
    ensures forall x :: multiset(Survivors(q, dt))[x]
                     == (if 0.0 < x.patience then multiset(DrainedAll(q, dt))[x] else 0)
  {
    if |q| > 0 {
      SurvivorsMultiplicity(q[1..], dt);
      var c := Drained(q[0], dt);
      assert DrainedAll(q, dt) == [c] + DrainedAll(q[1..], dt);
      assert multiset(DrainedAll(q, dt)) == multiset{c} + multiset(DrainedAll(q[1..], dt));
      assert multiset(Survivors(q, dt))
          == multiset(if 0.0 < c.patience then [c] else []) + multiset(Survivors(q[1..], dt));
    }
  }

  /** The survivors of a concatenation are the survivors of each part, in order. */
  lemma {:induction false} SurvivorsAppend(a: seq<Customer>, b: seq<Customer>, dt: real)
    ensures Survivors(a + b, dt) == Survivors(a, dt) + Survivors(b, dt)
  {
    if |a| == 0 {
      assert a + b == b;
    } else {
      assert (a + b)[1..] == a[1..] + b;
      SurvivorsAppend(a[1..], b, dt);
    }
  }

  /** Appending one customer to the line appends its drained self to the
      survivors exactly when its drained patience stays positive. */
  lemma SurvivorsSnoc(a: seq<Customer>, c: Customer, dt: real)
    ensures Survivors(a + [c], dt)
         == Survivors(a, dt) + (if 0.0 < Drained(c, dt).patience then [Drained(c, dt)] else [])
  {
    SurvivorsAppend(a, [c], dt);
    assert [c][1..] == [];
  }

  /** The positions among the first `n` whose drained patience is not positive. */
  ghost function RunOut(q: seq<Customer>, dt: real, n: nat): set<int>
    requires n <= |q|
  {
    set i | 0 <= i < n && Drained(q[i], dt).patience <= 0.0
  }

  /** One more position adds itself to the run-out set exactly when it ran out. */
  lemma RunOutStep(q: seq<Customer>, dt: real, n: nat)
    requires 0 < n <= |q|
    ensures |RunOut(q, dt, n)| == |RunOut(q, dt, n - 1)| + (if Drained(q[n - 1], dt).patience <= 0.0 then 1 else 0)
  {
    if Drained(q[n - 1], dt).patience <= 0.0 {
      assert RunOut(q, dt, n) == RunOut(q, dt, n - 1) + {n - 1};
    } else {
      assert RunOut(q, dt, n) == RunOut(q, dt, n - 1);
    }
  }

  /** Among the first `n` customers, the leavers are the positions whose drained
      patience is not positive. */
  lemma {:induction false} LeaveCountPrefix(q: seq<Customer>, dt: real, n: nat)
    requires n <= |q|
    ensures LeaveCount(q[..n], dt) == |RunOut(q, dt, n)|
  {
    if n == 0 {
      assert RunOut(q, dt, n) == {};
    } else {
      LeaveCountPrefix(q, dt, n - 1);
      assert q[..n] == q[..n - 1] + [q[n - 1]];
      SurvivorsSnoc(q[..n - 1], q[n - 1], dt);
      RunOutStep(q, dt, n);
    }
  }

  /** Dropping the head of `b` keeps any subsequence of its tail a subsequence of `b`. */
  lemma SubsequenceSkip(a: seq<Customer>, b: seq<Customer>)
    requires |b| > 0 && SubsequenceOf(a, b[1..])
    ensures SubsequenceOf(a, b)
    decreases |b|, 0
  {
    if |a| > 0 && a[0] == b[0] {
      SubsequenceTail(a, b[1..]);
    }
  }

  /** Dropping the head of `a` keeps it a subsequence. */
  lemma SubsequenceTail(a: seq<Customer>, b: seq<Customer>)
    requires |a| > 0 && SubsequenceOf(a, b)
    ensures SubsequenceOf(a[1..], b)
    decreases |b|, 1
  {
    if a[0] != b[0] {
      SubsequenceTail(a, b[1..]);
    }
    SubsequenceSkip(a[1..], b);
  }

  /** With a non-negative `dt` nobody gains patience, so customers whose
      patience lies in (0, 1] keep it there. */
  lemma SurvivorsPatienceBounded(q: seq<Customer>, dt: real)
    requires 0.0 <= dt
    requires forall c :: c in q ==> c.patience <= 1.0 && 0.0 <= c.patienceRate
    ensures forall c :: c in Survivors(q, dt) ==> 0.0 < c.patience <= 1.0 && 0.0 <= c.patienceRate
  {
    if |q| > 0 {
      SurvivorsPatienceBounded(q[1..], dt);
      MulNonneg(q[0].patienceRate, dt);
    }
  }

  /** Survivors are an order-preserving split: prepending a customer to the queue
      either prepends its drained self or nothing. */
  lemma SurvivorsCons(c: Customer, q: seq<Customer>, dt: real)
    ensures Survivors([c] + q, dt)
         == (if 0.0 < Drained(c, dt).patience then [Drained(c, dt)] else []) + Survivors(q, dt)
  {
    assert ([c] + q)[1..] == q;
  }

  /** `Survivors` of the suffix from `i`: the drained customer at `i`, if it
      keeps waiting, followed by the survivors of the suffix from `i + 1`. */
  lemma SurvivorsAt(q0: seq<Customer>, i: nat, dt: real)
    requires i < |q0|
    ensures Survivors(q0[i..], dt)
         == (if 0.0 < Drained(q0[i], dt).patience then [Drained(q0[i], dt)] else []) + Survivors(q0[i + 1..], dt)
  {
    assert q0[i..][1..] == q0[i + 1..];
  }

  /** A step of the back-to-front patience loop at index `i` whose customer
      runs out, with the customers behind `i` already processed: removing it
      leaves the processed suffix from `i` in the form `Survivors` describes, and
      one more customer has left. */
  lemma LeaveAt(q0: seq<Customer>, i: nat, dt: real)
    requires i < |q0| && Drained(q0[i], dt).patience <= 0.0
    ensures var q := q0[..i + 1] + Survivors(q0[i + 1..], dt);
            && q[..i] + q[i + 1..] == q0[..i] + Survivors(q0[i..], dt)
            && LeaveCount(q0[i..], dt) == LeaveCount(q0[i + 1..], dt) + 1
  {
    var q := q0[..i + 1] + Survivors(q0[i + 1..], dt);
    SurvivorsAt(q0, i, dt);
    assert q[..i] == q0[..i];
    assert q[i + 1..] == Survivors(q0[i + 1..], dt);
  }

  /** The same step for a customer who keeps waiting: writing back its drained
      copy leaves the processed suffix in the form `Survivors` describes, and
      nobody more has left. */
  lemma KeepAt(q0: seq<Customer>, i: nat, dt: real)
    requires i < |q0| && 0.0 < Drained(q0[i], dt).patience
    ensures var q := q0[..i + 1] + Survivors(q0[i + 1..], dt);
            && q[i := Drained(q0[i], dt)] == q0[..i] + Survivors(q0[i..], dt)
            && LeaveCount(q0[i..], dt) == LeaveCount(q0[i + 1..], dt)
  {
    var rest := Survivors(q0[i + 1..], dt);
    var q := q0[..i + 1] + rest;
    SurvivorsAt(q0, i, dt);
    assert q[i := Drained(q0[i], dt)] == q0[..i] + [Drained(q0[i], dt)] + rest;
  }
}
