/** The Option type: a column of tracker state is either absent (`None`,
    the Python module global still holding `None`) or present. */
module Wrappers {
  datatype Option<+T> = None | Some(value: T)
}

/** What the reward term and the termination terms both compute from the
    scene for one environment row, and the grasp heuristic they share. */
module Task {
  import opened Wrappers

  /** The geometric inputs of one environment row for one simulation step.
      The distances and positions are already localised to the environment
      origin; the norms are taken as given. */
  datatype Observation = Observation(
    fingerDist: real,  // distance between the two fingertips
    tcpDist: real,     // distance from the fingertip midpoint (TCP) to the cube
    cubeX: real,       // cube position, x axis
    cubeY: real,       // cube position, y axis
    height: real,      // cube z minus table height minus half the cube size
    action: real)      // the gripper entry (last column) of the applied action

  /** Norms are never negative. */
  predicate WellFormed(o: Observation) {
    o.fingerDist >= 0.0 && o.tcpDist >= 0.0
  }

  function Abs(x: real): (r: real)
    ensures r >= 0.0 && (r == x || r == -x)
  {
    if x < 0.0 then -x else x
  }

  // The thresholds of the grasp heuristic.
  const StaticTolerance: real := 0.0001
  const BandLow: real := 0.03
  const BandHigh: real := 0.1
  const LiftThreshold: real := 0.03

  // The goal: a band around y = -0.35, with the cube back near the table.
  const GoalY: real := -0.35
  const GoalTolerance: real := 0.05
  const GoalHeight: real := 0.05

  /** The finger separation has (nearly) not moved since the previous step. */
  predicate IsStatic(prevDist: real, dist: real) {
    Abs(dist - prevDist) < StaticTolerance
  }

  /** The fingers are closed, but not fully: something is between them. */
  predicate InBand(dist: real) {
    BandLow < dist < BandHigh
  }

  /** The grasp heuristic: the previous gripper command was not neutral, the
      fingers stopped moving, and they stopped inside the band. */
  predicate IsClamped(prevAction: real, prevDist: real, dist: real)
    // the previous separation, too, lay in the band widened by the tolerance
    ensures IsClamped(prevAction, prevDist, dist) ==> BandLow - StaticTolerance < prevDist < BandHigh + StaticTolerance
  {
    prevAction != 0.0 && IsStatic(prevDist, dist) && InBand(dist)
  }

  /** A clamped cube above the lift threshold makes the row "ever lifted". */
  predicate LiftsNow(clamped: bool, height: real) {
    clamped && height > LiftThreshold
  }

  /** The cube lies in the goal band and is (back) near the table. */
  predicate AtGoal(o: Observation)
    // the goal band lies strictly between y = -0.4 and y = -0.3
    ensures AtGoal(o) ==> -0.4 < o.cubeY < -0.3
  {
    Abs(o.cubeY - GoalY) < GoalTolerance && o.height < GoalHeight
  }

  lemma NeutralCommandNeverClamps(prevDist: real, dist: real)
    ensures !IsClamped(0.0, prevDist, dist)
  {}

  /** A row whose previous separation was seeded from the current one has no
      drift, so only the command and the band decide the clamp. */
  lemma SeededRowIsStatic(prevAction: real, dist: real)
    ensures IsClamped(prevAction, dist, dist) <==> prevAction != 0.0 && InBand(dist)
  {}

  // ----- Whole columns (one entry per environment row) -----

  function Zeros(n: nat): (r: seq<real>)
    ensures |r| == n && forall i :: 0 <= i < n ==> r[i] == 0.0
  {
    seq(n, _ => 0.0)
  }

  function Falses(n: nat): (r: seq<bool>)
    ensures |r| == n && forall i :: 0 <= i < n ==> !r[i]
  {
    seq(n, _ => false)
  }

  /** The current finger separation of every row. */
  function FingerDists(obs: seq<Observation>): (r: seq<real>)
    ensures |r| == |obs| && forall i :: 0 <= i < |obs| ==> r[i] == obs[i].fingerDist
  {
    seq(|obs|, i requires 0 <= i < |obs| => obs[i].fingerDist)
  }

  /** The current gripper command of every row. */
  function Actions(obs: seq<Observation>): (r: seq<real>)
    ensures |r| == |obs| && forall i :: 0 <= i < |obs| ==> r[i] == obs[i].action
  {
    seq(|obs|, i requires 0 <= i < |obs| => obs[i].action)
  }

  /** The lazy-initialisation rule of a state column: keep it when it is
      present with one entry per row, otherwise replace it by `seed`. */
  function Reinit<T>(c: Option<seq<T>>, seed: seq<T>): (r: seq<T>)
    ensures |r| == |seed|
    ensures NeedsInit(c, |seed|) ==> r == seed
    ensures !NeedsInit(c, |seed|) ==> r == c.value
  {
    if c.None? || |c.value| != |seed| then seed else c.value
  }

  /** A column is (re)created when missing or of the wrong length. */
  predicate NeedsInit<T>(c: Option<seq<T>>, n: nat) {
    c.None? || |c.value| != n
  }

  /** The view of a nullable array column as an Option. */
  function Column<T>(a: array?<T>): (r: Option<seq<T>>)
    reads a
    ensures r.None? <==> a == null
    ensures a != null ==> r.value == a[..]
  {
    if a == null then None else Some(a[..])
  }

  /** A fresh copy of a value column, as `clone()` or `torch.zeros` give. */
  method NewColumn<T>(s: seq<T>) returns (a: array<T>)
    ensures fresh(a) && a[..] == s
  {
    a := new T[|s|](i requires 0 <= i < |s| => s[i]);
  }

  /** `column[mask] = values[mask]`: the rows the mask selects take the new
      value, every other row keeps its old one. */
  function Masked<T>(column: seq<T>, mask: seq<bool>, values: seq<T>): (r: seq<T>)
    requires |mask| == |column| && |values| == |column|
    ensures |r| == |column|
    ensures forall i :: 0 <= i < |column| && mask[i] ==> r[i] == values[i]
    ensures forall i :: 0 <= i < |column| && !mask[i] ==> r[i] == column[i]
  {
    seq(|column|, i requires 0 <= i < |column| => if mask[i] then values[i] else column[i])
  }

  /** The masked in-place write `a[mask] = values[mask]`. */
  method AssignWhere<T>(a: array<T>, mask: seq<bool>, values: seq<T>)
    requires |mask| == a.Length && |values| == a.Length
    modifies a
    ensures a[..] == Masked(old(a[..]), mask, values)
  {
    var i := 0;
    while i < a.Length
      invariant 0 <= i <= a.Length
      invariant forall k :: 0 <= k < i ==> a[k] == if mask[k] then values[k] else old(a[k])
      invariant forall k :: i <= k < a.Length ==> a[k] == old(a[k])
    {
      if mask[i] {
        a[i] := values[i];
      }
      i := i + 1;
    }
  }

  /** The clamp flag of every row, from the previous command and separation. */
  function ClampMask(prevAction: seq<real>, prevDist: seq<real>, obs: seq<Observation>): (r: seq<bool>)
    requires |prevAction| == |obs| && |prevDist| == |obs|
    ensures |r| == |obs|
    ensures forall i :: 0 <= i < |obs| ==> (r[i] <==> IsClamped(prevAction[i], prevDist[i], obs[i].fingerDist))
  {
    seq(|obs|, i requires 0 <= i < |obs| => IsClamped(prevAction[i], prevDist[i], obs[i].fingerDist))
  }

  /** The new column of clamp flags (a fresh vector, as the vectorised
      comparison builds one). */
  method ClampColumn(prevAction: array<real>, prevDist: array<real>, obs: seq<Observation>)
    returns (clamped: array<bool>)
    requires prevAction.Length == |obs| && prevDist.Length == |obs|
    ensures fresh(clamped)
    ensures clamped[..] == ClampMask(prevAction[..], prevDist[..], obs)
  {
    clamped := new bool[|obs|];
    var i := 0;
    while i < |obs|
      invariant 0 <= i <= |obs|
      invariant forall k :: 0 <= k < i ==> clamped[k] == IsClamped(prevAction[k], prevDist[k], obs[k].fingerDist)
    {
      var dist := obs[i].fingerDist;
      var isStatic := Abs(dist - prevDist[i]) < StaticTolerance;
      clamped[i] := prevAction[i] != 0.0 && isStatic && BandLow < dist && dist < BandHigh;
      i := i + 1;
    }
  }

  /** The "ever lifted" flags after this step: sticky OR of a new lift. */
  function Lifted(lifted: seq<bool>, clamped: seq<bool>, obs: seq<Observation>): (r: seq<bool>)
    requires |lifted| == |obs| && |clamped| == |obs|
    ensures |r| == |obs|
    ensures forall i :: 0 <= i < |obs| ==> (r[i] <==> lifted[i] || LiftsNow(clamped[i], obs[i].height))
  {
    seq(|obs|, i requires 0 <= i < |obs| => lifted[i] || LiftsNow(clamped[i], obs[i].height))
  }

  /** `lifted | (clamped & (height > 0.03))` into a fresh vector. */
  method LiftedColumn(lifted: array<bool>, clamped: array<bool>, obs: seq<Observation>)
    returns (r: array<bool>)
    requires lifted.Length == |obs| && clamped.Length == |obs|
    ensures fresh(r)
    ensures r[..] == Lifted(lifted[..], clamped[..], obs)
  {
    r := new bool[|obs|];
    var i := 0;
    while i < |obs|
      invariant 0 <= i <= |obs|
      invariant forall k :: 0 <= k < i ==> r[k] == (lifted[k] || LiftsNow(clamped[k], obs[k].height))
    {
      r[i] := lifted[i] || (clamped[i] && obs[i].height > LiftThreshold);
      i := i + 1;
    }
  }

  /** `lifted |= clamped & (height > 0.03)`, in place. */
  method OrInLifts(lifted: array<bool>, clamped: array<bool>, obs: seq<Observation>)
    requires lifted.Length == |obs| && clamped.Length == |obs|
    requires lifted != clamped
    modifies lifted
    ensures lifted[..] == Lifted(old(lifted[..]), clamped[..], obs)
  {
    var i := 0;
    while i < |obs|
      invariant 0 <= i <= |obs|
      invariant forall k :: 0 <= k < i ==> lifted[k] == (old(lifted[k]) || LiftsNow(clamped[k], obs[k].height))
      invariant forall k :: i <= k < |obs| ==> lifted[k] == old(lifted[k])
    {
      lifted[i] := lifted[i] || (clamped[i] && obs[i].height > LiftThreshold);
      i := i + 1;
    }
  }
}
