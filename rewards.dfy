/** The dense transport reward (`cube_transport_linear_reward`) and the
    grasp/lift tracker it keeps in its own three module globals. */
module TransportReward {
  import opened Wrappers
  import opened Task

  // ----- Parameters and constants -----

  /** The tunable parameters of the reward term. */
  datatype Params = Params(maxEeCubeDist: real, targetLiftHeight: real, maxYDist: real)

  /** The two normalising distances are divisors. */
  predicate ValidParams(p: Params) {
    p.maxEeCubeDist > 0.0 && p.maxYDist > 0.0
  }

  /** The defaults of the function signature. */
  const Defaults: Params := Params(1.2, 0.2, 1.2)
  /** The values the reward configuration passes in. */
  const Configured: Params := Params(1.0, 0.1, 0.8)

  /** Both parameter sets the source uses have positive divisors. */
  lemma ParamsValid()
    ensures ValidParams(Defaults) && ValidParams(Configured)
  {}

  // Physical limits of the finger separation.
  const FMin: real := 0.0080949645
  const FMax: real := 0.2580147982
  // Target separations of the two pose regimes, and the near-field radius.
  const FarTarget: real := 0.1
  const NearTarget: real := 0.04
  const NearField: real := 0.015
  // The small constant added to the pose denominators.
  const Eps: real := 0.000001

  const DropZoneY: real := -0.3
  const LiftTolerance: real := 0.1
  const ClampBonus: real := 1.0
  const SuccessBonus: real := 30.0
  const DropPenalty: real := 5.0
  const OutPenalty: real := 10.0
  const StepCost: real := 0.1

  /** What is assumed of `torch.exp`: on non-positive arguments (the only
      ones the reward passes) it lies in (0, 1]. */
  ghost predicate ExpRange(exp: real -> real) {
    forall x: real :: x <= 0.0 ==> 0.0 < exp(x) <= 1.0
  }

  // ----- Row-level terms -----

  function Max0(x: real): (r: real)
    ensures r >= 0.0 && r >= x && (r == x || r == 0.0)
  {
    if x < 0.0 then 0.0 else x
  }

  function Clamp01(x: real): (r: real)
    ensures 0.0 <= r <= 1.0
    ensures 0.0 <= x <= 1.0 ==> r == x
    ensures x <= 0.0 ==> r == 0.0
    ensures x >= 1.0 ==> r == 1.0
  {
    if x < 0.0 then 0.0 else if x > 1.0 then 1.0 else x
  }

  /** The approach term: linear in the TCP-to-cube distance, 1 at contact,
      0 from the cutoff on. */
  function Approach(p: Params, dist: real): (r: real)
    requires ValidParams(p)
    ensures dist >= 0.0 ==> 0.0 <= r <= 1.0
    ensures r == 0.0 <==> dist >= p.maxEeCubeDist
    ensures r == 1.0 <==> dist == 0.0
  {
    var m := p.maxEeCubeDist;
    var q := (m - dist) / m;
    assert q * m == m - dist;
    Max0(q)
  }

  /** The far-field pose term before weighting: a triangle over the finger
      separation that is 0 at both physical limits and peaks (just short of
      1) at the ready-to-grasp width 0.1. */
  function FarPose(fingerDist: real): (r: real)
    ensures 0.0 <= r < 1.0
    ensures fingerDist <= FMin || fingerDist >= FMax ==> r == 0.0
    ensures FMin < fingerDist < FMax ==> r > 0.0
  {
    var left := (fingerDist - FMin) / (FarTarget - FMin + Eps);
    var right := (FMax - fingerDist) / (FMax - FarTarget + Eps);
    Clamp01(if fingerDist < FarTarget then left else right)
  }

  /** The near-field pose term: grows linearly as the fingers close from the
      upper limit; it saturates at 1 exactly from 0.04 - 1e-6 down. */
  function NearPose(fingerDist: real): (r: real)
    ensures 0.0 <= r <= 1.0
    ensures r == 1.0 <==> fingerDist <= NearTarget - Eps
    ensures r == 0.0 <==> fingerDist >= FMax
  {
    Clamp01((FMax - fingerDist) / (FMax - NearTarget + Eps))
  }

  /** The pose term: the near regime at TCP distance up to 0.015, otherwise
      the far regime weighted by 0.2. */
  function Pose(tcpDist: real, fingerDist: real): (r: real)
    ensures tcpDist <= NearField ==> 0.0 <= r <= 1.0 && r == NearPose(fingerDist)
    ensures tcpDist > NearField ==> 0.0 <= r < 0.2 && r == FarPose(fingerDist) * 0.2
  {
    if tcpDist <= NearField then NearPose(fingerDist) else FarPose(fingerDist) * 0.2
  }

  /** The drop zone begins at y = -0.3; the goal band lies inside it. */
  predicate InDropZone(o: Observation)
    ensures AtGoal(o) ==> InDropZone(o)
  {
    o.cubeY < DropZoneY
  }

  /** How far the cube is from the target lift height. */
  function LiftError(p: Params, o: Observation): (r: real)
    ensures r >= 0.0
    ensures r == 0.0 <==> o.height == p.targetLiftHeight
  {
    Abs(o.height - p.targetLiftHeight)
  }

  /** The lift term: only while clamped and outside the drop zone; at most 2
      (2·exp(0) when the height is on target). */
  function Lift(p: Params, exp: real -> real, o: Observation, clamped: bool): (r: real)
    ensures !clamped || InDropZone(o) ==> r == 0.0
    ensures ExpRange(exp) ==> 0.0 <= r <= 2.0
    ensures ExpRange(exp) && clamped && !InDropZone(o) ==> r > 0.0
  {
    if clamped && !InDropZone(o) then 2.0 * exp(-20.0 * LiftError(p, o)) else 0.0
  }

  /** The transport term: only while clamped and within 0.1 of the lift
      height; linear in the distance to the goal line, at most 4. */
  function Transport(p: Params, o: Observation, clamped: bool): (r: real)
    requires ValidParams(p)
    ensures !clamped || LiftError(p, o) >= LiftTolerance ==> r == 0.0
    ensures 0.0 <= r <= 4.0
    ensures r == 4.0 <==> clamped && LiftError(p, o) < LiftTolerance && o.cubeY == GoalY
  {
    var m := p.maxYDist;
    var q := (m - Abs(o.cubeY - GoalY)) / m;
    assert q * m == m - Abs(o.cubeY - GoalY);
    if clamped && LiftError(p, o) < LiftTolerance then 4.0 * Max0(q) else 0.0
  }

  /** The descend term: only while clamped inside the drop zone; at most 2
      (2·exp(0) at or below table height). */
  function Descend(exp: real -> real, o: Observation, clamped: bool): (r: real)
    ensures !clamped || !InDropZone(o) ==> r == 0.0
    ensures ExpRange(exp) ==> 0.0 <= r <= 2.0
  {
    if clamped && InDropZone(o) then 2.0 * exp(-10.0 * Max0(o.height)) else 0.0
  }

  /** A success needs the lifted flag, and the goal lies in the drop zone. */
  predicate IsSuccess(o: Observation, lifted: bool)
    ensures IsSuccess(o, lifted) ==> lifted && InDropZone(o)
  {
    lifted && AtGoal(o)
  }

  /** A lifted cube that is let go counts as dropped; outside the drop zone
      it always does, since the goal is never there. */
  predicate DroppedMidway(o: Observation, clamped: bool, lifted: bool)
    ensures DroppedMidway(o, clamped, lifted) ==> lifted && !clamped
    ensures lifted && !clamped && !InDropZone(o) ==> DroppedMidway(o, clamped, lifted)
  {
    lifted && !clamped && !AtGoal(o)
  }

  /** The reward's own out-of-bounds test (its floor is -0.05). At the goal
      the y bound can never fire. */
  predicate OutOfTable(o: Observation)
    ensures AtGoal(o) ==> (OutOfTable(o) <==> Abs(o.cubeX) > 0.4 || o.height < -0.05)
  {
    Abs(o.cubeX) > 0.4 || o.cubeY > 0.6 || o.height < -0.05
  }

  /** The six shaping terms together. */
  function Shaping(p: Params, exp: real -> real, o: Observation, clamped: bool): (r: real)
    requires ValidParams(p)
    ensures ExpRange(exp) && WellFormed(o) ==> 0.0 <= r <= 9.0
    ensures !clamped && WellFormed(o) ==> 0.0 <= r <= 2.0
  {
    LiftDescendExclusive(p, exp, o, clamped);
    (if clamped then ClampBonus else 0.0) + Approach(p, o.tcpDist) + Pose(o.tcpDist, o.fingerDist)
      + Lift(p, exp, o, clamped) + Transport(p, o, clamped) + Descend(exp, o, clamped)
  }

  /** The reward of one row, accumulated term by term in the order of the
      source: shaping, the success bonus, the two penalties, the step cost. */
  function RowReward(p: Params, exp: real -> real, o: Observation, clamped: bool, lifted: bool): (r: real)
    requires ValidParams(p)
    ensures ExpRange(exp) && WellFormed(o) ==> -15.1 <= r <= 38.9
    ensures ExpRange(exp) && WellFormed(o) && IsSuccess(o, lifted) ==> r >= 19.9
    ensures ExpRange(exp) && WellFormed(o) && IsSuccess(o, lifted) && !OutOfTable(o) ==> r >= 29.9
    ensures ExpRange(exp) && WellFormed(o) && DroppedMidway(o, clamped, lifted) ==> r <= -3.1
  {
    SuccessExcludesDrop(o, clamped, lifted);
    var shaped := Shaping(p, exp, o, clamped);
    var withBonus := if IsSuccess(o, lifted) then shaped + SuccessBonus else shaped;
    var afterDrop := if DroppedMidway(o, clamped, lifted) then withBonus - DropPenalty else withBonus;
    var afterOut := if OutOfTable(o) then afterDrop - OutPenalty else afterDrop;
    afterOut - StepCost
  }

  lemma LiftDescendExclusive(p: Params, exp: real -> real, o: Observation, clamped: bool)
    ensures Lift(p, exp, o, clamped) == 0.0 || Descend(exp, o, clamped) == 0.0
  {}

  lemma SuccessExcludesDrop(o: Observation, clamped: bool, lifted: bool)
    ensures !(IsSuccess(o, lifted) && DroppedMidway(o, clamped, lifted))
  {}

  /** The total is the shaping sum plus 30 for success, minus 5 for a drop,
      minus 10 out of bounds, minus the step cost; each sparse term at most
      once. */
  lemma RewardDecomposition(p: Params, exp: real -> real, o: Observation, clamped: bool, lifted: bool)
    requires ValidParams(p)
    ensures RowReward(p, exp, o, clamped, lifted)
         == Shaping(p, exp, o, clamped)
          + (if IsSuccess(o, lifted) then 30.0 else 0.0)
          - (if DroppedMidway(o, clamped, lifted) then 5.0 else 0.0)
          - (if OutOfTable(o) then 10.0 else 0.0)
          - 0.1
  {}

  /** Closing in never lowers the approach term. */
  lemma ApproachMonotone(p: Params, d1: real, d2: real)
    requires ValidParams(p) && d1 <= d2
    ensures Approach(p, d1) >= Approach(p, d2)
  {
    var m := p.maxEeCubeDist;
    assert (m - d1) / m >= (m - d2) / m by {
      assert (m - d1) / m - (m - d2) / m == (d2 - d1) / m;
    }
  }

  /** The far pose term rises towards 0.1 and falls beyond it. */
  lemma FarPoseTriangular(a: real, b: real)
    requires a <= b
    ensures b < FarTarget ==> FarPose(a) <= FarPose(b)
    ensures FarTarget <= a ==> FarPose(a) >= FarPose(b)
  {}

  // ----- The tracker state -----

  /** The three module globals, each `None` until first initialised. */
  datatype TrackerState = TrackerState(
    lastGripperAction: Option<seq<real>>,
    lastFingerDist: Option<seq<real>>,
    hasBeenLifted: Option<seq<bool>>)

  const Unset: TrackerState := TrackerState(None, None, None)

  /** The state as the clamp test of a step sees it. */
  datatype Columns = Columns(prevAction: seq<real>, prevDist: seq<real>, lifted: seq<bool>)

  /** Lazy initialisation: a missing or wrongly sized column becomes zeros,
      the current separations, or all false respectively. */
  function Initialise(s: TrackerState, obs: seq<Observation>): (c: Columns)
    ensures |c.prevAction| == |obs| && |c.prevDist| == |obs| && |c.lifted| == |obs|
    ensures !NeedsInit(s.lastGripperAction, |obs|) ==> c.prevAction == s.lastGripperAction.value
    ensures !NeedsInit(s.lastFingerDist, |obs|) ==> c.prevDist == s.lastFingerDist.value
    ensures !NeedsInit(s.hasBeenLifted, |obs|) ==> c.lifted == s.hasBeenLifted.value
  {
    Columns(Reinit(s.lastGripperAction, Zeros(|obs|)),
            Reinit(s.lastFingerDist, FingerDists(obs)),
            Reinit(s.hasBeenLifted, Falses(|obs|)))
  }

  /** Initialisation, then the lifted flag cleared on the rows of `reset_buf`. */
  function Prepare(s: TrackerState, obs: seq<Observation>, resetBuf: seq<bool>): (c: Columns)
    requires |resetBuf| == |obs|
    ensures |c.prevAction| == |obs| && |c.prevDist| == |obs| && |c.lifted| == |obs|
    ensures forall i :: 0 <= i < |obs| && resetBuf[i] ==> !c.lifted[i]
  {
    var c := Initialise(s, obs);
    c.(lifted := Masked(c.lifted, resetBuf, Falses(|obs|)))
  }

  /** This step's clamp flags. */
  function Clamped(s: TrackerState, obs: seq<Observation>, resetBuf: seq<bool>): (r: seq<bool>)
    requires |resetBuf| == |obs|
    ensures |r| == |obs|
    ensures forall i :: 0 <= i < |obs| && r[i] ==> InBand(obs[i].fingerDist)
  {
    var c := Prepare(s, obs, resetBuf);
    ClampMask(c.prevAction, c.prevDist, obs)
  }

  function Rewards(p: Params, exp: real -> real, obs: seq<Observation>, clamped: seq<bool>, lifted: seq<bool>): (r: seq<real>)
    requires ValidParams(p) && |clamped| == |obs| && |lifted| == |obs|
    ensures |r| == |obs|
    ensures forall i :: 0 <= i < |obs| ==> r[i] == RowReward(p, exp, obs[i], clamped[i], lifted[i])
  {
    seq(|obs|, i requires 0 <= i < |obs| => RowReward(p, exp, obs[i], clamped[i], lifted[i]))
  }

  datatype StepResult = StepResult(state: TrackerState, reward: seq<real>)

  /** One call of the reward function: the new globals and the reward vector. */
  function Transition(p: Params, exp: real -> real, s: TrackerState, obs: seq<Observation>, resetBuf: seq<bool>): (r: StepResult)
    requires ValidParams(p) && |resetBuf| == |obs|
    ensures r.state.lastGripperAction == Some(Actions(obs)) && r.state.lastFingerDist == Some(FingerDists(obs))
    ensures r.state.hasBeenLifted.Some? && |r.state.hasBeenLifted.value| == |obs| && |r.reward| == |obs|
    ensures forall i :: 0 <= i < |obs| && Initialise(s, obs).lifted[i] && !resetBuf[i] ==> r.state.hasBeenLifted.value[i]
  {
    var c := Prepare(s, obs, resetBuf);
    var clamped := Clamped(s, obs, resetBuf);
    var lifted := Lifted(c.lifted, clamped, obs);
    StepResult(TrackerState(Some(Actions(obs)), Some(FingerDists(obs)), Some(lifted)),
               Rewards(p, exp, obs, clamped, lifted))
  }

  // ----- Properties of one step -----

  /** A missing or wrongly sized column starts neutral: command 0, previous
      separation equal to the current one, never lifted. */
  lemma InitialiseNeutral(s: TrackerState, obs: seq<Observation>, resetBuf: seq<bool>)
    requires |resetBuf| == |obs|
    ensures NeedsInit(s.lastGripperAction, |obs|) ==> Prepare(s, obs, resetBuf).prevAction == Zeros(|obs|)
    ensures NeedsInit(s.lastFingerDist, |obs|) ==> Prepare(s, obs, resetBuf).prevDist == FingerDists(obs)
    ensures NeedsInit(s.hasBeenLifted, |obs|) ==> Prepare(s, obs, resetBuf).lifted == Falses(|obs|)
  {}

  /** The reset clears the lifted flag exactly on the reset rows, and leaves
      the previous command and separation alone. */
  lemma ResetClearsOnlyResetRows(s: TrackerState, obs: seq<Observation>, resetBuf: seq<bool>)
    requires |resetBuf| == |obs|
    ensures var c := Prepare(s, obs, resetBuf);
      c.prevAction == Initialise(s, obs).prevAction && c.prevDist == Initialise(s, obs).prevDist &&
      forall i :: 0 <= i < |obs| ==> (c.lifted[i] <==> Initialise(s, obs).lifted[i] && !resetBuf[i])
  {}

  /** The clamp flag of a row, in the source's terms. */
  lemma ClampedIff(s: TrackerState, obs: seq<Observation>, resetBuf: seq<bool>, i: nat)
    requires |resetBuf| == |obs| && i < |obs|
    ensures var c := Prepare(s, obs, resetBuf); var d := obs[i].fingerDist;
      Clamped(s, obs, resetBuf)[i] <==>
        c.prevAction[i] != 0.0 && Abs(d - c.prevDist[i]) < 0.0001 && 0.03 < d < 0.1
  {}

  /** The lifted flag after a step: the (reset-cleared) old flag or a new
      lift. A row that was lifted and is not reset stays lifted. */
  lemma LiftedAfterStep(p: Params, exp: real -> real, s: TrackerState, obs: seq<Observation>, resetBuf: seq<bool>, i: nat)
    requires ValidParams(p) && |resetBuf| == |obs| && i < |obs|
    ensures var l := Transition(p, exp, s, obs, resetBuf).state.hasBeenLifted;
      l.Some? && |l.value| == |obs| &&
      (l.value[i] <==> Prepare(s, obs, resetBuf).lifted[i]
                       || (Clamped(s, obs, resetBuf)[i] && obs[i].height > 0.03))
    ensures !NeedsInit(s.hasBeenLifted, |obs|) && s.hasBeenLifted.value[i] && !resetBuf[i] ==>
      Transition(p, exp, s, obs, resetBuf).state.hasBeenLifted.value[i]
  {}

  /** The reward of each row is its row reward under this step's flags. */
  lemma RewardOfRow(p: Params, exp: real -> real, s: TrackerState, obs: seq<Observation>, resetBuf: seq<bool>, i: nat)
    requires ValidParams(p) && |resetBuf| == |obs| && i < |obs|
    ensures var r := Transition(p, exp, s, obs, resetBuf);
      r.reward[i] == RowReward(p, exp, obs[i], Clamped(s, obs, resetBuf)[i], r.state.hasBeenLifted.value[i])
  {}

  /** A row flagged in `reset_buf` that does not lift anew this step ends
      the step unlifted, so it earns neither the success bonus nor the drop
      penalty. */
  lemma ResetRowEarnsNoBonus(p: Params, exp: real -> real, s: TrackerState, obs: seq<Observation>, resetBuf: seq<bool>, i: nat)
    requires ValidParams(p) && |resetBuf| == |obs| && i < |obs|
    requires resetBuf[i] && !LiftsNow(Clamped(s, obs, resetBuf)[i], obs[i].height)
    ensures var l := Transition(p, exp, s, obs, resetBuf).state.hasBeenLifted.value[i];
      !l && !IsSuccess(obs[i], l) && !DroppedMidway(obs[i], Clamped(s, obs, resetBuf)[i], l)
  {}

  /** Unlike the termination tracker, this reset keeps the previous command:
      a reset row can be clamped, and lifted again, in the step of its reset. */
  lemma ResetRowCanStayClamped()
    ensures var s := TrackerState(Some([1.0]), Some([0.05]), Some([true]));
      var obs := [Observation(0.05, 0.5, 0.0, 0.0, 0.05, 1.0)];
      Clamped(s, obs, [true])[0] && Transition(Configured, _ => 1.0, s, obs, [true]).state.hasBeenLifted.value[0]
  {}

  /** Rows are independent: what a row gets depends only on its own inputs
      and its own (initialised) state. */
  lemma RowsIndependent(p: Params, exp: real -> real,
                        s1: TrackerState, obs1: seq<Observation>, rb1: seq<bool>,
                        s2: TrackerState, obs2: seq<Observation>, rb2: seq<bool>, i: nat, j: nat)
    requires ValidParams(p) && |rb1| == |obs1| && |rb2| == |obs2| && i < |obs1| && j < |obs2|
    requires obs1[i] == obs2[j] && rb1[i] == rb2[j]
    requires var c1, c2 := Initialise(s1, obs1), Initialise(s2, obs2);
      c1.prevAction[i] == c2.prevAction[j] && c1.prevDist[i] == c2.prevDist[j] && c1.lifted[i] == c2.lifted[j]
    ensures var r1, r2 := Transition(p, exp, s1, obs1, rb1), Transition(p, exp, s2, obs2, rb2);
      r1.reward[i] == r2.reward[j] &&
      r1.state.hasBeenLifted.value[i] == r2.state.hasBeenLifted.value[j] &&
      r1.state.lastGripperAction.value[i] == r2.state.lastGripperAction.value[j] &&
      r1.state.lastFingerDist.value[i] == r2.state.lastFingerDist.value[j]
  {}

  // ----- Several steps -----

  /** One step's inputs. */
  datatype Batch = Batch(obs: seq<Observation>, resetBuf: seq<bool>)

  predicate BatchOk(b: Batch) {
    |b.resetBuf| == |b.obs|
  }

  /** The globals after a sequence of calls. */
  function Run(p: Params, exp: real -> real, s: TrackerState, steps: seq<Batch>): (r: TrackerState)
    requires ValidParams(p)
    requires forall k :: 0 <= k < |steps| ==> BatchOk(steps[k])
    decreases |steps|
  {
    if steps == [] then s
    else
      assert BatchOk(steps[0]);
      Run(p, exp, Transition(p, exp, s, steps[0].obs, steps[0].resetBuf).state, steps[1..])
  }

  predicate LiftedAt(s: TrackerState, n: nat, i: nat) {
    s.hasBeenLifted.Some? && |s.hasBeenLifted.value| == n && i < n && s.hasBeenLifted.value[i]
  }

  /** The lifted flag is sticky across calls: it stays set as long as the
      batch size is unchanged and the row is not reset. */
  lemma {:induction false} LiftedUntilReset(p: Params, exp: real -> real, s: TrackerState, steps: seq<Batch>, n: nat, i: nat)
    requires ValidParams(p) && i < n
    requires forall k :: 0 <= k < |steps| ==>
      BatchOk(steps[k]) && |steps[k].obs| == n && !steps[k].resetBuf[i]
    requires LiftedAt(s, n, i)
    ensures LiftedAt(Run(p, exp, s, steps), n, i)
    decreases |steps|
  {
    if steps != [] {
      var b := steps[0];
      LiftedAfterStep(p, exp, s, b.obs, b.resetBuf, i);
      LiftedUntilReset(p, exp, Transition(p, exp, s, b.obs, b.resetBuf).state, steps[1..], n, i);
    }
  }

  // ----- The globals as a mutable object -----

  /** The module globals `_LAST_GRIPPER_ACTION`, `_LAST_FINGER_DIST` and
      `_HAS_BEEN_LIFTED` (null stands for `None`). */
  class RewardTracker {
    var lastGripperAction: array?<real>
    var lastFingerDist: array?<real>
    var hasBeenLifted: array?<bool>

    /** Module load: every global is `None`. */
    constructor ()
      ensures View() == Unset
    {
      lastGripperAction, lastFingerDist, hasBeenLifted := null, null, null;
    }

    function View(): (v: TrackerState)
      reads this, lastGripperAction, lastFingerDist, hasBeenLifted
    {
      TrackerState(Column(lastGripperAction), Column(lastFingerDist), Column(hasBeenLifted))
    }

    /** `cube_transport_linear_reward`: one call, for the whole batch. */
    method Step(p: Params, exp: real -> real, obs: seq<Observation>, resetBuf: seq<bool>)
      returns (reward: array<real>)
      requires ValidParams(p) && |resetBuf| == |obs|
      modifies this, hasBeenLifted
      ensures fresh(reward)
      ensures View() == Transition(p, exp, old(View()), obs, resetBuf).state
      ensures reward[..] == Transition(p, exp, old(View()), obs, resetBuf).reward
      ensures lastGripperAction != null && lastGripperAction[..] == Actions(obs)
      ensures lastFingerDist != null && lastFingerDist[..] == FingerDists(obs)
      ensures hasBeenLifted != null && hasBeenLifted.Length == |obs|
      ensures forall i :: 0 <= i < |obs| && old(LiftedAt(View(), |obs|, i)) && !resetBuf[i] ==> hasBeenLifted[i]
    {
      ghost var s0 := View();
      InitialiseColumns(obs);
      // Rows flagged in reset_buf are no longer lifted.
      AssignWhere(hasBeenLifted, resetBuf, Falses(|obs|));
      assert hasBeenLifted[..] == Prepare(s0, obs, resetBuf).lifted;
      // The clamp flags, from the previous command and separation.
      var clamped := ClampColumn(lastGripperAction, lastFingerDist, obs);
      hasBeenLifted := LiftedColumn(hasBeenLifted, clamped, obs);
      reward := RewardColumn(p, exp, obs, clamped, hasBeenLifted);
      // Advance the "previous" vectors.
      lastGripperAction := NewColumn(Actions(obs));
      lastFingerDist := NewColumn(FingerDists(obs));
    }

    /** The lazy initialisation of each global. */
    method InitialiseColumns(obs: seq<Observation>)
      modifies this
      ensures lastGripperAction != null && lastFingerDist != null && hasBeenLifted != null
      ensures Columns(lastGripperAction[..], lastFingerDist[..], hasBeenLifted[..]) == Initialise(old(View()), obs)
      ensures hasBeenLifted == old(hasBeenLifted) || fresh(hasBeenLifted)
      ensures old(hasBeenLifted) != null && old(hasBeenLifted.Length) == |obs| ==> hasBeenLifted == old(hasBeenLifted)
    {
      var n := |obs|;
      if lastGripperAction == null || lastGripperAction.Length != n {
        lastGripperAction := NewColumn(Zeros(n));
      }
      if lastFingerDist == null || lastFingerDist.Length != n {
        lastFingerDist := NewColumn(FingerDists(obs));
      }
      if hasBeenLifted == null || hasBeenLifted.Length != n {
        hasBeenLifted := NewColumn(Falses(n));
      }
    }
  }

  /** The reward vector, built term by term for every row. */
  method RewardColumn(p: Params, exp: real -> real, obs: seq<Observation>, clamped: array<bool>, lifted: array<bool>)
    returns (reward: array<real>)
    requires ValidParams(p) && clamped.Length == |obs| && lifted.Length == |obs|
    ensures fresh(reward)
    ensures reward[..] == Rewards(p, exp, obs, clamped[..], lifted[..])
  {
    reward := new real[|obs|];
    var i := 0;
    while i < |obs|
      invariant 0 <= i <= |obs|
      invariant forall k :: 0 <= k < i ==> reward[k] == RowReward(p, exp, obs[k], clamped[k], lifted[k])
    {
      var o := obs[i];
      var total := 0.0;
      total := total + (if clamped[i] then ClampBonus else 0.0);
      total := total + Approach(p, o.tcpDist);
      total := total + Pose(o.tcpDist, o.fingerDist);
      total := total + Lift(p, exp, o, clamped[i]);
      total := total + Transport(p, o, clamped[i]);
      total := total + Descend(exp, o, clamped[i]);
      if lifted[i] && AtGoal(o) {
        total := total + SuccessBonus;
      }
      if lifted[i] && !clamped[i] && !AtGoal(o) {
        total := total - DropPenalty;
      }
      if OutOfTable(o) {
        total := total - OutPenalty;
      }
      reward[i] := total - StepCost;
      i := i + 1;
    }
  }
}
