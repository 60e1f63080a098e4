/** The termination terms and their own copy of the grasp/lift tracker
    (`_compute_state` over four module globals). */
module Terminations {
  import opened Wrappers
  import opened Task

  // ----- The tracker state -----

  /** The four module globals, each `None` until first initialised. */
  datatype TrackerState = TrackerState(
    lastGripperAction: Option<seq<real>>,
    lastFingerDist: Option<seq<real>>,
    hasBeenLifted: Option<seq<bool>>,
    isClamp: Option<seq<bool>>)

  const Unset: TrackerState := TrackerState(None, None, None, None)

  /** The state after initialisation (and, in `Prepare`, after the reset). */
  datatype Columns = Columns(prevAction: seq<real>, prevDist: seq<real>, lifted: seq<bool>, clamp: seq<bool>)

  predicate Sized(c: Columns, n: nat) {
    |c.prevAction| == n && |c.prevDist| == n && |c.lifted| == n && |c.clamp| == n
  }

  /** Lazy initialisation: a missing or wrongly sized column becomes zeros,
      the current separations, all false, all false. */
  function Initialise(s: TrackerState, obs: seq<Observation>): (c: Columns)
    ensures Sized(c, |obs|)
    ensures !NeedsInit(s.lastGripperAction, |obs|) ==> c.prevAction == s.lastGripperAction.value
    ensures !NeedsInit(s.lastFingerDist, |obs|) ==> c.prevDist == s.lastFingerDist.value
    ensures !NeedsInit(s.hasBeenLifted, |obs|) ==> c.lifted == s.hasBeenLifted.value
    ensures !NeedsInit(s.isClamp, |obs|) ==> c.clamp == s.isClamp.value
  {
    Columns(Reinit(s.lastGripperAction, Zeros(|obs|)),
            Reinit(s.lastFingerDist, FingerDists(obs)),
            Reinit(s.hasBeenLifted, Falses(|obs|)),
            Reinit(s.isClamp, Falses(|obs|)))
  }

  /** The rows this call treats as freshly reset: episode length at most 1. */
  function ResetMask(episodeLength: seq<int>): (r: seq<bool>)
    ensures |r| == |episodeLength|
    ensures forall i :: 0 <= i < |episodeLength| ==> (r[i] <==> episodeLength[i] <= 1)
  {
    seq(|episodeLength|, i requires 0 <= i < |episodeLength| => episodeLength[i] <= 1)
  }

  /** Initialisation, then the reset of the masked rows: not lifted, not
      clamped, command 0, previous separation seeded from the current one. */
  function Prepare(s: TrackerState, obs: seq<Observation>, episodeLength: seq<int>): (c: Columns)
    requires |episodeLength| == |obs|
    ensures Sized(c, |obs|)
  {
    var c := Initialise(s, obs);
    var mask := ResetMask(episodeLength);
    Columns(Masked(c.prevAction, mask, Zeros(|obs|)),
            Masked(c.prevDist, mask, FingerDists(obs)),
            Masked(c.lifted, mask, Falses(|obs|)),
            Masked(c.clamp, mask, Falses(|obs|)))
  }

  /** One call of `_compute_state`: the new globals. */
  function ComputeStateSpec(s: TrackerState, obs: seq<Observation>, episodeLength: seq<int>): (r: TrackerState)
    requires |episodeLength| == |obs|
    ensures r.lastGripperAction == Some(Actions(obs)) && r.lastFingerDist == Some(FingerDists(obs))
    ensures r.hasBeenLifted.Some? && |r.hasBeenLifted.value| == |obs|
    ensures r.isClamp.Some? && |r.isClamp.value| == |obs|
    ensures forall i :: 0 <= i < |obs| && r.hasBeenLifted.value[i] ==>
      episodeLength[i] > 1 && (Initialise(s, obs).lifted[i] || LiftsNow(r.isClamp.value[i], obs[i].height))
  {
    var c := Prepare(s, obs, episodeLength);
    var clamp := ClampMask(c.prevAction, c.prevDist, obs);
    TrackerState(Some(Actions(obs)), Some(FingerDists(obs)), Some(Lifted(c.lifted, clamp, obs)), Some(clamp))
  }

  // ----- Properties of one call -----

  /** A missing or wrongly sized column starts neutral. */
  lemma InitialiseNeutral(s: TrackerState, obs: seq<Observation>)
    ensures NeedsInit(s.lastGripperAction, |obs|) ==> Initialise(s, obs).prevAction == Zeros(|obs|)
    ensures NeedsInit(s.lastFingerDist, |obs|) ==> Initialise(s, obs).prevDist == FingerDists(obs)
    ensures NeedsInit(s.hasBeenLifted, |obs|) ==> Initialise(s, obs).lifted == Falses(|obs|)
    ensures NeedsInit(s.isClamp, |obs|) ==> Initialise(s, obs).clamp == Falses(|obs|)
  {}

  /** The reset sets the four columns on exactly the rows whose episode
      length is at most 1, and leaves every other row as it was. */
  lemma ResetOnlyResetRows(s: TrackerState, obs: seq<Observation>, episodeLength: seq<int>, i: nat)
    requires |episodeLength| == |obs| && i < |obs|
    ensures var c, c0 := Prepare(s, obs, episodeLength), Initialise(s, obs);
      if episodeLength[i] <= 1 then
        c.prevAction[i] == 0.0 && c.prevDist[i] == obs[i].fingerDist && !c.lifted[i] && !c.clamp[i]
      else
        c.prevAction[i] == c0.prevAction[i] && c.prevDist[i] == c0.prevDist[i] &&
        c.lifted[i] == c0.lifted[i] && c.clamp[i] == c0.clamp[i]
  {}

  /** A row reset in this call is neither clamped nor lifted at its end: its
      previous command was just zeroed. */
  lemma ResetRowNotClamped(s: TrackerState, obs: seq<Observation>, episodeLength: seq<int>, i: nat)
    requires |episodeLength| == |obs| && i < |obs| && episodeLength[i] <= 1
    ensures var r := ComputeStateSpec(s, obs, episodeLength);
      !r.isClamp.value[i] && !r.hasBeenLifted.value[i]
  {
    var c := Prepare(s, obs, episodeLength);
    assert c.prevAction[i] == 0.0;
    NeutralCommandNeverClamps(c.prevDist[i], obs[i].fingerDist);
  }

  /** The clamp flag of a row, in the source's terms. */
  lemma ClampIff(s: TrackerState, obs: seq<Observation>, episodeLength: seq<int>, i: nat)
    requires |episodeLength| == |obs| && i < |obs|
    ensures var c := Prepare(s, obs, episodeLength); var d := obs[i].fingerDist;
      ComputeStateSpec(s, obs, episodeLength).isClamp.value[i] <==>
        c.prevAction[i] != 0.0 && Abs(d - c.prevDist[i]) < 0.0001 && d > 0.03 && d < 0.1
  {}

  /** The lifted flag after a call: the (reset-cleared) old flag or a new
      lift; a lifted row that is not reset stays lifted. */
  lemma LiftedAfterCall(s: TrackerState, obs: seq<Observation>, episodeLength: seq<int>, i: nat)
    requires |episodeLength| == |obs| && i < |obs|
    ensures var r := ComputeStateSpec(s, obs, episodeLength);
      r.hasBeenLifted.value[i] <==>
        Prepare(s, obs, episodeLength).lifted[i] || (r.isClamp.value[i] && obs[i].height > 0.03)
    ensures !NeedsInit(s.hasBeenLifted, |obs|) && s.hasBeenLifted.value[i] && episodeLength[i] > 1 ==>
      ComputeStateSpec(s, obs, episodeLength).hasBeenLifted.value[i]
  {}

  /** After the call the previous command and separation are this step's. */
  lemma StoresCurrent(s: TrackerState, obs: seq<Observation>, episodeLength: seq<int>)
    requires |episodeLength| == |obs|
    ensures var r := ComputeStateSpec(s, obs, episodeLength);
      r.lastGripperAction == Some(Actions(obs)) && r.lastFingerDist == Some(FingerDists(obs))
  {}

  // ----- Several calls -----

  /** One call's inputs. */
  datatype Batch = Batch(obs: seq<Observation>, episodeLength: seq<int>)

  predicate BatchOk(b: Batch) {
    |b.episodeLength| == |b.obs|
  }

  /** The globals after a sequence of calls. */
  function Run(s: TrackerState, steps: seq<Batch>): (r: TrackerState)
    requires forall k :: 0 <= k < |steps| ==> BatchOk(steps[k])
    decreases |steps|
  {
    if steps == [] then s
    else
      assert BatchOk(steps[0]);
      Run(ComputeStateSpec(s, steps[0].obs, steps[0].episodeLength), steps[1..])
  }

  predicate LiftedAt(s: TrackerState, n: nat, i: nat) {
    s.hasBeenLifted.Some? && |s.hasBeenLifted.value| == n && i < n && s.hasBeenLifted.value[i]
  }

  /** The lifted flag is sticky across calls: only a reset of the row (or a
      change of batch size) clears it. */
  lemma {:induction false} LiftedUntilReset(s: TrackerState, steps: seq<Batch>, n: nat, i: nat)
    requires i < n
    requires forall k :: 0 <= k < |steps| ==>
      BatchOk(steps[k]) && |steps[k].obs| == n && steps[k].episodeLength[i] > 1
    requires LiftedAt(s, n, i)
    ensures LiftedAt(Run(s, steps), n, i)
    decreases |steps|
  {
    if steps != [] {
      var b := steps[0];
      LiftedAfterCall(s, b.obs, b.episodeLength, i);
      LiftedUntilReset(ComputeStateSpec(s, b.obs, b.episodeLength), steps[1..], n, i);
    }
  }

  // ----- Classification of rows -----

  /** The rows a term is asked about: `env_ids`, or every row when omitted. */
  function Rows(envIds: Option<seq<nat>>, n: nat): (r: seq<nat>)
    ensures envIds.None? ==> |r| == n && forall k :: 0 <= k < n ==> r[k] == k
    ensures envIds.Some? ==> r == envIds.value
  {
    if envIds.None? then seq(n, k requires 0 <= k < n => k) else envIds.value
  }

  /** Every requested row exists in the batch. */
  predicate RowsOk(envIds: Option<seq<nat>>, n: nat) {
    envIds.Some? ==> forall k :: 0 <= k < |envIds.value| ==> envIds.value[k] < n
  }

  /** The termination's own out-of-bounds test (its floor is -0.1). At the
      goal the y bound can never fire. */
  predicate OffTable(o: Observation)
    ensures AtGoal(o) ==> (OffTable(o) <==> Abs(o.cubeX) > 0.4 || o.height < -0.1)
  {
    Abs(o.cubeX) > 0.4 || o.cubeY > 0.6 || o.height < -0.1
  }

  /** `cube_out_of_table`: reads no tracker state. */
  function CubeOutOfTable(obs: seq<Observation>, envIds: Option<seq<nat>>): (mask: seq<bool>)
    requires RowsOk(envIds, |obs|)
    ensures var rows := Rows(envIds, |obs|);
      |mask| == |rows| &&
      forall k :: 0 <= k < |rows| ==>
        (mask[k] <==> Abs(obs[rows[k]].cubeX) > 0.4 || obs[rows[k]].cubeY > 0.6 || obs[rows[k]].height < -0.1)
  {
    var rows := Rows(envIds, |obs|);
    seq(|rows|, k requires 0 <= k < |rows| => OffTable(obs[rows[k]]))
  }

  // ----- The globals as a mutable object -----

  /** The module globals `_LAST_GRIPPER_ACTION`, `_LAST_FINGER_DIST`,
      `_HAS_BEEN_LIFTED` and `_IS_CLAMP` (null stands for `None`). */
  class TerminationTracker {
    var lastGripperAction: array?<real>
    var lastFingerDist: array?<real>
    var hasBeenLifted: array?<bool>
    var isClamp: array?<bool>

    /** The two real columns, and the two flag columns, are separate
        vectors: every one of them was created by its own allocation. */
    predicate Valid()
      reads this
    {
      (lastGripperAction != null && lastFingerDist != null ==> lastGripperAction != lastFingerDist) &&
      (hasBeenLifted != null && isClamp != null ==> hasBeenLifted != isClamp)
    }

    /** Module load: every global is `None`. */
    constructor ()
      ensures Valid() && View() == Unset
    {
      lastGripperAction, lastFingerDist, hasBeenLifted, isClamp := null, null, null, null;
    }

    function View(): (v: TrackerState)
      reads this, lastGripperAction, lastFingerDist, hasBeenLifted, isClamp
    {
      TrackerState(Column(lastGripperAction), Column(lastFingerDist), Column(hasBeenLifted), Column(isClamp))
    }

    /** The flag columns can be read at every requested row. */
    predicate Readable(envIds: seq<nat>)
      reads this, hasBeenLifted, isClamp
    {
      hasBeenLifted != null && isClamp != null ==>
        forall k :: 0 <= k < |envIds| ==> envIds[k] < hasBeenLifted.Length && envIds[k] < isClamp.Length
    }

    /** `_compute_state`: one update of the tracker for the whole batch. */
    method ComputeState(obs: seq<Observation>, episodeLength: seq<int>)
      requires Valid() && |episodeLength| == |obs|
      modifies this, lastGripperAction, lastFingerDist, hasBeenLifted, isClamp
      ensures Valid()
      ensures View() == ComputeStateSpec(old(View()), obs, episodeLength)
      ensures lastGripperAction != null && lastGripperAction[..] == Actions(obs)
      ensures lastFingerDist != null && lastFingerDist[..] == FingerDists(obs)
      ensures hasBeenLifted != null && hasBeenLifted.Length == |obs|
      ensures isClamp != null && isClamp.Length == |obs|
      ensures forall i :: 0 <= i < |obs| && episodeLength[i] <= 1 ==> !isClamp[i] && !hasBeenLifted[i]
      ensures forall i :: 0 <= i < |obs| && old(LiftedAt(View(), |obs|, i)) && episodeLength[i] > 1 ==> hasBeenLifted[i]
    {
      ghost var s0 := View();
      InitialiseColumns(obs);
      ResetColumns(obs, episodeLength);
      assert Columns(lastGripperAction[..], lastFingerDist[..], hasBeenLifted[..], isClamp[..])
          == Prepare(s0, obs, episodeLength);
      // The clamp flags are a new vector; the lifted flags are OR-ed in place.
      isClamp := ClampColumn(lastGripperAction, lastFingerDist, obs);
      OrInLifts(hasBeenLifted, isClamp, obs);
      // Advance the "previous" vectors.
      lastGripperAction := NewColumn(Actions(obs));
      lastFingerDist := NewColumn(FingerDists(obs));
      forall i | 0 <= i < |obs| && episodeLength[i] <= 1
        ensures !isClamp[i] && !hasBeenLifted[i]
      {
        ResetRowNotClamped(s0, obs, episodeLength, i);
      }
    }

    /** The reset, in place, on the rows whose episode just started. */
    method ResetColumns(obs: seq<Observation>, episodeLength: seq<int>)
      requires Valid() && |episodeLength| == |obs|
      requires lastGripperAction != null && lastFingerDist != null && hasBeenLifted != null && isClamp != null
      requires lastGripperAction.Length == |obs| && lastFingerDist.Length == |obs|
      requires hasBeenLifted.Length == |obs| && isClamp.Length == |obs|
      modifies lastGripperAction, lastFingerDist, hasBeenLifted, isClamp
      ensures var mask := ResetMask(episodeLength);
        lastGripperAction[..] == Masked(old(lastGripperAction[..]), mask, Zeros(|obs|)) &&
        lastFingerDist[..] == Masked(old(lastFingerDist[..]), mask, FingerDists(obs)) &&
        hasBeenLifted[..] == Masked(old(hasBeenLifted[..]), mask, Falses(|obs|)) &&
        isClamp[..] == Masked(old(isClamp[..]), mask, Falses(|obs|))
    {
      var mask := ResetMask(episodeLength);
      AssignWhere(hasBeenLifted, mask, Falses(|obs|));
      AssignWhere(isClamp, mask, Falses(|obs|));
      AssignWhere(lastGripperAction, mask, Zeros(|obs|));
      AssignWhere(lastFingerDist, mask, FingerDists(obs));
    }

    /** The lazy initialisation of each global. */
    method InitialiseColumns(obs: seq<Observation>)
      requires Valid()
      modifies this
      ensures Valid()
      ensures lastGripperAction != null && lastFingerDist != null && hasBeenLifted != null && isClamp != null
      ensures Initialise(old(View()), obs)
           == Columns(lastGripperAction[..], lastFingerDist[..], hasBeenLifted[..], isClamp[..])
      ensures lastGripperAction == old(lastGripperAction) || fresh(lastGripperAction)
      ensures lastFingerDist == old(lastFingerDist) || fresh(lastFingerDist)
      ensures hasBeenLifted == old(hasBeenLifted) || fresh(hasBeenLifted)
      ensures isClamp == old(isClamp) || fresh(isClamp)
      ensures old(lastGripperAction) != null && old(lastGripperAction.Length) == |obs| ==> lastGripperAction == old(lastGripperAction)
      ensures old(lastFingerDist) != null && old(lastFingerDist.Length) == |obs| ==> lastFingerDist == old(lastFingerDist)
      ensures old(hasBeenLifted) != null && old(hasBeenLifted.Length) == |obs| ==> hasBeenLifted == old(hasBeenLifted)
      ensures old(isClamp) != null && old(isClamp.Length) == |obs| ==> isClamp == old(isClamp)
    {
      var n := |obs|;
      if lastGripperAction == null || lastGripperAction.Length != n {
        lastGripperAction := NewColumn(Zeros(n));
      }
      if lastFingerDist == null || lastFingerDist.Length != n {
        lastFingerDist := NewColumn(FingerDists(obs));
      }
      if hasBeenLifted == null || hasBeenLifted.Length != n {
        hasBeenLifted := NewColumn(Falses(n));
      }
      if isClamp == null || isClamp.Length != n {
        isClamp := NewColumn(Falses(n));
      }
    }

    /** `_safe_lifted_and_clamp`: the lifted and clamp flags of the requested
        rows, or all false while either column is still `None`. */
    function SafeLiftedAndClamp(envIds: seq<nat>): (r: (seq<bool>, seq<bool>))
      reads this, hasBeenLifted, isClamp
      requires Readable(envIds)
      ensures |r.0| == |envIds| && |r.1| == |envIds|
      ensures hasBeenLifted == null || isClamp == null ==>
        forall k :: 0 <= k < |envIds| ==> !r.0[k] && !r.1[k]
      ensures hasBeenLifted != null && isClamp != null ==>
        forall k :: 0 <= k < |envIds| ==> r.0[k] == hasBeenLifted[envIds[k]] && r.1[k] == isClamp[envIds[k]]
    {
      if hasBeenLifted == null || isClamp == null then
        (Falses(|envIds|), Falses(|envIds|))
      else
        var lifted, clamp := hasBeenLifted[..], isClamp[..];
        (seq(|envIds|, k requires 0 <= k < |envIds| => lifted[envIds[k]]),
         seq(|envIds|, k requires 0 <= k < |envIds| => clamp[envIds[k]]))
    }

    /** What `task_success` returns once the state is updated: lifted and at
        the goal. */
    function SuccessMask(obs: seq<Observation>, envIds: Option<seq<nat>>): (mask: seq<bool>)
      reads this, hasBeenLifted, isClamp
      requires RowsOk(envIds, |obs|) && Readable(Rows(envIds, |obs|))
      ensures var rows := Rows(envIds, |obs|);
        |mask| == |rows| &&
        forall k :: 0 <= k < |rows| ==> (mask[k] <==> SafeLiftedAndClamp(rows).0[k] && AtGoal(obs[rows[k]]))
    {
      var rows := Rows(envIds, |obs|);
      var flags := SafeLiftedAndClamp(rows);
      seq(|rows|, k requires 0 <= k < |rows| => flags.0[k] && AtGoal(obs[rows[k]]))
    }

    /** `task_fail_drop`: lifted, no longer clamped, and not at the goal. It
        only reads the state. */
    function TaskFailDrop(obs: seq<Observation>, envIds: Option<seq<nat>>): (mask: seq<bool>)
      reads this, hasBeenLifted, isClamp
      requires RowsOk(envIds, |obs|) && Readable(Rows(envIds, |obs|))
      ensures var rows := Rows(envIds, |obs|);
        |mask| == |rows| &&
        forall k :: 0 <= k < |rows| ==>
          (mask[k] <==> SafeLiftedAndClamp(rows).0[k] && !SafeLiftedAndClamp(rows).1[k] && !AtGoal(obs[rows[k]]))
    {
      var rows := Rows(envIds, |obs|);
      var flags := SafeLiftedAndClamp(rows);
      seq(|rows|, k requires 0 <= k < |rows| => flags.0[k] && !flags.1[k] && !AtGoal(obs[rows[k]]))
    }

    /** `task_success`: update the tracker, then read the success mask. */
    method TaskSuccess(obs: seq<Observation>, episodeLength: seq<int>, envIds: Option<seq<nat>>)
      returns (mask: seq<bool>)
      requires Valid() && |episodeLength| == |obs| && RowsOk(envIds, |obs|)
      modifies this, lastGripperAction, lastFingerDist, hasBeenLifted, isClamp
      ensures Valid()
      ensures View() == ComputeStateSpec(old(View()), obs, episodeLength)
      ensures Readable(Rows(envIds, |obs|)) && mask == SuccessMask(obs, envIds)
      ensures var rows := Rows(envIds, |obs|); var lifted := View().hasBeenLifted.value;
        |mask| == |rows| &&
        forall k :: 0 <= k < |rows| ==> (mask[k] <==> lifted[rows[k]] && AtGoal(obs[rows[k]]))
      ensures var rows := Rows(envIds, |obs|);
        forall k :: 0 <= k < |rows| && episodeLength[rows[k]] <= 1 ==> !mask[k]
    {
      ComputeState(obs, episodeLength);
      mask := SuccessMask(obs, envIds);
    }
  }

  // ----- Properties of the classifiers -----

  /** On the same state and inputs, success and drop-failure never flag the
      same row. */
  lemma SuccessExcludesFailDrop(t: TerminationTracker, obs: seq<Observation>, envIds: Option<seq<nat>>)
    requires RowsOk(envIds, |obs|) && t.Readable(Rows(envIds, |obs|))
    ensures var s, f := t.SuccessMask(obs, envIds), t.TaskFailDrop(obs, envIds);
      forall k :: 0 <= k < |s| ==> !(s[k] && f[k])
  {}

  /** Before the tracker has ever run, nothing succeeds and nothing fails. */
  lemma UnsetClassifiesNothing(t: TerminationTracker, obs: seq<Observation>, envIds: Option<seq<nat>>)
    requires t.hasBeenLifted == null && RowsOk(envIds, |obs|)
    ensures var s, f := t.SuccessMask(obs, envIds), t.TaskFailDrop(obs, envIds);
      forall k :: 0 <= k < |s| ==> !s[k] && !f[k]
  {}

  /** A row that is not lifted is neither a success nor a drop-failure;
      after `_compute_state` this covers every row reset in that call. */
  lemma UnliftedRowNotClassified(t: TerminationTracker, obs: seq<Observation>, i: nat)
    requires t.hasBeenLifted != null && t.isClamp != null
    requires t.hasBeenLifted.Length == |obs| && t.isClamp.Length == |obs|
    requires i < |obs| && !t.hasBeenLifted[i]
    ensures t.Readable(Rows(None, |obs|))
    ensures !t.SuccessMask(obs, None)[i] && !t.TaskFailDrop(obs, None)[i]
  {}
}
