/** How the reward's tracker and the termination's tracker relate: their
    update rules must agree wherever neither of them resets the row. */
module Consistency {
  import opened Task
  import R = TransportReward
  import T = Terminations

  /** On a row that neither tracker resets this step and whose stored
      command, separation and lifted flag agree, both trackers infer the
      same clamp and lifted flags, so the reward's success and drop tests
      coincide with the success and drop-failure terminations. */
  lemma TrackersAgreeOnQuietRows(p: R.Params, exp: real -> real,
                                 rs: R.TrackerState, resetBuf: seq<bool>,
                                 ts: T.TrackerState, episodeLength: seq<int>,
                                 obs: seq<Observation>, i: nat)
    requires R.ValidParams(p) && |resetBuf| == |obs| && |episodeLength| == |obs| && i < |obs|
    requires !resetBuf[i] && episodeLength[i] > 1
    requires var rc, tc := R.Initialise(rs, obs), T.Initialise(ts, obs);
      rc.prevAction[i] == tc.prevAction[i] && rc.prevDist[i] == tc.prevDist[i] && rc.lifted[i] == tc.lifted[i]
    ensures var clamped := R.Clamped(rs, obs, resetBuf)[i];
      var rLifted := R.Transition(p, exp, rs, obs, resetBuf).state.hasBeenLifted.value[i];
      var t := T.ComputeStateSpec(ts, obs, episodeLength);
      clamped == t.isClamp.value[i] && rLifted == t.hasBeenLifted.value[i] &&
      (R.IsSuccess(obs[i], rLifted) <==> t.hasBeenLifted.value[i] && AtGoal(obs[i])) &&
      (R.DroppedMidway(obs[i], clamped, rLifted) <==>
         t.hasBeenLifted.value[i] && !t.isClamp.value[i] && !AtGoal(obs[i]))
  {
    R.LiftedAfterStep(p, exp, rs, obs, resetBuf, i);
    T.LiftedAfterCall(ts, obs, episodeLength, i);
  }

  /** Every row the termination throws out as off the table also pays the
      reward's out-of-bounds penalty in that step (the reward's floor,
      -0.05, is the tighter one). */
  lemma OffTableIsPenalised(o: Observation)
    ensures T.OffTable(o) ==> R.OutOfTable(o)
  {}

  /** The converse fails: between the two floors the penalty applies while
      the episode goes on. */
  lemma PenaltyWithoutTermination()
    ensures var o := Observation(0.05, 0.2, 0.0, 0.0, -0.07, 0.0);
      R.OutOfTable(o) && !T.OffTable(o)
  {}
}
