# Cube-transport task logic: grasp/lift tracker, shaped reward, terminations

This project models the task-logic layer of a reinforcement-learning task.
A simulated arm must grasp a cube, lift it, carry it to a goal line at
y = -0.35 and put it down, in N parallel environments that all advance in
lock-step. The layer has two parts, and each keeps its own module-level state:

* **The reward term** (`cube_transport_linear_reward`) keeps three columns of
  length N: the previous gripper command, the previous finger separation and
  the sticky "has been lifted" flag. On each call it does the following:
  - it initialises any column that is missing or has the wrong length;
  - it clears the lifted flag of the rows flagged in `reset_buf`;
  - it infers a clamp (grasp) flag from the previous command and the
    finger-separation drift and band;
  - it ORs a new lift into the lifted flag;
  - it sums ten reward terms per row;
  - it advances the previous-command and previous-separation columns.
* **The termination terms** keep their own copy of that tracker
  (`_compute_state`), with a fourth column for the clamp flag. Here the reset
  is keyed on `episode_length_buf <= 1` and also zeroes the previous command
  and re-seeds the previous separation. Three readers sit on top:
  `task_success`, `task_fail_drop` and `cube_out_of_table`, plus the guarded
  read `_safe_lifted_and_clamp`.

Layout:

* `common.dfy`, module `Task`. It holds the per-row inputs (`Observation`),
  the grasp heuristic (`IsClamped`: non-zero previous command, drift
  `< 1e-4`, `0.03 < d < 0.1`), the lift rule, the goal test, and the column
  operations both trackers use: lazy init, masked write, clamp column and
  lifted column. Module `Wrappers` holds `Option`.
* `rewards.dfy`, module `TransportReward`. It has the ten reward terms as
  functions with their ranges and the pure transition `Transition` of one
  call. It also has `RewardTracker`, a class with nullable array fields
  (null is Python's `None`). Its `Step` method is proved to produce exactly
  `Transition`'s new state and reward vector. A multi-call `Run` and an
  induction lemma show the lifted flag is sticky.
* `terminations.dfy`, module `Terminations`. It has the pure
  `ComputeStateSpec` and `TerminationTracker`. `ComputeState` and
  `TaskSuccess` are its mutating methods. `SafeLiftedAndClamp`,
  `SuccessMask` and `TaskFailDrop` are functions that only read the state.
  `CubeOutOfTable` reads no state.
* `consistency.dfy`, module `Consistency`. It relates the two trackers.

In-place updates and reassignments follow the source:
- the reward's reset write to the lifted column is in place; its lifted
  update and its "previous" columns are new vectors;
- the termination's four reset writes and its lifted `|=` are in place; its
  clamp column and "previous" columns are new vectors.

`TerminationTracker.Valid()` says its two real columns, and its two flag
columns, are never the same array; the source always allocates them
separately, and its in-place writes (the four reset writes and the lifted
`|=` that reads the clamp column) would otherwise interfere. `RewardTracker`
needs no such invariant: its only in-place write is the reset of the lifted
column, and no other column of the same type is live during that write.

Behaviour worth knowing (the model follows the code in each case):
- The success bonus is added on every call in which success holds, as the
  comment at rewards_cfg.py:169 says, not only on the call where it first
  becomes true.
- The reward's reset (rewards_cfg.py:58-61) clears only the lifted flag. So
  in the reward tracker a reset row can still be clamped, and lifted again,
  in the call of its reset (`ResetRowCanStayClamped`). The termination's
  reset (terminations_cfg.py:55-61) also zeroes the previous command, so
  there it cannot (`ResetRowNotClamped`).
- The transport term is active while the lift error is below 0.1
  (rewards_cfg.py:138); the comment at rewards_cfg.py:137 speaks of 0.05.
- On the first call after a reset, the pose term is active as well as the
  approach term and the step cost.
- The two out-of-table floors differ: -0.05 in the reward
  (rewards_cfg.py:165), -0.1 in the termination (terminations_cfg.py:178).
- A row flagged in `reset_buf` that does not lift again in that call ends
  the call unlifted. So it earns neither the success bonus nor the drop
  penalty in that call (`ResetRowEarnsNoBonus`). Whether `reset_buf` already
  holds this step's terminations when the reward runs depends on the host
  framework, which is not part of this model.

## Model

| member | source | states |
|---|---|---|
| `Task.IsClamped` | first_rl/source/first_rl/first_rl/tasks/manager_based/first_rl/mdp/rewards_cfg.py:73-75 | the grasp test needs a non-zero previous command, drift below 1e-4 and 0.03 < d < 0.1; a clamp implies the previous separation lay within 1e-4 of that band |
| `Task.AtGoal` | first_rl/source/first_rl/first_rl/tasks/manager_based/first_rl/mdp/terminations_cfg.py:116-118 | the goal test (within 0.05 of y = -0.35 and height below 0.05) only holds for -0.4 < y < -0.3 |
| `Task.ClampMask` | first_rl/source/first_rl/first_rl/tasks/manager_based/first_rl/mdp/rewards_cfg.py:73-75 | row i is clamped iff the previous command is non-zero, the separation drifted by less than 1e-4 and it lies strictly between 0.03 and 0.1 |
| `Task.Lifted` | first_rl/source/first_rl/first_rl/tasks/manager_based/first_rl/mdp/rewards_cfg.py:78 | the new lifted flag is the old one OR (clamped AND height > 0.03), row by row; the length is N |
| `Task.Reinit` | first_rl/source/first_rl/first_rl/tasks/manager_based/first_rl/mdp/rewards_cfg.py:49-56 | a column that is missing or not of length N is replaced by the seed; one of length N is kept |
| `Task.NewColumn` | first_rl/source/first_rl/first_rl/tasks/manager_based/first_rl/mdp/rewards_cfg.py:49-56 | a freshly allocated array holding the given values, as `torch.zeros` and `clone()` give |
| `Task.Masked` | first_rl/source/first_rl/first_rl/tasks/manager_based/first_rl/mdp/terminations_cfg.py:57-61 | a masked write: selected rows take the new value, all other rows keep the old one |
| `Task.AssignWhere` | first_rl/source/first_rl/first_rl/tasks/manager_based/first_rl/mdp/rewards_cfg.py:59-61 | the in-place masked write leaves the array equal to `Masked` of its old contents |
| `Task.ClampColumn` | first_rl/source/first_rl/first_rl/tasks/manager_based/first_rl/mdp/terminations_cfg.py:70-79 | builds a fresh clamp vector equal to `ClampMask` of the previous columns |
| `Task.LiftedColumn` | first_rl/source/first_rl/first_rl/tasks/manager_based/first_rl/mdp/rewards_cfg.py:78 | builds a fresh vector equal to `Lifted` of the old flags |
| `Task.OrInLifts` | first_rl/source/first_rl/first_rl/tasks/manager_based/first_rl/mdp/terminations_cfg.py:82 | the in-place OR-assignment leaves the flags equal to `Lifted` of their old contents |
| `Task.NeutralCommandNeverClamps` | first_rl/source/first_rl/first_rl/tasks/manager_based/first_rl/mdp/terminations_cfg.py:74-79 | a zero previous command never yields a clamp |
| `Task.SeededRowIsStatic` | first_rl/source/first_rl/first_rl/tasks/manager_based/first_rl/mdp/terminations_cfg.py:61-79 | with the previous separation seeded from the current one, the clamp depends only on the command and the band |
| `TransportReward.ParamsValid` | first_rl/source/first_rl/first_rl/tasks/manager_based/first_rl/mdp/rewards_cfg.py:25-27 | the signature's defaults (1.2, 0.2, 1.2) and the configured values (1.0, 0.1, 0.8, rewards_cfg.py:209-211) both have positive divisors |
| `TransportReward.Approach` | first_rl/source/first_rl/first_rl/tasks/manager_based/first_rl/mdp/rewards_cfg.py:88 | in [0, 1] for distance >= 0; 0 exactly from the cutoff on; 1 exactly at distance 0 |
| `TransportReward.ApproachMonotone` | first_rl/source/first_rl/first_rl/tasks/manager_based/first_rl/mdp/rewards_cfg.py:88 | a smaller TCP-to-cube distance never gets a smaller approach term |
| `TransportReward.FarPose` | first_rl/source/first_rl/first_rl/tasks/manager_based/first_rl/mdp/rewards_cfg.py:96-103 | in [0, 1), 0 at or beyond both physical finger limits, positive strictly between them |
| `TransportReward.FarPoseTriangular` | first_rl/source/first_rl/first_rl/tasks/manager_based/first_rl/mdp/rewards_cfg.py:97-103 | the far pose term rises below 0.1 and falls from 0.1 on |
| `TransportReward.NearPose` | first_rl/source/first_rl/first_rl/tasks/manager_based/first_rl/mdp/rewards_cfg.py:107-109 | in [0, 1]; exactly 1 iff the separation is at most 0.04 - 1e-6; exactly 0 iff it is at least the upper limit |
| `TransportReward.Pose` | first_rl/source/first_rl/first_rl/tasks/manager_based/first_rl/mdp/rewards_cfg.py:92-114 | in [0, 0.2) beyond TCP distance 0.015, in [0, 1] up to it, and equal to the regime's term |
| `TransportReward.InDropZone` | first_rl/source/first_rl/first_rl/tasks/manager_based/first_rl/mdp/rewards_cfg.py:162 | the drop zone is y < -0.3, and every at-goal cube lies in it |
| `TransportReward.LiftError` | first_rl/source/first_rl/first_rl/tasks/manager_based/first_rl/mdp/rewards_cfg.py:125 | the distance to the target lift height is never negative and is 0 exactly on target |
| `TransportReward.Lift` | first_rl/source/first_rl/first_rl/tasks/manager_based/first_rl/mdp/rewards_cfg.py:121-130 | 0 when not clamped or in the drop zone (y < -0.3); otherwise in (0, 2] |
| `TransportReward.Transport` | first_rl/source/first_rl/first_rl/tasks/manager_based/first_rl/mdp/rewards_cfg.py:132-140 | 0 when not clamped or with lift error >= 0.1; in [0, 4]; 4 exactly when active and y = -0.35 |
| `TransportReward.Descend` | first_rl/source/first_rl/first_rl/tasks/manager_based/first_rl/mdp/rewards_cfg.py:142-148 | 0 when not clamped or outside the drop zone; otherwise in [0, 2] |
| `TransportReward.IsSuccess` | first_rl/source/first_rl/first_rl/tasks/manager_based/first_rl/mdp/rewards_cfg.py:156-159 | a success needs the lifted flag and happens only in the drop zone (y < -0.3) |
| `TransportReward.DroppedMidway` | first_rl/source/first_rl/first_rl/tasks/manager_based/first_rl/mdp/rewards_cfg.py:163 | a drop needs the lifted flag and no clamp; a lifted cube let go outside the drop zone is always a drop |
| `TransportReward.OutOfTable` | first_rl/source/first_rl/first_rl/tasks/manager_based/first_rl/mdp/rewards_cfg.py:165 | the reward's out-of-bounds test with floor -0.05; at the goal only the x bound and the floor can fire |
| `TransportReward.LiftDescendExclusive` | first_rl/source/first_rl/first_rl/tasks/manager_based/first_rl/mdp/rewards_cfg.py:121-148 | lift and descend are never both non-zero |
| `TransportReward.Shaping` | first_rl/source/first_rl/first_rl/tasks/manager_based/first_rl/mdp/rewards_cfg.py:83-148 | the six shaping terms sum to [0, 9], and to [0, 2] when not clamped |
| `TransportReward.SuccessExcludesDrop` | first_rl/source/first_rl/first_rl/tasks/manager_based/first_rl/mdp/rewards_cfg.py:156-163 | `is_success` and `dropped_midway` are never both true |
| `TransportReward.RowReward` | first_rl/source/first_rl/first_rl/tasks/manager_based/first_rl/mdp/rewards_cfg.py:80-189 | a row's reward lies in [-15.1, 38.9]; a success row gets at least 19.9 (29.9 if on the table); a dropped row at most -3.1 |
| `TransportReward.RewardDecomposition` | first_rl/source/first_rl/first_rl/tasks/manager_based/first_rl/mdp/rewards_cfg.py:167-189 | total = shaping + 30·[success] − 5·[dropped] − 10·[out of table] − 0.1 |
| `TransportReward.Initialise` | first_rl/source/first_rl/first_rl/tasks/manager_based/first_rl/mdp/rewards_cfg.py:49-56 | the lazy initialisation: every column has N entries, and a column that exists with N entries is kept unchanged (the seeds are stated by `InitialiseNeutral`) |
| `TransportReward.Prepare` | first_rl/source/first_rl/first_rl/tasks/manager_based/first_rl/mdp/rewards_cfg.py:49-61 | after initialisation and the reset, every column has N entries and no row flagged in `reset_buf` is lifted |
| `TransportReward.Clamped` | first_rl/source/first_rl/first_rl/tasks/manager_based/first_rl/mdp/rewards_cfg.py:73-75 | this call's clamp column has N entries, and a clamped row's separation lies strictly between 0.03 and 0.1 |
| `TransportReward.Rewards` | first_rl/source/first_rl/first_rl/tasks/manager_based/first_rl/mdp/rewards_cfg.py:80-189 | the reward vector has N entries, and entry i is the row reward of row i under its clamp and lifted flags |
| `TransportReward.Transition` | first_rl/source/first_rl/first_rl/tasks/manager_based/first_rl/mdp/rewards_cfg.py:17-194 | one call: the previous command and separation become this call's, the lifted column and the reward vector have N entries, and every row that was lifted and is not in `reset_buf` stays lifted |
| `TransportReward.InitialiseNeutral` | first_rl/source/first_rl/first_rl/tasks/manager_based/first_rl/mdp/rewards_cfg.py:48-56 | a missing or wrong-length column starts as zeros / the current separations / all false |
| `TransportReward.ResetClearsOnlyResetRows` | first_rl/source/first_rl/first_rl/tasks/manager_based/first_rl/mdp/rewards_cfg.py:58-61 | lifted is cleared exactly on the `reset_buf` rows; previous command and separation are untouched |
| `TransportReward.ClampedIff` | first_rl/source/first_rl/first_rl/tasks/manager_based/first_rl/mdp/rewards_cfg.py:72-75 | the step's clamp flag, stated with the source's thresholds, on the initialised previous values |
| `TransportReward.LiftedAfterStep` | first_rl/source/first_rl/first_rl/tasks/manager_based/first_rl/mdp/rewards_cfg.py:77-78 | new lifted iff (reset-cleared old lifted) or (clamped and height > 0.03); a lifted, non-reset row stays lifted |
| `TransportReward.RewardOfRow` | first_rl/source/first_rl/first_rl/tasks/manager_based/first_rl/mdp/rewards_cfg.py:80-174 | each row's reward is its row reward under this step's clamp flag and updated lifted flag |
| `TransportReward.ResetRowEarnsNoBonus` | first_rl/source/first_rl/first_rl/tasks/manager_based/first_rl/mdp/rewards_cfg.py:58-163 | a reset row that does not lift again this call ends unlifted: no success bonus and no drop penalty |
| `TransportReward.ResetRowCanStayClamped` | first_rl/source/first_rl/first_rl/tasks/manager_based/first_rl/mdp/rewards_cfg.py:58-78 | this reset keeps the previous command: a reset row can be clamped and lifted in the same call |
| `TransportReward.RowsIndependent` | first_rl/source/first_rl/first_rl/tasks/manager_based/first_rl/mdp/rewards_cfg.py:17-194 | a row's reward and new state depend only on that row's inputs and initialised state |
| `TransportReward.LiftedUntilReset` | first_rl/source/first_rl/first_rl/tasks/manager_based/first_rl/mdp/rewards_cfg.py:78 | across any number of calls with fixed N and no reset of row i, a lifted row stays lifted |
| `TransportReward.RewardTracker.constructor` | first_rl/source/first_rl/first_rl/tasks/manager_based/first_rl/mdp/rewards_cfg.py:11-14 | every global starts as `None` |
| `TransportReward.RewardTracker.InitialiseColumns` | first_rl/source/first_rl/first_rl/tasks/manager_based/first_rl/mdp/rewards_cfg.py:48-56 | the columns afterwards are the lazily initialised ones; a lifted array that exists with N entries is kept as the same array, otherwise a fresh one is allocated |
| `TransportReward.RewardTracker.Step` | first_rl/source/first_rl/first_rl/tasks/manager_based/first_rl/mdp/rewards_cfg.py:17-194 | the new globals and the reward vector are those of `Transition`; previous command and separation are this step's; lifted, non-reset rows stay lifted |
| `TransportReward.RewardColumn` | first_rl/source/first_rl/first_rl/tasks/manager_based/first_rl/mdp/rewards_cfg.py:80-189 | the accumulated reward vector equals `RowReward` row by row |
| `Terminations.InitialiseNeutral` | first_rl/source/first_rl/first_rl/tasks/manager_based/first_rl/mdp/terminations_cfg.py:42-53 | a missing or wrong-length column starts as zeros / current separations / false / false |
| `Terminations.Initialise` | first_rl/source/first_rl/first_rl/tasks/manager_based/first_rl/mdp/terminations_cfg.py:42-53 | the lazy initialisation: all four columns have N entries, and a column that exists with N entries is kept unchanged (the seeds are stated by `InitialiseNeutral`) |
| `Terminations.Prepare` | first_rl/source/first_rl/first_rl/tasks/manager_based/first_rl/mdp/terminations_cfg.py:42-61 | after initialisation and the four reset writes, all four columns have N entries (the reset rows are stated by `ResetOnlyResetRows`) |
| `Terminations.ResetMask` | first_rl/source/first_rl/first_rl/tasks/manager_based/first_rl/mdp/terminations_cfg.py:56 | a row is reset in the call iff its episode length is at most 1 |
| `Terminations.ComputeStateSpec` | first_rl/source/first_rl/first_rl/tasks/manager_based/first_rl/mdp/terminations_cfg.py:19-86 | one call: the previous command and separation become this call's, both flag columns have N entries, and a row ends lifted only if it was not reset and was lifted before or lifts now |
| `Terminations.ResetOnlyResetRows` | first_rl/source/first_rl/first_rl/tasks/manager_based/first_rl/mdp/terminations_cfg.py:55-61 | rows with episode length <= 1 get lifted and clamp false, command 0, separation seeded; other rows keep all four |
| `Terminations.ResetRowNotClamped` | first_rl/source/first_rl/first_rl/tasks/manager_based/first_rl/mdp/terminations_cfg.py:55-82 | a row reset in the call ends it neither clamped nor lifted |
| `Terminations.ClampIff` | first_rl/source/first_rl/first_rl/tasks/manager_based/first_rl/mdp/terminations_cfg.py:70-79 | the new clamp flag, stated with the source's thresholds on the reset previous values |
| `Terminations.LiftedAfterCall` | first_rl/source/first_rl/first_rl/tasks/manager_based/first_rl/mdp/terminations_cfg.py:81-82 | new lifted iff (reset-cleared old lifted) or (clamped and height > 0.03); lifted, non-reset rows stay lifted |
| `Terminations.StoresCurrent` | first_rl/source/first_rl/first_rl/tasks/manager_based/first_rl/mdp/terminations_cfg.py:84-86 | afterwards the previous command and separation are the current ones |
| `Terminations.LiftedUntilReset` | first_rl/source/first_rl/first_rl/tasks/manager_based/first_rl/mdp/terminations_cfg.py:56-82 | across any number of calls with fixed N and episode length > 1 for row i, a lifted row stays lifted |
| `Terminations.Rows` | first_rl/source/first_rl/first_rl/tasks/manager_based/first_rl/mdp/terminations_cfg.py:108-109 | omitted `env_ids` means every row in order |
| `Terminations.OffTable` | first_rl/source/first_rl/first_rl/tasks/manager_based/first_rl/mdp/terminations_cfg.py:178 | the termination's out-of-bounds test with floor -0.1; at the goal only the x bound and the floor can fire |
| `Terminations.CubeOutOfTable` | first_rl/source/first_rl/first_rl/tasks/manager_based/first_rl/mdp/terminations_cfg.py:168-185 | a row is flagged iff abs(x) > 0.4 or y > 0.6 or height < -0.1 |
| `Terminations.TerminationTracker.constructor` | first_rl/source/first_rl/first_rl/tasks/manager_based/first_rl/mdp/terminations_cfg.py:12-16 | every global starts as `None` |
| `Terminations.TerminationTracker.InitialiseColumns` | first_rl/source/first_rl/first_rl/tasks/manager_based/first_rl/mdp/terminations_cfg.py:42-53 | the columns afterwards are the lazily initialised ones; each array that exists with N entries is kept as the same array, otherwise a fresh one is allocated |
| `Terminations.TerminationTracker.ResetColumns` | first_rl/source/first_rl/first_rl/tasks/manager_based/first_rl/mdp/terminations_cfg.py:55-61 | the four in-place masked writes of the reset |
| `Terminations.TerminationTracker.ComputeState` | first_rl/source/first_rl/first_rl/tasks/manager_based/first_rl/mdp/terminations_cfg.py:19-86 | the new globals are `ComputeStateSpec` of the old; reset rows end unclamped and unlifted; lifted, non-reset rows stay lifted |
| `Terminations.TerminationTracker.SafeLiftedAndClamp` | first_rl/source/first_rl/first_rl/tasks/manager_based/first_rl/mdp/terminations_cfg.py:89-94 | all false of the length of `env_ids` while either column is `None`, otherwise the two columns at `env_ids` |
| `Terminations.TerminationTracker.SuccessMask` | first_rl/source/first_rl/first_rl/tasks/manager_based/first_rl/mdp/terminations_cfg.py:111-130 | a requested row is a success iff lifted and at the goal |
| `Terminations.TerminationTracker.TaskFailDrop` | first_rl/source/first_rl/first_rl/tasks/manager_based/first_rl/mdp/terminations_cfg.py:133-165 | a requested row is a drop-failure iff lifted, not clamped and not at the goal |
| `Terminations.TerminationTracker.TaskSuccess` | first_rl/source/first_rl/first_rl/tasks/manager_based/first_rl/mdp/terminations_cfg.py:97-130 | runs the state update, then returns lifted AND at-goal per requested row; a requested row reset in the call is never a success, with or without `env_ids` |
| `Terminations.SuccessExcludesFailDrop` | first_rl/source/first_rl/first_rl/tasks/manager_based/first_rl/mdp/terminations_cfg.py:118-158 | on the same state and inputs, success and drop-failure never flag the same row |
| `Terminations.UnsetClassifiesNothing` | first_rl/source/first_rl/first_rl/tasks/manager_based/first_rl/mdp/terminations_cfg.py:91-93 | before the tracker ever ran, no row is a success or a drop-failure |
| `Terminations.UnliftedRowNotClassified` | first_rl/source/first_rl/first_rl/tasks/manager_based/first_rl/mdp/terminations_cfg.py:120-158 | an unlifted row is neither a success nor a drop-failure |
| `Consistency.TrackersAgreeOnQuietRows` | first_rl/source/first_rl/first_rl/tasks/manager_based/first_rl/mdp/terminations_cfg.py:73-82 | on a row neither tracker resets, with equal stored values, both infer the same clamp and lifted flags, and the reward's success/drop tests match the terminations |
| `Consistency.OffTableIsPenalised` | first_rl/source/first_rl/first_rl/tasks/manager_based/first_rl/mdp/terminations_cfg.py:178 | every row the termination flags off the table also pays the reward's out-of-bounds penalty |
| `Consistency.PenaltyWithoutTermination` | first_rl/source/first_rl/first_rl/tasks/manager_based/first_rl/mdp/rewards_cfg.py:165 | a cube at height -0.07 is penalised by the reward but not terminated |

## Left out

- Scene lookup is not modelled: `env.scene[...]`, `find_bodies`, the world-to-env origin subtraction and `torch.norm`. The finger separation, the TCP-to-cube distance, the cube's x and y and its height above the table (z − 0.5 − 0.025) come in as given reals per row (`Observation`).
- `torch.exp` is the parameter `exp`; the only thing assumed of it is `ExpRange`: 0 < exp(x) <= 1 for x <= 0.
- Floating point is modelled as exact reals. The thresholds are exact decimals (1e-4, 1e-6, ...), so rounding at a threshold is not captured.
- Tensors, devices and `clone` are not modelled: columns are arrays, and vector expressions are loops over the rows. The `if ....any()` / `numel() > 0` guards around the masked writes are omitted, since a masked write with an empty mask changes nothing.
- `_IS_CLAMP[reset_mask] = False` is modelled, but it has no observable effect: the clamp column is replaced a few lines later.
- `TransportReward.Approach`, `TransportReward.Transport`: require `max_ee_cube_dist > 0` and `max_y_dist > 0` (`ValidParams`), because a zero divisor would give infinities or NaN in the source. The requirement also excludes negative values, which the source accepts; with a negative `max_ee_cube_dist` the approach term could exceed 1. Both the defaults and the configured values satisfy it (`ParamsValid`).
- Tracker methods: require the reset vector or episode-length vector to have one entry per row. The classifiers require every requested `env_ids` entry to exist in the columns. In the source an out-of-range index raises an indexing error; that error path is not modelled.
- `mdp.time_out` and `mdp.action_rate_l2` are framework functions outside this model. Termination priority is not modelled either: the host applies it, and the source sets none.
- The order in which the host runs terminations, rewards and resets is outside the model. So is the content of `reset_buf`.
- The event randomisation, observation assembly, teleoperation driver, action/scene configuration and gym registration are configuration or I/O, and are not part of this model.
