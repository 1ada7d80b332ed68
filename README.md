# SVO frame-handler harness, modelled in Dafny

This project models `svo::FrameHandlerBase`, the per-frame harness of the SVO
(Semi-direct Visual Odometry) pipeline, and proves properties of the model. The
harness is made of three parts:

- **Stage machine and recovery policy.** The controller holds the stage
  (`PAUSED`, `FIRST_FRAME`, `DEFAULT_FRAME`, `RELOCALIZING`), the pending reset
  and start requests, the observation count of the last frame and the tracking
  quality. `startFrameProcessingCommon` runs a pending start and refuses frames
  while paused. `finishFrameProcessingCommon` applies the recovery policy: a
  soft failure relocalizes and keeps the map, a hard failure resets and re-arms
  bootstrap, and a pending reset is always honoured.
- **Tracking-quality gate** (`setTrackingQuality`). It makes two threshold
  checks on the observation count, both starting from `GOOD`.
- **Structure-refinement scheduler** (`optimizeStructure`). It collects the
  points the frame's features refer to and selects the ones refined longest ago,
  at most `max_n_pts` of them, by an in-place `nth_element`. It then refines
  those points and stamps them with the frame id.

Everything is in `frame_handler_base.dfy`, module `Svo`:

- The class `FrameHandlerBase` has the controller's fields. Its methods assign
  those fields step by step, like the C++ member functions.
- Each method is proved equal to a function on the value view `Controller`
  (`ResetState`, `StartFrame`, `FinishFrame`, `SetQuality`). The `ensures`
  clauses of those functions state the policy.
- The lemmas relate several calls, up to arbitrary call sequences (`Run`).
- The map is foreign code. Its `reset()` and `emptyTrash()` are counted by the
  ghost fields `mapResets` and `trashDrains`.
- The thresholds `Config::qualityMinFts()`, `Config::maxFts()` and
  `Config::qualityMaxFtsDrop()` form a `Config` value. `SetTrackingQuality`
  takes it as a parameter, so every property holds for every configuration.
- The point store is an array holding `last_structure_optim_` for each point,
  indexed by `PointId`. A feature refers to a point by `Option<PointId>`.
  `Point::optimize` has no modelled effect. `OptimizeStructure` returns, as
  ghost results, the deque after selection and the points `optimize` is
  called on, in call order.

Three consequences of the code's order of statements, which the model keeps:

- A start request is honoured from any stage, not only from `PAUSED`. The full
  reset runs first, so the call leaves any stage in `FIRST_FRAME`.
- A hard failure with a reset also pending resets the map once, not twice. The
  reset at line 141 clears `set_reset_` (line 155) before line 145 tests it, so
  `set_start_` stays set.
- A `FAILURE` reported while `PAUSED` also counts as a hard failure, because
  `PAUSED` is not a tracking stage. It resets the map and arms a start.

`resetAll()` is declared in a header that is not part of this model. Here it
just calls `resetCommon()`. The subclass that moves the stage into
`DEFAULT_FRAME`, and the calls that set the start and reset requests, are not
part of this model either. The class fields are public and every method
accepts any pre-state. The call-sequence model has the calls `EnterDefaultFrame`,
`RequestStart` and `RequestReset` for those outside writes.

## Model

| member | source | states |
|---|---|---|
| `Svo.FrameHandlerBase.constructor` | app/src/main/cpp/svo/frame_handler_base.cpp:36-42 | the new controller is paused, has no requests, has count 0 and quality INSUFFICIENT, and has not yet reset the map or drained the trash (`Initial`) |
| `Svo.Initial` | app/src/main/cpp/svo/frame_handler_base.cpp:36-42 | the initial state is a reset state, with no map reset and no trash drain yet |
| `Svo.ConstructionMatchesReset` | app/src/main/cpp/svo/frame_handler_base.cpp:36-42 | construction and `resetCommon` leave the same controller fields, whatever the state before the reset |
| `Svo.ResetState` | app/src/main/cpp/svo/frame_handler_base.cpp:151-160 | after a reset: PAUSED, both requests cleared, INSUFFICIENT, count 0, exactly one more map reset, no trash drain |
| `Svo.ResetIdempotent` | app/src/main/cpp/svo/frame_handler_base.cpp:151-160 | a second reset changes only the map-reset count |
| `Svo.FrameHandlerBase.ResetCommon` | app/src/main/cpp/svo/frame_handler_base.cpp:151-160 | the new state of the object is `ResetState` of the old one |
| `Svo.FrameHandlerBase.ResetAll` | app/src/main/cpp/svo/frame_handler_base.cpp:93 | the full reset has the same effect as `resetCommon` |
| `Svo.StartFrame` | app/src/main/cpp/svo/frame_handler_base.cpp:87-109 | a pending start is a full reset, then FIRST_FRAME with the start cleared, and the call returns true. The result is false exactly when the stage is PAUSED after the start handling, and then nothing changes and no trash is drained. An active frame drains the trash exactly once. The start request is always clear afterwards |
| `Svo.FrameHandlerBase.StartFrameProcessingCommon` | app/src/main/cpp/svo/frame_handler_base.cpp:87-109 | the new state and the result are those of `StartFrame` |
| `Svo.FinishFrame` | app/src/main/cpp/svo/frame_handler_base.cpp:114-149 | soft failure (FAILURE in DEFAULT_FRAME or RELOCALIZING, no reset pending): RELOCALIZING, INSUFFICIENT, count recorded, map kept. Hard failure (FAILURE in any other stage): one reset with the start re-armed, even if a reset was pending. Non-failure with no reset pending: only the count changes. Any other pending reset gives the reset state. No reset stays pending, the trash is never drained, the map is reset at most once |
| `Svo.FrameHandlerBase.FinishFrameProcessingCommon` | app/src/main/cpp/svo/frame_handler_base.cpp:114-149 | returns 0, and the new state is `FinishFrame` of the old state |
| `Svo.HardFailureRestartsBootstrap` | app/src/main/cpp/svo/frame_handler_base.cpp:87-95 | after a hard failure (PAUSED, start armed, count 0), the next frame start is active in FIRST_FRAME with the start cleared, after exactly two map resets in all |
| `Svo.SoftFailureKeepsMap` | app/src/main/cpp/svo/frame_handler_base.cpp:134-139 | a soft failure followed by a frame start leaves the map untouched, and that frame runs in RELOCALIZING |
| `Svo.SetQuality` | app/src/main/cpp/svo/frame_handler_base.cpp:165-179 | GOOD exactly when the count reaches `qualityMinFts` and `min(last count, maxFts) - count` is at most `qualityMaxFtsDrop`. Below the minimum the result is INSUFFICIENT whatever the drop. Only the quality changes; the last count is untouched |
| `Svo.FrameHandlerBase.SetTrackingQuality` | app/src/main/cpp/svo/frame_handler_base.cpp:165-179 | the step-by-step gate changes only the quality, and the new state is `SetQuality` of the old one |
| `Svo.QualityMonotone` | app/src/main/cpp/svo/frame_handler_base.cpp:167-178 | if a count passes the gate, every larger count passes it too |
| `Svo.QualityFirstEvaluation` | app/src/main/cpp/svo/frame_handler_base.cpp:173-174 | with last count 0 and a non-negative allowed drop, only the minimum feature count decides |
| `Svo.StepMovesAllowed` | app/src/main/cpp/svo/frame_handler_base.cpp:90-98 | per call, the only stage moves are: a frame start to FIRST_FRAME; a finish to PAUSED, or to RELOCALIZING on a failure while tracking; a reset to PAUSED; an outside stage write to DEFAULT_FRAME |
| `Svo.DrainOncePerActiveFrame` | app/src/main/cpp/svo/frame_handler_base.cpp:97-108 | along any call sequence, the trash is drained exactly as often as a frame start found the pipeline active |
| `Svo.PausedStaysIdle` | app/src/main/cpp/svo/frame_handler_base.cpp:90-98 | when paused with no start pending, any sequence of calls with no start request, no outside stage write and no reported failure stays paused, runs no frame and drains nothing |
| `Svo.Referenced` | app/src/main/cpp/svo/frame_handler_base.cpp:196-201 | the collected deque is no longer than the frame's feature list |
| `Svo.ReferencedMembers` | app/src/main/cpp/svo/frame_handler_base.cpp:196-201 | a point is collected exactly when some feature of the frame refers to it |
| `Svo.CollectPoints` | app/src/main/cpp/svo/frame_handler_base.cpp:196-201 | the loop builds `Referenced(fts)`: the non-null feature points, in feature order |
| `Svo.ComparatorStrictWeakOrder` | app/src/main/cpp/svo/frame_handler_base.cpp:181-184 | `ptLastOptimComparator` (less-than on `last_structure_optim_`) is irreflexive, asymmetric and transitive, and incomparability is transitive: a strict weak ordering, as `nth_element` requires |
| `Svo.MinIndex` | app/src/main/cpp/svo/frame_handler_base.cpp:203 | returns a position in `pts[from..]` that no later point compares less than |
| `Svo.NthElement` | app/src/main/cpp/svo/frame_handler_base.cpp:203 | the array ends as a permutation of its old contents, and no point after position k compares less than a point before it |
| `Svo.SwapInLeast` | app/src/main/cpp/svo/frame_handler_base.cpp:203 | one selection round, which swaps the least point of the rest into the next position, permutes the deque and extends the partitioned prefix by one |
| `Svo.RefineAndStamp` | app/src/main/cpp/svo/frame_handler_base.cpp:204-209 | `optimize` runs on exactly the first n points of the deque, in order. Exactly those points get the frame id as their mark; every other mark is unchanged |
| `Svo.OptimizeStructure` | app/src/main/cpp/svo/frame_handler_base.cpp:190-210 | the deque is a permutation of the referenced points. `optimize` runs on its first `min(max_n_pts, size)` points, in order; no point after them has a smaller mark. Exactly the refined points get `last_structure_optim_ = frame.id`; every other mark is unchanged |
| `Svo.OnlyReferencedRefined` | app/src/main/cpp/svo/frame_handler_base.cpp:196-209 | a refined point is always one that some feature of the frame refers to |
| `Svo.SelectionExample` | app/src/main/cpp/svo/frame_handler_base.cpp:202-204 | with marks [5, 1, 9, 3] and a cap of 2, any deque order selects exactly the points marked 1 and 3 |
| `Svo.SelectionScenario` | app/src/main/cpp/svo/frame_handler_base.cpp:190-210 | for frame 7 referencing points 0 to 3 (one feature without a point), marks [5, 1, 9, 3] and a cap of 2, the marks afterwards are [5, 7, 9, 7] |

## Left out

- The `SVO_TRACE` performance monitor (lines 32-34, 43-71, 79-81, 125-127): diagnostics with no effect on behaviour.
- The mutex on `map_.point_candidates_` and the candidate-count log (lines 128-131): they serve a concurrent worker and only feed trace output.
- Logging and timer macros, the destructor, and the `timestamp` argument of `startFrameProcessingCommon`, which is only logged. `update_id` is kept as a parameter but, as in the source, is unused.
- The numeric body of `Point::optimize(max_iter)`: floating-point refinement in a file that is not part of this model. It is treated as changing no modelled state.
- The internals of `Map::reset` and `Map::emptyTrash`: they are only counted.
- The `Config` loaders: the thresholds are a parameter.
- SetQuality: does not model the unsigned wrap of `int - size_t` at line 173. The drop is the integer difference, on the assumption that the counts fit in `int`.
- NthElement: does not model the linear-time algorithm of `std::nth_element`. The model selects the k least marks by k rounds of minimum search and swap. It has the same postcondition (a permutation, partitioned at k) but quadratic cost. The contract also leaves out `nth_element`'s promise that position k holds the point a full sort would put there; `optimizeStructure` does not use it.
- Aliasing between `Point` objects: a point is identified by its index in the point store. A point referenced by two features of the same frame simply appears twice in the deque.
