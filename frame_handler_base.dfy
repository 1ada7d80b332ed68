/** Model of the per-frame harness of the SVO visual-odometry pipeline
    (class FrameHandlerBase of namespace svo): the operating stage with its
    start and reset requests, the tracking-quality gate, the failure-recovery
    policy, and the bounded structure-refinement scheduler. */
module Svo {

  // ---------------------------------------------------------------------------
  // Data model
  // ---------------------------------------------------------------------------

  datatype Stage = Paused | FirstFrame | DefaultFrame | Relocalizing

  datatype TrackingQuality = Good | Insufficient

  /** Outcome of the stage-specific tracking logic of one frame. */
  datatype UpdateResult = NoKeyframe | IsKeyframe | Failure

  /** The three policy thresholds the quality gate reads from the global
      configuration (Config::qualityMinFts, Config::maxFts,
      Config::qualityMaxFtsDrop). They are fixed before the first frame. */
  datatype Config = Config(qualityMinFts: nat, maxFts: nat, qualityMaxFtsDrop: int)

  /** Value view of the controller. The map's reset and deferred-deletion drain
      are foreign code: mapResets and trashDrains count how often each is called. */
  datatype Controller = Controller(
    stage: Stage,
    setReset: bool,
    setStart: bool,
    numObsLast: nat,
    trackingQuality: TrackingQuality,
    mapResets: nat,
    trashDrains: nat)

  function Min(a: int, b: int): (m: int)
    ensures m <= a && m <= b && (m == a || m == b)
  {
    if a <= b then a else b
  }

  /** The controller fields as construction and every reset leave them. */
  predicate IsResetState(c: Controller) {
    c.stage == Paused && !c.setReset && !c.setStart &&
    c.trackingQuality == Insufficient && c.numObsLast == 0
  }

  /** Stages in which the map exists and tracking runs against it. */
  predicate Tracking(s: Stage) {
    s == DefaultFrame || s == Relocalizing
  }

  // ---------------------------------------------------------------------------
  // Operations of the controller, on values
  // ---------------------------------------------------------------------------

  /** State right after construction. */
  function Initial(): (c: Controller)
    ensures IsResetState(c) && c.mapResets == 0 && c.trashDrains == 0
  {
    Controller(Paused, false, false, 0, Insufficient, 0, 0)
  }

  /** resetCommon: reset the map, pause, drop both requests, forget the
      tracking quality and the last observation count. */
  function ResetState(c: Controller): (r: Controller)
    ensures IsResetState(r)
    ensures r.mapResets == c.mapResets + 1 && r.trashDrains == c.trashDrains
  {
    c.(mapResets := c.mapResets + 1, stage := Paused, setReset := false,
       setStart := false, trackingQuality := Insufficient, numObsLast := 0)
  }

  /** startFrameProcessingCommon: the new state and whether the frame is active. */
  function StartFrame(c: Controller): (r: (Controller, bool))
    // a pending start is a full reset followed by FIRST_FRAME, and the frame runs
    ensures c.setStart ==>
      r.1 && r.0 == ResetState(c).(stage := FirstFrame, trashDrains := c.trashDrains + 1)
    // the frame is inactive exactly when the pipeline is paused after the start handling
    ensures r.1 <==> (c.setStart || c.stage != Paused)
    ensures r.1 <==> r.0.stage != Paused
    // an inactive frame changes nothing, and in particular drains no trash
    ensures !r.1 ==> r.0 == c
    // an active frame drains the trash exactly once
    ensures r.1 ==> r.0.trashDrains == c.trashDrains + 1
    // without a start request only the drain happens
    ensures !c.setStart ==> r.0 == c.(trashDrains := r.0.trashDrains)
    ensures !r.0.setStart
  {
    var c1 := if c.setStart then ResetState(c).(stage := FirstFrame) else c;
    if c1.stage == Paused then (c1, false)
    else (c1.(trashDrains := c1.trashDrains + 1), true)
  }

  /** finishFrameProcessingCommon: record the observation count and apply the
      recovery policy for the frame's result. */
  function FinishFrame(c: Controller, dropout: UpdateResult, numObservations: nat): (r: Controller)
    // soft failure: relocalize against the kept map
    ensures dropout == Failure && Tracking(c.stage) && !c.setReset ==>
      r == c.(stage := Relocalizing, trackingQuality := Insufficient, numObsLast := numObservations)
    // hard failure: one reset, and bootstrap is re-armed even if a reset was pending
    ensures dropout == Failure && !Tracking(c.stage) ==>
      r == ResetState(c).(setStart := true)
    // a frame that did not fail only records its observation count
    ensures dropout != Failure && !c.setReset ==>
      r == c.(numObsLast := numObservations)
    // any other pending reset is honoured
    ensures c.setReset && !(dropout == Failure && !Tracking(c.stage)) ==>
      r == ResetState(c)
    ensures !r.setReset
    ensures r.trashDrains == c.trashDrains
    ensures r.mapResets <= c.mapResets + 1
  {
    var c1 := c.(numObsLast := numObservations);
    var c2 :=
      if dropout == Failure && Tracking(c1.stage) then
        c1.(stage := Relocalizing, trackingQuality := Insufficient)
      else if dropout == Failure then
        ResetState(c1).(setStart := true)
      else
        c1;
    if c2.setReset then ResetState(c2) else c2
  }

  /** The drop of the observation count against the previous frame, capped by
      the maximum number of features; an integer difference (may be negative). */
  function FeatureDrop(cfg: Config, numObsLast: nat, numObservations: nat): int {
    Min(numObsLast, cfg.maxFts) - numObservations
  }

  /** setTrackingQuality: both degrading checks start from GOOD. */
  function SetQuality(cfg: Config, c: Controller, numObservations: nat): (r: Controller)
    ensures r.trackingQuality == Good <==>
      (numObservations >= cfg.qualityMinFts &&
       FeatureDrop(cfg, c.numObsLast, numObservations) <= cfg.qualityMaxFtsDrop)
    ensures numObservations < cfg.qualityMinFts ==> r.trackingQuality == Insufficient
    ensures r == c.(trackingQuality := r.trackingQuality)
  {
    var q0 := Good;
    var q1 := if numObservations < cfg.qualityMinFts then Insufficient else q0;
    var featureDrop := Min(c.numObsLast, cfg.maxFts) - numObservations;
    var q2 := if featureDrop > cfg.qualityMaxFtsDrop then Insufficient else q1;
    c.(trackingQuality := q2)
  }

  // ---------------------------------------------------------------------------
  // Properties relating several calls
  // ---------------------------------------------------------------------------

  /** Construction and reset leave the same controller fields, whatever came before. */
  lemma ConstructionMatchesReset(c: Controller)
    ensures ResetState(c).(mapResets := 0, trashDrains := 0) == Initial()
  {
  }

  /** A second reset changes nothing but the map-reset count. */
  lemma ResetIdempotent(c: Controller)
    ensures ResetState(ResetState(c)) == ResetState(c).(mapResets := c.mapResets + 2)
  {
  }

  /** A hard failure in bootstrap pauses and re-arms start, so the next frame
      start re-enters FIRST_FRAME and returns true (after a second map reset). */
  lemma HardFailureRestartsBootstrap(c: Controller, numObservations: nat)
    requires !Tracking(c.stage)
    ensures var d := FinishFrame(c, Failure, numObservations);
      d.stage == Paused && d.setStart && d.numObsLast == 0 &&
      StartFrame(d).1 && StartFrame(d).0.stage == FirstFrame &&
      !StartFrame(d).0.setStart && StartFrame(d).0.mapResets == c.mapResets + 2
  {
  }

  /** A soft failure in DEFAULT_FRAME or RELOCALIZING leaves the map untouched,
      and the next frame start is active in RELOCALIZING. */
  lemma SoftFailureKeepsMap(c: Controller, numObservations: nat)
    requires Tracking(c.stage) && !c.setReset && !c.setStart
    ensures var d := FinishFrame(c, Failure, numObservations);
      d.mapResets == c.mapResets && d.stage == Relocalizing &&
      StartFrame(d).1 && StartFrame(d).0.stage == Relocalizing &&
      StartFrame(d).0.mapResets == c.mapResets
  {
  }

  /** More observations never make the gate's verdict worse. */
  lemma QualityMonotone(cfg: Config, c: Controller, n1: nat, n2: nat)
    requires n1 <= n2 && SetQuality(cfg, c, n1).trackingQuality == Good
    ensures SetQuality(cfg, c, n2).trackingQuality == Good
  {
  }

  /** With no previous frame (count 0) and a non-negative allowed drop, only the
      minimum feature count decides. */
  lemma QualityFirstEvaluation(cfg: Config, c: Controller, n: nat)
    requires c.numObsLast == 0 && cfg.qualityMaxFtsDrop >= 0
    ensures SetQuality(cfg, c, n).trackingQuality == Good <==> n >= cfg.qualityMinFts
  {
  }

  // ---------------------------------------------------------------------------
  // Call sequences
  // ---------------------------------------------------------------------------

  /** One call a driver can make on the controller. RequestStart, RequestReset
      and EnterDefaultFrame stand for writes done by code outside this class
      (the start/reset requests and the subclass's bootstrap completion). */
  datatype Call =
    | StartFrameCall
    | FinishFrameCall(dropout: UpdateResult, numObservations: nat)
    | ResetAllCall
    | SetTrackingQualityCall(observations: nat)
    | RequestStart
    | RequestReset
    | EnterDefaultFrame

  /** The state after one call, and whether it started an active frame. */
  function Step(cfg: Config, c: Controller, call: Call): (r: (Controller, bool))
    ensures r.1 ==> call == StartFrameCall
  {
    match call
    case StartFrameCall => StartFrame(c)
    case FinishFrameCall(d, n) => (FinishFrame(c, d, n), false)
    case ResetAllCall => (ResetState(c), false)
    case SetTrackingQualityCall(n) => (SetQuality(cfg, c, n), false)
    case RequestStart => (c.(setStart := true), false)
    case RequestReset => (c.(setReset := true), false)
    case EnterDefaultFrame => (c.(stage := DefaultFrame), false)
  }

  /** Stage moves each call may make. */
  predicate AllowedMove(call: Call, s: Stage, s': Stage) {
    match call
    case StartFrameCall => s' == s || s' == FirstFrame
    case FinishFrameCall(d, _) =>
      s' == s || s' == Paused || (d == Failure && Tracking(s) && s' == Relocalizing)
    case ResetAllCall => s' == Paused
    case SetTrackingQualityCall(_) => s' == s
    case RequestStart => s' == s
    case RequestReset => s' == s
    case EnterDefaultFrame => s' == DefaultFrame
  }

  lemma StepMovesAllowed(cfg: Config, c: Controller, call: Call)
    ensures AllowedMove(call, c.stage, Step(cfg, c, call).0.stage)
  {
  }

  function Run(cfg: Config, c: Controller, calls: seq<Call>): Controller
    decreases |calls|
  {
    if calls == [] then c else Run(cfg, Step(cfg, c, calls[0]).0, calls[1..])
  }

  /** Number of frame starts in calls that found the pipeline active. */
  function ActiveFrames(cfg: Config, c: Controller, calls: seq<Call>): nat
    decreases |calls|
  {
    if calls == [] then 0
    else
      var (d, active) := Step(cfg, c, calls[0]);
      (if active then 1 else 0) + ActiveFrames(cfg, d, calls[1..])
  }

  /** Along any call sequence the deferred-deletion queue is drained exactly
      once per active frame, and never by an inactive one or any other call. */
  lemma {:induction false} DrainOncePerActiveFrame(cfg: Config, c: Controller, calls: seq<Call>)
    ensures Run(cfg, c, calls).trashDrains == c.trashDrains + ActiveFrames(cfg, c, calls)
    decreases |calls|
  {
    if calls != [] {
      DrainOncePerActiveFrame(cfg, Step(cfg, c, calls[0]).0, calls[1..]);
    }
  }

  /** Calls that neither request a start, nor move the stage from outside, nor
      report a failure. */
  predicate Quiet(call: Call) {
    !call.RequestStart? && !call.EnterDefaultFrame? &&
    !(call.FinishFrameCall? && call.dropout == Failure)
  }

  /** Once paused with no start pending, the pipeline stays paused, never runs a
      frame and never drains the trash until it is started again. */
  lemma {:induction false} PausedStaysIdle(cfg: Config, c: Controller, calls: seq<Call>)
    requires c.stage == Paused && !c.setStart
    requires forall i :: 0 <= i < |calls| ==> Quiet(calls[i])
    ensures Run(cfg, c, calls).stage == Paused && !Run(cfg, c, calls).setStart
    ensures Run(cfg, c, calls).trashDrains == c.trashDrains
    ensures ActiveFrames(cfg, c, calls) == 0
    decreases |calls|
  {
    if calls != [] {
      assert Quiet(calls[0]);
      var d := Step(cfg, c, calls[0]).0;
      assert forall i :: 0 <= i < |calls[1..]| ==> Quiet(calls[1..][i]) by {
        forall i | 0 <= i < |calls[1..]| ensures Quiet(calls[1..][i]) {
          assert calls[1..][i] == calls[i + 1];
        }
      }
      PausedStaysIdle(cfg, d, calls[1..]);
    }
  }

  // ---------------------------------------------------------------------------
  // The controller object
  // ---------------------------------------------------------------------------

  class FrameHandlerBase {
    var stage: Stage
    var setReset: bool
    var setStart: bool
    var numObsLast: nat
    var trackingQuality: TrackingQuality
    /** Calls of map_.reset() so far. */
    ghost var mapResets: nat
    /** Calls of map_.emptyTrash() so far. */
    ghost var trashDrains: nat

    ghost function State(): Controller
      reads this
    {
      Controller(stage, setReset, setStart, numObsLast, trackingQuality, mapResets, trashDrains)
    }

    constructor ()
      ensures State() == Initial()
    {
      stage := Paused;
      setReset := false;
      setStart := false;
      numObsLast := 0;
      trackingQuality := Insufficient;
      mapResets := 0;
      trashDrains := 0;
    }

    method ResetCommon()
      modifies this
      ensures State() == ResetState(old(State()))
    {
      mapResets := mapResets + 1;  // map_.reset()
      stage := Paused;
      setReset := false;
      setStart := false;
      trackingQuality := Insufficient;
      numObsLast := 0;
    }

    /** The full reset; in this class it is exactly resetCommon. */
    method ResetAll()
      modifies this
      ensures State() == ResetState(old(State()))
    {
      ResetCommon();
    }

    method StartFrameProcessingCommon() returns (active: bool)
      modifies this
      ensures (State(), active) == StartFrame(old(State()))
    {
      if setStart {
        ResetAll();
        stage := FirstFrame;
      }
      if stage == Paused {
        return false;
      }
      trashDrains := trashDrains + 1;  // map_.emptyTrash()
      return true;
    }

    method FinishFrameProcessingCommon(updateId: nat, dropout: UpdateResult, numObservations: nat)
      returns (status: int)
      modifies this
      ensures status == 0
      ensures State() == FinishFrame(old(State()), dropout, numObservations)
    {
      numObsLast := numObservations;
      if dropout == Failure && (stage == DefaultFrame || stage == Relocalizing) {
        stage := Relocalizing;
        trackingQuality := Insufficient;
      } else if dropout == Failure {
        ResetAll();
        setStart := true;
      }
      if setReset {
        ResetAll();
      }
      return 0;
    }

    method SetTrackingQuality(cfg: Config, numObservations: nat)
      modifies this`trackingQuality
      ensures State() == SetQuality(cfg, old(State()), numObservations)
    {
      trackingQuality := Good;
      if numObservations < cfg.qualityMinFts {
        trackingQuality := Insufficient;
      }
      var featureDrop := Min(numObsLast, cfg.maxFts) - numObservations;
      if featureDrop > cfg.qualityMaxFtsDrop {
        trackingQuality := Insufficient;
      }
    }
  }

  // ---------------------------------------------------------------------------
  // Structure refinement scheduler
  // ---------------------------------------------------------------------------

  /** Index of a Point in the map's point store. */
  type PointId = nat

  datatype Option<T> = None | Some(value: T)

  /** A feature holds a non-owning reference to a Point, or none. */
  datatype Feature = Feature(point: Option<PointId>)

  datatype Frame = Frame(id: int, fts: seq<Feature>)

  function PointOf(f: Feature): seq<PointId> {
    match f.point
    case Some(p) => [p]
    case None => []
  }

  /** The points referenced by fts, in feature order, skipping features
      without a point. */
  function Referenced(fts: seq<Feature>): (pts: seq<PointId>)
    ensures |pts| <= |fts|
    decreases |fts|
  {
    if fts == [] then [] else Referenced(fts[..|fts| - 1]) + PointOf(fts[|fts| - 1])
  }

  /** A point is collected exactly when some feature of the frame refers to it. */
  lemma {:induction false} ReferencedMembers(fts: seq<Feature>)
    ensures forall p :: p in Referenced(fts) <==> exists i :: 0 <= i < |fts| && fts[i].point == Some(p)
    decreases |fts|
  {
    if fts != [] {
      var init := fts[..|fts| - 1];
      ReferencedMembers(init);
      assert forall i :: 0 <= i < |init| ==> init[i] == fts[i];
    }
  }

  /** Every point id refers to an entry of the point store. */
  predicate InStore(pts: seq<PointId>, marks: seq<int>) {
    forall i :: 0 <= i < |pts| ==> pts[i] < |marks|
  }

  /** ptLastOptimComparator: orders points by the frame id of their last
      structure optimisation; marks[p] is last_structure_optim_ of point p. */
  function PtLastOptimComparator(marks: seq<int>, lhs: PointId, rhs: PointId): bool
    requires lhs < |marks| && rhs < |marks|
  {
    marks[lhs] < marks[rhs]
  }

  /** The comparator is a strict weak ordering, as nth_element requires. */
  lemma ComparatorStrictWeakOrder(marks: seq<int>, a: PointId, b: PointId, c: PointId)
    requires a < |marks| && b < |marks| && c < |marks|
    ensures !PtLastOptimComparator(marks, a, a)
    ensures PtLastOptimComparator(marks, a, b) ==> !PtLastOptimComparator(marks, b, a)
    ensures PtLastOptimComparator(marks, a, b) && PtLastOptimComparator(marks, b, c) ==>
      PtLastOptimComparator(marks, a, c)
    ensures (!PtLastOptimComparator(marks, a, b) && !PtLastOptimComparator(marks, b, a) &&
             !PtLastOptimComparator(marks, b, c) && !PtLastOptimComparator(marks, c, b)) ==>
      !PtLastOptimComparator(marks, a, c) && !PtLastOptimComparator(marks, c, a)
  {
  }

  /** What nth_element guarantees at position k: no point after position k
      compares less than a point before it. */
  predicate SelectedFirst(pts: seq<PointId>, k: nat, marks: seq<int>)
    requires InStore(pts, marks)
  {
    k <= |pts| &&
    forall i, j :: 0 <= i < k <= j < |pts| ==> !PtLastOptimComparator(marks, pts[j], pts[i])
  }

  /** The in-order collection loop over frame->fts_ into a deque. */
  method CollectPoints(fts: seq<Feature>) returns (pts: seq<PointId>)
    ensures pts == Referenced(fts)
  {
    pts := [];
    var i := 0;
    while i < |fts|
      invariant 0 <= i <= |fts|
      invariant pts == Referenced(fts[..i])
    {
      assert fts[..i + 1][..i] == fts[..i];
      if fts[i].point.Some? {
        pts := pts + [fts[i].point.value];
      }
      i := i + 1;
    }
    assert fts[..|fts|] == fts;
  }

  /** Position of a point with the least mark in pts[from..]. */
  method MinIndex(pts: seq<PointId>, marks: seq<int>, from: nat) returns (m: nat)
    requires InStore(pts, marks) && from < |pts|
    ensures from <= m < |pts|
    ensures forall j :: from <= j < |pts| ==> !PtLastOptimComparator(marks, pts[j], pts[m])
  {
    m := from;
    var j := from + 1;
    while j < |pts|
      invariant from <= m < j <= |pts|
      invariant forall l :: from <= l < j ==> !PtLastOptimComparator(marks, pts[l], pts[m])
    {
      if PtLastOptimComparator(marks, pts[j], pts[m]) {
        m := j;
      }
      j := j + 1;
    }
  }

  /** One round of the selection: swapping the least point of s[i..] into
      position i extends the selected prefix by one and permutes s. */
  lemma SwapInLeast(s: seq<PointId>, t: seq<PointId>, i: nat, m: nat, marks: seq<int>)
    requires InStore(s, marks) && i <= m < |s| && SelectedFirst(s, i, marks)
    requires forall j :: i <= j < |s| ==> !PtLastOptimComparator(marks, s[j], s[m])
    requires t == s[i := s[m]][m := s[i]]
    ensures multiset(t) == multiset(s)
    ensures InStore(t, marks) && SelectedFirst(t, i + 1, marks)
  {
    assert forall j :: 0 <= j < |t| ==> t[j] == (if j == i then s[m] else if j == m then s[i] else s[j]);
  }

  /** Partial selection in place, as nth_element(pts.begin(), pts.begin() + k,
      pts.end(), ptLastOptimComparator): afterwards pts is a permutation of its
      old contents and its first k points are ones with the least marks. */
  method NthElement(pts: array<PointId>, k: nat, marks: seq<int>)
    requires k <= pts.Length && InStore(pts[..], marks)
    modifies pts
    ensures multiset(pts[..]) == old(multiset(pts[..]))
    ensures InStore(pts[..], marks) && SelectedFirst(pts[..], k, marks)
  {
    var i := 0;
    while i < k
      invariant 0 <= i <= k
      invariant multiset(pts[..]) == old(multiset(pts[..]))
      invariant InStore(pts[..], marks)
      invariant SelectedFirst(pts[..], i, marks)
    {
      var m := MinIndex(pts[..], marks, i);
      ghost var before := pts[..];
      pts[i], pts[m] := pts[m], pts[i];
      SwapInLeast(before, pts[..], i, m, marks);
      i := i + 1;
    }
  }

  /** Marks after stamping every point of sel with frameId. */
  predicate Stamped(before: seq<int>, after: seq<int>, sel: seq<PointId>, frameId: int) {
    |after| == |before| &&
    forall p :: 0 <= p < |before| ==> after[p] == (if p in sel then frameId else before[p])
  }

  /** The loop over the first n points of the selected deque: each is refined
      (optimize has no modelled effect) and stamped with frameId. The ghost
      result lists the refined points in call order. */
  method RefineAndStamp(pts: array<PointId>, n: nat, frameId: int, marks: array<int>)
    returns (ghost optimized: seq<PointId>)
    requires n <= pts.Length && InStore(pts[..], marks[..])
    modifies marks
    ensures optimized == pts[..n]
    ensures Stamped(old(marks[..]), marks[..], optimized, frameId)
  {
    optimized := [];
    var i := 0;
    while i < n
      invariant 0 <= i <= n
      invariant optimized == pts[..i]
      invariant Stamped(old(marks[..]), marks[..], optimized, frameId)
    {
      // (*it)->optimize(max_iter)
      optimized := optimized + [pts[i]];
      marks[pts[i]] := frameId;
      i := i + 1;
    }
  }

  lemma PrefixSubMultiset(s: seq<PointId>, n: nat)
    requires n <= |s|
    ensures multiset(s[..n]) <= multiset(s)
  {
    assert s == s[..n] + s[n..];
  }

  /** optimizeStructure: refine the at most maxNPts points of frame that were
      refined longest ago and stamp them with the frame id. marks is the
      last_structure_optim_ of every point of the map. The ghost results are the
      deque after selection and the points on which optimize is called, in order. */
  method OptimizeStructure(frame: Frame, maxNPts: nat, maxIter: int, marks: array<int>)
    returns (ghost pts: seq<PointId>, ghost optimized: seq<PointId>)
    requires InStore(Referenced(frame.fts), marks[..])
    modifies marks
    ensures multiset(pts) == multiset(Referenced(frame.fts))
    ensures |optimized| == Min(maxNPts, |pts|)
    ensures optimized == pts[..|optimized|]
    ensures multiset(optimized) <= multiset(Referenced(frame.fts))
    ensures InStore(pts, old(marks[..])) && SelectedFirst(pts, |optimized|, old(marks[..]))
    ensures Stamped(old(marks[..]), marks[..], optimized, frame.id)
  {
    var collected := CollectPoints(frame.fts);
    var n := Min(maxNPts, |collected|);
    var a := new PointId[|collected|](i requires 0 <= i < |collected| => collected[i]);
    assert a[..] == collected;
    NthElement(a, n, marks[..]);
    pts := a[..];
    PrefixSubMultiset(pts, n);
    optimized := RefineAndStamp(a, n, frame.id, marks);
  }

  /** What optimizeStructure promises about its selection implies that it
      refines no point the frame does not reference. */
  lemma OnlyReferencedRefined(fts: seq<Feature>, optimized: seq<PointId>)
    requires multiset(optimized) <= multiset(Referenced(fts))
    ensures forall p :: p in optimized ==> exists i :: 0 <= i < |fts| && fts[i].point == Some(p)
  {
    ReferencedMembers(fts);
    assert forall p :: p in optimized ==> p in multiset(Referenced(fts));
  }

  /** The selection example: with marks [5, 1, 9, 3] and a cap of two, the
      points marked 1 and 3 are selected, whatever the order of the deque. */
  lemma SelectionExample(pts: seq<PointId>)
    requires multiset(pts) == multiset{0, 1, 2, 3}
    requires InStore(pts, [5, 1, 9, 3]) && SelectedFirst(pts, 2, [5, 1, 9, 3])
    ensures multiset(pts[..2]) == multiset{1, 3}
  {
    var marks := [5, 1, 9, 3];
    FourPoints(pts);
    var x, y, u, v := pts[0], pts[1], pts[2], pts[3];
    DistinctOfFour(x, y, u, v);
    assert !PtLastOptimComparator(marks, u, x) && !PtLastOptimComparator(marks, u, y);
    assert !PtLastOptimComparator(marks, v, x) && !PtLastOptimComparator(marks, v, y);
    ExamplePrefix(x, y, u, v);
    assert pts[..2] == [x, y];
  }

  lemma FourPoints(pts: seq<PointId>)
    requires multiset(pts) == multiset{0, 1, 2, 3}
    ensures |pts| == 4 && pts == [pts[0], pts[1], pts[2], pts[3]]
    ensures multiset{pts[0], pts[1], pts[2], pts[3]} == multiset{0, 1, 2, 3}
  {
    assert |pts| == 4 by { assert |multiset(pts)| == 4; }
    assert pts == [pts[0], pts[1], pts[2], pts[3]];
  }

  /** Four points that make up the multiset {0, 1, 2, 3} are pairwise distinct. */
  lemma DistinctOfFour(x: PointId, y: PointId, u: PointId, v: PointId)
    requires multiset{x, y, u, v} == multiset{0, 1, 2, 3}
    ensures x != y && x != u && x != v && y != u && y != v && u != v
    ensures x < 4 && y < 4 && u < 4 && v < 4
  {
    assert x in multiset{0, 1, 2, 3} && y in multiset{0, 1, 2, 3};
    assert u in multiset{0, 1, 2, 3} && v in multiset{0, 1, 2, 3};
  }

  /** With marks [5, 1, 9, 3], two distinct points whose marks are at most those
      of the two other points are the points 1 and 3. */
  lemma ExamplePrefix(x: PointId, y: PointId, u: PointId, v: PointId)
    requires x != y && x != u && x != v && y != u && y != v && u != v
    requires x < 4 && y < 4 && u < 4 && v < 4
    requires var marks := [5, 1, 9, 3];
      marks[x] <= marks[u] && marks[y] <= marks[u] && marks[x] <= marks[v] && marks[y] <= marks[v]
    ensures multiset{x, y} == multiset{1, 3}
  {
    var marks := [5, 1, 9, 3];
    assert forall p :: 0 <= p < 4 && marks[p] <= 1 ==> p == 1;
    assert forall p :: 0 <= p < 4 && marks[p] <= 3 ==> p == 1 || p == 3;
    assert u != 1 && v != 1;
    assert x == 1 || y == 1;
    assert u != 3 && v != 3;
  }

  /** Features of the example frame: points 0 to 3, with one feature that has none. */
  function ExampleFeatures(): seq<Feature> {
    [Feature(Some(0)), Feature(Some(1)), Feature(None), Feature(Some(2)), Feature(Some(3))]
  }

  lemma ExampleFeaturesReference()
    ensures Referenced(ExampleFeatures()) == [0, 1, 2, 3]
  {
    var fts := ExampleFeatures();
    assert fts[..1][..0] == [];
    assert Referenced(fts[..1]) == [0];
    assert fts[..2][..1] == fts[..1];
    assert Referenced(fts[..2]) == [0, 1];
    assert fts[..3][..2] == fts[..2];
    assert Referenced(fts[..3]) == [0, 1];
    assert fts[..4][..3] == fts[..3];
    assert Referenced(fts[..4]) == [0, 1, 2];
    assert fts[..4] == fts[..|fts| - 1];
  }

  /** Stamping exactly the points 1 and 3 of marks [5, 1, 9, 3] with frame 7. */
  lemma ExampleStamps(optimized: seq<PointId>, after: seq<int>)
    requires multiset(optimized) == multiset{1, 3}
    requires Stamped([5, 1, 9, 3], after, optimized, 7)
    ensures after == [5, 7, 9, 7]
  {
    assert 1 in multiset(optimized) && 3 in multiset(optimized);
    assert 0 !in multiset(optimized) && 2 !in multiset(optimized);
    assert after[0] == 5 && after[1] == 7 && after[2] == 9 && after[3] == 7;
  }

  /** The same example through optimizeStructure: frame 7 references points 0 to
      3, the cap is two, and exactly the points marked 1 and 3 are stamped with 7. */
  method SelectionScenario(marks: array<int>)
    requires marks[..] == [5, 1, 9, 3]
    modifies marks
    ensures marks[..] == [5, 7, 9, 7]
  {
    ExampleFeaturesReference();
    ghost var pts, optimized := OptimizeStructure(Frame(7, ExampleFeatures()), 2, 10, marks);
    SelectionExample(pts);
    ExampleStamps(optimized, marks[..]);
  }
}
