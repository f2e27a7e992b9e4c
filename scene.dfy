/**
 * The camera transition controller of the 3D scene and the scene's choice of
 * comparison mode and environment type.
 *
 * The controller keeps a target camera position, a target look-at point and
 * a transitioning flag. Effects and the exposed focus function re-arm it;
 * every frame it moves the camera (and, when the orbit controls are mounted,
 * their target) a fixed fraction of the way to the target and snaps exactly
 * once both remaining distances are under the arrival threshold.
 */
module Scene {
  import opened Options
  import opened Geometry
  import opened Animals

  /** Fraction of the remaining way covered by one frame. */
  const LerpFactor: real := 0.08
  /** The arrival threshold 0.15, squared. */
  const ArrivalSq: real := 0.0225
  /** Squared distance left after one lerp frame, as a fraction of the squared distance before. */
  const Shrink: real := 0.8464
  /** Least drop of Potential over one frame that leaves the controller transitioning. */
  const MinDrop: real := 0.003456

  /** The free-exploration camera position. */
  const DefaultPosition: Vec3 := Vec3(0.0, 2.0, 8.0)
  /** The wide shot used while two animals are compared. */
  const ComparisonPosition: Vec3 := Vec3(0.0, 2.5, 10.0)

  /**
   * A snapshot of the controller together with the two objects it drives:
   * the camera's position, the orbit controls' target when the controls are
   * mounted (None when they are not), and the point of the last
   * `camera.lookAt` call (None before the first one).
   */
  datatype Rig = Rig(
    position: Vec3,
    controls: Option<Vec3>,
    facing: Option<Vec3>,
    targetPosition: Vec3,
    targetLookAt: Vec3,
    transitioning: bool)

  /** The look distance of the frame check; a missing controls object counts as 0. */
  function LookDistSq(r: Rig): (d: real)
    ensures d >= 0.0
    ensures r.controls.None? ==> d == 0.0
    ensures r.controls.Some? ==> d == DistSq(r.controls.value, r.targetLookAt)
  {
    match r.controls
    case None => 0.0
    case Some(c) => DistSq(c, r.targetLookAt)
  }

  /** Both squared distances still to cover. */
  function Potential(r: Rig): (p: real)
    ensures p >= 0.0
  {
    DistSq(r.position, r.targetPosition) + LookDistSq(r)
  }

  /**
   * Re-arming shared by the focus function and the two effects: new targets,
   * transitioning on, and the orbit target (if mounted) set to the look-at at once.
   */
  function ArmRig(r: Rig, position: Vec3, lookAt: Vec3): (r': Rig)
    ensures r'.targetPosition == position && r'.targetLookAt == lookAt && r'.transitioning
    ensures r'.position == r.position && r'.facing == r.facing
    ensures r'.controls.Some? == r.controls.Some?
    ensures r'.controls.Some? ==> r'.controls.value == lookAt
    ensures LookDistSq(r') == 0.0
  {
    Rig(r.position,
        if r.controls.Some? then Some(lookAt) else None,
        r.facing, position, lookAt, true)
  }

  /** The exposed focus function: an omitted look-at means the origin. */
  function FocusRig(r: Rig, position: Vec3, lookAt: Option<Vec3>): (r': Rig)
    ensures r'.targetPosition == position && r'.transitioning
    ensures r'.targetLookAt == (if lookAt.Some? then lookAt.value else Origin)
    ensures r'.position == r.position && r'.facing == r.facing
    ensures r'.controls.Some? == r.controls.Some?
    ensures r'.controls.Some? ==> r'.controls.value == r'.targetLookAt
  {
    ArmRig(r, position, lookAt.GetOr(Origin))
  }

  /** The reset effect: back to the default pose looking at the origin. */
  function ResetRig(r: Rig): (r': Rig)
    ensures r'.targetPosition == Vec3(0.0, 2.0, 8.0) && r'.targetLookAt == Vec3(0.0, 0.0, 0.0)
    ensures r'.transitioning && r'.position == r.position
    ensures r'.controls.Some? == r.controls.Some?
    ensures r'.controls.Some? ==> r'.controls.value == Origin
  {
    ArmRig(r, DefaultPosition, Origin)
  }

  /** The comparison effect: the wide shot in comparison mode, the default pose otherwise. */
  function ComparisonRig(r: Rig, isComparisonMode: bool): (r': Rig)
    ensures isComparisonMode ==> r'.targetPosition == Vec3(0.0, 2.5, 10.0)
    ensures !isComparisonMode ==> r'.targetPosition == Vec3(0.0, 2.0, 8.0)
    ensures r'.targetLookAt == Origin && r'.transitioning && r'.position == r.position
    ensures r'.controls.Some? == r.controls.Some?
    ensures r'.controls.Some? ==> r'.controls.value == Origin
  {
    ArmRig(r, if isComparisonMode then ComparisonPosition else DefaultPosition, Origin)
  }

  /**
   * One frame of the controller. An idle frame changes nothing; no frame
   * changes the targets or whether the controls are mounted.
   */
  function TickRig(r: Rig): (r': Rig)
    ensures !r.transitioning ==> r' == r
    ensures r'.targetPosition == r.targetPosition && r'.targetLookAt == r.targetLookAt
    ensures r'.controls.Some? == r.controls.Some?
  {
    if !r.transitioning then r
    else
      var position := Lerp(r.position, r.targetPosition, LerpFactor);
      var controls := if r.controls.Some? then Some(Lerp(r.controls.value, r.targetLookAt, LerpFactor)) else None;
      var facing := if controls.Some? then controls else r.facing;
      var moved := Rig(position, controls, facing, r.targetPosition, r.targetLookAt, true);
      if DistSq(position, r.targetPosition) < ArrivalSq && LookDistSq(moved) < ArrivalSq then
        Rig(r.targetPosition,
            if r.controls.Some? then Some(r.targetLookAt) else None,
            if r.controls.Some? then Some(r.targetLookAt) else r.facing,
            r.targetPosition, r.targetLookAt, false)
      else moved
  }

  /** `n` consecutive frames. */
  function Ticks(r: Rig, n: nat): Rig {
    if n == 0 then r else TickRig(Ticks(r, n - 1))
  }

  /**
   * A transitioning frame either snaps exactly onto the targets and goes idle,
   * which happens exactly when both lerped distances are under the threshold,
   * or keeps transitioning with both squared distances scaled by 0.92^2.
   */
  lemma TickStep(r: Rig)
    requires r.transitioning
    ensures var s := TickRig(r);
      var lerped := Lerp(r.position, r.targetPosition, LerpFactor);
      var lookLeft := Shrink * LookDistSq(r);
      && (!s.transitioning <==>
            DistSq(lerped, r.targetPosition) < ArrivalSq && lookLeft < ArrivalSq)
      && (!s.transitioning ==>
            && s.position == r.targetPosition
            && (r.controls.Some? ==> s.controls == Some(r.targetLookAt) && s.facing == Some(r.targetLookAt))
            && (r.controls.None? ==> s.controls.None?))
      && (s.transitioning ==>
            && s.position == lerped
            && DistSq(s.position, s.targetPosition) == Shrink * DistSq(r.position, r.targetPosition)
            && LookDistSq(s) == lookLeft
            && Potential(s) == Shrink * Potential(r)
            && (r.controls.Some? ==>
                  s.controls == Some(Lerp(r.controls.value, r.targetLookAt, LerpFactor)) && s.facing == s.controls))
  {
    LerpScalesDistance(r.position, r.targetPosition, LerpFactor);
    if r.controls.Some? {
      LerpScalesDistance(r.controls.value, r.targetLookAt, LerpFactor);
    }
  }

  /** Every frame that leaves the controller transitioning lowers Potential by at least MinDrop. */
  lemma {:induction false} TicksDescend(r: Rig, n: nat)
    ensures Ticks(r, n).targetPosition == r.targetPosition
    ensures Ticks(r, n).targetLookAt == r.targetLookAt
    ensures Ticks(r, n).controls.Some? == r.controls.Some?
    ensures Ticks(r, n).transitioning ==> Potential(Ticks(r, n)) <= Potential(r) - MinDrop * (n as real)
  {
    if n > 0 {
      TicksDescend(r, n - 1);
      var prev := Ticks(r, n - 1);
      if Ticks(r, n).transitioning {
        assert prev.transitioning;
        TickStep(prev);
        var next := Ticks(r, n);
        assert Potential(next) == Shrink * Potential(prev);
        assert !(DistSq(next.position, next.targetPosition) < ArrivalSq && LookDistSq(next) < ArrivalSq);
        assert Potential(next) >= ArrivalSq;
      }
    }
  }

  /** A number of frames after which a transition from `r` has certainly ended. */
  function ArrivalBound(r: Rig): (n: nat)
    ensures MinDrop * (n as real) > Potential(r)
  {
    var q := Potential(r) / MinDrop;
    assert q.Floor as real > q - 1.0;
    q.Floor + 1
  }

  /** Once idle, a transition that started at `r` left the camera exactly on the target. */
  lemma {:induction false} IdleMeansArrived(r: Rig, n: nat)
    requires r.transitioning
    requires !Ticks(r, n).transitioning
    ensures Ticks(r, n).position == r.targetPosition
    ensures r.controls.Some? ==>
              Ticks(r, n).controls == Some(r.targetLookAt) && Ticks(r, n).facing == Some(r.targetLookAt)
    ensures r.controls.None? ==> Ticks(r, n).controls.None?
  {
    var prev := Ticks(r, n - 1);
    TicksDescend(r, n - 1);
    if prev.transitioning {
      TickStep(prev);
    } else {
      IdleMeansArrived(r, n - 1);
    }
  }

  /**
   * Convergence and snap exactness: from any state the controller is idle
   * after ArrivalBound frames, and a transition in flight ends with the camera
   * exactly on the target position and a mounted orbit target exactly on the
   * target look-at. An idle controller is left where it is.
   */
  lemma Converges(r: Rig)
    ensures var s := Ticks(r, ArrivalBound(r));
      && !s.transitioning
      && s.targetPosition == r.targetPosition && s.targetLookAt == r.targetLookAt
      && (r.transitioning ==> s.position == r.targetPosition)
      && (r.transitioning && r.controls.Some? ==> s.controls == Some(r.targetLookAt))
  {
    var n := ArrivalBound(r);
    TicksDescend(r, n);
    if r.transitioning {
      IdleMeansArrived(r, n);
    }
  }

  /**
   * Supersession: a focus call replaces an in-flight target, and the frames
   * after it end exactly on the new pose.
   */
  lemma FocusConverges(r: Rig, position: Vec3, lookAt: Option<Vec3>)
    ensures var f := FocusRig(r, position, lookAt);
      var s := Ticks(f, ArrivalBound(f));
      && !s.transitioning && s.position == position
      && (r.controls.Some? ==> s.controls == Some(lookAt.GetOr(Origin)))
  {
    Converges(FocusRig(r, position, lookAt));
  }

  /** A reset from any state, even mid-transition, ends exactly on (0,2,8) looking at the origin. */
  lemma ResetConverges(r: Rig)
    ensures var f := ResetRig(r);
      var s := Ticks(f, ArrivalBound(f));
      && !s.transitioning && s.position == Vec3(0.0, 2.0, 8.0)
      && (r.controls.Some? ==> s.controls == Some(Vec3(0.0, 0.0, 0.0)))
  {
    Converges(ResetRig(r));
  }

  // ---- the orbit controls' limits ----

  /**
   * The limits the orbit controls are mounted with: the camera between 3 and
   * 15 from its target and never below it (polar angle at most a right angle).
   */
  predicate WithinOrbitLimits(position: Vec3, lookAt: Vec3) {
    9.0 <= DistSq(position, lookAt) <= 225.0 && position.y >= lookAt.y
  }

  /** The poses the scene itself targets lie inside those limits. */
  lemma FixedPosesWithinLimits()
    ensures WithinOrbitLimits(DefaultPosition, Origin)
    ensures WithinOrbitLimits(ComparisonPosition, Origin)
  {
    assert Sub(DefaultPosition, Origin) == Vec3(0.0, 2.0, 8.0);
    assert DistSq(DefaultPosition, Origin) == 68.0;
    assert Sub(ComparisonPosition, Origin) == Vec3(0.0, 2.5, 10.0);
    assert DistSq(ComparisonPosition, Origin) == 106.25;
  }

  /** The controller with the camera and orbit controls it mutates in place. */
  class CameraController {
    var position: Vec3
    var controls: Option<Vec3>
    var facing: Option<Vec3>
    var targetPosition: Vec3
    var targetLookAt: Vec3
    var isTransitioning: bool

    function State(): Rig
      reads this
    {
      Rig(position, controls, facing, targetPosition, targetLookAt, isTransitioning)
    }

    /**
     * The state at mount, before any effect runs: the camera at its declared
     * position (0,2,8), the orbit target (if mounted) at the origin, the refs
     * at their initial values and no transition.
     */
    constructor (hasControls: bool)
      ensures State() == Rig(DefaultPosition, if hasControls then Some(Origin) else None,
                                 None, DefaultPosition, Origin, false)
    {
      position := DefaultPosition;
      controls := if hasControls then Some(Origin) else None;
      facing := None;
      targetPosition := DefaultPosition;
      targetLookAt := Origin;
      isTransitioning := false;
    }

    /** The focus function handed to the parent through its ref. */
    method Focus(newPosition: Vec3, lookAt: Option<Vec3>)
      modifies this
      ensures State() == FocusRig(old(State()), newPosition, lookAt)
    {
      Arm(newPosition, lookAt.GetOr(Origin));
    }

    /** The re-arming the focus function and both effects share. */
    method Arm(newPosition: Vec3, newLookAt: Vec3)
      modifies this
      ensures State() == ArmRig(old(State()), newPosition, newLookAt)
    {
      targetPosition := newPosition;
      targetLookAt := newLookAt;
      isTransitioning := true;
      if controls.Some? {
        controls := Some(newLookAt);
      }
    }

    /** The effect that runs when the reset counter changes. */
    method ResetEffect()
      modifies this
      ensures State() == ResetRig(old(State()))
    {
      Arm(DefaultPosition, Origin);
    }

    /** The effect that runs when the scene's comparison mode changes. */
    method ComparisonEffect(isComparisonMode: bool)
      modifies this
      ensures State() == ComparisonRig(old(State()), isComparisonMode)
    {
      if isComparisonMode {
        Arm(ComparisonPosition, Origin);
      } else {
        Arm(DefaultPosition, Origin);
      }
    }

    /** The per-frame callback. */
    method Tick()
      modifies this
      ensures State() == TickRig(old(State()))
    {
      if isTransitioning {
        position := Lerp(position, targetPosition, LerpFactor);
        if controls.Some? {
          controls := Some(Lerp(controls.value, targetLookAt, LerpFactor));
          facing := controls;
        }
        var distance := DistSq(position, targetPosition);
        var lookDistance := if controls.Some? then DistSq(controls.value, targetLookAt) else 0.0;
        if distance < ArrivalSq && lookDistance < ArrivalSq {
          isTransitioning := false;
          position := targetPosition;
          if controls.Some? {
            controls := Some(targetLookAt);
            facing := Some(targetLookAt);
          }
        }
      }
    }
  }

  /** The two comparison slots as the parent passes them down. */
  datatype ComparisonPair = ComparisonPair(first: Option<Animal>, second: Option<Animal>)

  /** Comparison mode is on exactly when a pair is passed and both entries are present. */
  predicate IsComparisonMode(pair: Option<ComparisonPair>) {
    pair.Some? && pair.value.first.Some? && pair.value.second.Some?
  }

  /** The environment type handed to the renderer: the first compared animal's, else the selected animal's. */
  function EnvironmentTypeFor(selected: Option<Animal>, pair: Option<ComparisonPair>): (t: Option<string>)
    ensures IsComparisonMode(pair) ==> t == pair.value.first.value.environmentType
    ensures !IsComparisonMode(pair) && selected.Some? ==> t == selected.value.environmentType
    ensures !IsComparisonMode(pair) && selected.None? ==> t.None?
  {
    if IsComparisonMode(pair) then pair.value.first.value.environmentType
    else if selected.Some? then selected.value.environmentType
    else None
  }
}
