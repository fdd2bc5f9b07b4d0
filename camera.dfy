/**
 * The camera's progress along the tunnel in the scroll-driven build
 * (`updateCameraFromScroll`): a linear progress that grows with the frame
 * time and stops at `cameraStopPosition`, eased by one of seven easing
 * curves, and a look-at point kept short of the end of the path.  Also the
 * frame-time clamp of `animate`.
 */
module Camera {
  import opened Common

  /** The `cameraEasingType` setting; any other string selects `EaseInOutCubic`. */
  datatype Easing = Linear | InQuad | OutQuad | InOutQuad | InCubic | OutCubic | InOutCubic

  /** `Math.pow(x, n)` for the whole exponents the easing curves use. */
  function Pow(x: real, n: nat): real
  {
    if n == 0 then 1.0 else x * Pow(x, n - 1)
  }

  /** The easing curves `easeLinear` … `easeInOutCubic`. */
  function Ease(e: Easing, t: real): real
  {
    match e
    case Linear => t
    case InQuad => t * t
    case OutQuad => 1.0 - (1.0 - t) * (1.0 - t)
    case InOutQuad => if t < 0.5 then 2.0 * t * t else 1.0 - Pow(-2.0 * t + 2.0, 2) / 2.0
    case InCubic => t * t * t
    case OutCubic => 1.0 - Pow(1.0 - t, 3)
    case InOutCubic => if t < 0.5 then 4.0 * t * t * t else 1.0 - Pow(-2.0 * t + 2.0, 3) / 2.0
  }

  /** Every curve starts at 0 and ends at 1. */
  lemma EaseEndpoints(e: Easing)
    ensures Ease(e, 0.0) == 0.0 && Ease(e, 1.0) == 1.0
  {
    assert Pow(1.0, 3) == 1.0 && Pow(0.0, 3) == 0.0 && Pow(0.0, 2) == 0.0;
  }

  /** The two halves of each in-out curve meet at one half. */
  lemma InOutHalvesMeet()
    ensures 2.0 * 0.5 * 0.5 == 1.0 - Pow(-2.0 * 0.5 + 2.0, 2) / 2.0 == Ease(InOutQuad, 0.5)
    ensures 4.0 * 0.5 * 0.5 * 0.5 == 1.0 - Pow(-2.0 * 0.5 + 2.0, 3) / 2.0 == Ease(InOutCubic, 0.5)
  {
    assert Pow(1.0, 2) == 1.0;
    assert Pow(1.0, 3) == 1.0;
  }

  lemma SquareInUnit(x: real)
    requires 0.0 <= x <= 1.0
    ensures 0.0 <= x * x <= x
  {
    assert x * x <= 1.0 * x;
  }

  lemma CubeInUnit(x: real)
    requires 0.0 <= x <= 1.0
    ensures 0.0 <= x * x * x <= x * x
  {
    SquareInUnit(x);
    assert x * x * x <= x * x * 1.0;
  }

  lemma {:induction false} PowInUnit(x: real, n: nat)
    requires 0.0 <= x <= 1.0
    ensures 0.0 <= Pow(x, n) <= 1.0
  {
    if n > 0 {
      PowInUnit(x, n - 1);
      assert x * Pow(x, n - 1) <= 1.0 * Pow(x, n - 1);
    }
  }

  /** Each curve maps `[0, 1]` into `[0, 1]`. */
  lemma EaseInUnit(e: Easing, t: real)
    requires 0.0 <= t <= 1.0
    ensures 0.0 <= Ease(e, t) <= 1.0
  {
    match e
    case Linear =>
    case InQuad => SquareInUnit(t);
    case OutQuad => SquareInUnit(1.0 - t);
    case InOutQuad =>
      if t < 0.5 {
        SquareInUnit(t);
        assert 2.0 * t * t == 2.0 * (t * t);
        assert t * t <= 0.5 * t by { assert t * t <= t * 0.5; }
      } else {
        PowInUnit(-2.0 * t + 2.0, 2);
      }
    case InCubic => CubeInUnit(t);
    case OutCubic => PowInUnit(1.0 - t, 3);
    case InOutCubic =>
      if t < 0.5 {
        CubeInUnit(t);
        SquareInUnit(t);
        assert 4.0 * t * t * t == 4.0 * (t * t * t);
        assert t * t * t <= 0.25 * t by {
          assert t * t <= 0.5 * t by { assert t * t <= t * 0.5; }
          assert t * t * t <= (0.5 * t) * t;
          assert (0.5 * t) * t <= (0.5 * t) * 0.5;
        }
      } else {
        PowInUnit(-2.0 * t + 2.0, 3);
      }
  }

  /** The animation frame clamp `Math.min((now - last) / 1000, cap)`. */
  function FrameDelta(now: real, last: real, cap: real): (dT: real)
    ensures dT <= cap
    ensures (now - last) / 1000.0 <= cap ==> dT == (now - last) / 1000.0
    ensures cap < (now - last) / 1000.0 ==> dT == cap
  {
    Min((now - last) / 1000.0, cap)
  }

  /** The scroll-driven build caps a frame at a thirtieth of a second. */
  const ScrollFrameCap: real := 1.0 / 30.0

  /** The settings `updateCameraFromScroll` reads. */
  datatype CameraSettings = CameraSettings(
    animationDuration: real,
    stopPosition: real,
    easing: Easing,
    lookAhead: real)

  /** What the source demands before dividing by the duration and by the stop position. */
  predicate SaneCamera(s: CameraSettings)
  {
    0.0 < s.animationDuration && 0.0 < s.stopPosition
  }

  /**
   * The linear progress after a frame of length `dT`:
   * `Math.max(0, Math.min(stop, progress + dT / duration))`.
   */
  function NextLinearProgress(progress: real, dT: real, s: CameraSettings): (r: real)
    requires SaneCamera(s)
    ensures 0.0 <= r <= s.stopPosition
    ensures 0.0 <= progress + dT / s.animationDuration <= s.stopPosition ==> r == progress + dT / s.animationDuration
    ensures s.stopPosition <= progress + dT / s.animationDuration ==> r == s.stopPosition
  {
    Max(0.0, Min(s.stopPosition, progress + dT / s.animationDuration))
  }

  /** The eased progress, remapped to `[0, stop]`. */
  function EasedProgress(linear: real, s: CameraSettings): (r: real)
    requires SaneCamera(s)
  {
    Ease(s.easing, linear / s.stopPosition) * s.stopPosition
  }

  /** Eased progress stays in `[0, stop]`. */
  lemma EasedProgressInRange(linear: real, s: CameraSettings)
    requires SaneCamera(s) && 0.0 <= linear <= s.stopPosition
    ensures 0.0 <= EasedProgress(linear, s) <= s.stopPosition
  {
    var t := linear / s.stopPosition;
    RatioInUnit(linear, s.stopPosition);
    var x := Ease(s.easing, t);
    EaseInUnit(s.easing, t);
    FractionOf(x, s.stopPosition);
  }

  /** Eased progress is 0 at the start and reaches `stop` exactly when linear progress does. */
  lemma EasedProgressEnds(s: CameraSettings)
    requires SaneCamera(s)
    ensures EasedProgress(0.0, s) == 0.0
    ensures EasedProgress(s.stopPosition, s) == s.stopPosition
  {
    assert s.stopPosition / s.stopPosition == 1.0;
    EaseEndpoints(s.easing);
  }

  lemma RatioInUnit(a: real, m: real)
    requires 0.0 <= a <= m && 0.0 < m
    ensures 0.0 <= a / m <= 1.0
  {
    assert (a / m) * m == a;
  }

  lemma FractionOf(x: real, m: real)
    requires 0.0 <= x <= 1.0 && 0.0 < m
    ensures 0.0 <= x * m <= m
  {
    assert x * m <= 1.0 * m;
  }

  /**
   * The look-at parameter: `progress + min(lookAhead, 1 - progress - 0.01)`,
   * capped at 0.99.
   */
  function LookAtProgress(progress: real, lookAhead: real): (r: real)
    ensures r <= 0.99
    ensures 0.0 <= lookAhead && progress <= 0.99 ==> progress <= r
    ensures r <= progress + lookAhead
  {
    Min(progress + Min(lookAhead, 1.0 - progress - 0.01), 0.99)
  }

  /**
   * The camera state `updateCameraFromScroll` keeps between frames.  The
   * source reads `linearProgress || 0`, so the first frame starts from 0.
   */
  class ScrollCamera {
    var linearProgress: real
    var scrollProgress: real

    constructor ()
      ensures linearProgress == 0.0 && scrollProgress == 0.0
    {
      linearProgress := 0.0;
      scrollProgress := 0.0;
    }

    /**
     * Advances the progress by one frame and returns the path parameter the
     * camera looks at.
     */
    method UpdateFromScroll(s: CameraSettings, dT: real) returns (lookAt: real)
      requires SaneCamera(s)
      modifies this
      ensures linearProgress == NextLinearProgress(old(linearProgress), dT, s)
      ensures scrollProgress == EasedProgress(linearProgress, s)
      ensures 0.0 <= linearProgress <= s.stopPosition && 0.0 <= scrollProgress <= s.stopPosition
      ensures lookAt == LookAtProgress(scrollProgress, s.lookAhead) && lookAt <= 0.99
    {
      linearProgress := NextLinearProgress(linearProgress, dT, s);
      scrollProgress := EasedProgress(linearProgress, s);
      EasedProgressInRange(linearProgress, s);
      lookAt := LookAtProgress(scrollProgress, s.lookAhead);
    }
  }

  /**
   * Once linear progress has reached the stop position, further frames of
   * non-negative length keep the camera parked there.
   */
  lemma StopIsAbsorbing(s: CameraSettings, dT: real)
    requires SaneCamera(s) && 0.0 <= dT
    ensures NextLinearProgress(s.stopPosition, dT, s) == s.stopPosition
    ensures EasedProgress(s.stopPosition, s) == s.stopPosition
  {
    assert 0.0 <= dT / s.animationDuration;
    EasedProgressEnds(s);
  }

  /** Progress never moves backwards over a frame of non-negative length. */
  lemma LinearProgressIsMonotone(progress: real, dT: real, s: CameraSettings)
    requires SaneCamera(s) && 0.0 <= progress <= s.stopPosition && 0.0 <= dT
    ensures progress <= NextLinearProgress(progress, dT, s)
  {
    assert 0.0 <= dT / s.animationDuration;
  }
}
