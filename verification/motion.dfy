/**
 * The motion component: React state `isTracking` and `coords`, a ref
 * `isTrackingRef`, the ball's translation, and the `devicemotion` listeners
 * registered on the window.
 *
 * `handleMotion` is declared in the component body, so every render makes a
 * new function; `addEventListener`/`removeEventListener` match listeners by
 * identity. A listener is therefore named by the render that created it:
 * `render` is the render whose handlers the buttons currently hold, and every
 * state change commits a new one. The unmount cleanup, registered once, holds
 * the handlers of the first render, render 0.
 *
 * A component built with `stable` keeps one `handleMotion` for its whole
 * life (the handler of render 0), which is the corrected behaviour; without
 * it the component behaves as written.
 *
 * Acceleration readings are reals; floating point and `NaN` are not modelled.
 */
module Motion {
  import opened Wrappers

  /** `event.accelerationIncludingGravity`; a missing component is `None`. */
  datatype Acceleration = Acceleration(x: Option<real>, y: Option<real>, z: Option<real>)

  datatype Coords = Coords(x: real, y: real, z: real)

  /** The ball's `translate(dx px, dy px)`. */
  datatype Offset = Offset(dx: real, dy: real)

  /** How `DeviceMotionEvent.requestPermission()` turns out, where it exists. */
  datatype GateAnswer = Answered(response: string) | Rejected

  /** Whether the platform gates motion data behind a permission prompt. */
  datatype Platform = Ungated | Gated(answer: GateAnswer)

  const MotionDenied: string := "Permission needed for motion analysis."
  const Limit: real := 80.0
  const Sensitivity: real := 10.0

  /** `acc.x || 0`: a missing component reads as 0. */
  function Axis(v: Option<real>): real {
    v.GetOr(0.0)
  }

  /** `Math.max(-80, Math.min(80, v))`. */
  function Clamp(v: real): (r: real)
    ensures -Limit <= r <= Limit
    ensures -Limit <= v <= Limit ==> r == v
    ensures v > Limit ==> r == Limit
    ensures v < -Limit ==> r == -Limit
  {
    var upper := if v < Limit then v else Limit;
    if -Limit < upper then upper else -Limit
  }

  /** The coordinates shown for a reading (before `toFixed(2)`). */
  function Readings(a: Acceleration): (c: Coords)
    ensures a.x.None? ==> c.x == 0.0
    ensures a.y.None? ==> c.y == 0.0
    ensures a.z.None? ==> c.z == 0.0
    ensures a.x.Some? ==> c.x == a.x.value
    ensures a.y.Some? ==> c.y == a.y.value
    ensures a.z.Some? ==> c.z == a.z.value
  {
    Coords(Axis(a.x), Axis(a.y), Axis(a.z))
  }

  /**
   * The ball follows the tilt ten to one, clamped to 80 px on each axis, with
   * the vertical axis flipped.
   */
  function BallOffset(a: Acceleration): (o: Offset)
    ensures -Limit <= o.dx <= Limit && -Limit <= o.dy <= Limit
    ensures -Limit <= Sensitivity * Axis(a.x) <= Limit ==> o.dx == Sensitivity * Axis(a.x)
    ensures -Limit <= Sensitivity * Axis(a.y) <= Limit ==> o.dy == -(Sensitivity * Axis(a.y))
  {
    Offset(Clamp(Sensitivity * Axis(a.x)), -Clamp(Sensitivity * Axis(a.y)))
  }

  /** Tracking starts exactly on an ungated platform or on the answer `'granted'`. */
  predicate StartsTracking(p: Platform) {
    p.Ungated? || p == Gated(Answered("granted"))
  }

  class MotionModule {
    const stable: bool                 // handleMotion keeps one identity across renders
    var isTracking: bool
    var trackingRef: bool              // isTrackingRef.current
    var coords: Coords
    var ball: Offset
    var listeners: set<nat>            // handleMotion closures registered, by render
    var render: nat
    var mounted: bool

    /** The `handleMotion` the current render's buttons hold. */
    function HandlerId(): nat
      reads this
    {
      if stable then 0 else render
    }

    /**
     * While mounted, the ref agrees with the state; every registered listener
     * was made by an earlier render; with a stable handler, a listener is
     * registered exactly while tracking.
     */
    ghost predicate Valid()
      reads this
    {
      && (mounted ==> isTracking == trackingRef)
      && (forall l :: l in listeners ==> l < render)
      && (stable ==> listeners == if trackingRef then {0} else {})
    }

    constructor (stable: bool)
      ensures Valid() && mounted && !isTracking && !trackingRef
      ensures coords == Coords(0.0, 0.0, 0.0) && ball == Offset(0.0, 0.0)
      ensures listeners == {} && render == 0 && this.stable == stable
    {
      this.stable := stable;
      isTracking, trackingRef := false, false;
      coords := Coords(0.0, 0.0, 0.0);
      ball := Offset(0.0, 0.0);
      listeners := {};
      render := 0;
      mounted := true;
    }

    /**
     * A `devicemotion` event, delivered through a registered listener. It is
     * ignored unless tracking and unless the event has an acceleration.
     */
    method HandleMotion(acc: Option<Acceleration>)
      requires Valid() && listeners != {}
      modifies this
      ensures Valid()
      ensures !(old(trackingRef) && acc.Some?) ==> coords == old(coords) && ball == old(ball) && render == old(render)
      ensures old(trackingRef) && acc.Some? ==>
        coords == Readings(acc.value) && ball == BallOffset(acc.value) && render == old(render) + 1
      ensures isTracking == old(isTracking) && trackingRef == old(trackingRef)
      ensures listeners == old(listeners) && mounted == old(mounted)
    {
      if !trackingRef {
        return;
      }
      if acc.None? {
        return;
      }
      var a := acc.value;
      coords := Readings(a);
      ball := BallOffset(a);
      render := render + 1;
    }

    /** `startTracking`: state and ref set, this render's `handleMotion` registered. */
    method StartTracking()
      requires Valid() && mounted
      modifies this
      ensures Valid()
      ensures isTracking && trackingRef
      ensures listeners == old(listeners) + {old(HandlerId())}
      ensures render == old(render) + 1
      ensures coords == old(coords) && ball == old(ball) && mounted == old(mounted)
    {
      isTracking := true;
      trackingRef := true;
      listeners := listeners + {HandlerId()};
      render := render + 1;
    }

    /**
     * `requestPermission`, reached from the Start button (shown while not
     * tracking). Returns the alert shown and whether an error was logged.
     */
    method RequestPermission(platform: Platform) returns (alert: Option<string>, logged: bool)
      requires Valid() && mounted && !isTracking
      modifies this
      ensures Valid()
      ensures isTracking == StartsTracking(platform) && trackingRef == StartsTracking(platform)
      ensures StartsTracking(platform) ==>
        listeners == old(listeners) + {old(HandlerId())} && render == old(render) + 1
      ensures !StartsTracking(platform) ==> listeners == old(listeners) && render == old(render)
      ensures alert == Some(MotionDenied) <==> platform.Gated? && platform.answer.Answered? && !StartsTracking(platform)
      ensures alert.Some? ==> alert == Some(MotionDenied)
      ensures logged <==> platform == Gated(Rejected)
      ensures coords == old(coords) && ball == old(ball) && mounted == old(mounted)
    {
      alert, logged := None, false;
      match platform
      case Gated(answer) =>
        match answer {
          case Answered(response) =>
            if response == "granted" {
              StartTracking();
            } else {
              alert := Some(MotionDenied);
            }
          case Rejected =>
            logged := true;
        }
      case Ungated =>
        StartTracking();
    }

    /**
     * `stopTracking`, reached from the Stop button: state and ref cleared,
     * coordinates and ball back to the origin, and the current render's
     * `handleMotion` removed. As written that function was never registered,
     * so every listener stays; with a stable handler none is left.
     */
    method StopTracking()
      requires Valid() && mounted
      modifies this
      ensures Valid()
      ensures !isTracking && !trackingRef
      ensures coords == Coords(0.0, 0.0, 0.0) && ball == Offset(0.0, 0.0)
      ensures listeners == old(listeners) - {old(HandlerId())}
      ensures !stable ==> listeners == old(listeners)
      ensures stable ==> listeners == {}
      ensures render == old(render) + 1 && mounted == old(mounted)
    {
      isTracking := false;
      trackingRef := false;
      listeners := listeners - {HandlerId()};
      coords := Coords(0.0, 0.0, 0.0);
      ball := Offset(0.0, 0.0);
      render := render + 1;
    }

    /**
     * The unmount cleanup: removes the first render's `handleMotion` and clears
     * the ref. As written every later render's listener survives; with a
     * stable handler none does.
     */
    method Unmount()
      requires Valid() && mounted
      modifies this
      ensures Valid() && !mounted && !trackingRef
      ensures listeners == old(listeners) - {0}
      ensures stable ==> listeners == {}
      ensures isTracking == old(isTracking) && coords == old(coords) && ball == old(ball)
    {
      listeners := listeners - {0};
      trackingRef := false;
      mounted := false;
    }
  }

  /**
   * Start then Stop on an ungated platform, as written: the listener
   * registered by the first render is still on the window afterwards.
   */
  method StopLeavesListener() returns (left: set<nat>, tracking: bool)
    ensures left == {0} && !tracking
  {
    var m := new MotionModule(false);
    var alert, logged := m.RequestPermission(Ungated);
    m.StopTracking();
    left, tracking := m.listeners, m.trackingRef;
  }

  /** Start, Stop, Start, unmount, as written: the second start's listener outlives the component. */
  method UnmountLeavesListener() returns (left: set<nat>)
    ensures left == {2}
  {
    var m := new MotionModule(false);
    var alert, logged := m.RequestPermission(Ungated);
    m.StopTracking();
    alert, logged := m.RequestPermission(Ungated);
    m.Unmount();
    left := m.listeners;
  }

  /** With a stable handler, Start, Stop, Start and unmount leave no listener registered. */
  method StableHandlerReleasesListener() returns (afterStop: set<nat>, afterUnmount: set<nat>)
    ensures afterStop == {} && afterUnmount == {}
  {
    var m := new MotionModule(true);
    var alert, logged := m.RequestPermission(Ungated);
    m.StopTracking();
    afterStop := m.listeners;
    alert, logged := m.RequestPermission(Ungated);
    m.Unmount();
    afterUnmount := m.listeners;
  }
}
