/**
 * The bouncing circle: each frame it moves by its velocity scaled to the
 * elapsed time; then, on an axis where the circle's edge crosses the window
 * edge, the coordinate is clamped to that edge and the velocity component
 * along it is negated.
 */
module Motion {
  import opened Geometry

  /** The moving circle's radius (main.py:31). */
  const RADIUS: real := 30.0

  /**
   * One axis of the bounce, applied to an already advanced coordinate p with
   * velocity v against the window extent [0, limit]: first the low edge, then
   * the high edge, each clamping the coordinate and negating the velocity.
   */
  function Bounce(p: real, v: real, limit: real): (res: (real, real))
    ensures res.1 == v || res.1 == -v
    ensures RADIUS <= p <= limit - RADIUS ==> res == (p, v)
    ensures 2.0 * RADIUS <= limit ==> RADIUS <= res.0 <= limit - RADIUS
    ensures 2.0 * RADIUS <= limit && p < RADIUS ==> res == (RADIUS, -v)
    ensures 2.0 * RADIUS <= limit && p > limit - RADIUS ==> res == (limit - RADIUS, -v)
  {
    var (p1, v1) := if p - RADIUS < 0.0 then (RADIUS, -v) else (p, v);
    if p1 + RADIUS > limit then (limit - RADIUS, -v1) else (p1, v1)
  }

  /** One frame of one axis: advance by v * dt * FPS, then bounce. */
  function Frame(p: real, v: real, limit: real, dt: real): (real, real) {
    Bounce(p + v * dt * (FPS as real), v, limit)
  }

  /** One axis over a run of frames whose elapsed times are dts, in order. */
  function Trajectory(p: real, v: real, limit: real, dts: seq<real>): (real, real)
    decreases |dts|
  {
    if dts == [] then (p, v)
    else
      var (p1, v1) := Frame(p, v, limit, dts[0]);
      Trajectory(p1, v1, limit, dts[1..])
  }

  /**
   * Over any number of frames with any elapsed times the speed along an axis
   * never changes (the velocity is only ever negated), and after at least one
   * frame the coordinate lies inside the window.
   */
  lemma {:induction false} TrajectoryBounded(p: real, v: real, limit: real, dts: seq<real>)
    ensures Trajectory(p, v, limit, dts).1 == v || Trajectory(p, v, limit, dts).1 == -v
    ensures 2.0 * RADIUS <= limit && dts != [] ==>
              RADIUS <= Trajectory(p, v, limit, dts).0 <= limit - RADIUS
    decreases |dts|
  {
    if dts != [] {
      var (p1, v1) := Frame(p, v, limit, dts[0]);
      TrajectoryBounded(p1, v1, limit, dts[1..]);
    }
  }

  /** The moving_circle dict, whose pos and vel lists update mutates in place. */
  class MovingCircle {
    var x: real
    var y: real
    var vx: real
    var vy: real

    constructor ()
      ensures x == 100.0 && y == 100.0 && vx == 3.5 && vy == 2.7
    {
      x, y, vx, vy := 100.0, 100.0, 3.5, 2.7;
    }

    /** The moving-circle part of update(dt); dt may be any real. */
    method Update(dt: real)
      modifies this
      ensures (x, vx) == Frame(old(x), old(vx), WIDTH as real, dt)
      ensures (y, vy) == Frame(old(y), old(vy), HEIGHT as real, dt)
      ensures RADIUS <= x <= WIDTH as real - RADIUS
      ensures RADIUS <= y <= HEIGHT as real - RADIUS
      ensures vx == old(vx) || vx == -old(vx)
      ensures vy == old(vy) || vy == -old(vy)
    {
      x := x + vx * dt * (FPS as real);
      y := y + vy * dt * (FPS as real);

      if x - RADIUS < 0.0 {
        x := RADIUS;
        vx := -vx;
      }
      if x + RADIUS > WIDTH as real {
        x := WIDTH as real - RADIUS;
        vx := -vx;
      }

      if y - RADIUS < 0.0 {
        y := RADIUS;
        vy := -vy;
      }
      if y + RADIUS > HEIGHT as real {
        y := HEIGHT as real - RADIUS;
        vy := -vy;
      }
    }
  }
}
