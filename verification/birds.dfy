// The player-controlled bird: explicit Euler integration under gravity,
// level-triggered jumps, clamping to the playfield and the cosmetic
// intensity that drives its colour.
module Birds {
  import opened Util

  /** Lower edge of the playfield; 0 is the top. */
  const FloorHeight: real := 570.0
  /** Downward acceleration, 9.81 * 150 world units per second squared. */
  const Gravity: real := 9.81 * 150.0

  /** A snapshot of the fields of a Bird. */
  datatype BirdState = BirdState(x: real, height: real, velocity: real, speed: real, colorIntensity: real)

  /** The state every bird starts in and returns to on reset. */
  function Spawn(): (s: BirdState)
    ensures 0.0 <= s.height <= FloorHeight && s.velocity == 0.0 && s.colorIntensity <= 7.3
    ensures Clamped(s) == s && Faded(s) == s
  {
    BirdState(100.0, 285.0, 0.0, 210.0, 0.0)
  }

  /** jump(v): the velocity is overwritten, not accumulated. */
  function Jumped(s: BirdState, v: real): (r: BirdState)
    ensures r.velocity == v
    ensures r.(velocity := s.velocity) == s
  {
    s.(velocity := v)
  }

  /** update(dt, m) with the gravity factor g: velocity first, then the
      height from the new velocity (semi-implicit Euler). */
  function Integrated(s: BirdState, dt: real, m: real, g: real): (r: BirdState)
    ensures r.x == s.x
    ensures r.velocity - s.velocity == 1471.5 * m * dt
    ensures r.height - s.height == r.velocity * dt * g
    ensures r.speed - s.speed == 60.0 * dt
    ensures r.colorIntensity - s.colorIntensity == 0.6 * dt
  {
    var v := s.velocity + Gravity * m * dt;
    s.(velocity := v, height := s.height + (v * dt) * g,
       speed := s.speed + 60.0 * dt, colorIntensity := s.colorIntensity + 0.6 * dt)
  }

  /** isOffScreen: the floor stops the bird, the ceiling only holds it. */
  function Clamped(s: BirdState): (r: BirdState)
    ensures 0.0 <= r.height <= FloorHeight
    ensures r.velocity == (if s.height > FloorHeight then 0.0 else s.velocity)
    ensures r.x == s.x && r.speed == s.speed && r.colorIntensity == s.colorIntensity
    ensures s.height > FloorHeight ==> r.height == FloorHeight
    ensures s.height < 0.0 ==> r.height == 0.0
    ensures 0.0 <= s.height <= FloorHeight ==> r == s
  {
    var floored := if s.height > FloorHeight then s.(height := FloorHeight, velocity := 0.0) else s;
    if floored.height < 0.0 then floored.(height := 0.0) else floored
  }

  /** The intensity reset done by drawR once the intensity passes 7.3. */
  function Faded(s: BirdState): (r: BirdState)
    ensures r.colorIntensity <= 7.3
    ensures s.colorIntensity > 7.3 ==> r.colorIntensity == 0.0
    ensures s.colorIntensity <= 7.3 ==> r == s
    ensures r.x == s.x && r.height == s.height && r.velocity == s.velocity && r.speed == s.speed
  {
    if s.colorIntensity > 7.3 then s.(colorIntensity := 0.0) else s
  }

  /** Jumping twice with the same impulse is the same as jumping once, and
      the velocity after a jump does not depend on the velocity before it. */
  lemma JumpOverwrites(s: BirdState, t: BirdState, v: real)
    requires s.(velocity := 0.0) == t.(velocity := 0.0)
    ensures Jumped(Jumped(s, v), v) == Jumped(s, v)
    ensures Jumped(s, v) == Jumped(t, v)
    ensures Jumped(s, v).velocity == v
  {
  }

  /** With the jump key held, a frame of integration forgets the velocity the
      bird had before the frame: continuous thrust, not a cumulative hop. */
  lemma HeldJumpForgetsVelocity(s: BirdState, t: BirdState, v: real, dt: real, g: real)
    requires s.(velocity := 0.0) == t.(velocity := 0.0)
    ensures Integrated(Jumped(s, v), dt, 1.0, g) == Integrated(Jumped(t, v), dt, 1.0, g)
    ensures Integrated(Jumped(s, v), dt, 1.0, g).velocity == v + 1471.5 * dt
  {
    JumpOverwrites(s, t, v);
  }

  /** The gravity factor scales only the height update. */
  lemma GravityFactorScalesHeightOnly(s: BirdState, dt: real, m: real, g1: real, g2: real)
    ensures Integrated(s, dt, m, g1).(height := 0.0) == Integrated(s, dt, m, g2).(height := 0.0)
  {
  }

  /** A bird left to fall for one second from the spawn state overshoots the
      floor before clamping and lands on it, stopped, afterwards. */
  lemma FreeFallFromSpawn()
    ensures Integrated(Spawn(), 1.0, 1.0, 1.0) == BirdState(100.0, 1756.5, 1471.5, 270.0, 0.6)
    ensures Clamped(Integrated(Spawn(), 1.0, 1.0, 1.0)) == BirdState(100.0, 570.0, 0.0, 270.0, 0.6)
  {
  }

  class Bird {
    var height: real
    var velocity: real
    var speed: real
    var x: real
    var colorIntensity: real

    function State(): BirdState
      reads this
    {
      BirdState(x, height, velocity, speed, colorIntensity)
    }

    constructor ()
      ensures State() == Spawn()
    {
      height := 285.0;
      velocity := 0.0;
      speed := 210.0;
      x := 100.0;
      colorIntensity := 0.0;
    }

    method Reset()
      modifies this`x, this`height, this`velocity, this`speed, this`colorIntensity
      ensures State() == Spawn()
    {
      x := 100.0;
      height := 285.0;
      velocity := 0.0;
      speed := 210.0;
      colorIntensity := 0.0;
    }

    method Jump(v: real)
      modifies this`velocity
      ensures State() == Jumped(old(State()), v)
    {
      velocity := v;
    }

    method IsOffScreen()
      modifies this`height, this`velocity
      ensures State() == Clamped(old(State()))
    {
      if height > 570.0 {
        height := 570.0;
        velocity := 0.0;
      }
      if height < 0.0 {
        height := 0.0;
      }
    }

    /** The gravity factor is a process-wide value in the game; it is passed in. */
    method Update(dt: real, m: real, gravityF: real)
      modifies this`velocity, this`height, this`speed, this`colorIntensity
      ensures State() == Integrated(old(State()), dt, m, gravityF)
    {
      velocity := velocity + (9.81 * 150.0 * m * dt);
      height := height + (velocity * dt) * gravityF;
      speed := speed + 60.0 * dt;
      colorIntensity := colorIntensity + 0.6 * dt;
    }

    /** drawR: resets the intensity past 7.3 and yields the fill colour. */
    method DrawR() returns (tint: Rgb)
      modifies this`colorIntensity
      ensures State() == Faded(old(State()))
      ensures tint == DrawRTint(colorIntensity, x) && InByteRange(tint)
    {
      if colorIntensity > 7.3 {
        colorIntensity := 0.0;
      }
      tint := DrawRTint(colorIntensity, x);
    }
  }
}
