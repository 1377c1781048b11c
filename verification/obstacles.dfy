// A pipe obstacle: an upper and a lower pipe around a gap exactly 300 units
// high, scrolled left by the first bird's speed and recycled to the right
// with a fresh random gap once it leaves the screen.
module Obstacles {
  import opened Birds

  const GapHeight: real := 300.0
  /** A pipe whose x falls below this is recycled. */
  const RecycleBelow: real := -50.0

  /** A snapshot of the fields of a Pipes object. */
  datatype PipeState = PipeState(x: real, yUp: real, yDown: real)

  /** A value Math.random can return. */
  predicate IsDraw(r: real) {
    0.0 <= r < 1.0
  }

  /** The gap is 300 high and its top lies in [0, 301). */
  predicate GapOk(p: PipeState) {
    p.yDown - p.yUp == GapHeight && 0.0 <= p.yUp < 301.0
  }

  /** randomizeHeight with the random draw r: the midpoint of the gap is
      drawn from [150, 451). */
  function Randomized(p: PipeState, r: real): (q: PipeState)
    requires IsDraw(r)
    ensures q.x == p.x && GapOk(q)
    ensures q.yUp == 301.0 * r && q.yDown == 301.0 * r + 300.0
    ensures 150.0 <= (q.yUp + q.yDown) / 2.0 < 451.0
  {
    var y := 150.0 + r * (450.0 - 150.0 + 1.0);
    p.(yUp := y - 150.0, yDown := y + 150.0)
  }

  /** reset(initialX) and the constructor: the gap defaults are overwritten
      by a fresh draw at once. */
  function ResetAt(initialX: real, r: real): (q: PipeState)
    requires IsDraw(r)
    ensures q.x == initialX && GapOk(q)
    ensures q.yUp == 301.0 * r && q.yDown == 301.0 * r + 300.0
  {
    Randomized(PipeState(initialX, 200.0, 400.0), r)
  }

  /** update(dt, bir) with the bird's speed and the draw used if the pipe
      is recycled. */
  function Scrolled(p: PipeState, speed: real, dt: real, r: real): (q: PipeState)
    requires IsDraw(r)
    ensures p.x - speed * dt >= RecycleBelow ==> q == p.(x := p.x - speed * dt)
    ensures p.x - speed * dt < RecycleBelow ==>
              q.x == 950.0 - 210.0 * dt && GapOk(q) &&
              q.x - (p.x - speed * dt) > 1000.0 - 210.0 * dt &&
              q.yUp == 301.0 * r && q.yDown == 301.0 * r + 300.0
    ensures GapOk(p) ==> GapOk(q)
  {
    var moved := p.(x := p.x - speed * dt);
    if moved.x < -50.0 then Randomized(moved.(x := 950.0 - 210.0 * dt), r) else moved
  }

  /** A bird at the given height collides with pipe p: the bird's lane at
      x = 100 lies within the pipe's 50-unit body and the bird's 30-unit box
      reaches into the lower pipe or above the gap's top. */
  function Collides(p: PipeState, height: real): (hit: bool)
    ensures hit <==> 50.0 <= p.x <= 130.0 && (height + 30.0 >= p.yDown || height <= p.yUp)
  {
    (p.x <= 130.0 && 100.0 <= p.x + 50.0 && height + 30.0 >= p.yDown) ||
    (p.x <= 130.0 && 100.0 <= p.x + 50.0 && height <= p.yUp)
  }

  class Pipes {
    var x: real
    var yUp: real
    var yDown: real

    function State(): PipeState
      reads this
    {
      PipeState(x, yUp, yDown)
    }

    constructor (initialX: real, r: real)
      requires IsDraw(r)
      ensures State() == ResetAt(initialX, r)
    {
      x := initialX;
      yUp := 200.0;
      yDown := 400.0;
      new;
      RandomizeHeight(r);
    }

    method RandomizeHeight(r: real)
      requires IsDraw(r)
      modifies this`yUp, this`yDown
      ensures State() == Randomized(old(State()), r)
    {
      var y := 150.0 + r * (450.0 - 150.0 + 1.0);
      yUp := y - 150.0;
      yDown := y + 150.0;
    }

    method Reset(initialX: real, r: real)
      requires IsDraw(r)
      modifies this`x, this`yUp, this`yDown
      ensures State() == ResetAt(initialX, r)
    {
      x := initialX;
      yUp := 200.0;
      yDown := 400.0;
      RandomizeHeight(r);
    }

    /** collideWith(bir) */
    function CollideWith(bir: Bird): (hit: bool)
      reads this, bir`height
      ensures hit == Collides(State(), bir.height)
    {
      (x <= 130.0 && 100.0 <= x + 50.0 && bir.height + 30.0 >= yDown) ||
      (x <= 130.0 && 100.0 <= x + 50.0 && bir.height <= yUp)
    }

    method Update(dt: real, bir: Bird, r: real)
      requires IsDraw(r)
      modifies this`x, this`yUp, this`yDown
      ensures State() == Scrolled(old(State()), bir.speed, dt, r)
    {
      x := x - bir.speed * dt;
      if x < -50.0 {
        x := 950.0;
        x := x - 210.0 * dt;
        RandomizeHeight(r);
      }
    }
  }
}
