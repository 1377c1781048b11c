// The two-player game: two birds, their trails, five recycled pipes, the
// hit counters and the game-over flag, advanced once per frame by Update
// and scored by the collision pass that Draw runs.
module Flappy {
  import opened Birds
  import opened Shadows
  import opened Obstacles

  /** Trail markers spawn on every frame in which the timer exceeds this. */
  const TimerOffset: real := 0.0075
  /** Velocity a held jump key sets, every frame it is held. */
  const JumpImpulse: real := -400.0
  /** First player to reach this many credited hits wins the match. */
  const WinningCount: int := 10

  /** keyDown(key): keys[key] === true, so a key never pressed is up. */
  function KeyDown(keys: map<string, bool>, key: string): (down: bool)
    ensures key !in keys ==> !down
    ensures down <==> key in keys && keys[key]
  {
    key in keys && keys[key]
  }

  /** Bird.gravityF as chosen from the parity of gameResets. JavaScript's
      remainder keeps the sign of the dividend and Dafny's never is negative,
      but for both a remainder by 2 is non-zero exactly for odd numbers. */
  function GravityFactor(gameResets: int): (g: real)
    ensures g == 1.0 || g == -1.0
    ensures g == 1.0 <==> gameResets % 2 == 0
  {
    if gameResets % 2 != 0 then -1.0 else 1.0
  }

  /** Every further reset flips the sign of gravity. */
  lemma GravityFlipsEachReset(n: int)
    ensures GravityFactor(n + 1) == -GravityFactor(n)
    ensures GravityFactor(n) == 1.0 || GravityFactor(n) == -1.0
  {
  }

  /** One frame of a playing bird: the held jump, the integration with the
      current gravity factor, then the clamp to the playfield. */
  function BirdFrame(s: BirdState, jumpHeld: bool, dt: real, g: real): (r: BirdState)
    ensures 0.0 <= r.height <= FloorHeight
    ensures r.x == s.x && r.speed == s.speed + 60.0 * dt
    ensures jumpHeld && r.height < FloorHeight ==> r.velocity == JumpImpulse + 1471.5 * dt
  {
    Clamped(Integrated(if jumpHeld then Jumped(s, JumpImpulse) else s, dt, 1.0, g))
  }

  // ---------------------------------------------------------------------
  // Counters and the scoring pass

  /** The counters and the flag that the scoring pass and the win rule touch. */
  datatype Tally = Tally(count1: int, count2: int, gameResets: int, gameOver: bool)

  /** Counters stay within the match, and a counter at 10 means the round is over. */
  predicate InRange(t: Tally) {
    0 <= t.count1 <= WinningCount && 0 <= t.count2 <= WinningCount &&
    (t.count1 == WinningCount || t.count2 == WinningCount ==> t.gameOver)
  }

  /** The first-to-10 rule at the start of update: both counters are zeroed
      and gameResets counts the match. The inner test that would also zero
      gameResets runs after the zeroing, so it never fires. */
  function FirstToTen(t: Tally): (r: Tally)
    ensures r.count1 != WinningCount && r.count2 != WinningCount
    ensures r.gameOver == t.gameOver
    ensures t.count1 == WinningCount || t.count2 == WinningCount ==>
              r == Tally(0, 0, t.gameResets + 1, t.gameOver)
    ensures t.count1 != WinningCount && t.count2 != WinningCount ==> r == t
  {
    if t.count1 == 10 || t.count2 == 10 then
      var zeroed := t.(count1 := 0, count2 := 0, gameResets := t.gameResets + 1);
      if zeroed.count1 == 10 || zeroed.count2 == 10 then
        zeroed.(count1 := 0, count2 := 0, gameResets := 0)
      else zeroed
    else t
  }

  /** checkCollision(pipe) given whether the pipe hits bird 1 and bird 2. */
  function Credit(t: Tally, hit1: bool, hit2: bool): Tally
  {
    if hit1 || hit2 then
      var credited :=
        if t.gameOver == false then
          (if hit1 then t.(count2 := t.count2 + 1) else t.(count1 := t.count1 + 1))
        else t;
      credited.(gameOver := true, gameResets := credited.gameResets + 1)
    else t
  }

  /** One checkCollision: a hit ends the round and counts a reset; while the
      round is on, the point goes to player 2 if bird 1 hit and to player 1
      otherwise; no hit changes nothing. */
  lemma CreditEffect(t: Tally, hit1: bool, hit2: bool)
    ensures !hit1 && !hit2 ==> Credit(t, hit1, hit2) == t
    ensures hit1 || hit2 ==> Credit(t, hit1, hit2).gameOver && Credit(t, hit1, hit2).gameResets == t.gameResets + 1
    ensures t.gameOver ==> Credit(t, hit1, hit2).count1 == t.count1 && Credit(t, hit1, hit2).count2 == t.count2
    ensures !t.gameOver && hit1 ==> Credit(t, hit1, hit2).count2 == t.count2 + 1 && Credit(t, hit1, hit2).count1 == t.count1
    ensures !t.gameOver && !hit1 && hit2 ==> Credit(t, hit1, hit2).count1 == t.count1 + 1 && Credit(t, hit1, hit2).count2 == t.count2
  {
  }

  predicate Hit(h: (bool, bool)) {
    h.0 || h.1
  }

  /** checkCollision applied to the pipes in order. */
  function ScoringPass(t: Tally, hits: seq<(bool, bool)>): Tally
  {
    if hits == [] then t
    else
      var last := hits[|hits| - 1];
      Credit(ScoringPass(t, hits[..|hits| - 1]), last.0, last.1)
  }

  predicate AnyHit(hits: seq<(bool, bool)>) {
    hits != [] && (AnyHit(hits[..|hits| - 1]) || Hit(hits[|hits| - 1]))
  }

  function HitCount(hits: seq<(bool, bool)>): nat {
    if hits == [] then 0
    else HitCount(hits[..|hits| - 1]) + (if Hit(hits[|hits| - 1]) then 1 else 0)
  }

  /** The position of the first pipe that hits either bird. */
  function FirstHit(hits: seq<(bool, bool)>): (k: nat)
    requires AnyHit(hits)
    ensures k < |hits| && Hit(hits[k])
    ensures !AnyHit(hits[..k])
  {
    var prefix := hits[..|hits| - 1];
    if AnyHit(prefix) then
      var k := FirstHit(prefix);
      assert hits[..k] == prefix[..k];
      k
    else
      assert hits[..|hits| - 1] == prefix;
      |hits| - 1
  }

  /** In one pass: the round is over after any hit; every hit pipe counts a
      reset; the counters never fall and their sum rises by exactly one when
      the round was on and some pipe hit, and by nothing otherwise. */
  lemma {:induction false} ScoringPassEffect(t: Tally, hits: seq<(bool, bool)>)
    ensures ScoringPass(t, hits).gameOver == (t.gameOver || AnyHit(hits))
    ensures ScoringPass(t, hits).gameResets == t.gameResets + HitCount(hits)
    ensures ScoringPass(t, hits).count1 >= t.count1 && ScoringPass(t, hits).count2 >= t.count2
    ensures ScoringPass(t, hits).count1 + ScoringPass(t, hits).count2 ==
              t.count1 + t.count2 + (if !t.gameOver && AnyHit(hits) then 1 else 0)
  {
    if hits != [] {
      ScoringPassEffect(t, hits[..|hits| - 1]);
    }
  }

  /** The point of a pass goes to the bird that did not collide at the first
      hit pipe: to player 2 if bird 1 collided there, to player 1 otherwise. */
  lemma {:induction false} ScoringPassCreditsSurvivor(t: Tally, hits: seq<(bool, bool)>)
    requires !t.gameOver && AnyHit(hits)
    ensures hits[FirstHit(hits)].0 ==>
              ScoringPass(t, hits).count2 == t.count2 + 1 && ScoringPass(t, hits).count1 == t.count1
    ensures !hits[FirstHit(hits)].0 ==>
              ScoringPass(t, hits).count1 == t.count1 + 1 && ScoringPass(t, hits).count2 == t.count2
  {
    var prefix := hits[..|hits| - 1];
    ScoringPassEffect(t, prefix);
    if AnyHit(prefix) {
      ScoringPassCreditsSurvivor(t, prefix);
    }
  }

  /** A pass over one more pipe is one more checkCollision. */
  lemma ScoringPassSnoc(t: Tally, hits: seq<(bool, bool)>, k: nat)
    requires k < |hits|
    ensures ScoringPass(t, hits[..k + 1]) == Credit(ScoringPass(t, hits[..k]), hits[k].0, hits[k].1)
  {
    assert hits[..k + 1][..k] == hits[..k];
  }

  /** A pass over five pipes is five checkCollision calls in a row. */
  lemma ScoringPassOfFive(t: Tally, h1: real, h2: real, ps: seq<PipeState>)
    requires |ps| == 5
    ensures ScoringPass(t, HitsOf(h1, h2, ps)) ==
              Credit(Credit(Credit(Credit(Credit(t,
                Collides(ps[0], h1), Collides(ps[0], h2)),
                Collides(ps[1], h1), Collides(ps[1], h2)),
                Collides(ps[2], h1), Collides(ps[2], h2)),
                Collides(ps[3], h1), Collides(ps[3], h2)),
                Collides(ps[4], h1), Collides(ps[4], h2))
  {
    var hits := HitsOf(h1, h2, ps);
    assert hits[..0] == [];
    ScoringPassSnoc(t, hits, 0);
    ScoringPassSnoc(t, hits, 1);
    ScoringPassSnoc(t, hits, 2);
    ScoringPassSnoc(t, hits, 3);
    ScoringPassSnoc(t, hits, 4);
    assert hits[..5] == hits;
  }

  /** A pass keeps the counters within the match. */
  lemma ScoringPassInRange(t: Tally, hits: seq<(bool, bool)>)
    requires InRange(t)
    ensures InRange(ScoringPass(t, hits))
  {
    ScoringPassEffect(t, hits);
  }

  // ---------------------------------------------------------------------
  // The game state

  /** Whether each pipe, in order, hits the bird at height h1 and the bird
      at height h2. */
  function HitsOf(h1: real, h2: real, ps: seq<PipeState>): (hits: seq<(bool, bool)>)
    ensures |hits| == |ps|
    ensures forall k :: 0 <= k < |ps| ==> hits[k] == (Collides(ps[k], h1), Collides(ps[k], h2))
  {
    seq(|ps|, k requires 0 <= k < |ps| => (Collides(ps[k], h1), Collides(ps[k], h2)))
  }

  predicate AllDraws(draws: seq<real>) {
    |draws| == 5 && forall i :: 0 <= i < 5 ==> IsDraw(draws[i])
  }

  /** The five pipes as reset to their staggered starting positions. */
  function Restarted(draws: seq<real>): (ps: seq<PipeState>)
    requires AllDraws(draws)
    ensures |ps| == 5 && forall i :: 0 <= i < 5 ==> GapOk(ps[i])
    ensures ps[0].x == 300.0 && ps[1].x == 600.0 && ps[2].x == 800.0 && ps[3].x == 1000.0 && ps[4].x == 1200.0
  {
    [ResetAt(300.0, draws[0]), ResetAt(600.0, draws[1]), ResetAt(800.0, draws[2]),
     ResetAt(1000.0, draws[3]), ResetAt(1200.0, draws[4])]
  }

  /** The five pipes after each has scrolled by the same speed. */
  function ScrolledAll(ps: seq<PipeState>, speed: real, dt: real, draws: seq<real>): (qs: seq<PipeState>)
    requires |ps| == 5 && AllDraws(draws)
    ensures |qs| == 5
    ensures forall i :: 0 <= i < 5 && GapOk(ps[i]) ==> GapOk(qs[i])
  {
    seq(5, i requires 0 <= i < 5 => Scrolled(ps[i], speed, dt, draws[i]))
  }

  /** The game's scalar globals together with the states of its birds and
      pipes: everything update and draw change apart from the trails. */
  datatype World = World(b1: BirdState, b2: BirdState, pipes: seq<PipeState>, tally: Tally,
                         score: real, timer: real, gravityF: real)

  /** Five pipes, each with a gap 300 high. */
  predicate PipesOkIn(ps: seq<PipeState>) {
    |ps| == 5 && forall i :: 0 <= i < 5 ==> GapOk(ps[i])
  }

  /** The restart branch of update: birds, pipes, score and the flag start
      over; the counters, gameResets, the timer and the gravity factor do not. */
  function RestartedWorld(w: World, draws: seq<real>): (r: World)
    requires AllDraws(draws)
    ensures PipesOkIn(r.pipes) && r.score == 0.0 && !r.tally.gameOver
    ensures r.b1 == Spawn() && r.b2 == Spawn() && r.pipes == Restarted(draws)
    ensures r.tally.(gameOver := w.tally.gameOver) == w.tally && r.timer == w.timer && r.gravityF == w.gravityF
  {
    w.(b1 := Spawn(), b2 := Spawn(), pipes := Restarted(draws), score := 0.0,
       tally := w.tally.(gameOver := false))
  }

  /** What update does before the game-over test: the restart key, the
      first-to-10 rule and the timer. */
  function Begun(w: World, dt: real, keys: map<string, bool>, draws: seq<real>): (r: World)
    requires AllDraws(draws)
    ensures r.timer == w.timer + dt
    ensures r.tally == FirstToTen(w.tally.(gameOver := w.tally.gameOver && !KeyDown(keys, "r")))
    ensures !KeyDown(keys, "r") ==> r.(tally := w.tally, timer := w.timer) == w
    ensures KeyDown(keys, "r") ==>
              r.b1 == Spawn() && r.b2 == Spawn() && r.pipes == Restarted(draws) &&
              r.score == 0.0 && r.gravityF == w.gravityF
  {
    var w1 := if KeyDown(keys, "r") then RestartedWorld(w, draws) else w;
    w1.(tally := FirstToTen(w1.tally), timer := w1.timer + dt)
  }

  /** The first half of a frame of play: the gravity factor from the parity
      of gameResets, each held key's jump, then both birds integrated. */
  function Steered(w: World, keys: map<string, bool>, dt: real): (r: World)
    ensures r.gravityF == GravityFactor(w.tally.gameResets)
    ensures r.b1.speed == w.b1.speed + 60.0 * dt && r.b2.speed == w.b2.speed + 60.0 * dt
    ensures r.(b1 := w.b1, b2 := w.b2, gravityF := w.gravityF) == w
  {
    var g := GravityFactor(w.tally.gameResets);
    w.(b1 := Integrated(if KeyDown(keys, ",") then Jumped(w.b1, JumpImpulse) else w.b1, dt, 1.0, g),
       b2 := Integrated(if KeyDown(keys, "t") then Jumped(w.b2, JumpImpulse) else w.b2, dt, 1.0, g),
       gravityF := g)
  }

  /** The second half: every pipe scrolls by bird 1's speed, the score grows
      by dt and both birds are clamped to the playfield. */
  function Settled(w: World, dt: real, draws: seq<real>): (r: World)
    requires |w.pipes| == 5 && AllDraws(draws)
    ensures PipesOkIn(w.pipes) ==> PipesOkIn(r.pipes)
    ensures 0.0 <= r.b1.height <= FloorHeight && 0.0 <= r.b2.height <= FloorHeight
    ensures r.score == w.score + dt
    ensures r.(b1 := w.b1, b2 := w.b2, pipes := w.pipes, score := w.score) == w
  {
    w.(pipes := ScrolledAll(w.pipes, w.b1.speed, dt, draws), score := w.score + dt,
       b1 := Clamped(w.b1), b2 := Clamped(w.b2))
  }

  /** A frame of play: each bird's frame, pipes scrolled by bird 1's speed
      after integration, the score grown by dt; counters and timer kept. */
  function Played(w: World, keys: map<string, bool>, dt: real, draws: seq<real>): (r: World)
    requires |w.pipes| == 5 && AllDraws(draws)
    ensures PipesOkIn(w.pipes) ==> PipesOkIn(r.pipes)
    ensures r.gravityF == GravityFactor(w.tally.gameResets)
    ensures r.b1 == BirdFrame(w.b1, KeyDown(keys, ","), dt, r.gravityF)
    ensures r.b2 == BirdFrame(w.b2, KeyDown(keys, "t"), dt, r.gravityF)
    ensures r.pipes == ScrolledAll(w.pipes, w.b1.speed + 60.0 * dt, dt, draws)
    ensures r.tally == w.tally && r.timer == w.timer && r.score == w.score + dt
  {
    Settled(Steered(w, keys, dt), dt, draws)
  }

  /** update(dt) on the world: the round is frozen once it is over, and
      plays a frame otherwise. */
  function Stepped(w: World, dt: real, keys: map<string, bool>, resetDraws: seq<real>, recycleDraws: seq<real>): (r: World)
    requires |w.pipes| == 5 && AllDraws(resetDraws) && AllDraws(recycleDraws)
    ensures r.timer == w.timer + dt
    ensures r.tally == FirstToTen(w.tally.(gameOver := w.tally.gameOver && !KeyDown(keys, "r")))
    ensures InRange(w.tally) ==> InRange(r.tally)
    ensures PipesOkIn(w.pipes) ==> PipesOkIn(r.pipes)
    ensures KeyDown(keys, "r") ==> !r.tally.gameOver
    ensures KeyDown(keys, "r") ==>
              r.b1 == BirdFrame(Spawn(), KeyDown(keys, ","), dt, r.gravityF) &&
              r.b2 == BirdFrame(Spawn(), KeyDown(keys, "t"), dt, r.gravityF)
    ensures w.tally.gameOver && !KeyDown(keys, "r") ==>
              r == w.(tally := FirstToTen(w.tally), timer := w.timer + dt)
    ensures !r.tally.gameOver ==>
              0.0 <= r.b1.height <= FloorHeight && 0.0 <= r.b2.height <= FloorHeight &&
              r.score == (if KeyDown(keys, "r") then 0.0 else w.score) + dt &&
              r.gravityF == GravityFactor(r.tally.gameResets)
    ensures !r.tally.gameOver ==>
              r.b1 == BirdFrame(if KeyDown(keys, "r") then Spawn() else w.b1, KeyDown(keys, ","), dt, r.gravityF) &&
              r.b2 == BirdFrame(if KeyDown(keys, "r") then Spawn() else w.b2, KeyDown(keys, "t"), dt, r.gravityF)
    ensures !r.tally.gameOver ==>
              r.pipes == ScrolledAll(if KeyDown(keys, "r") then Restarted(resetDraws) else w.pipes, r.b1.speed, dt, recycleDraws)
  {
    var w2 := Begun(w, dt, keys, resetDraws);
    if w2.tally.gameOver then w2 else Played(w2, keys, dt, recycleDraws)
  }

  class Game {
    const bir: Bird
    const bir2: Bird
    const p1: Pipes
    const p2: Pipes
    const p3: Pipes
    const p4: Pipes
    const p5: Pipes
    var count1: int
    var count2: int
    var gameResets: int
    var shadows: seq<BirdShadow>
    var shadows2: seq<BirdShadow>
    var gameOver: bool
    var score: real
    var timer: real
    /** Bird.gravityF, a static of the bird class in the game. */
    var gravityF: real

    /** The birds are two objects and the pipes five. */
    ghost predicate ActorsDistinct() {
      bir != bir2 &&
      p1 != p2 && p1 != p3 && p1 != p4 && p1 != p5 && p2 != p3 &&
      p2 != p4 && p2 != p5 && p3 != p4 && p3 != p5 && p4 != p5
    }

    /** Every pipe gap is 300 high. */
    ghost predicate PipesOk()
      reads p1, p2, p3, p4, p5
    {
      GapOk(p1.State()) && GapOk(p2.State()) && GapOk(p3.State()) &&
      GapOk(p4.State()) && GapOk(p5.State())
    }

    /** Distinct entities, every pipe gap 300 high, trails without repeats. */
    ghost predicate Valid()
      reads this`shadows, this`shadows2, p1, p2, p3, p4, p5
    {
      ActorsDistinct() && PipesOk() && TrailsOk(shadows, shadows2)
    }

    function Board(): Tally
      reads this`count1, this`count2, this`gameResets, this`gameOver
    {
      Tally(count1, count2, gameResets, gameOver)
    }

    ghost function PipeStates(): seq<PipeState>
      reads p1, p2, p3, p4, p5
    {
      [p1.State(), p2.State(), p3.State(), p4.State(), p5.State()]
    }

    /** The world as the game's fields and objects hold it. */
    ghost function Snap(): World
      reads this`count1, this`count2, this`gameResets, this`gameOver, this`score, this`timer, this`gravityF
      reads bir, bir2, p1, p2, p3, p4, p5
    {
      World(bir.State(), bir2.State(), PipeStates(), Board(), score, timer, gravityF)
    }

    /** The globals as first declared, followed by setup(). */
    constructor (draws: seq<real>)
      requires AllDraws(draws)
      ensures Valid() && InRange(Board())
      ensures Snap() == World(Spawn(), Spawn(), Restarted(draws), Tally(0, 0, 0, false), 0.0, 0.0, 1.0)
      ensures shadows == [] && shadows2 == []
    {
      bir := new Bird();
      bir2 := new Bird();
      count1 := 0;
      count2 := 0;
      gameResets := 0;
      shadows := [];
      shadows2 := [];
      p1 := new Pipes(300.0, draws[0]);
      p2 := new Pipes(600.0, draws[1]);
      p3 := new Pipes(800.0, draws[2]);
      p4 := new Pipes(1000.0, draws[3]);
      p5 := new Pipes(1200.0, draws[4]);
      gameOver := false;
      score := 0.0;
      timer := 0.0;
      gravityF := 1.0;
    }

    /** The body of the restart branch of update; the trails are emptied. */
    method Restart(resetDraws: seq<real>)
      requires Valid() && AllDraws(resetDraws)
      modifies this`score, this`gameOver, this`shadows, this`shadows2, bir, bir2, p1, p2, p3, p4, p5
      ensures Valid()
      ensures Snap() == RestartedWorld(old(Snap()), resetDraws)
      ensures shadows == [] && shadows2 == []
    {
      bir.Reset();
      bir2.Reset();
      score := 0.0;
      p1.Reset(300.0, resetDraws[0]);
      p2.Reset(600.0, resetDraws[1]);
      p3.Reset(800.0, resetDraws[2]);
      p4.Reset(1000.0, resetDraws[3]);
      p5.Reset(1200.0, resetDraws[4]);
      gameOver := false;
      shadows := [];
      shadows2 := [];
    }

    /** The first-to-10 block of update. */
    method WinRule()
      modifies this`count1, this`count2, this`gameResets
      ensures Snap() == old(Snap()).(tally := FirstToTen(old(Board())))
    {
      var c1, c2, resets := count1, count2, gameResets;
      if c1 == 10 || c2 == 10 {
        c1 := 0;
        c2 := 0;

        resets := resets + 1;
        if c1 == 10 || c2 == 10 {
          c1 := 0;
          c2 := 0;
          resets := 0;
        }
      }
      count1, count2, gameResets := c1, c2, resets;
    }

    /** The timer accumulates and, once past the offset, each bird drops a
        trail marker at its current height on every frame; dropped1 and
        dropped2 are the markers dropped. */
    method SpawnShadows(dt: real) returns (ghost dropped1: seq<BirdShadow>, ghost dropped2: seq<BirdShadow>)
      requires Valid()
      modifies this`timer, this`shadows, this`shadows2
      ensures Valid()
      ensures Snap() == old(Snap()).(timer := old(timer) + dt)
      ensures shadows == old(shadows) + dropped1 && shadows2 == old(shadows2) + dropped2
      ensures |dropped1| == |dropped2| == if timer > TimerOffset then 1 else 0
      ensures forall s :: s in dropped1 ==> fresh(s) && s.height == bir.height
      ensures forall s :: s in dropped2 ==> fresh(s) && s.height == bir2.height
      ensures Positions(shadows) == old(Positions(shadows)) + DroppedAt(|dropped1|)
      ensures Positions(shadows2) == old(Positions(shadows2)) + DroppedAt(|dropped2|)
    {
      timer := timer + dt;
      if timer > TimerOffset {
        var s, s2 := DropMarkers();
        dropped1, dropped2 := [s], [s2];
        assert DroppedAt(1) == [80.0];
      } else {
        dropped1, dropped2 := [], [];
        assert shadows + [] == shadows && shadows2 + [] == shadows2;
      }
    }

    /** Each bird drops one trail marker at its current height. */
    method DropMarkers() returns (s: BirdShadow, s2: BirdShadow)
      requires Valid()
      modifies this`shadows, this`shadows2
      ensures Valid()
      ensures fresh(s) && fresh(s2) && s.height == bir.height && s2.height == bir2.height
      ensures shadows == old(shadows) + [s] && shadows2 == old(shadows2) + [s2]
      ensures Positions(shadows) == old(Positions(shadows)) + [80.0]
      ensures Positions(shadows2) == old(Positions(shadows2)) + [80.0]
    {
      ghost var trail, trail2 := shadows, shadows2;
      s := new BirdShadow(bir.height);
      s2 := new BirdShadow(bir2.height);
      shadows := shadows + [s];
      shadows2 := shadows2 + [s2];
      TrailsOkAppend(trail, [s], trail2, [s2]);
      PositionsUnchanged(trail);
      PositionsUnchanged(trail2);
      PositionsAppend(trail, [s]);
      PositionsAppend(trail2, [s2]);
    }

    /** What update does before the game-over test. */
    method BeginFrame(dt: real, keys: map<string, bool>, resetDraws: seq<real>)
      returns (ghost dropped1: seq<BirdShadow>, ghost dropped2: seq<BirdShadow>)
      requires Valid() && InRange(Board()) && AllDraws(resetDraws)
      modifies this`count1, this`count2, this`gameResets, this`score, this`gameOver, this`timer
      modifies this`shadows, this`shadows2, bir, bir2, p1, p2, p3, p4, p5
      ensures Valid() && InRange(Board())
      ensures Snap() == Begun(old(Snap()), dt, keys, resetDraws)
      ensures |dropped1| == |dropped2| == if timer > TimerOffset then 1 else 0
      ensures forall s :: s in dropped1 ==> fresh(s) && s.height == (if KeyDown(keys, "r") then 285.0 else old(bir.height))
      ensures forall s :: s in dropped2 ==> fresh(s) && s.height == (if KeyDown(keys, "r") then 285.0 else old(bir2.height))
      ensures shadows == (if KeyDown(keys, "r") then [] else old(shadows)) + dropped1
      ensures shadows2 == (if KeyDown(keys, "r") then [] else old(shadows2)) + dropped2
      ensures Positions(shadows) == (if KeyDown(keys, "r") then [] else old(Positions(shadows))) + DroppedAt(|dropped1|)
      ensures Positions(shadows2) == (if KeyDown(keys, "r") then [] else old(Positions(shadows2))) + DroppedAt(|dropped2|)
    {
      if KeyDown(keys, "r") {
        Restart(resetDraws);
      }
      ghost var trail, trail2 := shadows, shadows2;
      WinRule();
      PositionsUnchanged(trail);
      PositionsUnchanged(trail2);
      dropped1, dropped2 := SpawnShadows(dt);
    }

    /** Bird.gravityF from the parity of gameResets, then the level-triggered
        jumps (each held key sets its bird's velocity, every frame) and the
        integration of both birds. */
    method Integrate(dt: real, keys: map<string, bool>)
      requires ActorsDistinct()
      modifies this`gravityF, bir, bir2
      ensures Snap() == Steered(old(Snap()), keys, dt)
    {
      if gameResets % 2 != 0 {
        gravityF := -1.0;
        if KeyDown(keys, ",") {
          bir.Jump(-400.0);
        }
        if KeyDown(keys, "t") {
          bir2.Jump(-400.0);
        }
      } else {
        gravityF := 1.0;
        if KeyDown(keys, ",") {
          bir.Jump(-400.0);
        }
        if KeyDown(keys, "t") {
          bir2.Jump(-400.0);
        }
      }
      bir.Update(dt, 1.0, gravityF);
      bir2.Update(dt, 1.0, gravityF);
    }

    /** The two backward loops over the trails. */
    method AdvanceTrails(dt: real)
      requires TrailsOk(shadows, shadows2)
      modifies this`shadows, this`shadows2, shadows`x, shadows2`x
      ensures TrailsOk(shadows, shadows2)
      ensures shadows == Survivors(old(shadows), Drifted(old(Positions(shadows)), dt))
      ensures shadows2 == Survivors(old(shadows2), Drifted(old(Positions(shadows2)), dt))
      ensures Positions(old(shadows)) == Drifted(old(Positions(shadows)), dt)
      ensures Positions(old(shadows2)) == Drifted(old(Positions(shadows2)), dt)
    {
      ghost var trail, trail2 := shadows, shadows2;
      ghost var xs, xs2 := Positions(trail), Positions(trail2);
      shadows := AdvanceTrail(shadows, trail2, dt);
      assert Positions(trail) == Drifted(xs, dt) && Positions(trail2) == xs2;
      shadows2 := AdvanceTrail(shadows2, trail, dt);
      SurvivorsKeepTrailsOk(trail, Drifted(xs, dt), trail2, Drifted(xs2, dt));
    }

    /** The rest of a frame of play: every pipe scrolls by bird 1's speed
        (bird 2's speed plays no part), the score grows, both birds are
        clamped to the playfield. */
    method Settle(dt: real, recycleDraws: seq<real>)
      requires ActorsDistinct() && PipesOk() && AllDraws(recycleDraws)
      modifies p1`x, p1`yUp, p1`yDown, p2`x, p2`yUp, p2`yDown, p3`x, p3`yUp, p3`yDown
      modifies p4`x, p4`yUp, p4`yDown, p5`x, p5`yUp, p5`yDown
      modifies this`score, bir`height, bir`velocity, bir2`height, bir2`velocity
      ensures PipesOk()
      ensures Snap() == Settled(old(Snap()), dt, recycleDraws)
    {
      ScrollPipes(dt, recycleDraws);
      score := score + dt;
      bir.IsOffScreen();
      bir2.IsOffScreen();
    }

    /** The five pipe updates, each by bird 1's speed. */
    method ScrollPipes(dt: real, recycleDraws: seq<real>)
      requires ActorsDistinct() && PipesOk() && AllDraws(recycleDraws)
      modifies p1`x, p1`yUp, p1`yDown, p2`x, p2`yUp, p2`yDown, p3`x, p3`yUp, p3`yDown
      modifies p4`x, p4`yUp, p4`yDown, p5`x, p5`yUp, p5`yDown
      ensures PipesOk()
      ensures PipeStates() == ScrolledAll(old(PipeStates()), bir.speed, dt, recycleDraws)
    {
      p1.Update(dt, bir, recycleDraws[0]);
      p2.Update(dt, bir, recycleDraws[1]);
      p3.Update(dt, bir, recycleDraws[2]);
      p4.Update(dt, bir, recycleDraws[3]);
      p5.Update(dt, bir, recycleDraws[4]);
    }

    /** The part of update that runs while the round is on, up to the
        pipes: the birds are steered and integrated, then the trails drift. */
    method Advance(dt: real, keys: map<string, bool>)
      requires ActorsDistinct() && TrailsOk(shadows, shadows2)
      modifies this`gravityF, this`shadows, this`shadows2, shadows`x, shadows2`x, bir, bir2
      ensures TrailsOk(shadows, shadows2)
      ensures Snap() == Steered(old(Snap()), keys, dt)
      ensures shadows == Survivors(old(shadows), Drifted(old(Positions(shadows)), dt))
      ensures shadows2 == Survivors(old(shadows2), Drifted(old(Positions(shadows2)), dt))
      ensures Positions(old(shadows)) == Drifted(old(Positions(shadows)), dt)
      ensures Positions(old(shadows2)) == Drifted(old(Positions(shadows2)), dt)
    {
      ghost var trail, trail2 := shadows, shadows2;
      ghost var xs, xs2 := Positions(shadows), Positions(shadows2);
      Integrate(dt, keys);
      assert Positions(trail) == xs && Positions(trail2) == xs2;
      AdvanceTrails(dt);
    }

    /** A frame of play once the round is known to be on. */
    method Play(dt: real, keys: map<string, bool>, recycleDraws: seq<real>)
      requires Valid() && AllDraws(recycleDraws)
      modifies this`gravityF, this`shadows, this`shadows2, this`score, shadows`x, shadows2`x
      modifies bir, bir2
      modifies p1`x, p1`yUp, p1`yDown, p2`x, p2`yUp, p2`yDown, p3`x, p3`yUp, p3`yDown
      modifies p4`x, p4`yUp, p4`yDown, p5`x, p5`yUp, p5`yDown
      ensures Valid()
      ensures Snap() == Played(old(Snap()), keys, dt, recycleDraws)
      ensures shadows == Survivors(old(shadows), Drifted(old(Positions(shadows)), dt))
      ensures shadows2 == Survivors(old(shadows2), Drifted(old(Positions(shadows2)), dt))
      ensures Positions(old(shadows)) == Drifted(old(Positions(shadows)), dt)
      ensures Positions(old(shadows2)) == Drifted(old(Positions(shadows2)), dt)
    {
      ghost var trail, trail2 := shadows, shadows2;
      Advance(dt, keys);
      label steered:
      Settle(dt, recycleDraws);
      PositionsUnchanged@steered(trail);
      PositionsUnchanged@steered(trail2);
    }

    /** update(dt): key states come in as a map and the random draws as two
        lists of five; dropped1 and dropped2 are the trail markers dropped
        this frame. Each trail is the old one (emptied by a restart) with the
        dropped marker appended; while the round is on, every marker of it
        drifts and those that leave the screen are removed. */
    method Update(dt: real, keys: map<string, bool>, resetDraws: seq<real>, recycleDraws: seq<real>)
      returns (ghost dropped1: seq<BirdShadow>, ghost dropped2: seq<BirdShadow>)
      requires Valid() && InRange(Board()) && AllDraws(resetDraws) && AllDraws(recycleDraws)
      modifies this, bir, bir2, p1, p2, p3, p4, p5, shadows, shadows2
      ensures Valid() && InRange(Board())
      ensures Snap() == Stepped(old(Snap()), dt, keys, resetDraws, recycleDraws)
      ensures |dropped1| == |dropped2| == if timer > TimerOffset then 1 else 0
      ensures forall s :: s in dropped1 ==> fresh(s) && s.height == (if KeyDown(keys, "r") then 285.0 else old(bir.height))
      ensures forall s :: s in dropped2 ==> fresh(s) && s.height == (if KeyDown(keys, "r") then 285.0 else old(bir2.height))
      ensures var trail := (if KeyDown(keys, "r") then [] else old(shadows)) + dropped1;
              var xs := (if KeyDown(keys, "r") then [] else old(Positions(shadows))) + DroppedAt(|dropped1|);
              if gameOver then shadows == trail && Positions(trail) == xs
              else shadows == Survivors(trail, Drifted(xs, dt)) && Positions(trail) == Drifted(xs, dt)
      ensures var trail := (if KeyDown(keys, "r") then [] else old(shadows2)) + dropped2;
              var xs := (if KeyDown(keys, "r") then [] else old(Positions(shadows2))) + DroppedAt(|dropped2|);
              if gameOver then shadows2 == trail && Positions(trail) == xs
              else shadows2 == Survivors(trail, Drifted(xs, dt)) && Positions(trail) == Drifted(xs, dt)
    {
      dropped1, dropped2 := BeginFrame(dt, keys, resetDraws);

      if gameOver {
        return;
      }
      forall i | 0 <= i < |shadows|
        ensures shadows[i] in old(shadows) || fresh(shadows[i])
      {
        assert shadows[i] in shadows;
      }
      forall i | 0 <= i < |shadows2|
        ensures shadows2[i] in old(shadows2) || fresh(shadows2[i])
      {
        assert shadows2[i] in shadows2;
      }
      Play(dt, keys, recycleDraws);
    }

    /** checkCollision(pipe): a hit ends the round and counts a reset; while
        the round is on, the bird that did not collide gets the point. */
    method CheckCollision(pipe: Pipes)
      modifies this`count1, this`count2, this`gameOver, this`gameResets
      ensures Board() == Credit(old(Board()), Collides(pipe.State(), bir.height), Collides(pipe.State(), bir2.height))
    {
      if pipe.CollideWith(bir) || pipe.CollideWith(bir2) {
        if gameOver == false {
          if pipe.CollideWith(bir) {
            count2 := count2 + 1;
          } else {
            count1 := count1 + 1;
          }
        }
        gameOver := true;
        gameResets := gameResets + 1;
      }
    }

    /** The state-changing part of draw: each bird's drawR, then the scoring
        pass over the five pipes in order. */
    method Draw()
      requires Valid() && InRange(Board())
      modifies this`count1, this`count2, this`gameOver, this`gameResets, bir`colorIntensity, bir2`colorIntensity
      ensures Valid() && InRange(Board())
      ensures bir.State() == Faded(old(bir.State())) && bir2.State() == Faded(old(bir2.State()))
      ensures Board() == ScoringPass(old(Board()), HitsOf(bir.height, bir2.height, PipeStates()))
    {
      var tint1 := bir.DrawR();
      var tint2 := bir2.DrawR();
      ScoreCollisions();
    }

    /** The scoring pass as a whole: the five checks credit the tally as
        ScoringPass does, and the counters stay within the match. */
    method ScoreCollisions()
      requires InRange(Board())
      modifies this`count1, this`count2, this`gameOver, this`gameResets
      ensures InRange(Board())
      ensures Board() == ScoringPass(old(Board()), HitsOf(bir.height, bir2.height, PipeStates()))
    {
      ghost var start := Board();
      CheckCollisions();
      ghost var ps := PipeStates();
      ScoringPassOfFive(start, bir.height, bir2.height, ps);
      ScoringPassInRange(start, HitsOf(bir.height, bir2.height, ps));
    }

    /** checkCollision on the five pipes, in order. */
    method CheckCollisions()
      modifies this`count1, this`count2, this`gameOver, this`gameResets
      ensures var h1, h2 := bir.height, bir2.height;
              Board() ==
                Credit(Credit(Credit(Credit(Credit(old(Board()),
                  Collides(p1.State(), h1), Collides(p1.State(), h2)),
                  Collides(p2.State(), h1), Collides(p2.State(), h2)),
                  Collides(p3.State(), h1), Collides(p3.State(), h2)),
                  Collides(p4.State(), h1), Collides(p4.State(), h2)),
                  Collides(p5.State(), h1), Collides(p5.State(), h2))
    {
      CheckCollision(p1);
      CheckCollision(p2);
      CheckCollision(p3);
      CheckCollision(p4);
      CheckCollision(p5);
    }
  }

  /** The backward loop of update over one trail: each marker drifts, then
      removes itself from the list if it has left the screen. What is left
      are the markers whose drifted positions are still on screen, in their
      original order. */
  method AdvanceTrail(list: seq<BirdShadow>, ghost other: seq<BirdShadow>, dt: real) returns (kept: seq<BirdShadow>)
    requires Distinct(list) && forall s :: s in other ==> s !in list
    modifies list`x
    ensures Positions(list) == Drifted(old(Positions(list)), dt)
    ensures kept == Survivors(list, Drifted(old(Positions(list)), dt))
    ensures Positions(other) == old(Positions(other))
  {
    ghost var xs := Drifted(Positions(list), dt);
    DriftedPositionsAt(list, dt);
    kept := VisitAll(list, xs, dt);
    PositionsAre(list, xs);
    SurvivorsFromSuffix(list, xs, 0);
    assert list[0..] == list && xs[0..] == xs;
    PositionsUnchanged(other);
  }

  /** Entry j of the drifted positions is marker j's x after one frame. */
  lemma DriftedPositionsAt(list: seq<BirdShadow>, dt: real)
    ensures forall j :: 0 <= j < |list| ==> Drifted(Positions(list), dt)[j] == list[j].x - DriftRate * dt
  {
    forall j | 0 <= j < |list|
      ensures Drifted(Positions(list), dt)[j] == list[j].x - DriftRate * dt
    {
      PositionsAt(list, j);
      DriftedAt(Positions(list), dt, j);
    }
  }

  /** The loop itself, given the positions xs every marker is to reach. */
  method VisitAll(list: seq<BirdShadow>, ghost xs: seq<real>, dt: real) returns (kept: seq<BirdShadow>)
    requires Distinct(list) && |xs| == |list|
    requires forall j :: 0 <= j < |list| ==> xs[j] == list[j].x - DriftRate * dt
    modifies list`x
    ensures forall j :: 0 <= j < |list| ==> list[j].x == xs[j]
    ensures kept == SurvivorsFrom(list, xs, 0)
  {
    kept := list;
    var i := |list| - 1;
    while i >= 0
      invariant -1 <= i < |list|
      invariant kept == list[..i + 1] + SurvivorsFrom(list, xs, i + 1)
      invariant forall j :: 0 <= j <= i ==> xs[j] == list[j].x - DriftRate * dt
      invariant forall j :: i < j < |list| ==> list[j].x == xs[j]
    {
      NotBefore(list, i);
      VisitStep(list, xs, kept, i);
      kept := VisitMarker(list, kept, i, dt);
      i := i - 1;
    }
    assert list[..0] == [];
  }

  /** One iteration of that loop, at position i: the marker kept[i], which
      is list[i] and does not occur before i, drifts and then removes itself
      from kept if it has left the screen. */
  method VisitMarker(list: seq<BirdShadow>, kept: seq<BirdShadow>, i: nat, dt: real)
    returns (next: seq<BirdShadow>)
    requires Distinct(list) && i < |list| && i < |kept|
    requires kept[i] == list[i] && kept[i] !in kept[..i]
    modifies list`x
    ensures list[i].x == old(list[i].x) - DriftRate * dt
    ensures forall j :: 0 <= j < |list| && j != i ==> list[j].x == old(list[j].x)
    ensures next == if list[i].x < DeleteBelow then RemoveAt(kept, i) else kept
  {
    var shadow := kept[i];
    assert forall j :: 0 <= j < |list| && j != i ==> list[j] != shadow;
    shadow.Update(dt);
    IndexOfFirst(kept, i);
    next := shadow.CheckForSelfDelete(kept);
  }

  /** In a list without repeats, no marker occurs before its own position. */
  lemma NotBefore(list: seq<BirdShadow>, i: nat)
    requires Distinct(list) && i < |list|
    ensures list[i] !in list[..i]
  {
  }

  /** The list the loop holds before visiting position i has list[i] at i,
      not earlier, and visiting it yields the list the loop holds after. */
  lemma VisitStep(list: seq<BirdShadow>, xs: seq<real>, kept: seq<BirdShadow>, i: nat)
    requires i < |list| == |xs| && list[i] !in list[..i]
    requires kept == list[..i + 1] + SurvivorsFrom(list, xs, i + 1)
    ensures i < |kept| && kept[i] == list[i] && kept[i] !in kept[..i]
    ensures (if xs[i] < DeleteBelow then RemoveAt(kept, i) else kept) == list[..i] + SurvivorsFrom(list, xs, i)
  {
    var rest := SurvivorsFrom(list, xs, i + 1);
    assert list[..i + 1] == list[..i] + [list[i]];
    SpliceAt(list[..i], list[i], rest);
    if xs[i] < DeleteBelow {
      assert SurvivorsFrom(list, xs, i) == [] + rest;
    } else {
      assert SurvivorsFrom(list, xs, i) == [list[i]] + rest;
    }
  }

  /** Removing the marker between head and rest leaves head + rest. */
  lemma SpliceAt(head: seq<BirdShadow>, x: BirdShadow, rest: seq<BirdShadow>)
    ensures |head| < |head + [x] + rest| && (head + [x] + rest)[|head|] == x
    ensures (head + [x] + rest)[..|head|] == head
    ensures RemoveAt(head + [x] + rest, |head|) == head + ([] + rest)
    ensures head + [x] + rest == head + ([x] + rest)
  {
    var s := head + [x] + rest;
    assert s[..|head|] == head;
    assert s[|head| + 1..] == rest;
  }
}
