# Two-player flappy game: a verified model of its simulation

This project models the simulation at the heart of `sketch.js`. It is a two-player, Flappy-Bird-style game. Each frame, `update(dt)` moves the game's state forward, and the collision pass inside `draw` scores it. The modelled state is:

- two birds (`Bird`) that integrate under a shared gravity factor;
- a trail of markers per bird (`BirdShadow`). Markers drift left and remove themselves from their array once they leave the screen;
- five pipes (`Pipes`). They scroll left by bird 1's speed and are recycled with a fresh random gap;
- the globals `count1`, `count2`, `gameResets`, `gameOver`, `score`, `timer` and `Bird.gravityF`.

The modules follow the source's classes:

- `Util`: `clamp` and the colour arithmetic built on it.
- `Birds`: the `Bird` class.
- `Shadows`: the `BirdShadow` class and the trail lists.
- `Obstacles`: the `Pipes` class.
- `Flappy`: the globals as a `Game` class, `update`, the scoring pass and `keyDown`.

The model is written in two layers:

- **Classes.** Each class keeps the source's mutable fields, and its methods update them in place. Every method's postcondition ties its new state to a pure function of the old state: `Integrated`, `Clamped`, `Scrolled`, `Stepped`, `ScoringPass` and so on.
- **Lemmas.** The properties the game promises are proved as lemmas about those functions, and as the functions' own postconditions.

The trails are sequences of `BirdShadow` objects held in the game's fields. The backward removal loop is a `while` loop over them. It is proved to leave exactly the markers whose drifted position is still at or right of -1, in their original order (`Survivors`).

Inputs the browser provides become parameters:

- the key states are a `map<string, bool>` read by `KeyDown`;
- every `Math.random()` draw is a `real` in [0, 1). `Update` takes five for the restart branch and five for pipe recycling, one per pipe in order.

The model follows the code as written; in particular:

- restart does not reset `timer`, the counters or `gameResets` (sketch.js:301-313);
- the counters are zeroed when either reaches 10 (sketch.js:314-317). The inner test at sketch.js:319 runs after that zeroing and never fires, so `gameResets` is never zeroed (`FirstToTen`);
- gravity really flips. `checkCollision` increments `gameResets` on every frame with a hit, even after the round is over. `update` then sets `Bird.gravityF` from its parity (`Steered`, `GravityFlipsEachReset`).

## Model

| member | source | states |
|---|---|---|
| Util.Clamp | sketch.js:23-25 | the result is the value itself when already in [min, max], exactly min when the value is below min <= max, and exactly max when the value is above max or min > max; so it is never above max, and never below min when min <= max |
| Util.PlayerTint | sketch.js:101-112 | every channel of the colour a bird is drawn with lies in [0, 255]; the lane channel is 255 at x = 100; blue is 0 while the whole intensity is 0 |
| Util.DrawRTint | sketch.js:138-141 | every channel of the drawR colour lies in [0, 255]; at zero intensity red is 0 and blue 255 |
| Birds.Spawn | sketch.js:46-61 | the state a bird is created in and reset to lies inside the playfield with velocity 0 and an intensity drawR leaves alone, so clamping and fading leave it unchanged |
| Birds.Jumped | sketch.js:63-65 | jump(v) sets the velocity to exactly v and leaves every other field unchanged |
| Birds.Integrated | sketch.js:82-90 | velocity grows by 1471.5·m·dt; height then grows by the new velocity·dt·gravityF; speed grows by 60·dt and intensity by 0.6·dt; x is unchanged |
| Birds.Clamped | sketch.js:67-75 | a height above 570 becomes exactly 570 and one below 0 exactly 0, so it ends in [0, 570]; velocity becomes 0 exactly when the height exceeded 570 and is otherwise kept; a height already in range is untouched; x, speed and intensity are kept |
| Birds.Faded | sketch.js:131-134 | intensity past 7.3 is reset to exactly 0 and is otherwise kept, so it never exceeds 7.3 afterwards; every other field is kept |
| Birds.JumpOverwrites | sketch.js:63-65 | jump sets the velocity to exactly v whatever it was; jumping twice equals jumping once |
| Birds.HeldJumpForgetsVelocity | sketch.js:336-356 | with the jump key held, the frame's integrated state does not depend on the velocity before the frame (level-triggered thrust) |
| Birds.GravityFactorScalesHeightOnly | sketch.js:82-90 | the gravity factor changes only the height update, never velocity, speed or intensity |
| Birds.FreeFallFromSpawn | sketch.js:46-90 | a bird falling freely for one second from spawn overshoots to 1756.5 and is clamped to the floor with velocity 0 |
| Birds.Bird.constructor | sketch.js:46-53 | a new bird is in the spawn state (x 100, height 285, velocity 0, speed 210, intensity 0) |
| Birds.Bird.Reset | sketch.js:55-61 | reset restores the spawn state |
| Birds.Bird.Jump | sketch.js:63-65 | the state after jump(v) is the old state with velocity v |
| Birds.Bird.IsOffScreen | sketch.js:67-75 | the new state is the clamped old state |
| Birds.Bird.Update | sketch.js:82-90 | the new state is the old state integrated with m and the gravity factor |
| Birds.Bird.DrawR | sketch.js:131-143 | the intensity is faded as above; the height is unchanged; the tint returned is in byte range |
| Shadows.BirdShadow.constructor | sketch.js:161-167 | a marker spawns at x = 80 with the given height |
| Shadows.BirdShadow.Update | sketch.js:182-184 | the marker drifts left by 300·dt |
| Shadows.BirdShadow.CheckForSelfDelete | sketch.js:169-176 | past x < -1 the marker's first occurrence is removed, so the list is one shorter and loses exactly that marker; otherwise, or if absent, the list is unchanged |
| Shadows.IndexOf | sketch.js:171 | indexOf returns -1 exactly when the marker is absent; otherwise the first position holding it |
| Shadows.IndexOfFirst | sketch.js:171 | a marker not occurring before position k is found at k |
| Shadows.DriftedAt | sketch.js:183 | every trail position drifts by the same 300·dt |
| Shadows.PositionsAre | sketch.js:359-367 | the positions list of a trail is determined by its markers' x, read one by one |
| Shadows.PositionsAppend | sketch.js:328-329 | the positions of a trail with markers appended are the old positions followed by the new ones |
| Shadows.SurvivorsFromSuffix | sketch.js:359-363 | counting survivors by index from lo equals filtering the suffix from lo |
| Shadows.SurvivorsExactly | sketch.js:359-367 | in a trail without repeats, a marker survives the pass exactly when its drifted x is at least -1 |
| Shadows.SurvivorsAppend | sketch.js:359-367 | filtering commutes with concatenation, so surviving markers keep their relative order |
| Shadows.SurvivorsDistinct | sketch.js:359-367 | a trail without repeats stays without repeats after the pass |
| Shadows.SurvivorsKeepTrailsOk | sketch.js:358-368 | both trails stay free of repeats and disjoint after both passes |
| Shadows.TrailsOkAppend | sketch.js:326-330 | appending a fresh marker to each trail keeps them free of repeats and disjoint |
| Obstacles.Randomized | sketch.js:222-227 | the gap follows the draw r: its top is 301·r and its bottom 301·r + 300, so for r in [0, 1) the gap is exactly 300 high, its top lies in [0, 301) and its midpoint in [150, 451); x is unchanged |
| Obstacles.ResetAt | sketch.js:229-234 | reset places the pipe at the given x with the gap drawn from r (top 301·r, bottom 301·r + 300) |
| Obstacles.Scrolled | sketch.js:257-264 | when x - speed·dt >= -50 the pipe moves left by exactly speed·dt with its gap unchanged; otherwise it is recycled to 950 - 210·dt with the gap drawn from r (top 301·r, bottom 301·r + 300); a valid gap stays valid |
| Obstacles.Collides | sketch.js:236-243 | a pipe hits a bird exactly when 50 <= x <= 130 and the bird's box reaches the lower pipe (height + 30 >= yDown) or the upper pipe (height <= yUp) |
| Obstacles.Pipes.constructor | sketch.js:215-220 | a new pipe is reset to its initial x with a fresh gap |
| Obstacles.Pipes.RandomizeHeight | sketch.js:222-227 | the new state is the old state with a randomized gap |
| Obstacles.Pipes.Reset | sketch.js:229-234 | the new state is the reset state for the given x |
| Obstacles.Pipes.CollideWith | sketch.js:236-243 | collideWith(bir) agrees with Collides on the pipe's state and the bird's height |
| Obstacles.Pipes.Update | sketch.js:257-264 | the new state is the old state scrolled by the bird's speed |
| Flappy.KeyDown | sketch.js:18-20 | a key is down exactly when it is recorded and recorded as true; a key never recorded is up |
| Flappy.GravityFactor | sketch.js:336-346 | the factor is 1 when gameResets is even and -1 otherwise (the JavaScript and Dafny remainders agree on oddness); see also GravityFlipsEachReset |
| Flappy.GravityFlipsEachReset | sketch.js:336-346 | each increment of gameResets flips the sign of the gravity factor, which is always 1 or -1 |
| Flappy.BirdFrame | sketch.js:336-378 | after a frame a bird's height is in [0, 570] and its speed has grown by 60·dt; with the jump key held and the bird off the floor its velocity is -400 + 1471.5·dt |
| Flappy.FirstToTen | sketch.js:314-324 | no counter is left at 10; when either was 10 both are zeroed and gameResets grows by one (the inner reset never fires); otherwise nothing changes |
| Flappy.Credit | sketch.js:399-413 | definition of checkCollision on the hits of one pipe; its effect is stated by CreditEffect |
| Flappy.CreditEffect | sketch.js:399-413 | without a hit nothing changes; a hit ends the round and counts a reset; once the round is over the counters do not move; while it is on, a hit on bird 1 credits player 2 and a hit on bird 2 alone credits player 1 |
| Flappy.ScoringPass | sketch.js:415-419 | definition of the pass as checkCollision on each pipe in order; its effect is stated by ScoringPassEffect and ScoringPassCreditsSurvivor |
| Flappy.FirstHit | sketch.js:415-419 | the first pipe in the pass that hits either bird: it hits, and no earlier pipe does |
| Flappy.ScoringPassEffect | sketch.js:399-419 | after the pass the round is over exactly if it was or some pipe hit; gameResets grows by the number of hitting pipes; counters never fall; count1 + count2 grows by exactly 1 if the round was on and some pipe hit, and by 0 otherwise |
| Flappy.ScoringPassCreditsSurvivor | sketch.js:399-419 | with the round on, the point goes to player 2 if bird 1 hit the first hitting pipe, and to player 1 otherwise; the other counter is unchanged |
| Flappy.ScoringPassSnoc | sketch.js:399-413 | a pass over one more pipe is one more checkCollision |
| Flappy.ScoringPassOfFive | sketch.js:415-419 | a pass over the five pipes is the five checkCollision calls in order |
| Flappy.ScoringPassInRange | sketch.js:399-419 | the pass keeps the counters in [0, 10], and a counter at 10 only with the round over |
| Flappy.Restarted | sketch.js:305-309 | the five reset pipes sit at x = 300, 600, 800, 1000 and 1200, each with a valid 300-high gap |
| Flappy.ScrolledAll | sketch.js:370-374 | scrolling all five pipes keeps every valid gap valid |
| Flappy.RestartedWorld | sketch.js:301-313 | restart respawns both birds, resets the pipes to exactly the Restarted pipes (x = 300 to 1200, valid gaps), zeroes the score and clears game over; the counters, gameResets, timer and gravity factor are kept |
| Flappy.Begun | sketch.js:301-330 | the timer grows by dt (it is never reset); the tally is the first-to-10 rule applied after the optional restart; without the restart key nothing else changes; with it both birds are at spawn, the pipes are the Restarted pipes, the score is 0 and the gravity factor is kept |
| Flappy.Steered | sketch.js:336-356 | the gravity factor is set from the parity of gameResets; both speeds grow by 60·dt; nothing outside the birds and the factor changes |
| Flappy.Settled | sketch.js:370-378 | valid gaps stay valid; both heights end in [0, 570]; the score grows by dt; nothing outside pipes, birds and score changes |
| Flappy.Played | sketch.js:336-378 | each bird takes its frame with its own key (',' for bird 1, 't' for bird 2); the pipes scroll by bird 1's speed after integration; the counters and timer are kept; the score grows by dt |
| Flappy.Stepped | sketch.js:300-379 | update: timer + dt always; the tally is the first-to-10 rule; counters stay in range; gaps stay valid; with the round over and no restart only the tally and timer change; a restart clears game over; while playing, each bird takes its frame (jump with its own key, integration, clamp) from its old state or from spawn after a restart, both heights are in [0, 570], the pipes are the old pipes (the Restarted pipes after a restart) scrolled by bird 1's new speed, the score is the old score (0 after a restart) + dt, and gravity follows gameResets' parity |
| Flappy.Game.constructor | sketch.js:273-297 | the globals as declared: spawned birds, pipes at 300, 600, 800, 1000 and 1200 with valid gaps, zero counters, empty trails, score and timer 0, gravity factor 1 |
| Flappy.Game.Restart | sketch.js:301-313 | the state becomes the restarted world, with both trails empty |
| Flappy.Game.WinRule | sketch.js:314-324 | the tally becomes the first-to-10 rule of the old tally; nothing else changes |
| Flappy.Game.SpawnShadows | sketch.js:326-330 | the timer grows by dt; once past 0.0075 each trail gets one fresh marker at x = 80, at its bird's current height; otherwise the trails are unchanged |
| Flappy.Game.DropMarkers | sketch.js:328-329 | one fresh marker per trail, at its bird's height and x = 80; the trails stay free of repeats and disjoint |
| Flappy.Game.BeginFrame | sketch.js:301-330 | the state becomes Begun; each trail is the old trail, emptied by a restart, with the markers dropped this frame appended, each fresh and at its bird's height (285 after a restart, the old height otherwise) |
| Flappy.Game.Integrate | sketch.js:336-356 | the state becomes Steered |
| Flappy.Game.AdvanceTrails | sketch.js:358-368 | every marker of both trails drifts by 300·dt; each trail becomes exactly its surviving markers in order; the trails stay valid |
| Flappy.Game.ScrollPipes | sketch.js:370-374 | the five pipes become ScrolledAll by bird 1's speed, keeping valid gaps |
| Flappy.Game.Settle | sketch.js:370-378 | the state becomes Settled |
| Flappy.Game.Advance | sketch.js:336-368 | the state becomes Steered, and both trails drift and are filtered as above |
| Flappy.Game.Play | sketch.js:336-378 | the state becomes Played, and both trails drift and are filtered as above |
| Flappy.Game.Update | sketch.js:300-379 | the state becomes Stepped; each trail is the old trail (emptied by a restart) with this frame's markers appended (each fresh and at its bird's height: 285 after a restart, the old height otherwise), then, while the round is on, drifted and filtered to its survivors; validity and counter range are kept |
| Flappy.Game.CheckCollision | sketch.js:399-413 | the tally is credited for the hits of this pipe on each bird |
| Flappy.Game.CheckCollisions | sketch.js:415-419 | the tally is credited pipe by pipe, p1 to p5 |
| Flappy.Game.ScoreCollisions | sketch.js:399-419 | the tally becomes the scoring pass over the five pipes, and the counters stay in range |
| Flappy.Game.Draw | sketch.js:393-419 | both birds' intensities are faded by drawR, then the scoring pass runs on the current heights and pipes |
| Flappy.AdvanceTrail | sketch.js:359-363 | the backward loop over one trail drifts every marker by 300·dt and leaves exactly the survivors in order; the other trail's positions are unchanged |
| Flappy.VisitAll | sketch.js:359-363 | the loop sets every marker to its drifted x and yields the survivors from index 0 |
| Flappy.VisitMarker | sketch.js:360-362 | one iteration: marker i drifts, no other marker moves, and it removes itself exactly when it is past -1 |
| Flappy.VisitStep | sketch.js:359-363 | at position i the list still holds list[i] there and not earlier, and the iteration turns the loop's list at i + 1 into the list at i |

## Left out

- Canvas and DOM drawing is not modelled. This covers the background and sprite images, `fillRect`, fonts, the player-number text and the win text. These are I/O without state. Only the colour arithmetic is kept (`PlayerTint`, `DrawRTint`).
- Keyboard listeners are not modelled. The key states are a `map<string, bool>` parameter.
- Image loading is not modelled.
- `requestAnimationFrame` and the derivation of `dt` from timestamps are not modelled; `dt` is a parameter.
- `Math.random()` is not called. Each draw is a parameter in [0, 1).
- IEEE-754 rounding is not modelled. Every quantity is a mathematical `real`.
- `Bird.updateIntensity` is a no-op and is left out.
- `BirdShadow.updateIntensity` is left out, along with the marker's `colorIntensity`, `velocity` and `speed` fields. These only feed the marker's drawn colour or are never read. The unused `m` and `y` parameters of `BirdShadow.update` are dropped.
- `Bird.flipGravity` is the assignment to the game's `gravityF` field inside `Integrate`. `Bird.update` receives the factor as a parameter instead of reading a static.
- Util.PlayerTint: requires a player number of 1 or 2. These are the only values `draw` is called with; for any other number the source leaves the channels undefined.
- Flappy.Game.Draw: models only the state `draw` changes. That is the `drawR` intensity reset and the scoring pass; the drawing calls around them are left out.
- Trail markers are objects whose `x` the loop updates in place. The model proves the resulting list and every marker's new position. It does not model another reference to a marker outside the two trails, because the game keeps none.

