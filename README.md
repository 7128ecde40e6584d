# Bubble Trouble — a verified model of the game logic

This project models the per-frame logic of a small Bubble Trouble clone. A
shooter at the bottom of the window moves left and right and fires bullets
upward. Bubbles bounce around the play field under gravity. A bullet that
touches a bubble is used up and the bubble bursts: it scores a point, and a
bubble large enough splits into two halves flying apart. A bubble touching
the shooter costs one health point per touch. A level is lost when health
reaches zero or its 45-second timer runs out, and won when no bubbles are
left. Each level won raises the gravity, and winning level 3 wins the game.

The model is written in the source's own form:

- `Bubbles` (`bubble.dfy`): the `Bubble` class of `Final/bubble.h`, with its
  fields, constructor defaults, getters and the `NextStep` method that moves
  a bubble in place. `Step`, a pure function, gives the state after one step.
  Bounces are taken off the left and right walls and the floor.
- `Shooters` (`shooter.dfy`): the shooter and its bullets. `shooter.h` is not
  part of this model. Only the geometry the game reads is kept, and the
  shooter's behaviour (starting shooter, move, shoot, bullet step) is a
  `ShooterKit` of function values handed in.
- `PlayField` (`playfield.dfy`): the helper routines of
  `Experiment/main.cpp`. These are the bullet pass (with the element the
  source skips after an erase), the bubble pass, the bullet/bubble collision
  that consumes the first overlapping bullet, the bubble/shooter collision
  test, and the level table. Each loop is a method proved equal to a
  specification function, and the properties are lemmas about that function.
- `Sweeps` (`sweep.dfy`): the reverse sweep over the bubbles that resolves
  hits in the main loop, as a function with lemmas. They state which bubbles
  are kept and in what order, which children are appended, how many bullets
  are used, and that a hit always has an overlapping bullet.
- `Round` (`round.dfy`): the main loop. Each phase of a frame (key, sweep,
  health, verdict, motion) is a pure function of a `RoundState`. The `Game`
  class holds the loop's variables as fields, and its methods perform each
  phase in place, one frame, one level and the whole game. Lemmas cover the
  edge-triggered health loss, scoring, the bullet count and the verdicts.

Gravity, the window width, the keys pressed (one optional key per frame)
and the shooter's behaviour are parameters. Numbers are modelled as exact
reals.

Health, score and the touch flag carry over from one level to the next:
`Experiment/main.cpp` sets them once, at lines 132-138, before the level loop
that starts at line 151, and a level start (`Round.Game.StartLevel`) resets
only the timer, the shooter, the bubbles and the bullets.

The frame loop and the level loop are specified by value: `Round.LevelSpec`
plays frames until one does not continue, reading one entry of the key
sequence per frame, and `Round.GameSpec` plays passes of the level loop
(`Round.RoundSpec`: start the level, play it, and on a win raise the level
and the gravity) until a level is lost or quit or level 3 is won. The
methods `Round.Game.PlayLevel`, `Round.Game.PlayRound` and `Round.Game.Run`
are proved to leave exactly the state these functions give.

## Model

| member | source | states |
|---|---|---|
| Bubbles.Step | Final/bubble.h:35-61 | One step keeps the radius and colour and the speed along x. The x velocity flips exactly when the bubble would cross the left or right wall. The new x uses the new velocity. When the bubble is below the floor line (tested on the old position), vy is negated after gravity is added and y uses it; otherwise vy gains gravity and y uses the old vy. |
| Bubbles.Bubble.constructor | Final/bubble.h:23-33 | A new bubble holds exactly the centre, radius, velocities and colour it was given, defaulting to vx 150, vy 0 and blue. |
| Bubbles.Bubble.NextStep | Final/bubble.h:35-61 | Moving the bubble in place leaves it in the state `Step` gives for its old state. |
| Bubbles.Bubble.GetRadius | Final/bubble.h:63-67 | Returns the bubble's radius. |
| Bubbles.Bubble.GetCenterX | Final/bubble.h:69-73 | Returns the x of the centre. |
| Bubbles.Bubble.GetCenterY | Final/bubble.h:75-79 | Returns the y of the centre. |
| Bubbles.Bubble.GetVx | Final/bubble.h:81-85 | Returns the x velocity. |
| Bubbles.Bubble.GetVy | Final/bubble.h:86-90 | Returns the y velocity. |
| Bubbles.Bubble.GetColor | Final/bubble.h:91-95 | Returns the colour. |
| Bubbles.ConstructThenGet | Final/bubble.h:23-95 | The getters of a newly built bubble report exactly what it was built from. |
| Bubbles.ConstructWithDefaults | Final/bubble.h:4-23 | The constructor defaults are speed 150 to the right, vertical speed 0 and colour (0, 0, 255). |
| PlayField.Fates | Experiment/main.cpp:14-24 | One fate (stepped, erased or skipped) per bullet of the pass. |
| PlayField.FatesFollowSteps | Experiment/main.cpp:14-24 | A bullet is erased only if its step reported it dead and is kept as stepped only if the step reported it alive. A bullet is skipped, neither stepped nor tested, exactly when the bullet before it was erased. |
| PlayField.PassFromFates | Experiment/main.cpp:14-24 | The loop of the pass, run from any index, yields the untouched prefix followed by the pass over the rest. |
| PlayField.MoveBullets | Experiment/main.cpp:14-24 | The in-place loop computes exactly the specified pass over the bullets. |
| PlayField.MovedBulletsFront | Experiment/main.cpp:14-24 | A live first bullet is stepped and the pass goes on with the next. A dead one is erased, and the bullet after it is left as it is before the pass goes on. |
| PlayField.MoveBulletsKeepsOrder | Experiment/main.cpp:14-24 | After the pass, the bullets left are, in their original order, those that were not erased. Each is the stepped bullet, or the untouched one for a skipped bullet. There are never more bullets than before. |
| PlayField.KeptFromBounds | Experiment/main.cpp:14-24 | The indices of the bullets left are in range and strictly increasing. |
| PlayField.SurvivorsLength | Experiment/main.cpp:14-24 | As many bullets are left as there are non-erased fates. |
| PlayField.SurvivorsAt | Experiment/main.cpp:14-24 | The k-th bullet left is the image of the k-th non-erased original bullet. |
| PlayField.MoveBubbles | Experiment/main.cpp:26-33 | The loop, stepping each bubble in place through `Bubble.NextStep`, leaves exactly `StepAll` of the bubbles: the same count, each stepped once by STEP_TIME under the current gravity. |
| PlayField.FirstHitFromSpec | Experiment/main.cpp:38-47 | The scan finds the lowest index from j on of a bullet that overlaps the bubble. It finds none exactly when no bullet from j on overlaps it. |
| PlayField.CollideSpec | Experiment/main.cpp:36-50 | Reports a hit exactly when some bullet overlaps the bubble. With no hit the bullets are unchanged; with a hit, exactly the lowest-indexed overlapping bullet is removed. |
| PlayField.CollideConsumes | Experiment/main.cpp:44-48 | A hit removes exactly one bullet and brings in none. |
| PlayField.BubbleBulletCollision | Experiment/main.cpp:36-50 | The loop returns exactly the hit flag and the remaining bullets `Collide` specifies. |
| PlayField.ShooterCollisionFrom | Experiment/main.cpp:53-78 | True exactly when some bubble from index i on touches the head or the body of the shooter. |
| PlayField.ShooterCollision | Experiment/main.cpp:53-78 | True exactly when some bubble touches the head circle or the body rectangle of the shooter. |
| PlayField.HeadTestIsCircleOverlap | Experiment/main.cpp:60-66 | Squaring the absolute differences is the same as testing whether the two circles overlap. |
| PlayField.BodyTestIsSquareOverlap | Experiment/main.cpp:55-75 | The body test holds exactly when the square drawn around the bubble overlaps the body rectangle. |
| PlayField.LevelLayout | Experiment/main.cpp:80-102 | Level 1 has 2 bubbles, levels 2 and 3 have 3, and any other level has none. They all start at height 50 and at rest vertically. Radius is 10, 20 or 40 and the colour is the level's. Level 1 places them at half and a quarter of the width, moving left then right at 150. In levels 2 and 3 the middle bubble moves left and the others right. |
| PlayField.CreateBubbles | Experiment/main.cpp:80-102 | The pushes return exactly the level's table. |
| Sweeps.Children | Experiment/main.cpp:220-225 | A hit bubble whose half-radius is at least the threshold 10 yields two children at its position. They have half its radius, its colour, vertical speed 0, and its x velocity and the opposite one. A smaller bubble yields none. |
| Sweeps.SweepFromFlags | Experiment/main.cpp:216-234 | The sweep records one hit flag per bubble it tests. |
| Sweeps.SweepFromKept | Experiment/main.cpp:216-234 | The bubbles kept are exactly the ones not hit, in their original order. |
| Sweeps.SweepFromSpawned | Experiment/main.cpp:216-234 | The appended bubbles are exactly the children of the hit ones, those of later bubbles first. |
| Sweeps.SweepFromBulletCount | Experiment/main.cpp:216-234 | Each hit uses up one bullet. |
| Sweeps.SweepFromBulletsSubset | Experiment/main.cpp:216-234 | The sweep brings in no bullet that was not there. |
| Sweeps.SweepFromHitsJustified | Experiment/main.cpp:216-234 | Every bubble flagged as hit overlapped a bullet present when the sweep started. |
| Sweeps.SweepFromMissesJustified | Experiment/main.cpp:216-234 | No bullet left after the sweep overlaps a bubble the sweep did not flag as hit. |
| Sweeps.SweepAllShape | Experiment/main.cpp:216-234 | Every bubble present at the start is tested exactly once; children are never tested. The kept bubbles are the unhit ones in order, followed by the children. One hit costs one bullet, every hit is caused by an overlapping bullet, and no bullet left overlaps a bubble that was not hit. |
| Sweeps.UnhitCount | Experiment/main.cpp:216-234 | Kept bubbles plus hits account for every original bubble, and every kept bubble is an original. |
| Sweeps.OffspringFacts | Experiment/main.cpp:220-225 | Two children per split, and every child is at least the threshold radius and comes from a hit bubble. |
| Sweeps.SweepKeepsRadiiPositive | Experiment/main.cpp:216-234 | If every bubble has a positive radius before the sweep, so does every bubble after it. |
| Sweeps.SweepCount | Experiment/main.cpp:216-234 | After the sweep there are the unhit bubbles plus two per split. |
| Sweeps.SweepWithoutHits | Experiment/main.cpp:216-234 | When no bullet touches any bubble, the sweep changes neither bubbles nor bullets. |
| Round.KeyDispatch | Experiment/main.cpp:191-198 | 'a'/'K' moves the shooter left and 'd'/'M' right. 'w'/'H' appends exactly one bullet shot from the shooter. Every other key changes nothing. |
| Round.SweptScoresHits | Experiment/main.cpp:216-234 | The sweep phase raises the score by the number of hits, which is also the number of bullets used up. It changes the bubble count by one less per hit plus two per split, and touches nothing else. |
| Round.HealthStep | Experiment/main.cpp:237-251 | A touch costs a point only when one is not already being counted. The flag afterwards is exactly whether the shooter is touched. |
| Round.HealthCountsTouches | Experiment/main.cpp:237-251 | Over any run of frames, health drops by exactly the number of touches that begin. |
| Round.OneTouchOnePoint | Experiment/main.cpp:237-251 | A touch lasting any number of frames costs a single point. |
| Round.Verdict | Experiment/main.cpp:256-267 | A level is lost exactly when health is 0 or the timer is at or below 0. It is won exactly when neither holds and no bubbles are left. A loss is checked before a win. |
| Round.FrameFacts | Experiment/main.cpp:180-277 | A frame ends in Quit exactly on 'q'. Level and gravity do not change, the score never falls, and health drops by at most one. With no key pending, the shooter stays where it is. Lost, Won and Playing each mean what the loop's tests say, and a frame that goes on takes 0.06 s off the timer. |
| Round.FrameScore | Experiment/main.cpp:216-229 | A frame that does not quit raises the score by exactly the number of bubbles its sweep hits. |
| Round.FrameBullets | Experiment/main.cpp:180-277 | A frame adds at most one bullet, and only when the key is 'w' or 'H'. |
| Round.FrameKeepsRadiiPositive | Experiment/main.cpp:180-277 | A frame never leaves a bubble with a non-positive radius. |
| Round.SweepBubbles | Experiment/main.cpp:216-234 | The reverse loop, pushing children and erasing in place, returns exactly the bubbles and bullets the sweep leaves and the number of hits. |
| Round.SplitBubble | Experiment/main.cpp:220-225 | The two pushed bubbles are exactly the children. |
| Round.Game.constructor | Experiment/main.cpp:122-146 | The game starts at level 1, gravity 2, health 3, score 0, no touch counted and 45 seconds. |
| Round.Game.StartLevel | Experiment/main.cpp:163-177 | A level starts by resetting only the timer, the shooter, the bubbles (to the level's table) and the bullets (to none). |
| Round.Game.HandleKey | Experiment/main.cpp:191-198 | Dispatches the key in place and reports quit exactly for 'q'. |
| Round.Game.ResolveHits | Experiment/main.cpp:216-234 | The sweep phase updates the bubbles, the bullets and the score as the sweep specifies. |
| Round.Game.UpdateHealth | Experiment/main.cpp:237-251 | The two tests leave health and the touch flag as `HealthStep` specifies. |
| Round.Game.MoveAll | Experiment/main.cpp:270-275 | Bubbles and bullets move and the timer loses 0.06 s. |
| Round.Game.Frame | Experiment/main.cpp:180-277 | One iteration of the loop, in place, returns the status and leaves the state the frame specification gives. |
| Round.Game.PlayLevel | Experiment/main.cpp:179-277 | The frame loop, each frame reading the next entry of the key sequence, leaves exactly the status, state and next entry `LevelSpec` gives, so it ends as `LevelEnds` says; from a full timer it reads at most 751 entries. |
| Round.Game.PlayRound | Experiment/main.cpp:153-290 | One pass of the level loop leaves exactly the status, state and next key entry `RoundSpec` gives. |
| Round.Game.Advance | Experiment/main.cpp:279-282 | After a level won, the level and the gravity go up by one and nothing else changes. |
| Round.Game.Run | Experiment/main.cpp:151-298 | The level loop, from any level 1 to 3, leaves exactly the outcome, state and number of key entries read that `GameSpec` gives, so it ends as `GameEnds` says. |
| Round.FramesLeft | Experiment/main.cpp:256-275 | The frames a timer still allows are none exactly when the timer is at or below 0. |
| Round.FramesLeftStep | Experiment/main.cpp:275 | Taking 0.06 s off a positive timer uses up exactly one frame. |
| Round.FullTimerFrames | Experiment/main.cpp:122-127 | The full 45-second timer allows exactly 750 frames of 0.06 s. |
| Round.FrameCountsDown | Experiment/main.cpp:179-277 | A frame keeps the level; a frame that goes on uses up exactly one frame of the timer, and one that ends leaves the timer as it was. |
| Round.FrameQuit | Experiment/main.cpp:197-198 | A frame ends in Quit exactly when its key is 'q'. |
| Round.LevelSpec | Experiment/main.cpp:179-277 | Playing a level never changes its level number. |
| Round.LevelSpecEnds | Experiment/main.cpp:179-277 | A level always ends, never in Playing. It reads one key entry per frame, at most one more than the frames its timer allows. Lost means no health or no time; Won means no bubbles left while there is health and time. |
| Round.LevelSpecQuits | Experiment/main.cpp:197-198 | A level is quit exactly when the last key it reads is 'q', and no key it reads before that one is 'q'. |
| Round.LevelSpecKeeps | Experiment/main.cpp:179-277 | A level keeps the level and the gravity. The score never falls and health never rises, and from a positive health it never goes below 0. |
| Round.LevelSpecFacts | Experiment/main.cpp:179-277 | Every level ends as `LevelEnds` says: the three lemmas above together. |
| Round.NoQuitKeyFront | Experiment/main.cpp:197-198 | An empty range of key entries holds no 'q', and a range holds none when its first entry is not 'q' and the rest holds none. |
| Round.NoQuitKeyJoin | Experiment/main.cpp:197-198 | Two ranges of key entries without 'q', joined by an entry that is not 'q', make one range without 'q'. |
| Round.RoundSpec | Experiment/main.cpp:153-290 | A pass raises the level by one exactly when the level is won. |
| Round.GameSpecUnfold | Experiment/main.cpp:151-298 | The game is one pass followed, after a won level below the last, by the game from the next level. |
| Round.GameSpecFacts | Experiment/main.cpp:151-298 | A game never ends in Playing. A win means level 4 was reached, with gravity raised once per level passed. Otherwise play stopped at a level between the first one played and 3, with gravity raised once per level passed. The game reads at least one key; it is quit exactly when the last key it reads is 'q', and no key it reads before that one is. A loss means no health or no time. Health never rises, the score never falls, and from a positive health it never goes below 0. |
## Left out

- Drawing, colours of the shooter and the timer text, and the text formatting of the timer, score, health and level displays are not modelled; they do not affect the game state.
- Events and waits become parameters. The key pending in a frame is an optional key taken from a sequence, and the waits (`wait`, the level-intro `nextEvent`, the final `nextEvent`) are left out.
- Floating point: positions, velocities and the timer are exact reals, so a timer that does not reach exactly 0 because of rounding is not modelled. The loop's termination bound assumes exact arithmetic.
- `shooter.h` is not part of this model. The shooter's start, moves, shots and the bullet step are the abstract `ShooterKit`, and only the geometry the game reads is kept.
- `WINDOW_X`, defined in neither modelled file, is a parameter of every operation that uses it.
- The integer constants of `bubble.h` are written as reals. Some are combined in `int` arithmetic first (`BUBBLE_DEFAULT_RADIUS * 2` and `* 4`, `-BUBBLE_DEFAULT_VX` in `Experiment/main.cpp:86-98`), but every value they produce is a small exact integer, so writing them as reals changes nothing.
- PlayField.HitsHead, PlayField.HitsBody: assume `abs` on a double (`Experiment/main.cpp`, lines 60-61 and 68) is the floating-point absolute value, not the integer overload.
- Round.SweepBubbles: the cast of `bubbles.size() - 1` for an empty vector is taken as -1, as on the usual platforms, rather than the unsigned wrap-around.
- Round.Game.Run: the program's exit on 'q' is modelled as the `Quit` outcome, and the end-of-game messages are left out.
- The getters of `shooter.h` that the collision tests read (`get_width`, `get_body_width`, `get_body_height`) are taken to return `double`, so their `/ 2` is real division; an integer return type would truncate.
- Round.Game.ResolveHits: the loop runs on local copies of the two vectors (`Round.SweepBubbles`), and the results are stored back into the fields afterwards. Nothing else reads the vectors meanwhile, so the order of updates is the same.
