# Time Loop Runner: a verified model of the game core

Time Loop Runner is a side-scrolling runner. The player is a ball that can jump.
Obstacles slide in from the right. A collision does not end the game. Instead it
rewinds time: the last three seconds of play (180 snapshots at 60 frames a second)
are played back in reverse, every second snapshot, one per tick. Then the history
is cleared and live play resumes.

This project models the simulation core of `TimeLoopRunner` without pygame:

- the bounded snapshot history and the by-value snapshots;
- the rewind state machine (`start_rewind`, `update_rewind`);
- the live tick (`update_game`), with the obstacle loop that removes off-screen
  obstacles in place;
- the spawner and its difficulty ramp;
- player and obstacle kinematics, and the rectangle test behind `check_collisions`;
- the input handling of `handle_events`, and `restart_game`.

Layout, one module per concern:

- `geometry.dfy` (`Geometry`): integer rectangles and `colliderect`.
- `entities.dfy` (`Entities`): constants, the `Player` and `Obstacle` classes, their
  update rules as functions, and the jump arc.
- `snapshots.dfy` (`Snapshots`): `GameState` and the bounded deque.
- `simulation.dfy` (`Simulation`): the whole game state as a value (`World`), and
  every operation as a function on it.
- `properties.dfy` (`GameProperties`): the invariants and behavioural lemmas about
  those functions.
- `runner.dfy` (`Runner`): the class `TimeLoopRunner`. Its fields and methods mirror
  the source's. Each state-changing method is proved to change the state exactly as
  the matching `Simulation` function says (`ensures Model() == Simulation.F(old(Model()))`).
  `CheckCollisions` changes nothing and returns `Collides` of the state.
  `UpdateObstacles` and its loop step `ObstacleLoopStep` are stated on the obstacle
  records: the loop leaves `MoveObstacles` of the old records.

Units: every position, speed and size is an integer in tenths of a pixel. So
GRAVITY 0.8 is 8, JUMP_STRENGTH -15 is -150 and the obstacle speed 5 is 50. A
collision rectangle is built in whole pixels, truncating toward zero as
`pygame.Rect` does with float coordinates.

Behaviour worth knowing, all as in the code:

- `save_state` runs before the collision check, so a live tick that ends in a
  collision always finds the history non-empty, and every collision starts a
  rewind. The guard in `start_rewind` against an empty history never fires there.
- A rewind restores x, y, vertical velocity, the obstacles and the score. It does
  not restore `on_ground`.
- `game_over` is never set to true. So `restart_game`, reachable only through it,
  is dead code. It also leaves `rewind_states` and `rewind_index` as they are.

## Model

| member | source | states |
|---|---|---|
| Geometry.Trunc | time_loop_runner.py:58-60 | the pixel coordinate is the tenths value truncated toward zero: within one pixel of it, on the same side of zero |
| Geometry.ColliderectIffSharedPixel | time_loop_runner.py:177-184 | two rectangles collide exactly when some pixel lies in both, i.e. their intersection has positive area |
| Geometry.Colliderect | time_loop_runner.py:182 | pygame 2's `Rect.colliderect`; no ensures of its own, its meaning is carried by the ColliderectIffSharedPixel, ColliderectSymmetric and EdgeContactIsNoCollision rows |
| Geometry.ColliderectSymmetric | time_loop_runner.py:182 | the test gives the same answer whichever rectangle asks |
| Geometry.EdgeContactIsNoCollision | time_loop_runner.py:182 | rectangles that only share an edge, on either axis, do not collide |
| Entities.PlayerUpdate | time_loop_runner.py:39-51 | x is kept; y never goes below ground_y - 40; on_ground holds exactly when the fall reaches the ground line, and then y is clamped to it with zero velocity; otherwise velocity grows by gravity and y moves by the new velocity |
| Entities.PlayerJump | time_loop_runner.py:53-56 | from the ground the velocity becomes -15 px and nothing else changes; in the air the jump does nothing |
| Entities.ObstacleUpdate | time_loop_runner.py:76-78 | the obstacle moves 5 px left and its y, width and height stay |
| Entities.PlayerRect | time_loop_runner.py:58-60 | the player's collision rectangle is 40 by 40 px at its top-left position: a whole-pixel x carries over exactly and a non-negative y is truncated to the pixel containing it |
| Entities.ObstacleRect | time_loop_runner.py:80-82 | an obstacle's collision rectangle keeps every coordinate and size that is a whole number of pixels exactly |
| Entities.JumpArcAirborne | time_loop_runner.py:39-56 | for ticks 1 to 36 after a jump from the ground the player is airborne and follows the closed-form parabola StandY + ArcRise(n) |
| Entities.JumpArcLands | time_loop_runner.py:39-56 | a jump from the ground lands after exactly 37 ticks, back on the ground line with zero velocity; tick 18 is higher than ticks 17 and 19 |
| Entities.JumpArcApex | time_loop_runner.py:39-56 | over a jump from the ground the player rises strictly on every tick up to tick 18 and falls strictly on every tick after it until the landing, so tick 18 is the highest point of the whole arc |
| Entities.Player.constructor | time_loop_runner.py:31-37 | a new player is at (x, y), at rest and not on the ground |
| Entities.Player.Update | time_loop_runner.py:39-51 | the in-place update changes the player exactly as PlayerUpdate |
| Entities.Player.Jump | time_loop_runner.py:53-56 | the in-place jump changes the player exactly as PlayerJump |
| Entities.Player.GetRect | time_loop_runner.py:58-60 | no ensures of its own: it is PlayerRect of the player's current state, whose row carries the properties |
| Entities.Obstacle.constructor | time_loop_runner.py:69-74 | a new obstacle has the given position and size |
| Entities.Obstacle.Update | time_loop_runner.py:76-78 | the obstacle moves left by the speed; only x changes |
| Entities.Obstacle.GetRect | time_loop_runner.py:80-82 | no ensures of its own: it is ObstacleRect of the obstacle's current record, whose row carries the properties |
| Entities.ObstacleRecords | time_loop_runner.py:95 | the snapshot's obstacle list has one value record per live obstacle, in order, with that obstacle's x, y, width and height |
| Snapshots.DequeAppend | time_loop_runner.py:116 | the history never exceeds maxlen; below capacity the item is appended; at capacity exactly the oldest item is dropped and the rest keep their order; no other item appears |
| Simulation.Init | time_loop_runner.py:101-123 | no ensures of its own; the InitSatisfiesInv and TimeLoopRunner.constructor rows carry its properties |
| Simulation.Capture | time_loop_runner.py:128-133 | no ensures of its own: the GameState save_state builds; LiveTickEffects states it is the last history entry after a live tick |
| Simulation.SaveState | time_loop_runner.py:128-134 | no ensures of its own; DequeAppend and LiveTickEffects carry its properties |
| Simulation.StartRewind | time_loop_runner.py:136-141 | with an empty history nothing changes; otherwise the rewind is active, rewind_states is the history oldest first and the cursor is its last index; no other field changes |
| Simulation.Restore | time_loop_runner.py:148-159 | no ensures of its own; RewindTick states what a rewinding tick restores and keeps |
| Simulation.UpdateRewind | time_loop_runner.py:143-164 | no ensures of its own; RewindTick, RewindFinish, UpdateRewindPreservesInv, RewindPlayback and RewindSession carry its properties |
| Simulation.NewObstacle | time_loop_runner.py:166-175 | a new obstacle starts at the right edge; a ground one is 30 by 60 and stands on the ground line; a floating one is 40 by 30 with its bottom 120 px above the ground line, above a standing player |
| Simulation.SpawnObstacle | time_loop_runner.py:166-175 | no ensures of its own; SpawnerTick, SpawnerChangesOnlyItsFields and TimeLoopRunner.SpawnObstacle carry its properties |
| Simulation.RunSpawner | time_loop_runner.py:205-212 | no ensures of its own; SpawnerTick and SpawnerChangesOnlyItsFields carry its properties |
| Simulation.MoveOne | time_loop_runner.py:200-203 | no ensures of its own: one obstacle's step of the loop; MoveObstaclesSurvivors carries the loop's properties |
| Simulation.MoveObstacles | time_loop_runner.py:199-203 | no ensures of its own; MoveObstaclesSurvivors, MoveObstaclesAppend, ObstacleTravel and TimeLoopRunner.UpdateObstacles carry its properties |
| Simulation.MoveObstaclesSurvivors | time_loop_runner.py:199-203 | after the obstacle loop no obstacle is added, every survivor is on screen and is an input moved left by 5, and every input whose moved position is on screen survives |
| Simulation.MoveObstaclesAppend | time_loop_runner.py:199-203 | the obstacle loop keeps the survivors in their original order: it distributes over concatenation |
| Simulation.CollidesOrderIndependent | time_loop_runner.py:177-184 | the collision result depends only on which obstacles there are, not on their order |
| Simulation.Collides | time_loop_runner.py:177-184 | no ensures of its own; CollidesOrderIndependent and TimeLoopRunner.CheckCollisions carry its properties |
| Simulation.StandingPlayerPassesUnderFloating | time_loop_runner.py:170-173 | a player standing on the ground never touches an obstacle with the floating y and height, wherever it has moved to and whatever its width |
| Simulation.MoveEntities | time_loop_runner.py:195-203 | no ensures of its own; LiveTickEffects states the moved player and obstacles |
| Simulation.FinishTick | time_loop_runner.py:214-219 | no ensures of its own; FinishTickEffects carries its properties |
| Simulation.LiveTick | time_loop_runner.py:192-219 | no ensures of its own; LiveTickEffects, LiveTickPreservesInv and SpawnerTick carry its properties |
| Simulation.UpdateGame | time_loop_runner.py:186-219 | a tick keeps the rewind cursor below the length of rewind_states while a rewind is active (the cursor may sit at -1 or -2 until the finishing tick; UpdateGamePreservesInv gives the lower bound -2) |
| Simulation.RestartGame | time_loop_runner.py:233-242 | no ensures of its own; RestartIsInit carries its meaning |
| Simulation.RestartIsInit | time_loop_runner.py:233-242 | the reset equals the state __init__ builds, except that running, rewind_states and rewind_index keep their values |
| Simulation.HandleEvent | time_loop_runner.py:224-231 | no ensures of its own: one event of the loop; InputWhileLive and InputIgnoredWhileRewinding carry its properties |
| Simulation.HandleEvents | time_loop_runner.py:221-231 | no ensures of its own; InputWhileLive, InputIgnoredWhileRewinding and HandleEventsPreservesInv carry its properties |
| GameProperties.InitSatisfiesInv | time_loop_runner.py:101-123 | the initial state satisfies the invariant, is running and is not game over |
| GameProperties.UpdateGamePreservesInv | time_loop_runner.py:186-219 | a tick keeps the invariant (history at most 180, 60 <= spawn rate <= 120, timer below the rate, cursor in range, the player never below the ground line in the state or any snapshot), keeps running and game_over, and never raises the spawn rate |
| GameProperties.UpdateRewindPreservesInv | time_loop_runner.py:143-164 | a rewinding tick keeps the invariant and changes only the player, obstacles, score, rewind flag, cursor and history |
| GameProperties.LiveTickPreservesInv | time_loop_runner.py:192-219 | a live tick keeps the invariant, running and game_over, and never raises the spawn rate |
| GameProperties.HandleEventsPreservesInv | time_loop_runner.py:221-231 | event handling keeps the invariant and never sets game_over |
| GameProperties.GameOverNeverSet | time_loop_runner.py:113 | over any sequence of frames from a state without game over, game_over stays false, so the restart branch is never taken |
| GameProperties.Frame | time_loop_runner.py:279-281 | no ensures of its own: one pass of the main loop, events then tick; FrameIgnoresJumpWhileRewinding carries its properties |
| GameProperties.RunFrames | time_loop_runner.py:277-283 | no ensures of its own: the main loop over a sequence of frames; GameOverNeverSet carries its properties |
| GameProperties.InputIgnoredWhileRewinding | time_loop_runner.py:227-229 | while rewinding, with no game over, a frame's events can only clear running, which they do exactly when they contain QUIT; SPACE is ignored |
| GameProperties.SpaceIgnoredWhileRewinding | time_loop_runner.py:227-229 | a SPACE press while rewinding changes nothing, whatever game_over is |
| GameProperties.InputWhileLive | time_loop_runner.py:221-231 | in live play, with no game over, a frame's events jump the player exactly when they contain SPACE, once however many presses, and clear running exactly on QUIT; nothing else changes |
| GameProperties.JumpIdempotent | time_loop_runner.py:53-56 | jumping twice is the same as jumping once |
| GameProperties.FrameIgnoresJumpWhileRewinding | time_loop_runner.py:277-281 | a main-loop frame that starts while rewinding is the rewinding tick, with only running possibly cleared |
| GameProperties.LiveTickEffects | time_loop_runner.py:192-219 | a live tick appends one snapshot of the pre-tick state, moves the player, moves and prunes the obstacles then adds any spawned one, adds 1 to the score, keeps running and game_over, and starts a rewind exactly on a collision in the new state |
| GameProperties.SpawnerChangesOnlyItsFields | time_loop_runner.py:205-212 | the spawner touches only the obstacle list, the timer and the interval, and at most appends NewObstacle at the interval |
| GameProperties.FinishTickEffects | time_loop_runner.py:214-219 | the end of a live tick adds 1 to the score and starts a rewind exactly on a collision with a non-empty history, with the rewind fields in each case |
| GameProperties.SpawnerTick | time_loop_runner.py:205-212 | each live tick counts; at the interval exactly one obstacle is appended, the timer resets to 0 and the rate drops by exactly 1 unless at 60; otherwise timer + 1 and nothing is spawned |
| GameProperties.RewindTick | time_loop_runner.py:143-160 | a rewinding tick at cursor >= 0 restores x, y, velocity, obstacles and score from the snapshot under the cursor, moves the cursor back by exactly 2, and changes nothing else |
| GameProperties.RewindFinish | time_loop_runner.py:161-164 | the tick after the cursor drops below 0 ends the rewind and empties the history, nothing else |
| GameProperties.RewindPlayback | time_loop_runner.py:143-160 | k rewinding ticks from cursor c leave the cursor at c - 2k and the state restored from index c - 2(k - 1) |
| GameProperties.RewindSession | time_loop_runner.py:136-164 | a session over n >= 1 snapshots applies exactly ceil(n/2) of them, at n-1, n-3, ..., then the next tick ends the rewind with an empty history |
| GameProperties.CollisionStartsSession | time_loop_runner.py:192-219 | a rewind started by a live tick has a non-empty snapshot list equal to the history and the cursor at its last index |
| GameProperties.ObstacleTravel | time_loop_runner.py:76-78 | a lone obstacle survives k obstacle loops while x - 5k >= -width, having moved exactly 5k left |
| GameProperties.SpawnedObstacleLifetime | time_loop_runner.py:166-175 | a spawned obstacle survives 206 (ground) or 208 (floating) obstacle loops and is removed on the next |
| Runner.RemoveFirstRemovesOne | time_loop_runner.py:203 | list.remove takes out exactly one occurrence of the element and nothing else |
| Runner.RemoveFirst | time_loop_runner.py:203 | no ensures of its own: list.remove; RemoveFirstRemovesOne and RemoveFirstAt carry its properties |
| Runner.RemoveFirstAt | time_loop_runner.py:203 | removing an element whose first occurrence follows front leaves front and back joined |
| Runner.TimeLoopRunner.constructor | time_loop_runner.py:101-123 | the new game is the initial state and satisfies the invariant |
| Runner.TimeLoopRunner.SaveState | time_loop_runner.py:128-134 | the history gains a by-value snapshot of the live state, as DequeAppend |
| Runner.TimeLoopRunner.StartRewind | time_loop_runner.py:136-141 | the state changes exactly as Simulation.StartRewind |
| Runner.TimeLoopRunner.UpdateRewind | time_loop_runner.py:143-164 | the state changes exactly as Simulation.UpdateRewind; the player object is kept, and on a restoring tick the obstacle list holds only freshly allocated objects, none twice |
| Runner.TimeLoopRunner.SpawnObstacle | time_loop_runner.py:166-175 | exactly one freshly allocated obstacle object, shaped as NewObstacle, is appended after the unchanged existing objects |
| Runner.TimeLoopRunner.CheckCollisions | time_loop_runner.py:177-184 | the search returns true exactly when some live obstacle's rectangle collides with the player's |
| Runner.TimeLoopRunner.UpdateObstacles | time_loop_runner.py:199-203 | walking a copy of the list, moving each obstacle and removing off-screen ones from the live list leaves exactly MoveObstacles of the old records, with no object twice |
| Runner.TimeLoopRunner.ObstacleLoopStep | time_loop_runner.py:200-203 | one pass of the loop keeps its invariant: the copy's first i + 1 objects have moved, the rest are untouched, and the live list is the survivors so far followed by the rest |
| Runner.TimeLoopRunner.MoveEntities | time_loop_runner.py:196-203 | the player and the obstacle loop change the state exactly as Simulation.MoveEntities |
| Runner.TimeLoopRunner.FinishTick | time_loop_runner.py:214-219 | scoring and the collision check change the state exactly as Simulation.FinishTick |
| Runner.TimeLoopRunner.LiveTick | time_loop_runner.py:192-219 | a live tick changes the state exactly as Simulation.LiveTick and keeps the player object |
| Runner.TimeLoopRunner.RunSpawner | time_loop_runner.py:205-212 | the state changes exactly as Simulation.RunSpawner |
| Runner.TimeLoopRunner.UpdateGame | time_loop_runner.py:186-219 | a tick changes the state exactly as Simulation.UpdateGame and keeps the invariant |
| Runner.TimeLoopRunner.RestartGame | time_loop_runner.py:233-242 | the reset changes the state exactly as Simulation.RestartGame, with a new player |
| Runner.TimeLoopRunner.HandleEvents | time_loop_runner.py:221-231 | the events change the state exactly as Simulation.HandleEvents and keep the invariant |

## Left out

- Rendering: `Player.draw`, `Obstacle.draw` and `draw_game` only draw.
- Event polling: `pygame.event.get()` becomes the sequence of events passed to
  `HandleEvents`. Window, clock and font set-up are environment plumbing.
- Frame pacing: `clock.tick`, `pygame.quit` and the exception handling in `main`
  are wall-clock and I/O. The main loop itself is `GameProperties.RunFrames`.
- Floats: positions and velocities are scaled integers, not IEEE doubles. With
  gravity 0.8 every value the source reaches is a multiple of 0.1. The model does
  not capture float rounding.
- Randomness: the outcome of `random.random() < 0.7` is the caller's `ground`
  argument. The 70/30 distribution is not modelled.
- `pygame.Rect` and `colliderect` are foreign code. They are restated as integer
  arithmetic with pygame 2's rules: truncated coordinates, zero-size rectangles
  never collide, and edges compare strictly.
- Aliasing of the obstacle list: the list is a sequence field that the methods
  reassign. Its in-place `clear`, `append` and `remove` act on the one list the
  game owns, which nothing else aliases.
- The packaging script `setup.py` is not part of this model.
