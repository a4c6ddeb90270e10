/** What the tick, the input handling and the rewind state machine guarantee,
    stated over the functions of module Simulation. */
module GameProperties {
  import opened Entities
  import opened Snapshots
  import opened Simulation

  // ---------------------------------------------------------------------------
  // Invariants

  lemma InitSatisfiesInv()
    ensures Inv(Init()) && !Init().gameOver && Init().running
  {
  }

  lemma UpdateGamePreservesInv(w: World, ground: bool)
    requires Inv(w)
    ensures Inv(UpdateGame(w, ground))
    ensures UpdateGame(w, ground).gameOver == w.gameOver
    ensures UpdateGame(w, ground).running == w.running
    ensures UpdateGame(w, ground).obstacleSpawnRate <= w.obstacleSpawnRate
  {
    if w.rewindActive {
      UpdateRewindPreservesInv(w);
    } else {
      LiveTickPreservesInv(w, ground);
    }
  }

  lemma UpdateRewindPreservesInv(w: World)
    requires Inv(w) && w.rewindActive
    ensures Inv(UpdateRewind(w))
    ensures UpdateRewind(w).(player := w.player, obstacles := w.obstacles, score := w.score,
      rewindActive := w.rewindActive, rewindIndex := w.rewindIndex, history := w.history) == w
  {
    if w.rewindIndex >= 0 {
      assert w.rewindStates[w.rewindIndex] in w.rewindStates;
    }
  }

  lemma LiveTickPreservesInv(w: World, ground: bool)
    requires Inv(w) && !w.rewindActive
    ensures Inv(LiveTick(w, ground))
    ensures LiveTick(w, ground).gameOver == w.gameOver
    ensures LiveTick(w, ground).running == w.running
    ensures LiveTick(w, ground).obstacleSpawnRate <= w.obstacleSpawnRate
  {
    var saved := SaveState(w);
    assert Capture(w).playerY <= StandY;
    assert forall s :: s in saved.history ==> s.playerY <= StandY;
    var moved := MoveEntities(saved);
    assert Inv(moved);
    var spawned := RunSpawner(moved, ground);
    SpawnerChangesOnlyItsFields(moved, ground);
    assert Inv(spawned);
    FinishTickEffects(spawned);
  }

  lemma {:induction false} HandleEventsPreservesInv(w: World, events: seq<Event>)
    requires Inv(w)
    ensures Inv(HandleEvents(w, events))
    ensures HandleEvents(w, events).gameOver ==> w.gameOver
    decreases |events|
  {
    if events != [] {
      HandleEventsPreservesInv(HandleEvent(w, events[0]), events[1..]);
    }
  }

  /** restart_game is guarded by game_over, and nothing ever sets game_over: from the
      initial state, any sequence of frames leaves it false. */
  lemma {:induction false} GameOverNeverSet(w: World, frames: seq<(seq<Event>, bool)>)
    requires Inv(w) && !w.gameOver
    ensures Inv(RunFrames(w, frames)) && !RunFrames(w, frames).gameOver
    decreases |frames|
  {
    if frames != [] {
      var (events, ground) := frames[0];
      HandleEventsPreservesInv(w, events);
      UpdateGamePreservesInv(HandleEvents(w, events), ground);
      GameOverNeverSet(Frame(w, events, ground), frames[1..]);
    }
  }

  /** One pass of the main loop: handle_events, then update_game (drawing and frame
      pacing are not modelled). */
  function Frame(w: World, events: seq<Event>, ground: bool): World
    requires Inv(w)
  {
    HandleEventsPreservesInv(w, events);
    UpdateGame(HandleEvents(w, events), ground)
  }

  /** The main loop over a sequence of frames' inputs, stopping once running is false. */
  function RunFrames(w: World, frames: seq<(seq<Event>, bool)>): World
    requires Inv(w)
    decreases |frames|
  {
    if frames == [] || !w.running then w
    else
      var (events, ground) := frames[0];
      HandleEventsPreservesInv(w, events);
      UpdateGamePreservesInv(HandleEvents(w, events), ground);
      RunFrames(Frame(w, events, ground), frames[1..])
  }

  // ---------------------------------------------------------------------------
  // Input

  /** While rewinding, SPACE is ignored and, with no game over, R does nothing:
      the events can only clear `running`. */
  lemma {:induction false} InputIgnoredWhileRewinding(w: World, events: seq<Event>)
    requires w.rewindActive && !w.gameOver
    ensures HandleEvents(w, events) == w.(running := w.running && Quit !in events)
    decreases |events|
  {
    if events != [] {
      InputIgnoredWhileRewinding(HandleEvent(w, events[0]), events[1..]);
      assert Quit in events <==> events[0] == Quit || Quit in events[1..];
    }
  }

  /** SPACE while rewinding changes nothing, whatever game_over is. */
  lemma SpaceIgnoredWhileRewinding(w: World)
    requires w.rewindActive
    ensures HandleEvent(w, KeyDown(Space)) == w
  {
  }

  /** Jumping twice in one frame is the same as jumping once. */
  lemma JumpIdempotent(p: PlayerState)
    ensures PlayerJump(PlayerJump(p)) == PlayerJump(p)
  {
  }

  /** In live play, with no game over, the frame's events jump the player (once,
      whatever the number of SPACE presses, and only from the ground) and clear
      `running` on QUIT; nothing else changes. */
  lemma {:induction false} InputWhileLive(w: World, events: seq<Event>)
    requires !w.rewindActive && !w.gameOver
    ensures HandleEvents(w, events) ==
      w.(running := w.running && Quit !in events,
         player := if KeyDown(Space) in events then PlayerJump(w.player) else w.player)
    decreases |events|
  {
    if events != [] {
      var w1 := HandleEvent(w, events[0]);
      InputWhileLive(w1, events[1..]);
      assert Quit in events <==> events[0] == Quit || Quit in events[1..];
      assert KeyDown(Space) in events <==> events[0] == KeyDown(Space) || KeyDown(Space) in events[1..];
      JumpIdempotent(w.player);
    }
  }

  /** A frame that starts while rewinding does not look at SPACE at all. */
  lemma FrameIgnoresJumpWhileRewinding(w: World, events: seq<Event>, ground: bool)
    requires Inv(w) && w.rewindActive && !w.gameOver
    ensures Frame(w, events, ground) == UpdateGame(w, ground).(running := w.running && Quit !in events)
  {
    InputIgnoredWhileRewinding(w, events);
  }

  // ---------------------------------------------------------------------------
  // The live tick

  /** A live tick: one snapshot of the state before the tick is appended to the
      history, the player falls, the obstacles move and are pruned, the spawner runs,
      the score goes up by one, and a rewind starts exactly when the new state has a
      collision. running, game_over and (without collision) the rewind fields are kept. */
  lemma LiveTickEffects(w: World, ground: bool)
    requires Inv(w) && !w.rewindActive
    ensures var r := UpdateGame(w, ground);
      var spawn := w.obstacleTimer + 1 >= w.obstacleSpawnRate;
      && r.history == DequeAppend(w.history, Capture(w), HistoryCapacity)
      && |r.history| > 0 && r.history[|r.history| - 1] == Capture(w)
      && r.player == PlayerUpdate(w.player)
      && r.obstacles == MoveObstacles(w.obstacles) + (if spawn then [NewObstacle(ground)] else [])
      && r.score == w.score + 1
      && r.running == w.running && r.gameOver == w.gameOver
      && (r.rewindActive <==> Collides(r.player, r.obstacles))
      && (r.rewindActive ==> r.rewindStates == r.history && r.rewindIndex == |r.history| - 1)
      && (!r.rewindActive ==> r.rewindStates == w.rewindStates && r.rewindIndex == w.rewindIndex)
  {
    var saved := SaveState(w);
    assert |saved.history| > 0 && saved.history[|saved.history| - 1] == Capture(w);
    var moved := MoveEntities(saved);
    var spawned := RunSpawner(moved, ground);
    SpawnerChangesOnlyItsFields(moved, ground);
    FinishTickEffects(spawned);
    assert UpdateGame(w, ground) == FinishTick(spawned);
  }

  /** The spawner touches only the obstacle list, the timer and the interval, and at
      most appends one new obstacle. */
  lemma SpawnerChangesOnlyItsFields(w: World, ground: bool)
    ensures var r := RunSpawner(w, ground);
      && r.obstacles == w.obstacles + (if w.obstacleTimer + 1 >= w.obstacleSpawnRate then [NewObstacle(ground)] else [])
      && r.(obstacles := w.obstacles, obstacleTimer := w.obstacleTimer, obstacleSpawnRate := w.obstacleSpawnRate) == w
  {
    if w.obstacleTimer + 1 < w.obstacleSpawnRate {
      assert w.obstacles + [] == w.obstacles;
    }
  }

  /** The end of a live tick scores it and starts a rewind exactly on a collision with
      a non-empty history. */
  lemma FinishTickEffects(w: World)
    requires !w.rewindActive
    ensures var r := FinishTick(w);
      && r.(rewindActive := false, rewindStates := w.rewindStates, rewindIndex := w.rewindIndex) == w.(score := w.score + 1)
      && (r.rewindActive <==> |w.history| > 0 && Collides(w.player, w.obstacles))
      && (r.rewindActive ==> r.rewindStates == w.history && r.rewindIndex == |w.history| - 1)
      && (!r.rewindActive ==> r.rewindStates == w.rewindStates && r.rewindIndex == w.rewindIndex)
  {
  }

  /** The spawner and the difficulty ramp: the timer counts live ticks; when it reaches
      the interval it resets and the interval shrinks by exactly one, never below 60. */
  lemma SpawnerTick(w: World, ground: bool)
    requires Inv(w) && !w.rewindActive
    ensures var r := UpdateGame(w, ground);
      if w.obstacleTimer + 1 >= w.obstacleSpawnRate then
        && r.obstacleTimer == 0
        && r.obstacleSpawnRate == (if w.obstacleSpawnRate > MinSpawnRate then w.obstacleSpawnRate - 1 else MinSpawnRate)
        && |r.obstacles| == |MoveObstacles(w.obstacles)| + 1
        && r.obstacles[|r.obstacles| - 1] == NewObstacle(ground)
      else
        && r.obstacleTimer == w.obstacleTimer + 1
        && r.obstacleSpawnRate == w.obstacleSpawnRate
        && r.obstacles == MoveObstacles(w.obstacles)
  {
  }

  // ---------------------------------------------------------------------------
  // Rewind playback

  /** A rewinding tick with the cursor at or after the start: the player's x, y and
      velocity, the obstacle list and the score are taken from the snapshot under the
      cursor, the cursor moves back by exactly 2, and nothing else changes (no snapshot
      is saved, the spawner and the obstacles do not move). */
  lemma RewindTick(w: World, ground: bool)
    requires w.rewindActive && 0 <= w.rewindIndex < |w.rewindStates|
    ensures var s := w.rewindStates[w.rewindIndex]; var r := UpdateGame(w, ground);
      && r.player == w.player.(x := s.playerX, y := s.playerY, velY := s.playerVelY)
      && r.obstacles == s.obstacles
      && r.score == s.score
      && r.rewindIndex == w.rewindIndex - 2
      && r.(player := w.player, obstacles := w.obstacles, score := w.score, rewindIndex := w.rewindIndex) == w
  {
  }

  /** The rewinding tick after the cursor has run past the start ends the rewind and
      empties the history; nothing else changes. */
  lemma RewindFinish(w: World, ground: bool)
    requires w.rewindActive && w.rewindIndex < 0
    ensures UpdateGame(w, ground) == w.(rewindActive := false, history := [])
  {
  }

  /** `k` consecutive ticks. */
  ghost function Ticks(w: World, ground: bool, k: nat): (r: World)
    requires CursorInRange(w)
    ensures CursorInRange(r)
  {
    if k == 0 then w else UpdateGame(Ticks(w, ground, k - 1), ground)
  }

  /** After k of the first ceil((c + 1) / 2) rewinding ticks from cursor c, the cursor
      is at c - 2k and the live state is the one restored from index c - 2(k - 1). */
  lemma {:induction false} RewindPlayback(w: World, ground: bool, k: nat)
    requires w.rewindActive && 0 <= w.rewindIndex < |w.rewindStates|
    requires k <= (w.rewindIndex + 2) / 2
    ensures Ticks(w, ground, k).rewindActive
    ensures Ticks(w, ground, k).rewindIndex == w.rewindIndex - 2 * k
    ensures k > 0 ==>
      Ticks(w, ground, k) == Restore(w, w.rewindStates[w.rewindIndex - 2 * (k - 1)]).(rewindIndex := w.rewindIndex - 2 * k)
  {
    if k > 0 {
      RewindPlayback(w, ground, k - 1);
    }
  }

  /** A rewind session over n >= 1 snapshots, as start_rewind begins it: the first
      ceil(n/2) ticks each start with the cursor at n-1, n-3, ... (never below 0) and
      apply the snapshot there, so tick k applies index n+1-2k; after them the cursor
      is below 0, and the next tick ends the rewind with an empty history. */
  lemma RewindSession(w: World, ground: bool)
    requires w.rewindActive && |w.rewindStates| >= 1 && w.rewindIndex == |w.rewindStates| - 1
    ensures var n := |w.rewindStates|; var m := (n + 1) / 2;
      && (forall k :: 0 <= k < m ==>
            Ticks(w, ground, k).rewindActive && Ticks(w, ground, k).rewindIndex == n - 1 - 2 * k >= 0)
      && (forall k :: 1 <= k <= m ==>
            Ticks(w, ground, k) == Restore(w, w.rewindStates[n + 1 - 2 * k]).(rewindIndex := n - 1 - 2 * k))
      && Ticks(w, ground, m).rewindActive && Ticks(w, ground, m).rewindIndex < 0
      && Ticks(w, ground, m + 1) == Ticks(w, ground, m).(rewindActive := false, history := [])
  {
    SessionCursor(w, ground);
    SessionRestores(w, ground);
    var m := (|w.rewindStates| + 1) / 2;
    RewindPlayback(w, ground, m);
    RewindFinish(Ticks(w, ground, m), ground);
  }

  lemma SessionCursor(w: World, ground: bool)
    requires w.rewindActive && |w.rewindStates| >= 1 && w.rewindIndex == |w.rewindStates| - 1
    ensures var n := |w.rewindStates|;
      forall k :: 0 <= k < (n + 1) / 2 ==>
        Ticks(w, ground, k).rewindActive && Ticks(w, ground, k).rewindIndex == n - 1 - 2 * k >= 0
  {
    var n := |w.rewindStates|;
    forall k | 0 <= k < (n + 1) / 2
      ensures Ticks(w, ground, k).rewindActive && Ticks(w, ground, k).rewindIndex == n - 1 - 2 * k
    {
      RewindPlayback(w, ground, k);
    }
  }

  lemma SessionRestores(w: World, ground: bool)
    requires w.rewindActive && |w.rewindStates| >= 1 && w.rewindIndex == |w.rewindStates| - 1
    ensures var n := |w.rewindStates|;
      forall k :: 1 <= k <= (n + 1) / 2 ==>
        Ticks(w, ground, k) == Restore(w, w.rewindStates[n + 1 - 2 * k]).(rewindIndex := n - 1 - 2 * k)
  {
    var n := |w.rewindStates|;
    forall k | 1 <= k <= (n + 1) / 2
      ensures Ticks(w, ground, k) == Restore(w, w.rewindStates[n + 1 - 2 * k]).(rewindIndex := n - 1 - 2 * k)
    {
      RewindPlayback(w, ground, k);
    }
  }

  /** A collision in a live tick always starts a session that the rewind lemmas cover:
      the saved history is never empty, and the cursor starts at its last index. */
  lemma CollisionStartsSession(w: World, ground: bool)
    requires Inv(w) && !w.rewindActive
    requires UpdateGame(w, ground).rewindActive
    ensures var r := UpdateGame(w, ground);
      |r.rewindStates| >= 1 && r.rewindIndex == |r.rewindStates| - 1 && r.rewindStates == r.history
  {
    LiveTickEffects(w, ground);
  }

  // ---------------------------------------------------------------------------
  // Obstacle travel

  /** `k` runs of the obstacle loop alone. */
  function MoveN(obs: seq<ObstacleData>, k: nat): seq<ObstacleData>
  {
    if k == 0 then obs else MoveObstacles(MoveN(obs, k - 1))
  }

  /** A lone obstacle is still there after k moves as long as x - k * speed >= -width. */
  lemma {:induction false} ObstacleTravel(o: ObstacleData, k: nat)
    requires o.x - k * PlayerSpeed >= -o.width
    ensures MoveN([o], k) == [o.(x := o.x - k * PlayerSpeed)]
  {
    if k > 0 {
      ObstacleTravel(o, k - 1);
      MoveObstaclesSingle(o.(x := o.x - (k - 1) * PlayerSpeed));
    }
  }

  /** A freshly spawned obstacle crosses the screen in (SCREEN_WIDTH + width) / 5 moves
      (206 for a ground obstacle, 208 for a floating one), then is removed on the next. */
  lemma SpawnedObstacleLifetime(ground: bool)
    ensures var o := NewObstacle(ground);
      var life := (ScreenWidth + o.width) / PlayerSpeed;
      && life == (if ground then 206 else 208)
      && MoveN([o], life) == [o.(x := -o.width)]
      && MoveN([o], life + 1) == []
  {
    var o := NewObstacle(ground);
    var life := (ScreenWidth + o.width) / PlayerSpeed;
    ObstacleTravel(o, life);
    MoveObstaclesSingle(o.(x := -o.width));
  }
}
