/** The game's tick as a function on a value: the live simulation, the spawner,
    the collision check and the rewind state machine. The class in module Runner
    is proved to do exactly what these functions say. */
module Simulation {
  import opened Geometry
  import opened Entities
  import opened Snapshots

  const InitialSpawnRate: int := 120
  /** The spawn interval stops shrinking at this many ticks. */
  const MinSpawnRate: int := 60

  /** Everything TimeLoopRunner keeps between ticks, less the screen, clock and font. */
  datatype World = World(
    player: PlayerState,
    obstacles: seq<ObstacleData>,
    score: int,
    running: bool,
    gameOver: bool,
    history: seq<GameState>,
    rewindActive: bool,
    rewindStates: seq<GameState>,
    rewindIndex: int,
    obstacleTimer: int,
    obstacleSpawnRate: int)

  datatype Key = Space | KeyR | OtherKey
  /** The pygame events the game reacts to; everything else is OtherEvent. */
  datatype Event = Quit | KeyDown(key: Key) | OtherEvent

  /** Player(100, SCREEN_HEIGHT - 140). */
  const InitialPlayer: PlayerState := PlayerState(100 * Scale, ScreenHeight - 140 * Scale, 0, false)

  /** TimeLoopRunner.__init__, game state only. */
  function Init(): World
  {
    World(InitialPlayer, [], 0, true, false, [], false, [], 0, 0, InitialSpawnRate)
  }

  /** What a rewinding tick needs in order to index rewind_states: while a rewind is
      active the cursor is below the length of rewind_states. */
  predicate CursorInRange(w: World)
  {
    w.rewindActive ==> w.rewindIndex < |w.rewindStates|
  }

  /** The facts every reachable state satisfies. */
  ghost predicate Inv(w: World)
  {
    |w.history| <= HistoryCapacity &&
    MinSpawnRate <= w.obstacleSpawnRate <= InitialSpawnRate &&
    0 <= w.obstacleTimer < w.obstacleSpawnRate &&
    (w.rewindActive ==> -2 <= w.rewindIndex < |w.rewindStates|) &&
    w.player.y <= StandY &&
    (forall s :: s in w.history ==> s.playerY <= StandY) &&
    (forall s :: s in w.rewindStates ==> s.playerY <= StandY)
  }

  // ---------------------------------------------------------------------------
  // Snapshot history and rewind

  /** The GameState that save_state builds from the live state. */
  function Capture(w: World): GameState
  {
    GameState(w.player.x, w.player.y, w.player.velY, w.obstacles, w.score)
  }

  /** save_state. */
  function SaveState(w: World): World
  {
    w.(history := DequeAppend(w.history, Capture(w), HistoryCapacity))
  }

  /** start_rewind: with an empty history nothing happens; otherwise playback starts
      at the most recent snapshot of a copy of the history. */
  function StartRewind(w: World): (r: World)
    ensures |w.history| == 0 ==> r == w
    ensures |w.history| > 0 ==> r.rewindActive && r.rewindStates == w.history && r.rewindIndex == |w.history| - 1
    ensures r.(rewindActive := w.rewindActive, rewindStates := w.rewindStates, rewindIndex := w.rewindIndex) == w
  {
    if |w.history| > 0 then
      w.(rewindActive := true, rewindStates := w.history, rewindIndex := |w.history| - 1)
    else w
  }

  /** The live state overwritten from snapshot `s`: player x, y and velocity, the
      obstacle list and the score. on_ground is not part of a snapshot and stays. */
  function Restore(w: World, s: GameState): World
  {
    w.(player := w.player.(x := s.playerX, y := s.playerY, velY := s.playerVelY),
       obstacles := s.obstacles,
       score := s.score)
  }

  /** update_rewind: apply the snapshot under the cursor and step back two, or, once
      the cursor has run past the start, leave rewind and empty the history. */
  function UpdateRewind(w: World): World
    requires w.rewindIndex < |w.rewindStates|
  {
    if w.rewindIndex >= 0 then
      Restore(w, w.rewindStates[w.rewindIndex]).(rewindIndex := w.rewindIndex - 2)
    else
      w.(rewindActive := false, history := [])
  }

  // ---------------------------------------------------------------------------
  // Obstacles, spawner and collisions

  predicate OnScreen(o: ObstacleData)
  {
    !(o.x < -o.width)
  }

  /** One obstacle's part of the update loop: it moves, and is dropped if now off screen. */
  function MoveOne(o: ObstacleData): seq<ObstacleData>
  {
    var m := ObstacleUpdate(o);
    if OnScreen(m) then [m] else []
  }

  /** The obstacle loop of a live tick. */
  function MoveObstacles(obs: seq<ObstacleData>): seq<ObstacleData>
  {
    if obs == [] then [] else MoveOne(obs[0]) + MoveObstacles(obs[1..])
  }

  /** After the obstacle loop every obstacle has moved left by PlayerSpeed, exactly
      those with x < -width are gone, and none is added. */
  lemma {:induction false} MoveObstaclesSurvivors(obs: seq<ObstacleData>)
    ensures |MoveObstacles(obs)| <= |obs|
    ensures forall o :: o in MoveObstacles(obs) ==> OnScreen(o)
    ensures forall o :: o in MoveObstacles(obs) ==> exists i :: 0 <= i < |obs| && o == ObstacleUpdate(obs[i])
    ensures forall i :: 0 <= i < |obs| && OnScreen(ObstacleUpdate(obs[i])) ==> ObstacleUpdate(obs[i]) in MoveObstacles(obs)
  {
    if obs != [] {
      MoveObstaclesSurvivors(obs[1..]);
      assert forall i :: 1 <= i < |obs| ==> obs[i] == obs[1..][i - 1];
    }
  }

  lemma MoveObstaclesSingle(o: ObstacleData)
    ensures MoveObstacles([o]) == MoveOne(o)
  {
    assert [o][1..] == [];
  }

  /** Removal keeps the survivors in their original order: the loop distributes over
      concatenation. */
  lemma {:induction false} MoveObstaclesAppend(a: seq<ObstacleData>, b: seq<ObstacleData>)
    ensures MoveObstacles(a + b) == MoveObstacles(a) + MoveObstacles(b)
  {
    if a == [] {
      assert a + b == b;
    } else {
      assert (a + b)[1..] == a[1..] + b;
      MoveObstaclesAppend(a[1..], b);
    }
  }

  /** spawn_obstacle's obstacle for one outcome of the random draw: `ground` stands for
      random.random() < 0.7. A ground obstacle stands on the ground line; a floating one
      hangs with its bottom 120 pixels above it, high enough that a standing player
      passes beneath it. */
  function NewObstacle(ground: bool): (o: ObstacleData)
    ensures o.x == ScreenWidth
    ensures ground ==> o.width == 30 * Scale && o.height == 60 * Scale && o.y + o.height == GroundY
    ensures !ground ==> o.width == 40 * Scale && o.height == 30 * Scale && o.y + o.height == GroundY - 120 * Scale
    ensures !ground ==> o.y + o.height < StandY
  {
    if ground then ObstacleData(ScreenWidth, GroundY - 60 * Scale, 30 * Scale, 60 * Scale)
    else ObstacleData(ScreenWidth, GroundY - 150 * Scale, 40 * Scale, 30 * Scale)
  }

  /** spawn_obstacle. */
  function SpawnObstacle(w: World, ground: bool): World
  {
    w.(obstacles := w.obstacles + [NewObstacle(ground)])
  }

  /** The spawner of a live tick: count the tick; when the count reaches the interval,
      spawn, reset the count and shorten the interval by one unless it is at the floor. */
  function RunSpawner(w: World, ground: bool): World
  {
    var t := w.(obstacleTimer := w.obstacleTimer + 1);
    if t.obstacleTimer >= t.obstacleSpawnRate then
      var s := SpawnObstacle(t, ground).(obstacleTimer := 0);
      if s.obstacleSpawnRate > MinSpawnRate then s.(obstacleSpawnRate := s.obstacleSpawnRate - 1) else s
    else t
  }

  /** check_collisions: the player's square meets some obstacle's rectangle. */
  predicate Collides(p: PlayerState, obs: seq<ObstacleData>)
  {
    exists i :: 0 <= i < |obs| && Colliderect(PlayerRect(p), ObstacleRect(obs[i]))
  }

  /** The result of the collision check does not depend on the order of the obstacles. */
  lemma CollidesOrderIndependent(p: PlayerState, a: seq<ObstacleData>, b: seq<ObstacleData>)
    requires multiset(a) == multiset(b)
    ensures Collides(p, a) == Collides(p, b)
  {
    forall x, y: seq<ObstacleData> | multiset(x) == multiset(y) && Collides(p, x)
      ensures Collides(p, y)
    {
      var i :| 0 <= i < |x| && Colliderect(PlayerRect(p), ObstacleRect(x[i]));
      assert x[i] in multiset(x);
      assert x[i] in y;
      var j :| 0 <= j < |y| && y[j] == x[i];
    }
  }

  /** A player standing on the ground line never touches an obstacle at the floating
      height, wherever it has moved to and however wide it is. */
  lemma StandingPlayerPassesUnderFloating(p: PlayerState, o: ObstacleData)
    requires p.y == StandY && o.y == NewObstacle(false).y && o.height == NewObstacle(false).height
    ensures !Colliderect(PlayerRect(p), ObstacleRect(o))
  {
  }

  // ---------------------------------------------------------------------------
  // The tick and the input

  /** The moves of a live tick: Player.update, then the obstacle loop. */
  function MoveEntities(w: World): World
  {
    w.(player := PlayerUpdate(w.player), obstacles := MoveObstacles(w.obstacles))
  }

  /** The end of a live tick: the tick is scored, and a collision starts a rewind. */
  function FinishTick(w: World): World
  {
    var scored := w.(score := w.score + 1);
    if Collides(scored.player, scored.obstacles) then StartRewind(scored) else scored
  }

  /** The live branch of update_game. */
  function LiveTick(w: World, ground: bool): World
  {
    FinishTick(RunSpawner(MoveEntities(SaveState(w)), ground))
  }

  /** update_game. */
  function UpdateGame(w: World, ground: bool): (r: World)
    requires CursorInRange(w)
    ensures CursorInRange(r)
  {
    if w.rewindActive then UpdateRewind(w) else LiveTick(w, ground)
  }

  /** restart_game. It leaves rewind_states and rewind_index as they are. */
  function RestartGame(w: World): World
  {
    w.(player := InitialPlayer, obstacles := [], score := 0, gameOver := false, history := [],
       rewindActive := false, obstacleTimer := 0, obstacleSpawnRate := InitialSpawnRate)
  }

  /** restart_game is a plain reset to the state __init__ builds, except that the
      running flag, rewind_states and rewind_index are left as they were. */
  lemma RestartIsInit(w: World)
    ensures RestartGame(w) == Init().(running := w.running, rewindStates := w.rewindStates, rewindIndex := w.rewindIndex)
  {
  }

  /** One event of handle_events. */
  function HandleEvent(w: World, e: Event): World
  {
    match e
    case Quit => w.(running := false)
    case KeyDown(Space) => if !w.rewindActive then w.(player := PlayerJump(w.player)) else w
    case KeyDown(KeyR) => if w.gameOver then RestartGame(w) else w
    case _ => w
  }

  /** handle_events over the events of one frame, in order. */
  function HandleEvents(w: World, events: seq<Event>): World
    decreases |events|
  {
    if events == [] then w else HandleEvents(HandleEvent(w, events[0]), events[1..])
  }

  lemma {:induction false} HandleEventsSnoc(w: World, events: seq<Event>, e: Event)
    ensures HandleEvents(w, events + [e]) == HandleEvent(HandleEvents(w, events), e)
    decreases |events|
  {
    if events == [] {
      assert HandleEvents(HandleEvent(w, e), []) == HandleEvent(w, e);
      assert [e][1..] == [];
    } else {
      assert (events + [e])[1..] == events[1..] + [e];
      HandleEventsSnoc(HandleEvent(w, events[0]), events[1..], e);
    }
  }
}
