/** TimeLoopRunner: the game object that owns all simulation state and updates it in
    place, one event batch and one tick at a time. Each method is proved to change the
    state exactly as the corresponding function of module Simulation says. */
module Runner {
  import opened Geometry
  import opened Entities
  import opened Snapshots
  import opened Simulation
  import GameProperties

  /** list.remove(x): drop the first element equal to x; Python raises ValueError
      when there is none, so the caller must make sure there is one. */
  function RemoveFirst<T(==)>(s: seq<T>, x: T): seq<T>
    requires x in s
  {
    if s[0] == x then s[1..] else [s[0]] + RemoveFirst(s[1..], x)
  }

  /** list.remove takes out exactly one occurrence of x and nothing else. */
  lemma {:induction false} RemoveFirstRemovesOne<T>(s: seq<T>, x: T)
    requires x in s
    ensures |RemoveFirst(s, x)| == |s| - 1
    ensures multiset(RemoveFirst(s, x)) == multiset(s) - multiset{x}
  {
    assert s == [s[0]] + s[1..];
    if s[0] != x {
      RemoveFirstRemovesOne(s[1..], x);
    }
  }

  /** Removing an element that does not occur before position |front| removes it there. */
  lemma {:induction false} RemoveFirstAt<T>(front: seq<T>, x: T, back: seq<T>)
    requires x !in front
    ensures RemoveFirst(front + [x] + back, x) == front + back
  {
    if front != [] {
      assert (front + [x] + back)[1..] == front[1..] + [x] + back;
      RemoveFirstAt(front[1..], x, back);
      assert front == [front[0]] + front[1..];
    }
  }

  /** The obstacles of `objs` that are not off screen, in order. */
  ghost function Survivors(objs: seq<Obstacle>): seq<Obstacle>
    reads objs
  {
    if objs == [] then []
    else
      var last := objs[|objs| - 1];
      Survivors(objs[..|objs| - 1]) + (if OnScreen(last.Data()) then [last] else [])
  }

  /** Survivors only drops obstacles. */
  lemma {:induction false} SurvivorsSubset(objs: seq<Obstacle>, o: Obstacle)
    requires o in Survivors(objs)
    ensures o in objs
  {
    var n := |objs| - 1;
    if o !in Survivors(objs[..n]) {
      assert o == objs[n];
    } else {
      SurvivorsSubset(objs[..n], o);
    }
  }

  /** No object occurs twice. */
  ghost predicate NoDuplicates<T>(s: seq<T>)
  {
    forall a, b :: 0 <= a < b < |s| ==> s[a] != s[b]
  }

  lemma {:induction false} SurvivorsNoDuplicates(objs: seq<Obstacle>)
    requires NoDuplicates(objs)
    ensures NoDuplicates(Survivors(objs))
  {
    if objs != [] {
      var init := objs[..|objs| - 1];
      var last := objs[|objs| - 1];
      assert NoDuplicates(init);
      SurvivorsNoDuplicates(init);
      if last in Survivors(init) {
        SurvivorsSubset(init, last);
      }
    }
  }

  /** Taking records commutes with concatenation. */
  lemma RecordsAppend(a: seq<Obstacle>, b: seq<Obstacle>)
    ensures ObstacleRecords(a + b) == ObstacleRecords(a) + ObstacleRecords(b)
  {
  }

  /** Once every obstacle has moved, the survivors' records are the obstacle loop's result. */
  lemma {:induction false} SurvivorRecords(objs: seq<Obstacle>, before: seq<ObstacleData>)
    requires |objs| == |before|
    requires forall k :: 0 <= k < |objs| ==> objs[k].Data() == ObstacleUpdate(before[k])
    ensures ObstacleRecords(Survivors(objs)) == MoveObstacles(before)
  {
    if objs != [] {
      var n := |objs| - 1;
      SurvivorRecords(objs[..n], before[..n]);
      RecordsAppend(Survivors(objs[..n]), if OnScreen(objs[n].Data()) then [objs[n]] else []);
      MoveObstaclesAppend(before[..n], [before[n]]);
      MoveObstaclesSingle(before[n]);
      assert before == before[..n] + [before[n]];
    }
  }

  /** The facts about position i of a duplicate-free list that one loop iteration uses. */
  lemma SplitAt<T>(s: seq<T>, i: nat)
    requires NoDuplicates(s) && i < |s|
    ensures s[..i + 1][..i] == s[..i]
    ensures s[i] !in s[..i]
    ensures s[i..] == [s[i]] + s[i + 1..]
  {
  }

  class TimeLoopRunner {
    var player: Player
    var obstacles: seq<Obstacle>
    var score: int
    var running: bool
    var gameOver: bool
    /** The bounded deque of snapshots, oldest first. */
    var stateHistory: seq<GameState>
    var rewindActive: bool
    var rewindStates: seq<GameState>
    var rewindIndex: int
    var obstacleTimer: int
    var obstacleSpawnRate: int

    /** The game state as a value. */
    ghost function Model(): World
      reads this, player, obstacles
    {
      World(player.State(), ObstacleRecords(obstacles), score, running, gameOver, stateHistory,
            rewindActive, rewindStates, rewindIndex, obstacleTimer, obstacleSpawnRate)
    }

    /** No obstacle object occurs twice in the live list. */
    ghost predicate Distinct()
      reads this`obstacles
    {
      NoDuplicates(obstacles)
    }

    ghost predicate Valid()
      reads this, player, obstacles
    {
      Distinct() && Inv(Model())
    }

    /** __init__, without the window, clock and font. */
    constructor ()
      ensures Valid() && fresh(player)
      ensures Model() == Init()
    {
      player := new Player(InitialPlayer.x, InitialPlayer.y);
      obstacles := [];
      score := 0;
      running := true;
      gameOver := false;
      stateHistory := [];
      rewindActive := false;
      rewindStates := [];
      rewindIndex := 0;
      obstacleTimer := 0;
      obstacleSpawnRate := InitialSpawnRate;
    }

    /** save_state: append a by-value snapshot of the live state to the bounded history. */
    method SaveState()
      modifies this`stateHistory
      ensures Model() == Simulation.SaveState(old(Model()))
    {
      var state := GameState(player.x, player.y, player.velY, ObstacleRecords(obstacles), score);
      stateHistory := DequeAppend(stateHistory, state, HistoryCapacity);
    }

    /** start_rewind. */
    method StartRewind()
      modifies this`rewindActive, this`rewindStates, this`rewindIndex
      ensures Model() == Simulation.StartRewind(old(Model()))
    {
      if |stateHistory| > 0 {
        rewindActive := true;
        rewindStates := stateHistory;
        rewindIndex := |rewindStates| - 1;
      }
    }

    /** update_rewind: restore the player, rebuild the obstacle list from fresh objects
        and restore the score from the snapshot under the cursor, then step the cursor
        back by 2; or finish the rewind. */
    method UpdateRewind()
      requires Distinct() && rewindIndex < |rewindStates|
      modifies this, player
      ensures Distinct() && player == old(player)
      ensures Model() == Simulation.UpdateRewind(old(Model()))
      ensures old(rewindIndex) >= 0 ==> forall o :: o in obstacles ==> fresh(o)
    {
      if rewindIndex >= 0 {
        var state := rewindStates[rewindIndex];
        player.x := state.playerX;
        player.y := state.playerY;
        player.velY := state.playerVelY;
        obstacles := [];
        for k := 0 to |state.obstacles|
          modifies this`obstacles
          invariant ObstacleRecords(obstacles) == state.obstacles[..k]
          invariant Distinct()
          invariant forall o :: o in obstacles ==> fresh(o)
        {
          var data := state.obstacles[k];
          var obstacle := new Obstacle(data.x, data.y, data.width, data.height);
          obstacles := obstacles + [obstacle];
          assert state.obstacles[..k + 1] == state.obstacles[..k] + [data];
        }
        assert state.obstacles[..|state.obstacles|] == state.obstacles;
        score := state.score;
        rewindIndex := rewindIndex - 2;
      } else {
        rewindActive := false;
        stateHistory := [];
      }
    }

    /** spawn_obstacle, with `ground` standing for random.random() < 0.7: one new
        obstacle object, shaped as NewObstacle says, goes to the end of the list. */
    method SpawnObstacle(ground: bool)
      requires Distinct()
      modifies this`obstacles
      ensures Distinct()
      ensures |obstacles| == |old(obstacles)| + 1 && obstacles[..|old(obstacles)|] == old(obstacles)
      ensures fresh(obstacles[|obstacles| - 1])
      ensures Model() == Simulation.SpawnObstacle(old(Model()), ground)
    {
      var shape := NewObstacle(ground);
      var obstacle := new Obstacle(shape.x, shape.y, shape.width, shape.height);
      obstacles := obstacles + [obstacle];
    }

    /** check_collisions: a search over the obstacles that stops at the first one whose
        rectangle meets the player's. */
    method CheckCollisions() returns (hit: bool)
      ensures hit <==> exists i :: 0 <= i < |obstacles| && Colliderect(player.GetRect(), obstacles[i].GetRect())
      ensures hit == Collides(player.State(), ObstacleRecords(obstacles))
    {
      var playerRect := player.GetRect();
      for i := 0 to |obstacles|
        invariant forall k :: 0 <= k < i ==> !Colliderect(playerRect, obstacles[k].GetRect())
      {
        if Colliderect(playerRect, obstacles[i].GetRect()) {
          assert ObstacleRecords(obstacles)[i] == obstacles[i].Data();
          return true;
        }
      }
      return false;
    }

    /** The obstacle loop of update_game: walk a copy of the list, move each obstacle,
        and remove it from the live list if it is now off screen. */
    method UpdateObstacles()
      requires Distinct()
      modifies this`obstacles, obstacles
      ensures Distinct()
      ensures ObstacleRecords(obstacles) == MoveObstacles(old(ObstacleRecords(obstacles)))
    {
      ghost var before := ObstacleRecords(obstacles);
      var copy := obstacles;
      ObstacleLoopStarts(copy, before);
      for i := 0 to |copy|
        invariant ObstacleLoopAt(copy, before, i)
      {
        ObstacleLoopStep(copy, before, i);
      }
      ObstacleLoopEnds(copy, before);
    }

    /** Before the first iteration: nothing has moved and the live list is the copy. */
    lemma ObstacleLoopStarts(copy: seq<Obstacle>, before: seq<ObstacleData>)
      requires Distinct() && copy == obstacles && before == ObstacleRecords(obstacles)
      ensures ObstacleLoopAt(copy, before, 0)
    {
      assert copy[..0] == [] && copy[0..] == copy;
    }

    /** After the last iteration: the live list holds the survivors, each moved once. */
    lemma ObstacleLoopEnds(copy: seq<Obstacle>, before: seq<ObstacleData>)
      requires ObstacleLoopAt(copy, before, |copy|)
      ensures Distinct() && ObstacleRecords(obstacles) == MoveObstacles(before)
    {
      assert copy[..|copy|] == copy && copy[|copy|..] == [];
      assert obstacles == Survivors(copy);
      SurvivorRecords(copy, before);
      SurvivorsNoDuplicates(copy);
    }

    /** The obstacle loop after `i` iterations over `copy`, whose records were `before`:
        the first i obstacles have moved once, the rest not at all, and the live list
        is the survivors among the first i followed by the unvisited ones. */
    ghost predicate ObstacleLoopAt(copy: seq<Obstacle>, before: seq<ObstacleData>, i: nat)
      reads this, copy
    {
      i <= |copy| == |before| &&
      NoDuplicates(copy) &&
      (forall k :: 0 <= k < i ==> copy[k].Data() == ObstacleUpdate(before[k])) &&
      (forall k :: i <= k < |copy| ==> copy[k].Data() == before[k]) &&
      obstacles == Survivors(copy[..i]) + copy[i..]
    }

    /** One iteration: obstacle.update(), then remove it from the live list if it is
        now off screen. */
    method ObstacleLoopStep(copy: seq<Obstacle>, ghost before: seq<ObstacleData>, i: nat)
      requires i < |copy| && ObstacleLoopAt(copy, before, i)
      modifies this`obstacles, copy[i]
      ensures ObstacleLoopAt(copy, before, i + 1)
    {
      var obstacle := copy[i];
      SplitAt(copy, i);
      ghost var survivors := Survivors(copy[..i]);
      assert obstacles == survivors + [obstacle] + copy[i + 1..];
      obstacle.Update();
      assert Survivors(copy[..i]) == survivors;
      if obstacle.x < -obstacle.width {
        if obstacle in Survivors(copy[..i]) {
          SurvivorsSubset(copy[..i], obstacle);
        }
        RemoveFirstAt(Survivors(copy[..i]), obstacle, copy[i + 1..]);
        obstacles := RemoveFirst(obstacles, obstacle);
      }
    }

    /** The spawner part of update_game: count the tick and, when the count reaches
        the interval, spawn, reset the count and shorten the interval down to the floor. */
    method RunSpawner(ground: bool)
      requires Distinct()
      modifies this`obstacles, this`obstacleTimer, this`obstacleSpawnRate
      ensures Distinct()
      ensures Model() == Simulation.RunSpawner(old(Model()), ground)
    {
      obstacleTimer := obstacleTimer + 1;
      if obstacleTimer >= obstacleSpawnRate {
        SpawnObstacle(ground);
        obstacleTimer := 0;
        if obstacleSpawnRate > MinSpawnRate {
          obstacleSpawnRate := obstacleSpawnRate - 1;
        }
      }
    }

    /** update_game: one tick. While rewinding it only plays back; otherwise it runs
        the live tick. */
    method UpdateGame(ground: bool)
      requires Valid()
      modifies this, player, obstacles
      ensures Valid() && player == old(player)
      ensures Model() == Simulation.UpdateGame(old(Model()), ground)
    {
      GameProperties.UpdateGamePreservesInv(Model(), ground);
      if rewindActive {
        UpdateRewind();
      } else {
        LiveTick(ground);
      }
    }

    /** The live branch of update_game: save a snapshot, move the player and the
        obstacles, run the spawner, score the tick and start a rewind on a collision. */
    method LiveTick(ground: bool)
      requires Distinct() && !rewindActive
      modifies this, player, obstacles
      ensures Distinct() && player == old(player)
      ensures Model() == Simulation.LiveTick(old(Model()), ground)
    {
      SaveState();
      MoveEntities();
      RunSpawner(ground);
      FinishTick();
    }

    /** Player.update, then the obstacle loop. */
    method MoveEntities()
      requires Distinct()
      modifies player, this`obstacles, obstacles
      ensures Distinct()
      ensures Model() == Simulation.MoveEntities(old(Model()))
    {
      player.Update();
      UpdateObstacles();
    }

    /** The end of a live tick: score it, then start_rewind if check_collisions hits. */
    method FinishTick()
      modifies this`score, this`rewindActive, this`rewindStates, this`rewindIndex
      ensures Model() == Simulation.FinishTick(old(Model()))
    {
      score := score + 1;
      var hit := CheckCollisions();
      if hit {
        StartRewind();
      }
    }

    /** restart_game. Reachable only through game_over, which nothing sets. */
    method RestartGame()
      modifies this
      ensures fresh(player) && Distinct()
      ensures Model() == Simulation.RestartGame(old(Model()))
    {
      player := new Player(InitialPlayer.x, InitialPlayer.y);
      obstacles := [];
      score := 0;
      gameOver := false;
      stateHistory := [];
      rewindActive := false;
      obstacleTimer := 0;
      obstacleSpawnRate := InitialSpawnRate;
    }

    /** handle_events over the events pygame returned for this frame. */
    method HandleEvents(events: seq<Event>)
      requires Valid()
      modifies this, player
      ensures Valid()
      ensures Model() == Simulation.HandleEvents(old(Model()), events)
    {
      for i := 0 to |events|
        invariant Distinct()
        invariant player == old(player) || fresh(player)
        invariant Model() == Simulation.HandleEvents(old(Model()), events[..i])
      {
        var event := events[i];
        match event {
          case Quit =>
            running := false;
          case KeyDown(key) =>
            if key == Space {
              if !rewindActive {
                player.Jump();
              }
            } else if key == KeyR && gameOver {
              RestartGame();
            }
          case OtherEvent =>
        }
        HandleEventsSnoc(old(Model()), events[..i], event);
        assert events[..i + 1] == events[..i] + [event];
      }
      assert events[..|events|] == events;
      GameProperties.HandleEventsPreservesInv(old(Model()), events);
    }
  }
}
