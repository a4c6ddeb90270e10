/** Snapshots of the simulation and the bounded history that holds them. */
module Snapshots {
  import opened Entities

  const Fps: int := 60
  /** Seconds of play the history covers. */
  const RewindDuration: int := 3
  /** maxlen of the history deque: FPS * REWIND_DURATION = 180 snapshots. */
  const HistoryCapacity: nat := Fps * RewindDuration

  /** GameState: one tick's player position and velocity, obstacle records and score.
      The obstacles are plain values, so later moves of the live obstacles cannot reach it. */
  datatype GameState = GameState(
    playerX: int,
    playerY: int,
    playerVelY: int,
    obstacles: seq<ObstacleData>,
    score: int)

  /** deque.append on a deque created with `maxlen`: the new item goes to the right end
      and, when that makes the deque too long, items fall off the left end. */
  function DequeAppend<T>(h: seq<T>, item: T, maxlen: nat): (r: seq<T>)
    ensures |r| <= maxlen
    ensures |h| < maxlen ==> r == h + [item]
    ensures |h| == maxlen > 0 ==> r == h[1..] + [item]
    ensures forall x :: x in r ==> x in h || x == item
  {
    var a := h + [item];
    if |a| > maxlen then a[|a| - maxlen..] else a
  }
}
