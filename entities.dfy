/** The player and the obstacles: their constants, their kinematics and their
    collision rectangles. Lengths are in tenths of a pixel (Geometry.Scale). */
module Entities {
  import opened Geometry

  const ScreenWidth: int := 1000 * Scale
  const ScreenHeight: int := 600 * Scale
  /** 0.8 pixel per tick per tick. */
  const Gravity: int := 8
  const JumpStrength: int := -15 * Scale
  /** Leftward speed of every obstacle, per tick. */
  const PlayerSpeed: int := 5 * Scale
  const PlayerRadius: int := 20 * Scale
  /** The ground line, SCREEN_HEIGHT - 100. */
  const GroundY: int := ScreenHeight - 100 * Scale
  /** The y of a player standing on the ground line: the lowest the player gets. */
  const StandY: int := GroundY - 2 * PlayerRadius

  datatype PlayerState = PlayerState(x: int, y: int, velY: int, onGround: bool)

  /** The four fields of an obstacle that a snapshot records. */
  datatype ObstacleData = ObstacleData(x: int, y: int, width: int, height: int)

  /** Player.update: gravity, then integration, then the ground clamp. */
  function PlayerUpdate(p: PlayerState): (r: PlayerState)
    ensures r.x == p.x
    ensures r.y <= StandY
    ensures r.onGround <==> p.y + p.velY + Gravity >= StandY
    ensures r.onGround ==> r.y == StandY && r.velY == 0
    ensures !r.onGround ==> r.velY == p.velY + Gravity && r.y == p.y + r.velY
  {
    var velY := p.velY + Gravity;
    var y := p.y + velY;
    if y >= StandY then PlayerState(p.x, StandY, 0, true)
    else PlayerState(p.x, y, velY, false)
  }

  /** Player.jump: an upward kick, only from the ground. */
  function PlayerJump(p: PlayerState): (r: PlayerState)
    ensures p.onGround ==> r == p.(velY := JumpStrength)
    ensures !p.onGround ==> r == p
  {
    if p.onGround then p.(velY := JumpStrength) else p
  }

  /** Obstacle.update: a move left by the obstacle speed; the size and y stay. */
  function ObstacleUpdate(o: ObstacleData): (r: ObstacleData)
    ensures r.x == o.x - PlayerSpeed
    ensures r.(x := o.x) == o
  {
    o.(x := o.x - PlayerSpeed)
  }

  /** Player.get_rect: the 40 by 40 pixel square at the player's truncated position. */
  function PlayerRect(p: PlayerState): (r: Rect)
    ensures r.w == 40 && r.h == 40
    ensures p.x % Scale == 0 ==> Scale * r.x == p.x
    ensures p.y >= 0 ==> Scale * r.y <= p.y < Scale * r.y + Scale
  {
    Rect(Trunc(p.x), Trunc(p.y), Trunc(2 * PlayerRadius), Trunc(2 * PlayerRadius))
  }

  /** Obstacle.get_rect. A coordinate or size that is a whole number of pixels, as
      every obstacle's is, carries over exactly. */
  function ObstacleRect(o: ObstacleData): (r: Rect)
    ensures o.x % Scale == 0 ==> Scale * r.x == o.x
    ensures o.y % Scale == 0 ==> Scale * r.y == o.y
    ensures o.width % Scale == 0 ==> Scale * r.w == o.width
    ensures o.height % Scale == 0 ==> Scale * r.h == o.height
  {
    Rect(Trunc(o.x), Trunc(o.y), Trunc(o.width), Trunc(o.height))
  }

  /** `n` consecutive Player.update calls. */
  function Fly(p: PlayerState, n: nat): PlayerState
  {
    if n == 0 then p else PlayerUpdate(Fly(p, n - 1))
  }

  /** A positive times a negative number is negative. */
  lemma {:induction false} ProductSign(a: int, b: int)
    requires a > 0 && b < 0
    ensures a * b < 0
  {
    if a > 1 {
      ProductSign(a - 1, b);
      assert a * b == (a - 1) * b + b;
    }
  }

  /** Height gained above the ground line `n` ticks after a jump (negative means airborne). */
  function ArcRise(n: int): int
  {
    JumpStrength * n + 4 * n * (n + 1)
  }

  lemma ArcRiseStep(n: int)
    ensures ArcRise(n + 1) == ArcRise(n) + JumpStrength + Gravity * (n + 1)
  {
    assert 4 * (n + 1) * (n + 2) == 4 * n * (n + 1) + 8 * (n + 1);
  }

  lemma ArcRiseNegative(n: int)
    requires 1 <= n <= 36
    ensures ArcRise(n) < 0
  {
    assert ArcRise(n) == n * (4 * n - 146);
    ProductSign(n, 4 * n - 146);
  }

  /** Closed form of the first `n` ticks after a jump from the ground: the player
      stays airborne and follows the parabola StandY + ArcRise(n). */
  lemma {:induction false} JumpArcAirborne(p: PlayerState, n: nat)
    requires p.onGround && p.y == StandY
    requires 1 <= n <= 36
    ensures Fly(PlayerJump(p), n) == PlayerState(p.x, StandY + ArcRise(n), JumpStrength + Gravity * n, false)
  {
    ArcRiseNegative(n);
    if n > 1 {
      JumpArcAirborne(p, n - 1);
      ArcRiseStep(n - 1);
    }
  }

  /** A jump from the ground lasts 36 airborne ticks; the 37th lands the player back
      on the ground line with zero velocity. Tick 18 is higher than the ticks on either side. */
  lemma JumpArcLands(p: PlayerState)
    requires p.onGround && p.y == StandY
    ensures Fly(PlayerJump(p), 37) == PlayerState(p.x, StandY, 0, true)
    ensures Fly(PlayerJump(p), 18).y < Fly(PlayerJump(p), 17).y
    ensures Fly(PlayerJump(p), 19).y > Fly(PlayerJump(p), 18).y
  {
    JumpArcAirborne(p, 36);
    assert ArcRise(36) == -72;
    assert ArcRise(17) == -1326 && ArcRise(18) == -1332 && ArcRise(19) == -1330;
    JumpArcAirborne(p, 19);
    JumpArcAirborne(p, 18);
    JumpArcAirborne(p, 17);
  }

  /** The whole arc around its apex: the player rises strictly on every tick up to
      tick 18 and falls strictly on every tick from 18 to the landing, so no tick of
      the jump, from take-off to touch-down, is higher than tick 18. */
  lemma JumpArcApex(p: PlayerState)
    requires p.onGround && p.y == StandY
    ensures forall n :: 0 <= n < 18 ==> Fly(PlayerJump(p), n + 1).y < Fly(PlayerJump(p), n).y
    ensures forall n :: 18 <= n < 37 ==> Fly(PlayerJump(p), n + 1).y > Fly(PlayerJump(p), n).y
    ensures forall n :: 0 <= n <= 37 ==> Fly(PlayerJump(p), 18).y <= Fly(PlayerJump(p), n).y
  {
    var q := PlayerJump(p);
    JumpArcLands(p);
    JumpArcAirborne(p, 1);
    JumpArcAirborne(p, 18);
    forall n | 1 <= n <= 36
      ensures Fly(q, n).y == StandY + n * (4 * n - 146)
    {
      JumpArcAirborne(p, n);
    }
    forall n | 1 <= n < 36
      ensures (n < 18 ==> Fly(q, n + 1).y < Fly(q, n).y) && (n >= 18 ==> Fly(q, n + 1).y > Fly(q, n).y)
    {
      JumpArcAirborne(p, n);
      JumpArcAirborne(p, n + 1);
      ArcRiseStep(n);
    }
    forall n | 1 <= n <= 36
      ensures Fly(q, 18).y <= Fly(q, n).y
    {
      JumpArcAirborne(p, n);
      assert ArcRise(n) - ArcRise(18) == (n - 18) * (4 * n - 74);
      if n < 18 {
        ProductSign(18 - n, 4 * n - 74);
      } else if n > 18 {
        assert (n - 18) * (4 * n - 74) >= 4 * n - 74;
      }
    }
  }

  /** The player character. Its radius and ground line never change. */
  class Player {
    var x: int
    var y: int
    var velY: int
    var onGround: bool
    const radius: int := PlayerRadius
    const groundY: int := GroundY

    constructor (x: int, y: int)
      ensures State() == PlayerState(x, y, 0, false)
    {
      this.x := x;
      this.y := y;
      velY := 0;
      onGround := false;
    }

    function State(): PlayerState
      reads this
    {
      PlayerState(x, y, velY, onGround)
    }

    method Update()
      modifies this
      ensures State() == PlayerUpdate(old(State()))
    {
      velY := velY + Gravity;
      y := y + velY;
      if y >= groundY - radius * 2 {
        y := groundY - radius * 2;
        velY := 0;
        onGround := true;
      } else {
        onGround := false;
      }
    }

    method Jump()
      modifies this
      ensures State() == PlayerJump(old(State()))
    {
      if onGround {
        velY := JumpStrength;
      }
    }

    function GetRect(): Rect
      reads this
    {
      PlayerRect(State())
    }
  }

  /** An obstacle. Only its x ever changes after construction. */
  class Obstacle {
    var x: int
    const y: int
    const width: int
    const height: int
    const speed: int := PlayerSpeed

    constructor (x: int, y: int, width: int, height: int)
      ensures Data() == ObstacleData(x, y, width, height)
    {
      this.x := x;
      this.y := y;
      this.width := width;
      this.height := height;
    }

    function Data(): ObstacleData
      reads this
    {
      ObstacleData(x, y, width, height)
    }

    method Update()
      modifies this`x
      ensures Data() == ObstacleUpdate(old(Data()))
    {
      x := x - speed;
    }

    function GetRect(): Rect
      reads this
    {
      ObstacleRect(Data())
    }
  }

  /** The comprehension in GameState.__init__: a copy, by value, of each live
      obstacle's x, y, width and height, in list order. */
  function ObstacleRecords(obs: seq<Obstacle>): (r: seq<ObstacleData>)
    reads obs
    ensures |r| == |obs|
    ensures forall i :: 0 <= i < |obs| ==> r[i] == obs[i].Data()
  {
    seq(|obs|, i requires 0 <= i < |obs| reads obs => obs[i].Data())
  }
}
