/** The player of the platformer: its tuning constants, the value of its five
    fields, the transitions its mutators perform, its bounding boxes, and the
    `Player` object whose methods update those fields in place. */
module Kinematics {
  import opened Geometry

  const Width: int := 16
  const Height: int := 32
  const MoveSpeed: real := 3.0
  const JumpPower: real := 7.0
  const Gravity: real := 0.4
  const MaxFallSpeed: real := 8.0
  const StartX: real := 100.0
  const StartY: real := 100.0

  /** Position of the top-left corner, velocity, and whether the player is
      standing on something. */
  datatype Body = Body(x: real, y: real, vx: real, vy: real, onGround: bool)

  /** The state a player starts in and is reset to. */
  function Start(): (r: Body)
    ensures r.x == StartX && r.y == StartY
    ensures r.vx == 0.0 && r.vy == 0.0 && !r.onGround
  {
    Body(StartX, StartY, 0.0, 0.0, false)
  }

  /** Input: left wins over right; a jump fires only when it was just
      pressed while standing on something. */
  function WithInput(b: Body, left: bool, right: bool, jumpJustPressed: bool): (r: Body)
    ensures left ==> r.vx == -MoveSpeed
    ensures !left && right ==> r.vx == MoveSpeed
    ensures !left && !right ==> r.vx == 0.0
    ensures jumpJustPressed && b.onGround ==> r.vy == -JumpPower && !r.onGround
    ensures !(jumpJustPressed && b.onGround) ==> r.vy == b.vy && r.onGround == b.onGround
    ensures r.x == b.x && r.y == b.y
  {
    var vx := if left then -MoveSpeed else if right then MoveSpeed else 0.0;
    if jumpJustPressed && b.onGround then b.(vx := vx, vy := -JumpPower, onGround := false)
    else b.(vx := vx)
  }

  /** Gravity with the fall-speed cap: the vertical velocity grows by exactly
      `Gravity` while that stays within the cap, and never ends above it. */
  function WithGravity(b: Body): (r: Body)
    ensures r.vy <= MaxFallSpeed
    ensures b.vy + Gravity <= MaxFallSpeed ==> r.vy == b.vy + Gravity
    ensures b.vy + Gravity > MaxFallSpeed ==> r.vy == MaxFallSpeed
    ensures b.vy < MaxFallSpeed ==> b.vy < r.vy
    ensures r.x == b.x && r.y == b.y && r.vx == b.vx && r.onGround == b.onGround
  {
    var vy := b.vy + Gravity;
    b.(vy := if vy > MaxFallSpeed then MaxFallSpeed else vy)
  }

  /** Integration of the position by one frame of velocity. */
  function Moved(b: Body): (r: Body)
    ensures r.x - b.x == b.vx && r.y - b.y == b.vy
    ensures r.vx == b.vx && r.vy == b.vy && r.onGround == b.onGround
  {
    b.(x := b.x + b.vx, y := b.y + b.vy)
  }

  /** Horizontal collision response: horizontal motion stops, nothing else
      changes. */
  function StoppedX(b: Body): (r: Body)
    ensures r.vx == 0.0
    ensures r.x == b.x && r.y == b.y && r.vy == b.vy && r.onGround == b.onGround
  {
    b.(vx := 0.0)
  }

  /** Vertical collision response against the edge `platformY`: when falling
      the player's bottom is put on that edge and it stands; when rising its
      top is put on that edge. Vertical motion stops either way. */
  function SnappedY(b: Body, platformY: real): (r: Body)
    ensures r.vy == 0.0
    ensures r.x == b.x && r.vx == b.vx
    ensures b.vy > 0.0 ==> r.y + Height as real == platformY && r.onGround
    ensures b.vy < 0.0 ==> r.y == platformY && r.onGround == b.onGround
    ensures b.vy == 0.0 ==> r.y == b.y && r.onGround == b.onGround
  {
    if b.vy > 0.0 then b.(y := platformY - Height as real, onGround := true, vy := 0.0)
    else if b.vy < 0.0 then b.(y := platformY, vy := 0.0)
    else b.(vy := 0.0)
  }

  /** The current bounding box, from the truncated position. */
  function BoxOf(b: Body): (r: Rect)
    ensures r.min == Point(Trunc(b.x), Trunc(b.y))
    ensures r.max.x - r.min.x == Width && r.max.y - r.min.y == Height
  {
    MkRect(Trunc(b.x), Trunc(b.y), Trunc(b.x) + Width, Trunc(b.y) + Height)
  }

  /** The box probed for horizontal motion: the box of the player moved by
      its horizontal velocity only. */
  function NextBoxX(b: Body): (r: Rect)
    ensures r.min == Point(Trunc(b.x + b.vx), Trunc(b.y))
    ensures r.max.x - r.min.x == Width && r.max.y - r.min.y == Height
  {
    var nextX := b.x + b.vx;
    MkRect(Trunc(nextX), Trunc(b.y), Trunc(nextX) + Width, Trunc(b.y) + Height)
  }

  /** The box probed for vertical motion: its top follows the vertical
      velocity but its bottom stays that of the current box. */
  function NextBoxY(b: Body): (r: Rect)
    ensures r.min.x == Trunc(b.x) && r.max.x == Trunc(b.x) + Width
    ensures Trunc(b.y + b.vy) <= Trunc(b.y) + Height ==>
              r.min.y == Trunc(b.y + b.vy) && r.max.y == Trunc(b.y) + Height
  {
    var nextY := b.y + b.vy;
    MkRect(Trunc(b.x), Trunc(nextY), Trunc(b.x) + Width, Trunc(b.y) + Height)
  }

  /** The horizontal probe is the current box of the horizontally moved
      player. */
  lemma NextBoxXIsMovedBox(b: Body)
    ensures NextBoxX(b) == BoxOf(Moved(b).(y := b.y))
  {
  }

  /** While the vertical speed is within the cap, the vertical probe runs from
      the top of the moved box to the bottom of the current box, so it does not
      reach below the current box. */
  lemma NextBoxYSpan(b: Body)
    requires b.vy <= MaxFallSpeed
    ensures NextBoxY(b).min.y == BoxOf(Moved(b)).min.y
    ensures NextBoxY(b).max.y == BoxOf(b).max.y
    ensures NextBoxY(b).min.x == BoxOf(b).min.x && NextBoxY(b).max.x == BoxOf(b).max.x
  {
  }

  /** `n` frames of gravity alone. */
  function Falling(b: Body, n: nat): Body
  {
    if n == 0 then b else WithGravity(Falling(b, n - 1))
  }

  /** Under gravity alone the vertical speed climbs by `Gravity` per frame
      until it reaches the cap, then stays there. */
  lemma {:induction false} FallingSpeed(b: Body, n: nat)
    requires b.vy <= MaxFallSpeed
    ensures var v := b.vy + n as real * Gravity;
            Falling(b, n).vy == if v > MaxFallSpeed then MaxFallSpeed else v
  {
    if n > 0 {
      FallingSpeed(b, n - 1);
    }
  }

  /** The player object: `X, Y, Vx, Vy, OnGround`, updated in place. */
  class Player {
    var X: real
    var Y: real
    var Vx: real
    var Vy: real
    var OnGround: bool

    /** The value the five fields currently hold. */
    function State(): Body
      reads this
    {
      Body(X, Y, Vx, Vy, OnGround)
    }

    /** `NewPlayer`. */
    constructor ()
      ensures State() == Start()
    {
      X, Y := StartX, StartY;
      Vx, Vy := 0.0, 0.0;
      OnGround := false;
    }

    function Rect(): Geometry.Rect
      reads this
    {
      BoxOf(State())
    }

    function NextRectX(): Geometry.Rect
      reads this
    {
      NextBoxX(State())
    }

    function NextRectY(): Geometry.Rect
      reads this
    {
      NextBoxY(State())
    }

    method HandleInput(left: bool, right: bool, jumpJustPressed: bool)
      modifies this
      ensures State() == WithInput(old(State()), left, right, jumpJustPressed)
    {
      if left {
        Vx := -MoveSpeed;
      } else if right {
        Vx := MoveSpeed;
      } else {
        Vx := 0.0;
      }
      if jumpJustPressed && OnGround {
        Vy := -JumpPower;
        OnGround := false;
      }
    }

    method ApplyGravity()
      modifies this
      ensures State() == WithGravity(old(State()))
    {
      Vy := Vy + Gravity;
      if Vy > MaxFallSpeed {
        Vy := MaxFallSpeed;
      }
    }

    method UpdatePosition()
      modifies this
      ensures State() == Moved(old(State()))
    {
      X := X + Vx;
      Y := Y + Vy;
    }

    method ResetPosition()
      modifies this
      ensures State() == Start()
    {
      X := StartX;
      Y := StartY;
      Vy := 0.0;
      Vx := 0.0;
      OnGround := false;
    }

    method HandleCollisionX()
      modifies this
      ensures State() == StoppedX(old(State()))
    {
      Vx := 0.0;
    }

    method HandleCollisionY(platformY: real)
      modifies this
      ensures State() == SnappedY(old(State()), platformY)
    {
      if Vy > 0.0 {
        Y := platformY - Height as real;
        OnGround := true;
      } else if Vy < 0.0 {
        Y := platformY;
      }
      Vy := 0.0;
    }
  }
}
