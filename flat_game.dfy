/** The frame step of the flat copy: a `Game` holding the player as a plain
    value and the platform list, whose `Update` performs the whole frame
    inline. It shares the constants, the rectangle geometry, the
    pre-collision phase and the collision responses with the layered copy,
    and differs from it in the vertical probe, the edge clamp and the
    fall-off reset. */
module FlatGame {
  import opened Geometry
  import opened World
  import opened Kinematics
  import opened FrameParts
  import LayeredGame

  /** The vertical probe of this copy: the box of the player moved by its
      vertical velocity only, so both its top and its bottom follow `vy`. */
  function ProbeY(b: Body): (r: Rect)
    ensures r.min == Point(Trunc(b.x), Trunc(b.y + b.vy))
    ensures r.max.x - r.min.x == Width && r.max.y - r.min.y == Height
  {
    var nextY := b.y + b.vy;
    MkRect(Trunc(b.x), Trunc(nextY), Trunc(b.x) + Width, Trunc(nextY) + Height)
  }

  /** The vertical probe is the current box of the vertically moved player. */
  lemma ProbeYIsMovedBox(b: Body)
    ensures ProbeY(b) == BoxOf(Moved(b).(x := b.x))
  {
  }

  /** The two copies' vertical probes share their top edge and their sides,
      but this copy's bottom edge lies lower by however far the truncated
      top has moved down. */
  lemma ProbeYVersusLayered(b: Body)
    requires b.vy <= MaxFallSpeed
    ensures ProbeY(b).min == NextBoxY(b).min
    ensures ProbeY(b).max.x == NextBoxY(b).max.x
    ensures ProbeY(b).max.y == NextBoxY(b).max.y + (Trunc(b.y + b.vy) - Trunc(b.y))
  {
  }

  /** The collision loops of this copy, in its own order: the horizontal
      loop, the horizontal commit, the vertical loop, the vertical commit. */
  function Interleaved(g: Body, boxY: Rect, ps: seq<Rect>): Body
  {
    var boxX := NextBoxX(g);
    var mx := AdvanceX(ResolveX(g, boxX, ps), FirstHit(boxX, ps).Some?);
    AdvanceY(ResolveY(mx, boxY, ps), FirstHit(boxY, ps).Some?)
  }

  /** Committing the horizontal move before the vertical loop gives the same
      state as committing both axes after both loops: the vertical response
      neither reads nor writes the horizontal fields. */
  lemma InterleavedIsCommitted(g: Body, boxY: Rect, ps: seq<Rect>)
    ensures Interleaved(g, boxY, ps) == Committed(g, boxY, ps)
  {
    var boxX := NextBoxX(g);
    var hitX := FirstHit(boxX, ps).Some?;
    var sx := ResolveX(g, boxX, ps);
    CommitIsBothAdvances(ResolveY(sx, boxY, ps), hitX, FirstHit(boxY, ps).Some?);
  }

  /** The screen-edge clamp of this copy: the player is put back on the edge
      it crossed, and its velocity is left as it was. */
  function EdgeClamp(s: Body): (r: Body)
    ensures 0.0 <= r.x <= (ScreenWidth - Width) as real
    ensures 0.0 <= s.x <= (ScreenWidth - Width) as real ==> r == s
    ensures s.x < 0.0 ==> r.x == 0.0
    ensures s.x > (ScreenWidth - Width) as real ==> r.x == (ScreenWidth - Width) as real
    ensures r.y == s.y && r.vx == s.vx && r.vy == s.vy && r.onGround == s.onGround
  {
    if s.x < 0.0 then s.(x := 0.0)
    else if s.x + Width as real > ScreenWidth as real then s.(x := (ScreenWidth - Width) as real)
    else s
  }

  /** The fall-off reset of this copy: position back at the start and
      vertical motion stopped, horizontal speed and ground flag kept. */
  function FallReset(s: Body): (r: Body)
    ensures r.x == StartX && r.y == StartY && r.vy == 0.0
  {
    s.(x := 100.0, y := 100.0, vy := 0.0)
  }

  /** This copy's reset is the start state except that it keeps the
      horizontal speed and the ground flag; resetting twice is resetting
      once. */
  lemma FallResetKeeps(s: Body)
    ensures FallReset(s) == Start().(vx := s.vx, onGround := s.onGround)
    ensures FallReset(FallReset(s)) == FallReset(s)
  {
  }

  /** One frame: input, gravity, ground flag cleared, both probes from the
      start-of-frame position, the horizontal loop and commit, the vertical
      loop and commit, the edge clamp, and the reset when the player has
      fallen below the screen. */
  function Step(b: Body, left: bool, right: bool, jumpJustPressed: bool, ps: seq<Rect>): Body
  {
    var g := Prepared(b, left, right, jumpJustPressed);
    var e := EdgeClamp(Interleaved(g, ProbeY(g), ps));
    if e.y > ScreenHeight as real then FallReset(e) else e
  }

  /** `Step` through the intermediate states of a frame, as `Update` reaches
      them one after the other. */
  lemma StepFrom(b: Body, left: bool, right: bool, jumpJustPressed: bool, ps: seq<Rect>,
                 g: Body, hitX: bool, mx: Body, hitY: bool, c: Body, e: Body)
    requires g == Prepared(b, left, right, jumpJustPressed)
    requires hitX == FirstHit(NextBoxX(g), ps).Some? && mx == AdvanceX(ResolveX(g, NextBoxX(g), ps), hitX)
    requires hitY == FirstHit(ProbeY(g), ps).Some? && c == AdvanceY(ResolveY(mx, ProbeY(g), ps), hitY)
    requires e == EdgeClamp(c)
    ensures Step(b, left, right, jumpJustPressed, ps) == if e.y > ScreenHeight as real then FallReset(e) else e
  {
  }

  /** After every frame the player is within the screen's width and its
      vertical speed is within the cap. */
  lemma StepBounds(b: Body, left: bool, right: bool, jumpJustPressed: bool, ps: seq<Rect>)
    ensures var r := Step(b, left, right, jumpJustPressed, ps);
            0.0 <= r.x <= (ScreenWidth - Width) as real && r.vy <= MaxFallSpeed
  {
    var g := Prepared(b, left, right, jumpJustPressed);
    InterleavedIsCommitted(g, ProbeY(g), ps);
    CommittedFallSpeed(g, ProbeY(g), ps);
  }

  /** Neither the edge clamp nor the fall-off reset changes the horizontal
      speed: it is the one the collision loops left. */
  lemma StepKeepsVx(b: Body, left: bool, right: bool, jumpJustPressed: bool, ps: seq<Rect>)
    ensures var g := Prepared(b, left, right, jumpJustPressed);
            Step(b, left, right, jumpJustPressed, ps).vx == Committed(g, ProbeY(g), ps).vx
  {
    var g := Prepared(b, left, right, jumpJustPressed);
    InterleavedIsCommitted(g, ProbeY(g), ps);
  }

  /** A player whose committed position is below the screen ends the frame
      reset; otherwise the frame ends with the clamped position. */
  lemma StepFallOff(b: Body, left: bool, right: bool, jumpJustPressed: bool, ps: seq<Rect>)
    ensures var g := Prepared(b, left, right, jumpJustPressed);
            var c := Committed(g, ProbeY(g), ps);
            var r := Step(b, left, right, jumpJustPressed, ps);
            (c.y > ScreenHeight as real ==> r == FallReset(EdgeClamp(c))) &&
            (c.y <= ScreenHeight as real ==> r == EdgeClamp(c))
  {
    var g := Prepared(b, left, right, jumpJustPressed);
    InterleavedIsCommitted(g, ProbeY(g), ps);
  }

  /** The ground flag at the end of a frame: set exactly when the vertical
      probe hit a platform while falling, whether or not the player was then
      reset. */
  lemma StepGround(b: Body, left: bool, right: bool, jumpJustPressed: bool, ps: seq<Rect>)
    ensures var g := Prepared(b, left, right, jumpJustPressed);
            Step(b, left, right, jumpJustPressed, ps).onGround <==>
              FirstHit(ProbeY(g), ps).Some? && g.vy > 0.0
  {
    var g := Prepared(b, left, right, jumpJustPressed);
    InterleavedIsCommitted(g, ProbeY(g), ps);
    CommittedGround(g, ProbeY(g), ps);
  }

  /** From the start state, one frame with no key pressed. */
  lemma IdleFrameFromStart()
    ensures Step(Start(), false, false, false, Platforms()) == Body(100.0, 100.4, 0.0, 0.4, false)
  {
    PlatformsAre();
    var g := Prepared(Start(), false, false, false);
    assert g == Body(100.0, 100.0, 0.0, 0.4, false);
    assert NextBoxX(g) == Rect(Point(100, 100), Point(116, 132));
    assert ProbeY(g) == Rect(Point(100, 100), Point(116, 132));
  }

  /** A player falling at full speed whose moved box reaches into the floor
      is snapped onto the floor and stands. */
  lemma LandsOnFloor()
    ensures Step(Body(100.0, 439.0, 0.0, MaxFallSpeed, false), false, false, false, Platforms())
         == Body(100.0, 408.0, 0.0, 0.0, true)
  {
    PlatformsAre();
    var g := Prepared(Body(100.0, 439.0, 0.0, MaxFallSpeed, false), false, false, false);
    assert g == Body(100.0, 439.0, 0.0, MaxFallSpeed, false);
    assert NextBoxX(g) == Rect(Point(100, 439), Point(116, 471));
    assert FirstHit(NextBoxX(g), Platforms()) == Some(0);
    assert ProbeY(g) == Rect(Point(100, 447), Point(116, 479));
    assert FirstHit(ProbeY(g), Platforms()) == Some(0);
  }

  /** The vertical probes differ: a player falling at full speed eight
      pixels above the floor lands in this copy, whose probe reaches into the
      floor, but keeps falling in the layered copy, whose probe stops at the
      player's current bottom edge. */
  lemma CopiesDifferOnLanding()
    ensures Step(Body(100.0, 405.0, 0.0, MaxFallSpeed, false), false, false, false, Platforms())
         == Body(100.0, 408.0, 0.0, 0.0, true)
    ensures LayeredGame.Step(Body(100.0, 405.0, 0.0, MaxFallSpeed, false), false, false, false, Platforms())
         == Body(100.0, 413.0, 0.0, MaxFallSpeed, false)
  {
    PlatformsAre();
    var g := Prepared(Body(100.0, 405.0, 0.0, MaxFallSpeed, false), false, false, false);
    assert g == Body(100.0, 405.0, 0.0, MaxFallSpeed, false);
    assert NextBoxX(g) == Rect(Point(100, 405), Point(116, 437));
    assert ProbeY(g) == Rect(Point(100, 413), Point(116, 445));
    assert FirstHit(ProbeY(g), Platforms()) == Some(0);
    LayeredGame.NearFloorFallsOn();
  }

  /** The edge clamps differ: walking right into the right edge, the player
      is put back on the edge in both copies, but only the layered copy stops
      its horizontal motion. */
  lemma CopiesDifferOnClamp()
    ensures Step(Body(623.0, 100.0, 0.0, 0.0, false), false, true, false, Platforms())
         == Body(624.0, 100.4, MoveSpeed, 0.4, false)
    ensures LayeredGame.Step(Body(623.0, 100.0, 0.0, 0.0, false), false, true, false, Platforms())
         == Body(624.0, 100.4, 0.0, 0.4, false)
  {
    PlatformsAre();
    var g := Prepared(Body(623.0, 100.0, 0.0, 0.0, false), false, true, false);
    assert g == Body(623.0, 100.0, MoveSpeed, 0.4, false);
    assert NextBoxX(g) == Rect(Point(626, 100), Point(642, 132));
    assert ProbeY(g) == Rect(Point(623, 100), Point(639, 132));
    assert NextBoxY(g) == Rect(Point(623, 100), Point(639, 132));
  }

  /** The fall-off resets differ: a player walking right below the floor is
      reset in both copies, but only the layered copy stops its horizontal
      motion. */
  lemma CopiesDifferOnFallOff()
    ensures Step(Body(100.0, 500.0, 0.0, 0.0, false), false, true, false, Platforms())
         == Body(100.0, 100.0, MoveSpeed, 0.0, false)
    ensures LayeredGame.Step(Body(100.0, 500.0, 0.0, 0.0, false), false, true, false, Platforms())
         == Start()
  {
    PlatformsAre();
    var g := Prepared(Body(100.0, 500.0, 0.0, 0.0, false), false, true, false);
    assert g == Body(100.0, 500.0, MoveSpeed, 0.4, false);
    assert NextBoxX(g) == Rect(Point(103, 500), Point(119, 532));
    assert ProbeY(g) == Rect(Point(100, 500), Point(116, 532));
    assert NextBoxY(g) == Rect(Point(100, 500), Point(116, 532));
  }

  class Game {
    var player: Player
    var platforms: seq<Rect>

    /** `NewGame`: the player at (100, 100) at rest and the level's four
        platforms, written out here as the same literal as the layered
        copy's catalog. */
    constructor ()
      ensures fresh(player)
      ensures player.State() == Start() && platforms == Platforms()
    {
      player := new Player();
      platforms := [
        MkRect(0, ScreenHeight - 40, ScreenWidth, ScreenHeight),
        MkRect(200, ScreenHeight - 100, 300, ScreenHeight - 80),
        MkRect(400, ScreenHeight - 180, 500, ScreenHeight - 160),
        MkRect(50, ScreenHeight - 260, 150, ScreenHeight - 240)
      ];
    }

    /** One frame, with the keyboard state as parameters. The input and
        gravity statements of this copy are those of the player's
        `HandleInput` and `ApplyGravity`, which are called here. */
    method Update(left: bool, right: bool, jumpJustPressed: bool)
      modifies player
      ensures platforms == old(platforms)
      ensures player.State() == Step(old(player.State()), left, right, jumpJustPressed, platforms)
    {
      ghost var b := player.State();
      player.HandleInput(left, right, jumpJustPressed);
      player.ApplyGravity();
      player.OnGround := false;
      ghost var g := player.State();
      assert g == Prepared(b, left, right, jumpJustPressed);

      var nextX := player.X + player.Vx;
      var nextY := player.Y + player.Vy;
      var nextRectX := MkRect(Trunc(nextX), Trunc(player.Y), Trunc(nextX) + Width, Trunc(player.Y) + Height);
      var nextRectY := MkRect(Trunc(player.X), Trunc(nextY), Trunc(player.X) + Width, Trunc(nextY) + Height);
      assert nextRectX == NextBoxX(g);
      assert nextRectY == ProbeY(g);

      var collidedX := CheckHorizontal(nextRectX);
      ghost var mx := player.State();
      var collidedY := CheckVertical(nextRectY);
      ghost var c := player.State();

      // screen edges
      if player.X < 0.0 {
        player.X := 0.0;
      } else if player.X + Width as real > ScreenWidth as real {
        player.X := (ScreenWidth - Width) as real;
      }
      ghost var e := player.State();
      assert e == EdgeClamp(c);
      // fall-off reset
      if player.Y > ScreenHeight as real {
        player.X := 100.0;
        player.Y := 100.0;
        player.Vy := 0.0;
      }
      StepFrom(b, left, right, jumpJustPressed, platforms, g, collidedX, mx, collidedY, c, e);
    }

    /** The horizontal loop of `Update` and the horizontal commit after it:
        the first platform in list order that overlaps the horizontal probe
        stops the player horizontally; otherwise the player moves. */
    method CheckHorizontal(nextRectX: Rect) returns (collidedX: bool)
      modifies player
      ensures collidedX == FirstHit(nextRectX, platforms).Some?
      ensures player.State() == AdvanceX(ResolveX(old(player.State()), nextRectX, platforms), collidedX)
    {
      ghost var g := player.State();
      collidedX := false;
      var i := 0;
      while i < |platforms|
        invariant 0 <= i <= |platforms|
        invariant player.State() == g
        invariant forall j :: 0 <= j < i ==> !Overlaps(nextRectX, platforms[j])
      {
        if Overlaps(nextRectX, platforms[i]) {
          player.Vx := 0.0;
          collidedX := true;
          break;
        }
        i := i + 1;
      }
      ScanExit(nextRectX, platforms, i, collidedX);
      if !collidedX {
        player.X := player.X + player.Vx;
      }
    }

    /** The vertical loop of `Update` and the vertical commit after it: the
        first platform in list order that overlaps the vertical probe snaps
        the player onto or under it; otherwise the player moves. */
    method CheckVertical(nextRectY: Rect) returns (collidedY: bool)
      modifies player
      ensures collidedY == FirstHit(nextRectY, platforms).Some?
      ensures player.State() == AdvanceY(ResolveY(old(player.State()), nextRectY, platforms), collidedY)
    {
      ghost var mx := player.State();
      collidedY := false;
      var i := 0;
      while i < |platforms|
        invariant 0 <= i <= |platforms|
        invariant player.State() == mx
        invariant forall j :: 0 <= j < i ==> !Overlaps(nextRectY, platforms[j])
      {
        if Overlaps(nextRectY, platforms[i]) {
          if player.Vy > 0.0 {
            player.Y := (platforms[i].min.y - Height) as real;
            player.OnGround := true;
          } else if player.Vy < 0.0 {
            player.Y := platforms[i].max.y as real;
          }
          player.Vy := 0.0;
          collidedY := true;
          break;
        }
        i := i + 1;
      }
      ScanExit(nextRectY, platforms, i, collidedY);
      if !collidedY {
        player.Y := player.Y + player.Vy;
      }
    }
  }
}
