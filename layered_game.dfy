/** The frame step of the layered copy: a `Game` holding a `Player` object
    and the platform catalog, whose `Update` calls the player's mutators in
    sequence and scans the platforms once per axis. */
module LayeredGame {
  import opened Geometry
  import opened World
  import opened Kinematics
  import opened FrameParts

  /** The screen-edge clamp of this copy: a player pushed off either side is
      put back on the edge and its horizontal motion stops. */
  function EdgeClamp(s: Body): (r: Body)
    ensures 0.0 <= r.x <= (ScreenWidth - Width) as real
    ensures 0.0 <= s.x <= (ScreenWidth - Width) as real ==> r == s
    ensures s.x < 0.0 ==> r.x == 0.0
    ensures s.x > (ScreenWidth - Width) as real ==> r.x == (ScreenWidth - Width) as real
    ensures !(0.0 <= s.x <= (ScreenWidth - Width) as real) ==> r.vx == 0.0
    ensures r.y == s.y && r.vy == s.vy && r.onGround == s.onGround
  {
    if s.x < 0.0 then s.(x := 0.0, vx := 0.0)
    else if s.x + Width as real > ScreenWidth as real then s.(x := (ScreenWidth - Width) as real, vx := 0.0)
    else s
  }

  /** One frame: input, gravity, ground flag cleared, both probes from the
      start-of-frame position, the two collision loops and commits, the edge
      clamp, and the reset when the player has fallen below the screen. */
  function Step(b: Body, left: bool, right: bool, jumpJustPressed: bool, ps: seq<Rect>): Body
  {
    var g := Prepared(b, left, right, jumpJustPressed);
    var e := EdgeClamp(Committed(g, NextBoxY(g), ps));
    if e.y > ScreenHeight as real then Start() else e
  }

  /** `Step` through the intermediate states of a frame, as `Update` reaches
      them one after the other. */
  lemma StepFrom(b: Body, left: bool, right: bool, jumpJustPressed: bool, ps: seq<Rect>,
                 g: Body, hitX: bool, sx: Body, hitY: bool, sy: Body, c: Body, e: Body)
    requires g == Prepared(b, left, right, jumpJustPressed)
    requires hitX == FirstHit(NextBoxX(g), ps).Some? && sx == ResolveX(g, NextBoxX(g), ps)
    requires hitY == FirstHit(NextBoxY(g), ps).Some? && sy == ResolveY(sx, NextBoxY(g), ps)
    requires c == Commit(sy, hitX, hitY) && e == EdgeClamp(c)
    ensures Step(b, left, right, jumpJustPressed, ps) == if e.y > ScreenHeight as real then Start() else e
  {
  }

  /** After every frame the player is within the screen's width and its
      vertical speed is within the cap. */
  lemma StepBounds(b: Body, left: bool, right: bool, jumpJustPressed: bool, ps: seq<Rect>)
    ensures var r := Step(b, left, right, jumpJustPressed, ps);
            0.0 <= r.x <= (ScreenWidth - Width) as real && r.vy <= MaxFallSpeed
  {
    var g := Prepared(b, left, right, jumpJustPressed);
    CommittedFallSpeed(g, NextBoxY(g), ps);
  }

  /** A player whose committed position lies beyond either side edge ends the
      frame with no horizontal speed. */
  lemma StepClampStops(b: Body, left: bool, right: bool, jumpJustPressed: bool, ps: seq<Rect>)
    ensures var g := Prepared(b, left, right, jumpJustPressed);
            var c := Committed(g, NextBoxY(g), ps);
            !(0.0 <= c.x <= (ScreenWidth - Width) as real) ==>
              Step(b, left, right, jumpJustPressed, ps).vx == 0.0
  {
  }

  /** A player whose committed position is below the screen ends the frame in
      the start state; otherwise the frame ends with the clamped position. */
  lemma StepFallOff(b: Body, left: bool, right: bool, jumpJustPressed: bool, ps: seq<Rect>)
    ensures var g := Prepared(b, left, right, jumpJustPressed);
            var c := Committed(g, NextBoxY(g), ps);
            var r := Step(b, left, right, jumpJustPressed, ps);
            (c.y > ScreenHeight as real ==> r == Start()) &&
            (c.y <= ScreenHeight as real ==> r == EdgeClamp(c))
  {
  }

  /** The ground flag at the end of a frame: set exactly when the vertical
      probe hit a platform while falling and the player was not reset. */
  lemma StepGround(b: Body, left: bool, right: bool, jumpJustPressed: bool, ps: seq<Rect>)
    ensures var g := Prepared(b, left, right, jumpJustPressed);
            var c := Committed(g, NextBoxY(g), ps);
            Step(b, left, right, jumpJustPressed, ps).onGround <==>
              FirstHit(NextBoxY(g), ps).Some? && g.vy > 0.0 && c.y <= ScreenHeight as real
  {
    var g := Prepared(b, left, right, jumpJustPressed);
    CommittedGround(g, NextBoxY(g), ps);
  }

  /** From the start state, one frame with no key pressed. */
  lemma IdleFrameFromStart()
    ensures Step(Start(), false, false, false, Platforms()) == Body(100.0, 100.4, 0.0, 0.4, false)
  {
    PlatformsAre();
    var g := Prepared(Start(), false, false, false);
    assert g == Body(100.0, 100.0, 0.0, 0.4, false);
    assert NextBoxX(g) == Rect(Point(100, 100), Point(116, 132));
    assert NextBoxY(g) == Rect(Point(100, 100), Point(116, 132));
  }

  /** A player falling at full speed whose box already reaches into the floor
      is snapped onto the floor and stands. */
  lemma LandsOnFloor()
    ensures Step(Body(100.0, 439.0, 0.0, MaxFallSpeed, false), false, false, false, Platforms())
         == Body(100.0, 408.0, 0.0, 0.0, true)
  {
    PlatformsAre();
    var g := Prepared(Body(100.0, 439.0, 0.0, MaxFallSpeed, false), false, false, false);
    assert g == Body(100.0, 439.0, 0.0, MaxFallSpeed, false);
    assert NextBoxX(g) == Rect(Point(100, 439), Point(116, 471));
    assert FirstHit(NextBoxX(g), Platforms()) == Some(0);
    assert NextBoxY(g) == Rect(Point(100, 447), Point(116, 471));
    assert FirstHit(NextBoxY(g), Platforms()) == Some(0);
  }

  /** A player standing exactly on the floor does not stay on the ground: its
      vertical probe only touches the floor's top edge, so it sinks by one
      frame of gravity and the ground flag is cleared. */
  lemma StandingSinks()
    ensures Step(Body(100.0, 408.0, 0.0, 0.0, true), false, false, false, Platforms())
         == Body(100.0, 408.4, 0.0, 0.4, false)
  {
    PlatformsAre();
    var g := Prepared(Body(100.0, 408.0, 0.0, 0.0, true), false, false, false);
    assert g == Body(100.0, 408.0, 0.0, Gravity, false);
    assert NextBoxX(g) == Rect(Point(100, 408), Point(116, 440));
    assert FirstHit(NextBoxX(g), Platforms()).None?;
    assert NextBoxY(g) == Rect(Point(100, 408), Point(116, 440));
    assert FirstHit(NextBoxY(g), Platforms()).None?;
  }

  /** A player falling at full speed eight pixels above the floor does not
      land: the vertical probe stops at the player's current bottom edge, so
      it does not reach the floor, and the player falls on. */
  lemma NearFloorFallsOn()
    ensures Step(Body(100.0, 405.0, 0.0, MaxFallSpeed, false), false, false, false, Platforms())
         == Body(100.0, 413.0, 0.0, MaxFallSpeed, false)
  {
    PlatformsAre();
    var g := Prepared(Body(100.0, 405.0, 0.0, MaxFallSpeed, false), false, false, false);
    assert g == Body(100.0, 405.0, 0.0, MaxFallSpeed, false);
    assert NextBoxX(g) == Rect(Point(100, 405), Point(116, 437));
    assert NextBoxY(g) == Rect(Point(100, 413), Point(116, 437));
  }

  /** Of two platforms that both meet the vertical probe, the one earlier in
      the list decides the landing, even where the later one is higher. */
  lemma FirstPlatformWins()
    ensures var floor := Rect(Point(0, 440), Point(640, 480));
            var higher := Rect(Point(0, 430), Point(640, 480));
            Step(Body(100.0, 439.0, 0.0, MaxFallSpeed, false), false, false, false, [floor, higher]).y == 408.0
  {
    var floor := Rect(Point(0, 440), Point(640, 480));
    var higher := Rect(Point(0, 430), Point(640, 480));
    var g := Prepared(Body(100.0, 439.0, 0.0, MaxFallSpeed, false), false, false, false);
    assert NextBoxY(g) == Rect(Point(100, 447), Point(116, 471));
    assert Overlaps(NextBoxY(g), floor);
  }

  class Game {
    var player: Player
    var platforms: seq<Rect>

    /** `NewGame`: a new player at its start state and the level's platforms. */
    constructor ()
      ensures fresh(player)
      ensures player.State() == Start() && platforms == Platforms()
    {
      player := new Player();
      platforms := Platforms();
    }

    /** The logical screen size, whatever the window size. */
    static function Layout(outsideWidth: int, outsideHeight: int): (size: (int, int))
      ensures size.0 == Platforms()[0].max.x && size.1 == Platforms()[0].max.y
    {
      (ScreenWidth, ScreenHeight)
    }

    /** One frame, with the keyboard state as parameters. */
    method Update(left: bool, right: bool, jumpJustPressed: bool)
      modifies player
      ensures platforms == old(platforms)
      ensures player.State() == Step(old(player.State()), left, right, jumpJustPressed, platforms)
    {
      ghost var b := player.State();
      player.HandleInput(left, right, jumpJustPressed);
      player.ApplyGravity();
      player.OnGround := false;
      ghost var g := player.State();
      assert g == Prepared(b, left, right, jumpJustPressed);

      var nextRectX := player.NextRectX();
      var nextRectY := player.NextRectY();

      var collidedX := CheckHorizontal(nextRectX);
      ghost var sx := player.State();
      var collidedY := CheckVertical(nextRectY);
      ghost var sy := player.State();

      if !collidedX {
        player.X := player.X + player.Vx;
      }
      if !collidedY {
        player.Y := player.Y + player.Vy;
      }
      ghost var c := player.State();

      if player.X < 0.0 {
        player.X := 0.0;
        player.Vx := 0.0;
      } else if player.X + Width as real > ScreenWidth as real {
        player.X := (ScreenWidth - Width) as real;
        player.Vx := 0.0;
      }
      ghost var e := player.State();

      if player.Y > ScreenHeight as real {
        player.ResetPosition();
      }
      StepFrom(b, left, right, jumpJustPressed, platforms, g, collidedX, sx, collidedY, sy, c, e);
    }

    /** The horizontal loop of `Update`: the first platform in list order
        that overlaps the horizontal probe stops the player horizontally. */
    method CheckHorizontal(nextRectX: Rect) returns (collidedX: bool)
      modifies player
      ensures collidedX == FirstHit(nextRectX, platforms).Some?
      ensures player.State() == ResolveX(old(player.State()), nextRectX, platforms)
    {
      ghost var g := player.State();
      collidedX := false;
      var i := 0;
      while i < |platforms|
        invariant 0 <= i <= |platforms|
        invariant player.State() == g
        invariant forall j :: 0 <= j < i ==> !Overlaps(nextRectX, platforms[j])
      {
        if Overlaps(nextRectX, platforms[i]) {
          player.HandleCollisionX();
          collidedX := true;
          break;
        }
        i := i + 1;
      }
      ScanExit(nextRectX, platforms, i, collidedX);
    }

    /** The vertical loop of `Update`: the first platform in list order that
        overlaps the vertical probe snaps the player onto or under it. */
    method CheckVertical(nextRectY: Rect) returns (collidedY: bool)
      modifies player
      ensures collidedY == FirstHit(nextRectY, platforms).Some?
      ensures player.State() == ResolveY(old(player.State()), nextRectY, platforms)
    {
      ghost var sx := player.State();
      collidedY := false;
      var i := 0;
      while i < |platforms|
        invariant 0 <= i <= |platforms|
        invariant player.State() == sx
        invariant forall j :: 0 <= j < i ==> !Overlaps(nextRectY, platforms[j])
      {
        if Overlaps(nextRectY, platforms[i]) {
          if player.Vy > 0.0 {
            player.HandleCollisionY(platforms[i].min.y as real);
          } else if player.Vy < 0.0 {
            player.HandleCollisionY(platforms[i].max.y as real);
          }
          collidedY := true;
          break;
        }
        i := i + 1;
      }
      ScanExit(nextRectY, platforms, i, collidedY);
    }
  }
}
