/** The pieces of the frame step that both copies of it share: the phase
    before collision (input, gravity, clearing the ground flag), the
    first-match scan of the platform list, the two collision responses and
    the per-axis commit of the position. */
module FrameParts {
  import opened Geometry
  import opened Kinematics

  /** Input, then gravity, then the ground flag cleared: the state the two
      probes and both collision loops start from. */
  function Prepared(b: Body, left: bool, right: bool, jumpJustPressed: bool): Body
  {
    var s := WithGravity(WithInput(b, left, right, jumpJustPressed));
    s.(onGround := false)
  }

  /** The jump guard reads the ground flag the frame started with, and the
      ground flag is always clear once the frame reaches its collision loops. */
  lemma PreparedJump(b: Body, left: bool, right: bool, jumpJustPressed: bool)
    ensures var r := Prepared(b, left, right, jumpJustPressed);
            !r.onGround && r.x == b.x && r.y == b.y &&
            (jumpJustPressed && b.onGround ==> r.vy == -JumpPower + Gravity) &&
            (!(jumpJustPressed && b.onGround) && b.vy + Gravity <= MaxFallSpeed ==> r.vy == b.vy + Gravity)
  {
  }

  /** When the player is airborne at the start of the frame, whether jump was
      just pressed makes no difference. */
  lemma NoJumpInAir(b: Body, left: bool, right: bool)
    requires !b.onGround
    ensures Prepared(b, left, right, true) == Prepared(b, left, right, false)
  {
  }

  /** The index of the first platform, in list order, that overlaps `box`:
      a `for range` loop over the list that stops at the first hit. */
  function FirstHit(box: Rect, ps: seq<Rect>): (r: Option<nat>)
    ensures r.Some? ==> r.value < |ps| && Overlaps(box, ps[r.value])
    ensures r.Some? ==> forall j :: 0 <= j < r.value ==> !Overlaps(box, ps[j])
    ensures r.None? <==> forall j :: 0 <= j < |ps| ==> !Overlaps(box, ps[j])
  {
    if ps == [] then None
    else if Overlaps(box, ps[0]) then Some(0)
    else match FirstHit(box, ps[1..])
      case None => None
      case Some(k) => Some(k + 1)
  }

  /** How a scan that stopped at index `i` (having hit there, or having run
      off the end) relates to `FirstHit`. */
  lemma ScanExit(box: Rect, ps: seq<Rect>, i: int, hit: bool)
    requires 0 <= i <= |ps|
    requires forall j :: 0 <= j < i ==> !Overlaps(box, ps[j])
    requires hit ==> i < |ps| && Overlaps(box, ps[i])
    requires !hit ==> i == |ps|
    ensures hit == FirstHit(box, ps).Some?
    ensures hit ==> FirstHit(box, ps) == Some(i)
  {
  }

  /** The first platform decides, whatever the later ones are. */
  lemma FirstHitIgnoresLater(box: Rect, ps: seq<Rect>, qs: seq<Rect>)
    requires FirstHit(box, ps).Some?
    ensures FirstHit(box, ps + qs) == FirstHit(box, ps)
  {
    var k := FirstHit(box, ps).value;
    assert (ps + qs)[k] == ps[k];
    assert forall j :: 0 <= j < k ==> (ps + qs)[j] == ps[j];
  }

  /** The horizontal loop's response: stop horizontally on the first hit. */
  function ResolveX(s: Body, box: Rect, ps: seq<Rect>): (r: Body)
    ensures FirstHit(box, ps).Some? ==> r == StoppedX(s)
    ensures FirstHit(box, ps).None? ==> r == s
  {
    if FirstHit(box, ps).Some? then StoppedX(s) else s
  }

  /** The vertical loop's response: on the first hit, a falling player is
      snapped onto that platform's top edge, a rising one under its bottom
      edge; a player with no vertical speed is left as it is. */
  function ResolveY(s: Body, box: Rect, ps: seq<Rect>): (r: Body)
    ensures FirstHit(box, ps).None? ==> r == s
    ensures FirstHit(box, ps).Some? && s.vy > 0.0 ==>
              r == SnappedY(s, ps[FirstHit(box, ps).value].min.y as real)
    ensures FirstHit(box, ps).Some? && s.vy < 0.0 ==>
              r == SnappedY(s, ps[FirstHit(box, ps).value].max.y as real)
    ensures FirstHit(box, ps).Some? && s.vy == 0.0 ==> r == s
  {
    match FirstHit(box, ps)
    case None => s
    case Some(k) =>
      if s.vy > 0.0 then SnappedY(s, ps[k].min.y as real)
      else if s.vy < 0.0 then SnappedY(s, ps[k].max.y as real)
      else s
  }

  /** The horizontal commit: the player moves horizontally by one frame of
      velocity unless that axis collided. */
  function AdvanceX(s: Body, collided: bool): (r: Body)
    ensures collided ==> r == s
    ensures !collided ==> r == Moved(s).(y := s.y)
  {
    if collided then s else s.(x := s.x + s.vx)
  }

  /** The vertical commit: the player moves vertically by one frame of
      velocity unless that axis collided. */
  function AdvanceY(s: Body, collided: bool): (r: Body)
    ensures collided ==> r == s
    ensures !collided ==> r == Moved(s).(x := s.x)
  {
    if collided then s else s.(y := s.y + s.vy)
  }

  /** Both commits after both collision loops have run: each axis moves by
      its velocity only when that axis did not collide. */
  function Commit(s: Body, collidedX: bool, collidedY: bool): (r: Body)
    ensures r.x == if collidedX then s.x else s.x + s.vx
    ensures r.y == if collidedY then s.y else s.y + s.vy
    ensures r.vx == s.vx && r.vy == s.vy && r.onGround == s.onGround
  {
    s.(x := if collidedX then s.x else s.x + s.vx,
       y := if collidedY then s.y else s.y + s.vy)
  }

  /** Committing both axes at once is committing one after the other, and
      with no collision on either axis it is one frame of integration. */
  lemma CommitIsBothAdvances(s: Body, collidedX: bool, collidedY: bool)
    ensures Commit(s, collidedX, collidedY) == AdvanceY(AdvanceX(s, collidedX), collidedY)
    ensures !collidedX && !collidedY ==> Commit(s, collidedX, collidedY) == Moved(s)
  {
  }

  /** Both collision loops and the commit, from the prepared state `g`, with
      the horizontal probe `NextBoxX(g)` and the vertical probe `boxY` (the
      two copies of the frame step build that one differently). */
  function Committed(g: Body, boxY: Rect, ps: seq<Rect>): (r: Body)
    // horizontal axis
    ensures FirstHit(NextBoxX(g), ps).Some? ==> r.x == g.x && r.vx == 0.0
    ensures FirstHit(NextBoxX(g), ps).None? ==> r.x == g.x + g.vx && r.vx == g.vx
    // vertical axis
    ensures FirstHit(boxY, ps).None? ==>
              r.y == g.y + g.vy && r.vy == g.vy && r.onGround == g.onGround
    ensures FirstHit(boxY, ps).Some? ==> r.vy == 0.0
    ensures FirstHit(boxY, ps).Some? && g.vy > 0.0 ==>
              r.y + Height as real == ps[FirstHit(boxY, ps).value].min.y as real && r.onGround
    ensures FirstHit(boxY, ps).Some? && g.vy < 0.0 ==>
              r.y == ps[FirstHit(boxY, ps).value].max.y as real && r.onGround == g.onGround
    ensures FirstHit(boxY, ps).Some? && g.vy == 0.0 ==> r.y == g.y && r.onGround == g.onGround
  {
    var boxX := NextBoxX(g);
    var s := ResolveY(ResolveX(g, boxX, ps), boxY, ps);
    Commit(s, FirstHit(boxX, ps).Some?, FirstHit(boxY, ps).Some?)
  }

  /** The ground flag after the collision loops: set exactly when the vertical
      probe hit a platform while falling, given a prepared state. */
  lemma CommittedGround(g: Body, boxY: Rect, ps: seq<Rect>)
    requires !g.onGround
    ensures Committed(g, boxY, ps).onGround <==> FirstHit(boxY, ps).Some? && g.vy > 0.0
  {
  }

  /** The vertical speed after the collision loops never exceeds the
      fall-speed cap when the prepared state's does not. */
  lemma CommittedFallSpeed(g: Body, boxY: Rect, ps: seq<Rect>)
    requires g.vy <= MaxFallSpeed
    ensures Committed(g, boxY, ps).vy <= MaxFallSpeed
  {
  }
}
