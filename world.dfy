/** The level: screen size and the fixed, ordered platform catalog. */
module World {
  import opened Geometry

  const ScreenWidth: int := 640
  const ScreenHeight: int := 480

  /** `GetInitialPlatforms`: the floor, then three ledges, in this order. */
  function Platforms(): (ps: seq<Rect>)
    ensures |ps| == 4
  {
    [ MkRect(0, ScreenHeight - 40, ScreenWidth, ScreenHeight),   // floor
      MkRect(200, ScreenHeight - 100, 300, ScreenHeight - 80),
      MkRect(400, ScreenHeight - 180, 500, ScreenHeight - 160),
      MkRect(50, ScreenHeight - 260, 150, ScreenHeight - 240) ]
  }

  /** The catalog, corner by corner. */
  lemma PlatformsAre()
    ensures Platforms() == [ Rect(Point(0, 440), Point(640, 480)),
                             Rect(Point(200, 380), Point(300, 400)),
                             Rect(Point(400, 300), Point(500, 320)),
                             Rect(Point(50, 220), Point(150, 240)) ]
  {
  }

  /** Every platform holds at least one point. */
  lemma PlatformsNonEmpty()
    ensures forall i :: 0 <= i < |Platforms()| ==>
      Platforms()[i].min.x < Platforms()[i].max.x && Platforms()[i].min.y < Platforms()[i].max.y
  {
    PlatformsAre();
  }

  /** Every platform lies on the screen. */
  lemma PlatformsOnScreen()
    ensures forall i :: 0 <= i < |Platforms()| ==>
      0 <= Platforms()[i].min.x && Platforms()[i].max.x <= ScreenWidth &&
      0 <= Platforms()[i].min.y && Platforms()[i].max.y <= ScreenHeight
  {
    PlatformsAre();
  }

  /** No two distinct platforms overlap. */
  lemma PlatformsDisjoint()
    ensures forall i, j :: 0 <= i < j < |Platforms()| ==> !Overlaps(Platforms()[i], Platforms()[j])
  {
    PlatformsAre();
  }

  /** The floor spans the whole screen width, and every platform is at least
      20 pixels thick. */
  lemma FloorAndThickness()
    ensures Platforms()[0].min.x == 0 && Platforms()[0].max.x == ScreenWidth
    ensures Platforms()[0].max.y == ScreenHeight
    ensures forall i :: 0 <= i < |Platforms()| ==> Platforms()[i].max.y - Platforms()[i].min.y >= 20
  {
    PlatformsAre();
  }
}
