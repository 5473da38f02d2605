/** The optional value used where the source holds a pointer that may be null. */
module Wrappers {
  datatype Option<+T> = None | Some(value: T)
}

/** Static platforms: an immutable rectangle each, and the level's list. */
module Platforms {
  import opened Geometry

  /** A platform holds one rectangle, written only when it is built. */
  datatype Platform = Platform(rect: Rect) {
    /** getRect hands back the stored rectangle as it is. */
    function GetRect(): (r: Rect)
      ensures r == rect
    {
      rect
    }
  }

  /** Platform(x, y, width, height): stores the four numbers in that order and
      accepts any of them, zero or negative sizes included. */
  function NewPlatform(x: int, y: int, width: int, height: int): (p: Platform)
    ensures p.GetRect().x == x && p.GetRect().y == y
    ensures p.GetRect().w == width && p.GetRect().h == height
  {
    Platform(Rect(x, y, width, height))
  }

  /** The platforms that Game::init pushes, in order: the ground and three ledges. */
  function Level(): (ps: seq<Platform>)
    ensures |ps| == 4
    ensures ps[0].GetRect() == Rect(0, 550, 800, 50)
    ensures ps[1].GetRect() == Rect(100, 400, 200, 20)
    ensures ps[2].GetRect() == Rect(400, 300, 200, 20)
    ensures ps[3].GetRect() == Rect(200, 200, 200, 20)
  {
    [NewPlatform(0, 550, 800, 50),
     NewPlatform(100, 400, 200, 20),
     NewPlatform(400, 300, 200, 20),
     NewPlatform(200, 200, 200, 20)]
  }

  /** Every platform of the level is non-empty and at least `minWidth` wide
      for any `minWidth` up to 200 (the narrowest ledge). */
  lemma LevelPlatformsAreWide(minWidth: int)
    requires minWidth <= 200
    ensures forall i :: 0 <= i < |Level()| ==>
      !IsEmpty(Level()[i].GetRect()) && Level()[i].GetRect().w >= minWidth
  {
  }
}
