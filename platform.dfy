/** Level geometry (src/platform.py): a fixed box plus the fields the glitch
    engine changes in place. */
module Platforms {
  import opened Geometry

  /** The mutable part of a platform, as a value. */
  datatype PlatformRec = PlatformRec(alpha: int, disappearing: bool, solid: bool)

  class Platform {
    const rect: Rect
    var alpha: int
    var disappearing: bool
    var solid: bool

    function Rec(): PlatformRec
      reads this
    {
      PlatformRec(alpha, disappearing, solid)
    }

    constructor (x: int, y: int, width: int, height: int)
      ensures rect == Rect(x, y, width, height)
      ensures alpha == 255 && !disappearing && solid
    {
      rect := Rect(x, y, width, height);
      alpha := 255;
      disappearing := false;
      solid := true;
    }

    /** Platform.update is a placeholder that changes nothing. */
    method Update()
      modifies this
      ensures unchanged(this)
    {
    }
  }

  /** The boxes of a list of platforms. */
  function RectsOf(ps: seq<Platform>): seq<Rect>
  {
    seq(|ps|, i requires 0 <= i < |ps| => ps[i].rect)
  }

  /** [p for p in platforms if p.solid], in the same order. */
  function SolidOf(ps: seq<Platform>): seq<Platform>
    reads ps
  {
    if ps == [] then []
    else (if ps[0].solid then [ps[0]] else []) + SolidOf(ps[1..])
  }

  /** The solid platforms are exactly those of the list whose solid flag is set. */
  lemma {:induction false} SolidOfExactly(ps: seq<Platform>)
    ensures var r := SolidOf(ps);
            |r| <= |ps| &&
            (forall i :: 0 <= i < |r| ==> r[i] in ps && r[i].solid) &&
            (forall i :: 0 <= i < |ps| && ps[i].solid ==> ps[i] in r)
  {
    if ps != [] {
      SolidOfExactly(ps[1..]);
      forall i | 1 <= i < |ps|
        ensures ps[i] == ps[1..][i - 1]
      {
      }
    }
  }

  /** The mutable parts of a list of platforms. */
  function Recs(ps: seq<Platform>): seq<PlatformRec>
    reads ps
  {
    seq(|ps|, i reads ps requires 0 <= i < |ps| => ps[i].Rec())
  }

  /** What an enemy sees of each platform: its box and whether it is solid. */
  function Footings(ps: seq<Platform>): seq<(Rect, bool)>
    reads ps
  {
    seq(|ps|, i reads ps requires 0 <= i < |ps| => (ps[i].rect, ps[i].solid))
  }

  predicate Distinct(ps: seq<Platform>)
  {
    forall i, j :: 0 <= i < j < |ps| ==> ps[i] != ps[j]
  }
}
