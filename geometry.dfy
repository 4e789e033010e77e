/** Map locations, the eight facing directions and Chebyshev distance, as the
    dungeon geometry library provides them to the battle events. */
module Geometry {

  /** A tile location or an offset between tiles; y grows downwards. */
  datatype Loc = Loc(x: int, y: int) {

    function Plus(o: Loc): Loc { Loc(x + o.x, y + o.y) }

    function Minus(o: Loc): Loc { Loc(x - o.x, y - o.y) }

    function Times(k: int): Loc { Loc(x * k, y * k) }
  }

  function Abs(n: int): nat { if n < 0 then -n else n }

  /** `Loc.Dist8`: the number of king moves an offset spans. */
  function Dist8(d: Loc): (r: nat)
    ensures Abs(d.x) <= r && Abs(d.y) <= r
    ensures r == Abs(d.x) || r == Abs(d.y)
  {
    if Abs(d.x) < Abs(d.y) then Abs(d.y) else Abs(d.x)
  }

  /** Two tiles are within one step of each other exactly when they touch,
      diagonals included. */
  lemma Dist8AtMostOne(a: Loc, b: Loc)
    ensures Dist8(a.Minus(b)) <= 1 <==> (-1 <= a.x - b.x <= 1 && -1 <= a.y - b.y <= 1)
  {
  }

  /** The eight compass directions and "no direction". */
  datatype Dir8 = None | Down | DownLeft | Left | UpLeft | Up | UpRight | Right | DownRight

  /** `Dir8.GetLoc`: the unit step a direction points along. */
  function DirLoc(d: Dir8): (r: Loc)
    ensures Dist8(r) <= 1
    ensures r == Loc(0, 0) <==> d == Dir8.None
  {
    match d
    case None => Loc(0, 0)
    case Down => Loc(0, 1)
    case DownLeft => Loc(-1, 1)
    case Left => Loc(-1, 0)
    case UpLeft => Loc(-1, -1)
    case Up => Loc(0, -1)
    case UpRight => Loc(1, -1)
    case Right => Loc(1, 0)
    case DownRight => Loc(1, 1)
  }

  /** Different directions step to different neighbours. */
  lemma DirLocInjective(d1: Dir8, d2: Dir8)
    ensures DirLoc(d1) == DirLoc(d2) ==> d1 == d2
  {
  }
}
