/** The plain values the display-manager server works with: identifiers, points,
    rotations, orientations and screen modes. */
module DmTypes {

  datatype Option<+T> = None | Some(value: T)

  /** SCREEN_ID_INVALID is the all-ones 64-bit id, written -1ULL in the source; ids handed out
      by the id manager are natural numbers. */
  type ScreenId = int
  const SCREEN_ID_INVALID: ScreenId := -1

  type DisplayId = nat
  type AgentId = nat

  datatype Point = Point(x: int, y: int)
  const ORIGIN := Point(0, 0)

  datatype Mode = Mode(width: nat, height: nat)

  datatype ScreenType = REAL | VIRTUAL | UNDEFINED

  /** The only two combinations a group of this controller is ever given. */
  datatype Combination = SCREEN_MIRROR | SCREEN_EXPAND

  datatype Rotation = ROTATION_0 | ROTATION_90 | ROTATION_180 | ROTATION_270

  predicate IsVertical(r: Rotation) {
    r == ROTATION_0 || r == ROTATION_180
  }

  /** Quarter turns. */
  function Quarters(r: Rotation): nat {
    match r
    case ROTATION_0 => 0
    case ROTATION_90 => 1
    case ROTATION_180 => 2
    case ROTATION_270 => 3
  }

  /** OTHER stands for the sensor-related, locked and user orientations, which CalcRotation
      does not distinguish. */
  datatype Orientation =
    | UNSPECIFIED
    | VERTICAL
    | HORIZONTAL
    | REVERSE_VERTICAL
    | REVERSE_HORIZONTAL
    | OTHER(code: nat)

  function CalcRotation(mode: Option<Mode>, orientation: Orientation): Rotation {
    match mode
    case None => ROTATION_0
    case Some(m) =>
      var isVerticalScreen := m.width < m.height;
      match orientation
      case UNSPECIFIED => ROTATION_0
      case VERTICAL => if isVerticalScreen then ROTATION_0 else ROTATION_90
      case HORIZONTAL => if isVerticalScreen then ROTATION_90 else ROTATION_0
      case REVERSE_VERTICAL => if isVerticalScreen then ROTATION_180 else ROTATION_270
      case REVERSE_HORIZONTAL => if isVerticalScreen then ROTATION_270 else ROTATION_180
      case OTHER(_) => ROTATION_0
  }

  /** The extent of a mode along the x axis once the screen is rotated. */
  function RotatedWidth(m: Mode, r: Rotation): nat {
    if IsVertical(r) then m.width else m.height
  }

  function RotatedHeight(m: Mode, r: Rotation): nat {
    if IsVertical(r) then m.height else m.width
  }

  predicate Upright(o: Orientation) {
    o.VERTICAL? || o.REVERSE_VERTICAL?
  }

  predicate Sideways(o: Orientation) {
    o.HORIZONTAL? || o.REVERSE_HORIZONTAL?
  }

  /** What a rotation has to be for an orientation: an upright orientation shows the panel taller than wide, a
      sideways one wider than tall, and a square panel counts as a wide one; a plain orientation takes less than two
      quarter turns, a reverse one two or three; any other orientation, or no mode, takes none. */
  predicate Suits(r: Rotation, mode: Option<Mode>, o: Orientation) {
    if mode.None? || !(Upright(o) || Sideways(o)) then Quarters(r) == 0
    else
      var m := mode.value;
      && (Quarters(r) >= 2 <==> o.REVERSE_VERTICAL? || o.REVERSE_HORIZONTAL?)
      && (if m.width == m.height then IsVertical(r) <==> Sideways(o)
          else RotatedHeight(m, r) > RotatedWidth(m, r) <==> Upright(o))
  }

  /** CalcRotation finds the only rotation that suits. */
  lemma OnlySuits(r: Rotation, mode: Option<Mode>, o: Orientation)
    ensures Suits(r, mode, o) <==> r == CalcRotation(mode, o)
  {
  }

  /** The reverse of a plain orientation is two quarter turns away from it. */
  lemma ReverseSuits(r: Rotation, s: Rotation, mode: Option<Mode>)
    requires mode.Some?
    ensures Suits(r, mode, VERTICAL) && Suits(s, mode, REVERSE_VERTICAL) ==> Quarters(s) == Quarters(r) + 2
    ensures Suits(r, mode, HORIZONTAL) && Suits(s, mode, REVERSE_HORIZONTAL) ==> Quarters(s) == Quarters(r) + 2
  {
  }

  lemma Pick<T>(s: set<T>) returns (x: T)
    requires s != {}
    ensures x in s
  {
    x :| x in s;
  }

  predicate IsLeast(s: set<int>, m: int) {
    m in s && forall x :: x in s ==> m <= x
  }

  lemma {:induction false} LeastExists(s: set<int>)
    requires s != {}
    ensures exists m :: IsLeast(s, m)
  {
    var y := Pick(s);
    var rest := s - {y};
    if rest == {} {
      assert forall x :: x in s ==> x == y || x in rest;
      assert IsLeast(s, y);
    } else {
      LeastExists(rest);
      var m :| IsLeast(rest, m);
      assert forall x :: x in s ==> x == y || x in rest;
      assert IsLeast(s, if y < m then y else m);
    }
  }

  function Least(s: set<int>): (m: int)
    requires s != {}
    ensures IsLeast(s, m)
  {
    LeastExists(s);
    var m :| IsLeast(s, m);
    m
  }

  /** A finite set of ids, listed in increasing order: how a std::map is traversed. */
  function Ascending(s: set<int>): (r: seq<int>)
    ensures forall x :: x in r <==> x in s
    ensures forall i, j :: 0 <= i < j < |r| ==> r[i] < r[j]
    ensures |r| == |s|
  {
    if s == {} then []
    else
      var m := Least(s);
      assert forall x :: x in s <==> x == m || x in s - {m};
      [m] + Ascending(s - {m})
  }
}
