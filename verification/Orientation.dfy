/** imageproc/orientation.go: the eight orientations and the pixel loops that bake them in. */
module Orientation {

  /** A picture by rows, top row first. */
  datatype Picture<T> = Picture(width: nat, rows: seq<seq<T>>) {
    predicate Valid() { forall y | 0 <= y < |rows| :: |rows[y]| == width }
  }

  /** A way to turn a picture: mirror it across its main diagonal or not, then
      left to right or not, then top to bottom or not. */
  datatype Turn = Turn(swap: bool, flipX: bool, flipY: bool)

  const KEEP: Turn := Turn(false, false, false)

  /** What applyOrientation does for each value of the tag. */
  function TurnOf(o: int): Turn {
    match o
    case 2 => Turn(false, true, false)
    case 3 => Turn(false, true, true)
    case 4 => Turn(false, false, true)
    case 5 => Turn(true, false, false)
    case 6 => Turn(true, true, false)
    case 7 => Turn(true, true, true)
    case 8 => Turn(true, false, true)
    case _ => KEEP
  }

  function Width(t: Turn, w: nat, h: nat): nat { if t.swap then h else w }

  function Height(t: Turn, w: nat, h: nat): nat { if t.swap then w else h }

  predicate Inside(w: nat, h: nat, x: int, y: int) { 0 <= x < w && 0 <= y < h }

  /** Where the pixel at column x, row y of a w x h picture ends up. */
  function Lands(t: Turn, w: nat, h: nat, x: int, y: int): (r: (int, int))
    ensures Inside(w, h, x, y) ==> Inside(Width(t, w, h), Height(t, w, h), r.0, r.1)
  {
    var (x', y') := if t.swap then (y, x) else (x, y);
    (if t.flipX then Width(t, w, h) - 1 - x' else x', if t.flipY then Height(t, w, h) - 1 - y' else y')
  }

  /** Which pixel ends up at column x, row y. */
  function ComesFrom(t: Turn, w: nat, h: nat, x: int, y: int): (r: (int, int))
    ensures Inside(Width(t, w, h), Height(t, w, h), x, y) ==> Inside(w, h, r.0, r.1)
  {
    var x' := if t.flipX then Width(t, w, h) - 1 - x else x;
    var y' := if t.flipY then Height(t, w, h) - 1 - y else y;
    if t.swap then (y', x') else (x', y')
  }

  /** Every place of the turned picture is filled by exactly one pixel. */
  lemma FilledOnce(t: Turn, w: nat, h: nat, x: int, y: int, x': int, y': int)
    ensures Lands(t, w, h, x, y) == (x', y') <==> ComesFrom(t, w, h, x', y') == (x, y)
  {
  }

  function Apply<T>(t: Turn, p: Picture<T>): (r: Picture<T>)
    requires p.Valid()
    ensures r.Valid() && r.width == Width(t, p.width, |p.rows|) && |r.rows| == Height(t, p.width, |p.rows|)
  {
    var w, h := p.width, |p.rows|;
    Picture(Width(t, w, h),
      seq(Height(t, w, h), y requires 0 <= y < Height(t, w, h) =>
        seq(Width(t, w, h), x requires 0 <= x < Width(t, w, h) =>
          var (i, j) := ComesFrom(t, w, h, x, y); p.rows[j][i])))
  }

  lemma ApplyAt<T>(t: Turn, p: Picture<T>, x: int, y: int, i: int, j: int)
    requires p.Valid() && Inside(p.width, |p.rows|, i, j)
    requires ComesFrom(t, p.width, |p.rows|, x, y) == (i, j)
    requires Inside(Width(t, p.width, |p.rows|), Height(t, p.width, |p.rows|), x, y)
    ensures Apply(t, p).rows[y][x] == p.rows[j][i]
  {
  }

  lemma SamePicture<T>(p: Picture<T>, q: Picture<T>)
    requires p.Valid() && q.Valid() && p.width == q.width && |p.rows| == |q.rows|
    requires forall x, y | Inside(p.width, |p.rows|, x, y) :: p.rows[y][x] == q.rows[y][x]
    ensures p == q
  {
    forall y | 0 <= y < |p.rows|
      ensures p.rows[y] == q.rows[y]
    {
      assert forall x | 0 <= x < p.width :: Inside(p.width, |p.rows|, x, y);
    }
  }

  // ----- the eight orientations are a group -----

  function Xor(a: bool, b: bool): bool { if a then !b else b }

  /** Turning by s and then by t. */
  function After(t: Turn, s: Turn): Turn {
    Turn(Xor(t.swap, s.swap),
      Xor(t.flipX, if t.swap then s.flipY else s.flipX),
      Xor(t.flipY, if t.swap then s.flipX else s.flipY))
  }

  lemma SizeAfter(t: Turn, s: Turn, w: nat, h: nat)
    ensures Width(t, Width(s, w, h), Height(s, w, h)) == Width(After(t, s), w, h)
    ensures Height(t, Width(s, w, h), Height(s, w, h)) == Height(After(t, s), w, h)
  {
  }

  lemma ComesFromAfter(t: Turn, s: Turn, w: nat, h: nat, x: int, y: int)
    ensures var (i, j) := ComesFrom(t, Width(s, w, h), Height(s, w, h), x, y);
      ComesFrom(s, w, h, i, j) == ComesFrom(After(t, s), w, h, x, y)
  {
    SizeAfter(t, s, w, h);
    var (i, j) := ComesFrom(t, Width(s, w, h), Height(s, w, h), x, y);
    if t.swap {
      assert (i, j) == (if t.flipY then Height(t, Width(s, w, h), Height(s, w, h)) - 1 - y else y,
                        if t.flipX then Width(t, Width(s, w, h), Height(s, w, h)) - 1 - x else x);
    } else {
      assert (i, j) == (if t.flipX then Width(s, w, h) - 1 - x else x, if t.flipY then Height(s, w, h) - 1 - y else y);
    }
  }

  /** Turning twice is turning once, by the composite. */
  lemma ApplyAfter<T>(t: Turn, s: Turn, p: Picture<T>)
    requires p.Valid()
    ensures Apply(t, Apply(s, p)) == Apply(After(t, s), p)
  {
    var w, h := p.width, |p.rows|;
    var one, two := Apply(t, Apply(s, p)), Apply(After(t, s), p);
    SizeAfter(t, s, w, h);
    forall x, y | Inside(two.width, |two.rows|, x, y)
      ensures one.rows[y][x] == two.rows[y][x]
    {
      ComesFromAfter(t, s, w, h, x, y);
      var (i, j) := ComesFrom(t, Width(s, w, h), Height(s, w, h), x, y);
      var (i', j') := ComesFrom(s, w, h, i, j);
      ApplyAt(t, Apply(s, p), x, y, i, j);
      ApplyAt(s, p, i, j, i', j');
      ApplyAt(After(t, s), p, x, y, i', j');
    }
    SamePicture(one, two);
  }

  lemma ApplyKeep<T>(p: Picture<T>)
    requires p.Valid()
    ensures Apply(KEEP, p) == p
  {
    forall x, y | Inside(p.width, |p.rows|, x, y)
      ensures Apply(KEEP, p).rows[y][x] == p.rows[y][x]
    {
      ApplyAt(KEEP, p, x, y, x, y);
    }
    SamePicture(Apply(KEEP, p), p);
  }

  function TagOf(t: Turn): (o: int)
    ensures 1 <= o <= 8 && TurnOf(o) == t
  {
    match t
    case Turn(false, false, false) => 1
    case Turn(false, true, false) => 2
    case Turn(false, true, true) => 3
    case Turn(false, false, true) => 4
    case Turn(true, false, false) => 5
    case Turn(true, true, false) => 6
    case Turn(true, true, true) => 7
    case Turn(true, false, true) => 8
  }

  function Inverse(o: int): int { if o == 6 then 8 else if o == 8 then 6 else o }

  /** Two orientations in a row are always some one of the eight. */
  lemma Closed<T>(o1: int, o2: int, p: Picture<T>)
    requires p.Valid()
    ensures exists o | 1 <= o <= 8 :: Apply(TurnOf(o2), Apply(TurnOf(o1), p)) == Apply(TurnOf(o), p)
  {
    ApplyAfter(TurnOf(o2), TurnOf(o1), p);
    var o := TagOf(After(TurnOf(o2), TurnOf(o1)));
    assert Apply(TurnOf(o2), Apply(TurnOf(o1), p)) == Apply(TurnOf(o), p);
  }

  lemma InverseIsKeep(o1: int, o2: int)
    requires 1 <= o1 <= 8 && 1 <= o2 <= 8
    ensures After(TurnOf(o2), TurnOf(o1)) == KEEP <==> o2 == Inverse(o1)
  {
  }

  lemma InverseUndoes<T>(o: int, p: Picture<T>)
    requires p.Valid()
    ensures Apply(TurnOf(Inverse(o)), Apply(TurnOf(o), p)) == p
  {
    ApplyAfter(TurnOf(Inverse(o)), TurnOf(o), p);
    ApplyKeep(p);
  }

  /** Four different pixels: no turn but KEEP leaves them where they are. */
  const FOUR: Picture<int> := Picture(2, [[0, 1], [2, 3]])

  lemma TurnsFour(t: Turn)
    ensures FOUR.Valid() && (Apply(t, FOUR) == FOUR <==> t == KEEP)
  {
    ApplyKeep(FOUR);
    var (i, j) := ComesFrom(t, 2, 2, 0, 0);
    var (k, l) := ComesFrom(t, 2, 2, 1, 0);
    ApplyAt(t, FOUR, 0, 0, i, j);
    ApplyAt(t, FOUR, 1, 0, k, l);
    assert FOUR.rows[j][i] == i + 2 * j && FOUR.rows[l][k] == k + 2 * l;
  }

  /** Orientations 2, 3, 4, 5 and 7 undo themselves; 6 and 8 undo each other; and
      no other pairing of the eight undoes every picture. */
  lemma UndoneIff(o1: int, o2: int)
    requires 1 <= o1 <= 8 && 1 <= o2 <= 8
    ensures (forall p: Picture<int> | p.Valid() :: Apply(TurnOf(o2), Apply(TurnOf(o1), p)) == p) <==> o2 == Inverse(o1)
  {
    InverseIsKeep(o1, o2);
    if o2 == Inverse(o1) {
      forall p: Picture<int> | p.Valid()
        ensures Apply(TurnOf(o2), Apply(TurnOf(o1), p)) == p
      {
        InverseUndoes(o1, p);
      }
    } else {
      TurnsFour(After(TurnOf(o2), TurnOf(o1)));
      ApplyAfter(TurnOf(o2), TurnOf(o1), FOUR);
      assert FOUR.Valid() && Apply(TurnOf(o2), Apply(TurnOf(o1), FOUR)) != FOUR;
    }
  }

  /** Transverse is a half turn after a transposition, and three right turns are a left turn. */
  lemma Composites<T>(p: Picture<T>)
    requires p.Valid()
    ensures Apply(TurnOf(7), p) == Apply(TurnOf(3), Apply(TurnOf(5), p))
    ensures Apply(TurnOf(8), p) == Apply(TurnOf(6), Apply(TurnOf(6), Apply(TurnOf(6), p)))
    ensures Apply(TurnOf(3), p) == Apply(TurnOf(4), Apply(TurnOf(2), p))
  {
    ApplyAfter(TurnOf(3), TurnOf(5), p);
    ApplyAfter(TurnOf(6), TurnOf(6), p);
    ApplyAfter(TurnOf(6), TurnOf(3), p);
    ApplyAfter(TurnOf(4), TurnOf(2), p);
  }

  // ----- what the tag means -----

  datatype Side = Top | Bottom | Left | Right

  /** The Orientation field of TIFF 6.0 (section 8): the visual side that row 0
      and column 0 of the stored picture lie on. */
  function RowSide(o: int): Side
    requires 1 <= o <= 8
  {
    match o
    case 1 => Top
    case 2 => Top
    case 3 => Bottom
    case 4 => Bottom
    case 5 => Left
    case 6 => Right
    case 7 => Right
    case _ => Left
  }

  function ColumnSide(o: int): Side
    requires 1 <= o <= 8
  {
    match o
    case 1 => Left
    case 2 => Right
    case 3 => Right
    case 4 => Left
    case 5 => Top
    case 6 => Top
    case 7 => Bottom
    case _ => Bottom
  }

  /** How far column x, row y of a w x h picture is from a side. */
  function Distance(w: nat, h: nat, x: int, y: int, side: Side): int {
    match side
    case Top => y
    case Bottom => h - 1 - y
    case Left => x
    case Right => w - 1 - x
  }

  predicate Sideways(o: int)
    requires 1 <= o <= 8
  {
    RowSide(o).Left? || RowSide(o).Right?
  }

  /** The place at column x, row y is as far from the sides of row 0 and column 0
      as the stored pixel (i, j) is from that row and column. */
  predicate Corresponds(o: int, w: nat, h: nat, x: int, y: int, i: int, j: int)
    requires 1 <= o <= 8
  {
    Distance(w, h, x, y, RowSide(o)) == j && Distance(w, h, x, y, ColumnSide(o)) == i
  }

  /** `shown` is `stored` as the tag says it should look. */
  ghost predicate LooksRight<T>(o: int, stored: Picture<T>, shown: Picture<T>)
    requires 1 <= o <= 8 && stored.Valid() && shown.Valid()
  {
    && shown.width == (if Sideways(o) then |stored.rows| else stored.width)
    && |shown.rows| == (if Sideways(o) then stored.width else |stored.rows|)
    && forall x, y, i, j |
        && Inside(shown.width, |shown.rows|, x, y)
        && Inside(stored.width, |stored.rows|, i, j)
        && Corresponds(o, shown.width, |shown.rows|, x, y, i, j) :: shown.rows[y][x] == stored.rows[j][i]
  }

  lemma CorrespondsIff(o: int, w: nat, h: nat, x: int, y: int, i: int, j: int)
    requires 1 <= o <= 8
    ensures Width(TurnOf(o), w, h) == (if Sideways(o) then h else w)
    ensures Height(TurnOf(o), w, h) == (if Sideways(o) then w else h)
    ensures Corresponds(o, Width(TurnOf(o), w, h), Height(TurnOf(o), w, h), x, y, i, j) <==>
      ComesFrom(TurnOf(o), w, h, x, y) == (i, j)
  {
  }

  /** Baking an orientation in gives exactly the picture its tag describes. */
  lemma BakedLooksRight<T>(o: int, stored: Picture<T>, shown: Picture<T>)
    requires 1 <= o <= 8 && stored.Valid() && shown.Valid()
    ensures LooksRight(o, stored, shown) <==> shown == Apply(TurnOf(o), stored)
  {
    CorrespondsIff(o, stored.width, |stored.rows|, 0, 0, 0, 0);
    if LooksRight(o, stored, shown) {
      LooksRightIsBaked(o, stored, shown);
    }
    ApplyLooksRight(o, stored);
  }

  lemma ApplyLooksRight<T>(o: int, stored: Picture<T>)
    requires 1 <= o <= 8 && stored.Valid()
    ensures LooksRight(o, stored, Apply(TurnOf(o), stored))
  {
    var w, h := stored.width, |stored.rows|;
    var shown := Apply(TurnOf(o), stored);
    CorrespondsIff(o, w, h, 0, 0, 0, 0);
    forall x, y, i, j |
      && Inside(shown.width, |shown.rows|, x, y)
      && Inside(w, h, i, j)
      && Corresponds(o, shown.width, |shown.rows|, x, y, i, j)
      ensures shown.rows[y][x] == stored.rows[j][i]
    {
      CorrespondsIff(o, w, h, x, y, i, j);
      ApplyAt(TurnOf(o), stored, x, y, i, j);
    }
  }

  lemma LooksRightIsBaked<T>(o: int, stored: Picture<T>, shown: Picture<T>)
    requires 1 <= o <= 8 && stored.Valid() && shown.Valid() && LooksRight(o, stored, shown)
    ensures shown == Apply(TurnOf(o), stored)
  {
    var w, h := stored.width, |stored.rows|;
    CorrespondsIff(o, w, h, 0, 0, 0, 0);
    forall x, y | Inside(shown.width, |shown.rows|, x, y)
      ensures shown.rows[y][x] == Apply(TurnOf(o), stored).rows[y][x]
    {
      var (i, j) := ComesFrom(TurnOf(o), w, h, x, y);
      CorrespondsIff(o, w, h, x, y, i, j);
      ApplyAt(TurnOf(o), stored, x, y, i, j);
    }
    SamePicture(shown, Apply(TurnOf(o), stored));
  }
}
