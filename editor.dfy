/** The level editor's tool state machine (`guis/EditorScreen.java`): grid
    snapping of the cursor, the hit-test scan that highlights a wall, and the
    click handler that adds walls, picks fillet tangents, commits fillets and
    removes walls. */
module Editor {
  import opened Geometry
  import opened Fillet

  const GRID_SIZE: int := 35
  const GRID_OFFSET_X: int := 50
  const GRID_OFFSET_Y: int := 30
  const GRID_WIDTH: int := 45
  const GRID_HEIGHT: int := 30
  const GRID_MAX_X: int := GRID_OFFSET_X + (GRID_WIDTH - 1) * GRID_SIZE
  const GRID_MAX_Y: int := GRID_OFFSET_Y + (GRID_HEIGHT - 1) * GRID_SIZE

  /** A wall is hit when its score is below this (0.5%). */
  const SELECT_THRESHOLD: real := 0.005
  /** The starting best score of the scan: "worst possible". */
  const WORST_SCORE: real := 1.0

  /** The tool chosen with the radio buttons. */
  datatype Tool = SELECT | LINE | FILLET | REMOVE

  /** The mouse button of a click: `Mouse.LEFT`, `Mouse.RIGHT`, or any other. */
  datatype Button = Left | Right | Other

  // ----- Grid snapping -----

  lemma MulLe(x: real, y: real, d: real)
    requires x <= y && 0.0 < d
    ensures x * d <= y * d
  {
  }

  lemma MulLt(x: real, y: real, d: real)
    requires x < y && 0.0 < d
    ensures x * d < y * d
  {
  }

  /** `q * d <= a < (q + 1) * d` for the floor `q` of `a / d`. */
  lemma FloorScaled(a: real, d: real, q: int)
    requires 0.0 < d && q == (a / d).Floor
    ensures q as real * d <= a < (q as real + 1.0) * d
  {
    var x := a / d;
    assert q as real <= x < q as real + 1.0;
    assert x * d == a;
    var y := q as real + 1.0;
    MulLe(q as real, x, d);
    MulLt(x, y, d);
    assert a < y * d;
  }

  /** A non-zero multiple of `d` is at least `d` away from zero. */
  lemma MulSign(e: int, d: int)
    requires 0 < d
    ensures 1 <= e ==> d <= d * e
    ensures e <= -1 ==> d * e <= -d
  {
  }

  /** A product is a multiple of either factor. */
  lemma MulMod(q: int, d: int)
    requires 0 < d
    ensures (q * d) % d == 0
  {
    var r := q * d;
    assert r == d * (r / d) + r % d;
    var e := q - r / d;
    assert r % d == d * e;
    MulSign(e, d);
  }

  /** The only multiple of `d` strictly between `-d` and `d` is zero. */
  lemma MultipleGap(x: int, d: int)
    requires 0 < d && -d < x < d && x % d == 0
    ensures x == 0
  {
    var k := x / d;
    assert x == d * k;
    MulSign(k, d);
  }

  /** The difference of two multiples of `d` is a multiple of `d`. */
  lemma MultiplesDiff(r: int, m: int, d: int)
    requires 0 < d && r % d == 0 && m % d == 0
    ensures (r - m) % d == 0
  {
    var a, b := r / d, m / d;
    assert r == d * a && m == d * b;
    assert r - m == (a - b) * d;
    MulMod(a - b, d);
  }

  /** `(int) Math.floor((value + interval / 2.0) / interval) * interval`:
      the multiple of `interval` nearest to `value`, a value exactly halfway
      between two multiples going to the larger one. */
  function Grid(value: int, interval: int): (r: int)
    ensures 0 < interval ==> r % interval == 0 && -interval <= 2 * (value - r) < interval
  {
    if interval == 0 then 0
    else
      var q := ((value as real + interval as real / 2.0) / interval as real).Floor;
      if interval < 0 then q * interval
      else
        FloorScaled(value as real + interval as real / 2.0, interval as real, q);
        MulMod(q, interval);
        q * interval
  }

  /** A multiple of `interval` within half an interval of `value` (halfway
      counting only from above) is the snapped value: the contract of `Grid`
      determines its result. */
  lemma GridUnique(value: int, interval: int, m: int)
    requires 0 < interval && m % interval == 0 && -interval <= 2 * (value - m) < interval
    ensures Grid(value, interval) == m
  {
    var r := Grid(value, interval);
    MultiplesDiff(r, m, interval);
    MultipleGap(r - m, interval);
  }

  /** Snapping a snapped value leaves it where it is. */
  lemma GridIdempotent(value: int, interval: int)
    requires 0 < interval
    ensures Grid(Grid(value, interval), interval) == Grid(value, interval)
  {
    GridUnique(Grid(value, interval), interval, Grid(value, interval));
  }

  /** With an even interval the value halfway below zero snaps up to zero,
      not down to `-interval`: `Math.floor` is applied after adding half an
      interval, so ties go toward positive infinity. */
  lemma GridHalfwayRoundsUp(interval: int)
    requires 0 < interval && interval % 2 == 0
    ensures Grid(-(interval / 2), interval) == 0
  {
    GridUnique(-(interval / 2), interval, 0);
  }

  /** The cursor's x snapped to the grid columns (`mouseGridX`). */
  function MouseGridX(mx: int): (gx: int)
    ensures (gx - GRID_OFFSET_X) % GRID_SIZE == 0
    ensures -(GRID_SIZE / 2) <= mx - gx <= GRID_SIZE / 2
  {
    Grid(mx - GRID_OFFSET_X, GRID_SIZE) + GRID_OFFSET_X
  }

  /** The cursor's y snapped to the grid rows (`mouseGridY`). */
  function MouseGridY(my: int): (gy: int)
    ensures (gy - GRID_OFFSET_Y) % GRID_SIZE == 0
    ensures -(GRID_SIZE / 2) <= my - gy <= GRID_SIZE / 2
  {
    Grid(my - GRID_OFFSET_Y, GRID_SIZE) + GRID_OFFSET_Y
  }

  /** A snapped cursor position snaps to itself. */
  lemma MouseGridStable(mx: int, my: int)
    ensures MouseGridX(MouseGridX(mx)) == MouseGridX(mx)
    ensures MouseGridY(MouseGridY(my)) == MouseGridY(my)
  {
    GridIdempotent(mx - GRID_OFFSET_X, GRID_SIZE);
    GridIdempotent(my - GRID_OFFSET_Y, GRID_SIZE);
  }

  /** `isOnMap`: the snapped cursor lies on the drawn grid. That is exactly
      when the raw cursor is at most half a cell outside the grid, and then
      the snapped point is one of the GRID_WIDTH x GRID_HEIGHT grid vertices. */
  function IsOnMap(mx: int, my: int): (r: bool)
    ensures r <==> && GRID_OFFSET_X - GRID_SIZE / 2 <= mx <= GRID_MAX_X + GRID_SIZE / 2
                   && GRID_OFFSET_Y - GRID_SIZE / 2 <= my <= GRID_MAX_Y + GRID_SIZE / 2
    ensures r ==> && 0 <= (MouseGridX(mx) - GRID_OFFSET_X) / GRID_SIZE < GRID_WIDTH
                  && 0 <= (MouseGridY(my) - GRID_OFFSET_Y) / GRID_SIZE < GRID_HEIGHT
  {
    var gx := MouseGridX(mx);
    var gy := MouseGridY(my);
    gx >= GRID_OFFSET_X && gx <= GRID_MAX_X && gy >= GRID_OFFSET_Y && gy <= GRID_MAX_Y
  }

  // ----- Hit-testing -----

  /** Wall `k` is the one `trySelect` highlights: its score is below the
      threshold, no wall scores lower, and every earlier wall scores higher. */
  ghost predicate IsSelection(walls: seq<Segment>, geometry: FloatGeometry, mx: int, my: int, k: int)
  {
    && 0 <= k < |walls|
    && geometry.hitScore(walls[k], mx, my) < SELECT_THRESHOLD
    && (forall j | 0 <= j < |walls| :: geometry.hitScore(walls[k], mx, my) <= geometry.hitScore(walls[j], mx, my))
    && (forall j | 0 <= j < k :: geometry.hitScore(walls[k], mx, my) < geometry.hitScore(walls[j], mx, my))
  }

  /** At most one wall is the selection. */
  lemma SelectionUnique(walls: seq<Segment>, geometry: FloatGeometry, mx: int, my: int, k1: int, k2: int)
    requires IsSelection(walls, geometry, mx, my, k1) && IsSelection(walls, geometry, mx, my, k2)
    ensures k1 == k2
  {
  }

  /** The scan of `trySelect`: the first wall with the lowest score below
      `WORST_SCORE` (index -1 when there is none) and that score. */
  method ScanWalls(walls: seq<Segment>, geometry: FloatGeometry, mx: int, my: int) returns (best: real, k: int)
    ensures -1 <= k < |walls|
    ensures k == -1 <==> forall j | 0 <= j < |walls| :: WORST_SCORE <= geometry.hitScore(walls[j], mx, my)
    ensures k == -1 ==> best == WORST_SCORE
    ensures 0 <= k ==> best == geometry.hitScore(walls[k], mx, my) < WORST_SCORE
    ensures 0 <= k ==> forall j | 0 <= j < |walls| :: best <= geometry.hitScore(walls[j], mx, my)
    ensures 0 <= k ==> forall j | 0 <= j < k :: best < geometry.hitScore(walls[j], mx, my)
  {
    best, k := WORST_SCORE, -1;
    for i := 0 to |walls|
      invariant -1 <= k < i
      invariant k == -1 <==> forall j | 0 <= j < i :: WORST_SCORE <= geometry.hitScore(walls[j], mx, my)
      invariant k == -1 ==> best == WORST_SCORE
      invariant 0 <= k ==> best == geometry.hitScore(walls[k], mx, my) < WORST_SCORE
      invariant forall j | 0 <= j < i :: best <= geometry.hitScore(walls[j], mx, my)
      invariant 0 <= k ==> forall j | 0 <= j < k :: best < geometry.hitScore(walls[j], mx, my)
    {
      var accuracy := geometry.hitScore(walls[i], mx, my);
      if accuracy < best {
        best, k := accuracy, i;
      }
    }
  }

  // ----- Removal by identity -----

  /** No wall occurs twice. */
  ghost predicate Distinct<T>(s: seq<T>)
  {
    forall i, j | 0 <= i < j < |s| :: s[i] != s[j]
  }

  /** `List.remove(Object)`: drops the first occurrence of `x`, if any. */
  function RemoveFirst<T(==)>(s: seq<T>, x: T): (r: seq<T>)
    ensures |r| == if x in s then |s| - 1 else |s|
    ensures multiset(r) + (if x in s then multiset{x} else multiset{}) == multiset(s)
  {
    if s == [] then []
    else
      assert s == [s[0]] + s[1..];
      if s[0] == x then s[1..] else [s[0]] + RemoveFirst(s[1..], x)
  }

  /** Removing an absent element leaves the list as it is. */
  lemma {:induction false} RemoveFirstAbsent<T>(s: seq<T>, x: T)
    requires x !in s
    ensures RemoveFirst(s, x) == s
  {
    if s != [] {
      RemoveFirstAbsent(s[1..], x);
      assert s == [s[0]] + s[1..];
    }
  }

  /** Removing an element whose first occurrence is at `k` cuts out exactly
      position `k` and keeps the order of the rest. */
  lemma {:induction false} RemoveFirstAt<T>(s: seq<T>, x: T, k: nat)
    requires k < |s| && s[k] == x && x !in s[..k]
    ensures RemoveFirst(s, x) == s[..k] + s[k + 1..]
  {
    if k == 0 {
      assert s[..0] + s[1..] == s[1..];
    } else {
      assert s[0] in s[..k];
      RemoveFirstAt(s[1..], x, k - 1);
      assert s[1..][..k - 1] == s[1..k];
      assert s[1..][k..] == s[k + 1..];
      assert [s[0]] + s[1..k] == s[..k];
    }
  }

  /** The tail of a list without repetitions has none either and does not hold its head. */
  lemma DistinctTail<T>(s: seq<T>)
    requires s != [] && Distinct(s)
    ensures Distinct(s[1..]) && s[0] !in s[1..]
  {
    forall i, j | 0 <= i < j < |s| - 1 ensures s[1..][i] != s[1..][j] {
      assert s[1..][i] == s[i + 1] && s[1..][j] == s[j + 1];
    }
    forall k | 0 <= k < |s| - 1 ensures s[1..][k] != s[0] {
      assert s[1..][k] == s[k + 1];
    }
  }

  /** Putting a new element in front of a list without repetitions keeps it so. */
  lemma DistinctCons<T>(a: T, s: seq<T>)
    requires Distinct(s) && a !in s
    ensures Distinct([a] + s)
  {
    forall i, j | 0 <= i < j < |s| + 1 ensures ([a] + s)[i] != ([a] + s)[j] {
      assert ([a] + s)[j] == s[j - 1];
      if i > 0 {
        assert ([a] + s)[i] == s[i - 1];
      }
    }
  }

  /** In a list without repetitions, removing a present wall shortens the
      list by one, leaves no copy of it, and keeps the list without repetitions. */
  lemma {:induction false} RemoveFirstDistinct<T>(s: seq<T>, x: T)
    requires Distinct(s)
    ensures Distinct(RemoveFirst(s, x))
    ensures x !in RemoveFirst(s, x)
    ensures |RemoveFirst(s, x)| == if x in s then |s| - 1 else |s|
  {
    if s != [] {
      DistinctTail(s);
      RemoveFirstDistinct(s[1..], x);
      assert s == [s[0]] + s[1..];
      if s[0] != x {
        RemoveFirstSubset(s[1..], x, s[0]);
        DistinctCons(s[0], RemoveFirst(s[1..], x));
      }
    }
  }

  /** Removal brings in no element that was not in the list. */
  lemma {:induction false} RemoveFirstSubset<T>(s: seq<T>, x: T, y: T)
    ensures y in RemoveFirst(s, x) ==> y in s
  {
    if s != [] && s[0] != x && y != s[0] {
      RemoveFirstSubset(s[1..], x, y);
    }
  }

  // ----- The editor screen -----

  /** What a click can change: the walls and fillets of the map, the pending
      first point of the line tool, the two fillet phase flags, the fillet
      preview's tangents and dirty flag, and the preview wall's start point. */
  datatype Session = Session(
    walls: seq<Segment>,
    fillets: seq<Arc>,
    firstPointDown: bool,
    firstClickX: int,
    firstClickY: int,
    filletFirstSelection: bool,
    filletSelectingRadius: bool,
    tangent1: Segment?,
    tangent2: Segment?,
    ghostAltered: bool,
    ghostStartX: real,
    ghostStartY: real)

  /** The colour `trySelect` gives the highlighted wall under each tool. */
  function HighlightColor(tool: Tool): Color
  {
    match tool
    case FILLET => Rgba(50, 50, 200, 255)
    case REMOVE => Rgba(200, 50, 50, 255)
    case _ => Rgba(0, 0, 0, 255)
  }

  /** The colour of committed walls and fillets. */
  const COMMITTED_COLOR: Color := Rgba(250, 250, 250, 255)

  class EditorScreen {
    var walls: seq<Segment>
    var fillets: seq<Arc>
    var tool: Tool
    var firstPointDown: bool
    var firstClickX: int
    var firstClickY: int
    var filletFirstSelection: bool
    var filletSelectingRadius: bool
    var intersecting: Segment?
    /** Position of the single-point preview of the line tool. */
    var ghostDot: Point
    const ghostWall: Segment
    const ghostArc: Arc
    const geometry: FloatGeometry

    /** The fillet tool is never in both phases at once; a phase that has
        picked tangents has them set on the preview arc; no wall is in the
        walls twice; the preview arc's cache is consistent. The preview wall,
        the only wall the editor moves, is never in the walls, highlighted or
        a tangent of the preview, so the walls the fillets are built on keep
        their end points. */
    ghost predicate Valid()
      reads this`filletFirstSelection, this`filletSelectingRadius, this`walls, this`intersecting, ghostArc
    {
      && !(filletFirstSelection && filletSelectingRadius)
      && (filletFirstSelection ==> ghostArc.tangent1 != null)
      && (filletSelectingRadius ==> ghostArc.tangent1 != null && ghostArc.tangent2 != null)
      && Distinct(walls)
      && ghostArc.Valid()
      && ghostArc.geometry == geometry
      && ghostWall !in walls
      && intersecting != ghostWall
      && ghostArc.tangent1 != ghostWall && ghostArc.tangent2 != ghostWall
    }

    ghost function Snapshot(): Session
      reads this`walls, this`fillets, this`firstPointDown, this`firstClickX, this`firstClickY,
            this`filletFirstSelection, this`filletSelectingRadius,
            ghostArc`tangent1, ghostArc`tangent2, ghostArc`altered, ghostWall`x1, ghostWall`y1
    {
      Session(walls, fillets, firstPointDown, firstClickX, firstClickY,
              filletFirstSelection, filletSelectingRadius,
              ghostArc.tangent1, ghostArc.tangent2, ghostArc.altered,
              ghostWall.x1, ghostWall.y1)
    }

    constructor (geometry: FloatGeometry)
      ensures Valid() && fresh(ghostWall) && fresh(ghostArc)
      ensures tool == SELECT && walls == [] && fillets == []
      ensures !firstPointDown && firstClickX == 0 && firstClickY == 0
      ensures !filletFirstSelection && !filletSelectingRadius && intersecting == null
      ensures ghostArc.tangent1 == null && ghostArc.tangent2 == null
      ensures ghostArc.distance == 0.0 && !ghostArc.altered && ghostArc.color == Rgba(60, 60, 60, 255)
      ensures ghostDot == Point(0.0, 0.0)
      ensures ghostWall.x1 == 0.0 && ghostWall.y1 == 0.0 && ghostWall.x2 == 0.0 && ghostWall.y2 == 0.0
      ensures ghostWall.width == 3.0 && ghostWall.color == Rgba(127, 127, 127, 255)
      ensures this.geometry == geometry
    {
      tool := SELECT;
      ghostWall := new Segment(0.0, 0.0, 0.0, 0.0, 3.0, Rgba(127, 127, 127, 255));
      ghostDot := Point(0.0, 0.0);
      ghostArc := new Arc(null, null, 0.0, Rgba(60, 60, 60, 255), geometry);
      walls := [];
      fillets := [];
      firstPointDown := false;
      firstClickX := 0;
      firstClickY := 0;
      filletFirstSelection := false;
      filletSelectingRadius := false;
      intersecting := null;
      this.geometry := geometry;
    }

    /** The line tool's radio button: drops any pending first point. */
    method ChooseLine()
      requires Valid()
      modifies this`firstPointDown, this`tool
      ensures Valid()
      ensures tool == LINE && !firstPointDown
    {
      firstPointDown := false;
      tool := LINE;
    }

    /** The fillet tool's radio button: the fillet phase is kept. */
    method ChooseFillet()
      requires Valid()
      modifies this`tool
      ensures Valid()
      ensures tool == FILLET
    {
      tool := FILLET;
    }

    /** The remove tool's radio button. */
    method ChooseRemove()
      requires Valid()
      modifies this`tool
      ensures Valid()
      ensures tool == REMOVE
    {
      tool := REMOVE;
    }

    /** The outcome of `trySelect` with highlight colour `highlight`, where
        `previous` was the highlighted wall before: the highlighted wall is
        the selection of `IsSelection`, or null when no wall scores below the
        threshold; it wears the highlight colour, the previous one its own
        colour again, and every other wall keeps its colour. */
    twostate predicate Highlighted(previous: Segment?, highlight: Color, mx: int, my: int)
      reads this, previous, intersecting, set w | w in walls
    {
      && (intersecting == null <==>
            forall j | 0 <= j < |walls| :: SELECT_THRESHOLD <= geometry.hitScore(walls[j], mx, my))
      && (intersecting != null ==>
            && (exists k :: IsSelection(walls, geometry, mx, my, k) && walls[k] == intersecting)
            && intersecting.color == highlight)
      && (previous != null && previous != intersecting ==> previous.color == previous.baseColor)
      && (forall w | w in walls && old(allocated(w)) && w != previous && w != intersecting :: w.color == old(w.color))
    }

    /** `trySelect(r, g, b)`: highlights the wall nearest the cursor. */
    method TrySelect(r: int, g: int, b: int, mx: int, my: int)
      requires Valid()
      modifies this`intersecting, (set w | w in walls)`color, (if intersecting == null then {} else {intersecting})`color
      ensures Valid()
      ensures Highlighted(old(intersecting), Rgba(r, g, b, 255), mx, my)
    {
      ghost var previous := intersecting;
      if intersecting != null {
        intersecting.ResetColor();
      }
      var best, k := ScanWalls(walls, geometry, mx, my);
      if best < SELECT_THRESHOLD {
        intersecting := walls[k];
        intersecting.SetColor(Rgba(r, g, b, 255));
        assert IsSelection(walls, geometry, mx, my, k);
      } else {
        intersecting := null;
      }
    }

    /** The radius phase of the fillet tool: the preview arc's distance follows the cursor's distance from the corner
        of the two tangents, and is left alone when there is no corner or the distance is unchanged. */
    twostate predicate RadiusFollowed(mx: int, my: int)
      requires filletSelectingRadius ==> ghostArc.tangent1 != null && ghostArc.tangent2 != null
      reads this`filletSelectingRadius, ghostArc
    {
      filletSelectingRadius ==>
        var c := geometry.corner(ghostArc.tangent1, ghostArc.tangent2);
        var d := if c.None? then 0.0
                 else geometry.norm(MouseGridX(mx) as real - c.value.x, MouseGridY(my) as real - c.value.y);
        if c.Some? && d != old(ghostArc.distance) then ghostArc.distance == d && ghostArc.altered
        else ghostArc.distance == old(ghostArc.distance) && ghostArc.altered == old(ghostArc.altered)
    }

    /** The line tool's preview: the preview wall's end point follows the snapped cursor while a start point is down,
        and the dot follows it otherwise. */
    twostate predicate PreviewFollowed(mx: int, my: int)
      reads this`firstPointDown, this`ghostDot, ghostWall`x2, ghostWall`y2
    {
      if firstPointDown then
        ghostWall.x2 == MouseGridX(mx) as real && ghostWall.y2 == MouseGridY(my) as real && ghostDot == old(ghostDot)
      else
        ghostDot == Point(MouseGridX(mx) as real, MouseGridY(my) as real)
        && ghostWall.x2 == old(ghostWall.x2) && ghostWall.y2 == old(ghostWall.y2)
    }

    /** The highlighted wall and the colours of all walls are as they were. */
    twostate predicate HighlightKept()
      reads this`intersecting, this`walls, walls, intersecting
    {
      && intersecting == old(intersecting)
      && (intersecting != null ==> intersecting.color == old(intersecting.color))
      && walls == old(walls)
      && forall w | w in walls :: w.color == old(w.color)
    }

    /** The per-frame update with the cursor at (mx, my). `thrown` reports
        the source's NullPointerException: in the radius phase it reads the
        corner of the two tangents without checking that there is one, and
        nothing has changed when it fails. */
    method Update(mx: int, my: int) returns (thrown: bool)
      requires Valid()
      modifies this`intersecting, this`ghostDot, (set w | w in walls)`color,
               (if intersecting == null then {} else {intersecting})`color,
               ghostWall`x2, ghostWall`y2, ghostArc`distance, ghostArc`altered
      ensures Valid()
      ensures thrown <==> tool == FILLET && filletSelectingRadius
                          && geometry.corner(ghostArc.tangent1, ghostArc.tangent2).None?
      ensures tool == FILLET ==> RadiusFollowed(mx, my)
      ensures !(tool == FILLET && filletSelectingRadius) ==>
        ghostArc.distance == old(ghostArc.distance) && ghostArc.altered == old(ghostArc.altered)
      ensures tool == LINE ==> PreviewFollowed(mx, my)
      ensures tool != LINE ==>
        ghostDot == old(ghostDot) && ghostWall.x2 == old(ghostWall.x2) && ghostWall.y2 == old(ghostWall.y2)
      // Every other case highlights the wall under the cursor.
      ensures tool == LINE || (tool == FILLET && filletSelectingRadius) ==> HighlightKept()
      ensures tool != LINE && !(tool == FILLET && filletSelectingRadius) ==>
        Highlighted(old(intersecting), HighlightColor(tool), mx, my)
    {
      thrown := false;
      if tool == LINE {
        LineUpdate(mx, my);
      } else if tool == FILLET && filletSelectingRadius {
        thrown := RadiusUpdate(mx, my);
      } else {
        HighlightUnderCursor(mx, my);
      }
    }

    /** The selecting tools highlight the wall under the cursor, each in its own colour. */
    method HighlightUnderCursor(mx: int, my: int)
      requires Valid()
      modifies this`intersecting, (set w | w in walls)`color, (if intersecting == null then {} else {intersecting})`color
      ensures Valid()
      ensures Highlighted(old(intersecting), HighlightColor(tool), mx, my)
    {
      match tool
      case FILLET =>
        TrySelect(50, 50, 200, mx, my);
      case REMOVE =>
        TrySelect(200, 50, 50, mx, my);
      case _ =>
        TrySelect(0, 0, 0, mx, my);
    }

    /** The radius phase of the fillet tool; a pair of tangents without a corner throws. */
    method RadiusUpdate(mx: int, my: int) returns (thrown: bool)
      requires Valid()
      requires filletSelectingRadius
      modifies ghostArc`distance, ghostArc`altered
      ensures Valid()
      ensures thrown <==> geometry.corner(ghostArc.tangent1, ghostArc.tangent2).None?
      ensures RadiusFollowed(mx, my)
    {
      thrown := false;
      var corner := geometry.corner(ghostArc.tangent1, ghostArc.tangent2);
      if corner.None? {
        thrown := true;
      } else {
        var dist := geometry.norm(MouseGridX(mx) as real - corner.value.x, MouseGridY(my) as real - corner.value.y);
        if dist != ghostArc.distance {
          ghostArc.SetDistance(dist);
        }
      }
    }

    /** The line tool's preview. */
    method LineUpdate(mx: int, my: int)
      requires Valid()
      modifies this`ghostDot, ghostWall`x2, ghostWall`y2
      ensures Valid()
      ensures PreviewFollowed(mx, my)
    {
      if firstPointDown {
        ghostWall.SetEndPoint(MouseGridX(mx) as real, MouseGridY(my) as real);
      } else {
        ghostDot := Point(MouseGridX(mx) as real, MouseGridY(my) as real);
      }
    }

    /** A fillet just committed from the preview's tangents and distance. */
    ghost predicate CommittedFillet(a: Arc, t1: Segment?, t2: Segment?, d: real)
      reads a
    {
      && a.tangent1 == t1 && a.tangent2 == t2 && a.distance == d
      && a.color == COMMITTED_COLOR && a.geometry == geometry
      && a.Valid() && !a.altered && a.Generated(0.0)
    }

    /** A wall just committed from the pending point to the click. */
    ghost predicate CommittedWall(w: Segment, fx: int, fy: int, cx: int, cy: int)
      reads w
    {
      && w.x1 == fx as real && w.y1 == fy as real && w.x2 == cx as real && w.y2 == cy as real
      && w.width == 3.0 && w.color == COMMITTED_COLOR && w.baseColor == COMMITTED_COLOR
    }

    /** The effect of a click under the fillet tool. A left click in the
        radius phase appends one new arc built from the preview and leaves
        both phases; otherwise a left click on a highlighted wall makes it
        the first tangent, or the second one and enters the radius phase; a
        left click on no wall does nothing; a right click leaves both phases. */
    twostate predicate FilletClicked(button: Button)
      reads this, ghostArc, ghostWall, fillets
    {
      if button == Left && old(filletSelectingRadius) then
        && |fillets| == |old(fillets)| + 1 && fillets[..|old(fillets)|] == old(fillets)
        && fresh(fillets[|old(fillets)|])
        && CommittedFillet(fillets[|old(fillets)|], old(ghostArc.tangent1), old(ghostArc.tangent2), old(ghostArc.distance))
        && Snapshot() == old(Snapshot()).(fillets := fillets, filletFirstSelection := false, filletSelectingRadius := false)
      else if button == Left then
        if intersecting == null then Snapshot() == old(Snapshot())
        else if old(filletFirstSelection) then
          Snapshot() == old(Snapshot()).(tangent2 := intersecting, ghostAltered := true,
                                         filletFirstSelection := false, filletSelectingRadius := true)
        else
          Snapshot() == old(Snapshot()).(tangent1 := intersecting, ghostAltered := true, filletFirstSelection := true)
      else if button == Right then
        Snapshot() == old(Snapshot()).(filletFirstSelection := false, filletSelectingRadius := false)
      else
        Snapshot() == old(Snapshot())
    }

    /** The effect of a click at the snapped point (cx, cy) under the line
        tool. A left click on the pending point does nothing; any other left
        click appends the wall from the pending point, if there is one, and
        makes the click the pending point; a right click drops the pending
        point. */
    twostate predicate LineClicked(button: Button, cx: int, cy: int)
      reads this, ghostArc, ghostWall, walls
    {
      if button == Left then
        if old(firstPointDown) && cx == old(firstClickX) && cy == old(firstClickY) then
          Snapshot() == old(Snapshot())
        else
          Placed(cx, cy)
      else if button == Right then
        Snapshot() == old(Snapshot()).(firstPointDown := false)
      else
        Snapshot() == old(Snapshot())
    }

    /** A left click at a new point `(cx, cy)`: with a start point down it commits the wall from that start point to
        the click, and in every case the click becomes the next start point. */
    twostate predicate Placed(cx: int, cy: int)
      reads this, ghostArc, ghostWall, walls
    {
      && (if old(firstPointDown) then
            && |walls| == |old(walls)| + 1 && walls[..|old(walls)|] == old(walls)
            && fresh(walls[|old(walls)|])
            && CommittedWall(walls[|old(walls)|], old(firstClickX), old(firstClickY), cx, cy)
          else walls == old(walls))
      && Snapshot() == old(Snapshot()).(walls := walls, firstPointDown := true, firstClickX := cx, firstClickY := cy,
                                        ghostStartX := cx as real, ghostStartY := cy as real)
    }

    /** The effect of a click under the remove tool: a left click takes the
        highlighted wall, if any, out of the map by identity. */
    twostate predicate RemoveClicked(button: Button)
      reads this, ghostArc, ghostWall
    {
      if button == Left && intersecting != null then
        && Snapshot() == old(Snapshot()).(walls := RemoveFirst<Segment>(old(walls), intersecting))
        && intersecting !in walls
        && |walls| == if intersecting in old(walls) then |old(walls)| - 1 else |old(walls)|
      else
        Snapshot() == old(Snapshot())
    }

    /** The fillet branch of `handleClick`. */
    method FilletClick(button: Button)
      requires Valid()
      modifies this`fillets, this`filletFirstSelection, this`filletSelectingRadius,
               ghostArc`tangent1, ghostArc`tangent2, ghostArc`altered
      ensures Valid()
      ensures FilletClicked(button)
    {
      if button == Left {
        if filletSelectingRadius {
          var arc := new Arc(ghostArc.tangent1, ghostArc.tangent2, ghostArc.distance, COMMITTED_COLOR, geometry);
          fillets := fillets + [arc];
          filletFirstSelection := false;
          filletSelectingRadius := false;
        } else if intersecting != null {
          if filletFirstSelection {
            ghostArc.SetTangent2(intersecting);
            filletFirstSelection := false;
            filletSelectingRadius := true;
          } else {
            ghostArc.SetTangent1(intersecting);
            filletFirstSelection := true;
          }
        }
      } else if button == Right {
        filletFirstSelection := false;
        filletSelectingRadius := false;
      }
    }

    /** Commits the wall from the pending point to (cx, cy) to the map. */
    method AddWall(cx: int, cy: int)
      requires Valid()
      modifies this`walls
      ensures Valid()
      ensures |walls| == |old(walls)| + 1 && walls[..|old(walls)|] == old(walls)
      ensures fresh(walls[|old(walls)|]) && CommittedWall(walls[|old(walls)|], firstClickX, firstClickY, cx, cy)
    {
      var wall := new Segment(firstClickX as real, firstClickY as real, cx as real, cy as real, 3.0, COMMITTED_COLOR);
      walls := walls + [wall];
      assert walls[..|old(walls)|] == old(walls);
    }

    /** The line branch of `handleClick`, the click snapped to (clickX, clickY). */
    method LineClick(button: Button, clickX: int, clickY: int)
      requires Valid()
      modifies this`walls, this`firstPointDown, this`firstClickX, this`firstClickY, ghostWall`x1, ghostWall`y1
      ensures Valid()
      ensures LineClicked(button, clickX, clickY)
    {
      if button == Left {
        if !(clickX == firstClickX && clickY == firstClickY && firstPointDown) {
          Place(clickX, clickY);
        }
      } else if button == Right {
        firstPointDown := false;
      }
    }

    /** A left click at a new point. */
    method Place(cx: int, cy: int)
      requires Valid()
      modifies this`walls, this`firstPointDown, this`firstClickX, this`firstClickY, ghostWall`x1, ghostWall`y1
      ensures Valid()
      ensures Placed(cx, cy)
    {
      if firstPointDown {
        AddWall(cx, cy);
      }
      Anchor(cx, cy);
    }

    /** The second half of a left click: the click becomes the start of the next wall and of the preview. */
    method Anchor(cx: int, cy: int)
      requires Valid()
      modifies this`firstPointDown, this`firstClickX, this`firstClickY, ghostWall`x1, ghostWall`y1
      ensures Valid()
      ensures Snapshot() == old(Snapshot()).(firstPointDown := true, firstClickX := cx, firstClickY := cy,
                                             ghostStartX := cx as real, ghostStartY := cy as real)
    {
      firstClickX := cx;
      firstClickY := cy;
      ghostWall.SetStartPoint(cx as real, cy as real);
      firstPointDown := true;
    }

    /** The remove branch of `handleClick`. */
    method RemoveClick(button: Button)
      requires Valid()
      modifies this`walls
      ensures Valid()
      ensures RemoveClicked(button)
    {
      if button == Left {
        if intersecting != null {
          RemoveFirstDistinct<Segment>(walls, intersecting);
          RemoveFirstSubset<Segment>(walls, intersecting, ghostWall);
          walls := RemoveFirst<Segment>(walls, intersecting);
        }
      }
    }

    /** `handleClick(button)` with the cursor at (mx, my): nothing happens
        off the map or under the select tool; otherwise the current tool's
        branch runs with the snapped cursor. */
    method HandleClick(button: Button, mx: int, my: int)
      requires Valid()
      modifies this`walls, this`fillets, this`firstPointDown, this`firstClickX, this`firstClickY,
               this`filletFirstSelection, this`filletSelectingRadius,
               ghostArc`tangent1, ghostArc`tangent2, ghostArc`altered, ghostWall`x1, ghostWall`y1
      ensures Valid()
      ensures !IsOnMap(mx, my) || tool == SELECT ==> Snapshot() == old(Snapshot())
      ensures IsOnMap(mx, my) && tool == FILLET ==> FilletClicked(button)
      ensures IsOnMap(mx, my) && tool == LINE ==> LineClicked(button, MouseGridX(mx), MouseGridY(my))
      ensures IsOnMap(mx, my) && tool == REMOVE ==> RemoveClicked(button)
    {
      if IsOnMap(mx, my) {
        match tool
        case FILLET =>
          FilletClick(button);
        case LINE =>
          LineClick(button, MouseGridX(mx), MouseGridY(my));
        case REMOVE =>
          RemoveClick(button);
        case SELECT =>
      }
    }
  }
}
