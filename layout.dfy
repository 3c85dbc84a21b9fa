/** The village's fixed tables and coordinate arithmetic: canvas constants,
    the SIZES and THEMES tables, the grid of cells, the road lines, and the
    shapes one house and one tree are made of. Everything here is exact
    real arithmetic. */
module Layout {
  import opened Canvas

  const CanvasW: real := 800.0
  const CanvasH: real := 600.0
  const TopMargin: real := 40.0
  const BottomMargin: real := 40.0

  /** The drawable band: the whole width, the height less both margins. */
  const TopY: real := CanvasH / 2.0 - TopMargin
  const BotY: real := -CanvasH / 2.0 + BottomMargin
  const LeftX: real := -CanvasW / 2.0
  const RightX: real := CanvasW / 2.0

  /** Width and height of a house body. */
  datatype Dims = Dims(w: real, h: real)

  /** The four colours of a theme. */
  datatype Palette = Palette(body: string, roof: string, door: string, window: string)

  const Sizes: map<string, Dims> :=
    map["s" := Dims(120.0, 80.0), "m" := Dims(150.0, 100.0), "l" := Dims(180.0, 120.0)]

  const Themes: map<string, Palette> :=
    map["pastel" := Palette("#ffd1dc", "#c1e1c1", "#b5d3e7", "#fff7ae"),
        "primary" := Palette("red", "blue", "gold", "#aee3ff")]

  const TrunkColor: string := "#8B4513"
  const LeafColor: string := "#5DAE4D"
  const SunColor: string := "yellow"
  const SunRadius: real := 35.0
  const SunInset: real := 12.0

  /** The tables' keys, and the shape of every house size: positive, with
      the width one and a half times the height. */
  lemma TablesExact()
    ensures Sizes.Keys == {"s", "m", "l"} && Themes.Keys == {"pastel", "primary"}
    ensures forall k :: k in Sizes ==> 0.0 < Sizes[k].h < Sizes[k].w == 1.5 * Sizes[k].h
    ensures Sizes["m"] == Dims(150.0, 100.0) && Themes["primary"].body == "red"
  {
  }

  /** The side of the house a tree stands on: -1 left, 1 right. */
  type Side = s: int | s == -1 || s == 1 witness 1

  function NonNeg(n: int): nat
  {
    if n > 0 then n else 0
  }

  // ---------- grid ----------

  function CellWidth(cols: int): real
    requires cols != 0
  {
    CanvasW / cols as real
  }

  function CellHeight(rows: int): real
    requires rows != 0
  {
    (CanvasH - TopMargin - BottomMargin) / rows as real
  }

  /** The centre of the cell in row r, column c. */
  function CellCenter(cols: int, rows: int, r: int, c: int): Point
    requires cols != 0 && rows != 0
  {
    Point(LeftX + (c as real + 0.5) * CellWidth(cols), TopY - (r as real + 0.5) * CellHeight(rows))
  }

  /** The cells split the drawable band exactly into cols x rows equal parts. */
  lemma CellsTileBand(cols: int, rows: int)
    requires cols > 0 && rows > 0
    ensures CellWidth(cols) > 0.0 && cols as real * CellWidth(cols) == RightX - LeftX
    ensures CellHeight(rows) > 0.0 && rows as real * CellHeight(rows) == TopY - BotY
  {
  }

  /** A cell's centre lies strictly inside that cell, and so strictly inside
      the drawable band. */
  lemma CellCenterInside(cols: int, rows: int, r: int, c: int)
    requires cols > 0 && rows > 0 && 0 <= r < rows && 0 <= c < cols
    ensures var p, cw, ch := CellCenter(cols, rows, r, c), CellWidth(cols), CellHeight(rows);
      && LeftX + c as real * cw < p.x < LeftX + (c + 1) as real * cw
      && TopY - (r + 1) as real * ch < p.y < TopY - r as real * ch
      && LeftX < p.x < RightX && BotY < p.y < TopY
  {
    var cw, ch := CellWidth(cols), CellHeight(rows);
    CellsTileBand(cols, rows);
    assert (c + 1) as real * cw <= cols as real * cw by {
      MulMonotone((c + 1) as real, cols as real, cw);
    }
    assert (r + 1) as real * ch <= rows as real * ch by {
      MulMonotone((r + 1) as real, rows as real, ch);
    }
    assert 0.0 <= c as real * cw && 0.0 <= r as real * ch;
  }

  lemma MulMonotone(a: real, b: real, k: real)
    requires a <= b && 0.0 <= k
    ensures a * k <= b * k
  {
  }

  // ---------- roads ----------

  /** The road along the boundary above row r. */
  function HRoad(r: int, cellH: real): Shape
  {
    var y := TopY - r as real * cellH;
    Line(Point(LeftX, y), Point(RightX, y))
  }

  /** The road along the boundary left of column c. */
  function VRoad(c: int, cellW: real): Shape
  {
    var x := LeftX + c as real * cellW;
    Line(Point(x, TopY), Point(x, BotY))
  }

  /** The horizontal roads for r in range(1, n), in that order. */
  function HRoads(n: int, cellH: real): seq<Shape>
    decreases n
  {
    if n <= 1 then [] else HRoads(n - 1, cellH) + [HRoad(n - 1, cellH)]
  }

  /** The vertical roads for c in range(1, n), in that order. */
  function VRoads(n: int, cellW: real): seq<Shape>
    decreases n
  {
    if n <= 1 then [] else VRoads(n - 1, cellW) + [VRoad(n - 1, cellW)]
  }

  /** Everything draw_roads draws: the horizontal roads, then the vertical ones. */
  function Roads(cols: int, rows: int, cellW: real, cellH: real): seq<Shape>
  {
    HRoads(rows, cellH) + VRoads(cols, cellW)
  }

  lemma {:induction false} HRoadsAt(n: int, cellH: real)
    ensures |HRoads(n, cellH)| == NonNeg(n - 1)
    ensures forall i :: 0 <= i < |HRoads(n, cellH)| ==>
      HRoads(n, cellH)[i] == Line(Point(-400.0, 260.0 - (i + 1) as real * cellH), Point(400.0, 260.0 - (i + 1) as real * cellH))
    decreases n
  {
    if n > 1 {
      HRoadsAt(n - 1, cellH);
    }
  }

  lemma {:induction false} VRoadsAt(n: int, cellW: real)
    ensures |VRoads(n, cellW)| == NonNeg(n - 1)
    ensures forall j :: 0 <= j < |VRoads(n, cellW)| ==>
      VRoads(n, cellW)[j] == Line(Point(-400.0 + (j + 1) as real * cellW, 260.0), Point(-400.0 + (j + 1) as real * cellW, -260.0))
    decreases n
  {
    if n > 1 {
      VRoadsAt(n - 1, cellW);
    }
  }

  /** draw_roads draws exactly rows - 1 horizontal lines, at y = 260 - r * cellH
      from x = -400 to 400, and then exactly cols - 1 vertical lines, at
      x = -400 + c * cellW from y = 260 to -260 (none when the count is below 2). */
  lemma RoadsLayout(cols: int, rows: int, cellW: real, cellH: real)
    ensures var rs, nh := Roads(cols, rows, cellW, cellH), NonNeg(rows - 1);
      && |rs| == nh + NonNeg(cols - 1)
      && (forall i :: 0 <= i < nh ==>
            rs[i] == Line(Point(-400.0, 260.0 - (i + 1) as real * cellH), Point(400.0, 260.0 - (i + 1) as real * cellH)))
      && (forall j :: nh <= j < |rs| ==>
            rs[j] == Line(Point(-400.0 + (j - nh + 1) as real * cellW, 260.0), Point(-400.0 + (j - nh + 1) as real * cellW, -260.0)))
  {
    HRoadsAt(rows, cellH);
    VRoadsAt(cols, cellW);
    var rs, nh := Roads(cols, rows, cellW, cellH), NonNeg(rows - 1);
    forall j | nh <= j < |rs|
      ensures rs[j] == VRoads(cols, cellW)[j - nh]
    {
    }
  }

  /** With the grid's own cell sizes every road lies strictly inside the
      drawable band, on a boundary between two rows or two columns. */
  lemma RoadsInsideBand(cols: int, rows: int, r: int, c: int)
    requires cols > 0 && rows > 0 && 1 <= r < rows && 1 <= c < cols
    ensures var h, v := HRoad(r, CellHeight(rows)), VRoad(c, CellWidth(cols));
      && BotY < h.from.y < TopY
      && LeftX < v.from.x < RightX
  {
    CellsTileBand(cols, rows);
    MulMonotone(r as real, (rows - 1) as real, CellHeight(rows));
    MulMonotone(c as real, (cols - 1) as real, CellWidth(cols));
    MulMonotone(1.0, r as real, CellHeight(rows));
    MulMonotone(1.0, c as real, CellWidth(cols));
  }

  // ---------- one house, one tree ----------

  function LeftEdge(s: Shape): real requires s.Rect? { s.center.x - s.w / 2.0 }
  function RightEdge(s: Shape): real requires s.Rect? { s.center.x + s.w / 2.0 }
  function TopEdge(s: Shape): real requires s.Rect? { s.center.y + s.h / 2.0 }
  function BottomEdge(s: Shape): real requires s.Rect? { s.center.y - s.h / 2.0 }

  /** What draw_house_centered fills, in order: body, roof, door, window. */
  function HouseShapes(cx: real, cy: real, d: Dims, p: Palette, roofStyle: string): seq<Shape>
  {
    var yT := cy + d.h / 2.0;
    var roof :=
      if roofStyle == "triangle" then
        Triangle(Point(cx - d.w / 2.0, yT), Point(cx + d.w / 2.0, yT), Point(cx, yT + 0.5 * d.h), p.roof)
      else
        Rect(Point(cx, yT + d.h * 0.1), d.w, d.h * 0.2, p.roof);
    [ Rect(Point(cx, cy), d.w, d.h, p.body),
      roof,
      Rect(Point(cx, cy - d.h * 0.22), d.w * 0.25, d.h * 0.52, p.door),
      Rect(Point(cx - d.w * 0.25, cy + d.h * 0.1), d.w * 0.2, d.h * 0.2, p.window) ]
  }

  /** The roof sits on the body: a triangular roof's base corners are the
      body's top corners and its apex is at (cx, cy + h); a flat roof is as
      wide as the body, 0.2 h tall, and its bottom edge is the body's top
      edge yT = cy + h/2. Every other roof style string gives the flat roof. */
  lemma HouseRoof(cx: real, cy: real, d: Dims, p: Palette, roofStyle: string)
    ensures var hs := HouseShapes(cx, cy, d, p, roofStyle);
      var body := hs[0];
      && |hs| == 4 && body == Rect(Point(cx, cy), d.w, d.h, p.body)
      && hs[1].color == p.roof
      && (roofStyle == "triangle" ==>
            && hs[1].Triangle?
            && hs[1].p1 == Point(LeftEdge(body), TopEdge(body))
            && hs[1].p2 == Point(RightEdge(body), TopEdge(body))
            && hs[1].p3 == Point(cx, cy + d.h))
      && (roofStyle != "triangle" ==>
            && hs[1].Rect?
            && BottomEdge(hs[1]) == TopEdge(body) == cy + d.h / 2.0
            && LeftEdge(hs[1]) == LeftEdge(body) && RightEdge(hs[1]) == RightEdge(body)
            && hs[1].h == 0.2 * d.h)
  {
  }

  /** For a body of positive size the door and the window lie inside it and
      apart from each other (the window left of the door); the door stands
      0.02 h above the body's bottom edge. */
  lemma HouseDoorWindow(cx: real, cy: real, d: Dims, p: Palette, roofStyle: string)
    requires d.w > 0.0 && d.h > 0.0
    ensures var hs := HouseShapes(cx, cy, d, p, roofStyle);
      var body, door, window := hs[0], hs[2], hs[3];
      && door.Rect? && door.color == p.door && window.Rect? && window.color == p.window
      && Inside(door, body) && Inside(window, body)
      && RightEdge(window) < LeftEdge(door)
      && BottomEdge(door) == BottomEdge(body) + 0.02 * d.h
  {
  }

  /** Rectangle `a` lies strictly within rectangle `b`. */
  predicate Inside(a: Shape, b: Shape)
    requires a.Rect? && b.Rect?
  {
    LeftEdge(b) < LeftEdge(a) && RightEdge(a) < RightEdge(b) &&
    BottomEdge(b) < BottomEdge(a) && TopEdge(a) < TopEdge(b)
  }

  /** What draw_tree_near fills for a tree on `side`: trunk, then foliage. */
  function TreeShapes(cx: real, cy: real, d: Dims, side: Side): seq<Shape>
  {
    var tw, th := d.w * 0.10, d.h * 0.40;
    var tx := cx + side as real * (d.w * 0.45);
    var ty := cy - d.h * 0.5 + th / 2.0;
    [ Rect(Point(tx, ty), tw, th, TrunkColor),
      Circle(Point(tx, ty + th / 2.0 + d.h * 0.15), d.w * 0.18, LeafColor) ]
  }

  /** The trunk stands on the body's ground line cy - h/2 at x = cx -+ 0.45 w,
      and its outer side is flush with the body's wall on that side; the
      foliage circle has radius 0.18 w and its centre is right above the
      trunk, 0.15 h over the trunk's top. */
  lemma TreePlacement(cx: real, cy: real, d: Dims, side: Side)
    ensures var ts := TreeShapes(cx, cy, d, side);
      var trunk, leaves := ts[0], ts[1];
      var body := Rect(Point(cx, cy), d.w, d.h, "");
      && |ts| == 2 && trunk.Rect? && leaves.Circle?
      && trunk.color == TrunkColor && leaves.color == LeafColor
      && BottomEdge(trunk) == cy - d.h / 2.0 == BottomEdge(body)
      && trunk.center.x == (if side == -1 then cx - 0.45 * d.w else cx + 0.45 * d.w)
      && (side == -1 ==> LeftEdge(trunk) == LeftEdge(body))
      && (side == 1 ==> RightEdge(trunk) == RightEdge(body))
      && leaves.r == 0.18 * d.w
      && leaves.center == Point(trunk.center.x, TopEdge(trunk) + 0.15 * d.h)
  {
    if side == -1 {
      assert side as real * (d.w * 0.45) == -0.45 * d.w;
    } else {
      assert side as real * (d.w * 0.45) == 0.45 * d.w;
    }
  }

  // ---------- the village ----------

  /** The six shapes of one cell: its house, then its tree. */
  function CellShapes(center: Point, d: Dims, p: Palette, roofStyle: string, side: Side): seq<Shape>
  {
    HouseShapes(center.x, center.y, d, p, roofStyle) + TreeShapes(center.x, center.y, d, side)
  }

  /** The shapes of the first n cells, row-major; `pick(k)` is the side the
      k-th call of random.choice gives. */
  function GridShapes(cols: int, rows: int, n: nat, d: Dims, p: Palette, roofStyle: string, pick: nat -> Side): seq<Shape>
    requires cols != 0 && rows != 0
  {
    if n == 0 then []
    else
      var k := n - 1;
      GridShapes(cols, rows, k, d, p, roofStyle, pick)
        + CellShapes(CellCenter(cols, rows, RowCol(cols, k).0, RowCol(cols, k).1), d, p, roofStyle, pick(k))
  }

  /** Cell k + 1 of the grid, for k = r cols + c, is the cell in row r,
      column c: its house, then its tree with the k-th side. */
  lemma GridStep(cols: int, rows: int, k: nat, r: int, c: int, d: Dims, p: Palette, roofStyle: string, pick: nat -> Side)
    requires cols > 0 && rows != 0 && 0 <= c < cols && k == r * cols + c
    ensures var ctr := CellCenter(cols, rows, r, c);
      GridShapes(cols, rows, k + 1, d, p, roofStyle, pick)
      == GridShapes(cols, rows, k, d, p, roofStyle, pick)
         + HouseShapes(ctr.x, ctr.y, d, p, roofStyle) + TreeShapes(ctr.x, ctr.y, d, pick(k))
  {
    RowColDivMod(cols, k);
    DivModUnique(k, cols, r, c);
  }

  /** The row and column of the k-th cell in row-major order, counting k off
      in rows of `cols` cells. */
  function RowCol(cols: int, k: nat): (int, int)
    decreases k
  {
    if cols <= 0 || k < cols then (0, k)
    else
      var rc := RowCol(cols, k - cols);
      (rc.0 + 1, rc.1)
  }

  /** Counting off rows is Euclidean division: cell k sits in row k / cols,
      column k % cols. */
  lemma {:induction false} RowColDivMod(cols: int, k: nat)
    requires cols > 0
    ensures RowCol(cols, k) == (k / cols, k % cols)
    decreases k
  {
    if k < cols {
      DivModUnique(k, cols, 0, k);
    } else {
      RowColDivMod(cols, k - cols);
      var rc := RowCol(cols, k - cols);
      assert k - cols == rc.0 * cols + rc.1 && 0 <= rc.1 < cols;
      assert k == (rc.0 + 1) * cols + rc.1;
      DivModUnique(k, cols, rc.0 + 1, rc.1);
    }
  }

  /** How many cells draw_village's loops visit. */
  function NumCells(cols: int, rows: int): nat
  {
    if cols > 0 && rows > 0 then cols * rows else 0
  }

  function SunShape(): Shape
  {
    Circle(Point(CanvasW / 2.0 - SunRadius - SunInset, CanvasH / 2.0 - SunRadius - SunInset), SunRadius, SunColor)
  }

  function SunShapes(sunFlag: string): seq<Shape>
  {
    if sunFlag == "y" then [SunShape()] else []
  }

  /** Everything draw_village draws, in order: roads, cells, sun. */
  function VillageShapes(cols: int, rows: int, d: Dims, p: Palette, sunFlag: string, roofStyle: string, pick: nat -> Side): seq<Shape>
    requires cols != 0 && rows != 0
  {
    Roads(cols, rows, CellWidth(cols), CellHeight(rows))
      + GridShapes(cols, rows, NumCells(cols, rows), d, p, roofStyle, pick)
      + SunShapes(sunFlag)
  }

  /** Shape i of the grid is shape i % 6 of cell i / 6. */
  lemma {:induction false} GridLayout(cols: int, rows: int, n: nat, d: Dims, p: Palette, roofStyle: string, pick: nat -> Side)
    requires cols != 0 && rows != 0
    ensures var g := GridShapes(cols, rows, n, d, p, roofStyle, pick);
      && |g| == 6 * n
      && forall i :: 0 <= i < |g| ==>
           var k := i / 6;
           g[i] == CellShapes(CellCenter(cols, rows, RowCol(cols, k).0, RowCol(cols, k).1), d, p, roofStyle, pick(k))[i % 6]
  {
    if n > 0 {
      GridLayout(cols, rows, n - 1, d, p, roofStyle, pick);
      var g := GridShapes(cols, rows, n, d, p, roofStyle, pick);
      forall i | 6 * (n - 1) <= i < 6 * n
        ensures i / 6 == n - 1 && i % 6 == i - 6 * (n - 1)
      {
        DivModUnique(i, 6, n - 1, i - 6 * (n - 1));
      }
    }
  }

  /** Euclidean division gives back quotient and remainder. */
  lemma DivModUnique(a: int, m: int, q: int, r: int)
    requires m > 0 && 0 <= r < m && a == q * m + r
    ensures a / m == q && a % m == r
  {
    var q', r' := a / m, a % m;
    assert q' * m + r' == q * m + r;
    if q' < q {
      assert (q - q') * m == r' - r;
      MulAtLeast(q - q', m);
    } else if q' > q {
      assert (q' - q) * m == r - r';
      MulAtLeast(q' - q, m);
    }
  }

  lemma MulAtLeast(a: int, m: int)
    requires a >= 1 && m > 0
    ensures a * m >= m
  {
  }

  /** Row-major order: the six shapes drawn for row r, column c sit at
      index 6 (r cols + c) of the grid, around that cell's centre, with the
      (r cols + c)-th side chosen. */
  lemma RowMajor(cols: int, rows: int, r: int, c: int, j: int, d: Dims, p: Palette, roofStyle: string, pick: nat -> Side)
    requires cols > 0 && rows > 0 && 0 <= r < rows && 0 <= c < cols && 0 <= j < 6
    ensures var k := r * cols + c;
      var g := GridShapes(cols, rows, NumCells(cols, rows), d, p, roofStyle, pick);
      && 0 <= 6 * k + j < |g|
      && g[6 * k + j] == CellShapes(CellCenter(cols, rows, r, c), d, p, roofStyle, pick(k))[j]
  {
    var k := r * cols + c;
    var n := NumCells(cols, rows);
    var g := GridShapes(cols, rows, n, d, p, roofStyle, pick);
    GridLayout(cols, rows, n, d, p, roofStyle, pick);
    assert n == rows * cols;
    assert k < n by {
      MulMonotoneInt(r, rows - 1, cols);
      assert (rows - 1) * cols == rows * cols - cols;
    }
    var i := 6 * k + j;
    assert 0 <= i < |g| by {
      assert 6 * k + 6 <= 6 * n;
    }
    DivModUnique(i, 6, k, j);
    RowColDivMod(cols, k);
    DivModUnique(k, cols, r, c);
    assert g[i] == CellShapes(CellCenter(cols, rows, RowCol(cols, k).0, RowCol(cols, k).1), d, p, roofStyle, pick(k))[i % 6];
  }

  lemma MulMonotoneInt(a: int, b: int, m: int)
    requires 0 <= a <= b && m >= 0
    ensures a * m <= b * m
  {
  }

  /** The number of filled shapes (all but lines) in a list. */
  function CountFilled(xs: seq<Shape>): nat
  {
    if xs == [] then 0 else (if xs[0].Line? then 0 else 1) + CountFilled(xs[1..])
  }

  /** The number of lines in a list. */
  function CountLines(xs: seq<Shape>): nat
  {
    if xs == [] then 0 else (if xs[0].Line? then 1 else 0) + CountLines(xs[1..])
  }

  lemma {:induction false} CountAppend(xs: seq<Shape>, ys: seq<Shape>)
    ensures CountFilled(xs + ys) == CountFilled(xs) + CountFilled(ys)
    ensures CountLines(xs + ys) == CountLines(xs) + CountLines(ys)
    decreases |xs|
  {
    if xs == [] {
      assert xs + ys == ys;
    } else {
      assert (xs + ys)[1..] == xs[1..] + ys;
      CountAppend(xs[1..], ys);
    }
  }

  lemma {:induction false} RoadsAreLines(n: int, cell: real)
    ensures CountLines(HRoads(n, cell)) == NonNeg(n - 1) && CountFilled(HRoads(n, cell)) == 0
    ensures CountLines(VRoads(n, cell)) == NonNeg(n - 1) && CountFilled(VRoads(n, cell)) == 0
    decreases n
  {
    if n > 1 {
      RoadsAreLines(n - 1, cell);
      CountAppend(HRoads(n - 1, cell), [HRoad(n - 1, cell)]);
      CountAppend(VRoads(n - 1, cell), [VRoad(n - 1, cell)]);
    }
  }

  lemma {:induction false} GridFilled(cols: int, rows: int, n: nat, d: Dims, p: Palette, roofStyle: string, pick: nat -> Side)
    requires cols != 0 && rows != 0
    ensures var g := GridShapes(cols, rows, n, d, p, roofStyle, pick);
      CountFilled(g) == 6 * n && CountLines(g) == 0
  {
    if n > 0 {
      var k := n - 1;
      var cell := CellShapes(CellCenter(cols, rows, RowCol(cols, k).0, RowCol(cols, k).1), d, p, roofStyle, pick(k));
      GridFilled(cols, rows, k, d, p, roofStyle, pick);
      CountAppend(GridShapes(cols, rows, k, d, p, roofStyle, pick), cell);
      NoLines(cell);
    }
  }

  /** A list without lines counts only filled shapes. */
  lemma {:induction false} NoLines(xs: seq<Shape>)
    requires forall i :: 0 <= i < |xs| ==> !xs[i].Line?
    ensures CountFilled(xs) == |xs| && CountLines(xs) == 0
    decreases |xs|
  {
    if xs != [] {
      NoLines(xs[1..]);
    }
  }

  /** draw_village fills 6 shapes per cell (4 for the house, 2 for the tree)
      and one more for the sun exactly when the flag is "y", and draws
      rows - 1 + cols - 1 road lines. */
  lemma VillageCount(cols: int, rows: int, d: Dims, p: Palette, sunFlag: string, roofStyle: string, pick: nat -> Side)
    requires cols != 0 && rows != 0
    ensures var v := VillageShapes(cols, rows, d, p, sunFlag, roofStyle, pick);
      && CountFilled(v) == 6 * NumCells(cols, rows) + (if sunFlag == "y" then 1 else 0)
      && CountLines(v) == NonNeg(rows - 1) + NonNeg(cols - 1)
      && |v| == CountFilled(v) + CountLines(v)
  {
    var rs := Roads(cols, rows, CellWidth(cols), CellHeight(rows));
    var g := GridShapes(cols, rows, NumCells(cols, rows), d, p, roofStyle, pick);
    var v := VillageShapes(cols, rows, d, p, sunFlag, roofStyle, pick);
    RoadsAreLines(rows, CellHeight(rows));
    RoadsAreLines(cols, CellWidth(cols));
    CountAppend(HRoads(rows, CellHeight(rows)), VRoads(cols, CellWidth(cols)));
    GridFilled(cols, rows, NumCells(cols, rows), d, p, roofStyle, pick);
    CountAppend(rs, g);
    CountAppend(rs + g, SunShapes(sunFlag));
    assert sunFlag == "y" ==> SunShapes(sunFlag)[1..] == [];
    CountTotal(v);
  }

  lemma {:induction false} CountTotal(xs: seq<Shape>)
    ensures |xs| == CountFilled(xs) + CountLines(xs)
    decreases |xs|
  {
    if xs != [] {
      CountTotal(xs[1..]);
    }
  }

  /** The sun, a yellow circle of radius 35 centred at (353, 253), is drawn
      if and only if the flag is "y", and then last. */
  lemma SunIffFlag(cols: int, rows: int, d: Dims, p: Palette, sunFlag: string, roofStyle: string, pick: nat -> Side)
    requires cols != 0 && rows != 0
    ensures SunShape() == Circle(Point(353.0, 253.0), 35.0, "yellow")
    ensures var v := VillageShapes(cols, rows, d, p, sunFlag, roofStyle, pick);
      && (SunShape() in v <==> sunFlag == "y")
      && (sunFlag == "y" ==> v[|v| - 1] == SunShape())
  {
    var rs := Roads(cols, rows, CellWidth(cols), CellHeight(rows));
    var g := GridShapes(cols, rows, NumCells(cols, rows), d, p, roofStyle, pick);
    if sunFlag != "y" {
      RoadsLayout(cols, rows, CellWidth(cols), CellHeight(rows));
      assert SunShape() !in rs;
      GridHasNoSun(cols, rows, NumCells(cols, rows), d, p, roofStyle, pick);
      assert rs + g + SunShapes(sunFlag) == rs + g;
    }
  }

  /** No cell of the grid draws the sun: houses are rectangles and
      triangles, and the foliage circle is green. */
  lemma {:induction false} GridHasNoSun(cols: int, rows: int, n: nat, d: Dims, p: Palette, roofStyle: string, pick: nat -> Side)
    requires cols != 0 && rows != 0
    ensures SunShape() !in GridShapes(cols, rows, n, d, p, roofStyle, pick)
  {
    if n > 0 {
      var k := n - 1;
      GridHasNoSun(cols, rows, k, d, p, roofStyle, pick);
      var center := CellCenter(cols, rows, RowCol(cols, k).0, RowCol(cols, k).1);
      assert SunShape() !in CellShapes(center, d, p, roofStyle, pick(k));
    }
  }

  /** The two-by-two grid: cells of 400 x 260, centred at (-200, 130),
      (200, 130), (-200, -130), (200, -130) in row-major order; with the sun
      there are 27 shapes: 2 roads, 24 house and tree fills, 1 sun. */
  lemma TwoByTwo(d: Dims, p: Palette, roofStyle: string, pick: nat -> Side)
    ensures CellWidth(2) == 400.0 && CellHeight(2) == 260.0
    ensures CellCenter(2, 2, 0, 0) == Point(-200.0, 130.0)
    ensures CellCenter(2, 2, 0, 1) == Point(200.0, 130.0)
    ensures CellCenter(2, 2, 1, 0) == Point(-200.0, -130.0)
    ensures CellCenter(2, 2, 1, 1) == Point(200.0, -130.0)
    ensures var v := VillageShapes(2, 2, d, p, "y", roofStyle, pick);
      |v| == 27 && CountFilled(v) == 25 && CountLines(v) == 2
  {
    assert LeftX == -400.0 && TopY == 260.0;
    assert CellWidth(2) == 400.0 && CellHeight(2) == 260.0;
    VillageCount(2, 2, d, p, "y", roofStyle, pick);
  }

  /** A medium house with a triangular roof has its apex 100 above the centre. */
  lemma MediumTriangleApex(cx: real, cy: real, p: Palette)
    ensures "m" in Sizes && HouseShapes(cx, cy, Sizes["m"], p, "triangle")[1].p3 == Point(cx, cy + 100.0)
  {
  }
}
