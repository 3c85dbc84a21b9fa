/** The drawing routines of the village: draw_roads, draw_house_centered,
    draw_tree_near and draw_village, as methods driving the turtle through
    the helpers. Each is proved to draw exactly the shape list the Layout
    module defines for it, or to stop with the exception the program would
    raise. */
module Village {
  import opened Canvas
  import opened Helpers
  import opened Layout

  /** The exceptions the drawing code can raise. */
  datatype Fault = KeyError(key: string) | ZeroDivisionError

  datatype Outcome = Done | Raised(fault: Fault)

  /** The turtle state draw_roads starts drawing from: black pen, width 2. */
  function RoadPen(st: State): State
  {
    st.(penColor := "black", penSize := 2)
  }

  /** The first loop of draw_roads: a line across the canvas at
      y = top_y - r cell_h for each r in range(1, rows). */
  method DrawHRoads(t: Turtle, rows: int, cellH: real)
    modifies t
    ensures t.Snapshot() == ApplyAll(old(t.Snapshot()), HRoads(rows, cellH))
  {
    ghost var s0 := t.Snapshot();
    var r := 1;
    while r < rows
      invariant r == 1 || r <= rows
      invariant t.Snapshot() == ApplyAll(s0, HRoads(r, cellH))
    {
      var y := TopY - r as real * cellH;
      DrawLine(t, LeftX, y, RightX, y);
      ApplyAllSnoc(s0, HRoads(r, cellH), HRoad(r, cellH));
      r := r + 1;
    }
    assert HRoads(r, cellH) == HRoads(rows, cellH);
  }

  /** The second loop of draw_roads: a line down the band at
      x = left_x + c cell_w for each c in range(1, cols). */
  method DrawVRoads(t: Turtle, cols: int, cellW: real)
    modifies t
    ensures t.Snapshot() == ApplyAll(old(t.Snapshot()), VRoads(cols, cellW))
  {
    ghost var s0 := t.Snapshot();
    var c := 1;
    while c < cols
      invariant c == 1 || c <= cols
      invariant t.Snapshot() == ApplyAll(s0, VRoads(c, cellW))
    {
      var x := LeftX + c as real * cellW;
      DrawLine(t, x, TopY, x, BotY);
      ApplyAllSnoc(s0, VRoads(c, cellW), VRoad(c, cellW));
      c := c + 1;
    }
    assert VRoads(c, cellW) == VRoads(cols, cellW);
  }

  /** `draw_roads(cols, rows, cell_w, cell_h)`: a black pen of width 2, then
      a horizontal line for each r in range(1, rows), then a vertical line
      for each c in range(1, cols). */
  method DrawRoads(t: Turtle, cols: int, rows: int, cellW: real, cellH: real)
    modifies t
    ensures t.Snapshot() == ApplyAll(RoadPen(old(t.Snapshot())), Roads(cols, rows, cellW, cellH))
  {
    t.SetPenColor("black");
    t.SetPenSize(2);
    ghost var s0 := t.Snapshot();
    DrawHRoads(t, rows, cellH);
    DrawVRoads(t, cols, cellW);
    ApplyAllAppend(s0, HRoads(rows, cellH), VRoads(cols, cellW));
  }

  /** `draw_house_centered(cx, cy, size_key, theme_key, roof_style)`: looks
      the size up, then the theme; a missing key raises KeyError before
      anything is drawn. Otherwise it fills body, roof, door and window. */
  method DrawHouseCentered(t: Turtle, cx: real, cy: real, sizeKey: string, themeKey: string, roofStyle: string)
    returns (outcome: Outcome)
    modifies t
    ensures sizeKey !in Sizes ==> outcome == Raised(KeyError(sizeKey)) && t.Snapshot() == old(t.Snapshot())
    ensures sizeKey in Sizes && themeKey !in Themes ==>
      outcome == Raised(KeyError(themeKey)) && t.Snapshot() == old(t.Snapshot())
    ensures sizeKey in Sizes && themeKey in Themes ==>
      && outcome == Done
      && t.Snapshot() == ApplyAll(old(t.Snapshot()), HouseShapes(cx, cy, Sizes[sizeKey], Themes[themeKey], roofStyle))
  {
    if sizeKey !in Sizes {
      return Raised(KeyError(sizeKey));
    }
    var d := Sizes[sizeKey];
    if themeKey !in Themes {
      return Raised(KeyError(themeKey));
    }
    var colors := Themes[themeKey];
    ghost var s0 := t.Snapshot();
    ghost var hs := HouseShapes(cx, cy, d, colors, roofStyle);

    FillRectCenter(t, cx, cy, d.w, d.h, colors.body);
    ghost var s1 := t.Snapshot();
    assert s1 == Apply(s0, hs[0]);

    var yT := cy + d.h / 2.0;
    if roofStyle == "triangle" {
      FillTriangle(t, Point(cx - d.w / 2.0, yT), Point(cx + d.w / 2.0, yT), Point(cx, yT + 0.5 * d.h), colors.roof);
    } else {
      FillRectCenter(t, cx, yT + d.h * 0.1, d.w, d.h * 0.2, colors.roof);
    }
    ghost var s2 := t.Snapshot();
    assert s2 == Apply(s1, hs[1]);

    var doorW, doorH := d.w * 0.25, d.h * 0.52;
    FillRectCenter(t, cx, cy - d.h * 0.22, doorW, doorH, colors.door);
    ghost var s3 := t.Snapshot();
    assert s3 == Apply(s2, hs[2]);

    var winW, winH := d.w * 0.2, d.h * 0.2;
    FillRectCenter(t, cx - d.w * 0.25, cy + d.h * 0.1, winW, winH, colors.window);
    assert t.Snapshot() == Apply(s3, hs[3]);
    ApplyAllFour(s0, hs[0], hs[1], hs[2], hs[3]);
    assert hs == [hs[0], hs[1], hs[2], hs[3]];
    return Done;
  }

  /** `draw_tree_near(cx, cy, size_key)`, with `side` the value
      random.choice([-1, 1]) returns: looks the size up (KeyError before
      anything is drawn), then fills the trunk and the foliage. */
  method DrawTreeNear(t: Turtle, cx: real, cy: real, sizeKey: string, side: Side) returns (outcome: Outcome)
    modifies t
    ensures sizeKey !in Sizes ==> outcome == Raised(KeyError(sizeKey)) && t.Snapshot() == old(t.Snapshot())
    ensures sizeKey in Sizes ==>
      outcome == Done && t.Snapshot() == ApplyAll(old(t.Snapshot()), TreeShapes(cx, cy, Sizes[sizeKey], side))
  {
    if sizeKey !in Sizes {
      return Raised(KeyError(sizeKey));
    }
    var d := Sizes[sizeKey];
    ghost var s0 := t.Snapshot();
    ghost var ts := TreeShapes(cx, cy, d, side);
    var tw, th := d.w * 0.10, d.h * 0.40;
    var tx := cx + side as real * (d.w * 0.45);
    var ty := cy - d.h * 0.5 + th / 2.0;
    FillRectCenter(t, tx, ty, tw, th, TrunkColor);
    ghost var s1 := t.Snapshot();
    assert s1 == Apply(s0, ts[0]);
    FillCircleCenter(t, tx, ty + th / 2.0 + d.h * 0.15, d.w * 0.18, LeafColor);
    assert t.Snapshot() == Apply(s1, ts[1]);
    ApplyAllTwo(s0, ts[0], ts[1]);
    assert ts == [ts[0], ts[1]];
    return Done;
  }

  /** Drawing cell k, in row r and column c, after the first k cells of the
      grid, has drawn the first k + 1. */
  lemma CellStep(s1: State, before: State, after: State, cols: int, rows: int, k: nat, r: int, c: int,
                 d: Dims, p: Palette, roofStyle: string, pick: nat -> Side)
    requires cols > 0 && rows != 0 && 0 <= c < cols && k == r * cols + c
    requires before == ApplyAll(s1, GridShapes(cols, rows, k, d, p, roofStyle, pick))
    requires var ctr := CellCenter(cols, rows, r, c);
      after == ApplyAll(before, HouseShapes(ctr.x, ctr.y, d, p, roofStyle) + TreeShapes(ctr.x, ctr.y, d, pick(k)))
    ensures after == ApplyAll(s1, GridShapes(cols, rows, k + 1, d, p, roofStyle, pick))
  {
    var ctr := CellCenter(cols, rows, r, c);
    var g := GridShapes(cols, rows, k, d, p, roofStyle, pick);
    var cell := HouseShapes(ctr.x, ctr.y, d, p, roofStyle) + TreeShapes(ctr.x, ctr.y, d, pick(k));
    GridStep(cols, rows, k, r, c, d, p, roofStyle, pick);
    assert GridShapes(cols, rows, k + 1, d, p, roofStyle, pick) == g + cell;
    ApplyAllAppend(s1, g, cell);
  }

  /** Both table keys are present. */
  predicate KnownKeys(sizeKey: string, themeKey: string)
  {
    sizeKey in Sizes && themeKey in Themes
  }

  /** The KeyError the first house raises for unknown keys: the size is looked
      up first. */
  function MissingKey(sizeKey: string, themeKey: string): Fault
  {
    if sizeKey !in Sizes then KeyError(sizeKey) else KeyError(themeKey)
  }

  /** How draw_village ends: dividing by zero for a zero column or row
      count, with KeyError at the first house for an unknown key when there
      is a house to draw, and normally otherwise. */
  function VillageOutcome(cols: int, rows: int, sizeKey: string, themeKey: string): Outcome
  {
    if cols == 0 || rows == 0 then Raised(ZeroDivisionError)
    else if NumCells(cols, rows) > 0 && !KnownKeys(sizeKey, themeKey) then Raised(MissingKey(sizeKey, themeKey))
    else Done
  }

  /** The cells draw_village has drawn when its loops end or raise: all of
      them when both keys are known, none otherwise (an unknown key raises at
      the first house, before it draws anything). */
  function CellsDrawn(cols: int, rows: int, sizeKey: string, themeKey: string,
                      roofStyle: string, pick: nat -> Side): seq<Shape>
    requires cols != 0 && rows != 0
  {
    if KnownKeys(sizeKey, themeKey)
    then GridShapes(cols, rows, NumCells(cols, rows), Sizes[sizeKey], Themes[themeKey], roofStyle, pick)
    else []
  }

  /** What draw_village has drawn when it returns or raises, once past the
      cell-size division: the roads, the cells drawn, and the sun if asked
      for and nothing raised. */
  function VillageDrawn(cols: int, rows: int, sizeKey: string, themeKey: string,
                        sunFlag: string, roofStyle: string, pick: nat -> Side): seq<Shape>
    requires cols != 0 && rows != 0
  {
    Roads(cols, rows, CellWidth(cols), CellHeight(rows))
      + CellsDrawn(cols, rows, sizeKey, themeKey, roofStyle, pick)
      + (if VillageOutcome(cols, rows, sizeKey, themeKey) == Done then SunShapes(sunFlag) else [])
  }

  /** With both keys known draw_village finishes and draws the whole village;
      with an unknown key and at least one cell it raises at the first house,
      leaving only the roads; with no cells it never looks the keys up. */
  lemma VillageDrawnCases(cols: int, rows: int, sizeKey: string, themeKey: string,
                          sunFlag: string, roofStyle: string, pick: nat -> Side)
    requires cols != 0 && rows != 0
    ensures var v := VillageDrawn(cols, rows, sizeKey, themeKey, sunFlag, roofStyle, pick);
      var roads := Roads(cols, rows, CellWidth(cols), CellHeight(rows));
      && (KnownKeys(sizeKey, themeKey) ==>
            VillageOutcome(cols, rows, sizeKey, themeKey) == Done
            && v == VillageShapes(cols, rows, Sizes[sizeKey], Themes[themeKey], sunFlag, roofStyle, pick))
      && (!KnownKeys(sizeKey, themeKey) && NumCells(cols, rows) > 0 ==> v == roads)
      && (NumCells(cols, rows) == 0 ==> v == roads + SunShapes(sunFlag))
  {
    var roads := Roads(cols, rows, CellWidth(cols), CellHeight(rows));
    var cells := CellsDrawn(cols, rows, sizeKey, themeKey, roofStyle, pick);
    if NumCells(cols, rows) == 0 && KnownKeys(sizeKey, themeKey) {
      assert cells == [];
    }
    assert NumCells(cols, rows) == 0 ==> roads + cells == roads;
    assert roads + cells + [] == roads + cells;
  }

  /** One cell of draw_village: the house at the cell centre, then the tree
      beside it, `side` being what random.choice gives this tree. An unknown
      key stops it at the house, with nothing drawn. */
  method DrawCell(t: Turtle, cx: real, cy: real, sizeKey: string, themeKey: string,
                  roofStyle: string, side: Side) returns (outcome: Outcome)
    modifies t
    ensures !KnownKeys(sizeKey, themeKey) ==>
      outcome == Raised(MissingKey(sizeKey, themeKey)) && t.Snapshot() == old(t.Snapshot())
    ensures KnownKeys(sizeKey, themeKey) ==>
      && outcome == Done
      && t.Snapshot() == ApplyAll(old(t.Snapshot()), HouseShapes(cx, cy, Sizes[sizeKey], Themes[themeKey], roofStyle)
                                                     + TreeShapes(cx, cy, Sizes[sizeKey], side))
  {
    ghost var before := t.Snapshot();
    outcome := DrawHouseCentered(t, cx, cy, sizeKey, themeKey, roofStyle);
    if outcome.Raised? {
      return;
    }
    // The size key was found by the house, so the tree finds it too.
    outcome := DrawTreeNear(t, cx, cy, sizeKey, side);
    ApplyAllAppend(before, HouseShapes(cx, cy, Sizes[sizeKey], Themes[themeKey], roofStyle),
                   TreeShapes(cx, cy, Sizes[sizeKey], side));
  }

  /** The body of draw_village's inner loop, at row r and column c: cell
      k = r cols + c at its centre, with side pick(k). Given that the first
      k cells of the grid are drawn, it draws the first k + 1, or raises
      KeyError at the very first house of the grid. */
  method DrawGridCell(t: Turtle, cols: int, rows: int, r: int, c: int, k: nat, sizeKey: string, themeKey: string,
                      roofStyle: string, pick: nat -> Side, ghost s1: State, ghost d: Dims, ghost p: Palette)
    returns (outcome: Outcome)
    requires cols > 0 && rows != 0 && 0 <= c < cols && k == r * cols + c
    requires k > 0 ==> KnownKeys(sizeKey, themeKey)
    requires KnownKeys(sizeKey, themeKey) ==> d == Sizes[sizeKey] && p == Themes[themeKey]
    requires t.Snapshot() == ApplyAll(s1, GridShapes(cols, rows, k, d, p, roofStyle, pick))
    modifies t
    ensures outcome.Raised? ==>
      && k == 0 && !KnownKeys(sizeKey, themeKey)
      && outcome == Raised(MissingKey(sizeKey, themeKey)) && t.Snapshot() == old(t.Snapshot())
    ensures outcome == Done ==>
      && KnownKeys(sizeKey, themeKey)
      && t.Snapshot() == ApplyAll(s1, GridShapes(cols, rows, k + 1, d, p, roofStyle, pick))
  {
    // (left_x + (c + 0.5) * cell_w, top_y - (r + 0.5) * cell_h)
    var center := CellCenter(cols, rows, r, c);
    ghost var before := t.Snapshot();
    outcome := DrawCell(t, center.x, center.y, sizeKey, themeKey, roofStyle, pick(k));
    if outcome.Done? {
      CellStep(s1, before, t.Snapshot(), cols, rows, k, r, c, d, p, roofStyle, pick);
    }
  }

  /** The inner loop of draw_village, row r: a cell for each column c in
      range(cols), cell r cols + c taking the side pick(r cols + c). Given
      that the first k0 = r cols cells of the grid are drawn, it draws the
      row's cells, or raises KeyError at the very first house of the grid. */
  method DrawRow(t: Turtle, cols: int, rows: int, r: int, k0: nat, sizeKey: string, themeKey: string,
                 roofStyle: string, pick: nat -> Side, ghost s1: State, ghost d: Dims, ghost p: Palette)
    returns (outcome: Outcome, k: nat)
    requires cols != 0 && rows != 0 && 0 <= r && k0 == r * NonNeg(cols)
    requires k0 > 0 ==> KnownKeys(sizeKey, themeKey)
    requires KnownKeys(sizeKey, themeKey) ==> d == Sizes[sizeKey] && p == Themes[themeKey]
    requires t.Snapshot() == ApplyAll(s1, GridShapes(cols, rows, k0, d, p, roofStyle, pick))
    modifies t
    ensures outcome.Raised? ==>
      && k0 == 0 && cols > 0 && !KnownKeys(sizeKey, themeKey)
      && outcome == Raised(MissingKey(sizeKey, themeKey)) && t.Snapshot() == old(t.Snapshot())
    ensures outcome == Done ==>
      && k == k0 + NonNeg(cols) && (k > 0 ==> KnownKeys(sizeKey, themeKey))
      && t.Snapshot() == ApplyAll(s1, GridShapes(cols, rows, k, d, p, roofStyle, pick))
  {
    k := k0;
    var c := 0;
    while c < cols
      invariant 0 <= c <= NonNeg(cols) && k == k0 + c
      invariant k > 0 ==> KnownKeys(sizeKey, themeKey)
      invariant t.Snapshot() == ApplyAll(s1, GridShapes(cols, rows, k, d, p, roofStyle, pick))
    {
      outcome := DrawGridCell(t, cols, rows, r, c, k, sizeKey, themeKey, roofStyle, pick, s1, d, p);
      if outcome.Raised? {
        return;
      }
      k := k + 1;
      c := c + 1;
    }
    outcome := Done;
  }

  /** The two nested loops of draw_village: a row of cells for each r in
      range(rows). With an unknown key the first house raises KeyError and
      nothing is drawn; otherwise every cell is drawn. */
  method DrawGrid(t: Turtle, cols: int, rows: int, sizeKey: string, themeKey: string,
                  roofStyle: string, pick: nat -> Side) returns (outcome: Outcome)
    requires cols != 0 && rows != 0
    modifies t
    ensures outcome == if NumCells(cols, rows) > 0 && !KnownKeys(sizeKey, themeKey)
                       then Raised(MissingKey(sizeKey, themeKey)) else Done
    ensures t.Snapshot() == ApplyAll(old(t.Snapshot()), CellsDrawn(cols, rows, sizeKey, themeKey, roofStyle, pick))
  {
    ghost var s1 := t.Snapshot();
    // The sizes and themes only matter once a cell is drawn; these stand in
    // for them in the statement of what has been drawn so far.
    ghost var d := if sizeKey in Sizes then Sizes[sizeKey] else Dims(0.0, 0.0);
    ghost var p := if themeKey in Themes then Themes[themeKey] else Palette("", "", "", "");
    var k: nat := 0;  // how many trees (random.choice calls) so far
    var r := 0;
    while r < rows
      invariant 0 <= r && (r == 0 || r <= rows)
      invariant k == r * NonNeg(cols)
      invariant k > 0 ==> KnownKeys(sizeKey, themeKey)
      invariant t.Snapshot() == ApplyAll(s1, GridShapes(cols, rows, k, d, p, roofStyle, pick))
    {
      outcome, k := DrawRow(t, cols, rows, r, k, sizeKey, themeKey, roofStyle, pick, s1, d, p);
      if outcome.Raised? {
        assert NumCells(cols, rows) > 0;
        return;
      }
      assert (r + 1) * NonNeg(cols) == r * NonNeg(cols) + NonNeg(cols);
      r := r + 1;
    }
    assert k == NumCells(cols, rows) by {
      if rows > 0 {
        assert r == rows;
        if cols > 0 {
          assert k == rows * cols;
        }
      }
    }
    outcome := Done;
  }

  /** `draw_village(cols, rows, size_key, theme_key, sun_flag, roof_style)`;
      `pick(k)` is the side random.choice gives the k-th tree. A zero column
      or row count divides by zero before anything is drawn; otherwise the
      roads are drawn with a black pen of width 2 and then the cells in
      row-major order and the sun, as VillageDrawn says. */
  method DrawVillage(t: Turtle, cols: int, rows: int, sizeKey: string, themeKey: string,
                     sunFlag: string, roofStyle: string, pick: nat -> Side) returns (outcome: Outcome)
    modifies t
    ensures outcome == VillageOutcome(cols, rows, sizeKey, themeKey)
    ensures cols == 0 || rows == 0 ==> t.Snapshot() == old(t.Snapshot())
    ensures cols != 0 && rows != 0 ==>
      t.Snapshot() == ApplyAll(RoadPen(old(t.Snapshot())), VillageDrawn(cols, rows, sizeKey, themeKey, sunFlag, roofStyle, pick))
  {
    if cols == 0 || rows == 0 {
      return Raised(ZeroDivisionError);
    }
    var cellW := CellWidth(cols);   // CANVAS_W / cols
    var cellH := CellHeight(rows);  // (CANVAS_H - TOP_MARGIN - BOTTOM_MARGIN) / rows
    ghost var s0 := RoadPen(t.Snapshot());
    ghost var roads := Roads(cols, rows, cellW, cellH);
    DrawRoads(t, cols, rows, cellW, cellH);
    ghost var cells := CellsDrawn(cols, rows, sizeKey, themeKey, roofStyle, pick);
    outcome := DrawGrid(t, cols, rows, sizeKey, themeKey, roofStyle, pick);
    ApplyAllAppend(s0, roads, cells);
    if outcome.Raised? {
      assert roads + cells + [] == roads + cells;
      return;
    }
    if sunFlag == "y" {
      var rad := 35.0;
      var cx := CanvasW / 2.0 - rad - 12.0;
      var cy := CanvasH / 2.0 - rad - 12.0;
      FillCircleCenter(t, cx, cy, rad, SunColor);
      ApplyAllSnoc(s0, roads + cells, SunShape());
    } else {
      assert roads + cells + SunShapes(sunFlag) == roads + cells;
    }
  }
}
