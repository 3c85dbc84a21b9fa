# Turtle Village — a verified model

`turtle_village_student.py` is a small teaching program. It asks for a
village layout (houses per row, rows, house size, colour theme, roof type,
sun or not) and draws the village with Python's `turtle` library:
- road lines between the cells;
- in every cell of the grid, a house and a tree beside it;
- optionally, a sun in the top right corner.

This project models that program's core in Dafny and proves what it draws.

- `canvas.dfy` (`Canvas`): the turtle the program drives, as a class whose fields the library primitives update:
  - position, heading, pen state, fill and pen colour, pen width;
  - the ink left on the canvas;
  - a log of every helper call in order: filled shapes and lines.

  Headings are the four compass directions, so `forward` is exact.
- `helpers.dfy` (`Helpers`): `move_to`, `draw_line`, `fill_rect_center`, `fill_triangle` and `fill_circle_center` as methods on that turtle, each proved against a pure state machine.
  - `Apply(st, shape)` is the state after the helper that draws `shape`.
  - `ApplyAll` is a list of such calls, one after another.
  - The lemmas about `ApplyAll` say what any sequence of helper calls keeps and changes.
- `layout.dfy` (`Layout`): the `SIZES`/`THEMES` tables, the canvas constants, and the exact coordinate arithmetic as functions:
  - cell sizes and centres;
  - the road lines;
  - the four shapes of a house and the two of a tree;
  - the whole village's shape list.

  Its lemmas state the geometry and the counts.
- `prompt.dfy` (`Prompt`): `ask_choice_int` and `ask_choice_str` as loops over a scripted input. It also defines `.lower()` and `.strip()` and proves how they interact.
- `village.dfy` (`Village`): `draw_roads`, `draw_house_centered`, `draw_tree_near` and `draw_village` as methods on the turtle.
  - Each is proved to leave the turtle exactly as `ApplyAll` of the shape list `Layout` defines for it.
  - Otherwise it stops with the exception the program raises: `KeyError` for a key missing from a table, or `ZeroDivisionError` for a zero row or column count.
  - `random.choice([-1, 1])` is the parameter `pick`: `pick(k)` is the side the k-th tree gets in row-major order.
- `program.dfy` (`Program`): what `main` feeds `draw_village`. Every answer its prompts accept names an entry of the tables.

Coordinates are exact `real`s. Cell centres follow the code. For a 2 × 2 grid they are (-200, 130), (200, 130), (-200, -130) and (200, -130) (`Layout.TwoByTwo`). The drawable band runs from y = 260 down to y = -260, so each of the two rows is 260 high.

## Model

| member | source | states |
|---|---|---|
| Canvas.TurnsCompose | turtle_village_student.py:65-69 | four right(90) turns are a full turn; a left quarter turn undoes a right one; right(90 n) is n single right turns for n = 0 to 4 and -1 |
| Canvas.TurnRightStep | turtle_village_student.py:65-69 | for every whole n, right(90 (n + 1)) is right(90 n) followed by one more right(90), so right(90 n) is n single right turns |
| Helpers.MoveTo | turtle_village_student.py:32-39 | the turtle ends at (x, y) with the pen down and no new ink; only position, pen and ink may change |
| Helpers.DrawLine | turtle_village_student.py:42-50 | the new state is Apply for a line: one segment inked from (x1, y1) to (x2, y2), the turtle at (x2, y2) with the pen up, heading, colours and pen width untouched, the line logged |
| Helpers.Headings | turtle_village_student.py:65-69 | the heading at each corner is a clockwise quarter turn after the previous one, and after the fourth turn it is the starting heading again |
| Helpers.RectCorners | turtle_village_student.py:61-69 | the loop visits five corners, each the previous one moved w or h along the current heading; the walk is closed (the fifth corner is the first) |
| Helpers.HalfLap | turtle_village_student.py:65-69 | one pass of the loop body inks exactly the sides from corner k to corner k + 2 and turns twice |
| Helpers.TraceRect | turtle_village_student.py:64-69 | the loop leaves heading and position as it found them, and the ink gains exactly the four sides of the traced rectangle; nothing else changes |
| Helpers.RectOutlineEast | turtle_village_student.py:53-70 | heading east, the four sides run clockwise through exactly (cx - w/2, cy + h/2), (cx + w/2, cy + h/2), (cx + w/2, cy - h/2), (cx - w/2, cy - h/2), and back to the first |
| Helpers.FillRectCenter | turtle_village_student.py:53-70 | the new state is Apply for the rectangle: fill colour set, pen black and down at the top-left corner, heading unchanged, ink the four traced sides, rectangle logged |
| Helpers.FillTriangle | turtle_village_student.py:73-84 | the new state is Apply for the triangle: pen black and down at p1, ink p1-p2, p2-p3, p3-p1, fill colour set, heading unchanged, triangle logged |
| Helpers.FillCircleCenter | turtle_village_student.py:87-100 | the new state is Apply for the circle: the turtle at the bottom point (cx, cy - r), one circle inked, fill colour set, pen black, circle logged |
| Helpers.CircleOutlineEast | turtle_village_student.py:87-100 | heading east, starting the circle at its bottom point puts the inked circle's centre exactly at (cx, cy) |
| Helpers.Outline | turtle_village_student.py:53-100 | the ink one helper call leaves for its shape: the four traced sides of a rectangle from its top-left corner, the three sides p1-p2, p2-p3, p3-p1 of a triangle, one circle whose centre is r to the left of the bottom point, or the one segment of a line |
| Helpers.EndPoint | turtle_village_student.py:32-100 | where one helper call leaves the turtle: a rectangle at its top-left corner (the four sides close the walk), a triangle at p1, a circle at its bottom point (cx, cy - r), a line at its end point |
| Helpers.Apply | turtle_village_student.py:32-100 | the turtle state after one helper call: position EndPoint, ink extended by Outline, the shape logged; a line lifts the pen, a filled shape sets the fill colour, a black pen and the pen down |
| Helpers.ApplyAll | turtle_village_student.py:32-100 | the turtle state after a list of helper calls made one after another, in list order |
| Helpers.OutlinesAppend | turtle_village_student.py:42-100 | the ink left by the helper calls for xs + ys is the ink of xs and then the ink of ys, all with the same heading |
| Helpers.ApplyAllAppend | turtle_village_student.py:196-218 | drawing xs and then ys is drawing xs + ys |
| Helpers.ApplyAllKeeps | turtle_village_student.py:42-100 | no helper changes the heading or the pen width; the shapes are logged in call order; a black pen stays black |
| Helpers.ApplyAllInk | turtle_village_student.py:42-100 | the ink of a sequence of helper calls is their outlines in order, all traced with the starting heading |
| Helpers.ApplyAllFill | turtle_village_student.py:42-100 | the fill colour after a sequence of helper calls is the last filled shape's (lines leave it alone) |
| Helpers.ApplyAllRest | turtle_village_student.py:42-100 | after a non-empty sequence the turtle stands where the last helper left it, with the pen up exactly when that was draw_line |
| Layout.TablesExact | turtle_village_student.py:16-27 | SIZES has exactly the keys s, m, l and THEMES exactly pastel, primary; every house size is positive and 1.5 times as wide as it is high |
| Layout.CellsTileBand | turtle_village_student.py:198-199 | cell_w = 800/cols and cell_h = 520/rows are positive, and cols cells (rows cells) exactly fill the width (the band's height) |
| Layout.CellWidth | turtle_village_student.py:198 | cell_w = CANVAS_W / cols, defined for every non-zero cols |
| Layout.CellHeight | turtle_village_student.py:199 | cell_h = (CANVAS_H - TOP_MARGIN - BOTTOM_MARGIN) / rows, defined for every non-zero rows |
| Layout.CellCenter | turtle_village_student.py:208-209 | the centre (left_x + (c + 0.5) cell_w, top_y - (r + 0.5) cell_h) of the cell in row r, column c |
| Layout.CellCenterInside | turtle_village_student.py:206-209 | the centre of cell (r, c) lies strictly inside that cell, and so strictly inside the drawable band |
| Layout.HRoad | turtle_village_student.py:145-146 | the line from (left_x, y) to (right_x, y) for y = top_y - r cell_h |
| Layout.VRoad | turtle_village_student.py:150-151 | the line from (x, top_y) to (x, bot_y) for x = left_x + c cell_w |
| Layout.HRoads | turtle_village_student.py:144-146 | the horizontal road lines for r in range(1, n), in loop order; none when n <= 1 |
| Layout.VRoads | turtle_village_student.py:149-151 | the vertical road lines for c in range(1, n), in loop order; none when n <= 1 |
| Layout.Roads | turtle_village_student.py:144-151 | all of draw_roads: the horizontal lines, then the vertical lines |
| Layout.HRoadsAt | turtle_village_student.py:144-146 | the horizontal roads are rows - 1 lines; line i is at y = 260 - (i + 1) cell_h and spans x = -400 to 400 |
| Layout.VRoadsAt | turtle_village_student.py:149-151 | the vertical roads are cols - 1 lines; line j is at x = -400 + (j + 1) cell_w and spans y = 260 to -260 |
| Layout.RoadsLayout | turtle_village_student.py:133-151 | the road list is the horizontal lines followed by the vertical lines, with the coordinates above |
| Layout.RoadsInsideBand | turtle_village_student.py:133-151 | with the grid's own cell sizes each road lies strictly inside the band, on a boundary between two rows or two columns |
| Layout.RoadsAreLines | turtle_village_student.py:144-151 | the roads contribute exactly rows - 1 and cols - 1 lines and no filled shapes |
| Layout.HouseShapes | turtle_village_student.py:157-179 | the four fills of draw_house_centered in order: body w x h at (cx, cy); the triangle roof on yT = cy + h/2 with apex yT + 0.5 h, or else the flat roof w x 0.2 h at yT + 0.1 h; the door 0.25 w x 0.52 h at cy - 0.22 h; the window 0.2 w x 0.2 h at (cx - 0.25 w, cy + 0.1 h); each in its theme colour |
| Layout.HouseRoof | turtle_village_student.py:158-171 | the triangle roof's base corners are the body's top corners and its apex is (cx, cy + h); any other roof style gives a flat roof as wide as the body and 0.2 h high, whose bottom edge is the body's top edge cy + h/2 |
| Layout.HouseDoorWindow | turtle_village_student.py:173-179 | door and window lie inside the body and apart, the window left of the door; the door stands 0.02 h above the body's bottom edge |
| Layout.MediumTriangleApex | turtle_village_student.py:16-20 | a medium house with a triangle roof has its apex 100 above the centre |
| Layout.TreeShapes | turtle_village_student.py:186-192 | the two fills of draw_tree_near on a side: the #8B4513 trunk 0.1 w x 0.4 h at tx = cx + side 0.45 w, ty = cy - 0.5 h + th/2, then the #5DAE4D foliage circle of radius 0.18 w at (tx, ty + th/2 + 0.15 h) |
| Layout.TreePlacement | turtle_village_student.py:184-192 | the trunk's bottom edge is the body's, cy - h/2; the trunk is at x = cx ± 0.45 w, flush with the wall on that side; the foliage has radius 0.18 w and sits 0.15 h above the trunk top |
| Layout.RowColDivMod | turtle_village_student.py:206-207 | counting off rows of cols cells puts cell k in row k / cols, column k % cols |
| Layout.GridShapes | turtle_village_student.py:206-211 | the house and then the tree of each of the first n cells, in the nested loops' row-major order, cell k at CellCenter of its row and column with side pick(k) |
| Layout.SunShape | turtle_village_student.py:214-218 | the sun: a yellow circle of radius 35 centred at (800/2 - 35 - 12, 600/2 - 35 - 12) |
| Layout.VillageShapes | turtle_village_student.py:196-218 | everything draw_village draws, in order: the roads, the rows x cols cells (none when a count is negative), then the sun exactly when sun_flag is "y" |
| Layout.GridStep | turtle_village_student.py:206-211 | the (r cols + c + 1)-th cell of the grid is the house and then the tree at the centre of cell (r, c), with side pick(r cols + c) |
| Layout.GridLayout | turtle_village_student.py:206-211 | the grid of n cells has 6 n shapes, and shape i is shape i % 6 of cell i / 6 |
| Layout.RowMajor | turtle_village_student.py:206-211 | the six shapes of row r, column c sit at index 6 (r cols + c), around that cell's centre, with the (r cols + c)-th random side |
| Layout.GridFilled | turtle_village_student.py:206-211 | n cells are exactly 6 n filled shapes and no lines |
| Layout.GridHasNoSun | turtle_village_student.py:206-211 | no cell draws the sun |
| Layout.VillageCount | turtle_village_student.py:196-218 | the village has 6 rows cols filled shapes (4 house and 2 tree fills per cell), plus 1 exactly when sun_flag is "y", and rows - 1 + cols - 1 road lines |
| Layout.SunIffFlag | turtle_village_student.py:214-218 | the sun, a yellow circle of radius 35 centred at (353, 253), is drawn if and only if sun_flag is "y", and then last |
| Layout.TwoByTwo | turtle_village_student.py:196-218 | for 2 × 2 the cells are 400 × 260 and centred at (-200, 130), (200, 130), (-200, -130), (200, -130); with the sun there are 27 shapes, 25 of them filled |
| Prompt.AcceptsInt | turtle_village_student.py:110-113 | an entry is accepted when int() parsed it and its value is in the allowed set |
| Prompt.AskChoiceInt | turtle_village_student.py:104-115 | each entry before the answer was rejected (int() failed, or the value was not allowed); the answer is the first entry, with its value in the allowed list; running out of input returns nothing |
| Prompt.LowerChar | turtle_village_student.py:124 | a lowered character is never an upper-case letter, and only upper-case letters change |
| Prompt.Lower | turtle_village_student.py:124 | `.lower()` keeps the length, leaves no upper-case letter, turns each of A–Z into its partner in a–z, and keeps every character that is not an upper-case letter where it was |
| Prompt.LowerAll | turtle_village_student.py:120 | the allowed list, lowered entry by entry |
| Prompt.AskChoiceStr | turtle_village_student.py:118-129 | each line before the answer normalizes (lower, then strip) to something outside the lowered allowed list; the answer is the next line's normal form and is in that list; running out of input returns nothing |
| Prompt.IsSpace | turtle_village_student.py:124 | the characters Python's str.isspace() accepts, which str.strip() removes: the ASCII whitespace and separators and the Unicode space characters |
| Prompt.LeadCount | turtle_village_student.py:124 | the number of whitespace characters the string starts with; never more than its length |
| Prompt.TrailCount | turtle_village_student.py:124 | the number of whitespace characters the string ends with; never more than its length |
| Prompt.Strip | turtle_village_student.py:124 | `.strip()`: the string without its leading run and then without its trailing run of whitespace |
| Prompt.Normalize | turtle_village_student.py:124 | `.lower().strip()`: the form ask_choice_str compares and returns |
| Prompt.LeadCountRun | turtle_village_student.py:124 | strip() removes exactly the leading run of whitespace |
| Prompt.TrailCountRun | turtle_village_student.py:124 | strip() removes exactly the trailing run of whitespace |
| Prompt.StripIsTrimmed | turtle_village_student.py:124 | strip() leaves no whitespace at either end |
| Prompt.StripPiece | turtle_village_student.py:124 | strip() keeps a contiguous piece of the string whose cut-off ends are all whitespace |
| Prompt.StripTrimmed | turtle_village_student.py:124 | a string with no whitespace at either end is left alone |
| Prompt.StripAllSpace | turtle_village_student.py:124 | a blank answer strips to the empty string |
| Prompt.LowerStripCommute | turtle_village_student.py:124 | lower-then-strip equals strip-then-lower |
| Prompt.NormalizeIdempotent | turtle_village_student.py:124 | normalizing twice is normalizing once; the extra `.lower()` main applies to an accepted answer changes nothing |
| Prompt.CaseInsensitive | turtle_village_student.py:118-129 | two answers that agree up to case normalize alike |
| Prompt.StripPadded | turtle_village_student.py:124 | strip() ignores whitespace added at either end |
| Prompt.PaddingIgnored | turtle_village_student.py:118-129 | padding an answer with whitespace on either side does not change its normal form |
| Prompt.NormalizeTrailing | turtle_village_student.py:124 | an answer followed by whitespace normalizes to the bare answer's lowered form |
| Prompt.PastelExample | turtle_village_student.py:118-129 | "PASTEL " normalizes to "pastel", which the theme prompt's lowered list contains |
| Village.DrawHRoads | turtle_village_student.py:144-146 | the first loop draws exactly the horizontal roads for r in range(1, rows), in order, each as a draw_line call |
| Village.DrawVRoads | turtle_village_student.py:149-151 | the second loop draws exactly the vertical roads for c in range(1, cols), in order |
| Village.DrawRoads | turtle_village_student.py:133-151 | the new state is: pen black, width 2, then the horizontal roads for r in range(1, rows) and the vertical ones for c in range(1, cols), in that order |
| Village.DrawHouseCentered | turtle_village_student.py:155-179 | an unknown size key raises KeyError for it, then an unknown theme key for that one, before anything is drawn; otherwise body, roof, door and window are drawn as the layout says |
| Village.DrawTreeNear | turtle_village_student.py:184-192 | an unknown size key raises KeyError before anything is drawn; otherwise trunk and foliage are drawn on the chosen side |
| Village.DrawCell | turtle_village_student.py:210-211 | the house and then the tree at one centre, or KeyError at the house with nothing drawn |
| Village.CellStep | turtle_village_student.py:206-211 | drawing cell r cols + c after the first r cols + c cells has drawn the first r cols + c + 1 |
| Village.DrawGridCell | turtle_village_student.py:208-211 | the inner loop body draws grid cell k = r cols + c after the first k, or raises only at the first cell of the grid |
| Village.DrawRow | turtle_village_student.py:207-211 | one row of cells extends the drawn grid by cols cells, or raises only at the very first house |
| Village.DrawGrid | turtle_village_student.py:206-211 | the nested loops draw every cell when both keys are known, and nothing otherwise; they raise KeyError exactly when there is a cell and a key is unknown |
| Village.VillageOutcome | turtle_village_student.py:196-218 | how draw_village ends: ZeroDivisionError when cols or rows is 0 (lines 198-199); otherwise KeyError at the first house (lines 157-158) when there is at least one cell and the size or theme key is unknown; otherwise normally |
| Village.CellsDrawn | turtle_village_student.py:206-211 | the cells the loops have drawn when they end or raise: every cell's house and tree when both keys are known, none otherwise |
| Village.VillageDrawn | turtle_village_student.py:196-218 | what draw_village has drawn once past the division: the roads, then CellsDrawn, then the sun when sun_flag is "y" and nothing raised |
| Village.VillageDrawnCases | turtle_village_student.py:196-218 | with both keys known the drawing is the whole village; an unknown key with at least one cell leaves only the roads; with no cells the keys are never looked up and the sun is still drawn on request |
| Village.DrawVillage | turtle_village_student.py:196-218 | a zero column or row count raises ZeroDivisionError with nothing drawn; otherwise it raises KeyError at the first house exactly when there is a cell and a key is unknown, and returns normally else; the state is the roads, the cells drawn and, unless something raised, the sun on request |
| Program.MainChoicesNeverRaise | turtle_village_student.py:228-231 | every choice main accepts names table entries, so draw_village then never raises, and there are 2 cols cells |

## Left out

- Terminal I/O: `input()` becomes a scripted sequence of answers and `print()` is dropped. Prompt texts (`str(allowed_set)`) are not modelled. An exhausted script returns no answer, where the program would raise EOFError.
- `int()` parsing: each integer answer arrives already parsed, as `None` when `int()` would raise ValueError.
- Prompt.Lower, Prompt.LowerChar: lower only the ASCII letters A–Z, not every Unicode cased letter as Python's `str.lower()` does.
- `random.choice([-1, 1])` is the parameter `pick`, indexed by the tree's position in row-major order.
- Rendering by the library is not modelled: `begin_fill`/`end_fill` painting, colours on screen, and the trigonometry of `circle`. `circle(r)` is one atomic stroke, the full circle centred r to the turtle's left.
- Canvas.Turtle.Right: accepts only whole quarter turns, which are the only angles the program uses.
- IEEE floating-point rounding: coordinates are exact reals, so for example 800/3 is exact here and not in Python.
- `main` (turtle_village_student.py:223-246) only chains the prompts and draw_village, and sets up the window (`setup`, `speed`, `tracer`, `hideturtle`, `done`). It is not modelled as a method. The lemma `Program.MainChoicesNeverRaise` covers its choice lists.
- Negative row or column counts: `range` just comes out empty, and the model follows that. No prompt of the program lets them through.
