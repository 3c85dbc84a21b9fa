/** The program's small turtle helpers (move_to, draw_line, fill_rect_center,
    fill_triangle, fill_circle_center) and the pure state machine that says
    what each of them does to the turtle. */
module Helpers {
  import opened Canvas

  /** The corner fill_rect_center starts tracing from. */
  function TopLeft(cx: real, cy: real, w: real, h: real): Point
  {
    Point(cx - w / 2.0, cy + h / 2.0)
  }

  /** The headings the rectangle loop has at each corner when it starts
      heading `q`: a quarter turn clockwise after every side, and after the
      fourth turn the heading it started with. */
  function Headings(q: Heading): (hs: seq<Heading>)
    ensures |hs| == 5 && hs[0] == q && hs[4] == q
    ensures hs[1] == Clockwise(hs[0]) && hs[2] == Clockwise(hs[1])
    ensures hs[3] == Clockwise(hs[2]) && hs[4] == Clockwise(hs[3])
  {
    TurnsCompose(q);
    [q, Clockwise(q), Clockwise(Clockwise(q)), Clockwise(Clockwise(Clockwise(q))), q]
  }

  /** The corners the rectangle loop visits from `start` when the turtle
      heads `q`: forward w, right 90, forward h, right 90, twice over. The
      walk is closed: its fifth corner is its first. */
  function RectCorners(start: Point, q: Heading, w: real, h: real): (c: seq<Point>)
    ensures |c| == 5 && c[0] == start && c[4] == start
    ensures var hs := Headings(q);
      && c[1] == Ahead(c[0], hs[0], w) && c[2] == Ahead(c[1], hs[1], h)
      && c[3] == Ahead(c[2], hs[2], w) && c[4] == Ahead(c[3], hs[3], h)
  {
    var hs := Headings(q);
    var b := Ahead(start, hs[0], w);
    var c := Ahead(b, hs[1], h);
    var d := Ahead(c, hs[2], w);
    [start, b, c, d, Ahead(d, hs[3], h)]
  }

  /** The sides the turtle inks walking `n` sides from `p` with heading `q`,
      the sides of lengths a, b, a, b, ..., turning right 90 after each. */
  function Sides(p: Point, q: Heading, a: real, b: real, n: nat): seq<Stroke>
    decreases n
  {
    if n == 0 then []
    else
      var p' := Ahead(p, q, a);
      [Segment(p, p')] + Sides(p', Clockwise(q), b, a, n - 1)
  }

  /** The four sides the rectangle loop inks from `start`. */
  function RectTrace(start: Point, q: Heading, w: real, h: real): seq<Stroke>
  {
    Sides(start, q, w, h, 4)
  }

  /** One pass of the rectangle loop, from corner k to corner k + 2, and the
      two sides it inks. */
  lemma HalfLap(start: Point, q: Heading, w: real, h: real, k: int)
    requires k == 0 || k == 2
    ensures var c, hs := RectCorners(start, q, w, h), Headings(q);
      && c[k + 1] == Ahead(c[k], hs[k], w) && c[k + 2] == Ahead(c[k + 1], hs[k + 1], h)
      && hs[k + 1] == Clockwise(hs[k]) && hs[k + 2] == Clockwise(hs[k + 1])
      && Sides(c[k], hs[k], w, h, 4 - k)
         == [Segment(c[k], c[k + 1]), Segment(c[k + 1], c[k + 2])] + Sides(c[k + 2], hs[k + 2], w, h, 2 - k)
  {
    var c, hs := RectCorners(start, q, w, h), Headings(q);
    assert Sides(c[k], hs[k], w, h, 4 - k) == [Segment(c[k], c[k + 1])] + Sides(c[k + 1], hs[k + 1], h, w, 3 - k);
    assert Sides(c[k + 1], hs[k + 1], h, w, 3 - k) == [Segment(c[k + 1], c[k + 2])] + Sides(c[k + 2], hs[k + 2], w, h, 2 - k);
  }

  /** The ink the helper drawing `s` leaves when the turtle heads `q`. */
  function Outline(s: Shape, q: Heading): seq<Stroke>
  {
    match s
    case Rect(c, w, h, _) => RectTrace(TopLeft(c.x, c.y, w, h), q, w, h)
    case Triangle(p1, p2, p3, _) => [Segment(p1, p2), Segment(p2, p3), Segment(p3, p1)]
    case Circle(c, r, _) => [Round(Ahead(Point(c.x, c.y - r), Anticlockwise(q), r), r)]
    case Line(a, b) => [Segment(a, b)]
  }

  function Outlines(xs: seq<Shape>, q: Heading): seq<Stroke>
  {
    if xs == [] then [] else Outline(xs[0], q) + Outlines(xs[1..], q)
  }

  /** Where the turtle stands after the helper drawing `s`. */
  function EndPoint(s: Shape): Point
  {
    match s
    case Rect(c, w, h, _) => TopLeft(c.x, c.y, w, h)
    case Triangle(p1, _, _, _) => p1
    case Circle(c, r, _) => Point(c.x, c.y - r)
    case Line(_, b) => b
  }

  /** The turtle state after the helper that draws `s`, started in state `st`. */
  function Apply(st: State, s: Shape): State
  {
    var st' := st.(pos := EndPoint(s), ink := st.ink + Outline(s, st.heading), shapes := st.shapes + [s]);
    match s
    case Line(_, _) => st'.(penDown := false)
    case _ => st'.(penDown := true, fillColor := s.color, penColor := "black")
  }

  /** The turtle state after drawing `xs` one shape after another. */
  function ApplyAll(st: State, xs: seq<Shape>): State
    decreases |xs|
  {
    if xs == [] then st else ApplyAll(Apply(st, xs[0]), xs[1..])
  }

  /** The fill colour left by the last filled shape of `xs`, or `before`. */
  function LastFill(xs: seq<Shape>, before: string): string
    decreases |xs|
  {
    if xs == [] then before
    else if xs[|xs| - 1].Line? then LastFill(xs[..|xs| - 1], before)
    else xs[|xs| - 1].color
  }

  /** The ink of `xs + ys` is the ink of `xs` and then the ink of `ys`. */
  lemma {:induction false} OutlinesAppend(xs: seq<Shape>, ys: seq<Shape>, q: Heading)
    ensures Outlines(xs + ys, q) == Outlines(xs, q) + Outlines(ys, q)
    decreases |xs|
  {
    if xs == [] {
      assert xs + ys == ys;
    } else {
      assert (xs + ys)[1..] == xs[1..] + ys;
      OutlinesAppend(xs[1..], ys, q);
    }
  }

  /** Drawing `xs` then `ys` is drawing `xs + ys`. */
  lemma {:induction false} ApplyAllAppend(st: State, xs: seq<Shape>, ys: seq<Shape>)
    ensures ApplyAll(st, xs + ys) == ApplyAll(ApplyAll(st, xs), ys)
    decreases |xs|
  {
    if xs == [] {
      assert xs + ys == ys;
    } else {
      assert (xs + ys)[0] == xs[0];
      assert (xs + ys)[1..] == xs[1..] + ys;
      ApplyAllAppend(Apply(st, xs[0]), xs[1..], ys);
    }
  }

  /** Drawing one more shape after `xs`. */
  lemma ApplyAllSnoc(st: State, xs: seq<Shape>, s: Shape)
    ensures ApplyAll(st, xs + [s]) == Apply(ApplyAll(st, xs), s)
  {
    ApplyAllAppend(st, xs, [s]);
    assert [s][1..] == [];
  }

  /** Drawing two shapes, one after the other. */
  lemma ApplyAllTwo(st: State, a: Shape, b: Shape)
    ensures ApplyAll(st, [a, b]) == Apply(Apply(st, a), b)
  {
    assert [a, b][1..] == [b];
    assert [b][1..] == [];
    assert ApplyAll(Apply(st, a), [b]) == ApplyAll(Apply(Apply(st, a), b), []);
  }

  /** Drawing four shapes, one after the other. */
  lemma ApplyAllFour(st: State, a: Shape, b: Shape, c: Shape, d: Shape)
    ensures ApplyAll(st, [a, b, c, d]) == Apply(Apply(Apply(Apply(st, a), b), c), d)
  {
    assert [a, b, c, d][1..] == [b, c, d];
    assert [b, c, d][1..] == [c, d];
    ApplyAllTwo(Apply(Apply(st, a), b), c, d);
  }

  /** Drawing a list of shapes never changes the heading or the pen's
      width, logs the shapes in order, and keeps a black pen black. */
  lemma {:induction false} ApplyAllKeeps(st: State, xs: seq<Shape>)
    ensures var st' := ApplyAll(st, xs);
      && st'.heading == st.heading && st'.penSize == st.penSize
      && st'.shapes == st.shapes + xs
      && (st.penColor == "black" ==> st'.penColor == "black")
    decreases |xs|
  {
    if xs != [] {
      var st1 := Apply(st, xs[0]);
      ApplyAllKeeps(st1, xs[1..]);
      assert st.shapes + xs == st1.shapes + xs[1..];
    }
  }

  /** The ink of a list of shapes is their outlines, one after the other,
      all traced with the heading the turtle started with. */
  lemma {:induction false} ApplyAllInk(st: State, xs: seq<Shape>)
    ensures ApplyAll(st, xs).ink == st.ink + Outlines(xs, st.heading)
    decreases |xs|
  {
    if xs != [] {
      var st1 := Apply(st, xs[0]);
      ApplyAllInk(st1, xs[1..]);
      assert st1.ink == st.ink + Outline(xs[0], st.heading);
    }
  }

  /** The fill colour after a list of shapes is the last filled shape's. */
  lemma {:induction false} ApplyAllFill(st: State, xs: seq<Shape>)
    ensures ApplyAll(st, xs).fillColor == LastFill(xs, st.fillColor)
    decreases |xs|
  {
    if xs != [] {
      ApplyAllFill(Apply(st, xs[0]), xs[1..]);
      LastFillStep(xs, st.fillColor);
    }
  }

  /** After a non-empty list of shapes the turtle rests where the last one
      left it, with the pen up exactly when that was a line. */
  lemma {:induction false} ApplyAllRest(st: State, xs: seq<Shape>)
    requires xs != []
    ensures ApplyAll(st, xs).pos == EndPoint(xs[|xs| - 1])
    ensures ApplyAll(st, xs).penDown == !xs[|xs| - 1].Line?
    decreases |xs|
  {
    if |xs| > 1 {
      ApplyAllRest(Apply(st, xs[0]), xs[1..]);
    } else {
      assert xs[1..] == [];
    }
  }

  /** Peeling the first shape off the front of `xs` for LastFill. */
  lemma {:induction false} LastFillStep(xs: seq<Shape>, before: string)
    requires xs != []
    ensures LastFill(xs, before) == LastFill(xs[1..], if xs[0].Line? then before else xs[0].color)
    decreases |xs|
  {
    if |xs| > 1 {
      var init := xs[..|xs| - 1];
      assert init[1..] == xs[1..][..|xs[1..]| - 1];
      if xs[|xs| - 1].Line? {
        LastFillStep(init, before);
      }
    } else {
      assert xs[1..] == [];
      assert xs[..0] == [];
    }
  }

  /** Heading east, the rectangle's ink runs round exactly its corners
      (cx - w/2, cy + h/2), (cx + w/2, cy + h/2), (cx + w/2, cy - h/2),
      (cx - w/2, cy - h/2), clockwise from the top left. */
  lemma RectOutlineEast(c: Point, w: real, h: real, color: string)
    ensures var tl, tr := Point(c.x - w / 2.0, c.y + h / 2.0), Point(c.x + w / 2.0, c.y + h / 2.0);
      var br, bl := Point(c.x + w / 2.0, c.y - h / 2.0), Point(c.x - w / 2.0, c.y - h / 2.0);
      Outline(Rect(c, w, h, color), East) == [Segment(tl, tr), Segment(tr, br), Segment(br, bl), Segment(bl, tl)]
  {
    var tl, tr := Point(c.x - w / 2.0, c.y + h / 2.0), Point(c.x + w / 2.0, c.y + h / 2.0);
    var br, bl := Point(c.x + w / 2.0, c.y - h / 2.0), Point(c.x - w / 2.0, c.y - h / 2.0);
    assert Sides(bl, North, h, w, 1) == [Segment(bl, tl)];
    assert Sides(br, West, w, h, 2) == [Segment(br, bl)] + Sides(bl, North, h, w, 1);
    assert Sides(tr, South, h, w, 3) == [Segment(tr, br)] + Sides(br, West, w, h, 2);
    assert Sides(tl, East, w, h, 4) == [Segment(tl, tr)] + Sides(tr, South, h, w, 3);
  }

  /** Heading east, starting at the circle's bottom point puts the centre
      of the inked circle exactly at the requested centre. */
  lemma CircleOutlineEast(c: Point, r: real, color: string)
    ensures Outline(Circle(c, r, color), East) == [Round(c, r)]
  {
  }

  /** `move_to(x, y)`: lift the pen, go to (x, y), lower the pen. Nothing is inked. */
  method MoveTo(t: Turtle, x: real, y: real)
    modifies t`x, t`y, t`penDown, t`ink
    ensures t.Pos() == Point(x, y) && t.penDown
    ensures t.ink == old(t.ink)
  {
    t.PenUp();
    t.GoTo(x, y);
    t.PenDown();
  }

  /** `draw_line(x1, y1, x2, y2)` */
  method DrawLine(t: Turtle, x1: real, y1: real, x2: real, y2: real)
    modifies t
    ensures t.Snapshot() == Apply(old(t.Snapshot()), Line(Point(x1, y1), Point(x2, y2)))
  {
    MoveTo(t, x1, y1);
    t.PenDown();
    t.GoTo(x2, y2);
    t.PenUp();
    t.Record(Line(Point(x1, y1), Point(x2, y2)));
  }

  /** The loop of fill_rect_center: forward w, right 90, forward h, right
      90, twice. With the pen down it inks the four sides of the rectangle
      whose corner is the turtle's position, and leaves the turtle where it
      began, facing the way it began. */
  method TraceRect(t: Turtle, w: real, h: real)
    requires t.penDown
    modifies t`x, t`y, t`heading, t`ink
    ensures t.heading == old(t.heading) && t.Pos() == old(t.Pos())
    ensures t.ink == old(t.ink) + RectTrace(old(t.Pos()), old(t.heading), w, h)
  {
    ghost var start, q0, ink0 := t.Pos(), t.heading, t.ink;
    ghost var corners, hs := RectCorners(start, q0, w, h), Headings(q0);
    for i := 0 to 2
      invariant t.heading == hs[2 * i] && t.Pos() == corners[2 * i]
      invariant t.ink + Sides(corners[2 * i], hs[2 * i], w, h, 4 - 2 * i) == ink0 + RectTrace(start, q0, w, h)
    {
      ghost var k := 2 * i;
      HalfLap(start, q0, w, h, k);
      ghost var ink1 := t.ink;
      t.Forward(w);
      t.Right(90);
      t.Forward(h);
      t.Right(90);
      assert t.ink == ink1 + [Segment(corners[k], corners[k + 1]), Segment(corners[k + 1], corners[k + 2])];
    }
  }

  /** `fill_rect_center(cx, cy, w, h, color)`: the state afterwards is Apply's
      for the rectangle. Whatever the heading, the four right turns give it
      back unchanged, the pen ends down at the corner it started from,
      (cx - w/2, cy + h/2), and the ink is the four sides traced from there. */
  method FillRectCenter(t: Turtle, cx: real, cy: real, w: real, h: real, color: string)
    modifies t
    ensures t.Snapshot() == Apply(old(t.Snapshot()), Rect(Point(cx, cy), w, h, color))
  {
    t.SetFillColor(color);
    t.SetPenColor("black");
    var start := TopLeft(cx, cy, w, h);
    MoveTo(t, start.x, start.y);
    // begin_fill
    TraceRect(t, w, h);
    // end_fill
    t.Record(Rect(Point(cx, cy), w, h, color));
  }

  /** `fill_triangle(p1, p2, p3, color)` */
  method FillTriangle(t: Turtle, p1: Point, p2: Point, p3: Point, color: string)
    modifies t
    ensures t.Snapshot() == Apply(old(t.Snapshot()), Triangle(p1, p2, p3, color))
  {
    t.SetFillColor(color);
    t.SetPenColor("black");
    MoveTo(t, p1.x, p1.y);
    // begin_fill
    t.GoTo(p2.x, p2.y);
    t.GoTo(p3.x, p3.y);
    t.GoTo(p1.x, p1.y);
    // end_fill
    t.Record(Triangle(p1, p2, p3, color));
  }

  /** `fill_circle_center(cx, cy, r, color)`: the turtle starts the circle
      from its bottom point (cx, cy - r). */
  method FillCircleCenter(t: Turtle, cx: real, cy: real, r: real, color: string)
    modifies t
    ensures t.Snapshot() == Apply(old(t.Snapshot()), Circle(Point(cx, cy), r, color))
  {
    t.SetFillColor(color);
    t.SetPenColor("black");
    MoveTo(t, cx, cy - r);
    // begin_fill
    t.Circle(r);
    // end_fill
    t.Record(Circle(Point(cx, cy), r, color));
  }
}
