/** The drawing surface the village program works on: the single turtle of
    the `turtle` graphics library (position, heading, pen, colours and the
    ink it has left on the canvas), together with a log of the shapes the
    program has asked for, which stands in for the rendered window. */
module Canvas {

  /** A point of canvas space: origin at the centre, y growing upwards. */
  datatype Point = Point(x: real, y: real)

  /** Ink on the canvas: a straight segment, or a full circle. */
  datatype Stroke = Segment(from: Point, to: Point) | Round(center: Point, radius: real)

  /** One drawing command of the program, as the recording surface logs it. */
  datatype Shape =
    | Rect(center: Point, w: real, h: real, color: string)
    | Triangle(p1: Point, p2: Point, p3: Point, color: string)
    | Circle(center: Point, r: real, color: string)
    | Line(from: Point, to: Point)

  /** Headings are whole quarter turns: the four compass directions, as
      the library's standard mode counts them (0 degrees is east, angles
      grow anticlockwise). */
  datatype Heading = East | North | West | South

  /** The point `d` units from `p` along heading `h`. */
  function Ahead(p: Point, h: Heading, d: real): Point
  {
    match h
    case East => Point(p.x + d, p.y)
    case North => Point(p.x, p.y + d)
    case West => Point(p.x - d, p.y)
    case South => Point(p.x, p.y - d)
  }

  /** The heading after one quarter turn clockwise, `right(90)`. */
  function Clockwise(h: Heading): Heading
  {
    match h
    case East => South
    case South => West
    case West => North
    case North => East
  }

  /** The heading after one quarter turn anticlockwise, `left(90)`. */
  function Anticlockwise(h: Heading): Heading
  {
    match h
    case East => North
    case North => West
    case West => South
    case South => East
  }

  /** The heading after `n` quarter turns clockwise, `right(90 * n)`; a
      negative `n` turns anticlockwise. */
  function TurnRight(h: Heading, n: int): Heading
  {
    var m := n % 4;
    if m == 0 then h
    else if m == 1 then Clockwise(h)
    else if m == 2 then Clockwise(Clockwise(h))
    else Anticlockwise(h)
  }

  /** Four quarter turns clockwise are a full turn; a left turn undoes a
      right turn; and `right(90 * n)` agrees with n single right turns for
      n = 0 to 4. */
  lemma TurnsCompose(h: Heading)
    ensures Clockwise(Clockwise(Clockwise(Clockwise(h)))) == h
    ensures Anticlockwise(Clockwise(h)) == h && Clockwise(Anticlockwise(h)) == h
    ensures TurnRight(h, 0) == h && TurnRight(h, 1) == Clockwise(h)
    ensures TurnRight(h, 2) == Clockwise(Clockwise(h))
    ensures TurnRight(h, 3) == Clockwise(Clockwise(Clockwise(h)))
    ensures TurnRight(h, 4) == h && TurnRight(h, -1) == Anticlockwise(h)
  {
  }

  /** One more quarter turn: `right(90 * (n + 1))` is `right(90 * n)` and then
      `right(90)`, so by induction `right(90 * n)` is n single right turns for
      every n. */
  lemma TurnRightStep(h: Heading, n: int)
    ensures TurnRight(h, n + 1) == Clockwise(TurnRight(h, n))
  {
    TurnsCompose(h);
    TurnsCompose(Clockwise(h));
    TurnsCompose(Anticlockwise(h));
  }

  /** The everything-at-once view of a turtle, so that the effect of a
      drawing helper can be written as a function from state to state. */
  datatype State = State(
    pos: Point,
    heading: Heading,
    penDown: bool,
    fillColor: string,
    penColor: string,
    penSize: int,
    ink: seq<Stroke>,
    shapes: seq<Shape>)

  /** The library's turtle. Each primitive changes only the fields named in
      its modifies clause. `shapes` is the recording surface: every helper
      call in order, filled shapes and lines. */
  class Turtle {
    var x: real
    var y: real
    var heading: Heading
    var penDown: bool
    var fillColor: string
    var penColor: string
    var penSize: int
    var ink: seq<Stroke>
    var shapes: seq<Shape>

    function Pos(): Point
      reads this
    {
      Point(x, y)
    }

    function Snapshot(): State
      reads this
    {
      State(Point(x, y), heading, penDown, fillColor, penColor, penSize, ink, shapes)
    }

    /** A fresh turtle: at the origin, heading east, pen down, black pen and
        fill, pen width 1, nothing drawn. */
    constructor ()
      ensures Snapshot() == State(Point(0.0, 0.0), East, true, "black", "black", 1, [], [])
    {
      x, y, heading, penDown := 0.0, 0.0, East, true;
      fillColor, penColor, penSize := "black", "black", 1;
      ink, shapes := [], [];
    }

    /** `penup()` */
    method PenUp()
      modifies `penDown
      ensures !penDown
    {
      penDown := false;
    }

    /** `pendown()` */
    method PenDown()
      modifies `penDown
      ensures penDown
    {
      penDown := true;
    }

    /** `goto(nx, ny)`: moves in a straight line, inking it when the pen is down;
        the heading is kept. */
    method GoTo(nx: real, ny: real)
      modifies `x, `y, `ink
      ensures Pos() == Point(nx, ny)
      ensures ink == old(ink) + if penDown then [Segment(old(Pos()), Pos())] else []
    {
      if penDown {
        ink := ink + [Segment(Point(x, y), Point(nx, ny))];
      }
      x, y := nx, ny;
    }

    /** `forward(d)` along the current heading. */
    method Forward(d: real)
      modifies `x, `y, `ink
      ensures Pos() == Ahead(old(Pos()), heading, d)
      ensures ink == old(ink) + if penDown then [Segment(old(Pos()), Pos())] else []
    {
      var p := Ahead(Point(x, y), heading, d);
      GoTo(p.x, p.y);
    }

    /** `right(angle)`, for the angles that are whole quarter turns. */
    method Right(angle: int)
      requires angle % 90 == 0
      modifies `heading
      ensures heading == TurnRight(old(heading), angle / 90)
    {
      heading := TurnRight(heading, angle / 90);
    }

    /** `circle(r)`: one full turn round the centre `r` units to the turtle's
        left, ending where it started with the heading it had. */
    method Circle(r: real)
      modifies `ink
      ensures ink == old(ink) + if penDown then [Round(Ahead(Pos(), Anticlockwise(heading), r), r)] else []
    {
      if penDown {
        ink := ink + [Round(Ahead(Pos(), Anticlockwise(heading), r), r)];
      }
    }

    /** `fillcolor(c)` */
    method SetFillColor(c: string)
      modifies `fillColor
      ensures fillColor == c
    {
      fillColor := c;
    }

    /** `pencolor(c)` */
    method SetPenColor(c: string)
      modifies `penColor
      ensures penColor == c
    {
      penColor := c;
    }

    /** `pensize(n)` */
    method SetPenSize(n: int)
      modifies `penSize
      ensures penSize == n
    {
      penSize := n;
    }

    /** Logs a finished shape on the recording surface. */
    method Record(s: Shape)
      modifies `shapes
      ensures shapes == old(shapes) + [s]
    {
      shapes := shapes + [s];
    }
  }
}
