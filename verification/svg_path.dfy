/**
 * The SVG path data the wave divider draws: a sequence of absolute commands
 * (moveto, lineto, quadratic and cubic Bezier curveto, closepath) over points
 * with non-negative integer coordinates. Serialise writes the text in the
 * layout the wave shapes use ("M0,36 C240,56 480,16 720,36 L2880,60 Z":
 * the command letter, its points as "x,y" separated by single spaces,
 * commands separated by single spaces); Parse tokenises such text back.
 */
module SvgPath {
  import opened Wrappers
  import opened Decimal

  datatype Point = Point(x: nat, y: nat)

  datatype Command =
    | MoveTo(to: Point)
    | LineTo(to: Point)
    | QuadTo(control: Point, to: Point)
    | CubicTo(control1: Point, control2: Point, to: Point)
    | ClosePath

  type Path = seq<Command>

  function Letter(c: Command): char {
    match c
    case MoveTo(_) => 'M'
    case LineTo(_) => 'L'
    case QuadTo(_, _) => 'Q'
    case CubicTo(_, _, _) => 'C'
    case ClosePath => 'Z'
  }

  /** The points a command lists, in the order they are written. */
  function Points(c: Command): seq<Point> {
    match c
    case MoveTo(p) => [p]
    case LineTo(p) => [p]
    case QuadTo(c1, p) => [c1, p]
    case CubicTo(c1, c2, p) => [c1, c2, p]
    case ClosePath => []
  }

  /** How many points follow each command letter; None for a letter that is
      not one of the five commands. */
  function Arity(letter: char): (k: Option<nat>)
    ensures k.Some? ==> k.value <= 3
  {
    match letter
    case 'M' => Some(1)
    case 'L' => Some(1)
    case 'Q' => Some(2)
    case 'C' => Some(3)
    case 'Z' => Some(0)
    case _ => None
  }

  /** The command a letter and its points stand for. */
  function Build(letter: char, pts: seq<Point>): (c: Option<Command>)
    ensures c.Some? <==> Arity(letter) == Some(|pts|)
    ensures c.Some? ==> Letter(c.value) == letter && Points(c.value) == pts
  {
    match letter
    case 'M' => if |pts| == 1 then Some(MoveTo(pts[0])) else None
    case 'L' => if |pts| == 1 then Some(LineTo(pts[0])) else None
    case 'Q' => if |pts| == 2 then Some(QuadTo(pts[0], pts[1])) else None
    case 'C' => if |pts| == 3 then Some(CubicTo(pts[0], pts[1], pts[2])) else None
    case 'Z' => if |pts| == 0 then Some(ClosePath) else None
    case _ => None
  }

  lemma BuildOfCommand(c: Command)
    ensures Build(Letter(c), Points(c)) == Some(c)
  {
  }

  // ---------------------------------------------------------------- writing

  function PointText(p: Point): string {
    NatToString(p.x) + "," + NatToString(p.y)
  }

  function PointsText(pts: seq<Point>): string {
    if pts == [] then ""
    else if |pts| == 1 then PointText(pts[0])
    else PointText(pts[0]) + " " + PointsText(pts[1..])
  }

  function CommandText(c: Command): string {
    [Letter(c)] + PointsText(Points(c))
  }

  /** The path data text of a path: it is empty only for the empty path, and
      otherwise opens with the first command's letter. */
  function Serialise(p: Path): (s: string)
    ensures s == [] <==> p == []
    ensures p != [] ==> s[0] == Letter(p[0])
  {
    if p == [] then ""
    else if |p| == 1 then CommandText(p[0])
    else CommandText(p[0]) + " " + Serialise(p[1..])
  }

  // ---------------------------------------------------------------- reading

  /** A point "x,y" at the start of s, and what follows it. */
  function ParsePoint(s: string): (r: Option<(Point, string)>)
    ensures r.Some? ==> |r.value.1| < |s|
  {
    match ParseNat(s)
    case None => None
    case Some((x, afterX)) =>
      if afterX != [] && afterX[0] == ',' then
        match ParseNat(afterX[1..])
        case None => None
        case Some((y, rest)) => Some((Point(x, y), rest))
      else None
  }

  /** k points separated by single spaces at the start of s. */
  function ParsePoints(s: string, k: nat): (r: Option<(seq<Point>, string)>)
    ensures r.Some? ==> |r.value.0| == k
    ensures r.Some? ==> |r.value.1| <= |s| && (k > 0 ==> |r.value.1| < |s|)
    decreases k
  {
    if k == 0 then Some(([], s))
    else
      match ParsePoint(s)
      case None => None
      case Some((p, rest)) =>
        if k == 1 then Some(([p], rest))
        else if rest != [] && rest[0] == ' ' then
          match ParsePoints(rest[1..], k - 1)
          case None => None
          case Some((ps, rest')) => Some(([p] + ps, rest'))
        else None
  }

  /** One command at the start of s, and what follows it. */
  function ParseCommand(s: string): (r: Option<(Command, string)>)
    ensures r.Some? ==> |r.value.1| < |s| && Letter(r.value.0) == s[0]
  {
    if s == [] then None
    else
      match Arity(s[0])
      case None => None
      case Some(k) =>
        match ParsePoints(s[1..], k)
        case None => None
        case Some((pts, rest)) =>
          match Build(s[0], pts)
          case None => None
          case Some(c) => Some((c, rest))
  }

  /** Tokenises path data text; None when the text is not a sequence of
      commands in the layout Serialise writes. Numbers may carry leading
      zeros, which Serialise never writes. */
  function Parse(s: string): (r: Option<Path>)
    ensures r.Some? ==> |r.value| > 0 && |s| > 0 && Letter(r.value[0]) == s[0]
    decreases |s|
  {
    match ParseCommand(s)
    case None => None
    case Some((c, rest)) =>
      if rest == [] then Some([c])
      else if rest[0] == ' ' then
        match Parse(rest[1..])
        case None => None
        case Some(cs) => Some([c] + cs)
      else None
  }

  // ------------------------------------------------------------- round trip

  /** ParsePoint, unfolded one step: a number, a comma, a number. */
  lemma ParsePointSteps(s: string, x: nat, afterX: string, y: nat, rest: string)
    requires ParseNat(s) == Some((x, afterX))
    requires afterX != [] && afterX[0] == ','
    requires ParseNat(afterX[1..]) == Some((y, rest))
    ensures ParsePoint(s) == Some((Point(x, y), rest))
  {
  }

  lemma ParsePointText(p: Point, rest: string)
    requires rest == [] || rest[0] == ' '
    ensures ParsePoint(PointText(p) + rest) == Some((p, rest))
  {
    var xs, ys := NatToString(p.x), NatToString(p.y);
    var afterX := "," + ys + rest;
    var s := xs + afterX;
    ParseNatToString(p.x, afterX);
    ParseNatToString(p.y, rest);
    assert PointText(p) + rest == s;
    { assert ParseNat(s) == Some((p.x, afterX)); }
    { assert afterX != [] && afterX[0] == ','; }
    { assert afterX[1..] == ys + rest; assert ParseNat(afterX[1..]) == Some((p.y, rest)); }
    ParsePointSteps(s, p.x, afterX, p.y, rest);
  }

  lemma DropFirst(c: char, t: string)
    ensures ([c] + t)[1..] == t
  {
  }

  lemma Regroup3(a: string, b: string, c: string)
    ensures a + b + c == a + (b + c)
  {
  }

  lemma Regroup(a: string, b: string, c: string, d: string)
    ensures a + b + c + d == a + (b + (c + d))
  {
  }

  lemma ParsePointsSingle(s: string, pts: seq<Point>, rest: string)
    requires |pts| == 1 && ParsePoint(s) == Some((pts[0], rest))
    ensures ParsePoints(s, 1) == Some((pts, rest))
  {
    assert [pts[0]] == pts;
  }

  /** ParsePoints, unfolded one step for more than one point. */
  lemma ParsePointsSteps(s: string, pts: seq<Point>, afterP: string, rest: string)
    requires |pts| > 1
    requires ParsePoint(s) == Some((pts[0], afterP))
    requires afterP != [] && afterP[0] == ' '
    requires ParsePoints(afterP[1..], |pts| - 1) == Some((pts[1..], rest))
    ensures ParsePoints(s, |pts|) == Some((pts, rest))
  {
    assert [pts[0]] + pts[1..] == pts;
  }

  lemma {:induction false} ParsePointsText(pts: seq<Point>, rest: string)
    requires rest == [] || rest[0] == ' '
    ensures ParsePoints(PointsText(pts) + rest, |pts|) == Some((pts, rest))
    decreases |pts|
  {
    if |pts| == 1 {
      ParsePointText(pts[0], rest);
      ParsePointsSingle(PointsText(pts) + rest, pts, rest);
    } else if |pts| > 1 {
      var tail := PointsText(pts[1..]) + rest;
      var afterP := [' '] + tail;
      var s := PointText(pts[0]) + afterP;
      Regroup(PointText(pts[0]), " ", PointsText(pts[1..]), rest);
      assert PointsText(pts) + rest == s;
      ParsePointText(pts[0], afterP);
      DropFirst(' ', tail);
      ParsePointsText(pts[1..], rest);
      ParsePointsSteps(s, pts, afterP, rest);
    } else {
      assert PointsText(pts) + rest == rest;
    }
  }

  /** ParseCommand, unfolded one step. */
  lemma ParseCommandSteps(s: string, pts: seq<Point>, c: Command, rest: string)
    requires s != [] && Arity(s[0]) == Some(|pts|)
    requires ParsePoints(s[1..], |pts|) == Some((pts, rest))
    requires Build(s[0], pts) == Some(c)
    ensures ParseCommand(s) == Some((c, rest))
  {
  }

  lemma ParseCommandText(c: Command, rest: string)
    requires rest == [] || rest[0] == ' '
    ensures ParseCommand(CommandText(c) + rest) == Some((c, rest))
  {
    var tail := PointsText(Points(c)) + rest;
    var s := [Letter(c)] + tail;
    assert CommandText(c) + rest == s;
    DropFirst(Letter(c), tail);
    ParsePointsText(Points(c), rest);
    BuildOfCommand(c);
    ParseCommandSteps(s, Points(c), c, rest);
  }

  /** Parse, unfolded one step for more than one command. */
  lemma ParseSteps(s: string, p: Path, afterC: string)
    requires |p| > 1
    requires ParseCommand(s) == Some((p[0], afterC))
    requires afterC != [] && afterC[0] == ' '
    requires Parse(afterC[1..]) == Some(p[1..])
    ensures Parse(s) == Some(p)
  {
    assert [p[0]] + p[1..] == p;
  }

  lemma ParseSingle(s: string, c: Command)
    requires ParseCommand(s) == Some((c, ""))
    ensures Parse(s) == Some([c])
  {
  }

  lemma ParseSerialiseCons(p: Path)
    requires |p| > 1
    requires Parse(Serialise(p[1..])) == Some(p[1..])
    ensures Parse(Serialise(p)) == Some(p)
  {
    var tail := Serialise(p[1..]);
    var afterC := [' '] + tail;
    var s := CommandText(p[0]) + afterC;
    Regroup3(CommandText(p[0]), " ", tail);
    assert Serialise(p) == s;
    ParseCommandText(p[0], afterC);
    DropFirst(' ', tail);
    ParseSteps(s, p, afterC);
  }

  /** Tokenising the text of a non-empty path gives the path back. */
  lemma {:induction false} ParseSerialise(p: Path)
    requires |p| > 0
    ensures Parse(Serialise(p)) == Some(p)
    decreases |p|
  {
    if |p| == 1 {
      ParseCommandText(p[0], "");
      assert CommandText(p[0]) + "" == Serialise(p);
      ParseSingle(Serialise(p), p[0]);
      assert [p[0]] == p;
    } else {
      ParseSerialise(p[1..]);
      ParseSerialiseCons(p);
    }
  }

  /** Distinct paths have distinct texts. */
  lemma SerialiseInjective(p: Path, q: Path)
    requires p != q
    ensures Serialise(p) != Serialise(q)
  {
    if p != [] && q != [] {
      ParseSerialise(p);
      ParseSerialise(q);
    }
  }

  // ------------------------------------------------------------ wave shape

  /** The path starts with a moveto onto the left edge x = 0. */
  predicate StartsAtLeftEdge(p: Path) {
    |p| > 0 && p[0].MoveTo? && p[0].to.x == 0
  }

  /** The path ends by closing its outline. */
  predicate EndsClosed(p: Path) {
    |p| > 0 && p[|p| - 1] == ClosePath
  }

  /** Every point the path lists, control points included, has an x-coordinate
      within [lo, hi]. */
  predicate XsWithin(p: Path, lo: nat, hi: nat) {
    forall i, j :: 0 <= i < |p| && 0 <= j < |Points(p[i])| ==> lo <= Points(p[i])[j].x <= hi
  }

  /** Some command of the path lists the point q. */
  predicate ListsPoint(p: Path, q: Point) {
    exists i :: 0 <= i < |p| && q in Points(p[i])
  }

  /** The text of a path that starts with a moveto on the left edge begins
      with "M0,". */
  lemma SerialiseStartsWithM0(p: Path)
    requires StartsAtLeftEdge(p)
    ensures |Serialise(p)| >= 3 && Serialise(p)[..3] == "M0,"
  {
    var first := CommandText(p[0]);
    assert first == ['M'] + ("0" + "," + NatToString(p[0].to.y));
    if |p| > 1 {
      assert Serialise(p) == first + (" " + Serialise(p[1..]));
    }
  }

  /** The text of a path that ends with closepath ends with 'Z'. */
  lemma {:induction false} SerialiseEndsWithZ(p: Path)
    requires EndsClosed(p)
    ensures |Serialise(p)| > 0 && Serialise(p)[|Serialise(p)| - 1] == 'Z'
    decreases |p|
  {
    if |p| == 1 {
      assert CommandText(ClosePath) == "Z";
    } else {
      assert p[1..][|p[1..]| - 1] == p[|p| - 1];
      SerialiseEndsWithZ(p[1..]);
    }
  }
}
