/** Transition_Cut: the captured frame is split by a random straight line
    through a point near the screen centre; the two halves slide apart in
    opposite directions along the line's angle until they are a screen
    diagonal away, and the screen is cleared when they get there. */
module Cut {
  import opened Canvas
  import Travel

  /** The random cut: whether |cos(angle)| < 0.001 (the vertical case),
      tan(angle), and the point (dx, dy) the line passes through. */
  datatype Line = Line(vertical: bool, slope: real, dx: real, dy: real)

  /** The two ends of the seam: `a` on the left edge (or the bottom, for a
      vertical cut) and `b` on the right edge (or the top). */
  datatype Segment = Segment(a: Point, b: Point)

  /** size / 2 + r * 50 - 25 for a random draw r in [0, 1): a coordinate at
      most 25 away from the middle of the screen. */
  function Jittered(size: Dim, r: real): (c: real)
    requires 0.0 <= r < 1.0
    ensures (size as real) / 2.0 - 25.0 <= c < (size as real) / 2.0 + 25.0
  {
    (size as real) / 2.0 + r * 50.0 - 25.0
  }

  /** The seam start computes on a `sw` x `sh` screen: for a vertical cut
      floor(dx) at the bottom (y = floor(sh)) and the top; otherwise the
      line's floored y at x = 0 and x = sw. */
  function StartBoundary(line: Line, sw: int, sh: int): Segment {
    if line.vertical then
      Segment(Point(line.dx.Floor, (sh as real).Floor), Point(line.dx.Floor, 0))
    else
      Segment(Point(0, (line.slope * (0.0 - line.dx) + line.dy).Floor),
              Point(sw, (line.slope * ((sw as real) - line.dx) + line.dy).Floor))
  }

  /** The seam update recomputes; its vertical case takes the screen height
      without flooring it. It always agrees with the seam start drew. */
  function UpdateBoundary(line: Line, sw: int, sh: int): (s: Segment)
    ensures s == StartBoundary(line, sw, sh)
  {
    if line.vertical then
      Segment(Point(line.dx.Floor, sh), Point(line.dx.Floor, 0))
    else
      var x := 0.0;
      var a := Point(x.Floor, (line.slope * (x - line.dx) + line.dy).Floor);
      var x' := sw as real;
      Segment(a, Point(x'.Floor, (line.slope * (x' - line.dx) + line.dy).Floor))
  }

  /** A polygon vertex of the non-vertical case: one of the seam ends, or
      the k-th frame corner start visits. */
  datatype Vertex = CutA | CutB | Corner(k: nat)

  /** The corners of a w x h snapshot in the order start visits them. */
  function FrameCorners(w: int, h: int): seq<Point> {
    [Point(0, 0), Point(w, 0), Point(w, h), Point(0, h)]
  }

  /** The side test -tan(angle) * p.x + p.y - q > 0 with q = dy - tan(angle) * dx:
      p lies strictly below the line on screen (greater y). */
  predicate Above(line: Line, p: Point) {
    -line.slope * (p.x as real) + (p.y as real) - (line.dy - line.slope * line.dx) > 0.0
  }

  /** The side test's verdict on each corner, in visiting order. */
  function Sides(line: Line, corners: seq<Point>): seq<bool>
  {
    seq(|corners|, k requires 0 <= k < |corners| => Above(line, corners[k]))
  }

  /** The seam ends pushed to both lists before corner p. */
  function Before(s: Segment, p: Point): seq<Vertex> {
    (if s.a.y > p.y && s.a.x == p.x then [CutA] else [])
    + (if s.b.y < p.y && s.b.x == p.x then [CutB] else [])
  }

  /** The seam ends pushed to both lists after corner p. */
  function After(s: Segment, p: Point): seq<Vertex> {
    (if s.b.y > p.y && s.b.x == p.x then [CutB] else [])
    + (if s.a.y < p.y && s.a.x == p.x then [CutA] else [])
  }

  /** Where the seam ends go around corner p: a seam end on p's vertical
      edge goes before p when it lies further down the edge than p (for `a`)
      or further up (for `b`), after p in the opposite case, and nowhere
      when it is level with p or on another edge. Only seam ends are
      inserted, each at most once on either side of p. */
  lemma Insertions(s: Segment, p: Point)
    ensures CutA in Before(s, p) <==> s.a.x == p.x && s.a.y > p.y
    ensures CutA in After(s, p) <==> s.a.x == p.x && s.a.y < p.y
    ensures CutB in Before(s, p) <==> s.b.x == p.x && s.b.y < p.y
    ensures CutB in After(s, p) <==> s.b.x == p.x && s.b.y > p.y
    ensures |Before(s, p)| <= 2 && |After(s, p)| <= 2
    ensures forall v :: v in Before(s, p) ==> !v.Corner?
    ensures forall v :: v in After(s, p) ==> !v.Corner?
  {
  }

  /** The seam ends due before each corner, in visiting order. */
  function BeforeEach(s: Segment, corners: seq<Point>): seq<seq<Vertex>> {
    seq(|corners|, k requires 0 <= k < |corners| => Before(s, corners[k]))
  }

  /** The seam ends due after each corner, in visiting order. */
  function AfterEach(s: Segment, corners: seq<Point>): seq<seq<Vertex>> {
    seq(|corners|, k requires 0 <= k < |corners| => After(s, corners[k]))
  }

  /** Insertions that name no corner. */
  predicate SeamEndsOnly(ins: seq<seq<Vertex>>) {
    forall k, i :: 0 <= k < |ins| && 0 <= i < |ins[k]| ==> !ins[k][i].Corner?
  }

  /** In particular no insertion list holds corner k. */
  lemma NoCornerInserted(ins: seq<seq<Vertex>>, j: nat, k: nat)
    requires SeamEndsOnly(ins) && j < |ins|
    ensures Corner(k) !in ins[j]
  {
    forall i | 0 <= i < |ins[j]|
      ensures ins[j][i] != Corner(k)
    {
      assert !ins[j][i].Corner?;
    }
  }

  /** Around every corner only seam ends are inserted. */
  lemma InsertionsEach(s: Segment, corners: seq<Point>)
    ensures SeamEndsOnly(BeforeEach(s, corners)) && SeamEndsOnly(AfterEach(s, corners))
  {
    forall k | 0 <= k < |corners| {
      Insertions(s, corners[k]);
    }
  }

  /** The two point lists of the non-vertical case. */
  datatype Outlines = Outlines(ptsA: seq<Vertex>, ptsB: seq<Vertex>)

  /** Visiting corner k: the seam ends `pre` due before it go to both lists,
      the corner to ptsA when `above` holds and to ptsB otherwise, then the
      seam ends `post` due after it to both. */
  function Visit(o: Outlines, pre: seq<Vertex>, above: bool, k: nat, post: seq<Vertex>): Outlines {
    if above then Outlines(o.ptsA + pre + [Corner(k)] + post, o.ptsB + pre + post)
    else Outlines(o.ptsA + pre + post, o.ptsB + pre + [Corner(k)] + post)
  }

  /** How many times v occurs in a list. */
  function Occurrences(pts: seq<Vertex>, v: Vertex): nat {
    if |pts| == 0 then 0
    else Occurrences(pts[..|pts| - 1], v) + (if pts[|pts| - 1] == v then 1 else 0)
  }

  lemma {:induction false} OccurrencesAppend(x: seq<Vertex>, y: seq<Vertex>, v: Vertex)
    ensures Occurrences(x + y, v) == Occurrences(x, v) + Occurrences(y, v)
  {
    if |y| > 0 {
      assert (x + y)[..|x + y| - 1] == x + y[..|y| - 1];
      OccurrencesAppend(x, y[..|y| - 1], v);
    } else {
      assert x + y == x;
    }
  }

  /** The lists after visiting the first n corners, where side[k] is corner
      k's side and before[k], after[k] the seam ends due around it. Both
      lists hold each seam end equally often: seam ends are always pushed
      to both. */
  function Walk(side: seq<bool>, before: seq<seq<Vertex>>, after: seq<seq<Vertex>>, n: nat): (o: Outlines)
    requires n <= |side| && n <= |before| && n <= |after|
    ensures forall v: Vertex {:trigger Occurrences(o.ptsA, v)} :: !v.Corner? ==> Occurrences(o.ptsA, v) == Occurrences(o.ptsB, v)
  {
    if n == 0 then Outlines([], [])
    else
      var o := Walk(side, before, after, n - 1);
      VisitBalanced(o, before[n - 1], side[n - 1], n - 1, after[n - 1]);
      Visit(o, before[n - 1], side[n - 1], n - 1, after[n - 1])
  }

  /** v occurs at most once in a list. */
  predicate AtMostOnce(pts: seq<Vertex>, v: Vertex) {
    forall i, j :: 0 <= i < j < |pts| && pts[i] == v ==> pts[j] != v
  }

  /** Corners of a list appear in visiting order. */
  predicate InVisitingOrder(pts: seq<Vertex>) {
    forall i, j :: 0 <= i < j < |pts| && pts[i].Corner? && pts[j].Corner? ==> pts[i].k < pts[j].k
  }

  /** Every corner a list names is one of the first n. */
  predicate CornersBelow(pts: seq<Vertex>, n: nat) {
    forall v :: v in pts && v.Corner? ==> v.k < n
  }

  /** Appending seam ends and at most one corner c to an ordered list whose
      corners all come before c keeps it ordered, and its corners stay
      below k + 1. */
  lemma VisitKeepsOrder(x: seq<Vertex>, pre: seq<Vertex>, c: seq<Vertex>, post: seq<Vertex>, k: nat)
    requires InVisitingOrder(x)
    requires CornersBelow(x, k)
    requires forall i :: 0 <= i < |pre| ==> !pre[i].Corner?
    requires forall i :: 0 <= i < |post| ==> !post[i].Corner?
    requires c == [] || c == [Corner(k)]
    ensures InVisitingOrder(x + pre + c + post)
    ensures CornersBelow(x + pre + c + post, k + 1)
  {
    var z := pre + c + post;
    var y := x + z;
    assert y == x + pre + c + post;
    assert forall t :: |x| <= t < |y| ==> y[t] == z[t - |x|];
    forall t | 0 <= t < |z|
      ensures z[t].Corner? ==> t == |pre| && z[t] == Corner(k)
    {
      if t < |pre| {
        assert z[t] == pre[t];
      } else if t >= |pre| + |c| {
        assert z[t] == post[t - |pre| - |c|];
      }
    }
    forall i, j | 0 <= i < j < |y| && y[i].Corner? && y[j].Corner?
      ensures y[i].k < y[j].k
    {
      if j < |x| {
        assert y[i] == x[i] && y[j] == x[j];
      } else if i < |x| {
        assert y[j] == z[j - |x|];
        assert y[i] == x[i] && x[i] in x;
      } else {
        assert false;
      }
    }
    forall v | v in y && v.Corner?
      ensures v.k < k + 1
    {
      var t :| 0 <= t < |y| && y[t] == v;
      if t < |x| {
        assert x[t] in x;
      } else {
        assert z[t - |x|] == v;
      }
    }
  }

  /** Occurrences in the lists after one visit, in terms of its pieces. */
  lemma VisitCounts(o: Outlines, pre: seq<Vertex>, above: bool, k: nat, post: seq<Vertex>, v: Vertex)
    ensures Occurrences(Visit(o, pre, above, k, post).ptsA, v)
      == Occurrences(o.ptsA, v) + Occurrences(pre, v) + Occurrences(post, v) + (if above && v == Corner(k) then 1 else 0)
    ensures Occurrences(Visit(o, pre, above, k, post).ptsB, v)
      == Occurrences(o.ptsB, v) + Occurrences(pre, v) + Occurrences(post, v) + (if !above && v == Corner(k) then 1 else 0)
  {
    var here: seq<Vertex> := [Corner(k)];
    assert Occurrences(here, v) == (if v == Corner(k) then 1 else 0) by {
      assert here[..0] == [];
    }
    var withCorner, without := if above then o.ptsA else o.ptsB, if above then o.ptsB else o.ptsA;
    OccurrencesAppend(withCorner + pre + here, post, v);
    OccurrencesAppend(withCorner + pre, here, v);
    OccurrencesAppend(withCorner, pre, v);
    OccurrencesAppend(without + pre, post, v);
    OccurrencesAppend(without, pre, v);
  }

  /** A visit keeps every seam end as frequent in one list as in the other. */
  lemma VisitBalanced(o: Outlines, pre: seq<Vertex>, above: bool, k: nat, post: seq<Vertex>)
    requires forall v: Vertex {:trigger Occurrences(o.ptsA, v)} :: !v.Corner? ==> Occurrences(o.ptsA, v) == Occurrences(o.ptsB, v)
    ensures forall v: Vertex {:trigger Occurrences(Visit(o, pre, above, k, post).ptsA, v)} :: !v.Corner? ==>
      Occurrences(Visit(o, pre, above, k, post).ptsA, v) == Occurrences(Visit(o, pre, above, k, post).ptsB, v)
  {
    forall v: Vertex | !v.Corner? {
      VisitCounts(o, pre, above, k, post, v);
    }
  }

  /** After the first n corners, corner k is in ptsA exactly when it was
      visited and the side test puts it on side A, and in ptsB exactly when
      it was visited and the test puts it on side B. */
  lemma {:induction false} WalkCorners(side: seq<bool>, before: seq<seq<Vertex>>, after: seq<seq<Vertex>>, n: nat, k: nat)
    requires n <= |side| && n <= |before| && n <= |after|
    requires SeamEndsOnly(before) && SeamEndsOnly(after)
    ensures Corner(k) in Walk(side, before, after, n).ptsA <==> k < n && side[k]
    ensures Corner(k) in Walk(side, before, after, n).ptsB <==> k < n && !side[k]
  {
    if n > 0 {
      WalkCorners(side, before, after, n - 1, k);
      NoCornerInserted(before, n - 1, k);
      NoCornerInserted(after, n - 1, k);
    }
  }

  /** One visit keeps both lists in visiting order, with their corners
      below k + 1, when its seam ends name no corner. */
  lemma VisitOrdered(o: Outlines, pre: seq<Vertex>, above: bool, k: nat, post: seq<Vertex>)
    requires InVisitingOrder(o.ptsA) && InVisitingOrder(o.ptsB)
    requires CornersBelow(o.ptsA, k) && CornersBelow(o.ptsB, k)
    requires forall i :: 0 <= i < |pre| ==> !pre[i].Corner?
    requires forall i :: 0 <= i < |post| ==> !post[i].Corner?
    ensures InVisitingOrder(Visit(o, pre, above, k, post).ptsA)
    ensures InVisitingOrder(Visit(o, pre, above, k, post).ptsB)
    ensures CornersBelow(Visit(o, pre, above, k, post).ptsA, k + 1)
    ensures CornersBelow(Visit(o, pre, above, k, post).ptsB, k + 1)
  {
    var here: seq<Vertex> := [Corner(k)];
    if above {
      VisitKeepsOrder(o.ptsA, pre, here, post, k);
      VisitKeepsOrder(o.ptsB, pre, [], post, k);
      assert o.ptsB + pre + [] + post == o.ptsB + pre + post;
    } else {
      VisitKeepsOrder(o.ptsA, pre, [], post, k);
      VisitKeepsOrder(o.ptsB, pre, here, post, k);
      assert o.ptsA + pre + [] + post == o.ptsA + pre + post;
    }
  }

  /** After the first n corners both lists are in visiting order and name
      only corners below n. */
  lemma {:induction false} WalkOrdered(side: seq<bool>, before: seq<seq<Vertex>>, after: seq<seq<Vertex>>, n: nat)
    requires n <= |side| && n <= |before| && n <= |after|
    requires SeamEndsOnly(before) && SeamEndsOnly(after)
    ensures InVisitingOrder(Walk(side, before, after, n).ptsA)
    ensures InVisitingOrder(Walk(side, before, after, n).ptsB)
    ensures CornersBelow(Walk(side, before, after, n).ptsA, n)
    ensures CornersBelow(Walk(side, before, after, n).ptsB, n)
  {
    if n > 0 {
      var o := Walk(side, before, after, n - 1);
      WalkOrdered(side, before, after, n - 1);
      VisitOrdered(o, before[n - 1], side[n - 1], n - 1, after[n - 1]);
      assert Walk(side, before, after, n) == Visit(o, before[n - 1], side[n - 1], n - 1, after[n - 1]);
    }
  }

  /** The lists start builds for a non-vertical cut of a w x h snapshot. */
  function Split(line: Line, s: Segment, w: int, h: int): Outlines {
    var corners := FrameCorners(w, h);
    Walk(Sides(line, corners), BeforeEach(s, corners), AfterEach(s, corners), 4)
  }

  /** Each frame corner goes to exactly one list, once, ptsA when the side
      test holds for it and ptsB otherwise; both lists keep visiting order. */
  lemma EachCornerOnce(line: Line, s: Segment, w: int, h: int, k: nat)
    requires k < 4
    ensures Corner(k) in Split(line, s, w, h).ptsA <==> Above(line, FrameCorners(w, h)[k])
    ensures Corner(k) in Split(line, s, w, h).ptsB <==> !Above(line, FrameCorners(w, h)[k])
    ensures AtMostOnce(Split(line, s, w, h).ptsA, Corner(k)) && AtMostOnce(Split(line, s, w, h).ptsB, Corner(k))
    ensures InVisitingOrder(Split(line, s, w, h).ptsA) && InVisitingOrder(Split(line, s, w, h).ptsB)
  {
    var corners := FrameCorners(w, h);
    var side, before, after := Sides(line, corners), BeforeEach(s, corners), AfterEach(s, corners);
    InsertionsEach(s, corners);
    WalkCorners(side, before, after, 4, k);
    WalkOrdered(side, before, after, 4);
  }

  /** Both lists name `a` equally often, and `b` equally often. */
  lemma SameSeamEnds(line: Line, s: Segment, w: int, h: int)
    ensures Occurrences(Split(line, s, w, h).ptsA, CutA) == Occurrences(Split(line, s, w, h).ptsB, CutA)
    ensures Occurrences(Split(line, s, w, h).ptsA, CutB) == Occurrences(Split(line, s, w, h).ptsB, CutB)
  {
  }

  /** When the line passes through (dx, dy) with 0 <= dx <= w and 0 < dy < h,
      each side gets at least one corner, so neither list is empty. */
  lemma SidesNonEmpty(line: Line, s: Segment, w: int, h: int)
    requires 0.0 <= line.dx <= w as real && 0.0 < line.dy < h as real
    ensures |Split(line, s, w, h).ptsA| >= 1 && |Split(line, s, w, h).ptsB| >= 1
  {
    var t := line.slope;
    var toLeft := 0.0 - line.dx;
    var toRight := (w as real) - line.dx;
    var corners := FrameCorners(w, h);
    AboveAround(line, corners[0]);
    AboveAround(line, corners[1]);
    AboveAround(line, corners[2]);
    AboveAround(line, corners[3]);
    if t >= 0.0 {
      assert t * toLeft <= 0.0 <= t * toRight;
      assert Above(line, corners[3]) && !Above(line, corners[1]);
      EachCornerOnce(line, s, w, h, 3);
      EachCornerOnce(line, s, w, h, 1);
    } else {
      assert t * toRight <= 0.0 <= t * toLeft;
      assert Above(line, corners[2]) && !Above(line, corners[0]);
      EachCornerOnce(line, s, w, h, 2);
      EachCornerOnce(line, s, w, h, 0);
    }
  }

  /** The side test rearranged around the cut point (dx, dy): p is above
      when it lies further down than the line at p's x. */
  lemma AboveAround(line: Line, p: Point)
    ensures Above(line, p) <==> (p.y as real) - line.dy > line.slope * ((p.x as real) - line.dx)
  {
    var t := line.slope;
    assert t * ((p.x as real) - line.dx) == t * (p.x as real) - t * line.dx;
  }

  /** The walk of the usual case, whatever the corners' positions. */
  lemma WalkAcross(side: seq<bool>, before: seq<seq<Vertex>>, after: seq<seq<Vertex>>)
    requires side == [false, false, true, true]
    requires before == [[CutA], [], [CutB], []] && after == [[], [CutB], [], [CutA]]
    ensures Walk(side, before, after, 4).ptsA == [CutA, CutB, CutB, Corner(2), Corner(3), CutA]
    ensures Walk(side, before, after, 4).ptsB == [CutA, Corner(0), Corner(1), CutB, CutB, CutA]
  {
    assert Walk(side, before, after, 1) == Outlines([CutA], [CutA, Corner(0)]);
    assert Walk(side, before, after, 2) == Outlines([CutA, CutB], [CutA, Corner(0), Corner(1), CutB]);
    assert Walk(side, before, after, 3) == Outlines([CutA, CutB, CutB, Corner(2)], [CutA, Corner(0), Corner(1), CutB, CutB]);
  }

  /** The usual case: a line entering through the left edge and leaving
      through the right edge strictly between top and bottom, with the
      bottom corners below it and the top corners above it. ptsA outlines
      the lower half and ptsB the upper half, and each names b twice. */
  lemma AcrossTheFrame(line: Line, s: Segment, w: int, h: int)
    requires w >= 1 && s.a.x == 0 && s.b.x == w
    requires 0 < s.a.y < h && 0 < s.b.y < h
    requires Sides(line, FrameCorners(w, h)) == [false, false, true, true]
    ensures Split(line, s, w, h).ptsA == [CutA, CutB, CutB, Corner(2), Corner(3), CutA]
    ensures Split(line, s, w, h).ptsB == [CutA, Corner(0), Corner(1), CutB, CutB, CutA]
  {
    var corners := FrameCorners(w, h);
    var before, after := BeforeEach(s, corners), AfterEach(s, corners);
    assert before[0] == [CutA] && after[0] == [];
    assert before[1] == [] && after[1] == [CutB];
    assert before[2] == [CutB] && after[2] == [];
    assert before[3] == [] && after[3] == [CutA];
    WalkAcross(Sides(line, corners), before, after);
  }

  /** Where a vertex is drawn; a corner index the walk never produces falls
      back to the origin. */
  function Position(v: Vertex, s: Segment, corners: seq<Point>): Point {
    match v
    case CutA => s.a
    case CutB => s.b
    case Corner(k) => if k < |corners| then corners[k] else Point(0, 0)
  }

  /** The filled path of a list: its points in order, closed by repeating
      the first one. An empty list gives an empty path. The path is closed,
      every point on it is a corner or a seam end (when the list names only
      existing corners), and every corner the list names is on it. */
  function Traced(pts: seq<Vertex>, s: Segment, corners: seq<Point>): (path: seq<Point>)
    ensures |path| >= 1 ==> path[0] == path[|path| - 1]
    ensures CornersBelow(pts, |corners|) ==>
      forall i :: 0 <= i < |path| ==> path[i] in corners || path[i] == s.a || path[i] == s.b
    ensures forall k :: 0 <= k < |corners| && Corner(k) in pts ==> corners[k] in path
  {
    if |pts| == 0 then []
    else
      var path := seq(|pts|, i requires 0 <= i < |pts| => Position(pts[i], s, corners)) + [Position(pts[0], s, corners)];
      ClosedListPoints(pts, s, corners, path);
      path
  }

  /** The facts `Traced` promises, for a list's points closed by its first. */
  lemma ClosedListPoints(pts: seq<Vertex>, s: Segment, corners: seq<Point>, path: seq<Point>)
    requires |pts| >= 1 && |path| == |pts| + 1 && path[|pts|] == path[0]
    requires forall i :: 0 <= i < |pts| ==> path[i] == Position(pts[i], s, corners)
    ensures CornersBelow(pts, |corners|) ==>
      forall i :: 0 <= i < |path| ==> path[i] in corners || path[i] == s.a || path[i] == s.b
    ensures forall k :: 0 <= k < |corners| && Corner(k) in pts ==> corners[k] in path
  {
    if CornersBelow(pts, |corners|) {
      forall i | 0 <= i < |path|
        ensures path[i] in corners || path[i] == s.a || path[i] == s.b
      {
        var v := if i < |pts| then pts[i] else pts[0];
        assert path[i] == Position(v, s, corners) && v in pts;
      }
    }
    forall k | 0 <= k < |corners| && Corner(k) in pts
      ensures corners[k] in path
    {
      var i :| 0 <= i < |pts| && pts[i] == Corner(k);
      assert path[i] == corners[k];
    }
  }

  /** The two outlines of a non-vertical cut: each traced path is closed,
      every point on it is a frame corner or a seam end, and every corner
      the side test puts on a side lies on that side's path. */
  lemma OutlinePaths(line: Line, s: Segment, w: int, h: int)
    ensures var o, corners := Split(line, s, w, h), FrameCorners(w, h);
      var pathA, pathB := Traced(o.ptsA, s, corners), Traced(o.ptsB, s, corners);
      && (|pathA| >= 1 ==> pathA[0] == pathA[|pathA| - 1])
      && (|pathB| >= 1 ==> pathB[0] == pathB[|pathB| - 1])
      && (forall i :: 0 <= i < |pathA| ==> pathA[i] in corners || pathA[i] == s.a || pathA[i] == s.b)
      && (forall i :: 0 <= i < |pathB| ==> pathB[i] in corners || pathB[i] == s.a || pathB[i] == s.b)
      && (forall k :: 0 <= k < 4 && Above(line, corners[k]) ==> corners[k] in pathA)
      && (forall k :: 0 <= k < 4 && !Above(line, corners[k]) ==> corners[k] in pathB)
  {
    var corners := FrameCorners(w, h);
    var side, before, after := Sides(line, corners), BeforeEach(s, corners), AfterEach(s, corners);
    InsertionsEach(s, corners);
    WalkOrdered(side, before, after, 4);
    var o := Split(line, s, w, h);
    forall k | 0 <= k < 4
      ensures Above(line, corners[k]) ==> Corner(k) in o.ptsA
      ensures !Above(line, corners[k]) ==> Corner(k) in o.ptsB
    {
      WalkCorners(side, before, after, 4, k);
    }
  }

  /** The masks start gives the two copies of a w x h snapshot. */
  function Masks(line: Line, s: Segment, w: int, h: int): (m: (Mask, Mask))
  {
    if line.vertical then
      (Polygon([Point(0, 0), s.b, s.a, Point(0, s.a.y), Point(0, 0)]),
       Polygon([Point(w, 0), s.b, s.a, Point(w, s.a.y), Point(w, 0)]))
    else
      var o := Split(line, s, w, h);
      (Polygon(Traced(o.ptsA, s, FrameCorners(w, h))), Polygon(Traced(o.ptsB, s, FrameCorners(w, h))))
  }

  /** In the vertical case each half is the rectangle between the seam and
      its own side edge: copy 0 keeps the left of x = floor(dx), copy 1 the
      right. */
  lemma VerticalHalves(line: Line, sw: int, sh: int, w: int, h: int)
    requires line.vertical
    ensures var s := StartBoundary(line, sw, sh);
      && s.a == Point(line.dx.Floor, sh) && s.b == Point(line.dx.Floor, 0)
      && Masks(line, s, w, h).0 == Polygon([Point(0, 0), Point(line.dx.Floor, 0), Point(line.dx.Floor, sh), Point(0, sh), Point(0, 0)])
      && Masks(line, s, w, h).1 == Polygon([Point(w, 0), Point(line.dx.Floor, 0), Point(line.dx.Floor, sh), Point(w, sh), Point(w, 0)])
  {
  }

  /** One corner of start's walk: the seam ends due before p, p itself on
      the side the test gives it, the seam ends due after p. */
  method VisitCorner(line: Line, s: Segment, p: Point, k: nat, ptsA: seq<Vertex>, ptsB: seq<Vertex>)
    returns (ptsA': seq<Vertex>, ptsB': seq<Vertex>)
    ensures Outlines(ptsA', ptsB') == Visit(Outlines(ptsA, ptsB), Before(s, p), Above(line, p), k, After(s, p))
  {
    ptsA', ptsB' := ptsA, ptsB;
    if s.a.y > p.y && s.a.x == p.x {
      ptsA', ptsB' := ptsA' + [CutA], ptsB' + [CutA];
    }
    if s.b.y < p.y && s.b.x == p.x {
      ptsA', ptsB' := ptsA' + [CutB], ptsB' + [CutB];
    }
    assert ptsA' == ptsA + Before(s, p) && ptsB' == ptsB + Before(s, p);
    if Above(line, p) {
      ptsA' := ptsA' + [Corner(k)];
    } else {
      ptsB' := ptsB' + [Corner(k)];
    }
    ghost var a2, b2 := ptsA', ptsB';
    if s.b.y > p.y && s.b.x == p.x {
      ptsA', ptsB' := ptsA' + [CutB], ptsB' + [CutB];
    }
    if s.a.y < p.y && s.a.x == p.x {
      ptsA', ptsB' := ptsA' + [CutA], ptsB' + [CutA];
    }
    assert ptsA' == a2 + After(s, p) && ptsB' == b2 + After(s, p);
  }

  /** The corner walk of start, one corner after the other. */
  method SplitCorners(line: Line, s: Segment, w: int, h: int) returns (ptsA: seq<Vertex>, ptsB: seq<Vertex>)
    ensures Outlines(ptsA, ptsB) == Split(line, s, w, h)
  {
    var corners := FrameCorners(w, h);
    ghost var side, before, after := Sides(line, corners), BeforeEach(s, corners), AfterEach(s, corners);
    ptsA, ptsB := [], [];
    var k := 0;
    while k < |corners|
      invariant 0 <= k <= |corners| == 4
      invariant Outlines(ptsA, ptsB) == Walk(side, before, after, k)
    {
      ptsA, ptsB := VisitCorner(line, s, corners[k], k, ptsA, ptsB);
      k := k + 1;
    }
  }

  /** Traces a list as start does: move to the first point, a line to each
      further one, and back to the first. */
  method TracePath(pts: seq<Vertex>, s: Segment, corners: seq<Point>) returns (path: seq<Point>)
    ensures path == Traced(pts, s, corners)
  {
    if |pts| == 0 {
      return [];
    }
    path := [Position(pts[0], s, corners)];
    var i := 1;
    while i < |pts|
      invariant 1 <= i <= |pts|
      invariant path == seq(i, k requires 0 <= k < i => Position(pts[k], s, corners))
    {
      path := path + [Position(pts[i], s, corners)];
      i := i + 1;
    }
    path := path + [Position(pts[0], s, corners)];
  }

  /** One update's drawing once the halves moved `distance`: copy 0 along
      the cut angle, copy 1 the opposite way, and the seam. */
  function Slid(distance: real, s: Segment): seq<Draw> {
    [ShiftBlit(0, false, distance), ShiftBlit(1, true, distance), Seam(s.a, s.b)]
  }

  /** Transition_Cut: a cut of the captured frame drawn on `screen`. */
  class CutTransition {
    const screen: Sprite
    const white: int
    /** Only a fade-in (+1) plays the cut. */
    const fadeSign: int
    var snaps: seq<Layer>
    var line: Line
    var distance: real
    var active: bool
    var duration: int
    var remainingDuration: int

    /** The abstract state update works on. */
    ghost function State(): Travel.Traveller
      reads this
    {
      Travel.Traveller(active, distance, remainingDuration)
    }

    ghost predicate Valid()
      reads this
    {
      |snaps| == 2 && (active ==> duration >= 1)
    }

    /** What start(d) leaves on a cut that was not running, given the
        draws: the line they fix, the two copies masked to its halves, the
        cleared sprite showing both copies and the seam, and a countdown of
        2 * d ticks. */
    ghost predicate StartedWith(d: int, vertical: bool, slope: real, jx: real, jy: real)
      requires 0.0 <= jx < 1.0 && 0.0 <= jy < 1.0
      reads this, screen
    {
      && (fadeSign > 0 ==>
            && distance == 0.0 && duration == 2 * d && remainingDuration == 2 * d
            && line == Line(vertical, slope, Jittered(screen.width, jx), Jittered(screen.height, jy))
            && |snaps| == 2
            && var s := StartBoundary(line, screen.width, screen.height);
               var m := Masks(line, s, snaps[0].frame.width, snaps[0].frame.height);
               && snaps[0].mask == m.0 && snaps[1].mask == m.1
               && screen.canvas == [Blit(0), Blit(1), Seam(s.a, s.b)])
      && (fadeSign > 0 <==> active)
    }

    /** The effect of one update: the halves move and the seam is redrawn
        while the cut runs, and the screen is left empty on the update that
        stops it. */
    twostate predicate Ticked()
      requires old(Valid())
      reads this, screen
    {
      && snaps == old(snaps) && line == old(line) && duration == old(duration)
      && (old(active) ==> State() == Travel.Tick(old(State()), screen.width, screen.height, duration))
      && (!old(active) ==> State() == old(State()))
      && screen.canvas == (if !old(active) then old(screen.canvas)
                           else if active then Slid(distance, StartBoundary(line, screen.width, screen.height))
                           else [])
    }

    /** initialize: stopped, with two unmasked copies of the captured frame. */
    constructor (screen: Sprite, white: int, fadeSign: int, snap: Frame)
      ensures this.screen == screen && this.white == white && this.fadeSign == fadeSign
      ensures snaps == [Layer(snap, Whole), Layer(snap, Whole)]
      ensures !active && Valid()
    {
      this.screen := screen;
      this.white := white;
      this.fadeSign := fadeSign;
      snaps := [Layer(snap, Whole)];
      snaps := snaps + [Layer(snap, Whole)];
      line := Line(false, 0.0, 0.0, 0.0);
      distance := 0.0;
      active := false;
      duration := 0;
      remainingDuration := 0;
    }

    /** start(d) with the random draws as parameters: `vertical` and `slope`
        stand for the angle (|cos| < 0.001 and its tangent), `jx` and `jy`
        are the two draws in [0, 1) that place the cut point. Only a fade-in
        plays: it masks the two copies to the halves, draws them and the
        seam on the cleared screen, and runs for 2 * d ticks. */
    method Start(d: int, vertical: bool, slope: real, jx: real, jy: real)
      requires Valid()
      requires fadeSign > 0 ==> d >= 1
      requires 0.0 <= jx < 1.0 && 0.0 <= jy < 1.0
      modifies this, screen`canvas
      ensures Valid()
      ensures fadeSign > 0 ==>
        && StartedWith(d, vertical, slope, jx, jy)
        && line == Line(vertical, slope, Jittered(screen.width, jx), Jittered(screen.height, jy))
        && var s := StartBoundary(line, screen.width, screen.height);
           var m := Masks(line, s, old(snaps[0].frame.width), old(snaps[0].frame.height));
           && snaps == [old(snaps[0]).(mask := m.0), old(snaps[1]).(mask := m.1)]
           && screen.canvas == [Blit(0), Blit(1), Seam(s.a, s.b)]
      ensures fadeSign <= 0 ==>
        && snaps == old(snaps) && line == old(line) && distance == old(distance)
        && active == old(active) && duration == old(duration)
        && remainingDuration == old(remainingDuration) && screen.canvas == old(screen.canvas)
    {
      if |snaps| >= 2 && fadeSign > 0 {
        line := Line(vertical, slope, Jittered(screen.width, jx), Jittered(screen.height, jy));
        var s := StartBoundary(line, screen.width, screen.height);
        var w := snaps[0].frame.width;
        var h := snaps[0].frame.height;
        var mask0, mask1;
        if line.vertical {
          mask0 := Polygon([Point(0, 0), s.b, s.a, Point(0, s.a.y), Point(0, 0)]);
          mask1 := Polygon([Point(w, 0), s.b, s.a, Point(w, s.a.y), Point(w, 0)]);
        } else {
          var ptsA, ptsB := SplitCorners(line, s, w, h);
          var pathA := TracePath(ptsA, s, FrameCorners(w, h));
          var pathB := TracePath(ptsB, s, FrameCorners(w, h));
          mask0 := Polygon(pathA);
          mask1 := Polygon(pathB);
        }
        snaps := [snaps[0].(mask := mask0), snaps[1].(mask := mask1)];
        screen.canvas := [Blit(0), Blit(1), Seam(s.a, s.b)];
        distance := 0.0;
        duration := d * 2;
        remainingDuration := d * 2;
        active := true;
      }
    }

    /** update: recompute the seam, move the halves max(w, h) / duration
        further apart (w x h the screen), redraw them and the seam, count
        down, keep running while the distance is within the diagonal, and
        clear the screen on the update that stops. */
    method Update()
      requires Valid()
      modifies this`distance, this`active, this`remainingDuration, screen`canvas
      ensures Valid() && Ticked()
    {
      if active {
        var s := UpdateBoundary(line, screen.width, screen.height);
        var w := screen.width;
        var h := screen.height;
        distance := distance + (Travel.Reach(w, h) as real) / (duration as real);
        screen.canvas := [ShiftBlit(0, false, distance), ShiftBlit(1, true, distance), Seam(s.a, s.b)];
        remainingDuration := remainingDuration - 1;
        active := Travel.WithinDiagonal(distance, w, h);
        if !active {
          screen.canvas := [];
        }
      }
    }
  }
}
