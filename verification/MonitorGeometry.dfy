/**
 CsScreen: from the monitors the windowing system reports to the ones the screensaver uses.

 Coordinates are unbounded integers; the X protocol keeps them within 16 bits.
 */
module MonitorGeometry {

  datatype Rect = Rect(x: int, y: int, width: int, height: int)

  datatype MonitorInfo = MonitorInfo(number: int, rect: Rect, output: int, primary: bool)

  function Rects(infos: seq<MonitorInfo>): (r: seq<Rect>)
    ensures |r| == |infos|
    ensures forall i :: 0 <= i < |infos| ==> r[i] == infos[i].rect
  {
    seq(|infos|, i requires 0 <= i < |infos| => infos[i].rect)
  }

  predicate Mirrors(infos: seq<MonitorInfo>, r: Rect) {
    exists j :: 0 <= j < |infos| && infos[j].rect == r
  }

  /** One more monitor, unless it mirrors one that is there. */
  function WithNext(kept: seq<MonitorInfo>, last: MonitorInfo): seq<MonitorInfo> {
    if Mirrors(kept, last.rect) then kept else kept + [last.(number := |kept|)]
  }

  /** The monitors with every mirror of an earlier one left out; those after the first are numbered anew. */
  function Filtered(infos: seq<MonitorInfo>): (f: seq<MonitorInfo>)
    ensures |f| <= |infos|
    ensures infos != [] ==> f != []
  {
    if |infos| <= 1 then infos
    else WithNext(Filtered(infos[..|infos| - 1]), infos[|infos| - 1])
  }

  /** Behind `rounds` turns of the outer loop, with its index at `i`. */
  predicate SoFar(was: seq<MonitorInfo>, rounds: nat, i: int, now: seq<MonitorInfo>) {
    && rounds < |was|
    && i == |Filtered(was[..rounds + 1])|
    && now == Filtered(was[..rounds + 1]) + was[rounds + 1..]
  }

  lemma OneIsKept(was: seq<MonitorInfo>)
    ensures Filtered([]) == []
    ensures was != [] ==> SoFar(was, 0, 1, was)
  {
    if was != [] {
      assert was[..1] == [was[0]] && [was[0]] + was[1..] == was;
    }
  }

  lemma SplitHere(was: seq<MonitorInfo>, rounds: nat, i: int, now: seq<MonitorInfo>)
    returns (kept: seq<MonitorInfo>, last: MonitorInfo, rest: seq<MonitorInfo>)
    requires SoFar(was, rounds, i, now) && i < |now|
    ensures 0 < i == |kept| && now == kept + [last] + rest && AllDifferent(kept)
    ensures SoFar(was, rounds + 1, |WithNext(kept, last)|, WithNext(kept, last) + rest)
  {
    kept, last, rest := Filtered(was[..rounds + 1]), was[rounds + 1], was[rounds + 2..];
    assert was[rounds + 1..] == [last] + rest;
    FilterStep(was, rounds + 1);
    hide Filtered, WithNext;
  }

  lemma AllFiltered(was: seq<MonitorInfo>, rounds: nat, i: int, now: seq<MonitorInfo>)
    requires SoFar(was, rounds, i, now) && i >= |now|
    ensures now == Filtered(was) && rounds == |was| - 1
  {
    hide Filtered;
    assert |was[rounds + 1..]| == 0;
    assert was[..rounds + 1] == was;
  }

  lemma FilterStep(infos: seq<MonitorInfo>, n: nat)
    requires 0 < n < |infos|
    ensures Filtered(infos[..n + 1]) == WithNext(Filtered(infos[..n]), infos[n])
    ensures AllDifferent(Filtered(infos[..n]))
  {
    assert infos[..n + 1][..n] == infos[..n];
    FilteredDiffer(infos[..n]);
  }

  /** Where each rectangle of `rects` occurs for the first time, in order. */
  function FirstPositions(rects: seq<Rect>): (ps: seq<nat>)
    ensures forall k :: 0 <= k < |ps| ==> ps[k] < |rects|
  {
    if rects == [] then []
    else
      var n := |rects| - 1;
      FirstPositions(rects[..n]) + if rects[n] in rects[..n] then [] else [n]
  }

  predicate AreFirst(ps: seq<nat>, rects: seq<Rect>) {
    && (forall j, k :: 0 <= j < k < |ps| ==> ps[j] < ps[k])
    && (forall k :: 0 <= k < |ps| ==> ps[k] < |rects| && rects[ps[k]] !in rects[..ps[k]])
  }

  /** What the positions mean: they increase, and each is the first of its rectangle. */
  lemma {:induction false} PositionsAreFirst(rects: seq<Rect>)
    ensures AreFirst(FirstPositions(rects), rects)
  {
    if rects != [] {
      var front := rects[..|rects| - 1];
      var ps0, ps := FirstPositions(front), FirstPositions(rects);
      PositionsAreFirst(front);
      assert ps == ps0 + if rects[|front|] in front then [] else [|front|];
      forall k | 0 <= k < |ps0|
        ensures ps[k] == ps0[k] < |front|
        ensures rects[ps[k]] !in rects[..ps[k]]
      {
        assert front[ps0[k]] !in front[..ps0[k]];
        assert front[..ps0[k]] == rects[..ps0[k]];
      }
      forall j, k | 0 <= j < k < |ps| ensures ps[j] < ps[k] {
        if k < |ps0| { assert ps0[j] < ps0[k]; }
      }
    }
  }

  /** No rectangle is missed: a first occurrence has its position among them. */
  lemma {:induction false} PositionsAreAll(rects: seq<Rect>, i: nat)
    requires i < |rects| && rects[i] !in rects[..i]
    ensures i in FirstPositions(rects)
  {
    var n := |rects| - 1;
    if i < n {
      assert rects[..n][..i] == rects[..i];
      PositionsAreAll(rects[..n], i);
    }
  }

  lemma {:induction false} FilteredShowsSame(infos: seq<MonitorInfo>)
    ensures forall r :: Mirrors(Filtered(infos), r) <==> Mirrors(infos, r)
  {
    if |infos| > 1 {
      var front, last := infos[..|infos| - 1], infos[|infos| - 1];
      var f0 := Filtered(front);
      FilteredShowsSame(front);
      hide Mirrors;
      forall r ensures Mirrors(Filtered(infos), r) <==> Mirrors(infos, r) {
        MirrorsAppend(front, last, r);
        MirrorsAppend(f0, last.(number := |f0|), r);
        assert infos == front + [last];
      }
    }
  }

  ghost predicate AllDifferent(infos: seq<MonitorInfo>) {
    forall j, k :: 0 <= j < k < |infos| ==> infos[j].rect != infos[k].rect
  }

  ghost predicate Numbered(infos: seq<MonitorInfo>) {
    forall k :: 0 < k < |infos| ==> infos[k].number == k
  }

  /** Where it came from: the monitors at the places `ps`. */
  ghost predicate Picked(f: seq<MonitorInfo>, infos: seq<MonitorInfo>, ps: seq<nat>) {
    && |f| == |ps|
    && (forall k :: 0 <= k < |ps| ==> ps[k] < |infos|)
    && (forall k :: 0 <= k < |f| ==> f[k].rect == infos[ps[k]].rect && f[k].output == infos[ps[k]].output)
  }

  lemma NextKeeps(kept: seq<MonitorInfo>, last: MonitorInfo)
    requires AllDifferent(kept) && Numbered(kept)
    ensures AllDifferent(WithNext(kept, last)) && Numbered(WithNext(kept, last))
  {
  }

  lemma NextPicked(kept: seq<MonitorInfo>, front: seq<MonitorInfo>, last: MonitorInfo, ps: seq<nat>)
    requires Picked(kept, front, ps)
    ensures Picked(WithNext(kept, last), front + [last], ps + if Mirrors(kept, last.rect) then [] else [|front|])
  {
  }

  lemma {:induction false} FilteredDiffer(infos: seq<MonitorInfo>)
    ensures AllDifferent(Filtered(infos)) && Numbered(Filtered(infos))
    ensures infos != [] ==> Filtered(infos)[0] == infos[0]
  {
    if |infos| > 1 {
      FilteredDiffer(infos[..|infos| - 1]);
      NextKeeps(Filtered(infos[..|infos| - 1]), infos[|infos| - 1]);
    }
  }

  /** Main result: filtering is a stable de-duplication.  What remains are the first occurrences in order,
      with their own attributes, pairwise different, showing the same rectangles as before; from the
      second on a monitor's number is its index. */
  lemma {:induction false} FilteredIsStable(infos: seq<MonitorInfo>)
    ensures Picked(Filtered(infos), infos, FirstPositions(Rects(infos)))
    ensures AllDifferent(Filtered(infos)) && Numbered(Filtered(infos))
    ensures infos != [] ==> Filtered(infos)[0] == infos[0]
    ensures forall r :: Mirrors(Filtered(infos), r) <==> Mirrors(infos, r)
  {
    FilteredShowsSame(infos);
    FilteredDiffer(infos);
    if |infos| > 1 {
      var n := |infos| - 1;
      var front, last := infos[..n], infos[n];
      FilteredIsStable(front);
      RectsMembers(front);
      assert Rects(infos)[..n] == Rects(front) && front + [last] == infos;
      hide Mirrors, Picked, AllDifferent, Numbered;
      NextPicked(Filtered(front), front, last, FirstPositions(Rects(front)));
    } else if |infos| == 1 {
      assert Rects(infos)[..0] == [] && FirstPositions([]) == [];
    }
  }

  lemma MirrorsAppend(infos: seq<MonitorInfo>, m: MonitorInfo, r: Rect)
    ensures Mirrors(infos + [m], r) <==> Mirrors(infos, r) || m.rect == r
  {
    if Mirrors(infos, r) {
      var j :| 0 <= j < |infos| && infos[j].rect == r;
      assert (infos + [m])[j].rect == r;
    }
    assert (infos + [m])[|infos|] == m;
  }

  // ------------------------------------------------------------------- bounding boxes

  function Min(a: int, b: int): int { if a <= b then a else b }
  function Max(a: int, b: int): int { if a >= b then a else b }

  /** gdk_rectangle_union, which does not treat empty rectangles apart. */
  function Union(a: Rect, b: Rect): Rect {
    var x, y := Min(a.x, b.x), Min(a.y, b.y);
    Rect(x, y, Max(a.x + a.width, b.x + b.width) - x, Max(a.y + a.height, b.y + b.height) - y)
  }

  /** The union the loop of is_full_change computes; it starts from the empty rectangle at the origin. */
  function BoundingBox(rects: seq<Rect>): Rect {
    if rects == [] then Rect(0, 0, 0, 0)
    else Union(BoundingBox(rects[..|rects| - 1]), rects[|rects| - 1])
  }

  datatype Edge = Left | Top | Right | Bottom

  function At(r: Rect, e: Edge): int {
    match e
    case Left => r.x
    case Top => r.y
    case Right => r.x + r.width
    case Bottom => r.y + r.height
  }

  /** Of two edges the one further out. */
  function Outer(e: Edge, a: int, b: int): int {
    if e.Left? || e.Top? then (if a < b then a else b) else (if a > b then a else b)
  }

  /** `v` is the outermost of 0 and these edges of the rectangles. */
  ghost predicate Outermost(v: int, rects: seq<Rect>, e: Edge) {
    && (v == 0 || exists r :: r in rects && At(r, e) == v)
    && Outer(e, v, 0) == v
    && (forall r :: r in rects ==> Outer(e, v, At(r, e)) == v)
  }

  lemma UnionEdge(a: Rect, b: Rect, e: Edge)
    ensures At(Union(a, b), e) == Outer(e, At(a, e), At(b, e))
  {
  }

  lemma OutermostStep(v: int, rects: seq<Rect>, r: Rect, e: Edge)
    requires Outermost(v, rects, e)
    ensures Outermost(Outer(e, v, At(r, e)), rects + [r], e)
  {
    assert forall q :: q in rects + [r] <==> q in rects || q == r;
    assert r in rects + [r];
  }

  /** Each edge of the box is the outermost of the corresponding edges. */
  lemma {:induction false} BoxIsOutermost(rects: seq<Rect>, e: Edge)
    ensures Outermost(At(BoundingBox(rects), e), rects, e)
  {
    if rects != [] {
      var front, r := rects[..|rects| - 1], rects[|rects| - 1];
      BoxIsOutermost(front, e);
      UnionEdge(BoundingBox(front), r, e);
      OutermostStep(At(BoundingBox(front), e), front, r, e);
      assert rects == front + [r];
    }
  }

  lemma OutermostIsUnique(v: int, w: int, rects: seq<Rect>, others: seq<Rect>, e: Edge)
    requires Outermost(v, rects, e) && Outermost(w, others, e)
    requires forall r :: r in rects <==> r in others
    ensures v == w
  {
  }

  /** The box depends on which rectangles there are, not on their order or their number. */
  lemma BoxOfSameRects(rects: seq<Rect>, others: seq<Rect>)
    requires forall r :: r in rects <==> r in others
    ensures BoundingBox(rects) == BoundingBox(others)
  {
    var a, b := BoundingBox(rects), BoundingBox(others);
    forall e ensures At(a, e) == At(b, e) {
      BoxIsOutermost(rects, e);
      BoxIsOutermost(others, e);
      OutermostIsUnique(At(a, e), At(b, e), rects, others, e);
    }
    assert At(a, Left) == At(b, Left) && At(a, Top) == At(b, Top);
    assert At(a, Right) == At(b, Right) && At(a, Bottom) == At(b, Bottom);
  }

  // ------------------------------------------------------------------------- scaling

  /** C's integer division. */
  function Quotient(a: int, b: int): int
    requires b > 0
  {
    if a >= 0 then a / b else -(-a / b)
  }

  /** `now` is `was` divided by `factor`, what is left of it cut off towards zero. */
  predicate Truncated(now: int, was: int, factor: int) {
    if was >= 0 then factor * now <= was < factor * (now + 1)
    else factor * (now - 1) < was <= factor * now
  }

  lemma QuotientIsTruncated(a: int, b: int)
    requires b > 0
    ensures Truncated(Quotient(a, b), a, b) && Quotient(a, 1) == a
  {
    if a >= 0 {
      assert a == b * (a / b) + a % b;
    } else {
      assert -a == b * (-a / b) + (-a) % b;
      assert b * (-(-a / b)) == -(b * (-a / b));
    }
  }

  /** And there is only one such number. */
  lemma TruncatedIsQuotient(now: int, a: int, b: int)
    requires b > 0 && Truncated(now, a, b)
    ensures now == Quotient(a, b)
  {
    QuotientIsTruncated(a, b);
    var q := Quotient(a, b);
    if now < q { Ordered(b, now + 1, q); Ordered(b, now, q - 1); }
    if q < now { Ordered(b, q + 1, now); Ordered(b, q, now - 1); }
  }

  lemma Ordered(b: int, m: int, n: int)
    requires b > 0 && m <= n
    ensures b * m <= b * n
  {
  }

  /** Each coordinate by itself. */
  predicate TruncatedEach(now: Rect, was: Rect, factor: int) {
    && Truncated(now.x, was.x, factor) && Truncated(now.y, was.y, factor)
    && Truncated(now.width, was.width, factor) && Truncated(now.height, was.height, factor)
    && (factor == 1 ==> now == was)
  }

  /** Scaling divides each coordinate by itself. */
  lemma ScaledIsTruncated(r: Rect, factor: int)
    requires factor > 0
    ensures TruncatedEach(Scaled(r, factor), r, factor)
  {
    QuotientIsTruncated(r.x, factor);
    QuotientIsTruncated(r.y, factor);
    QuotientIsTruncated(r.width, factor);
    QuotientIsTruncated(r.height, factor);
    hide Truncated, Quotient;
  }

  function Scaled(r: Rect, factor: int): Rect
    requires factor > 0
  {
    Rect(Quotient(r.x, factor), Quotient(r.y, factor), Quotient(r.width, factor), Quotient(r.height, factor))
  }

  function ScaledAll(rects: seq<Rect>, factor: int): (s: seq<Rect>)
    requires factor > 0
    ensures |s| == |rects| && forall i :: 0 <= i < |s| ==> s[i] == Scaled(rects[i], factor)
  {
    seq(|rects|, i requires 0 <= i < |rects| => Scaled(rects[i], factor))
  }

  lemma ScaledMembers(rects: seq<Rect>, others: seq<Rect>, factor: int)
    requires factor > 0 && forall r :: r in rects ==> r in others
    ensures forall r :: r in ScaledAll(rects, factor) ==> r in ScaledAll(others, factor)
  {
    forall r | r in ScaledAll(rects, factor) ensures r in ScaledAll(others, factor) {
      var i :| 0 <= i < |rects| && ScaledAll(rects, factor)[i] == r;
      assert rects[i] in others;
      var j :| 0 <= j < |others| && others[j] == rects[i];
      assert ScaledAll(others, factor)[j] == r;
    }
  }

  /** Main result: leaving out mirrors changes nothing about the size of the desktop, before or after scaling,
      in whatever order the monitors are reported. */
  lemma MirrorsDoNotMatter(infos: seq<MonitorInfo>, reordered: seq<MonitorInfo>, factor: int)
    requires factor > 0 && forall r :: Mirrors(infos, r) <==> Mirrors(reordered, r)
    ensures BoundingBox(ScaledAll(Rects(Filtered(infos)), factor)) == BoundingBox(ScaledAll(Rects(reordered), factor))
  {
    FilteredIsStable(infos);
    var rects, others := Rects(Filtered(infos)), Rects(reordered);
    RectsMembers(Filtered(infos));
    RectsMembers(reordered);
    ScaledMembers(rects, others, factor);
    ScaledMembers(others, rects, factor);
    BoxOfSameRects(ScaledAll(rects, factor), ScaledAll(others, factor));
  }

  lemma RectsMembers(infos: seq<MonitorInfo>)
    ensures forall r :: r in Rects(infos) <==> Mirrors(infos, r)
  {
    forall r | Mirrors(infos, r) ensures r in Rects(infos) {
      var j :| 0 <= j < |infos| && infos[j].rect == r;
      assert Rects(infos)[j] == r;
    }
  }

  // ------------------------------------------------------------------------- outputs

  /** A controller of the graphics card: the area it shows and its main output. */
  datatype Crtc = Crtc(area: Rect, output: int)

  /** Every controller hands its output to the first monitor with its area; a later one overwrites. */
  function Tagged(infos: seq<MonitorInfo>, crtcs: seq<Crtc>): (t: seq<MonitorInfo>)
    ensures |t| == |infos|
  {
    if crtcs == [] then infos
    else
      var t, c := Tagged(infos, crtcs[..|crtcs| - 1]), crtcs[|crtcs| - 1];
      seq(|infos|, i requires 0 <= i < |infos| =>
        if t[i].rect == c.area && !Mirrors(t[..i], c.area) then t[i].(output := c.output) else t[i])
  }

  /** The output the last controller with area `r` has, or `was` where there is none. */
  function OutputFor(crtcs: seq<Crtc>, r: Rect, was: int): int {
    if crtcs == [] then was
    else if crtcs[|crtcs| - 1].area == r then crtcs[|crtcs| - 1].output
    else OutputFor(crtcs[..|crtcs| - 1], r, was)
  }

  lemma {:induction false} TaggedMeans(infos: seq<MonitorInfo>, crtcs: seq<Crtc>, i: nat)
    requires i < |infos|
    ensures Tagged(infos, crtcs)[i] ==
      if Mirrors(infos[..i], infos[i].rect) then infos[i]
      else infos[i].(output := OutputFor(crtcs, infos[i].rect, infos[i].output))
  {
    if crtcs != [] {
      var front := crtcs[..|crtcs| - 1];
      var t := Tagged(infos, front);
      TaggedMeans(infos, front, i);
      forall j | 0 <= j < i ensures t[..i][j].rect == infos[..i][j].rect {
        TaggedMeans(infos, front, j);
      }
      SameMirrors(t[..i], infos[..i], infos[i].rect);
    }
  }

  lemma SameMirrors(a: seq<MonitorInfo>, b: seq<MonitorInfo>, r: Rect)
    requires |a| == |b| && forall j :: 0 <= j < |a| ==> a[j].rect == b[j].rect
    ensures Mirrors(a, r) <==> Mirrors(b, r)
  {
  }

  /** Main result: no output is lost with the mirrors that are left out.  Every monitor kept has the output
      of the last controller showing its area, and those left out never had one of their own. */
  lemma {:induction false} NoOutputIsLost(infos: seq<MonitorInfo>, crtcs: seq<Crtc>)
    ensures var f := Filtered(Tagged(infos, crtcs));
      && Rects(f) == Rects(Filtered(infos))
      && forall k :: 0 <= k < |f| ==>
           f[k].output == OutputFor(crtcs, f[k].rect, Filtered(infos)[k].output)
    ensures forall i :: 0 <= i < |infos| && Mirrors(infos[..i], infos[i].rect) ==>
      Tagged(infos, crtcs)[i] == infos[i]
  {
    hide FirstPositions, Filtered, OutputFor, Tagged, Mirrors;
    var t := Tagged(infos, crtcs);
    forall i | 0 <= i < |infos|
      ensures t[i].rect == infos[i].rect
      ensures Mirrors(infos[..i], infos[i].rect) ==> t[i] == infos[i]
    {
      TaggedMeans(infos, crtcs, i);
    }
    assert Rects(t) == Rects(infos);
    FilteredIsStable(t);
    FilteredIsStable(infos);
    forall k | 0 <= k < |FirstPositions(Rects(infos))|
      ensures Filtered(t)[k].output == OutputFor(crtcs, Filtered(t)[k].rect, Filtered(infos)[k].output)
    {
      TaggedFirst(infos, crtcs, k);
    }
  }

  lemma TaggedFirst(infos: seq<MonitorInfo>, crtcs: seq<Crtc>, k: nat)
    requires k < |FirstPositions(Rects(infos))|
    ensures var p := FirstPositions(Rects(infos))[k];
      Tagged(infos, crtcs)[p].output == OutputFor(crtcs, infos[p].rect, infos[p].output)
  {
    hide FirstPositions, Filtered, OutputFor, Tagged;
    PositionsAreFirst(Rects(infos));
    var p := FirstPositions(Rects(infos))[k];
    TaggedMeans(infos, crtcs, p);
    RectsMembers(infos[..p]);
    assert Rects(infos[..p]) == Rects(infos)[..p];
  }

  // ---------------------------------------------------------------------- the object

  /** What the screensaver is told: the reported monitors, or the whole screen where there is none. */
  function Reported(infos: seq<MonitorInfo>, screen: Rect): (r: seq<MonitorInfo>)
    ensures r != []
  {
    if infos == [] then [MonitorInfo(0, screen, 0, false)] else infos
  }

  function Prepared(infos: seq<MonitorInfo>, factor: int): (p: seq<MonitorInfo>)
    requires factor > 0
    ensures Rects(p) == ScaledAll(Rects(Filtered(infos)), factor)
  {
    var f := Filtered(infos);
    seq(|f|, i requires 0 <= i < |f| =>
      f[i].(rect := Scaled(f[i].rect, factor), primary := f[i].primary || i == 0))
  }

  /** What is made of the filtered monitors: each coordinate divided by itself, the first one primary, the rest kept. */
  predicate MadeFrom(now: seq<MonitorInfo>, was: seq<MonitorInfo>, factor: int) {
    && |now| == |was|
    && forall i :: 0 <= i < |now| ==>
         && TruncatedEach(now[i].rect, was[i].rect, factor)
         && now[i].number == was[i].number && now[i].output == was[i].output
         && now[i].primary == (was[i].primary || i == 0)
  }

  lemma PreparedIsMade(infos: seq<MonitorInfo>, factor: int)
    requires factor > 0
    ensures MadeFrom(Prepared(infos, factor), Filtered(infos), factor)
  {
    hide Filtered, Scaled, TruncatedEach;
    var f := Filtered(infos);
    forall i | 0 <= i < |f| ensures TruncatedEach(Scaled(f[i].rect, factor), f[i].rect, factor) {
      ScaledIsTruncated(f[i].rect, factor);
    }
  }

  /** Inside, with all four edges counted in. */
  predicate Touches(r: Rect, x: int, y: int) {
    r.x <= x <= r.x + r.width && r.y <= y <= r.y + r.height
  }

  class CsScreen {
    var monitor_infos: array<MonitorInfo>
    var n_monitor_infos: nat
    var rect: Rect

    ghost predicate Valid() reads this { n_monitor_infos <= monitor_infos.Length }

    ghost function Monitors(): seq<MonitorInfo>
      reads this, monitor_infos
      requires Valid()
    {
      monitor_infos[..n_monitor_infos]
    }

    constructor (width: int, height: int)
      ensures Valid() && fresh(monitor_infos) && Monitors() == [] && rect == Rect(0, 0, width, height)
    {
      monitor_infos, n_monitor_infos, rect := new MonitorInfo[0], 0, Rect(0, 0, width, height);
    }

    /** memmove over the monitor at `i`, and one fewer. */
    method Remove(i: nat)
      requires Valid() && i < n_monitor_infos
      modifies this`n_monitor_infos, monitor_infos
      ensures Valid() && Monitors() == old(Monitors()[..i] + Monitors()[i + 1..])
    {
      var a, n := monitor_infos, n_monitor_infos;
      forall k | i <= k < n - 1 { a[k] := a[k + 1]; }
      n_monitor_infos := n - 1;
    }

    /** Leaving mirrors out in place: removing takes a step back in both the count and the outer index while
        the inner loop goes on.  `rounds` counts the turns of the outer loop; each brings the end one closer. */
    method FilterMirroredMonitors() returns (ghost rounds: nat)
      requires Valid()
      modifies this`n_monitor_infos, monitor_infos
      ensures Valid() && Monitors() == Filtered(old(Monitors()))
      ensures rounds == if old(n_monitor_infos) == 0 then 0 else old(n_monitor_infos) - 1
    {
      hide Filtered, WithNext, SoFar;
      ghost var was := Monitors();
      var i := 1;
      rounds := 0;
      OneIsKept(was);
      while i < n_monitor_infos
        invariant Valid()
        invariant was == [] ==> rounds == 0 && n_monitor_infos == 0
        invariant was != [] ==> SoFar(was, rounds, i, Monitors())
        decreases n_monitor_infos - i
      {
        ghost var kept, last, rest := SplitHere(was, rounds, i, Monitors());
        i := FilterOne(i, kept, last, rest);
        i := i + 1;
        rounds := rounds + 1;
      }
      if was != [] { AllFiltered(was, rounds, i, Monitors()); }
    }

    /** One turn of the outer loop, up to the increment of its index. */
    method FilterOne(at: nat, ghost kept: seq<MonitorInfo>, ghost last: MonitorInfo, ghost rest: seq<MonitorInfo>)
      returns (i: nat)
      requires Valid() && 0 < at == |kept| && Monitors() == kept + [last] + rest
      requires AllDifferent(kept)
      modifies this`n_monitor_infos, monitor_infos
      ensures Valid() && i + 1 == |WithNext(kept, last)|
      ensures Monitors() == WithNext(kept, last) + rest
    {
      i := at;
      ghost var mine := last.(number := at);
      assert Monitors()[at] == last;
      monitor_infos[i] := monitor_infos[i].(number := i);
      assert Monitors() == kept + [mine] + rest;
      var j := 0;
      ghost var removed := false;
      while j < i
        invariant Valid()
        invariant 0 <= j <= i + 2
        invariant removed || j <= at
        invariant !removed ==> i == at && Monitors() == kept + [mine] + rest
        invariant !removed ==> forall k :: 0 <= k < j ==> kept[k].rect != last.rect
        invariant removed ==> i == at - 1 && Monitors() == kept + rest && Mirrors(kept, last.rect)
        decreases i - j
      {
        assert Monitors()[j] == kept[j];
        assert Monitors()[i] == if removed then kept[i] else mine;
        if monitor_infos[i].rect == monitor_infos[j].rect {
          Remove(i);
          i := i - 1;
          removed := true;
          assert Monitors() == kept + rest;
        }
        j := j + 1;
      }
    }

    method ApplyScaleFactor(factor: int)
      requires Valid() && factor > 0
      modifies monitor_infos
      ensures Rects(Monitors()) == ScaledAll(Rects(old(Monitors())), factor)
      ensures forall i :: 0 <= i < n_monitor_infos ==>
        Monitors()[i] == old(Monitors())[i].(rect := Scaled(old(Monitors())[i].rect, factor))
      ensures forall i :: 0 <= i < n_monitor_infos ==>
        TruncatedEach(Monitors()[i].rect, old(Monitors())[i].rect, factor)
    {
      var a := monitor_infos;
      for i := 0 to n_monitor_infos
        invariant forall k :: 0 <= k < i ==> a[k] == old(a[k]).(rect := Scaled(old(a[k]).rect, factor))
        invariant forall k :: i <= k < a.Length ==> a[k] == old(a[k])
      {
        a[i] := a[i].(rect := Scaled(a[i].rect, factor));
      }
      hide Scaled, TruncatedEach;
      forall i | 0 <= i < n_monitor_infos ensures TruncatedEach(a[i].rect, old(a[i]).rect, factor) {
        ScaledIsTruncated(old(a[i]).rect, factor);
      }
    }

    method IsFullChange() returns (same: bool)
      requires Valid()
      ensures same <==> BoundingBox(Rects(Monitors())) == rect
    {
      var total := Rect(0, 0, 0, 0);
      ghost var rects := Rects(Monitors());
      for i := 0 to n_monitor_infos
        invariant total == BoundingBox(rects[..i])
      {
        total := Union(monitor_infos[i].rect, total);
        assert rects[..i + 1][..i] == rects[..i];
      }
      assert rects[..n_monitor_infos] == rects;
      same := total == rect;
    }

    method FindMonitorWithRect(r: Rect) returns (found: int)
      requires Valid()
      ensures found == -1 ==> !Mirrors(Monitors(), r)
      ensures found != -1 ==> 0 <= found < n_monitor_infos && Monitors()[found].rect == r
                              && !Mirrors(Monitors()[..found], r)
    {
      for i := 0 to n_monitor_infos
        invariant forall k :: 0 <= k < i ==> monitor_infos[k].rect != r
      {
        if monitor_infos[i].rect == r { return i; }
      }
      return -1;
    }

    method TagOutputs(crtcs: seq<Crtc>)
      requires Valid()
      modifies monitor_infos
      ensures Monitors() == Tagged(old(Monitors()), crtcs)
    {
      for k := 0 to |crtcs|
        invariant Monitors() == Tagged(old(Monitors()), crtcs[..k])
      {
        ghost var t := Monitors();
        var found := FindMonitorWithRect(crtcs[k].area);
        assert crtcs[..k + 1][..k] == crtcs[..k];
        if found != -1 {
          monitor_infos[found] := monitor_infos[found].(output := crtcs[k].output);
          OnlyFirst(t, found, crtcs[k].area);
        }
      }
      assert crtcs[..|crtcs|] == crtcs;
    }

    /** From the report to the monitors in use; a screen without any monitor counts as one. */
    method ReloadMonitorInfos(infos: seq<MonitorInfo>, crtcs: seq<Crtc>, factor: int)
      requires Valid() && factor > 0
      modifies this`monitor_infos, this`n_monitor_infos
      ensures Valid() && fresh(monitor_infos) && n_monitor_infos > 0
      ensures Monitors() == Prepared(Reported(Tagged(infos, crtcs), rect), factor)
      ensures MadeFrom(Monitors(), Filtered(Reported(Tagged(infos, crtcs), rect)), factor)
    {
      PreparedIsMade(Reported(Tagged(infos, crtcs), rect), factor);
      hide Tagged, Filtered, Scaled, TruncatedEach;
      monitor_infos := new MonitorInfo[|infos|](i requires 0 <= i < |infos| => infos[i]);
      n_monitor_infos := |infos|;
      assert Monitors() == infos;
      TagOutputs(crtcs);
      if n_monitor_infos == 0 {
        var screen := rect;
        monitor_infos := new MonitorInfo[1](_ => MonitorInfo(0, screen, 0, false));
        n_monitor_infos := 1;
      }
      assert Monitors() == Reported(Tagged(infos, crtcs), rect);
      ghost var rounds := FilterMirroredMonitors();
      monitor_infos[0] := monitor_infos[0].(primary := true);
      ApplyScaleFactor(factor);
      assert Monitors() == Prepared(Reported(Tagged(infos, crtcs), rect), factor);
    }

    /** A change is announced exactly when the monitors that were reported, mirrors and all, make up the whole
        screen.  Where none is reported, the screen as it was before the change stands in. */
    method ScreenChanged(infos: seq<MonitorInfo>, crtcs: seq<Crtc>, factor: int, width: int, height: int)
      returns (announced: bool)
      requires Valid() && factor > 0
      modifies this
      ensures Valid() && rect == Rect(0, 0, width, height)
      ensures announced <==>
        BoundingBox(ScaledAll(Rects(Reported(infos, old(rect))), factor)) == Rect(0, 0, width, height)
      ensures infos != [] ==> (announced <==>
        BoundingBox(ScaledAll(Rects(infos), factor)) == Rect(0, 0, width, height))
      ensures infos == [] ==> (announced <==>
        BoundingBox([Scaled(old(rect), factor)]) == Rect(0, 0, width, height))
      ensures infos != [] ==> MadeFrom(Monitors(), Filtered(Tagged(infos, crtcs)), factor)
      ensures Monitors() == Prepared(Reported(Tagged(infos, crtcs), old(rect)), factor)
    {
      ReloadMonitorInfos(infos, crtcs, factor);
      rect := Rect(0, 0, width, height);
      announced := IsFullChange();
      ghost var reported := Reported(Tagged(infos, crtcs), old(rect));
      MirrorsDoNotMatter(reported, reported, factor);
      NoOutputIsLost(infos, crtcs);
      TaggedRects(infos, crtcs);
      assert Rects(reported) == Rects(Reported(infos, old(rect)));
      assert infos == [] ==> ScaledAll(Rects(reported), factor) == [Scaled(old(rect), factor)];
    }

    /** The first monitor the pointer touches, or the first of all. */
    method GetMouseMonitor(root_x: int, root_y: int, factor: int) returns (ret: nat)
      requires Valid() && factor > 0
      ensures ret < n_monitor_infos || ret == 0
      ensures forall x, y :: Truncated(x, root_x, factor) && Truncated(y, root_y, factor) ==>
        var ms := Monitors();
        && (forall k :: 0 <= k < ret ==>
              var r := ms[k].rect; !(r.x <= x <= r.x + r.width && r.y <= y <= r.y + r.height))
        && (|| (ret < |ms| && var r := ms[ret].rect; r.x <= x <= r.x + r.width && r.y <= y <= r.y + r.height)
            || (ret == 0 && forall k :: 0 <= k < |ms| ==>
                  var r := ms[k].rect; !(r.x <= x <= r.x + r.width && r.y <= y <= r.y + r.height)))
    {
      hide Truncated, Quotient;
      var x, y := Quotient(root_x, factor), Quotient(root_y, factor);
      forall u, v | Truncated(u, root_x, factor) && Truncated(v, root_y, factor) ensures u == x && v == y {
        TruncatedIsQuotient(u, root_x, factor);
        TruncatedIsQuotient(v, root_y, factor);
      }
      for i := 0 to n_monitor_infos
        invariant forall k :: 0 <= k < i ==> !Touches(monitor_infos[k].rect, x, y)
      {
        if Touches(monitor_infos[i].rect, x, y) { return i; }
      }
      return 0;
    }
  }

  lemma OnlyFirst(infos: seq<MonitorInfo>, found: nat, r: Rect)
    requires found < |infos| && infos[found].rect == r && !Mirrors(infos[..found], r)
    ensures forall i :: 0 <= i < |infos| ==> (infos[i].rect == r && !Mirrors(infos[..i], r) <==> i == found)
  {
    forall i | 0 <= i < found ensures infos[i].rect != r {
      assert infos[..found][i] == infos[i];
    }
    forall i | found < i < |infos| ensures Mirrors(infos[..i], r) {
      assert infos[..i][found] == infos[found];
    }
  }

  lemma TaggedRects(infos: seq<MonitorInfo>, crtcs: seq<Crtc>)
    ensures Rects(Tagged(infos, crtcs)) == Rects(infos)
  {
    forall i | 0 <= i < |infos| ensures Tagged(infos, crtcs)[i].rect == infos[i].rect {
      TaggedMeans(infos, crtcs, i);
    }
  }

  lemma BareBox(width: nat, height: nat, factor: int)
    requires factor > 0
    ensures BoundingBox(ScaledAll(Rects(Reported([], Rect(0, 0, width, height))), factor))
      == Rect(0, 0, width / factor, height / factor)
  {
    var all := ScaledAll(Rects(Reported([], Rect(0, 0, width, height))), factor);
    assert all == [Rect(0, 0, width / factor, height / factor)];
    assert all[..0] == [];
    assert width / factor >= 0 && height / factor >= 0;
    assert BoundingBox([]) == Rect(0, 0, 0, 0);
  }

  /** With no monitor reported, a screen that starts at the origin is compared with its own former size: at
      scale 1 a change of size is then never announced, and only a change that keeps the size is. */
  lemma BareScreen(width: nat, height: nat, factor: int)
    requires factor > 0
    ensures BoundingBox(ScaledAll(Rects(Reported([], Rect(0, 0, width, height))), factor))
      == Rect(0, 0, width / factor, height / factor)
    ensures BoundingBox(ScaledAll(Rects(Reported([], Rect(0, 0, width, height))), 1)) == Rect(0, 0, width, height)
  {
    BareBox(width, height, factor);
    BareBox(width, height, 1);
  }
}
