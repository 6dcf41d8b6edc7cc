/**
 The stage's layout of its floaters and the unlock dialog.

 Lengths are real numbers: the layout divides before it subtracts, and rounding is not modelled.
 */
module StageLayout {

  import opened Floating

  // ----------------------------------------------------------------------------- geometry

  datatype Rect = Rect(x: real, y: real, width: real, height: real)

  datatype Size = Size(width: real, height: real)

  predicate Inside(a: Rect, b: Rect) {
    && b.x <= a.x && a.x + a.width <= b.x + b.width
    && b.y <= a.y && a.y + a.height <= b.y + b.height
  }

  /** No point of one is inside the other. */
  predicate Apart(a: Rect, b: Rect) {
    || a.x + a.width <= b.x || b.x + b.width <= a.x
    || a.y + a.height <= b.y || b.y + b.height <= a.y
  }

  predicate Proper(r: Rect) { r.width >= 0.0 && r.height >= 0.0 }

  function MinReal(a: real, b: real): real { if a <= b then a else b }

  /** Which third of a monitor an alignment stands for. */
  function Third(a: Align): real {
    match a
    case Start => 0.0
    case Center => 1.0
    case End => 2.0
  }

  /** The ninth of the monitor `m` that the alignments of `p` stand for. */
  function Cell(m: Rect, h: Align, v: Align): Rect {
    Rect(m.x + Third(h) * (m.width / 3.0), m.y + Third(v) * (m.height / 3.0), m.width / 3.0, m.height / 3.0)
  }

  /** Placing something along one axis, in the unit the region leaves for it. */
  function Along(a: Align, origin: real, extent: real, region: real, size: real): real {
    match a
    case Start => origin + (region - size) / 2.0
    case Center => origin + extent / 2.0 - size / 2.0
    case End => origin + extent - size - (region - size) / 2.0
  }

  function Allocation(m: Rect, h: Align, v: Align, region_w: real, region_h: real, natural: Size): Rect {
    var width, height := MinReal(natural.width, region_w), MinReal(natural.height, region_h);
    Rect(Along(h, m.x, m.width, region_w, width), Along(v, m.y, m.height, region_h, height), width, height)
  }

  /** The width left for a floater while awake, next to a dialog of width `dialog`. */
  function AwakeRegion(m: Rect, dialog: real): real {
    if dialog > m.width / 3.0 then (m.width - dialog) / 2.0 else m.width / 3.0
  }

  function DialogAllocation(m: Rect, dialog: Size): Rect {
    Rect(m.x + m.width / 2.0 - dialog.width / 2.0, m.y + m.height / 2.0 - dialog.height / 2.0,
      dialog.width, dialog.height)
  }

  /** Where a floater goes: `dialog` is the width of the unlock dialog and counts only while awake. */
  function Place(f: Float, monitors: seq<Rect>, awake: bool, dialog: real, natural: Size): Rect
    requires 0 <= f.shown.monitor < |monitors|
  {
    var m := monitors[f.shown.monitor];
    Allocation(m, f.shown.halign, f.shown.valign,
      if awake then AwakeRegion(m, dialog) else m.width / 3.0, m.height / 3.0, natural)
  }

  /** As long as it likes to be, within the room there is. */
  predicate Sized(size: real, natural: real, room: real) {
    (natural <= room ==> size == natural) && (natural > room ==> size == room)
  }

  /** In the middle of the room at the start, in the middle or at the end of an extent.  All lengths are doubled. */
  predicate Centred(a: Align, offset: real, size: real, extent: real, room: real) {
    2.0 * offset + size ==
      match a
      case Start => room
      case Center => extent
      case End => 2.0 * extent - room
  }

  /** What a floater gets: its natural size, within a third of the monitor, or while awake within the room beside the
      dialog, and the middle of that room. */
  predicate Suits(r: Rect, m: Rect, p: Position, awake: bool, dialog: real, natural: Size) {
    var room := if awake && 3.0 * dialog > m.width then (m.width - dialog) / 2.0 else m.width / 3.0;
    && Sized(r.width, natural.width, room) && Sized(r.height, natural.height, m.height / 3.0)
    && Centred(p.halign, r.x - m.x, r.width, m.width, room)
    && Centred(p.valign, r.y - m.y, r.height, m.height, m.height / 3.0)
  }

  /** Main result: the place of a floater suits it. */
  lemma PlaceSuits(f: Float, monitors: seq<Rect>, awake: bool, dialog: real, natural: Size)
    requires 0 <= f.shown.monitor < |monitors|
    ensures var r := Place(f, monitors, awake, dialog, natural);
      Suits(r, monitors[f.shown.monitor], f.shown, awake, dialog, natural)
  {
  }

  /** The dialog has its natural size and the middle of its monitor. */
  lemma DialogIsCentred(m: Rect, dialog: Size)
    ensures var d := DialogAllocation(m, dialog);
      && d.width == dialog.width && d.height == dialog.height
      && 2.0 * d.x + d.width == 2.0 * m.x + m.width && 2.0 * d.y + d.height == 2.0 * m.y + m.height
  {
  }

  lemma AlongInThird(a: Align, origin: real, extent: real, size: real)
    requires size <= extent / 3.0
    ensures var x := Along(a, origin, extent, extent / 3.0, size);
      origin + Third(a) * (extent / 3.0) <= x && x + size <= origin + Third(a) * (extent / 3.0) + extent / 3.0
  {
  }

  /** While asleep a floater stays within its ninth of the monitor, which is part of the monitor. */
  lemma AllocationInCell(m: Rect, h: Align, v: Align, natural: Size)
    requires Proper(m)
    ensures var a := Allocation(m, h, v, m.width / 3.0, m.height / 3.0, natural);
      Inside(a, Cell(m, h, v)) && (natural.width >= 0.0 && natural.height >= 0.0 ==> Proper(a))
    ensures Inside(Cell(m, h, v), m)
  {
    AlongInThird(h, m.x, m.width, MinReal(natural.width, m.width / 3.0));
    AlongInThird(v, m.y, m.height, MinReal(natural.height, m.height / 3.0));
  }

  lemma CellsOfOneMonitor(m: Rect, h: Align, v: Align, h': Align, v': Align)
    requires Proper(m) && (h != h' || v != v')
    ensures Apart(Cell(m, h, v), Cell(m, h', v'))
  {
  }

  lemma InsideKeepsApart(a: Rect, b: Rect, outer_a: Rect, outer_b: Rect)
    requires Inside(a, outer_a) && Inside(b, outer_b) && Apart(outer_a, outer_b)
    ensures Apart(a, b)
  {
  }

  ghost predicate MonitorsApart(monitors: seq<Rect>) {
    && (forall i :: 0 <= i < |monitors| ==> Proper(monitors[i]))
    && (forall i, j :: 0 <= i < j < |monitors| ==> Apart(monitors[i], monitors[j]))
  }

  /** The cell a floater shows itself in. */
  function CellOf(f: Float, monitors: seq<Rect>): Rect
    requires 0 <= f.shown.monitor < |monitors|
  {
    Cell(monitors[f.shown.monitor], f.shown.halign, f.shown.valign)
  }

  lemma PlacedInCell(f: Float, monitors: seq<Rect>, dialog: real, natural: Size)
    requires 0 <= f.shown.monitor < |monitors| && Proper(monitors[f.shown.monitor])
    ensures var a := Place(f, monitors, false, dialog, natural);
      Inside(a, CellOf(f, monitors)) && Inside(a, monitors[f.shown.monitor])
    ensures Inside(CellOf(f, monitors), monitors[f.shown.monitor])
  {
    AllocationInCell(monitors[f.shown.monitor], f.shown.halign, f.shown.valign, natural);
  }

  lemma CellsApart(f: Float, g: Float, monitors: seq<Rect>)
    requires MonitorsApart(monitors) && f.shown != g.shown
    requires 0 <= f.shown.monitor < |monitors| && 0 <= g.shown.monitor < |monitors|
    ensures Apart(CellOf(f, monitors), CellOf(g, monitors))
  {
    var p, q := f.shown, g.shown;
    var m, n := monitors[p.monitor], monitors[q.monitor];
    if p.monitor == q.monitor {
      CellsOfOneMonitor(m, p.halign, p.valign, q.halign, q.valign);
    } else {
      PlacedInCell(f, monitors, 0.0, Size(0.0, 0.0));
      PlacedInCell(g, monitors, 0.0, Size(0.0, 0.0));
      hide CellOf, Place;
      assert Apart(m, n);
      InsideKeepsApart(CellOf(f, monitors), CellOf(g, monitors), m, n);
    }
  }

  /** Main result: floaters in different cells never overlap while asleep, and stay inside their monitors,
      however big they would like to be. */
  lemma AsleepNeverOverlaps(f: Float, g: Float, monitors: seq<Rect>, dialog: real, size_f: Size, size_g: Size)
    requires MonitorsApart(monitors) && f.shown != g.shown
    requires 0 <= f.shown.monitor < |monitors| && 0 <= g.shown.monitor < |monitors|
    ensures var a, b := Place(f, monitors, false, dialog, size_f), Place(g, monitors, false, dialog, size_g);
      && Apart(a, b)
      && Inside(a, monitors[f.shown.monitor]) && Inside(b, monitors[g.shown.monitor])
  {
    hide CellOf, Place, Inside, Apart;
    PlacedInCell(f, monitors, dialog, size_f);
    PlacedInCell(g, monitors, dialog, size_g);
    CellsApart(f, g, monitors);
    InsideKeepsApart(Place(f, monitors, false, dialog, size_f), Place(g, monitors, false, dialog, size_g),
      CellOf(f, monitors), CellOf(g, monitors));
  }

  /** Main result: while awake, with the clock at the start and the album art at the end, neither overlaps the
      dialog or the other and both are proper parts of the monitor, exactly when the dialog is no wider than
      the monitor.  With a wider dialog the widths turn negative. */
  lemma AwakeNeverCollides(m: Rect, v: Align, w: Align, dialog: Size, clock: Size, album: Size)
    requires m.width > 0.0 && m.height > 0.0
    requires clock.width >= 0.0 && clock.height >= 0.0 && album.width >= 0.0 && album.height >= 0.0
    requires dialog.width >= 0.0
    ensures var region := AwakeRegion(m, dialog.width);
      var c := Allocation(m, Start, v, region, m.height / 3.0, clock);
      var a := Allocation(m, End, w, region, m.height / 3.0, album);
      var d := DialogAllocation(m, dialog);
      dialog.width <= m.width <==>
        && Proper(c) && Inside(c, m) && Proper(a) && Inside(a, m)
        && Apart(c, a) && c.x + c.width <= d.x && d.x + d.width <= a.x
        && m.x <= d.x && d.x + d.width <= m.x + m.width
  {
    var region := AwakeRegion(m, dialog.width);
    AlongInThird(v, m.y, m.height, MinReal(clock.height, m.height / 3.0));
    AlongInThird(w, m.y, m.height, MinReal(album.height, m.height / 3.0));
    assert dialog.width <= m.width ==> region <= (m.width - dialog.width) / 2.0;
    assert dialog.width > m.width ==> region < 0.0;
  }

  // ---------------------------------------------------------------------------------- cells

  const ALIGNMENTS: seq<Align> := [Start, End, Center]

  /** The nine positions on one monitor, in the order they are listed. */
  function Nine(i: int): (s: seq<Position>)
    ensures |s| == 9
    ensures forall h, v :: 0 <= h < 3 && 0 <= v < 3 ==> s[3 * h + v] == Position(i, ALIGNMENTS[h], ALIGNMENTS[v])
  {
    [Position(i, Start, Start), Position(i, Start, End), Position(i, Start, Center),
     Position(i, End, Start), Position(i, End, End), Position(i, End, Center),
     Position(i, Center, Start), Position(i, Center, End), Position(i, Center, Center)]
  }

  function Cells(n: nat): (s: seq<Position>)
    ensures |s| == 9 * n
  {
    if n == 0 then [] else Cells(n - 1) + Nine(n - 1)
  }

  ghost predicate Different(s: seq<Position>) { forall i, j :: 0 <= i < j < |s| ==> s[i] != s[j] }

  ghost predicate OnMonitors(s: seq<Position>, n: nat) { forall i :: 0 <= i < |s| ==> 0 <= s[i].monitor < n }

  lemma {:induction false} CellsAreDifferent(n: nat)
    ensures Different(Cells(n)) && OnMonitors(Cells(n), n)
  {
    if n > 0 {
      CellsAreDifferent(n - 1);
      var s, t := Cells(n - 1), Nine(n - 1);
      forall i | 0 <= i < 9 ensures t[i].monitor == n - 1 {}
      assert Different(t);
    }
  }

  /** Taking out place `r` leaves different positions, none of them the one taken. */
  lemma PopKeepsDifferent(s: seq<Position>, r: nat)
    requires Different(s) && r < |s|
    ensures Different(s[..r] + s[r + 1..]) && s[r] !in s[..r] + s[r + 1..]
  {
  }

  // ---------------------------------------------------------------------- floaters as values

  ghost predicate DifferentShown(fs: seq<Float>) {
    forall i, j :: 0 <= i < j < |fs| ==> fs[i].shown != fs[j].shown
  }

  ghost predicate DifferentNext(fs: seq<Float>) {
    forall i, j :: 0 <= i < j < |fs| ==> fs[i].next != fs[j].next
  }

  ghost predicate DifferentAwake(fs: seq<Float>) {
    forall i, j :: 0 <= i < j < |fs| ==>
      fs[i].awake.halign != fs[j].awake.halign || fs[i].awake.valign != fs[j].awake.valign
  }

  /** What every full layout pass keeps. */
  ghost predicate Spread(fs: seq<Float>, n: nat) {
    && DifferentAwake(fs) && DifferentNext(fs) && DifferentShown(fs)
    && forall i :: 0 <= i < |fs| ==> 0 <= fs[i].next.monitor < n && 0 <= fs[i].shown.monitor < n
  }

  /** One floater in a layout pass: with floating allowed its next position applies; awake, its awake one does. */
  function Positioned(f: Float, floating: bool, awake: bool, mouse: int): Float {
    var a := if floating then Applied(f) else f;
    if awake then Applied(AwakeSet(a, mouse)) else a
  }

  /** The next positions a pass starts from: new ones on different cells, or those that were there. */
  ghost predicate Plan(plan: seq<Position>, fs: seq<Float>, drawn: bool, n: nat) {
    && |plan| == |fs|
    && (drawn ==> Different(plan) && OnMonitors(plan, n))
    && (!drawn ==> forall k :: 0 <= k < |fs| ==> plan[k] == fs[k].next)
  }

  /** Main result: a full pass keeps the floaters spread, asleep or awake, whatever was drawn, whether
      floating is allowed or not, and even when the mouse changes monitors during the pass. */
  lemma PassKeepsSpread(fs: seq<Float>, gs: seq<Float>, plan: seq<Position>, drawn: bool, floating: bool,
                        awake: bool, mouse: seq<nat>, n: nat)
    requires Spread(fs, n) && Plan(plan, fs, drawn, n) && |mouse| == |fs| == |gs|
    requires forall k :: 0 <= k < |mouse| ==> mouse[k] < n
    requires forall k :: 0 <= k < |fs| ==> gs[k] == Positioned(fs[k].(next := plan[k]), floating, awake, mouse[k])
    ensures Spread(gs, n)
  {
    forall i, j | 0 <= i < j < |gs|
      ensures gs[i].next != gs[j].next && gs[i].shown != gs[j].shown
      ensures gs[i].awake.halign != gs[j].awake.halign || gs[i].awake.valign != gs[j].awake.valign
    {
      assert plan[i] != plan[j];
    }
  }

  lemma PlanInRange(plan: seq<Position>, fs: seq<Float>, drawn: bool, n: nat, c: nat)
    requires Plan(plan, fs, drawn, n) && c < |fs| && 0 <= fs[c].next.monitor < n
    ensures |plan| == |fs| && 0 <= plan[c].monitor < n
  {
  }

  lemma PlaceIs(f: Float, monitors: seq<Rect>, awake: bool, dialog: real, natural: Size)
    requires 0 <= f.shown.monitor < |monitors|
    ensures var m := monitors[f.shown.monitor];
      Place(f, monitors, awake, dialog, natural) == Allocation(m, f.shown.halign, f.shown.valign,
        if awake && dialog > m.width / 3.0 then (m.width - dialog) / 2.0 else m.width / 3.0,
        m.height / 3.0, natural)
  {
  }

  /** A floater after its part of a pass that gave it the next position `p`. */
  function Moved(f: Float, p: Position, floating: bool, awake: bool, mouse: int): Float {
    Positioned(NextSet(f, p), floating, awake, mouse)
  }

  ghost predicate InsideSome(r: Rect, monitors: seq<Rect>) {
    exists m :: 0 <= m < |monitors| && Inside(r, monitors[m])
  }

  /** No two overlap, and each is inside some monitor. */
  ghost predicate Tidy(allocations: seq<Rect>, monitors: seq<Rect>) {
    && (forall i, j :: 0 <= i < j < |allocations| ==> Apart(allocations[i], allocations[j]))
    && (forall i :: 0 <= i < |allocations| ==> InsideSome(allocations[i], monitors))
  }

  /** The first `i` floaters have the next positions `plan`. */
  ghost predicate AllNextSet(was: seq<Float>, now: seq<Float>, plan: seq<Position>, i: nat) {
    && |was| == |now| && |plan| == i <= |was|
    && (forall k :: 0 <= k < i ==> now[k] == NextSet(was[k], plan[k]))
    && (forall k :: i <= k < |was| ==> now[k] == was[k])
  }

  /** Only floater `c` has taken its position. */
  ghost predicate OnlyMoved(was: seq<Float>, now: seq<Float>, c: nat, floating: bool, awake: bool, mouse: nat) {
    && |was| == |now| && c < |was|
    && now[c] == Positioned(was[c], floating, awake, mouse)
    && (forall k :: 0 <= k < |was| && k != c ==> now[k] == was[k])
  }

  lemma MovedFromPlan(was: seq<Float>, mid: seq<Float>, now: seq<Float>, plan: seq<Position>, c: nat, floating: bool,
                      awake: bool, mouse: nat)
    requires AllNextSet(was, mid, plan, |was|) && OnlyMoved(mid, now, c, floating, awake, mouse)
    ensures OneMoved(was, now, plan, c, floating, awake, mouse)
    ensures now[c].shown == if awake then mid[c].awake.(monitor := mouse)
                            else if floating then mid[c].next else mid[c].shown
  {
  }

  /** What has been drawn and what is left are different cells of the monitors. */
  ghost predicate Drawing(plan: seq<Position>, positions: seq<Position>, n: nat) {
    && Different(plan) && OnMonitors(plan, n) && Different(positions) && OnMonitors(positions, n)
    && forall k :: 0 <= k < |plan| ==> plan[k] !in positions
  }

  lemma DrawingStarts(n: nat)
    ensures Drawing([], Cells(n), n)
  {
    CellsAreDifferent(n);
  }

  lemma DrawingGoesOn(plan: seq<Position>, positions: seq<Position>, r: nat, n: nat)
    requires Drawing(plan, positions, n) && r < |positions|
    ensures Drawing(plan + [positions[r]], positions[..r] + positions[r + 1..], n)
  {
    PopKeepsDifferent(positions, r);
  }

  lemma DrawingEnds(plan: seq<Position>, positions: seq<Position>, n: nat)
    requires Drawing(plan, positions, n)
    ensures Different(plan) && OnMonitors(plan, n)
  {
  }

  /** One child of a pass has its turn; `plan` holds the next positions it found. */
  ghost predicate OneMoved(was: seq<Float>, now: seq<Float>, plan: seq<Position>, c: nat, floating: bool, awake: bool,
                           mouse: nat)
  {
    && |was| == |now| == |plan| && c < |was|
    && (forall k :: 0 <= k < |was| && k != c ==> now[k] == NextSet(was[k], plan[k]))
    && now[c] == Moved(was[c], plan[c], floating, awake, mouse)
  }

  /** The first `i` children have had their turn. */
  ghost predicate Halfway(was: seq<Float>, now: seq<Float>, plan: seq<Position>, i: nat, floating: bool, awake: bool,
                          mouse: seq<nat>)
  {
    && |was| == |now| == |plan| == |mouse| && i <= |was|
    && (forall k :: 0 <= k < i ==> now[k] == Moved(was[k], plan[k], floating, awake, mouse[k]))
    && (forall k :: i <= k < |was| ==> now[k] == NextSet(was[k], plan[k]))
  }

  ghost predicate Placed(allocations: seq<Rect>, fs: seq<Float>, monitors: seq<Rect>, awake: bool, dialog: real,
                         naturals: seq<Size>)
  {
    && |allocations| == |fs| == |naturals|
    && (forall k :: 0 <= k < |fs| ==> 0 <= fs[k].shown.monitor < |monitors|)
    && (forall k :: 0 <= k < |fs| ==> allocations[k] == Place(fs[k], monitors, awake, dialog, naturals[k]))
  }

  /** Every floater's allocation suits it. */
  ghost predicate AllSuit(allocations: seq<Rect>, fs: seq<Float>, monitors: seq<Rect>, awake: bool, dialog: real,
                          naturals: seq<Size>)
  {
    && |allocations| == |fs| == |naturals|
    && (forall k :: 0 <= k < |fs| ==> 0 <= fs[k].shown.monitor < |monitors|)
    && (forall k :: 0 <= k < |fs| ==>
          Suits(allocations[k], monitors[fs[k].shown.monitor], fs[k].shown, awake, dialog, naturals[k]))
  }

  lemma PlacedSuit(allocations: seq<Rect>, fs: seq<Float>, monitors: seq<Rect>, awake: bool, dialog: real,
                   naturals: seq<Size>)
    requires Placed(allocations, fs, monitors, awake, dialog, naturals)
    ensures AllSuit(allocations, fs, monitors, awake, dialog, naturals)
  {
    hide Suits, Place;
    forall k | 0 <= k < |fs|
      ensures Suits(allocations[k], monitors[fs[k].shown.monitor], fs[k].shown, awake, dialog, naturals[k])
    {
      PlaceSuits(fs[k], monitors, awake, dialog, naturals[k]);
    }
  }

  /** Which position a pass shows: awake the one that comes next too; asleep the next one if floating is allowed,
      which stays what it was unless it was drawn; and else nothing changes. */
  ghost predicate ShowsNext(was: seq<Float>, now: seq<Float>, floating: bool, awake: bool, drawn: bool) {
    && |was| == |now|
    && (floating || awake ==> forall k :: 0 <= k < |now| ==> now[k].shown == now[k].next)
    && (!awake && !drawn ==> forall k :: 0 <= k < |now| ==> now[k].next == was[k].next)
    && (!awake && !floating ==> forall k :: 0 <= k < |now| ==> now[k].shown == was[k].shown)
    && (!awake ==> forall k :: 0 <= k < |now| ==> now[k].awake == was[k].awake)
  }

  ghost predicate SameHomes(was: seq<Float>, now: seq<Float>) {
    |was| == |now| && forall k :: 0 <= k < |was| ==>
      now[k].awake.halign == was[k].awake.halign && now[k].awake.valign == was[k].awake.valign
  }

  /** Nothing was drawn yet: all floaters are, and will be, where their awake alignments say. */
  ghost predicate AllHome(fs: seq<Float>) {
    forall k :: 0 <= k < |fs| ==>
      && fs[k].next.halign == fs[k].shown.halign == fs[k].awake.halign
      && fs[k].next.valign == fs[k].shown.valign == fs[k].awake.valign
  }

  /** A floater that is created at `p` can join those there are. */
  ghost predicate RoomFor(fs: seq<Float>, p: Position) {
    forall k :: 0 <= k < |fs| ==>
      && fs[k].next != p && fs[k].shown != p
      && (fs[k].awake.halign != p.halign || fs[k].awake.valign != p.valign)
  }

  /** The exact condition under which a floater that joins later overlaps nobody. */
  lemma JoinKeepsSpread(fs: seq<Float>, p: Position, n: nat)
    requires Spread(fs, n) && 0 <= p.monitor < n
    ensures Spread(fs + [Created(p)], n) <==> RoomFor(fs, p)
  {
    var gs, m := fs + [Created(p)], |fs|;
    assert forall k :: 0 <= k < m ==> gs[k] == fs[k];
    assert gs[m] == Created(p);
    if Spread(gs, n) {
      forall k | 0 <= k < m
        ensures fs[k].next != p && fs[k].shown != p
        ensures fs[k].awake.halign != p.halign || fs[k].awake.valign != p.valign
      {
        assert gs[k].next != gs[m].next && gs[k].shown != gs[m].shown;
      }
    }
  }

  /** As long as nothing was drawn there is room for the album art beside the clock. */
  lemma HomeHasRoom(fs: seq<Float>, p: Position)
    requires AllHome(fs)
    requires forall k :: 0 <= k < |fs| ==> fs[k].awake.halign != p.halign
    ensures RoomFor(fs, p)
  {
  }

  /** After a draw there need not be: the clock may have drawn the place where the album art appears. */
  lemma DrawnMayCollide(m: nat, n: nat)
    requires m < n
    ensures var p := Position(m, End, Center);
      var clock := Float(Position(m, Start, Center), p, p);
      Spread([clock], n) && !Spread([clock] + [Created(p)], n)
  {
    var p := Position(m, End, Center);
    var clock := Float(Position(m, Start, Center), p, p);
    JoinKeepsSpread([clock], p, n);
    assert !RoomFor([clock], p) by { assert [clock][0].next == p; }
  }

  ghost predicate AtHome(was: seq<Float>, now: seq<Float>, mouse: seq<nat>) {
    |was| == |now| == |mouse| && forall k :: 0 <= k < |was| ==> now[k].shown == was[k].awake.(monitor := mouse[k])
  }

  lemma HalfwayStarts(was: seq<Float>, floating: bool, awake: bool, mouse: seq<nat>, n: nat)
    returns (plan: seq<Position>)
    requires |mouse| == |was|
    ensures Plan(plan, was, false, n) && Halfway(was, was, plan, 0, floating, awake, mouse)
  {
    plan := seq(|was|, k requires 0 <= k < |was| => was[k].next);
  }

  lemma HalfwayInRange(was: seq<Float>, now: seq<Float>, plan: seq<Position>, drawn: bool, i: nat, floating: bool,
                       awake: bool, mouse: seq<nat>, n: nat)
    requires Halfway(was, now, plan, i, floating, awake, mouse) && Plan(plan, was, drawn, n) && Spread(was, n)
    requires i < |was|
    ensures |now| == |was| && 0 <= now[i].next.monitor < n && 0 <= now[i].shown.monitor < n
  {
  }

  lemma HalfwayStep(was: seq<Float>, now: seq<Float>, next: seq<Float>, plan: seq<Position>, p: seq<Position>,
                    due: bool, i: nat, floating: bool, awake: bool, mouse: seq<nat>, n: nat)
    returns (plan': seq<Position>)
    requires Halfway(was, now, plan, i, floating, awake, mouse) && i < |was|
    requires Plan(plan, was, due && i > 0, n) && Plan(p, now, due && i == 0, n)
    requires OneMoved(now, next, p, i, floating, awake, mouse[i])
    ensures Plan(plan', was, due, n) && Halfway(was, next, plan', i + 1, floating, awake, mouse)
    ensures i > 0 ==> next[..i] == now[..i]
  {
    plan' := if i == 0 then p else plan;
  }

  lemma NothingPlaced(monitors: seq<Rect>, awake: bool, dialog: real)
    ensures Placed([], [], monitors, awake, dialog, [])
  {
  }

  lemma PlacedStep(allocations: seq<Rect>, now: seq<Float>, next: seq<Float>, p: seq<Position>, monitors: seq<Rect>,
                   i: nat, floating: bool, awake: bool, mouse: seq<nat>, dialog: real, naturals: seq<Size>)
    requires |now| == |next| == |naturals| && i < |now|
    requires Placed(allocations, now[..i], monitors, awake, dialog, naturals[..i])
    requires i > 0 ==> next[..i] == now[..i]
    requires 0 <= next[i].shown.monitor < |monitors|
    ensures Placed(allocations + [Place(next[i], monitors, awake, dialog, naturals[i])], next[..i + 1], monitors,
      awake, dialog, naturals[..i + 1])
  {
    hide Place;
    assert next[..i] == now[..i];
    var fs, ns := next[..i + 1], naturals[..i + 1];
    forall k | 0 <= k < i ensures fs[k] == now[..i][k] && ns[k] == naturals[..i][k] {}
  }

  lemma PassEnds(was: seq<Float>, now: seq<Float>, plan: seq<Position>, drawn: bool, floating: bool, awake: bool,
                 mouse: seq<nat>, n: nat)
    requires Spread(was, n) && Halfway(was, now, plan, |was|, floating, awake, mouse)
    requires Plan(plan, was, drawn, n)
    requires forall k :: 0 <= k < |mouse| ==> mouse[k] < n
    ensures Spread(now, n) && SameHomes(was, now) && (awake ==> AtHome(was, now, mouse))
    ensures !drawn && AllHome(was) ==> AllHome(now)
    ensures ShowsNext(was, now, floating, awake, drawn)
  {
    PassKeepsSpread(was, now, plan, drawn, floating, awake, mouse, n);
  }

  lemma PlacedIsTidy(allocations: seq<Rect>, fs: seq<Float>, monitors: seq<Rect>, dialog: real, naturals: seq<Size>)
    requires Placed(allocations, fs, monitors, false, dialog, naturals) && Spread(fs, |monitors|)
    requires MonitorsApart(monitors)
    ensures Tidy(allocations, monitors)
  {
    hide Place, InsideSome, Apart, MonitorsApart;
    forall i | 0 <= i < |allocations| ensures InsideSome(allocations[i], monitors) {
      StaysInside(fs[i], monitors, dialog, naturals[i]);
    }
    forall i, j | 0 <= i < j < |allocations| ensures Apart(allocations[i], allocations[j]) {
      AsleepNeverOverlaps(fs[i], fs[j], monitors, dialog, naturals[i], naturals[j]);
    }
  }

  lemma StaysInside(f: Float, monitors: seq<Rect>, dialog: real, natural: Size)
    requires MonitorsApart(monitors) && 0 <= f.shown.monitor < |monitors|
    ensures InsideSome(Place(f, monitors, false, dialog, natural), monitors)
  {
    PlacedInCell(f, monitors, dialog, natural);
  }

  /** Main result: a full pass while awake, with the mouse on one monitor, puts the clock and the album art
      beside the dialog, exactly when the dialog is no wider than the monitor. */
  lemma AwakePassNeverCollides(was: seq<Float>, now: seq<Float>, monitors: seq<Rect>, mouse: nat, dialog: Size,
                               naturals: seq<Size>, allocations: seq<Rect>)
    requires |was| == 2 && was[0].awake.halign == Start && was[1].awake.halign == End
    requires mouse < |monitors| && monitors[mouse].width > 0.0 && monitors[mouse].height > 0.0
    requires AtHome(was, now, [mouse, mouse]) && Placed(allocations, now, monitors, true, dialog.width, naturals)
    requires dialog.width >= 0.0
    requires forall k :: 0 <= k < |naturals| ==> naturals[k].width >= 0.0 && naturals[k].height >= 0.0
    ensures |allocations| == 2
    ensures var m, d := monitors[mouse], DialogAllocation(monitors[mouse], dialog);
      var c, a := allocations[0], allocations[1];
      dialog.width <= m.width <==>
        && Proper(c) && Inside(c, m) && Proper(a) && Inside(a, m)
        && Apart(c, a) && c.x + c.width <= d.x && d.x + d.width <= a.x
        && m.x <= d.x && d.x + d.width <= m.x + m.width
  {
    hide Allocation;
    AwakeNeverCollides(monitors[mouse], was[0].awake.valign, was[1].awake.valign, dialog, naturals[0], naturals[1]);
  }

  datatype Event =
    | Pass(floating: bool, awake: bool, mouse: seq<nat>, dialog: real, naturals: seq<Size>)
    | TimerFires
    | TimerStops

  predicate Fits(e: Event, floaters: nat, n: nat) {
    e.Pass? ==> |e.mouse| == |e.naturals| == floaters && forall k :: 0 <= k < |e.mouse| ==> e.mouse[k] < n
  }

  // ------------------------------------------------------------------------------- the object

  class Stage {
    var floaters: seq<Floating>
    var floaters_need_update: bool

    ghost function AwakePositions(): set<PositionInfo>
      reads this, floaters
    {
      set f | f in floaters :: f.awake_position
    }

    ghost function NextPositions(): set<PositionInfo>
      reads this, floaters
    {
      set f | f in floaters :: f.next_position
    }

    /** No two floaters share a position object. */
    ghost predicate Valid() reads this, floaters {
      forall i, j :: 0 <= i < |floaters| && 0 <= j < |floaters| && i != j ==>
        && floaters[i] != floaters[j]
        && {floaters[i].awake_position, floaters[i].next_position} !!
           {floaters[j].awake_position, floaters[j].next_position}
    }

    ghost function Values(): (vs: seq<Float>)
      reads this, floaters, AwakePositions(), NextPositions()
      ensures |vs| == |floaters| && forall i :: 0 <= i < |vs| ==> vs[i] == floaters[i].Value()
    {
      seq(|floaters|, i requires 0 <= i < |floaters|
                        reads this, floaters, AwakePositions(), NextPositions() => floaters[i].Value())
    }

    constructor ()
      ensures Valid() && floaters == [] && !floaters_need_update
    {
      floaters, floaters_need_update := [], false;
    }

    /** The clock starts at the left of the monitor with the mouse. */
    method SetupClock(monitor: nat)
      requires Valid() && floaters == []
      modifies this`floaters
      ensures Valid() && fresh(floaters) && fresh(AwakePositions())
      ensures Values() == [Created(Position(monitor, Start, Center))]
    {
      var clock := new Floating(monitor, Start, Center);
      floaters := [clock];
    }

    /** The album art joins later, at the right; nothing else moves. */
    method SetupAlbumArt(monitor: nat)
      requires Valid()
      modifies this`floaters
      ensures Valid() && |floaters| == |old(floaters)| + 1 && floaters[..|old(floaters)|] == old(floaters)
      ensures fresh(floaters[|old(floaters)|]) && fresh(floaters[|old(floaters)|].awake_position)
      ensures Values() == old(Values()) + [Created(Position(monitor, End, Center))]
    {
      ghost var were, was := floaters, Values();
      var album := new Floating(monitor, End, Center);
      floaters := floaters + [album];
      assert forall k :: 0 <= k < |were| ==> floaters[k] == were[k] && floaters[k].Value() == was[k];
    }

    method UpdateFloaters()
      modifies this`floaters_need_update
      ensures floaters_need_update
    {
      floaters_need_update := true;
    }

    method StopFloatTimer()
      modifies this`floaters_need_update
      ensures !floaters_need_update
    {
      floaters_need_update := false;
    }

    method ListPositions(n: nat) returns (positions: seq<Position>)
      ensures positions == Cells(n)
    {
      positions := [];
      for i := 0 to n
        invariant positions == Cells(i)
      {
        for h := 0 to 3
          invariant positions == Cells(i) + Nine(i)[..3 * h]
        {
          for v := 0 to 3
            invariant positions == Cells(i) + Nine(i)[..3 * h + v]
          {
            positions := positions + [Position(i, ALIGNMENTS[h], ALIGNMENTS[v])];
          }
        }
      }
    }

    /** One floater gets its next position, and nothing else changes. */
    method SetNext(c: nat, p: Position)
      requires Valid() && c < |floaters|
      modifies floaters[c]
      ensures Valid()
      ensures forall k :: 0 <= k < |floaters| ==> floaters[k].awake_position == old(floaters[k].awake_position)
      ensures floaters[c].Value() == NextSet(old(floaters[c].Value()), p)
      ensures forall k :: 0 <= k < |floaters| && k != c ==> floaters[k].Value() == old(floaters[k].Value())
    {
      floaters[c].SetNextPosition(p);
    }

    /** Every floater draws a cell that no other has; any draw is possible. */
    method DrawPositions(n: nat) returns (ghost plan: seq<Position>)
      requires Valid() && |floaters| <= 9 * n
      modifies floaters
      ensures Valid() && Different(plan) && OnMonitors(plan, n)
      ensures forall k :: 0 <= k < |floaters| ==> floaters[k].awake_position == old(floaters[k].awake_position)
      ensures AllNextSet(old(Values()), Values(), plan, |floaters|)
    {
      hide Different, OnMonitors, Drawing;
      var positions := ListPositions(n);
      plan := [];
      DrawingStarts(n);
      for i := 0 to |floaters|
        invariant Valid() && |positions| == 9 * n - i && Drawing(plan, positions, n)
        invariant forall k :: 0 <= k < |floaters| ==> floaters[k].awake_position == old(floaters[k].awake_position)
        invariant AllNextSet(old(Values()), Values(), plan, i)
      {
        var r: nat :| r < |positions|;
        DrawingGoesOn(plan, positions, r, n);
        SetNext(i, positions[r]);
        plan := plan + [positions[r]];
        positions := positions[..r] + positions[r + 1..];
      }
      DrawingEnds(plan, positions, n);
    }

    /** The first part of the branch for floaters.  `plan` is what the next positions are afterwards. */
    method DrawIfDue(floating: bool, n: nat) returns (ghost plan: seq<Position>)
      requires Valid() && |floaters| <= 9 * n
      modifies this`floaters_need_update, floaters
      ensures Valid() && floaters_need_update == (old(floaters_need_update) && !floating)
      ensures forall k :: 0 <= k < |floaters| ==> floaters[k].awake_position == old(floaters[k].awake_position)
      ensures Plan(plan, old(Values()), floating && old(floaters_need_update), n)
      ensures AllNextSet(old(Values()), Values(), plan, |floaters|)
    {
      ghost var was := Values();
      plan := seq(|was|, k requires 0 <= k < |was| => was[k].next);
      if floating && floaters_need_update {
        plan := DrawPositions(n);
        floaters_need_update := false;
      }
    }

    /** The last part: a place for the child within the region left to it. */
    method Allocate(child: Floating, m: Rect, region_w: real, region_h: real, natural: Size)
      returns (allocation: Rect)
      ensures allocation == Allocation(m, child.halign, child.valign, region_w, region_h, natural)
      ensures Sized(allocation.width, natural.width, region_w) && Sized(allocation.height, natural.height, region_h)
      ensures Centred(child.halign, allocation.x - m.x, allocation.width, m.width, region_w)
      ensures Centred(child.valign, allocation.y - m.y, allocation.height, m.height, region_h)
    {
      var width, height := MinReal(natural.width, region_w), MinReal(natural.height, region_h);
      var padding_x, padding_y := (region_w - width) / 2.0, (region_h - height) / 2.0;
      var x, y;
      match child.halign {
        case Start => x := m.x + padding_x;
        case Center => x := m.x + m.width / 2.0 - width / 2.0;
        case End => x := m.x + m.width - width - padding_x;
      }
      match child.valign {
        case Start => y := m.y + padding_y;
        case Center => y := m.y + m.height / 2.0 - height / 2.0;
        case End => y := m.y + m.height - height - padding_y;
      }
      allocation := Rect(x, y, width, height);
    }

    /** The middle part, where the child takes its position and no other floater moves. */
    method Reposition(c: nat, floating: bool, awake: bool, mouse: nat)
      requires Valid() && c < |floaters|
      modifies floaters[c], floaters[c].awake_position
      ensures Valid()
      ensures forall k :: 0 <= k < |floaters| ==> floaters[k].awake_position == old(floaters[k].awake_position)
      ensures OnlyMoved(old(Values()), Values(), c, floating, awake, mouse)
    {
      var child := floaters[c];
      if floating {
        child.ApplyNextPosition();
      }
      if awake {
        child.SetAwakePosition(mouse);
        child.ApplyNextPosition();
      }
    }

    /** The state change of the branch for floaters. */
    method TakeTurn(c: nat, floating: bool, awake: bool, mouse: nat, n: nat) returns (ghost plan: seq<Position>)
      requires Valid() && c < |floaters| <= 9 * n && mouse < n
      requires 0 <= Values()[c].next.monitor < n && 0 <= Values()[c].shown.monitor < n
      modifies this`floaters_need_update, floaters, AwakePositions()
      ensures Valid() && AwakePositions() == old(AwakePositions())
      ensures floaters_need_update == (old(floaters_need_update) && !floating)
      ensures Plan(plan, old(Values()), floating && old(floaters_need_update), n)
      ensures OneMoved(old(Values()), Values(), plan, c, floating, awake, mouse)
      ensures 0 <= Values()[c].shown.monitor < n && (awake ==> Values()[c].shown.monitor == mouse)
    {
      hide Plan, OneMoved, Positioned, OnlyMoved;
      ghost var was := Values();
      plan := DrawIfDue(floating, n);
      PlanInRange(plan, was, floating && old(floaters_need_update), n, c);
      ghost var mid := Values();
      Reposition(c, floating, awake, mouse);
      MovedFromPlan(was, mid, Values(), plan, c, floating, awake, mouse);
    }

    /** The branch for floaters of the overlay's positioning callback. */
    method PositionFloater(c: nat, floating: bool, awake: bool, monitors: seq<Rect>, mouse: nat, dialog: real,
                           natural: Size) returns (allocation: Rect, ghost plan: seq<Position>)
      requires Valid() && c < |floaters| <= 9 * |monitors| && mouse < |monitors|
      requires 0 <= Values()[c].next.monitor < |monitors| && 0 <= Values()[c].shown.monitor < |monitors|
      modifies this`floaters_need_update, floaters, AwakePositions()
      ensures Valid() && AwakePositions() == old(AwakePositions())
      ensures floaters_need_update == (old(floaters_need_update) && !floating)
      ensures Plan(plan, old(Values()), floating && old(floaters_need_update), |monitors|)
      ensures OneMoved(old(Values()), Values(), plan, c, floating, awake, mouse)
      ensures 0 <= Values()[c].shown.monitor < |monitors|
      ensures allocation == Place(Values()[c], monitors, awake, dialog, natural)
      ensures Suits(allocation, monitors[Values()[c].shown.monitor], Values()[c].shown, awake, dialog, natural)
    {
      hide Plan, Place, OneMoved, Allocation, AwakeRegion;
      plan := TakeTurn(c, floating, awake, mouse, |monitors|);
      ghost var now := Values();
      var child := floaters[c];
      assert child.Value() == now[c];
      var m := monitors[child.current_monitor];
      var region_w, region_h := m.width / 3.0, m.height / 3.0;
      if awake && dialog > region_w {
        region_w := (m.width - dialog) / 2.0;
      }
      PlaceIs(now[c], monitors, awake, dialog, natural);
      PlaceSuits(now[c], monitors, awake, dialog, natural);
      hide Suits;
      allocation := Allocate(child, m, region_w, region_h, natural);
      assert Values() == now;
    }

    /** A full layout pass. */
    method LayoutPass(floating: bool, awake: bool, monitors: seq<Rect>, mouse: seq<nat>, dialog: real,
                      naturals: seq<Size>) returns (allocations: seq<Rect>)
      requires Valid() && |floaters| <= 9 * |monitors| && |mouse| == |naturals| == |floaters|
      requires forall k :: 0 <= k < |mouse| ==> mouse[k] < |monitors|
      requires Spread(Values(), |monitors|)
      modifies this`floaters_need_update, floaters, AwakePositions()
      ensures Valid() && AwakePositions() == old(AwakePositions()) && Spread(Values(), |monitors|)
      ensures !old(floaters_need_update) ==> !floaters_need_update && (AllHome(old(Values())) ==> AllHome(Values()))
      ensures Placed(allocations, Values(), monitors, awake, dialog, naturals)
      ensures AllSuit(allocations, Values(), monitors, awake, dialog, naturals)
      ensures ShowsNext(old(Values()), Values(), floating, awake, floating && old(floaters_need_update))
      ensures SameHomes(old(Values()), Values())
      ensures awake ==> AtHome(old(Values()), Values(), mouse)
      ensures MonitorsApart(monitors) && !awake ==> Tidy(allocations, monitors)
    {
      hide Plan, Spread, Place, OneMoved, Halfway, Placed, SameHomes, AtHome, AllHome, Tidy, MonitorsApart, AllSuit;
      ghost var n, was, due := |monitors|, Values(), floating && floaters_need_update;
      ghost var plan := HalfwayStarts(was, floating, awake, mouse, n);
      allocations := [];
      assert Placed(allocations, was[..0], monitors, awake, dialog, naturals[..0]) by {
        NothingPlaced(monitors, awake, dialog);
      }
      for i := 0 to |floaters|
        invariant Valid() && AwakePositions() == old(AwakePositions())
        invariant floaters_need_update == (old(floaters_need_update) && !(floating && i > 0))
        invariant Plan(plan, was, due && i > 0, n)
        invariant Halfway(was, Values(), plan, i, floating, awake, mouse)
        invariant Placed(allocations, Values()[..i], monitors, awake, dialog, naturals[..i])
      {
        ghost var now := Values();
        ghost var p;
        HalfwayInRange(was, now, plan, due && i > 0, i, floating, awake, mouse, n);
        var allocation;
        allocation, p := PositionFloater(i, floating, awake, monitors, mouse[i], dialog, naturals[i]);
        plan := HalfwayStep(was, now, Values(), plan, p, due, i, floating, awake, mouse, n);
        PlacedStep(allocations, now, Values(), p, monitors, i, floating, awake, mouse, dialog, naturals);
        allocations := allocations + [allocation];
      }
      PassEnds(was, Values(), plan, due && |was| > 0, floating, awake, mouse, n);
      assert Values()[..|floaters|] == Values() && naturals[..|floaters|] == naturals;
      PlacedSuit(allocations, Values(), monitors, awake, dialog, naturals);
      if MonitorsApart(monitors) && !awake {
        PlacedIsTidy(allocations, Values(), monitors, dialog, naturals);
      }
    }

    /** Passes and timer events in any order. */
    method Night(events: seq<Event>, monitors: seq<Rect>) returns (layouts: seq<seq<Rect>>)
      requires Valid() && |floaters| <= 9 * |monitors| && Spread(Values(), |monitors|) && MonitorsApart(monitors)
      requires forall e :: 0 <= e < |events| ==> Fits(events[e], |floaters|, |monitors|)
      modifies this`floaters_need_update, floaters, AwakePositions()
      ensures Valid() && AwakePositions() == old(AwakePositions())
      ensures Spread(Values(), |monitors|) && SameHomes(old(Values()), Values())
      ensures |layouts| == |events|
      ensures forall e :: 0 <= e < |events| && events[e].Pass? && !events[e].awake ==> Tidy(layouts[e], monitors)
      ensures AllHome(old(Values())) && !old(floaters_need_update) && TimerFires !in events ==>
        AllHome(Values()) && !floaters_need_update
    {
      hide Spread, Tidy, MonitorsApart, Placed, AtHome, AllHome;
      layouts := [];
      for e := 0 to |events|
        invariant Valid() && AwakePositions() == old(AwakePositions())
        invariant Spread(Values(), |monitors|) && SameHomes(old(Values()), Values()) && |layouts| == e
        invariant forall k :: 0 <= k < e && events[k].Pass? && !events[k].awake ==> Tidy(layouts[k], monitors)
        invariant AllHome(old(Values())) && !old(floaters_need_update) && TimerFires !in events ==>
          AllHome(Values()) && !floaters_need_update
      {
        ghost var now := Values();
        match events[e] {
          case Pass(floating, awake, mouse, dialog, naturals) =>
            var allocations := LayoutPass(floating, awake, monitors, mouse, dialog, naturals);
            layouts := layouts + [allocations];
          case TimerFires => UpdateFloaters(); assert Values() == now; layouts := layouts + [[]];
          case TimerStops => StopFloatTimer(); assert Values() == now; layouts := layouts + [[]];
        }
      }
    }

    /** A whole life of the floaters: the clock alone at first, then the album art joins it.  Until then the float
        timer, whose period is the longer one, has not fired. */
    method Evening(clock_monitor: nat, alone: seq<Event>, album_monitor: nat, both: seq<Event>, monitors: seq<Rect>)
      returns (early: seq<seq<Rect>>, late: seq<seq<Rect>>)
      requires Valid() && floaters == [] && !floaters_need_update && MonitorsApart(monitors)
      requires clock_monitor < |monitors| && album_monitor < |monitors|
      requires forall e :: 0 <= e < |alone| ==> Fits(alone[e], 1, |monitors|) && !alone[e].TimerFires?
      requires forall e :: 0 <= e < |both| ==> Fits(both[e], 2, |monitors|)
      modifies this`floaters, this`floaters_need_update
      ensures Valid() && |floaters| == 2 && Spread(Values(), |monitors|)
      ensures Values()[0].awake.halign == Start && Values()[1].awake.halign == End
      ensures |early| == |alone| && |late| == |both|
      ensures forall e :: 0 <= e < |alone| && alone[e].Pass? && !alone[e].awake ==> Tidy(early[e], monitors)
      ensures forall e :: 0 <= e < |both| && both[e].Pass? && !both[e].awake ==> Tidy(late[e], monitors)
    {
      hide MonitorsApart, Tidy, Fits, RoomFor;
      SetupClock(clock_monitor);
      ClockAlone(clock_monitor, |monitors|);
      ghost var start := Values();
      early := Night(alone, monitors);
      ghost var clock := Values();
      assert clock[0].awake.halign == Start;
      HomeHasRoom(clock, Position(album_monitor, End, Center));
      JoinKeepsSpread(clock, Position(album_monitor, End, Center), |monitors|);
      SetupAlbumArt(album_monitor);
      assert AwakePositions() == {floaters[0].awake_position, floaters[1].awake_position};
      hide Spread, AllHome;
      late := Night(both, monitors);
    }
  }

  lemma ClockAlone(m: nat, n: nat)
    requires m < n
    ensures Spread([Created(Position(m, Start, Center))], n) && AllHome([Created(Position(m, Start, Center))])
  {
  }
}
