/**
 Floating: where the clock and the album art are, and where they go next.
 */
module Floating {

  datatype Align = Start | End | Center

  datatype Position = Position(monitor: int, halign: Align, valign: Align)

  /** A floater by value: its awake position, its next one, and the one it shows. */
  datatype Float = Float(awake: Position, next: Position, shown: Position)

  function Created(p: Position): Float { Float(p, p, p) }
  function NextSet(f: Float, p: Position): Float { f.(next := p) }
  function Applied(f: Float): Float { f.(shown := f.next) }
  function AwakeSet(f: Float, monitor: int): Float {
    var p := f.awake.(monitor := monitor);
    f.(awake := p, next := p)
  }

  datatype Call = SetNext(p: Position) | Apply | SetAwake(monitor: int)

  function Step(f: Float, c: Call): Float {
    match c
    case SetNext(p) => NextSet(f, p)
    case Apply => Applied(f)
    case SetAwake(m) => AwakeSet(f, m)
  }

  function After(f: Float, calls: seq<Call>): Float {
    if calls == [] then f else Step(After(f, calls[..|calls| - 1]), calls[|calls| - 1])
  }

  /** Main result: whatever is called, the awake alignments are the ones the floater was created with, and
      waking up on monitor `m` brings it back to them there. */
  lemma {:induction false} AwakeAlignmentsStay(p: Position, calls: seq<Call>, m: int)
    ensures var f := After(Created(p), calls);
      && f.awake.halign == p.halign && f.awake.valign == p.valign
      && Applied(AwakeSet(f, m)).shown == p.(monitor := m)
  {
    if calls != [] {
      AwakeAlignmentsStay(p, calls[..|calls| - 1], m);
    }
  }

  /** What was set last is what applying shows, whatever came before, and the awake position does not notice. */
  lemma LastSetIsShown(f: Float, calls: seq<Call>, p: Position)
    ensures After(f, calls + [SetNext(p)] + [Apply]) == Float(After(f, calls).awake, p, p)
  {
    var told := calls + [SetNext(p)];
    assert told[..|calls|] == calls && (told + [Apply])[..|told|] == told;
    assert After(f, told) == Step(After(f, calls), SetNext(p));
  }

  /** Waking up on a monitor moves the awake position there, which is what applying shows. */
  lemma LastWakeIsShown(f: Float, calls: seq<Call>, m: int)
    ensures var awake := After(f, calls).awake.(monitor := m);
      After(f, calls + [SetAwake(m)] + [Apply]) == Float(awake, awake, awake)
  {
    var woken := calls + [SetAwake(m)];
    assert woken[..|calls|] == calls && (woken + [Apply])[..|woken|] == woken;
    assert After(f, woken) == Step(After(f, calls), SetAwake(m));
  }

  /** A floater shows the next position as it was when last applied, whatever awake positions came after. */
  lemma {:induction false} ShownIsApplied(f: Float, calls: seq<Call>)
    requires Apply !in calls
    ensures After(f, calls).shown == f.shown
  {
    if calls != [] {
      ShownIsApplied(f, calls[..|calls| - 1]);
    }
  }

  class PositionInfo {
    var monitor: int
    var halign: Align
    var valign: Align

    constructor (p: Position)
      ensures Value() == p
    {
      monitor, halign, valign := p.monitor, p.halign, p.valign;
    }

    function Value(): Position reads this { Position(monitor, halign, valign) }
  }

  /** The two positions may be one object, and writing to the awake one then changes both.  The contracts
      below say what no caller can tell apart from separate values. */
  class Floating {
    var awake_position: PositionInfo
    var next_position: PositionInfo
    var current_monitor: int
    var halign: Align
    var valign: Align

    function Value(): Float
      reads this, awake_position, next_position
    {
      Float(awake_position.Value(), next_position.Value(), Position(current_monitor, halign, valign))
    }

    constructor (initial_monitor: int, halign: Align, valign: Align)
      ensures fresh(awake_position) && fresh(next_position)
      ensures Value() == Created(Position(initial_monitor, halign, valign))
    {
      var p := new PositionInfo(Position(initial_monitor, halign, valign));
      awake_position, next_position := p, p;
      current_monitor, this.halign, this.valign := initial_monitor, halign, valign;
    }

    method SetNextPosition(p: Position)
      modifies this`next_position
      ensures fresh(next_position)
      ensures Value() == NextSet(old(Value()), p)
    {
      next_position := new PositionInfo(p);
    }

    method ApplyNextPosition()
      modifies this`current_monitor, this`halign, this`valign
      ensures Value() == Applied(old(Value()))
    {
      current_monitor := next_position.monitor;
      halign := next_position.halign;
      valign := next_position.valign;
    }

    method SetAwakePosition(monitor: int)
      modifies this`next_position, awake_position`monitor
      ensures next_position == awake_position
      ensures Value() == AwakeSet(old(Value()), monitor)
    {
      awake_position.monitor := monitor;
      next_position := awake_position;
    }

    method Replay(calls: seq<Call>)
      modifies this, awake_position
      ensures awake_position == old(awake_position)
      ensures next_position in {old(next_position), awake_position} || fresh(next_position)
      ensures Value() == After(old(Value()), calls)
    {
      for i := 0 to |calls|
        invariant awake_position == old(awake_position)
        invariant next_position in {old(next_position), awake_position} || fresh(next_position)
        invariant Value() == After(old(Value()), calls[..i])
      {
        match calls[i] {
          case SetNext(p) => SetNextPosition(p);
          case Apply => ApplyNextPosition();
          case SetAwake(m) => SetAwakePosition(m);
        }
        assert calls[..i + 1][..i] == calls[..i];
      }
      assert calls[..|calls|] == calls;
    }
  }
}
