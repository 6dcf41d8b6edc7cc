/**
 FocusNavigator: moving the keyboard focus around the widgets of the unlock dialog with the Tab key.

 A window has one widget with the focus, or none; a sensitive widget that grabs the focus gets it.
 */
module FocusNavigator {

  predicate SomeSensitive(ok: seq<bool>) { exists i :: 0 <= i < |ok| && ok[i] }

  /** The first sensitive position at `i` or later, or the length. */
  function FirstFrom(ok: seq<bool>, i: nat): (f: nat)
    requires i <= |ok|
    ensures i <= f <= |ok| && (f < |ok| ==> ok[f])
    ensures forall k :: i <= k < f ==> !ok[k]
    decreases |ok| - i
  {
    if i == |ok| || ok[i] then i else FirstFrom(ok, i + 1)
  }

  /** The last sensitive position before `i`, or -1. */
  function LastBefore(ok: seq<bool>, i: nat): (l: int)
    requires i <= |ok|
    ensures -1 <= l < i && (l >= 0 ==> ok[l])
    ensures forall k :: l < k < i ==> !ok[k]
  {
    if i == 0 then -1 else if ok[i - 1] then i - 1 else LastBefore(ok, i - 1)
  }

  /** Where Tab leads from `c`: on to the next sensitive widget, and around the end. */
  function Next(ok: seq<bool>, c: int): (n: nat)
    requires SomeSensitive(ok) && -1 <= c < |ok|
    ensures n < |ok| && ok[n]
  {
    var f := FirstFrom(ok, c + 1);
    if f < |ok| then f else FirstFrom(ok, 0)
  }

  /** Where Shift+Tab leads; with no focus the search starts past the end. */
  function Previous(ok: seq<bool>, c: int): (n: nat)
    requires SomeSensitive(ok) && -1 <= c < |ok|
    ensures n < |ok| && ok[n]
  {
    var l := LastBefore(ok, if c < 0 then 0 else c);
    if l >= 0 then l else LastBefore(ok, |ok|)
  }

  /** How many calls the search forward makes: the cyclic distance to the next sensitive widget. */
  function Ahead(ok: seq<bool>, c: int): (d: nat)
    requires SomeSensitive(ok) && -1 <= c < |ok|
    ensures 1 <= d <= |ok| + 1
  {
    var n := Next(ok, c);
    if n > c then n - c else |ok| + n - c
  }

  /** The same for the search backward; a position of -1 counts as the end of the list. */
  function Behind(ok: seq<bool>, c: int): (d: nat)
    requires SomeSensitive(ok) && -1 <= c < |ok|
    ensures 1 <= d <= |ok| + 1
  {
    var n, at := Previous(ok, c), if c < 0 then |ok| else c;
    if n < at then at - n else |ok| + at - n
  }

  // ------------------------------------------------------------------------- termination

  /** The position one call further: forward, around the end. */
  function Onward(len: nat, c: int): (n: nat)
    requires len > 0 && -1 <= c < len
    ensures n < len
  {
    if c + 1 >= len then 0 else c + 1
  }

  function Backward(len: nat, c: int): (n: nat)
    requires len > 0 && -1 <= c < len
    ensures n < len
  {
    if c - 1 < 0 then len - 1 else c - 1
  }

  /** The position `k` calls on. */
  function Walk(len: nat, c: int, k: nat, forward: bool): (n: int)
    requires len > 0 && -1 <= c < len
    ensures -1 <= n < len && (k > 0 ==> n >= 0)
    decreases k
  {
    if k == 0 then c
    else
      var before := Walk(len, c, k - 1, forward);
      if forward then Onward(len, before) else Backward(len, before)
  }

  /** The search from `c` ends with its `k`th call. */
  ghost predicate EndsAt(ok: seq<bool>, c: int, k: nat, forward: bool)
    requires ok != [] && -1 <= c < |ok|
  {
    k > 0 && ok[Walk(|ok|, c, k, forward)] && forall j :: 0 < j < k ==> !ok[Walk(|ok|, c, j, forward)]
  }

  lemma {:induction false} WalkStep(len: nat, c: int, k: nat, forward: bool)
    requires len > 0 && -1 <= c < len
    ensures Walk(len, c, k + 1, forward)
      == Walk(len, if forward then Onward(len, c) else Backward(len, c), k, forward)
  {
    if k > 0 { WalkStep(len, c, k - 1, forward); }
  }

  /** Main result: the search ends exactly when some widget is sensitive, and then after as many calls as
      the widget it finds is away; otherwise it calls itself for ever. */
  lemma {:induction false} SearchEnds(ok: seq<bool>, c: int)
    requires ok != [] && -1 <= c < |ok|
    ensures (exists k :: EndsAt(ok, c, k, true)) <==> SomeSensitive(ok)
    ensures (exists k :: EndsAt(ok, c, k, false)) <==> SomeSensitive(ok)
    ensures SomeSensitive(ok) ==>
      && EndsAt(ok, c, Ahead(ok, c), true) && Walk(|ok|, c, Ahead(ok, c), true) == Next(ok, c)
      && EndsAt(ok, c, Behind(ok, c), false) && Walk(|ok|, c, Behind(ok, c), false) == Previous(ok, c)
  {
    if SomeSensitive(ok) {
      AheadEnds(ok, c);
      BehindEnds(ok, c);
    }
  }

  lemma {:induction false} AheadEnds(ok: seq<bool>, c: int)
    requires SomeSensitive(ok) && -1 <= c < |ok|
    ensures EndsAt(ok, c, Ahead(ok, c), true) && Walk(|ok|, c, Ahead(ok, c), true) == Next(ok, c)
    decreases Ahead(ok, c)
  {
    var n := Onward(|ok|, c);
    WalkStep(|ok|, c, 0, true);
    if !ok[n] {
      FirstFromStep(ok, c);
      AheadEnds(ok, n);
      WalkStep(|ok|, c, Ahead(ok, n), true);
      forall j | 0 < j < Ahead(ok, c) ensures !ok[Walk(|ok|, c, j, true)] {
        WalkStep(|ok|, c, j - 1, true);
      }
    }
  }

  lemma {:induction false} BehindEnds(ok: seq<bool>, c: int)
    requires SomeSensitive(ok) && -1 <= c < |ok|
    ensures EndsAt(ok, c, Behind(ok, c), false) && Walk(|ok|, c, Behind(ok, c), false) == Previous(ok, c)
    decreases Behind(ok, c)
  {
    var n := Backward(|ok|, c);
    WalkStep(|ok|, c, 0, false);
    if !ok[n] {
      LastBeforeStep(ok, c);
      BehindEnds(ok, n);
      WalkStep(|ok|, c, Behind(ok, n), false);
      forall j | 0 < j < Behind(ok, c) ensures !ok[Walk(|ok|, c, j, false)] {
        WalkStep(|ok|, c, j - 1, false);
      }
    }
  }

  /** Passing over an insensitive widget changes nothing about the target and brings it one call closer. */
  lemma FirstFromStep(ok: seq<bool>, c: int)
    requires SomeSensitive(ok) && -1 <= c < |ok| && !ok[Onward(|ok|, c)]
    ensures var n := Onward(|ok|, c);
      Next(ok, n) == Next(ok, c) && Ahead(ok, n) + 1 == Ahead(ok, c)
  {
    var n := Onward(|ok|, c);
    var i :| 0 <= i < |ok| && ok[i];
    assert FirstFrom(ok, 0) <= i;
    assert FirstFrom(ok, n) == FirstFrom(ok, n + 1);
  }

  lemma LastBeforeStep(ok: seq<bool>, c: int)
    requires SomeSensitive(ok) && -1 <= c < |ok| && !ok[Backward(|ok|, c)]
    ensures var n := Backward(|ok|, c);
      Previous(ok, n) == Previous(ok, c) && Behind(ok, n) + 1 == Behind(ok, c)
  {
    var n := Backward(|ok|, c);
    var i :| 0 <= i < |ok| && ok[i];
    assert LastBefore(ok, |ok|) >= i;
    assert LastBefore(ok, n + 1) == LastBefore(ok, n);
  }

  // --------------------------------------------------------------------------- the cycle

  /** The sensitive positions in increasing order. */
  function Sensitive(ok: seq<bool>): (s: seq<nat>)
    ensures forall k :: 0 <= k < |s| ==> s[k] < |ok| && ok[s[k]]
  {
    if ok == [] then []
    else
      var n := |ok| - 1;
      Sensitive(ok[..n]) + if ok[n] then [n] else []
  }

  predicate Increasing(s: seq<nat>) { forall j, k :: 0 <= j < k < |s| ==> s[j] < s[k] }

  lemma {:induction false} SensitiveMeans(ok: seq<bool>)
    ensures Increasing(Sensitive(ok))
    ensures forall i :: i in Sensitive(ok) <==> 0 <= i < |ok| && ok[i]
  {
    if ok != [] {
      var n := |ok| - 1;
      SensitiveMeans(ok[..n]);
      assert Sensitive(ok) == Sensitive(ok[..n]) + if ok[n] then [n] else [];
    }
  }

  lemma Listed(ok: seq<bool>, i: nat) returns (k: nat)
    requires i < |ok| && ok[i]
    ensures k < |Sensitive(ok)| && Sensitive(ok)[k] == i
  {
    SensitiveMeans(ok);
    assert i in Sensitive(ok);
    k :| 0 <= k < |Sensitive(ok)| && Sensitive(ok)[k] == i;
  }

  /** Tab goes one place on among the sensitive widgets, around the end. */
  lemma NextInOrder(ok: seq<bool>, k: nat)
    requires k < |Sensitive(ok)|
    ensures SomeSensitive(ok)
    ensures var s := Sensitive(ok); Next(ok, s[k]) == s[if k + 1 < |s| then k + 1 else 0]
  {
    var s := Sensitive(ok);
    SensitiveMeans(ok);
    hide Sensitive;
    var kn := Listed(ok, Next(ok, s[k]));
    assert k + 1 < |s| ==> ok[s[k + 1]];
    assert ok[s[0]];
  }

  /** Shift+Tab goes one place back, around the start. */
  lemma PreviousInOrder(ok: seq<bool>, k: nat)
    requires k < |Sensitive(ok)|
    ensures SomeSensitive(ok)
    ensures var s := Sensitive(ok); Previous(ok, s[k]) == s[if k > 0 then k - 1 else |s| - 1]
  {
    var s := Sensitive(ok);
    SensitiveMeans(ok);
    hide Sensitive;
    var kp := Listed(ok, Previous(ok, s[k]));
    assert k > 0 ==> ok[s[k - 1]];
    assert ok[s[|s| - 1]];
  }

  /** Main result: each undoes the other, from every sensitive widget. */
  lemma NextAndPreviousAreInverse(ok: seq<bool>, i: nat)
    requires i < |ok| && ok[i]
    ensures SomeSensitive(ok) && Previous(ok, Next(ok, i)) == i && Next(ok, Previous(ok, i)) == i
  {
    hide Sensitive, Next, Previous, SomeSensitive;
    var k := Listed(ok, i);
    var m := |Sensitive(ok)|;
    NextInOrder(ok, k);
    PreviousInOrder(ok, k);
    PreviousInOrder(ok, if k + 1 < m then k + 1 else 0);
    NextInOrder(ok, if k > 0 then k - 1 else m - 1);
  }

  /** `n` presses of Tab. */
  function Presses(ok: seq<bool>, c: int, n: nat): (r: int)
    requires SomeSensitive(ok) && -1 <= c < |ok|
    ensures -1 <= r < |ok| && (n > 0 ==> r >= 0 && ok[r])
  {
    if n == 0 then c else Next(ok, Presses(ok, c, n - 1))
  }

  /** The place `n` on from place `k` of `m`, counted around. */
  function Around(m: nat, k: nat, n: nat): (r: nat)
    requires k < m && n <= m
    ensures r < m
  {
    if k + n < m then k + n else k + n - m
  }

  lemma {:induction false} PressesInOrder(ok: seq<bool>, k: nat, n: nat)
    requires k < |Sensitive(ok)| && n <= |Sensitive(ok)|
    ensures SomeSensitive(ok)
    ensures var s := Sensitive(ok); Presses(ok, s[k], n) == s[Around(|s|, k, n)]
  {
    hide Sensitive, Next, Previous;
    NextInOrder(ok, k);
    if n > 0 {
      PressesInOrder(ok, k, n - 1);
      NextInOrder(ok, Around(|Sensitive(ok)|, k, n - 1));
    }
  }

  /** Main result: as many presses as there are sensitive widgets come back to where they started, and no
      two of the stops on the way are the same. */
  lemma {:induction false} TabIsACycle(ok: seq<bool>, i: nat)
    requires i < |ok| && ok[i]
    ensures SomeSensitive(ok)
    ensures var m := |Sensitive(ok)|;
      && Presses(ok, i, m) == i
      && forall n, p :: 0 <= n < p < m ==> Presses(ok, i, n) != Presses(ok, i, p)
  {
    SensitiveMeans(ok);
    hide Sensitive, Presses;
    var s := Sensitive(ok);
    var k := Listed(ok, i);
    PressesInOrder(ok, k, |s|);
    forall n, p | 0 <= n < p < |s| ensures Presses(ok, i, n) != Presses(ok, i, p) {
      PressesInOrder(ok, k, n);
      PressesInOrder(ok, k, p);
      var j, l := Around(|s|, k, n), Around(|s|, k, p);
      assert if j < l then s[j] < s[l] else s[l] < s[j];
    }
  }

  /** And every sensitive widget is one of these stops. */
  lemma {:induction false} TabVisitsAll(ok: seq<bool>, i: nat, j: nat)
    requires i < |ok| && ok[i] && j < |ok| && ok[j]
    ensures SomeSensitive(ok) && exists n :: 0 <= n < |Sensitive(ok)| && Presses(ok, i, n) == j
  {
    hide Sensitive, Presses;
    var s := Sensitive(ok);
    var k := Listed(ok, i);
    var at := Listed(ok, j);
    var n := if at >= k then at - k else at + |s| - k;
    PressesInOrder(ok, k, n);
    assert Around(|s|, k, n) == at;
    assert Presses(ok, i, n) == j;
  }

  /** With no focus, Tab reaches the first sensitive widget and Shift+Tab the last. */
  lemma FromNoFocus(ok: seq<bool>)
    requires SomeSensitive(ok)
    ensures var s := Sensitive(ok); s != [] && Next(ok, -1) == s[0] && Previous(ok, -1) == s[|s| - 1]
  {
    SensitiveMeans(ok);
    var s := Sensitive(ok);
    hide Sensitive;
    var kn := Listed(ok, Next(ok, -1));
    var kp := Listed(ok, Previous(ok, -1));
    assert ok[s[0]] && ok[s[|s| - 1]];
  }

  // --------------------------------------------------------------------------- the object

  class Widget {
    var sensitive: bool

    constructor (sensitive: bool)
      ensures this.sensitive == sensitive
    {
      this.sensitive := sensitive;
    }
  }

  lemma OnlyPlace(ws: seq<Widget>, at: nat, found: int)
    requires at < |ws| && -1 <= found < |ws|
    requires forall j, k :: 0 <= j < k < |ws| ==> ws[j] != ws[k]
    requires if found == -1 then ws[at] !in ws else ws[found] == ws[at]
    ensures found == at
  {
  }

  class FocusNavigator {
    var widgets: seq<Widget>
    var focused: Widget?

    constructor (widgets: seq<Widget>)
      ensures this.widgets == widgets && focused == null
    {
      this.widgets, focused := widgets, null;
    }

    function Flags(): (ok: seq<bool>)
      reads this`widgets, widgets
      ensures |ok| == |widgets| && forall i :: 0 <= i < |ok| ==> ok[i] == widgets[i].sensitive
    {
      var w := widgets;
      seq(|w|, i requires 0 <= i < |w| reads w => w[i].sensitive)
    }

    ghost predicate NoDuplicates() reads this`widgets {
      forall j, k :: 0 <= j < k < |widgets| ==> widgets[j] != widgets[k]
    }

    /** The first position of the widget with the focus, or -1. */
    method GetFocusIndex() returns (index: int)
      ensures -1 <= index < |widgets|
      ensures index == -1 ==> focused !in widgets
      ensures index >= 0 ==> widgets[index] == focused && focused !in widgets[..index]
    {
      for i := 0 to |widgets|
        invariant focused !in widgets[..i]
      {
        if widgets[i] == focused { return i; }
      }
      assert widgets[..|widgets|] == widgets;
      return -1;
    }

    method FocusFirstPossible()
      modifies this`focused
      ensures focused == if SomeSensitive(Flags()) then widgets[Next(Flags(), -1)] else old(focused)
    {
      for i := 0 to |widgets|
        invariant focused == old(focused) && forall k :: 0 <= k < i ==> !Flags()[k]
      {
        if widgets[i].sensitive {
          focused := widgets[i];
          assert Flags()[i];
          return;
        }
      }
    }

    method FocusNext(current: int)
      requires -1 <= current < |widgets| && SomeSensitive(Flags())
      modifies this`focused
      ensures focused == widgets[Next(Flags(), current)]
      decreases Ahead(Flags(), current)
    {
      var target := current + 1;
      if target >= |widgets| { target := 0; }
      if !widgets[target].sensitive {
        FirstFromStep(Flags(), current);
        FocusNext(target);
        return;
      }
      assert Flags()[target];
      focused := widgets[target];
    }

    method FocusPrevious(current: int)
      requires -1 <= current < |widgets| && SomeSensitive(Flags())
      modifies this`focused
      ensures focused == widgets[Previous(Flags(), current)]
      decreases Behind(Flags(), current)
    {
      var target := current - 1;
      if target < 0 { target := |widgets| - 1; }
      if !widgets[target].sensitive {
        LastBeforeStep(Flags(), current);
        FocusPrevious(target);
        return;
      }
      assert Flags()[target];
      focused := widgets[target];
    }

    /** A Tab.  With no focus the first sensitive widget gets it for a moment, which changes nothing about
        where the search starts.  Without any sensitive widget the search does not end. */
    method Navigate(reverse: bool) returns (index: int)
      requires SomeSensitive(Flags())
      modifies this`focused
      ensures -1 <= index < |widgets|
      ensures index == -1 ==> old(focused) !in widgets
      ensures index >= 0 ==> widgets[index] == old(focused) && old(focused) !in widgets[..index]
      ensures focused == widgets[if reverse then Previous(Flags(), index) else Next(Flags(), index)]
    {
      index := GetFocusIndex();
      if index == -1 { FocusFirstPossible(); }
      if reverse { FocusPrevious(index); } else { FocusNext(index); }
    }

    method GetFocusedWidget() returns (widget: Widget?)
      ensures widget == if focused in widgets then focused else null
    {
      var index := GetFocusIndex();
      if index == -1 { return null; }
      return widgets[index];
    }

    /** The two keys undo each other, whichever comes first, unless a widget is listed twice. */
    method ThereAndBack(first: bool)
      requires NoDuplicates() && focused in widgets && focused.sensitive
      modifies this`focused
      ensures focused == old(focused)
    {
      hide Next, Previous, SomeSensitive;
      ghost var ok, ws := Flags(), widgets;
      ghost var at :| 0 <= at < |ws| && ws[at] == focused;
      assert ok[at];
      NextAndPreviousAreInverse(ok, at);
      var i := Navigate(first);
      OnlyPlace(ws, at, i);
      ghost var to := if first then Previous(ok, at) else Next(ok, at);
      assert focused == ws[to] && Flags() == ok;
      var j := Navigate(!first);
      OnlyPlace(ws, to, j);
    }

    /** `n` presses of Tab by a user. */
    method PressTab(n: nat, ghost at: nat)
      requires NoDuplicates() && at < |widgets| && widgets[at] == focused && SomeSensitive(Flags())
      modifies this`focused
      ensures focused == widgets[Presses(Flags(), at, n)]
    {
      hide Next, Previous, SomeSensitive;
      ghost var ok, ws := Flags(), widgets;
      for k := 0 to n
        invariant Flags() == ok && focused == ws[Presses(ok, at, k)]
      {
        ghost var c := Presses(ok, at, k);
        var i := Navigate(false);
        OnlyPlace(ws, c, i);
        assert Presses(ok, at, k + 1) == Next(ok, c);
      }
    }
  }
}
