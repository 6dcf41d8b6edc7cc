/**
 TimerTracker: named timers on top of the main loop's numbered sources.

 Callbacks may start and cancel timers, their own included, and run the main loop again.  The main loop hands
 out source ids that are positive and never used twice.
 */
module TimerTracker {

  type Name = string

  /** What a callback does before it returns a truthy or falsy value, or raises. */
  datatype Behaviour =
    | Returns(truthy: bool)
    | Raises
    | Starts(name: Name, rest: Behaviour)
    | Cancels(name: Name, rest: Behaviour)
    | Lets(id: nat, inner: Behaviour, rest: Behaviour) // a nested main loop dispatches source `id`

  datatype Outcome = Truthy | Falsy | Raised

  /** The records by name, the main loop's sources with the name each was started under, and the next id. */
  datatype State = State(timers: map<Name, nat>, live: map<nat, Name>, next: nat)

  const START: State := State(map[], map[], 1)

  function Cancelled(s: State, name: Name): State {
    if name in s.timers then
      s.(timers := s.timers - {name}, live := s.live - {s.timers[name]})
    else s
  }

  function Started(s: State, name: Name): State {
    var c := Cancelled(s, name);
    State(c.timers[name := c.next], c.live[c.next := name], c.next + 1)
  }

  /** What is left when the callback comes back, and how it does. */
  function Ran(s: State, b: Behaviour): (State, Outcome)
    decreases b, 0
  {
    match b
    case Returns(t) => (s, if t then Truthy else Falsy)
    case Raises => (s, Raised)
    case Starts(name, rest) => Ran(Started(s, name), rest)
    case Cancels(name, rest) => Ran(Cancelled(s, name), rest)
    case Lets(id, inner, rest) => Ran(Dispatched(s, id, inner), rest)
  }

  /** The main loop dispatches source `id`, which does `b`. */
  function Dispatched(s: State, id: nat, b: Behaviour): State
    decreases b, 1
  {
    if id !in s.live then s
    else var (after, outcome) := Ran(s, b); Ended(after, s.live[id], id, outcome)
  }

  function Dropped(s: State, id: nat): State { s.(live := s.live - {id}) }

  /** The source goes away unless the tracker's wrapper around the callback returns true; a callback that raises
      never comes back to the wrapper. */
  function Ended(s: State, name: Name, id: nat, outcome: Outcome): State {
    match outcome
    case Truthy => s
    case Falsy => Dropped(Cancelled(s, name), id)
    case Raised => Dropped(s, id)
  }

  /** How a callback ends: it returns something or raises. */
  function Ending(b: Behaviour): Behaviour {
    match b
    case Starts(_, rest) => Ending(rest)
    case Cancels(_, rest) => Ending(rest)
    case Lets(_, _, rest) => Ending(rest)
    case _ => b
  }

  lemma {:induction false} OutcomeIsEnding(s: State, b: Behaviour)
    ensures Ran(s, b).1 == Truthy <==> Ending(b) == Returns(true)
    ensures Ran(s, b).1 == Falsy <==> Ending(b) == Returns(false)
    ensures Ran(s, b).1 == Raised <==> Ending(b) == Raises
    decreases b
  {
    match b
    case Returns(_) =>
    case Raises =>
    case Starts(name, rest) => OutcomeIsEnding(Started(s, name), rest);
    case Cancels(name, rest) => OutcomeIsEnding(Cancelled(s, name), rest);
    case Lets(id, inner, rest) => OutcomeIsEnding(Dispatched(s, id, inner), rest);
  }

  predicate Quiet(b: Behaviour) {
    match b
    case Returns(_) => true
    case Raises => false
    case Starts(_, rest) => Quiet(rest)
    case Cancels(_, rest) => Quiet(rest)
    case Lets(_, inner, rest) => Quiet(inner) && Quiet(rest)
  }

  /** Nothing that a nested main loop dispatches raises; the callback itself may. */
  predicate CalmInside(b: Behaviour) {
    match b
    case Returns(_) => true
    case Raises => true
    case Starts(_, rest) => CalmInside(rest)
    case Cancels(_, rest) => CalmInside(rest)
    case Lets(_, inner, rest) => Quiet(inner) && CalmInside(rest)
  }

  lemma QuietIsCalm(b: Behaviour)
    requires Quiet(b)
    ensures CalmInside(b)
  {
  }

  /** Every source of the main loop is the one on record for its name. */
  ghost predicate Recorded(s: State) {
    && s.next > 0
    && (forall id :: id in s.live ==> 0 < id < s.next && s.live[id] in s.timers && s.timers[s.live[id]] == id)
    && (forall name :: name in s.timers ==> 0 < s.timers[name] < s.next)
    && (forall name :: name in s.timers && s.timers[name] in s.live ==> s.live[s.timers[name]] == name)
    && (forall m, n :: m in s.timers && n in s.timers && m != n ==> s.timers[m] != s.timers[n])
  }

  /** The record under `name` points at nothing. */
  predicate Stale(s: State, name: Name) {
    name in s.timers && s.timers[name] !in s.live
  }

  /** The tracker and the main loop agree: records and sources are the same pairs. */
  ghost predicate Agrees(s: State) {
    Recorded(s) && forall name :: name in s.timers ==> s.timers[name] in s.live
  }

  lemma CancelledKeeps(s: State, name: Name)
    requires Recorded(s)
    ensures Recorded(Cancelled(s, name)) && (Agrees(s) ==> Agrees(Cancelled(s, name)))
    ensures var t := Cancelled(s, name); name !in t.timers && forall id :: id in t.live ==> t.live[id] != name
  {
  }

  /** Source `id` is one of timer `name`. */
  predicate Has(s: State, name: Name, id: nat) {
    id in s.live && s.live[id] == name
  }

  /** A cancellation takes away the source of its name and no other. */
  lemma CancelledExactly(s: State, name: Name)
    requires Recorded(s)
    ensures forall n, id :: Has(Cancelled(s, name), n, id) <==> n != name && Has(s, n, id)
  {
    CancelledKeeps(s, name);
  }

  /** A start replaces it by a new one. */
  lemma StartedExactly(s: State, name: Name)
    requires Recorded(s)
    ensures forall n, id :: Has(Started(s, name), n, id) <==> if n == name then id == s.next else Has(s, n, id)
  {
    CancelledExactly(s, name);
    assert forall n, id :: Has(Started(s, name), n, id) <==>
      if id == s.next then n == name else Has(Cancelled(s, name), n, id);
  }

  /** One more source, under a name that has none. */
  function Added(s: State, name: Name): State {
    State(s.timers[name := s.next], s.live[s.next := name], s.next + 1)
  }

  lemma AddedKeeps(s: State, name: Name)
    requires Recorded(s) && name !in s.timers
    ensures Recorded(Added(s, name)) && (Agrees(s) ==> Agrees(Added(s, name)))
  {
    assert s.next !in s.live;
  }

  lemma StartedKeeps(s: State, name: Name)
    requires Recorded(s)
    ensures Recorded(Started(s, name)) && (Agrees(s) ==> Agrees(Started(s, name)))
  {
    CancelledKeeps(s, name);
    AddedKeeps(Cancelled(s, name), name);
    hide Recorded, Agrees, Cancelled;
    assert Started(s, name) == Added(Cancelled(s, name), name);
  }

  /** Starting or cancelling a timer ends a stale record under its name and leaves every other as it is. */
  lemma StaleEnds(s: State, name: Name)
    requires Recorded(s)
    ensures !Stale(Cancelled(s, name), name) && !Stale(Started(s, name), name)
    ensures forall n :: n != name ==>
      (Stale(s, n) <==> Stale(Cancelled(s, name), n)) && (Stale(s, n) <==> Stale(Started(s, name), n))
  {
  }

  /** Between `s` and `t` ids grew, and no id from before came back as a source or under another name. */
  ghost predicate Later(s: State, t: State) {
    && t.next >= s.next
    && (forall id :: id in t.live && id < s.next ==> id in s.live)
    && (forall n :: n in t.timers && t.timers[n] < s.next ==> n in s.timers && s.timers[n] == t.timers[n])
  }

  lemma LaterIsTransitive(s: State, t: State, u: State)
    requires Later(s, t) && Later(t, u)
    ensures Later(s, u)
  {
  }

  lemma CallsAreLater(s: State, name: Name, id: nat)
    ensures Later(s, s) && Later(s, Cancelled(s, name)) && Later(s, Started(s, name))
    ensures Later(s, Dropped(s, id))
  {
  }

  /** Every source stays on record whatever callbacks do, and source ids are not used again. */
  lemma {:induction false} RanKeepsRecorded(s: State, b: Behaviour)
    requires Recorded(s)
    ensures Recorded(Ran(s, b).0) && Later(s, Ran(s, b).0)
    decreases b, 0
  {
    hide Recorded, Later, Cancelled, Started;
    match b
    case Returns(_) => CallsAreLater(s, "", 0);
    case Raises => CallsAreLater(s, "", 0);
    case Starts(name, rest) =>
      StartedKeeps(s, name);
      CallsAreLater(s, name, 0);
      RanKeepsRecorded(Started(s, name), rest);
      LaterIsTransitive(s, Started(s, name), Ran(s, b).0);
    case Cancels(name, rest) =>
      CancelledKeeps(s, name);
      CallsAreLater(s, name, 0);
      RanKeepsRecorded(Cancelled(s, name), rest);
      LaterIsTransitive(s, Cancelled(s, name), Ran(s, b).0);
    case Lets(id, inner, rest) =>
      DispatchedKeepsRecorded(s, id, inner);
      RanKeepsRecorded(Dispatched(s, id, inner), rest);
      LaterIsTransitive(s, Dispatched(s, id, inner), Ran(s, b).0);
  }

  lemma {:induction false} DispatchedKeepsRecorded(s: State, id: nat, b: Behaviour)
    requires Recorded(s)
    ensures Recorded(Dispatched(s, id, b)) && Later(s, Dispatched(s, id, b))
    decreases b, 1
  {
    hide Recorded, Later, Ended;
    if id in s.live {
      var (after, outcome) := Ran(s, b);
      RanKeepsRecorded(s, b);
      EndedKeepsRecorded(after, s.live[id], id, outcome);
      LaterIsTransitive(s, after, Dispatched(s, id, b));
    } else {
      CallsAreLater(s, "", 0);
    }
  }

  lemma EndedKeepsRecorded(s: State, name: Name, id: nat, outcome: Outcome)
    requires Recorded(s)
    ensures Recorded(Ended(s, name, id, outcome)) && Later(s, Ended(s, name, id, outcome))
  {
    hide Recorded, Later, Cancelled, Dropped;
    var gone := Cancelled(s, name);
    CallsAreLater(s, name, id);
    match outcome
    case Truthy =>
    case Falsy =>
      CancelledKeeps(s, name);
      DroppedKeeps(gone, id);
      CallsAreLater(gone, name, id);
      LaterIsTransitive(s, gone, Dropped(gone, id));
    case Raised => DroppedKeeps(s, id);
  }

  lemma DroppedKeeps(s: State, id: nat)
    requires Recorded(s)
    ensures Recorded(Dropped(s, id))
  {
  }

  /** When the wrapper cancels the name, the source that is going away is gone already or goes with it. */
  lemma {:induction false} NothingElseToRemove(s: State, id: nat, b: Behaviour)
    requires Recorded(s) && id in s.live
    ensures id !in Cancelled(Ran(s, b).0, s.live[id]).live
  {
    RanKeepsRecorded(s, b);
    var after, name := Ran(s, b).0, s.live[id];
    CancelledKeeps(after, name);
    if id in after.live {
      var other := after.live[id];
      assert after.timers[other] == id;
      assert s.timers[other] == id && s.timers[name] == id;
      assert other == name;
    }
  }

  /** Main result: while no callback raises, the tracker and the main loop agree after every callback and
      every dispatch, nested ones included. */
  lemma {:induction false} RanKeepsAgrees(s: State, b: Behaviour)
    requires Agrees(s) && CalmInside(b)
    ensures Agrees(Ran(s, b).0)
    ensures Quiet(b) <==> Ran(s, b).1 != Raised
    decreases b, 0
  {
    match b
    case Returns(_) =>
    case Raises =>
    case Starts(name, rest) => StartedKeeps(s, name); RanKeepsAgrees(Started(s, name), rest);
    case Cancels(name, rest) => CancelledKeeps(s, name); RanKeepsAgrees(Cancelled(s, name), rest);
    case Lets(id, inner, rest) =>
      DispatchedKeepsAgrees(s, id, inner);
      RanKeepsAgrees(Dispatched(s, id, inner), rest);
  }

  lemma {:induction false} DispatchedKeepsAgrees(s: State, id: nat, b: Behaviour)
    requires Agrees(s) && Quiet(b)
    ensures Agrees(Dispatched(s, id, b))
    decreases b, 1
  {
    if id in s.live {
      QuietIsCalm(b);
      RanKeepsAgrees(s, b);
      CancelledKeeps(Ran(s, b).0, s.live[id]);
      NothingElseToRemove(s, id, b);
      var c := Cancelled(Ran(s, b).0, s.live[id]);
      assert c.live - {id} == c.live;
    }
  }

  /** A callback that returns a falsy value leaves no record and no source for its name, even when it has
      started that timer anew. */
  lemma {:induction false} FalsyLeavesNone(s: State, id: nat, b: Behaviour)
    requires Recorded(s) && id in s.live && Ending(b) == Returns(false)
    ensures var t := Dispatched(s, id, b);
      s.live[id] !in t.timers && forall i :: i in t.live ==> t.live[i] != s.live[id]
  {
    RanKeepsRecorded(s, b);
    OutcomeIsEnding(s, b);
    CancelledKeeps(Ran(s, b).0, s.live[id]);
  }

  /** The same for a source that a nested main loop dispatches. */
  lemma {:induction false} NestedFalsyLeavesNone(s: State, id: nat, inner: Behaviour, ending: bool)
    requires Recorded(s) && id in s.live && Ending(inner) == Returns(false)
    ensures var t := Ran(s, Lets(id, inner, Returns(ending))).0;
      s.live[id] !in t.timers && forall i :: i in t.live ==> t.live[i] != s.live[id]
  {
    FalsyLeavesNone(s, id, inner);
  }

  /** Main result: a callback that raises, with none raising inside it, breaks the agreement exactly when it
      did not cancel its own timer or start it anew before; then its record, and no other, is stale. */
  lemma {:induction false} RaisingLeavesStale(s: State, id: nat, b: Behaviour)
    requires Agrees(s) && id in s.live && CalmInside(b) && !Quiet(b)
    ensures Agrees(Dispatched(s, id, b)) <==> id !in Ran(s, b).0.live
    ensures forall n :: Stale(Dispatched(s, id, b), n) <==> n == s.live[id] && id in Ran(s, b).0.live
  {
    RanKeepsAgrees(s, b);
    RanKeepsRecorded(s, b);
    DroppedStale(s, Ran(s, b).0, id);
  }

  lemma DroppedStale(s: State, after: State, id: nat)
    requires Agrees(s) && id in s.live && Agrees(after)
    requires forall n :: n in after.timers && after.timers[n] < s.next ==>
      n in s.timers && s.timers[n] == after.timers[n]
    ensures var t := after.(live := after.live - {id});
      && (Agrees(t) <==> id !in after.live)
      && forall n :: Stale(t, n) <==> n == s.live[id] && id in after.live
  {
    var name, t := s.live[id], after.(live := after.live - {id});
    DroppedKeeps(after, id);
    if id in after.live {
      assert after.timers[after.live[id]] == id;
      assert s.timers[after.live[id]] == id;
      assert after.live[id] == name;
      assert Stale(t, name);
    } else {
      assert t.live == after.live;
    }
  }

  // ------------------------------------------------------------------ flat callbacks, name by name

  datatype Last = Untouched | LastStarted | LastCancelled

  /** What the callback itself did to `name` last. */
  function LastDone(b: Behaviour, name: Name, so_far: Last): Last {
    match b
    case Starts(n, rest) => LastDone(rest, name, if n == name then LastStarted else so_far)
    case Cancels(n, rest) => LastDone(rest, name, if n == name then LastCancelled else so_far)
    case _ => so_far
  }

  /** No nested main loop. */
  predicate Flat(b: Behaviour) {
    match b
    case Returns(_) => true
    case Raises => true
    case Starts(_, rest) => Flat(rest)
    case Cancels(_, rest) => Flat(rest)
    case Lets(_, _, _) => false
  }

  /** What name `name` stands for at the end, seen from `was` at the beginning. */
  ghost predicate Reflects(was: State, now: State, name: Name, last: Last) {
    match last
    case Untouched => if name in was.timers then name in now.timers && now.timers[name] == was.timers[name]
                      else name !in now.timers
    case LastStarted => name in now.timers && now.timers[name] >= was.next
    case LastCancelled => name !in now.timers
  }

  /** The last thing a callback does to a timer decides about it, and it decides about no other timer. */
  lemma {:induction false} LastActionDecides(was: State, s: State, b: Behaviour, name: Name, so_far: Last)
    requires Recorded(s) && Flat(b) && s.next >= was.next && Reflects(was, s, name, so_far)
    ensures Reflects(was, Ran(s, b).0, name, LastDone(b, name, so_far))
    decreases b
  {
    match b
    case Returns(_) =>
    case Raises =>
    case Starts(n, rest) =>
      StartedKeeps(s, n);
      LastActionDecides(was, Started(s, n), rest, name, if n == name then LastStarted else so_far);
    case Cancels(n, rest) =>
      CancelledKeeps(s, n);
      LastActionDecides(was, Cancelled(s, n), rest, name, if n == name then LastCancelled else so_far);
  }

  /** Main result: what one dispatch does to every timer, for a callback without a nested main loop. */
  lemma {:induction false} DispatchDecides(s: State, id: nat, b: Behaviour, name: Name)
    requires Agrees(s) && Flat(b) && Quiet(b) && id in s.live
    ensures Reflects(s, Dispatched(s, id, b), name,
      if Ending(b) == Returns(false) && name == s.live[id] then LastCancelled else LastDone(b, name, Untouched))
  {
    QuietIsCalm(b);
    OutcomeIsEnding(s, b);
    RanKeepsAgrees(s, b);
    LastActionDecides(s, s, b, name, Untouched);
  }

  lemma FlatIsCalm(b: Behaviour)
    requires Flat(b)
    ensures CalmInside(b)
  {
  }

  /** Main result: the condition read off the callback alone.  One that raises leaves a stale record if and only
      if none of its calls was about its own timer. */
  lemma {:induction false} RaisingFlatLeavesStale(s: State, id: nat, b: Behaviour)
    requires Agrees(s) && id in s.live && Flat(b) && !Quiet(b)
    ensures Stale(Dispatched(s, id, b), s.live[id]) <==> LastDone(b, s.live[id], Untouched).Untouched?
    ensures Agrees(Dispatched(s, id, b)) <==> !LastDone(b, s.live[id], Untouched).Untouched?
  {
    FlatIsCalm(b);
    RaisingLeavesStale(s, id, b);
    RanKeepsAgrees(s, b);
    RanKeepsRecorded(s, b);
    var name := s.live[id];
    LastActionDecides(s, s, b, name, Untouched);
    hide Ran, Dispatched, LastDone;
    SameSource(s, Ran(s, b).0, id, LastDone(b, name, Untouched));
  }

  lemma SameSource(s: State, after: State, id: nat, last: Last)
    requires Agrees(s) && Agrees(after) && Later(s, after) && id in s.live && Reflects(s, after, s.live[id], last)
    ensures id in after.live <==> last.Untouched?
  {
    if id in after.live {
      assert after.timers[after.live[id]] == id;
      assert s.timers[after.live[id]] == id;
    }
  }

  // ------------------------------------------------------------------------------- whole runs

  datatype Event = Starting(name: Name) | Cancelling(name: Name) | Firing(id: nat, b: Behaviour)

  function Step(s: State, e: Event): State {
    match e
    case Starting(name) => Started(s, name)
    case Cancelling(name) => Cancelled(s, name)
    case Firing(id, b) => Dispatched(s, id, b)
  }

  /** What an event does to a timer last, from outside callbacks or within one. */
  ghost function LastOf(s: State, e: Event, name: Name): Last {
    match e
    case Starting(n) => if n == name then LastStarted else Untouched
    case Cancelling(n) => if n == name then LastCancelled else Untouched
    case Firing(id, b) =>
      if id !in s.live then Untouched
      else if Ending(b) == Returns(false) && s.live[id] == name then LastCancelled
      else LastDone(b, name, Untouched)
  }

  /** Each event makes every timer what the last call on its name says, and no call leaves it alone. */
  lemma EventDecides(s: State, e: Event, name: Name)
    requires Agrees(s) && (e.Firing? ==> Flat(e.b) && Quiet(e.b))
    ensures Reflects(s, Step(s, e), name, LastOf(s, e, name))
  {
    match e
    case Starting(n) => StartedKeeps(s, n);
    case Cancelling(n) => CancelledKeeps(s, n);
    case Firing(id, b) => if id in s.live { DispatchDecides(s, id, b, name); }
  }

  function After(s: State, events: seq<Event>): State {
    if events == [] then s else Step(After(s, events[..|events| - 1]), events[|events| - 1])
  }

  /** Main result: the same at any place of a run in which nothing has raised so far. */
  lemma {:induction false} RunDecides(events: seq<Event>, e: Event, name: Name)
    requires forall x :: x in events + [e] && x.Firing? ==> Quiet(x.b)
    requires e.Firing? ==> Flat(e.b)
    ensures var s := After(START, events);
      Reflects(s, After(START, events + [e]), name, LastOf(s, e, name))
  {
    EveryRunAgrees(events);
    EventDecides(After(START, events), e, name);
    assert e in events + [e] && (events + [e])[..|events|] == events;
    assert forall x :: x in events ==> x in events + [e];
  }

  /** Main result: at the end of every run there is at most one source for each name; and when no callback
      raised, its id is the one on record and every record is of a source. */
  lemma {:induction false} EveryRunAgrees(events: seq<Event>)
    ensures Recorded(After(START, events))
    ensures var live := After(START, events).live;
      forall i, j :: i in live && j in live && live[i] == live[j] ==> i == j
    ensures (forall e :: e in events && e.Firing? ==> Quiet(e.b)) ==> Agrees(After(START, events))
  {
    if events != [] {
      var before, e := events[..|events| - 1], events[|events| - 1];
      var s := After(START, before);
      EveryRunAgrees(before);
      match e {
        case Starting(name) => StartedKeeps(s, name);
        case Cancelling(name) => CancelledKeeps(s, name);
        case Firing(id, b) =>
          DispatchedKeepsRecorded(s, id, b);
          if Agrees(s) && Quiet(b) { DispatchedKeepsAgrees(s, id, b); }
      }
    }
  }

  // --------------------------------------------------------------------------------- the object

  /** What cancelling found. */
  datatype Found = NoSuchName | SourceRemoved | NoSuchSource

  class TimerTracker {
    var timers: map<Name, nat>
    var sources: map<nat, Name> // the main loop's, not the tracker's own
    var next_id: nat

    ghost function Value(): State reads this { State(timers, sources, next_id) }

    constructor ()
      ensures Value() == START
    {
      timers, sources, next_id := map[], map[], 1;
    }

    /** The branch for an id that is not valid is taken exactly for stale records; the record goes in any case. */
    method Cancel(name: Name) returns (found: Found)
      modifies this
      ensures Value() == Cancelled(old(Value()), name)
      ensures found.NoSuchSource? <==> Stale(old(Value()), name)
      ensures found.NoSuchName? <==> name !in old(timers)
      ensures Agrees(old(Value())) ==> !found.NoSuchSource?
    {
      if name !in timers { return NoSuchName; }
      found := NoSuchSource;
      if timers[name] in sources {
        sources := sources - {timers[name]};
        found := SourceRemoved;
      }
      assert sources == old(sources) - {timers[name]};
      timers := timers - {name};
    }

    /** Timeouts in milliseconds or seconds and idle callbacks, which are all sources with an id. */
    method StartTimer(name: Name)
      modifies this
      ensures Value() == Started(old(Value()), name)
    {
      var found := Cancel(name);
      var timeout_id := next_id;
      sources, next_id := sources[timeout_id := name], next_id + 1;
      timers := timers[name := timeout_id];
    }

    /** The callback itself. */
    method Perform(b: Behaviour) returns (outcome: Outcome)
      modifies this
      ensures (Value(), outcome) == Ran(old(Value()), b)
      decreases b, 0
    {
      match b
      case Returns(t) => outcome := if t then Truthy else Falsy;
      case Raises => outcome := Raised;
      case Starts(name, rest) =>
        StartTimer(name);
        outcome := Perform(rest);
      case Cancels(name, rest) =>
        var found := Cancel(name);
        outcome := Perform(rest);
      case Lets(id, inner, rest) =>
        Dispatch(id, inner);
        outcome := Perform(rest);
    }

    /** The wrapper: a falsy value cancels whatever timer has the name by now. */
    method DoCallback(b: Behaviour, name: Name) returns (outcome: Outcome)
      modifies this
      ensures outcome == Ran(old(Value()), b).1
      ensures Value() ==
        if outcome.Falsy? then Cancelled(Ran(old(Value()), b).0, name) else Ran(old(Value()), b).0
      decreases b, 1
    {
      outcome := Perform(b);
      if outcome.Falsy? {
        var found := Cancel(name);
      }
    }

    /** The main loop, which drops a source whose callback did not return true. */
    method Dispatch(id: nat, b: Behaviour)
      modifies this
      ensures Value() == Dispatched(old(Value()), id, b)
      decreases b, 2
    {
      if id !in sources { return; }
      var outcome := DoCallback(b, sources[id]);
      if !outcome.Truthy? {
        sources := sources - {id};
      }
    }

    method Turn(events: seq<Event>)
      modifies this
      ensures Value() == After(old(Value()), events)
    {
      for i := 0 to |events|
        invariant Value() == After(old(Value()), events[..i])
      {
        match events[i] {
          case Starting(name) => StartTimer(name);
          case Cancelling(name) => var found := Cancel(name);
          case Firing(id, b) => Dispatch(id, b);
        }
        assert events[..i + 1][..i] == events[..i];
      }
      assert events[..|events|] == events;
    }
  }
}
