/**
 Every run of the two processes and of everybody else's windows.

 The screensaver answers every other window; the backup locker stays quiet for the
 screensaver window.  Safety: a window that covers what it must not cover is always
 still waiting to be read.  Progress: a weight on the two queues falls with every
 notification read, so the two processes cannot keep each other busy.
 */
module StackingProtocol {
  import opened WindowStacking

  datatype System = System(server: Server, saver: Filter, backup: Filter)

  datatype Step =
    | SaverReads
    | BackupReads(moves: bool)            // `moves`: on a new screen size it resizes its own window
    | Create(name: WmName, fcitx: bool)   // somebody creates a window, on top and unmapped
    | Map(x: nat)
    | Unmap(x: nat)
    | Configure(x: nat, pos: nat)         // somebody moves or restacks a window
    | Destroy(x: nat)
    | ResizeRoot
    | Refresh                             // the manager replaces its Stage window
    | SaverMoves                          // the screensaver moves or resizes its own window
    | BackupMoves                         // so does the backup locker
    | SpawnBackup(told: nat, moves: bool) // a backup locker starts that was told of stage window `told`
    | RecreateBackup(moves: bool)         // it realizes its window anew, under another XID
    | KillBackup

  /** A window neither process owns. */
  predicate Foreign(sys: System, x: nat) {
    && x in sys.server.attrs
    && x != sys.saver.my_xid
    && !(sys.server.backupRuns && x == sys.backup.my_xid)
  }

  /** A new backup was told of the stage there is, or of an earlier one that was replaced while it started. */
  predicate MayBeTold(sys: System, x: nat) {
    ROOT < x < sys.server.next && (x in sys.server.attrs ==> x == sys.saver.my_xid)
  }

  /** What the screensaver's filter takes no notice of. */
  predicate SaverOverlooks(a: Attributes) {
    a.name == GrabberName
  }

  /** And the backup's: any window that is titled like the screensaver's, whoever made it, included. */
  predicate BackupOverlooks(a: Attributes) {
    a.name == GrabberName || a.name == SaverName || a.fcitx
  }

  const RESIZED: Event := Event(ConfigureNotify, ROOT)

  function Created(sv: Server, attributes: Attributes): Server {
    sv.(stack := sv.stack + [sv.next], attrs := sv.attrs[sv.next := attributes], next := sv.next + 1)
  }

  function Destroyed(sv: Server, x: nat): Server {
    sv.(stack := Without(sv.stack, x), attrs := sv.attrs - {x})
  }

  function Mapped(sv: Server, x: nat, on: bool): Server
    requires x in sv.attrs
  {
    sv.(attrs := sv.attrs[x := sv.attrs[x].(mapped := on)])
  }

  /** One step; a step that is not possible leaves the system alone. */
  function Next(sys: System, step: Step): System {
    var sv := sys.server;
    match step
    case SaverReads =>
      if sv.saverQueue == [] then sys else
        var (f, sv') := Handled(sys.saver, sv.(saverQueue := sv.saverQueue[1..]), sv.saverQueue[0]);
        System(sv', f, sys.backup)
    case BackupReads(moves) =>
      if sv.backupQueue == [] then sys else
        var e := sv.backupQueue[0];
        var (f, sv') := Handled(sys.backup, sv.(backupQueue := sv.backupQueue[1..]), e);
        var sv'' := if moves && e == RESIZED then Post(sv', Event(ConfigureNotify, sys.backup.my_xid)) else sv';
        System(sv'', sys.saver, f)
    case Create(name, fcitx) =>
      sys.(server := Created(sv, Attributes(false, name, fcitx)))
    case Map(x) =>
      if !Foreign(sys, x) || sv.attrs[x].mapped then sys
      else sys.(server := Post(Mapped(sv, x, true), Event(MapNotify, x)))
    case Unmap(x) =>
      if !Foreign(sys, x) then sys else sys.(server := Mapped(sv, x, false))
    case Configure(x, pos) =>
      if !Foreign(sys, x) then sys
      else sys.(server := Post(sv.(stack := MoveTo(sv.stack, x, pos)), Event(ConfigureNotify, x)))
    case Destroy(x) =>
      if !Foreign(sys, x) then sys else sys.(server := Destroyed(sv, x))
    case ResizeRoot =>
      sys.(server := Post(sv, RESIZED))
    case SaverMoves =>
      sys.(server := Post(sv, Event(ConfigureNotify, sys.saver.my_xid)))
    case BackupMoves =>
      if !sv.backupRuns then sys else sys.(server := Post(sv, Event(ConfigureNotify, sys.backup.my_xid)))
    case Refresh =>
      // The new Stage is realized, starts its filter and is mapped; then the old one is destroyed.
      var x := sv.next;
      var (f, sv') := Restacked(Filter(x, 0, false), Created(sv, Attributes(true, SaverName, false)), 0);
      System(Destroyed(Post(sv', Event(MapNotify, x)), sys.saver.my_xid), f, sys.backup)
    case SpawnBackup(pretty, moves) =>
      // The window is realized and given its size, then the filter starts to listen, then the window is mapped.
      if sv.backupRuns || !MayBeTold(sys, pretty) then sys else
        var x := sv.next;
        var sv0 := Created(sv, Attributes(true, NoName, false));
        var sv1 := if moves then Post(sv0, Event(ConfigureNotify, x)) else sv0;
        var sv2 := sv1.(backupRuns := true, backupQueue := []);
        var (f, sv') := Restacked(Filter(x, pretty, true), sv2, pretty);
        System(Post(sv', Event(MapNotify, x)), sys.saver, f)
    case RecreateBackup(moves) =>
      if !sv.backupRuns then sys else
        var x, pretty := sv.next, sys.backup.pretty_xid;
        var sv0 := Created(Destroyed(sv, sys.backup.my_xid), Attributes(true, NoName, false));
        var sv1 := if moves then Post(sv0, Event(ConfigureNotify, x)) else sv0;
        var (f, sv') := Restacked(Filter(x, pretty, true), sv1, pretty);
        System(Post(sv', Event(MapNotify, x)), sys.saver, f)
    case KillBackup =>
      if !sv.backupRuns then sys
      else sys.(server := Destroyed(sv, sys.backup.my_xid).(backupRuns := false, backupQueue := []))
  }

  function Run(sys: System, steps: seq<Step>): System
    decreases |steps|
  {
    if steps == [] then sys else Run(Next(sys, steps[0]), steps[1..])
  }

  /** `t` is `s` with `e` announced to both processes, and maybe other windows and another order. */
  predicate Announced(s: Server, t: Server, e: Event) {
    && t.saverQueue == s.saverQueue + [e]
    && t.backupQueue == (if s.backupRuns then s.backupQueue + [e] else s.backupQueue)
    && t.backupRuns == s.backupRuns && t.next == s.next
  }

  /** What others do with their windows: a map and a restack are announced, with the window where it was put;
      unmapping and destroying are not. */
  lemma MapReaches(sys: System, x: nat)
    requires WellFormed(sys) && Foreign(sys, x)
    ensures var s, t := sys.server, Next(sys, Map(x)).server;
      if s.attrs[x].mapped then t == s
      else
        && Announced(s, t, Event(MapNotify, x))
        && t.attrs == s.attrs[x := s.attrs[x].(mapped := true)] && t.stack == s.stack
    ensures var s, t := sys.server, Next(sys, Unmap(x)).server;
      t == s.(attrs := s.attrs[x := s.attrs[x].(mapped := false)])
  {
    hide WellFormed;
  }

  lemma RestackReaches(sys: System, x: nat, pos: nat)
    requires Foreign(sys, x)
    ensures var s, t := sys.server, Next(sys, Configure(x, pos)).server;
      && Announced(s, t, Event(ConfigureNotify, x)) && t.attrs == s.attrs
      && t.stack != [] && t.stack[if pos < |t.stack| then pos else |t.stack| - 1] == x
  {
    MovePlaces(sys.server.stack, x, pos);
    hide MoveTo;
  }

  lemma DestroyReaches(sys: System, x: nat)
    requires Foreign(sys, x)
    ensures var s, t := sys.server, Next(sys, Destroy(x)).server;
      t == s.(attrs := s.attrs - {x}, stack := t.stack) && forall y :: y in t.stack <==> y in s.stack && y != x
  {
  }

  /** What the processes hear of the screen's size and of moves of their own windows, and what the end of the backup
      leaves. */
  lemma OwnStepsReach(sys: System)
    requires WellFormed(sys)
    ensures Announced(sys.server, Next(sys, ResizeRoot).server, RESIZED)
    ensures Announced(sys.server, Next(sys, SaverMoves).server, Event(ConfigureNotify, sys.saver.my_xid))
    ensures sys.server.backupRuns ==>
      Announced(sys.server, Next(sys, BackupMoves).server, Event(ConfigureNotify, sys.backup.my_xid))
    ensures sys.server.backupRuns ==>
      var t := Next(sys, KillBackup).server;
      !t.backupRuns && t.backupQueue == [] && t.saverQueue == sys.server.saverQueue
      && sys.backup.my_xid !in t.attrs && sys.backup.my_xid !in t.stack
  {
  }

  /** A backup that reads of a new size may resize itself, of which both hear. */
  lemma ResizeReaches(sys: System, moves: bool)
    requires WellFormed(sys) && sys.server.backupQueue != [] && sys.server.backupQueue[0] == RESIZED
    ensures var rest := sys.server.(backupQueue := sys.server.backupQueue[1..]);
      var t := Next(sys, BackupReads(moves));
      t.backup == sys.backup
      && if moves then Announced(rest, t.server, Event(ConfigureNotify, sys.backup.my_xid)) else t.server == rest
  {
  }

  // -------------------------------------------------------------------------- safety

  /** A mapped window shown over the screensaver, other than an event grabber's. */
  ghost predicate CoversSaver(sys: System, x: nat) {
    && x in sys.server.attrs
    && sys.server.attrs[x].mapped
    && !SaverOverlooks(sys.server.attrs[x])
    && Above(sys.server.stack, x, sys.saver.my_xid)
  }

  /** A mapped foreign window shown over the backup locker, other than an event grabber's, fcitx's or one that is
      titled like the screensaver's. */
  ghost predicate CoversBackup(sys: System, x: nat) {
    && sys.server.backupRuns
    && Foreign(sys, x)
    && sys.server.attrs[x].mapped
    && !BackupOverlooks(sys.server.attrs[x])
    && Above(sys.server.stack, x, sys.backup.my_xid)
  }

  ghost predicate Pending(q: seq<Event>, x: nat) {
    exists j :: 0 <= j < |q| && q[j].window == x
  }

  ghost predicate WellFormed(sys: System) {
    var sv := sys.server;
    && Distinct(sv.stack)
    && (forall x :: x in sv.stack <==> x in sv.attrs)
    && ROOT < sv.next
    && (forall x :: x in sv.attrs ==> ROOT < x < sv.next)
    && sys.saver.my_xid in sv.attrs
    && !sys.saver.we_are_backup_window
    && !sv.attrs[sys.saver.my_xid].fcitx
    && sv.attrs[sys.saver.my_xid].name == SaverName
    && (sv.backupRuns ==>
      && sys.backup.we_are_backup_window
      && sys.backup.my_xid in sv.attrs
      && sys.backup.my_xid != sys.saver.my_xid
      && sys.backup.pretty_xid < sv.next
      && !BackupOverlooks(sv.attrs[sys.backup.my_xid])
      && (sys.backup.pretty_xid in sv.attrs ==> BackupOverlooks(sv.attrs[sys.backup.pretty_xid])))
    && (!sv.backupRuns ==> sv.backupQueue == [])
  }

  /** Each violation is tied to a notification that is still to be read. */
  ghost predicate Inv(sys: System) {
    && WellFormed(sys)
    && (forall x :: CoversSaver(sys, x) ==> Pending(sys.server.saverQueue, x))
    && (forall x :: CoversBackup(sys, x) ==> Pending(sys.server.backupQueue, x))
  }

  /** A Stage that has just started: on top, with no backup locker yet. */
  ghost predicate Init(sys: System) {
    && WellFormed(sys)
    && !sys.server.backupRuns
    && sys.server.stack[|sys.server.stack| - 1] == sys.saver.my_xid
  }

  lemma NothingAboveTop(s: seq<nat>, x: nat)
    requires Distinct(s) && s != [] && s[|s| - 1] == x
    ensures forall a :: !Above(s, a, x)
  {
  }

  lemma NothingAboveSelf(s: seq<nat>, x: nat)
    requires Distinct(s)
    ensures !Above(s, x, x)
  {
  }

  lemma PendingRest(q: seq<Event>, x: nat)
    requires q != []
    ensures Pending(q, x) <==> q[0].window == x || Pending(q[1..], x)
  {
    if Pending(q[1..], x) {
      var j :| 0 <= j < |q[1..]| && q[1..][j].window == x;
      assert q[j + 1].window == x;
    }
    if Pending(q, x) && q[0].window != x {
      var j :| 0 <= j < |q| && q[j].window == x;
      assert q[1..][j - 1].window == x;
    }
  }

  lemma PendingPost(q: seq<Event>, e: Event)
    ensures forall x :: Pending(q, x) ==> Pending(q + [e], x)
    ensures Pending(q + [e], e.window)
  {
    assert (q + [e])[|q|] == e;
    forall x | Pending(q, x) ensures Pending(q + [e], x) {
      var j :| 0 <= j < |q| && q[j].window == x;
      assert (q + [e])[j].window == x;
    }
  }

  /** What raising a window does to a server: it ends on top, no other window changes place. */
  lemma RaisedFacts(sv: Server, x: nat)
    requires Distinct(sv.stack) && x in sv.stack
    ensures var r := Raised(sv, x);
      && Distinct(r.stack)
      && r.attrs == sv.attrs && r.next == sv.next && r.backupRuns == sv.backupRuns
      && (forall y :: y in r.stack <==> y in sv.stack)
      && (forall a :: !Above(r.stack, a, x))
      && (forall a, b :: a != x && b != x && Above(r.stack, a, b) ==> Above(sv.stack, a, b))
      && (forall y :: Pending(sv.saverQueue, y) ==> Pending(r.saverQueue, y))
      && (forall y :: Pending(sv.backupQueue, y) ==> Pending(r.backupQueue, y))
      && (r.stack != sv.stack ==> Pending(r.saverQueue, x) && (sv.backupRuns ==> Pending(r.backupQueue, x)))
      && (!sv.backupRuns ==> r.backupQueue == sv.backupQueue)
  {
    var r := Raised(sv, x);
    MoveKeepsOrder(sv.stack, x, |sv.stack|);
    PendingPost(sv.saverQueue, Event(ConfigureNotify, x));
    PendingPost(sv.backupQueue, Event(ConfigureNotify, x));
    NothingAboveTop(r.stack, x);
  }

  lemma SaverReadsKeepsInv(sys: System)
    requires Inv(sys) && sys.server.saverQueue != []
    ensures Inv(Next(sys, SaverReads))
  {
    hide Above, Pending, Distinct, Without, MoveTo;
    var sv, e := sys.server, sys.server.saverQueue[0];
    var sv0 := sv.(saverQueue := sv.saverQueue[1..]);
    var sys' := Next(sys, SaverReads);
    RaisedFacts(sv0, sys.saver.my_xid);
    NothingAboveSelf(sv.stack, sys.saver.my_xid);
    forall x | CoversSaver(sys', x) ensures Pending(sys'.server.saverQueue, x) {
      assert CoversSaver(sys, x);
      PendingRest(sv.saverQueue, x);
    }
    forall x | CoversBackup(sys', x) ensures Pending(sys'.server.backupQueue, x) {
      assert CoversBackup(sys, x);
    }
  }

  /** Main result, which windows the backup answers: all but its own, grabbers', fcitx's and those titled like the
      screensaver's. */
  lemma BackupAnswersExactly(sys: System, e: Event)
    requires WellFormed(sys) && sys.server.backupRuns && e.window in sys.server.attrs
    ensures !Skips(sys.backup, sys.server, e) && Answers(sys.backup, sys.server, e.window) <==>
      e.window != sys.backup.my_xid && !BackupOverlooks(sys.server.attrs[e.window])
  {
  }

  /** And the screensaver: all but its own and grabbers'. */
  lemma SaverAnswersExactly(sys: System, e: Event)
    requires WellFormed(sys) && e.window in sys.server.attrs
    ensures !Skips(sys.saver, sys.server, e) && Answers(sys.saver, sys.server, e.window) <==>
      e.window != sys.saver.my_xid && !SaverOverlooks(sys.server.attrs[e.window])
  {
  }

  /** A window titled like the screensaver's is adopted and never risen over, whoever made it. */
  lemma TitledIsAdopted(sys: System, moves: bool)
    requires WellFormed(sys) && sys.server.backupQueue != []
    requires var x := sys.server.backupQueue[0].window;
      x in sys.server.attrs && x != sys.backup.my_xid
      && sys.server.attrs[x].name == SaverName && !sys.server.attrs[x].fcitx
    ensures var q, t := sys.server.backupQueue, Next(sys, BackupReads(moves));
      && t.server == sys.server.(backupQueue := q[1..]) && t.saver == sys.saver
      && t.backup == sys.backup.(pretty_xid := q[0].window)
  {
  }

  lemma BackupReadsKeepsInv(sys: System, moves: bool)
    requires Inv(sys) && sys.server.backupQueue != []
    ensures Inv(Next(sys, BackupReads(moves)))
  {
    hide Above, Pending, Distinct, Without, MoveTo;
    var sv, e := sys.server, sys.server.backupQueue[0];
    var sv0 := sv.(backupQueue := sv.backupQueue[1..]);
    var sys' := Next(sys, BackupReads(moves));
    RaisedFacts(sv0, sys.backup.my_xid);
    PendingPost(sv0.saverQueue, Event(ConfigureNotify, sys.backup.my_xid));
    PendingPost(sv0.backupQueue, Event(ConfigureNotify, sys.backup.my_xid));
    forall x | CoversSaver(sys', x) ensures Pending(sys'.server.saverQueue, x) {
      assert x != sys.backup.my_xid ==> CoversSaver(sys, x);
      assert sys'.server.stack == sv.stack ==> CoversSaver(sys, x);
    }
    forall x | CoversBackup(sys', x) ensures Pending(sys'.server.backupQueue, x) {
      assert CoversBackup(sys, x);
      PendingRest(sv.backupQueue, x);
    }
  }

  /** Creating a window on top or destroying one keeps the order of all the others. */
  lemma CreatedFacts(sv: Server, attributes: Attributes)
    requires Distinct(sv.stack) && sv.next !in sv.stack
    ensures var r := Created(sv, attributes);
      && Distinct(r.stack)
      && (forall y :: y in r.stack <==> y in sv.stack || y == sv.next)
      && (forall a :: !Above(r.stack, a, sv.next))
      && (forall a, b :: a != sv.next && Above(r.stack, a, b) ==> Above(sv.stack, a, b))
  {
    var r := Created(sv, attributes);
    assert forall j :: 0 <= j < |sv.stack| ==> r.stack[j] == sv.stack[j];
    forall a, b | a != sv.next && Above(r.stack, a, b) ensures Above(sv.stack, a, b) {
      var i, k :| 0 <= i < k < |r.stack| && r.stack[i] == b && r.stack[k] == a;
      assert sv.stack[i] == b && sv.stack[k] == a;
    }
    NothingAboveTop(r.stack, sv.next);
  }

  lemma DestroyedFacts(sv: Server, x: nat)
    requires Distinct(sv.stack)
    ensures var r := Destroyed(sv, x);
      && Distinct(r.stack)
      && (forall y :: y in r.stack <==> y in sv.stack && y != x)
      && (forall a, b :: Above(r.stack, a, b) ==> Above(sv.stack, a, b))
  {
    WithoutIsDistinct(sv.stack, x);
    forall a, b | Above(Destroyed(sv, x).stack, a, b) ensures Above(sv.stack, a, b) {
      WithoutKeepsOrder(sv.stack, x, a, b);
    }
  }

  /** Steps that nobody is notified of put nothing over anybody. */
  lemma SilentKeepsInv(sys: System, step: Step)
    requires Inv(sys) && (step.Create? || step.Unmap?)
    ensures Inv(Next(sys, step))
  {
    hide Above, Pending, Distinct, Without, MoveTo;
    var sv, sys' := sys.server, Next(sys, step);
    if step.Create? { CreatedFacts(sv, Attributes(false, step.name, step.fcitx)); }
    forall y | CoversSaver(sys', y) ensures CoversSaver(sys, y) {}
    forall y | CoversBackup(sys', y) ensures CoversBackup(sys, y) {}
  }

  lemma DestroyKeepsInv(sys: System, x: nat)
    requires Inv(sys)
    ensures Inv(Next(sys, Destroy(x)))
  {
    hide Above, Pending, Distinct, Without, MoveTo;
    var sys' := Next(sys, Destroy(x));
    DestroyedFacts(sys.server, x);
    forall y | CoversSaver(sys', y) ensures CoversSaver(sys, y) {}
    forall y | CoversBackup(sys', y) ensures CoversBackup(sys, y) {}
  }

  /** The others put at most the window they move over anybody, and notify both of it. */
  lemma NotifiedKeepsInv(sys: System, step: Step)
    requires Inv(sys)
    requires step.Map? || step.Configure? || step.ResizeRoot? || step.SaverMoves? || step.BackupMoves?
    ensures Inv(Next(sys, step))
  {
    hide Above, Pending, Distinct, Without, MoveTo;
    var sv, sys' := sys.server, Next(sys, step);
    var e := match step
             case Map(x) => Event(MapNotify, x)
             case Configure(x, _) => Event(ConfigureNotify, x)
             case SaverMoves => Event(ConfigureNotify, sys.saver.my_xid)
             case BackupMoves => Event(ConfigureNotify, sys.backup.my_xid)
             case _ => RESIZED;
    PendingPost(sv.saverQueue, e);
    PendingPost(sv.backupQueue, e);
    if step.Configure? { MoveKeepsOrder(sv.stack, step.x, step.pos); }
    forall y | CoversSaver(sys', y) ensures Pending(sys'.server.saverQueue, y) {
      assert CoversSaver(sys, y) || y == e.window;
    }
    forall y | CoversBackup(sys', y) ensures Pending(sys'.server.backupQueue, y) {
      assert CoversBackup(sys, y) || y == e.window;
    }
  }

  lemma PendingAnnounced(q: seq<Event>, x: nat, moves: bool)
    ensures var r := (if moves then q + [Event(ConfigureNotify, x)] else q) + [Event(MapNotify, x)];
      Pending(r, x) && forall y :: Pending(q, y) ==> Pending(r, y)
  {
    hide Pending;
    PendingPost(q, Event(ConfigureNotify, x));
    PendingPost(if moves then q + [Event(ConfigureNotify, x)] else q, Event(MapNotify, x));
  }

  lemma SpawnKeepsInv(sys: System, told: nat, moves: bool)
    requires Inv(sys) && !sys.server.backupRuns && MayBeTold(sys, told)
    ensures Inv(Next(sys, SpawnBackup(told, moves)))
  {
    hide Above, Pending, Distinct, Without, MoveTo;
    var sv, sys' := sys.server, Next(sys, SpawnBackup(told, moves));
    CreatedFacts(sv, Attributes(true, NoName, false));
    PendingAnnounced(sv.saverQueue, sv.next, moves);
    hide Raised, MoveTo;
    forall y | CoversSaver(sys', y) ensures Pending(sys'.server.saverQueue, y) {
      assert CoversSaver(sys, y) || y == sv.next;
    }
  }

  /** A window is replaced by a new one on top. */
  lemma RecreatedFacts(sv: Server, old_xid: nat, attributes: Attributes)
    requires Distinct(sv.stack) && sv.next !in sv.stack
    ensures var r := Created(Destroyed(sv, old_xid), attributes);
      && Distinct(r.stack)
      && (forall y :: y in r.stack <==> (y in sv.stack && y != old_xid) || y == sv.next)
      && (forall a :: !Above(r.stack, a, sv.next))
      && (forall a, b :: a != sv.next && Above(r.stack, a, b) ==> Above(sv.stack, a, b))
  {
    DestroyedFacts(sv, old_xid);
    CreatedFacts(Destroyed(sv, old_xid), attributes);
    hide Above, Without, Distinct;
  }

  /** Starting again, the filter raises nothing: it is told of the window it knows. */
  lemma RecreatedSystem(sys: System, moves: bool)
    requires WellFormed(sys) && sys.server.backupRuns
    ensures var sv, t, x := sys.server, Next(sys, RecreateBackup(moves)), sys.server.next;
      var r := Created(Destroyed(sv, sys.backup.my_xid), Attributes(true, NoName, false));
      var news := (if moves then [Event(ConfigureNotify, x)] else []) + [Event(MapNotify, x)];
      && t.saver == sys.saver && t.backup == Filter(x, sys.backup.pretty_xid, true)
      && t.server == r.(saverQueue := sv.saverQueue + news, backupQueue := sv.backupQueue + news)
  {
    hide Distinct, Above, Without;
  }

  lemma RecreateIsWellFormed(sys: System, moves: bool)
    requires WellFormed(sys) && sys.server.backupRuns
    ensures WellFormed(Next(sys, RecreateBackup(moves)))
  {
    RecreatedFacts(sys.server, sys.backup.my_xid, Attributes(true, NoName, false));
    RecreatedSystem(sys, moves);
    hide Above, Distinct, Without, Next;
  }

  lemma RecreateCovers(sys: System, moves: bool, y: nat)
    requires WellFormed(sys) && sys.server.backupRuns
    ensures var t := Next(sys, RecreateBackup(moves));
      (CoversSaver(t, y) ==> CoversSaver(sys, y) || y == sys.server.next) && !CoversBackup(t, y)
  {
    RecreatedFacts(sys.server, sys.backup.my_xid, Attributes(true, NoName, false));
    RecreatedSystem(sys, moves);
    hide Above, Distinct, Without, Next;
  }

  lemma RecreateKeepsInv(sys: System, moves: bool)
    requires Inv(sys) && sys.server.backupRuns
    ensures Inv(Next(sys, RecreateBackup(moves)))
  {
    var sv, sys' := sys.server, Next(sys, RecreateBackup(moves));
    RecreateIsWellFormed(sys, moves);
    RecreatedSystem(sys, moves);
    PendingAnnounced(sv.saverQueue, sv.next, moves);
    SameAnnounced(sv.saverQueue, sv.next, moves);
    hide Above, Pending, Distinct, Without, MoveTo, Next, WellFormed, CoversSaver, CoversBackup;
    forall y | CoversSaver(sys', y) ensures Pending(sys'.server.saverQueue, y) {
      RecreateCovers(sys, moves, y);
    }
    forall y ensures !CoversBackup(sys', y) {
      RecreateCovers(sys, moves, y);
    }
  }

  lemma SameAnnounced(q: seq<Event>, x: nat, moves: bool)
    ensures (if moves then q + [Event(ConfigureNotify, x)] else q) + [Event(MapNotify, x)]
      == q + ((if moves then [Event(ConfigureNotify, x)] else []) + [Event(MapNotify, x)])
  {
  }

  lemma KillKeepsInv(sys: System)
    requires Inv(sys) && sys.server.backupRuns
    ensures Inv(Next(sys, KillBackup))
  {
    hide Above, Pending, Distinct, Without, MoveTo;
    DestroyedFacts(sys.server, sys.backup.my_xid);
    forall y | CoversSaver(Next(sys, KillBackup), y) ensures Pending(sys.server.saverQueue, y) {
      assert CoversSaver(sys, y);
    }
  }

  /** A new stage is on top, and the old one is gone. */
  lemma ReplacedFacts(sv: Server, old_xid: nat)
    requires Distinct(sv.stack) && sv.next !in sv.stack
    ensures var sv0 := Created(sv, Attributes(true, SaverName, false));
      var t := Destroyed(Post(sv0, Event(MapNotify, sv.next)), old_xid);
      && Raised(sv0, sv.next) == sv0
      && Distinct(t.stack)
      && (forall y :: y in t.stack <==> (y in sv.stack || y == sv.next) && y != old_xid)
      && (forall a :: !Above(t.stack, a, sv.next))
      && (forall a, b :: a != sv.next && Above(t.stack, a, b) ==> Above(sv.stack, a, b))
  {
    var sv0 := Created(sv, Attributes(true, SaverName, false));
    CreatedFacts(sv, Attributes(true, SaverName, false));
    assert sv0.stack[|sv0.stack| - 1] == sv.next;
    DestroyedFacts(Post(sv0, Event(MapNotify, sv.next)), old_xid);
    hide Above, Without, MoveTo, Distinct;
  }

  lemma RefreshKeepsInv(sys: System)
    requires Inv(sys)
    ensures Inv(Next(sys, Refresh))
  {
    hide Above, Pending, Distinct, Without, MoveTo, Raised;
    var sv, sys' := sys.server, Next(sys, Refresh);
    ReplacedFacts(sv, sys.saver.my_xid);
    PendingPost(sv.saverQueue, Event(MapNotify, sv.next));
    PendingPost(sv.backupQueue, Event(MapNotify, sv.next));
    forall y | CoversBackup(sys', y) ensures Pending(sys'.server.backupQueue, y) {
      assert CoversBackup(sys, y);
    }
  }

  lemma StepKeepsInv(sys: System, step: Step)
    requires Inv(sys)
    ensures Inv(Next(sys, step))
  {
    hide Inv, WellFormed;
    match step {
      case SaverReads => if sys.server.saverQueue != [] { SaverReadsKeepsInv(sys); }
      case BackupReads(moves) => if sys.server.backupQueue != [] { BackupReadsKeepsInv(sys, moves); }
      case Refresh => RefreshKeepsInv(sys);
      case SpawnBackup(told, moves) =>
        if !sys.server.backupRuns && MayBeTold(sys, told) { SpawnKeepsInv(sys, told, moves); }
      case RecreateBackup(moves) => if sys.server.backupRuns { RecreateKeepsInv(sys, moves); }
      case KillBackup => if sys.server.backupRuns { KillKeepsInv(sys); }
      case Map(_) => NotifiedKeepsInv(sys, step);
      case Configure(_, _) => NotifiedKeepsInv(sys, step);
      case ResizeRoot => NotifiedKeepsInv(sys, step);
      case SaverMoves => NotifiedKeepsInv(sys, step);
      case BackupMoves => NotifiedKeepsInv(sys, step);
      case Destroy(x) => DestroyKeepsInv(sys, x);
      case _ => SilentKeepsInv(sys, step);
    }
  }

  lemma {:induction false} RunKeepsInv(sys: System, steps: seq<Step>)
    requires Inv(sys)
    ensures Inv(Run(sys, steps))
    decreases |steps|
  {
    hide Inv, Next;
    if steps != [] {
      StepKeepsInv(sys, steps[0]);
      RunKeepsInv(Next(sys, steps[0]), steps[1..]);
    }
  }

  /** Main result: in every run, once the screensaver has read its notifications nothing mapped is above it except
      event-grabber windows, and once the backup has read its own nothing foreign is above it except
      event-grabber and fcitx windows and windows that are titled like the screensaver's. */
  lemma StackingIsSafe(sys: System, steps: seq<Step>)
    requires Init(sys)
    ensures var end := Run(sys, steps);
      && (end.server.saverQueue == [] ==> forall x :: !CoversSaver(end, x))
      && (end.server.backupQueue == [] ==> forall x :: !CoversBackup(end, x))
  {
    NothingAboveTop(sys.server.stack, sys.saver.my_xid);
    RunKeepsInv(sys, steps);
  }

  /** A stage alone on the screen. */
  function Lonely(): System {
    var attrs := map[2 := Attributes(true, SaverName, false)];
    System(Server([2], attrs, [], [], false, 3), Filter(2, 0, false), Filter(0, 0, false))
  }

  /** A backup starts, a window titled like the screensaver's comes up, and both processes read what there is. */
  const LOOKALIKE: seq<Step> := [SpawnBackup(2, false), Create(SaverName, false), Map(4),
    SaverReads, SaverReads, SaverReads, BackupReads(false), BackupReads(false), BackupReads(false)]

  /** The stage 2, the backup 3 and the window 4, the last one mapped or not. */
  function Three(stack: seq<nat>, mapped: bool, saverQueue: seq<Event>, backupQueue: seq<Event>,
                 saverKnows: nat, backupKnows: nat): System
  {
    var attrs := map[2 := Attributes(true, SaverName, false), 3 := Attributes(true, NoName, false),
                     4 := Attributes(mapped, SaverName, false)];
    System(Server(stack, attrs, saverQueue, backupQueue, true, 5), Filter(2, saverKnows, false),
           Filter(3, backupKnows, true))
  }

  const MAP3: Event := Event(MapNotify, 3)
  const MAP4: Event := Event(MapNotify, 4)
  const UP2: Event := Event(ConfigureNotify, 2)

  lemma LookalikeSpawns()
    ensures Next(Next(Lonely(), SpawnBackup(2, false)), Create(SaverName, false))
      == Three([2, 3, 4], false, [MAP3], [MAP3], 0, 2)
  {
    var two, three := Attributes(true, SaverName, false), Attributes(true, NoName, false);
    var s1 := System(Server([2, 3], map[2 := two, 3 := three], [MAP3], [MAP3], true, 4), Filter(2, 0, false),
      Filter(3, 2, true));
    assert Next(Lonely(), SpawnBackup(2, false)) == s1;
    hide Raised;
  }

  lemma LookalikeMaps()
    ensures Next(Three([2, 3, 4], false, [MAP3], [MAP3], 0, 2), Map(4))
      == Three([2, 3, 4], true, [MAP3, MAP4], [MAP3, MAP4], 0, 2)
  {
    hide Raised;
  }

  lemma SaverRises()
    ensures Next(Three([2, 3, 4], true, [MAP3, MAP4], [MAP3, MAP4], 0, 2), SaverReads)
      == Three([3, 4, 2], true, [MAP4, UP2], [MAP3, MAP4, UP2], 0, 2)
  {
    assert Without([2, 3, 4], 2) == [3, 4] by { WithoutFirst(2, [3, 4]); }
    assert MoveTo([2, 3, 4], 2, 3) == [3, 4, 2];
    hide MoveTo, Without;
    assert [MAP3, MAP4][1..] == [MAP4];
  }

  lemma SaverIsOnTop()
    ensures Next(Three([3, 4, 2], true, [MAP4, UP2], [MAP3, MAP4, UP2], 0, 2), SaverReads)
      == Three([3, 4, 2], true, [UP2], [MAP3, MAP4, UP2], 4, 2)
    ensures Next(Three([3, 4, 2], true, [UP2], [MAP3, MAP4, UP2], 4, 2), SaverReads)
      == Three([3, 4, 2], true, [], [MAP3, MAP4, UP2], 4, 2)
  {
    assert [MAP4, UP2][1..] == [UP2];
    hide MoveTo, Without;
  }

  lemma BackupAdopts()
    ensures Next(Three([3, 4, 2], true, [], [MAP3, MAP4, UP2], 4, 2), BackupReads(false))
      == Three([3, 4, 2], true, [], [MAP4, UP2], 4, 2)
    ensures Next(Three([3, 4, 2], true, [], [MAP4, UP2], 4, 2), BackupReads(false))
      == Three([3, 4, 2], true, [], [UP2], 4, 4)
    ensures Next(Three([3, 4, 2], true, [], [UP2], 4, 4), BackupReads(false))
      == Three([3, 4, 2], true, [], [], 4, 2)
  {
    assert [MAP3, MAP4, UP2][1..] == [MAP4, UP2] && [MAP4, UP2][1..] == [UP2];
    hide Raised;
  }

  lemma RunFirst(sys: System, steps: seq<Step>, k: nat)
    requires k < |steps|
    ensures Run(sys, steps[k..]) == Run(Next(sys, steps[k]), steps[k + 1..])
  {
    assert steps[k..][1..] == steps[k + 1..];
  }

  /** The exception in `StackingIsSafe` is needed: this run ends quiet, with such a window mapped over the backup. */
  lemma LookalikeStaysOver()
    ensures Init(Lonely())
    ensures var end := Run(Lonely(), LOOKALIKE);
      && end.server.saverQueue == end.server.backupQueue == [] && end.server.backupRuns && end.backup.my_xid == 3
      && Foreign(end, 4) && end.server.attrs[4] == Attributes(true, SaverName, false)
      && Above(end.server.stack, 4, 3)
  {
    var end := Three([3, 4, 2], true, [], [], 4, 2);
    assert Run(Lonely(), LOOKALIKE) == end by {
      LookalikeRuns();
    }
    assert end.server.stack[1] == 4 && end.server.stack[0] == 3;
  }

  lemma LookalikeRuns()
    ensures Run(Lonely(), LOOKALIKE) == Three([3, 4, 2], true, [], [], 4, 2)
  {
    hide Next, Three;
    var r := LOOKALIKE;
    assert r[0..] == r && Run(Three([3, 4, 2], true, [], [], 4, 2), r[9..]) == Three([3, 4, 2], true, [], [], 4, 2);
    hide Run;
    LookalikeSpawns();
    LookalikeMaps();
    SaverRises();
    SaverIsOnTop();
    BackupAdopts();
    RunFirst(Lonely(), r, 0);
    RunFirst(Next(Lonely(), r[0]), r, 1);
    RunFirst(Three([2, 3, 4], false, [MAP3], [MAP3], 0, 2), r, 2);
    RunFirst(Three([2, 3, 4], true, [MAP3, MAP4], [MAP3, MAP4], 0, 2), r, 3);
    RunFirst(Three([3, 4, 2], true, [MAP4, UP2], [MAP3, MAP4, UP2], 0, 2), r, 4);
    RunFirst(Three([3, 4, 2], true, [UP2], [MAP3, MAP4, UP2], 4, 2), r, 5);
    RunFirst(Three([3, 4, 2], true, [], [MAP3, MAP4, UP2], 4, 2), r, 6);
    RunFirst(Three([3, 4, 2], true, [], [MAP4, UP2], 4, 2), r, 7);
    RunFirst(Three([3, 4, 2], true, [], [UP2], 4, 4), r, 8);
  }

  lemma WithoutFirst(x: nat, t: seq<nat>)
    requires x !in t
    ensures Without([x] + t, x) == t
  {
    WithoutIsAll(x, t);
    assert ([x] + t)[1..] == t;
  }

  lemma {:induction false} WithoutIsAll(x: nat, t: seq<nat>)
    requires x !in t
    ensures Without(t, x) == t
  {
    if t != [] { WithoutIsAll(x, t[1..]); }
  }

  // ------------------------------------------------------------------------ progress

  /** What is still to come: notifications to read, and raise requests by either process. */
  datatype Load = Load(notes: nat, saverRaises: nat, backupRaises: nat) {
    function Plus(o: Load): Load {
      Load(notes + o.notes, saverRaises + o.saverRaises, backupRaises + o.backupRaises)
    }

    predicate AtMost(o: Load) {
      notes <= o.notes && saverRaises <= o.saverRaises && backupRaises <= o.backupRaises
    }
  }

  /** A notification the screensaver answers costs its own reading and the two reports of the raise. */
  function SaverWeight(saver: nat, e: Event): Load {
    if e == RESIZED || e.window == saver then Load(1, 0, 0) else Load(3, 1, 0)
  }

  /** One the backup answers costs its own reading, and a raise the screensaver answers in turn.  So does a new
      screen size, for the move of its own window. */
  function BackupWeight(saver: nat, backup: nat, e: Event): Load {
    if e == RESIZED then Load(5, 1, 0)
    else if e.window == backup || e.window == saver then Load(1, 0, 0)
    else Load(5, 1, 1)
  }

  function SaverLoad(saver: nat, q: seq<Event>): Load {
    if q == [] then Load(0, 0, 0) else SaverWeight(saver, q[0]).Plus(SaverLoad(saver, q[1..]))
  }

  function BackupLoad(saver: nat, backup: nat, q: seq<Event>): Load {
    if q == [] then Load(0, 0, 0) else BackupWeight(saver, backup, q[0]).Plus(BackupLoad(saver, backup, q[1..]))
  }

  function TotalLoad(sys: System): Load {
    SaverLoad(sys.saver.my_xid, sys.server.saverQueue)
      .Plus(BackupLoad(sys.saver.my_xid, sys.backup.my_xid, sys.server.backupQueue))
  }

  /** What one step really does: notifications read and raises requested. */
  function Spent(sys: System, step: Step): Load {
    var sv := sys.server;
    match step
    case SaverReads =>
      if sv.saverQueue == [] then Load(0, 0, 0) else
        var e := sv.saverQueue[0];
        Load(1, if !Skips(sys.saver, sv, e) && Answers(sys.saver, sv, e.window) then 1 else 0, 0)
    case BackupReads(_) =>
      if sv.backupQueue == [] then Load(0, 0, 0) else
        var e := sv.backupQueue[0];
        Load(1, 0, if !Skips(sys.backup, sv, e) && Answers(sys.backup, sv, e.window) then 1 else 0)
    case _ => Load(0, 0, 0)
  }

  predicate Reads(step: Step) {
    step.SaverReads? || step.BackupReads?
  }

  /** What the notifications about `x` in a queue weigh more once `x` is nobody's window any more. */
  function Reweighed(q: seq<Event>, x: nat, each: Load): Load {
    if q == [] then Load(0, 0, 0)
    else (if q[0].window == x then each else Load(0, 0, 0)).Plus(Reweighed(q[1..], x, each))
  }

  /** What a step of the environment may add.  A refresh adds its own notification, and makes those about the old
      stage that are still queued into ones that are answered; so does a backup that realizes its window anew. */
  function Cost(sys: System, step: Step): Load {
    match step
    case Map(_) => Load(8, 2, 1)
    case Configure(_, _) => Load(8, 2, 1)
    case ResizeRoot => Load(6, 1, 0)
    case SaverMoves => Load(2, 0, 0)
    case BackupMoves => Load(4, 1, 0)
    case SpawnBackup(_, _) => Load(7, 2, 0)
    case RecreateBackup(_) =>
      Reweighed(sys.server.backupQueue, sys.backup.my_xid, Load(4, 1, 1)).Plus(Load(8, 2, 0))
    case Refresh =>
      Reweighed(sys.server.saverQueue, sys.saver.my_xid, Load(2, 1, 0))
        .Plus(Reweighed(sys.server.backupQueue, sys.saver.my_xid, Load(4, 1, 1)))
        .Plus(Load(2, 0, 0))
    case _ => Load(0, 0, 0)
  }

  function TotalSpent(sys: System, steps: seq<Step>): Load
    decreases |steps|
  {
    if steps == [] then Load(0, 0, 0)
    else Spent(sys, steps[0]).Plus(TotalSpent(Next(sys, steps[0]), steps[1..]))
  }

  function TotalCost(sys: System, steps: seq<Step>): Load
    decreases |steps|
  {
    if steps == [] then Load(0, 0, 0)
    else Cost(sys, steps[0]).Plus(TotalCost(Next(sys, steps[0]), steps[1..]))
  }

  lemma {:induction false} SaverLoadPost(saver: nat, q: seq<Event>, e: Event)
    ensures SaverLoad(saver, q + [e]) == SaverLoad(saver, q).Plus(SaverWeight(saver, e))
  {
    hide SaverWeight;
    if q == [] {
      assert q + [e] == [e];
    } else {
      SaverLoadPost(saver, q[1..], e);
      assert (q + [e])[1..] == q[1..] + [e];
    }
  }

  lemma {:induction false} BackupLoadPost(saver: nat, backup: nat, q: seq<Event>, e: Event)
    ensures BackupLoad(saver, backup, q + [e]) == BackupLoad(saver, backup, q).Plus(BackupWeight(saver, backup, e))
  {
    hide BackupWeight;
    if q == [] {
      assert q + [e] == [e];
    } else {
      BackupLoadPost(saver, backup, q[1..], e);
      assert (q + [e])[1..] == q[1..] + [e];
    }
  }

  /** Posting a notification adds its weight to both queues. */
  lemma PostedLoad(sys: System, sv: Server, e: Event)
    requires sv == sys.server && (sv.backupRuns || sv.backupQueue == [])
    ensures TotalLoad(sys.(server := Post(sv, e))) ==
            TotalLoad(sys).Plus(SaverWeight(sys.saver.my_xid, e))
              .Plus(if sv.backupRuns then BackupWeight(sys.saver.my_xid, sys.backup.my_xid, e) else Load(0, 0, 0))
  {
    hide SaverWeight, BackupWeight, SaverLoad, BackupLoad;
    SaverLoadPost(sys.saver.my_xid, sv.saverQueue, e);
    BackupLoadPost(sys.saver.my_xid, sys.backup.my_xid, sv.backupQueue, e);
  }

  /** The weight depends on who owns which window and on the queues, and on nothing else. */
  lemma SameLoad(s: System, t: System)
    requires s.saver.my_xid == t.saver.my_xid
    requires s.backup.my_xid == t.backup.my_xid || s.server.backupQueue == []
    requires s.server.saverQueue == t.server.saverQueue && s.server.backupQueue == t.server.backupQueue
    ensures TotalLoad(s) == TotalLoad(t)
  {
  }

  /** The queues are as before, or, with `reports`, have one more notification about `x`. */
  predicate MayReport(before: Server, after: Server, reports: bool, x: nat) {
    var posted := Post(before, Event(ConfigureNotify, x));
    || (after.saverQueue == before.saverQueue && after.backupQueue == before.backupQueue)
    || (reports && after.saverQueue == posted.saverQueue && after.backupQueue == posted.backupQueue)
  }

  lemma SaverReaction(sys: System)
    requires WellFormed(sys) && sys.server.saverQueue != []
    ensures var q, t, spent := sys.server.saverQueue, Next(sys, SaverReads), Spent(sys, SaverReads);
      && t.saver.my_xid == sys.saver.my_xid && t.backup == sys.backup
      && (spent == Load(1, 0, 0) || (spent == Load(1, 1, 0) && SaverWeight(sys.saver.my_xid, q[0]) == Load(3, 1, 0)))
      && MayReport(SaverRead(sys).server, t.server, spent == Load(1, 1, 0), sys.saver.my_xid)
  {
    hide Above, Distinct, Without, MoveTo;
  }

  lemma BackupReaction(sys: System, moves: bool)
    requires WellFormed(sys) && sys.server.backupQueue != []
    ensures var q, t, spent := sys.server.backupQueue, Next(sys, BackupReads(moves)), Spent(sys, BackupReads(moves));
      var weight := BackupWeight(sys.saver.my_xid, sys.backup.my_xid, q[0]);
      && t.backup.my_xid == sys.backup.my_xid && t.saver == sys.saver
      && (spent == Load(1, 0, 0) || (spent == Load(1, 0, 1) && weight == Load(5, 1, 1)))
      && MayReport(BackupRead(sys).server, t.server, spent == Load(1, 0, 1) || weight == Load(5, 1, 0),
           sys.backup.my_xid)
  {
    hide Above, Distinct, Without, MoveTo;
  }

  /** The system with one notification taken off a queue. */
  function SaverRead(sys: System): System {
    var q := sys.server.saverQueue;
    if q == [] then sys else sys.(server := sys.server.(saverQueue := q[1..]))
  }

  function BackupRead(sys: System): System {
    var q := sys.server.backupQueue;
    if q == [] then sys else sys.(server := sys.server.(backupQueue := q[1..]))
  }

  /** Reading a notification takes its weight off. */
  lemma SaverReadLoad(sys: System)
    requires sys.server.saverQueue != []
    ensures TotalLoad(sys) == SaverWeight(sys.saver.my_xid, sys.server.saverQueue[0]).Plus(TotalLoad(SaverRead(sys)))
  {
    hide SaverWeight, BackupLoad;
  }

  lemma BackupReadLoad(sys: System)
    requires sys.server.backupQueue != []
    ensures TotalLoad(sys) ==
      BackupWeight(sys.saver.my_xid, sys.backup.my_xid, sys.server.backupQueue[0]).Plus(TotalLoad(BackupRead(sys)))
  {
    hide BackupWeight, SaverLoad;
  }

  /** A report about the screensaver weighs 1 for both, one about the backup 3 and 1. */
  lemma ReportLoad(sys: System, reports: bool, x: nat, after: System, extra: Load)
    requires sys.server.backupRuns || sys.server.backupQueue == []
    requires MayReport(sys.server, after.server, reports, x)
    requires extra == if !reports then Load(0, 0, 0) else if x == sys.saver.my_xid then Load(2, 0, 0) else Load(4, 1, 0)
    requires x in {sys.saver.my_xid, sys.backup.my_xid} && x != ROOT
    requires after.saver.my_xid == sys.saver.my_xid && after.backup.my_xid == sys.backup.my_xid
    ensures TotalLoad(after).AtMost(TotalLoad(sys).Plus(extra))
  {
    hide TotalLoad;
    var sv, e := sys.server, Event(ConfigureNotify, x);
    if after.server.saverQueue == sv.saverQueue && after.server.backupQueue == sv.backupQueue {
      SameLoad(sys, after);
    } else {
      PostedLoad(sys, sv, e);
      SameLoad(sys.(server := Post(sv, e)), after);
    }
  }

  /** What is spent on a notification and added by it fits into its weight. */
  predicate Covered(spent: Load, extra: Load, weight: Load) {
    || (spent == Load(1, 0, 0) && extra == Load(0, 0, 0) && weight.notes > 0)
    || (spent == Load(1, 1, 0) && extra == Load(2, 0, 0) && weight == Load(3, 1, 0))
    || (spent == Load(1, 0, 1) && extra == Load(4, 1, 0) && weight == Load(5, 1, 1))
    || (spent == Load(1, 0, 0) && extra == Load(4, 1, 0) && weight == Load(5, 1, 0))
  }

  lemma WeightPays(spent: Load, after: Load, rest: Load, extra: Load, weight: Load)
    requires after.AtMost(rest.Plus(extra)) && Covered(spent, extra, weight)
    ensures spent.Plus(after).AtMost(weight.Plus(rest))
  {
  }

  lemma SomeWeight(saver: nat, backup: nat, e: Event)
    ensures SaverWeight(saver, e).notes > 0 && BackupWeight(saver, backup, e).notes > 0
  {
  }

  lemma SaverReadsPays(sys: System)
    requires WellFormed(sys) && sys.server.saverQueue != []
    ensures Spent(sys, SaverReads).Plus(TotalLoad(Next(sys, SaverReads))).AtMost(TotalLoad(sys))
  {
    var spent, next, rest, e := Spent(sys, SaverReads), Next(sys, SaverReads), SaverRead(sys), sys.server.saverQueue[0];
    var reports := spent == Load(1, 1, 0);
    var extra := if reports then Load(2, 0, 0) else Load(0, 0, 0);
    assert rest.server.backupRuns || rest.server.backupQueue == [];
    assert sys.saver.my_xid != ROOT;
    SaverReaction(sys);
    SaverReadLoad(sys);
    SomeWeight(sys.saver.my_xid, sys.backup.my_xid, e);
    assert Covered(spent, extra, SaverWeight(sys.saver.my_xid, e));
    hide *;
    ReportLoad(rest, reports, sys.saver.my_xid, next, extra);
    WeightPays(spent, TotalLoad(next), TotalLoad(rest), extra, SaverWeight(sys.saver.my_xid, e));
  }

  lemma BackupReadsPays(sys: System, moves: bool)
    requires WellFormed(sys) && sys.server.backupQueue != []
    ensures Spent(sys, BackupReads(moves)).Plus(TotalLoad(Next(sys, BackupReads(moves)))).AtMost(TotalLoad(sys))
  {
    var spent, next := Spent(sys, BackupReads(moves)), Next(sys, BackupReads(moves));
    var rest, e := BackupRead(sys), sys.server.backupQueue[0];
    var weight := BackupWeight(sys.saver.my_xid, sys.backup.my_xid, e);
    var reports := spent == Load(1, 0, 1) || weight == Load(5, 1, 0);
    var extra := if reports then Load(4, 1, 0) else Load(0, 0, 0);
    assert rest.server.backupRuns || rest.server.backupQueue == [];
    TwoWindows(sys);
    BackupReaction(sys, moves);
    BackupReadLoad(sys);
    SomeWeight(sys.saver.my_xid, sys.backup.my_xid, e);
    assert Covered(spent, extra, weight);
    hide *;
    ReportLoad(rest, reports, sys.backup.my_xid, next, extra);
    WeightPays(spent, TotalLoad(next), TotalLoad(rest), extra, weight);
  }

  lemma TwoWindows(sys: System)
    requires WellFormed(sys) && sys.server.backupQueue != []
    ensures sys.backup.my_xid != sys.saver.my_xid && sys.backup.my_xid != ROOT
    ensures BackupRead(sys).saver == sys.saver && BackupRead(sys).backup == sys.backup
  {
  }

  /** Two notifications in a row about a new window of the backup's weigh 4 each, or one. */
  lemma AnnouncedLoad(sys: System, x: nat, moves: bool, after: System)
    requires sys.server.backupRuns && sys.backup.my_xid == x != sys.saver.my_xid && x != ROOT
    requires after.saver.my_xid == sys.saver.my_xid && after.backup.my_xid == x
    requires var sv0 := if moves then Post(sys.server, Event(ConfigureNotify, x)) else sys.server;
      var sv1 := Post(sv0, Event(MapNotify, x));
      after.server.saverQueue == sv1.saverQueue && after.server.backupQueue == sv1.backupQueue
    ensures TotalLoad(after).AtMost(TotalLoad(sys).Plus(Load(8, 2, 0)))
  {
    var conf, mapped := Event(ConfigureNotify, x), Event(MapNotify, x);
    var sys0 := if moves then sys.(server := Post(sys.server, conf)) else sys;
    PostedLoad(sys, sys.server, conf);
    PostedLoad(sys0, sys0.server, mapped);
    SameLoad(sys0.(server := Post(sys0.server, mapped)), after);
    OwnWeights(sys.saver.my_xid, x);
    hide TotalLoad, SaverWeight, BackupWeight, Post;
  }

  lemma OwnWeights(saver: nat, x: nat)
    requires x != saver && x != ROOT
    ensures SaverWeight(saver, Event(ConfigureNotify, x)) == SaverWeight(saver, Event(MapNotify, x)) == Load(3, 1, 0)
    ensures BackupWeight(saver, x, Event(ConfigureNotify, x)) == BackupWeight(saver, x, Event(MapNotify, x))
      == Load(1, 0, 0)
  {
  }

  lemma SpawnPays(sys: System, told: nat, moves: bool)
    requires WellFormed(sys) && !sys.server.backupRuns && MayBeTold(sys, told)
    ensures TotalLoad(Next(sys, SpawnBackup(told, moves))).AtMost(TotalLoad(sys).Plus(Load(7, 2, 0)))
  {
    var sv, t, x := sys.server, Next(sys, SpawnBackup(told, moves)), sys.server.next;
    var conf, mapped := Event(ConfigureNotify, x), Event(MapNotify, x);
    SpawnedSystem(sys, told, moves);
    var sys0 := sys.(backup := t.backup);
    var sys1 := if moves then sys0.(server := Post(sv, conf)) else sys0;
    var sys2 := sys1.(server := sys1.server.(backupRuns := true));
    SameLoad(sys, sys0);
    PostedLoad(sys0, sv, conf);
    SameLoad(sys1, sys2);
    PostedLoad(sys2, sys2.server, mapped);
    SameLoad(sys2.(server := Post(sys2.server, mapped)), t);
    OwnWeights(sys.saver.my_xid, x);
    hide Next, TotalLoad, SaverWeight, BackupWeight, WellFormed;
  }

  lemma SpawnedSystem(sys: System, told: nat, moves: bool)
    requires WellFormed(sys) && !sys.server.backupRuns && MayBeTold(sys, told)
    ensures var sv, t, x := sys.server, Next(sys, SpawnBackup(told, moves)), sys.server.next;
      && t.saver == sys.saver && t.backup == Filter(x, told, true) && x != sys.saver.my_xid && x != ROOT
      && t.server.saverQueue ==
           (if moves then sv.saverQueue + [Event(ConfigureNotify, x)] else sv.saverQueue) + [Event(MapNotify, x)]
      && sv.backupQueue == [] && t.server.backupQueue == [Event(MapNotify, x)]
  {
    hide Above, Distinct, Without, MoveTo;
  }

  /** A backup that realizes its window anew no longer passes over notifications about the old one. */
  lemma BackupRenamed(saver: nat, old_xid: nat, new_xid: nat, e: Event, one: Load)
    requires one == if e.window == old_xid then Load(4, 1, 1) else Load(0, 0, 0)
    ensures BackupWeight(saver, new_xid, e).AtMost(BackupWeight(saver, old_xid, e).Plus(one))
  {
    RenamedWeights(saver, old_xid, new_xid, e);
    hide *;
    GrowsByOne(BackupWeight(saver, old_xid, e), BackupWeight(saver, new_xid, e), one);
  }

  lemma RenamedWeights(saver: nat, old_xid: nat, new_xid: nat, e: Event)
    ensures var was, now := BackupWeight(saver, old_xid, e), BackupWeight(saver, new_xid, e);
      || now == was || (now == Load(1, 0, 0) && was == Load(5, 1, 1))
      || (was == Load(1, 0, 0) && now == Load(5, 1, 1) && e.window == old_xid)
  {
  }

  lemma {:induction false} BackupRenames(saver: nat, old_xid: nat, new_xid: nat, q: seq<Event>)
    ensures BackupLoad(saver, new_xid, q)
      .AtMost(BackupLoad(saver, old_xid, q).Plus(Reweighed(q, old_xid, Load(4, 1, 1))))
  {
    if q != [] {
      var e, rest := q[0], q[1..];
      var each, one := Load(4, 1, 1), if e.window == old_xid then Load(4, 1, 1) else Load(0, 0, 0);
      assert BackupLoad(saver, new_xid, q) == BackupWeight(saver, new_xid, e).Plus(BackupLoad(saver, new_xid, rest));
      assert BackupLoad(saver, old_xid, q) == BackupWeight(saver, old_xid, e).Plus(BackupLoad(saver, old_xid, rest));
      assert Reweighed(q, old_xid, each) == one.Plus(Reweighed(rest, old_xid, each));
      BackupRenames(saver, old_xid, new_xid, rest);
      BackupRenamed(saver, old_xid, new_xid, e, one);
      hide *;
      SumsAtMost(BackupWeight(saver, new_xid, e), BackupWeight(saver, old_xid, e), one,
        BackupLoad(saver, new_xid, rest), BackupLoad(saver, old_xid, rest), Reweighed(rest, old_xid, each));
    }
  }

  lemma RenamedLoad(sys: System, x: nat)
    ensures TotalLoad(sys.(backup := sys.backup.(my_xid := x)))
      .AtMost(TotalLoad(sys).Plus(Reweighed(sys.server.backupQueue, sys.backup.my_xid, Load(4, 1, 1))))
  {
    BackupRenames(sys.saver.my_xid, sys.backup.my_xid, x, sys.server.backupQueue);
    hide SaverLoad, BackupLoad, Reweighed;
  }

  lemma AddsUp(a: Load, b: Load, c: Load, m: Load, n: Load)
    requires a.AtMost(b.Plus(n)) && b.AtMost(c.Plus(m))
    ensures a.AtMost(c.Plus(m.Plus(n)))
  {
  }

  lemma RecreatePays(sys: System, moves: bool)
    requires WellFormed(sys) && sys.server.backupRuns
    ensures var more := Reweighed(sys.server.backupQueue, sys.backup.my_xid, Load(4, 1, 1)).Plus(Load(8, 2, 0));
      TotalLoad(Next(sys, RecreateBackup(moves))).AtMost(TotalLoad(sys).Plus(more))
  {
    var sv, t, x := sys.server, Next(sys, RecreateBackup(moves)), sys.server.next;
    RecreatedSystem(sys, moves);
    SameAnnounced(sv.saverQueue, x, moves);
    SameAnnounced(sv.backupQueue, x, moves);
    var renamed := sys.(backup := sys.backup.(my_xid := x));
    AnnouncedLoad(renamed, x, moves, t);
    RenamedLoad(sys, x);
    var more := Reweighed(sv.backupQueue, sys.backup.my_xid, Load(4, 1, 1));
    assert Cost(sys, RecreateBackup(moves)) == more.Plus(Load(8, 2, 0));
    hide *;
    AddsUp(TotalLoad(t), TotalLoad(renamed), TotalLoad(sys), more, Load(8, 2, 0));
  }

  lemma GrowsByOne(was: Load, now: Load, one: Load)
    requires now == was || (now == Load(1, 0, 0) && was in {Load(3, 1, 0), Load(5, 1, 1)})
      || (was == Load(1, 0, 0) && now == Load(3, 1, 0) && one == Load(2, 1, 0))
      || (was == Load(1, 0, 0) && now == Load(5, 1, 1) && one == Load(4, 1, 1))
    ensures now.AtMost(was.Plus(one))
  {
  }

  lemma WeightsOf(saver: nat, backup: nat, e: Event)
    ensures SaverWeight(saver, e) in {Load(1, 0, 0), Load(3, 1, 0)}
    ensures e != RESIZED ==> BackupWeight(saver, backup, e) in {Load(1, 0, 0), Load(5, 1, 1)}
    ensures e == RESIZED ==> BackupWeight(saver, backup, e) == Load(5, 1, 0)
  {
  }

  /** A notification weighs more when the stage is replaced only if it is about the old one. */
  lemma WeightsStay(old_xid: nat, new_xid: nat, backup: nat, e: Event)
    requires e.window != old_xid
    ensures SaverWeight(new_xid, e) == Load(1, 0, 0) || SaverWeight(new_xid, e) == SaverWeight(old_xid, e)
    ensures BackupWeight(new_xid, backup, e) == Load(1, 0, 0)
      || BackupWeight(new_xid, backup, e) == BackupWeight(old_xid, backup, e)
  {
  }

  lemma SaverWeighsMore(old_xid: nat, new_xid: nat, e: Event, one: Load)
    requires one == if e.window == old_xid then Load(2, 1, 0) else Load(0, 0, 0)
    ensures SaverWeight(new_xid, e).AtMost(SaverWeight(old_xid, e).Plus(one))
  {
    hide *;
    WeightsOf(old_xid, 0, e);
    WeightsOf(new_xid, 0, e);
    if e.window != old_xid { WeightsStay(old_xid, new_xid, 0, e); }
    GrowsByOne(SaverWeight(old_xid, e), SaverWeight(new_xid, e), one);
  }

  lemma BackupWeighsMore(old_xid: nat, new_xid: nat, backup: nat, e: Event, one: Load)
    requires one == if e.window == old_xid then Load(4, 1, 1) else Load(0, 0, 0)
    ensures BackupWeight(new_xid, backup, e).AtMost(BackupWeight(old_xid, backup, e).Plus(one))
  {
    hide *;
    WeightsOf(old_xid, backup, e);
    WeightsOf(new_xid, backup, e);
    if e.window != old_xid { WeightsStay(old_xid, new_xid, backup, e); }
    GrowsByOne(BackupWeight(old_xid, backup, e), BackupWeight(new_xid, backup, e), one);
  }

  lemma SumsAtMost(a: Load, b: Load, c: Load, a': Load, b': Load, c': Load)
    requires a.AtMost(b.Plus(c)) && a'.AtMost(b'.Plus(c'))
    ensures a.Plus(a').AtMost(b.Plus(b').Plus(c.Plus(c')))
  {
  }

  lemma {:induction false} SaverReweighs(old_xid: nat, new_xid: nat, q: seq<Event>)
    ensures SaverLoad(new_xid, q).AtMost(SaverLoad(old_xid, q).Plus(Reweighed(q, old_xid, Load(2, 1, 0))))
  {
    if q != [] {
      var e, rest := q[0], q[1..];
      var each, one := Load(2, 1, 0), if e.window == old_xid then Load(2, 1, 0) else Load(0, 0, 0);
      assert SaverLoad(new_xid, q) == SaverWeight(new_xid, e).Plus(SaverLoad(new_xid, rest));
      assert SaverLoad(old_xid, q) == SaverWeight(old_xid, e).Plus(SaverLoad(old_xid, rest));
      assert Reweighed(q, old_xid, each) == one.Plus(Reweighed(rest, old_xid, each));
      SaverReweighs(old_xid, new_xid, rest);
      SaverWeighsMore(old_xid, new_xid, e, one);
      hide *;
      SumsAtMost(SaverWeight(new_xid, e), SaverWeight(old_xid, e), one,
        SaverLoad(new_xid, rest), SaverLoad(old_xid, rest), Reweighed(rest, old_xid, each));
    }
  }

  lemma {:induction false} BackupReweighs(old_xid: nat, new_xid: nat, backup: nat, q: seq<Event>)
    ensures BackupLoad(new_xid, backup, q)
      .AtMost(BackupLoad(old_xid, backup, q).Plus(Reweighed(q, old_xid, Load(4, 1, 1))))
  {
    if q != [] {
      var e, rest := q[0], q[1..];
      var each, one := Load(4, 1, 1), if e.window == old_xid then Load(4, 1, 1) else Load(0, 0, 0);
      assert BackupLoad(new_xid, backup, q) == BackupWeight(new_xid, backup, e).Plus(BackupLoad(new_xid, backup, rest));
      assert BackupLoad(old_xid, backup, q) == BackupWeight(old_xid, backup, e).Plus(BackupLoad(old_xid, backup, rest));
      assert Reweighed(q, old_xid, each) == one.Plus(Reweighed(rest, old_xid, each));
      BackupReweighs(old_xid, new_xid, backup, rest);
      BackupWeighsMore(old_xid, new_xid, backup, e, one);
      hide *;
      SumsAtMost(BackupWeight(new_xid, backup, e), BackupWeight(old_xid, backup, e), one,
        BackupLoad(new_xid, backup, rest), BackupLoad(old_xid, backup, rest), Reweighed(rest, old_xid, each));
    }
  }

  lemma RefreshPosts(sys: System)
    requires WellFormed(sys)
    ensures var sv, t := sys.server, Next(sys, Refresh);
      && t.saver.my_xid == sv.next && t.backup == sys.backup
      && t.server.saverQueue == Post(sv, Event(MapNotify, sv.next)).saverQueue
      && t.server.backupQueue == Post(sv, Event(MapNotify, sv.next)).backupQueue
  {
    hide Above, Distinct, Without, MoveTo;
  }

  lemma RefreshPays(sys: System)
    requires WellFormed(sys)
    ensures TotalLoad(Next(sys, Refresh)).AtMost(TotalLoad(sys).Plus(Cost(sys, Refresh)))
  {
    var sv, t, x, e := sys.server, Next(sys, Refresh), sys.server.next, Event(MapNotify, sys.server.next);
    RefreshPosts(sys);
    assert sv.backupRuns || sv.backupQueue == [];
    var renamed := sys.(saver := sys.saver.(my_xid := x));
    PostedLoad(renamed, sv, e);
    SameLoad(renamed.(server := Post(sv, e)), t);
    SaverReweighs(sys.saver.my_xid, x, sv.saverQueue);
    BackupReweighs(sys.saver.my_xid, x, sys.backup.my_xid, sv.backupQueue);
    hide Next, SaverLoad, BackupLoad, Reweighed, WellFormed;
  }

  lemma EnvironmentPays(sys: System, step: Step)
    requires WellFormed(sys) && !Reads(step) && !step.Refresh? && !step.SpawnBackup? && !step.RecreateBackup?
    ensures TotalLoad(Next(sys, step)).AtMost(TotalLoad(sys).Plus(Cost(sys, step)))
  {
    hide Above, Distinct, Without, MoveTo, SaverLoad, Reweighed;
    var sv, sys' := sys.server, Next(sys, step);
    if sys'.server.saverQueue != sv.saverQueue {
      var e := sys'.server.saverQueue[|sys'.server.saverQueue| - 1];
      PostedLoad(sys, sv, e);
      SameLoad(sys.(server := Post(sv, e)), sys');
    }
  }

  /** Of these others hear nothing. */
  predicate Silent(step: Step) {
    step.Create? || step.Unmap? || step.Destroy? || step.KillBackup?
  }

  /** A new screen size adds at most six notifications to read and one raise of the screensaver, a move of an own
      window two or four and one; what is not announced adds nothing. */
  lemma OwnStepsPay(sys: System, step: Step)
    requires WellFormed(sys)
    requires step.ResizeRoot? || step.SaverMoves? || step.BackupMoves? || Silent(step)
    ensures TotalLoad(Next(sys, step)).AtMost(TotalLoad(sys).Plus(
      match step case ResizeRoot => Load(6, 1, 0) case SaverMoves => Load(2, 0, 0) case BackupMoves => Load(4, 1, 0)
                 case _ => Load(0, 0, 0)))
  {
    EnvironmentPays(sys, step);
    hide TotalLoad, Next, WellFormed;
  }

  lemma StepPaysForItself(sys: System, step: Step)
    requires WellFormed(sys)
    ensures Spent(sys, step).Plus(TotalLoad(Next(sys, step))).AtMost(TotalLoad(sys).Plus(Cost(sys, step)))
  {
    hide TotalLoad, WellFormed, Reweighed;
    match step {
      case SaverReads => if sys.server.saverQueue != [] { SaverReadsPays(sys); }
      case BackupReads(moves) => if sys.server.backupQueue != [] { BackupReadsPays(sys, moves); }
      case SpawnBackup(told, moves) =>
        if !sys.server.backupRuns && MayBeTold(sys, told) { SpawnPays(sys, told, moves); }
      case RecreateBackup(moves) => if sys.server.backupRuns { RecreatePays(sys, moves); }
      case Refresh => RefreshPays(sys);
      case _ => EnvironmentPays(sys, step);
    }
  }

  /** Main result: whatever happens, the work done plus the work still queued is at most the work there was plus what
      each step of the environment adds: a fixed amount, and for a replaced window one read off the queues. */
  lemma {:induction false} WorkIsBounded(sys: System, steps: seq<Step>)
    requires Inv(sys)
    ensures TotalSpent(sys, steps).Plus(TotalLoad(Run(sys, steps))).AtMost(TotalLoad(sys).Plus(TotalCost(sys, steps)))
    decreases |steps|
  {
    hide Next, Spent, Cost, TotalLoad;
    if steps != [] {
      StepKeepsInv(sys, steps[0]);
      StepPaysForItself(sys, steps[0]);
      WorkIsBounded(Next(sys, steps[0]), steps[1..]);
    }
  }

  /** A notification caused by somebody else's window. */
  predicate Disturbs(step: Step) {
    step.Map? || step.Configure?
  }

  function CountDisturbances(steps: seq<Step>): nat {
    if steps == [] then 0 else (if Disturbs(steps[0]) then 1 else 0) + CountDisturbances(steps[1..])
  }

  lemma QuietLoad(sys: System)
    requires sys.server.saverQueue == [] && sys.server.backupQueue == []
    ensures TotalLoad(sys) == Load(0, 0, 0)
  {
  }

  /** The steps by which a new screen size or one of the two processes itself adds work. */
  predicate Internal(step: Step) {
    || step.ResizeRoot? || step.SaverMoves? || step.BackupMoves?
    || step.SpawnBackup? || step.RecreateBackup? || step.Refresh?
  }

  lemma CostOfOne(sys: System, step: Step)
    requires !Internal(step)
    ensures Cost(sys, step) == if Disturbs(step) then Load(8, 2, 1) else Load(0, 0, 0)
  {
  }

  /** The bound for `n` of them. */
  function Bound(n: nat): Load { Load(8 * n, 2 * n, n) }

  lemma BoundGrows(n: nat)
    ensures Load(8, 2, 1).Plus(Bound(n)) == Bound(n + 1) && Load(0, 0, 0).Plus(Bound(n)) == Bound(n)
    ensures Bound(0) == Load(0, 0, 0)
  {
  }

  lemma {:induction false} CostOfDisturbances(sys: System, steps: seq<Step>)
    requires forall s :: s in steps ==> !Internal(s)
    ensures TotalCost(sys, steps) == Bound(CountDisturbances(steps))
    decreases |steps|
  {
    if steps == [] {
      BoundGrows(0);
    } else {
      var first, rest := steps[0], steps[1..];
      assert first in steps && forall s :: s in rest ==> s in steps;
      var n := CountDisturbances(rest);
      assert CountDisturbances(steps) == if Disturbs(first) then n + 1 else n;
      assert TotalCost(sys, steps) == Cost(sys, first).Plus(TotalCost(Next(sys, first), rest));
      hide *;
      CostOfOne(sys, first);
      CostOfDisturbances(Next(sys, first), rest);
      BoundGrows(n);
    }
  }

  /** Main result: starting quiet, n foreign maps and restacks cause at most 8n notifications to be read,
      2n raises of the screensaver and n raises of the backup, in any order of reading. */
  lemma {:induction false} NoLivelock(sys: System, steps: seq<Step>)
    requires Inv(sys) && sys.server.saverQueue == [] && sys.server.backupQueue == []
    requires forall s :: s in steps ==> !Internal(s)
    ensures TotalSpent(sys, steps).AtMost(Bound(CountDisturbances(steps)))
  {
    hide Inv, Next, Run, TotalSpent, TotalCost, CountDisturbances, TotalLoad;
    QuietLoad(sys);
    CostOfDisturbances(sys, steps);
    WorkIsBounded(sys, steps);
  }

  /** The steps of `steps` are all readings of a notification that is there. */
  predicate Busy(sys: System, steps: seq<Step>)
    decreases |steps|
  {
    steps == [] ||
    (&& Reads(steps[0])
     && (if steps[0].SaverReads? then sys.server.saverQueue else sys.server.backupQueue) != []
     && Busy(Next(sys, steps[0]), steps[1..]))
  }

  /** Main result: left alone, from any reachable state, the two processes stop reading after at most
      as many steps as the weight of their queues; so every schedule ends in a quiet state. */
  lemma {:induction false} BecomesQuiet(sys: System, steps: seq<Step>)
    requires Inv(sys) && Busy(sys, steps)
    ensures |steps| + TotalLoad(Run(sys, steps)).notes <= TotalLoad(sys).notes
    decreases |steps|
  {
    if steps != [] {
      hide Next, TotalLoad, Inv;
      StepKeepsInv(sys, steps[0]);
      assert Spent(sys, steps[0]).notes == 1;
      assert WellFormed(sys) by { InvIsWellFormed(sys); }
      StepPaysForItself(sys, steps[0]);
      BecomesQuiet(Next(sys, steps[0]), steps[1..]);
    }
  }

  lemma InvIsWellFormed(sys: System)
    requires Inv(sys)
    ensures WellFormed(sys)
  {
  }
}
