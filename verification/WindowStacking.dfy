/**
 The window-stacking protocol between the screensaver and its backup locker.

 Two processes watch the root window.  Each owns one top-level window and an event
 queue, and each answers the notifications it reads by raising its own window, which
 in turn notifies both processes.  `Server` is the X server as both of them see it:
 one stack and two FIFO queues.  `Filter` is the state of one event filter.

 XRaiseWindow reports a ConfigureNotify only when it changes the stack (section 11 of
 the X Window System Protocol), and CreateWindow puts the new window on top of its
 siblings (section 9).
 */
module WindowStacking {

  /** What `_NET_WM_NAME` says about a window, as far as the filters care. */
  datatype WmName = NoName | GrabberName | SaverName

  datatype Attributes = Attributes(mapped: bool, name: WmName, fcitx: bool)

  datatype EventKind = MapNotify | ConfigureNotify

  datatype Event = Event(kind: EventKind, window: nat)

  /** Windows are named by XID; 0 is None and 1 is the root window.  `stack` runs from
      the bottom to the top; `next` is above every XID handed out so far. */
  datatype Server = Server(
    stack: seq<nat>,
    attrs: map<nat, Attributes>,
    saverQueue: seq<Event>,
    backupQueue: seq<Event>,
    backupRuns: bool,
    next: nat)

  datatype Filter = Filter(my_xid: nat, pretty_xid: nat, we_are_backup_window: bool)

  const ROOT: nat := 1

  // ---------------------------------------------------------------- stack operations

  ghost predicate Distinct(s: seq<nat>) {
    forall i, j :: 0 <= i < j < |s| ==> s[i] != s[j]
  }

  /** `a` is stacked above `b`. */
  ghost predicate Above(s: seq<nat>, a: nat, b: nat) {
    exists i, k :: 0 <= i < k < |s| && s[i] == b && s[k] == a
  }

  /** `s` without its occurrences of `x`. */
  function Without(s: seq<nat>, x: nat): (r: seq<nat>)
    ensures |r| <= |s|
    ensures forall y :: y in r <==> y in s && y != x
  {
    if s == [] then []
    else if s[0] == x then Without(s[1..], x)
    else [s[0]] + Without(s[1..], x)
  }

  /** Takes `x` out of `s` and puts it back at index `pos` (or on top). */
  function MoveTo(s: seq<nat>, x: nat, pos: nat): seq<nat> {
    var rest := Without(s, x);
    Insert(rest, x, if pos <= |rest| then pos else |rest|)
  }

  lemma AboveCons(c: nat, t: seq<nat>, a: nat, b: nat)
    ensures Above([c] + t, a, b) <==> (b == c && a in t) || Above(t, a, b)
  {
    var s := [c] + t;
    if Above(s, a, b) {
      var i, k :| 0 <= i < k < |s| && s[i] == b && s[k] == a;
      assert t[k - 1] == a && (i > 0 ==> t[i - 1] == b);
    }
    if b == c && a in t {
      var k :| 0 <= k < |t| && t[k] == a;
      assert s[0] == b && s[k + 1] == a;
    } else if Above(t, a, b) {
      var i, k :| 0 <= i < k < |t| && t[i] == b && t[k] == a;
      assert s[i + 1] == b && s[k + 1] == a;
    }
  }

  /** Taking a window out keeps the order of the rest. */
  lemma {:induction false} WithoutKeepsOrder(s: seq<nat>, x: nat, a: nat, b: nat)
    ensures Above(Without(s, x), a, b) ==> Above(s, a, b)
  {
    if s != [] {
      WithoutKeepsOrder(s[1..], x, a, b);
      AboveCons(s[0], s[1..], a, b);
      AboveCons(s[0], Without(s[1..], x), a, b);
      assert s == [s[0]] + s[1..];
    }
  }

  lemma {:induction false} WithoutIsDistinct(s: seq<nat>, x: nat)
    requires Distinct(s)
    ensures Distinct(Without(s, x))
    ensures x !in s ==> Without(s, x) == s
  {
    if s != [] {
      var t := s[1..];
      WithoutIsDistinct(t, x);
      assert s[0] !in t;
      assert s[0] !in Without(t, x);
    }
  }

  function Insert(s: seq<nat>, x: nat, p: nat): (r: seq<nat>)
    requires p <= |s|
    ensures |r| == |s| + 1
    ensures forall j :: 0 <= j < |r| ==> r[j] == if j < p then s[j] else if j == p then x else s[j - 1]
  {
    s[..p] + [x] + s[p..]
  }

  lemma InsertKeepsOrder(s: seq<nat>, x: nat, p: nat, a: nat, b: nat)
    requires p <= |s| && a != x && b != x
    ensures Above(Insert(s, x, p), a, b) ==> Above(s, a, b)
  {
    var m := Insert(s, x, p);
    if Above(m, a, b) {
      var i, k :| 0 <= i < k < |m| && m[i] == b && m[k] == a;
      var i', k' := if i < p then i else i - 1, if k < p then k else k - 1;
      assert s[i'] == b && s[k'] == a && i' < k';
    }
  }

  lemma InsertMembers(s: seq<nat>, x: nat, p: nat)
    requires p <= |s|
    ensures forall y :: y in Insert(s, x, p) <==> y in s || y == x
    ensures Distinct(s) && x !in s ==> Distinct(Insert(s, x, p))
  {
    assert s == s[..p] + s[p..];
  }

  /** The window is where it was put, or on top. */
  lemma MovePlaces(s: seq<nat>, x: nat, pos: nat)
    ensures var m := MoveTo(s, x, pos);
      m != [] && m[if pos < |m| then pos else |m| - 1] == x
  {
    var rest := Without(s, x);
    InsertMembers(rest, x, if pos <= |rest| then pos else |rest|);
  }

  /** Moving one window keeps the windows there are and leaves the order of all the others as it was. */
  lemma MoveKeepsOrder(s: seq<nat>, x: nat, pos: nat)
    requires Distinct(s)
    ensures Distinct(MoveTo(s, x, pos))
    ensures forall y :: y in MoveTo(s, x, pos) <==> y in s || y == x
    ensures forall a, b :: a != x && b != x && Above(MoveTo(s, x, pos), a, b) ==> Above(s, a, b)
  {
    var rest := Without(s, x);
    var p := if pos <= |rest| then pos else |rest|;
    WithoutIsDistinct(s, x);
    InsertMembers(rest, x, p);
    forall a, b | a != x && b != x && Above(MoveTo(s, x, pos), a, b) ensures Above(s, a, b) {
      InsertKeepsOrder(rest, x, p, a, b);
      WithoutKeepsOrder(s, x, a, b);
    }
  }

  // ----------------------------------------------------------------- the X server

  function NameOf(sv: Server, x: nat): WmName {
    if x in sv.attrs then sv.attrs[x].name else NoName
  }

  function IsFcitx(sv: Server, x: nat): bool {
    x in sv.attrs && sv.attrs[x].fcitx
  }

  /** Sends one notification to every process that listens. */
  function Post(sv: Server, e: Event): Server {
    sv.(saverQueue := sv.saverQueue + [e],
        backupQueue := if sv.backupRuns then sv.backupQueue + [e] else sv.backupQueue)
  }

  /** XRaiseWindow: an unknown window is a trapped error, a window already on top is not touched. */
  function Raised(sv: Server, x: nat): Server {
    if x !in sv.stack || sv.stack[|sv.stack| - 1] == x then sv
    else Post(sv.(stack := MoveTo(sv.stack, x, |sv.stack|)), Event(ConfigureNotify, x))
  }

  /** A raised window is on top, one notification went out for it, and raising it again changes nothing. */
  lemma RaiseOnce(sv: Server, x: nat)
    requires x in sv.stack
    ensures var r, report := Raised(sv, x), [Event(ConfigureNotify, x)];
      && r.stack[|r.stack| - 1] == x && Raised(r, x) == r
      && (sv.stack[|sv.stack| - 1] == x ==> r == sv)
      && (sv.stack[|sv.stack| - 1] != x ==>
           && r.saverQueue == sv.saverQueue + report
           && r.backupQueue == if sv.backupRuns then sv.backupQueue + report else sv.backupQueue)
  {
  }

  // -------------------------------------------------------------- the event filter

  /** The filter after it has looked at the name of `x`: it adopts new screensaver windows. */
  function Adopt(f: Filter, sv: Server, x: nat): Filter {
    if NameOf(sv, x) == SaverName then f.(pretty_xid := x) else f
  }

  /** Does this filter answer a notification about `x` by raising its own window? */
  predicate Answers(f: Filter, sv: Server, x: nat) {
    && NameOf(sv, x) != GrabberName
    && (f.we_are_backup_window ==> x != Adopt(f, sv, x).pretty_xid)
  }

  function Restacked(f: Filter, sv: Server, x: nat): (Filter, Server) {
    (Adopt(f, sv, x), if Answers(f, sv, x) then Raised(sv, f.my_xid) else sv)
  }

  /** Notifications that never reach `Restacked`. */
  predicate Skips(f: Filter, sv: Server, e: Event) {
    || (e.kind == ConfigureNotify && e.window == ROOT)
    || (IsFcitx(sv, e.window) && f.we_are_backup_window)
    || e.window == f.my_xid
  }

  function Handled(f: Filter, sv: Server, e: Event): (Filter, Server) {
    if Skips(f, sv, e) then (f, sv) else Restacked(f, sv, e.window)
  }

  /** At its start a screensaver rises, and a backup leaves its screensaver window where it is. */
  lemma StartRaises(f: Filter, sv: Server)
    requires 0 !in sv.attrs
    ensures !f.we_are_backup_window ==> Restacked(f, sv, 0) == (f, Raised(sv, f.my_xid))
    ensures f.we_are_backup_window ==> Restacked(f, sv, f.pretty_xid) == (f, sv)
  {
  }

  // ------------------------------------------------------- the same, in place

  /** The X server's shared state. */
  class XServer {
    var stack: seq<nat>
    var attrs: map<nat, Attributes>
    var saverQueue: seq<Event>
    var backupQueue: seq<Event>
    var backupRuns: bool
    var next: nat

    function State(): Server
      reads this
    {
      Server(stack, attrs, saverQueue, backupQueue, backupRuns, next)
    }

    method RaiseWindow(x: nat)
      modifies this
      ensures State() == Raised(old(State()), x)
    {
      if x in stack && stack[|stack| - 1] != x {
        stack := MoveTo(stack, x, |stack|);
        saverQueue := saverQueue + [Event(ConfigureNotify, x)];
        if backupRuns {
          backupQueue := backupQueue + [Event(ConfigureNotify, x)];
        }
      }
    }
  }

  /** CsGdkEventFilter. */
  class CsGdkEventFilter {
    const server: XServer
    var my_xid: nat
    var pretty_xid: nat
    var we_are_backup_window: bool
    /** How often "screensaver-window-changed" was emitted, and for which window last. */
    var changedSignals: seq<nat>
    /** How often "xscreen-size" was emitted. */
    var sizeSignals: nat

    function State(): Filter
      reads this
    {
      Filter(my_xid, pretty_xid, we_are_backup_window)
    }

    constructor (server: XServer, pretty_xid: nat)
      ensures this.server == server
      ensures State() == Filter(0, pretty_xid, pretty_xid != 0) && changedSignals == [] && sizeSignals == 0
    {
      this.server := server;
      this.my_xid := 0;
      this.pretty_xid := pretty_xid;
      this.we_are_backup_window := pretty_xid != 0;
      this.changedSignals, this.sizeSignals := [], 0;
    }

    method Restack(event_window: nat)
      modifies this, server
      ensures (State(), server.State()) == Restacked(old(State()), old(server.State()), event_window)
      ensures changedSignals == old(changedSignals) +
                                (if pretty_xid != old(pretty_xid) then [pretty_xid] else [])
      ensures sizeSignals == old(sizeSignals)
    {
      var net_wm_name := NameOf(server.State(), event_window);
      if net_wm_name == GrabberName {
        return;
      }
      if pretty_xid != event_window {
        if net_wm_name == SaverName {
          pretty_xid := event_window;
          changedSignals := changedSignals + [event_window];
        }
      }
      if we_are_backup_window {
        if event_window != pretty_xid {
          server.RaiseWindow(my_xid);
        }
      } else {
        server.RaiseWindow(my_xid);
      }
    }

    /** A backup is told of a new screen size, the screensaver is not. */
    method Xevent(ev: Event)
      modifies this, server
      ensures (State(), server.State()) == Handled(old(State()), old(server.State()), ev)
      ensures sizeSignals == old(sizeSignals) +
                             (if ev == Event(ConfigureNotify, ROOT) && we_are_backup_window then 1 else 0)
    {
      match ev.kind {
        case MapNotify =>
          if IsFcitx(server.State(), ev.window) && we_are_backup_window {
            return;
          }
          if ev.window == my_xid {
            return;
          }
          Restack(ev.window);
        case ConfigureNotify =>
          if ev.window == ROOT {
            if we_are_backup_window {
              sizeSignals := sizeSignals + 1;
            }
            return;
          }
          if IsFcitx(server.State(), ev.window) && we_are_backup_window {
            return;
          }
          if ev.window == my_xid {
            return;
          }
          Restack(ev.window);
      }
    }

    /** cs_gdk_event_filter_start: a backup announces itself for its screensaver window, which keeps it
        quiet; a screensaver for no window, which makes it raise itself. */
    method Start(xid: nat)
      modifies this, server
      ensures var f := old(State()).(my_xid := xid);
              (State(), server.State())
              == Restacked(f, old(server.State()), if f.we_are_backup_window then f.pretty_xid else 0)
    {
      my_xid := xid;
      if we_are_backup_window {
        Restack(pretty_xid);
      } else {
        Restack(0);
      }
    }
  }
}
