/**
 The backup locker's window: when it may, must and does hold the keyboard and the pointer.

 It watches the screensaver window through one monitor task per window it has been told
 about.  When the watched window is gone it grabs all input from an idle callback, and
 it lets go when a new screensaver window appears.
 */
module BackupLocker {
  import opened EventGrabber

  class BackupWindow {
    const grabber: CsEventGrabber
    const root: Window
    const screen: Screen
    var gdkWindow: Window

    var pretty_xid: nat
    var should_grab: bool
    var activate_idle_id: nat
    /** Handlers connected to "grab-broken-event", and broken grabs the main loop has not reported yet. */
    var brokenHandlers: nat
    var brokenEvents: nat
    /** The window the event filter last took for the screensaver's. */
    var filterPretty: nat
    /** One outstanding xprop task per entry, with the XID it watches. */
    var monitors: seq<nat>

    /** Both devices belong to this window. */
    ghost predicate Grabbed()
      reads this, grabber
    {
      && HeldBy(grabber.Keyboard(), gdkWindow, screen)
      && HeldBy(grabber.Mouse(), gdkWindow, screen)
    }

    /** Some device belongs to one of our windows. */
    ghost predicate HoldsSomething()
      reads this, grabber
    {
      grabber.keyboardHolder != 0 || grabber.pointerHolder != 0
    }

    ghost predicate Valid()
      reads this, grabber
    {
      grabber.Valid() && root != 0 && screen != 0 && gdkWindow != 0 && gdkWindow != root
    }

    /** What holds between two main-loop events. */
    ghost predicate Inv()
      reads this, grabber
    {
      && Valid()
      && (should_grab <==> pretty_xid == 0)
      && (HoldsSomething() ==> should_grab)
      && (should_grab ==>
        || activate_idle_id != 0
        || (brokenHandlers > 0 && (Grabbed() || brokenEvents > 0)))
      && 0 !in monitors
      && (pretty_xid != 0 ==> pretty_xid in monitors)
    }

    constructor (grabber: CsEventGrabber, root: Window, screen: Screen, gdkWindow: Window, xid: nat)
      requires grabber.Valid() && NotHeld(grabber.Keyboard()) && NotHeld(grabber.Mouse())
      requires root != 0 && screen != 0 && gdkWindow != 0 && gdkWindow != root && xid != 0
      ensures Inv() && this.grabber == grabber
      ensures pretty_xid == filterPretty == xid && !should_grab && monitors == [xid]
    {
      this.grabber := grabber;
      this.root, this.screen, this.gdkWindow := root, screen, gdkWindow;
      this.pretty_xid, this.filterPretty, this.monitors := xid, xid, [xid];
      this.should_grab := false;
      this.activate_idle_id, this.brokenHandlers, this.brokenEvents := 0, 0, 0;
    }

    /** (Re)starts the idle callback. */
    method ActivateBackupWindow()
      modifies this`activate_idle_id
      ensures activate_idle_id != 0
    {
      activate_idle_id := activate_idle_id + 1;
    }

    /** The idle callback; TRUE means it is called again. */
    method ActivateCallback() returns (again: bool)
      requires Inv() && activate_idle_id != 0
      modifies this`activate_idle_id, this`brokenHandlers, grabber
      ensures Inv()
      ensures again <==> activate_idle_id != 0
      ensures again ==> should_grab && |grabber.script| < |old(grabber.script)|
      ensures should_grab && !again ==> Grabbed() && brokenHandlers == old(brokenHandlers) + 1
      ensures !should_grab ==> !again && !HoldsSomething()
    {
      if should_grab {
        var ok := grabber.GrabWindow(root, screen, false);
        if ok {
          grabber.MoveToWindow(gdkWindow, screen, false);
          brokenHandlers := brokenHandlers + 1;
        } else {
          return true;
        }
      }
      activate_idle_id := 0;
      return false;
    }

    /** window_grab_broken, called for a reported break while the handler is connected. */
    method GrabBrokenReported()
      requires Inv() && brokenEvents > 0
      modifies this`brokenHandlers, this`brokenEvents, this`activate_idle_id
      ensures Inv() && brokenEvents == old(brokenEvents) - 1 && brokenHandlers == 0
      ensures old(brokenHandlers) > 0 && should_grab ==> activate_idle_id != 0
      ensures old(brokenHandlers) == 0 || !should_grab ==> activate_idle_id == old(activate_idle_id)
    {
      brokenEvents := brokenEvents - 1;
      if brokenHandlers > 0 {
        brokenHandlers := 0;
        if should_grab {
          ActivateBackupWindow();
        }
      }
    }

    /** The X server takes devices away, and will say so. */
    method GrabsBreak(keyboard: bool, pointer: bool)
      requires Inv()
      modifies this`brokenEvents, grabber
      ensures Inv() && brokenEvents == old(brokenEvents) + 1
    {
      grabber.GrabBroken(keyboard, pointer);
      brokenEvents := brokenEvents + 1;
    }

    /** update_for_compositing: the window may be torn down and realized again under another XID.  Without an RGBA
        visual the locker quits, and its window and its grabs go with it. */
    method CompositedChanged(rgba: bool, recreated: bool, newWindow: Window) returns (exits: bool)
      requires Inv() && newWindow != 0 && newWindow != root
      modifies this`gdkWindow, this`activate_idle_id, grabber
      ensures exits == !rgba
      ensures !exits ==> Inv() && (should_grab ==> activate_idle_id != 0)
      ensures gdkWindow == if rgba && recreated then newWindow else old(gdkWindow)
      ensures exits ==> Valid() && NotHeld(grabber.Keyboard()) && NotHeld(grabber.Mouse())
    {
      if !rgba {
        // quit destroys the window, whose finalizer lets go of everything
        grabber.Release();
        return true;
      }
      exits := false;
      if recreated {
        grabber.WindowDestroyed(gdkWindow);
        gdkWindow := newWindow;
      }
      if should_grab {
        ActivateBackupWindow();
      }
    }

    method SetupWindowMonitor(xid: nat)
      modifies this`should_grab, this`pretty_xid, this`monitors
      ensures !should_grab && pretty_xid == xid && monitors == old(monitors) + [xid]
    {
      should_grab := false;
      pretty_xid := xid;
      monitors := monitors + [xid];
    }

    /** The event filter saw the screensaver's window `xid`. */
    method ScreensaverSeen(xid: nat)
      requires Inv() && xid != 0
      modifies this`should_grab, this`pretty_xid, this`monitors, this`filterPretty, grabber
      ensures Inv() && filterPretty == xid
      ensures old(filterPretty) != xid ==>
                !HoldsSomething() && !should_grab && pretty_xid == xid && monitors == old(monitors) + [xid]
      // A window the filter already knows is not looked at again, gone or not.
      ensures old(filterPretty) == xid ==>
                pretty_xid == old(pretty_xid) && should_grab == old(should_grab) && monitors == old(monitors)
                && grabber.Keyboard() == old(grabber.Keyboard()) && grabber.Mouse() == old(grabber.Mouse())
    {
      if filterPretty != xid {
        filterPretty := xid;
        // screensaver_window_changed
        grabber.Release();
        should_grab := false;
        SetupWindowMonitor(xid);
      }
    }

    /** screensaver_window_gone, for the `k`-th outstanding task. */
    method MonitorDone(k: nat)
      requires Inv() && k < |monitors|
      modifies this`should_grab, this`pretty_xid, this`monitors, this`activate_idle_id
      ensures Inv() && monitors == old(monitors)[..k] + old(monitors)[k + 1..]
      ensures old(monitors)[k] == old(pretty_xid) ==> should_grab && pretty_xid == 0 && activate_idle_id != 0
      ensures old(monitors)[k] != old(pretty_xid) ==>
                && should_grab == old(should_grab) && pretty_xid == old(pretty_xid)
                && activate_idle_id == old(activate_idle_id)
    {
      var xid := monitors[k];
      ghost var before := monitors;
      monitors := monitors[..k] + monitors[k + 1..];
      if xid == pretty_xid {
        should_grab := true;
        pretty_xid := 0;
        ActivateBackupWindow();
      } else if pretty_xid != 0 {
        ghost var j :| 0 <= j < |before| && before[j] == pretty_xid;
        assert monitors[if j < k then j else j - 1] == pretty_xid;
      }
    }

    /** Left to itself the idle callback ends, and whoever should hold the input holds it: each failed
        round uses up failures of the oracle. */
    method RunIdle()
      requires Inv()
      modifies this`activate_idle_id, this`brokenHandlers, grabber
      ensures Inv() && activate_idle_id == 0
      ensures old(activate_idle_id) != 0 && should_grab ==> Grabbed()
    {
      while activate_idle_id != 0
        invariant Inv()
        invariant activate_idle_id == 0 && old(activate_idle_id) != 0 && should_grab ==> Grabbed()
        decreases activate_idle_id != 0, |grabber.script|
      {
        var _ := ActivateCallback();
      }
    }
  }

  datatype Event =
    | Idle
    | BreakReported
    | Break(keyboard: bool, pointer: bool)
    | Composited(rgba: bool, recreated: bool, newWindow: Window)
    | Screensaver(xid: nat)
    | Gone(k: nat)

  /** Every run: whatever events the main loop delivers, in whatever order, the invariant holds between
      them, until the locker quits and holds nothing.  Events that cannot happen at some point are skipped. */
  method Run(w: BackupWindow, events: seq<Event>) returns (quits: bool)
    requires w.Inv()
    modifies w, w.grabber
    ensures if quits then NotHeld(w.grabber.Keyboard()) && NotHeld(w.grabber.Mouse()) else w.Inv()
    ensures quits ==> exists e :: e in events && e.Composited? && !e.rgba
  {
    quits := false;
    for i := 0 to |events|
      invariant w.Inv()
    {
      match events[i] {
        case Idle => if w.activate_idle_id != 0 { var _ := w.ActivateCallback(); }
        case BreakReported => if w.brokenEvents > 0 { w.GrabBrokenReported(); }
        case Break(keyboard, pointer) => w.GrabsBreak(keyboard, pointer);
        case Composited(rgba, recreated, x) =>
          if x != 0 && x != w.root {
            quits := w.CompositedChanged(rgba, recreated, x);
            if quits {
              assert events[i] in events;
              return;
            }
          }
        case Screensaver(xid) => if xid != 0 { w.ScreensaverSeen(xid); }
        case Gone(k) => if k < |w.monitors| { w.MonitorDone(k); }
      }
    }
  }

  /** The screensaver's window is gone and nothing new shows up: the backup ends up with the keyboard
      and the pointer. */
  method TakesOver(w: BackupWindow, k: nat)
    requires w.Inv() && k < |w.monitors| && w.monitors[k] == w.pretty_xid
    modifies w, w.grabber
    ensures w.Inv() && w.Grabbed()
  {
    w.MonitorDone(k);
    w.RunIdle();
  }

  /** A window that is known, was thought gone, and shows up again: the backup keeps the right to grab and holds on
      to the input, over a screensaver that is there. */
  method KnownWindowComesBack(grabber: CsEventGrabber, root: Window, screen: Screen, gdkWindow: Window, xid: nat)
    returns (w: BackupWindow)
    requires grabber.Valid() && NotHeld(grabber.Keyboard()) && NotHeld(grabber.Mouse())
    requires root != 0 && screen != 0 && gdkWindow != 0 && gdkWindow != root && xid != 0
    modifies grabber
    ensures w.Inv() && w.Grabbed() && w.should_grab && w.pretty_xid == 0 && w.filterPretty == xid
  {
    w := new BackupWindow(grabber, root, screen, gdkWindow, xid);
    w.MonitorDone(0);
    w.RunIdle();
    w.ScreensaverSeen(xid);
  }

  /** While the backup has taken over, a window comes up that is titled like the screensaver's, whoever made it: the
      backup lets go of all input and watches that window, until its monitor task ends. */
  method TakesForScreensaver(w: BackupWindow, k: nat, xid: nat)
    requires w.Inv() && k < |w.monitors| && w.monitors[k] == w.pretty_xid && xid != 0 && xid != w.filterPretty
    modifies w, w.grabber
    ensures w.Inv() && !w.HoldsSomething() && !w.should_grab && w.pretty_xid == xid && xid in w.monitors
  {
    w.MonitorDone(k);
    w.RunIdle();
    assert w.Grabbed();
    w.ScreensaverSeen(xid);
  }
}
