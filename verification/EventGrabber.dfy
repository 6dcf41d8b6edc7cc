/**
 CsEventGrabber: who holds the keyboard and the pointer.

 The X server is reduced to what the grabber can see of it: which of our windows holds
 each device, how deep the server grab is nested, and how each grab attempt ends.  The
 outcomes of the attempts are a list that is consumed attempt by attempt; once it is
 used up every attempt succeeds.  So a list is any oracle with finitely many failures.

 Windows and screens are numbered, 0 is NULL.
 */
module EventGrabber {
  import opened Lists

  type Window = nat
  type Screen = nat

  /** GdkGrabStatus.  GDK_GRAB_SUCCESS is 0, which is also FALSE. */
  datatype Status = Success | AlreadyGrabbed | InvalidTime | NotViewable | Frozen

  const RETRIES: nat := 4

  /** How the next attempt ends. */
  function Outcome(script: seq<Status>): Status {
    if script == [] then Success else script[0]
  }

  function Rest(script: seq<Status>): seq<Status> {
    if script == [] then [] else script[1..]
  }

  /** The attempts left after `n` of them. */
  function After(script: seq<Status>, n: nat): seq<Status> {
    if n == 0 then script else After(Rest(script), n - 1)
  }

  /** Does one of the next `limit` attempts succeed? */
  predicate Wins(script: seq<Status>, limit: nat) {
    limit > 0 && (Outcome(script) == Success || Wins(Rest(script), limit - 1))
  }

  /** How many attempts are made when the first success, or the limit, ends them. */
  function Tries(script: seq<Status>, limit: nat): nat {
    if limit == 0 then 0
    else if Outcome(script) == Success then 1
    else 1 + Tries(Rest(script), limit - 1)
  }

  lemma {:induction false} AfterSplits(script: seq<Status>, m: nat, n: nat)
    ensures After(After(script, m), n) == After(script, m + n)
  {
    if m > 0 {
      AfterSplits(Rest(script), m - 1, n);
    }
  }

  lemma {:induction false} SuccessWins(script: seq<Status>, limit: nat, k: nat)
    requires k < limit && Outcome(After(script, k)) == Success
    ensures Wins(script, limit)
  {
    if k > 0 {
      SuccessWins(Rest(script), limit - 1, k - 1);
    }
  }

  lemma {:induction false} LastTry(script: seq<Status>, limit: nat)
    ensures Tries(script, limit) <= limit
    ensures Wins(script, limit) ==>
              Tries(script, limit) > 0 && Outcome(After(script, Tries(script, limit) - 1)) == Success
    ensures !Wins(script, limit) ==> Tries(script, limit) == limit
  {
    if limit > 0 {
      LastTry(Rest(script), limit - 1);
    }
  }

  lemma {:induction false} BeforeLastTry(script: seq<Status>, limit: nat, k: nat)
    requires k + 1 < Tries(script, limit)
    ensures Outcome(After(script, k)) != Success
  {
    if k > 0 {
      BeforeLastTry(Rest(script), limit - 1, k - 1);
    }
  }

  /** What winning means: some attempt below the limit succeeds, it is the last one made, and all before
      it fail; a losing series uses up its limit. */
  lemma {:induction false} WinningMeans(script: seq<Status>, limit: nat)
    ensures Wins(script, limit) <==> exists k: nat :: k < limit && Outcome(After(script, k)) == Success
    ensures Tries(script, limit) <= limit
    ensures Wins(script, limit) ==>
              Tries(script, limit) > 0 && Outcome(After(script, Tries(script, limit) - 1)) == Success
    ensures !Wins(script, limit) ==> Tries(script, limit) == limit
    ensures forall k: nat :: k + 1 < Tries(script, limit) ==> Outcome(After(script, k)) != Success
  {
    hide Wins, Tries, After, Outcome;
    LastTry(script, limit);
    forall k: nat | k < limit && Outcome(After(script, k)) == Success ensures Wins(script, limit) {
      SuccessWins(script, limit, k);
    }
    forall k: nat | k + 1 < Tries(script, limit) ensures Outcome(After(script, k)) != Success {
      BeforeLastTry(script, limit, k);
    }
  }

  /** A series that is lost uses up failures of the oracle. */
  lemma {:induction false} AttemptsUseScript(script: seq<Status>, n: nat)
    ensures |After(script, n)| <= |script|
    ensures n > 0 && script != [] ==> |After(script, n)| < |script|
    ensures n > 0 && script == [] ==> Wins(script, n)
  {
    if n > 0 {
      AttemptsUseScript(Rest(script), n - 1);
    }
  }

  lemma TwoTries(script: seq<Status>)
    ensures Wins(script, 2) <==> Outcome(script) == Success || Outcome(Rest(script)) == Success
    ensures After(script, 2) == Rest(Rest(script))
  {
    assert Wins(Rest(script), 1) <==> Outcome(Rest(script)) == Success;
    assert After(Rest(script), 1) == After(Rest(Rest(script)), 0);
  }

  /** Two series of attempts in a row are one longer series. */
  lemma {:induction false} SeriesAddUp(script: seq<Status>, m: nat, n: nat)
    ensures Wins(script, m + n) == (Wins(script, m) || Wins(After(script, m), n))
    ensures Tries(script, m + n) == if Wins(script, m) then Tries(script, m) else m + Tries(After(script, m), n)
  {
    if m > 0 {
      SeriesAddUp(Rest(script), m - 1, n);
    }
  }

  /** One grab record and what the server says about the device. */
  datatype Device = Device(window: Window, screen: Screen, held: Window, weak: seq<Window>)

  /** g_object_remove_weak_pointer takes one registration off the list, here the only one. */
  lemma RemoveOnly(w: Window)
    ensures RemoveOne([w], w) == []
  {
  }

  /** The record has one weak pointer while it names a window and none otherwise, a recorded window comes
      with its screen, and the server gives us the device for the recorded window or not at all. */
  ghost predicate Sound(d: Device) {
    && d.weak == (if d.window != 0 then [d.window] else [])
    && (d.window != 0 ==> d.screen != 0)
    && (d.held == 0 || d.held == d.window)
  }

  /** The device belongs to `w` for the record and for the server, and comes with `screen`. */
  ghost predicate HeldBy(d: Device, w: Window, screen: Screen) {
    w != 0 && d.window == w && d.screen == screen && d.held == w
  }

  /** Neither the record nor the server gives us the device. */
  ghost predicate NotHeld(d: Device) {
    d.window == 0 && d.held == 0
  }

  class CsEventGrabber {
    var keyboard_grab_window: Window
    var keyboard_grab_screen: Screen
    var mouse_grab_window: Window
    var mouse_grab_screen: Screen
    var mouse_hide_cursor: bool

    // The X server and the type system, as far as this object can tell.
    var keyboardHolder: Window
    var pointerHolder: Window
    var pointerBlank: bool
    var keyboardWeak: seq<Window>
    var mouseWeak: seq<Window>
    var serverGrabs: int
    var script: seq<Status>

    // Bookkeeping for the bounds.
    var keyboardTries: nat
    var mouseTries: nat
    var focusResets: nat

    function Keyboard(): Device
      reads this
    {
      Device(keyboard_grab_window, keyboard_grab_screen, keyboardHolder, keyboardWeak)
    }

    function Mouse(): Device
      reads this
    {
      Device(mouse_grab_window, mouse_grab_screen, pointerHolder, mouseWeak)
    }

    ghost predicate ValidMouse()
      reads this
    {
      Sound(Mouse()) && (pointerHolder != 0 ==> pointerBlank == mouse_hide_cursor)
    }

    ghost predicate Valid()
      reads this
    {
      Sound(Keyboard()) && ValidMouse()
    }

    constructor (script: seq<Status>)
      ensures Valid() && NotHeld(Keyboard()) && NotHeld(Mouse())
      ensures serverGrabs == 0 && keyboardTries == mouseTries == focusResets == 0
      ensures this.script == script && !mouse_hide_cursor
    {
      keyboard_grab_window, keyboard_grab_screen, keyboardHolder, keyboardWeak := 0, 0, 0, [];
      mouse_grab_window, mouse_grab_screen, pointerHolder, mouseWeak := 0, 0, 0, [];
      mouse_hide_cursor, pointerBlank := false, false;
      serverGrabs, keyboardTries, mouseTries, focusResets := 0, 0, 0, 0;
      this.script := script;
    }

    /** One attempt.  On NULL arguments the precondition macro returns FALSE, which a caller cannot
        tell from GDK_GRAB_SUCCESS. */
    method GetKeyboard(window: Window, screen: Screen) returns (status: Status)
      requires Sound(Keyboard())
      modifies this`keyboard_grab_window, this`keyboard_grab_screen, this`keyboardHolder, this`keyboardWeak,
               this`script, this`keyboardTries
      ensures Sound(Keyboard())
      ensures window == 0 || screen == 0 ==>
                status == Success && Keyboard() == old(Keyboard()) && script == old(script)
                && keyboardTries == old(keyboardTries)
      ensures window != 0 && screen != 0 ==>
                && status == Outcome(old(script)) && script == Rest(old(script))
                && keyboardTries == old(keyboardTries) + 1
                && (if status == Success then HeldBy(Keyboard(), window, screen) else Keyboard() == old(Keyboard()))
    {
      hide Outcome, Rest, RemoveOne;
      if window == 0 || screen == 0 {
        return Success;
      }
      status, script, keyboardTries := Outcome(script), Rest(script), keyboardTries + 1;
      if status == Success {
        keyboardHolder := window;
        if keyboard_grab_window != 0 {
          RemoveOnly(keyboard_grab_window);
          keyboardWeak := RemoveOne(keyboardWeak, keyboard_grab_window);
        }
        keyboard_grab_window := window;
        keyboardWeak := keyboardWeak + [window];
        keyboard_grab_screen := screen;
      }
    }

    method GetMouse(window: Window, screen: Screen, hide_cursor: bool) returns (status: Status)
      requires ValidMouse()
      modifies this`mouse_grab_window, this`mouse_grab_screen, this`mouse_hide_cursor, this`pointerHolder,
               this`pointerBlank, this`mouseWeak, this`script, this`mouseTries
      ensures ValidMouse()
      ensures window == 0 || screen == 0 ==>
                status == Success && Mouse() == old(Mouse()) && mouse_hide_cursor == old(mouse_hide_cursor)
                && script == old(script) && mouseTries == old(mouseTries)
      ensures window != 0 && screen != 0 ==>
                && status == Outcome(old(script)) && script == Rest(old(script))
                && mouseTries == old(mouseTries) + 1
                && (if status == Success then HeldBy(Mouse(), window, screen) && mouse_hide_cursor == hide_cursor
                    else Mouse() == old(Mouse()) && mouse_hide_cursor == old(mouse_hide_cursor))
    {
      hide Outcome, Rest, RemoveOne;
      if window == 0 || screen == 0 {
        return Success;
      }
      status, script, mouseTries := Outcome(script), Rest(script), mouseTries + 1;
      if status == Success {
        pointerHolder, pointerBlank := window, hide_cursor;
        if mouse_grab_window != 0 {
          RemoveOnly(mouse_grab_window);
          mouseWeak := RemoveOne(mouseWeak, mouse_grab_window);
        }
        mouse_grab_window := window;
        mouseWeak := mouseWeak + [window];
        mouse_grab_screen := screen;
        mouse_hide_cursor := hide_cursor;
      }
    }

    /** cs_event_grabber_keyboard_reset forgets the record; the server is not told. */
    method KeyboardReset()
      requires Sound(Keyboard())
      modifies this`keyboard_grab_window, this`keyboard_grab_screen, this`keyboardWeak
      ensures Keyboard() == Device(0, 0, keyboardHolder, [])
    {
      if keyboard_grab_window != 0 {
        keyboardWeak := RemoveOne(keyboardWeak, keyboard_grab_window);
      }
      keyboard_grab_window := 0;
      keyboard_grab_screen := 0;
    }

    method ReleaseKeyboard()
      requires Sound(Keyboard())
      modifies this`keyboard_grab_window, this`keyboard_grab_screen, this`keyboardWeak, this`keyboardHolder
      ensures Sound(Keyboard()) && Keyboard() == Device(0, 0, 0, [])
    {
      keyboardHolder := 0;
      KeyboardReset();
    }

    method MouseReset()
      requires Sound(Mouse())
      modifies this`mouse_grab_window, this`mouse_grab_screen, this`mouseWeak
      ensures Mouse() == Device(0, 0, pointerHolder, [])
    {
      if mouse_grab_window != 0 {
        mouseWeak := RemoveOne(mouseWeak, mouse_grab_window);
      }
      mouse_grab_window := 0;
      mouse_grab_screen := 0;
    }

    method ReleaseMouse()
      requires ValidMouse()
      modifies this`mouse_grab_window, this`mouse_grab_screen, this`mouseWeak, this`pointerHolder
      ensures ValidMouse() && Mouse() == Device(0, 0, 0, [])
    {
      pointerHolder := 0;
      MouseReset();
    }

    method Release()
      requires Valid()
      modifies this
      ensures Valid() && NotHeld(Keyboard()) && NotHeld(Mouse())
      ensures script == old(script) && serverGrabs == old(serverGrabs)
    {
      ReleaseMouse();
      ReleaseKeyboard();
    }

    /** The keyboard loop of `GrabWindow`: up to four attempts, stopping at the first success. */
    method RetryKeyboard(window: Window, screen: Screen) returns (status: Status)
      requires Sound(Keyboard())
      modifies this`keyboard_grab_window, this`keyboard_grab_screen, this`keyboardHolder, this`keyboardWeak,
               this`script, this`keyboardTries
      ensures Sound(Keyboard())
      ensures window == 0 || screen == 0 ==>
                status == Success && Keyboard() == old(Keyboard()) && script == old(script)
                && keyboardTries == old(keyboardTries)
      ensures window != 0 && screen != 0 ==>
                var n := Tries(old(script), RETRIES);
                && (status == Success <==> Wins(old(script), RETRIES))
                && keyboardTries == old(keyboardTries) + n && script == After(old(script), n)
                && (if status == Success then HeldBy(Keyboard(), window, screen) else Keyboard() == old(Keyboard()))
    {
      var i := 0;
      status := Success;
      while i < RETRIES
        invariant Sound(Keyboard()) && 0 <= i <= RETRIES
        invariant i > 0 ==> window != 0 && screen != 0 && status != Success
        invariant keyboardTries == old(keyboardTries) + i
        invariant Wins(script, RETRIES - i) == Wins(old(script), RETRIES)
        invariant i + Tries(script, RETRIES - i) == Tries(old(script), RETRIES)
        invariant After(script, Tries(script, RETRIES - i)) == After(old(script), Tries(old(script), RETRIES))
        invariant Keyboard() == old(Keyboard()) && (i == 0 ==> script == old(script))
      {
        status := GetKeyboard(window, screen);
        if status == Success {
          return;
        }
        i := i + 1;  // after a second's sleep
      }
    }

    method RetryMouse(window: Window, screen: Screen, hide_cursor: bool) returns (status: Status)
      requires ValidMouse()
      modifies this`mouse_grab_window, this`mouse_grab_screen, this`mouse_hide_cursor, this`pointerHolder,
               this`pointerBlank, this`mouseWeak, this`script, this`mouseTries
      ensures ValidMouse()
      ensures window == 0 || screen == 0 ==>
                status == Success && Mouse() == old(Mouse()) && mouse_hide_cursor == old(mouse_hide_cursor)
                && script == old(script) && mouseTries == old(mouseTries)
      ensures window != 0 && screen != 0 ==>
                var n := Tries(old(script), RETRIES);
                && (status == Success <==> Wins(old(script), RETRIES))
                && mouseTries == old(mouseTries) + n && script == After(old(script), n)
                && (if status == Success then HeldBy(Mouse(), window, screen) && mouse_hide_cursor == hide_cursor
                    else Mouse() == old(Mouse()) && mouse_hide_cursor == old(mouse_hide_cursor))
    {
      var i := 0;
      status := Success;
      while i < RETRIES
        invariant ValidMouse() && 0 <= i <= RETRIES
        invariant i > 0 ==> window != 0 && screen != 0 && status != Success
        invariant mouseTries == old(mouseTries) + i
        invariant Wins(script, RETRIES - i) == Wins(old(script), RETRIES)
        invariant i + Tries(script, RETRIES - i) == Tries(old(script), RETRIES)
        invariant After(script, Tries(script, RETRIES - i)) == After(old(script), Tries(old(script), RETRIES))
        invariant Mouse() == old(Mouse()) && mouse_hide_cursor == old(mouse_hide_cursor)
        invariant i == 0 ==> script == old(script)
      {
        status := GetMouse(window, screen, hide_cursor);
        if status == Success {
          return;
        }
        i := i + 1;
      }
    }

    /** Both rounds of keyboard attempts, with the focus reset between them: the part of `GrabWindow`
        before the pointer. */
    method KeyboardRounds(window: Window, screen: Screen) returns (status: Status)
      requires Sound(Keyboard())
      modifies this`keyboard_grab_window, this`keyboard_grab_screen, this`keyboardHolder, this`keyboardWeak,
               this`script, this`keyboardTries, this`focusResets
      ensures Sound(Keyboard())
      ensures window == 0 || screen == 0 ==> status == Success && Keyboard() == old(Keyboard())
      ensures window != 0 && screen != 0 ==>
                var n := Tries(old(script), 2 * RETRIES);
                && (status == Success <==> Wins(old(script), 2 * RETRIES))
                && keyboardTries == old(keyboardTries) + n && script == After(old(script), n)
                && focusResets == old(focusResets) + (if Wins(old(script), RETRIES) then 0 else 1)
                && (if status == Success then HeldBy(Keyboard(), window, screen) else Keyboard() == old(Keyboard()))
    {
      SeriesAddUp(script, RETRIES, RETRIES);
      WinningMeans(script, RETRIES);
      AfterSplits(script, RETRIES, Tries(After(script, RETRIES), RETRIES));
      status := RetryKeyboard(window, screen);
      if status != Success {
        focusResets := focusResets + 1;
        status := RetryKeyboard(window, screen);
      }
    }

    /** All or nothing.  TRUE exactly when one of the first eight attempts at the keyboard and then one
        of the next four at the pointer succeeds, and then both devices are held; on FALSE every device
        that was won is given back, so whoever starts with nothing ends with nothing. */
    method GrabWindow(window: Window, screen: Screen, hide_cursor: bool) returns (ok: bool)
      requires Valid()
      modifies this
      ensures Valid() && serverGrabs == old(serverGrabs)
      // For NULL the answer is TRUE although nothing was grabbed.
      ensures window == 0 || screen == 0 ==> ok && Keyboard() == old(Keyboard()) && Mouse() == old(Mouse())
      ensures window != 0 && screen != 0 ==>
                var n := Tries(old(script), 2 * RETRIES);
                var left := After(old(script), n);
                && ok == (Wins(old(script), 2 * RETRIES) && Wins(left, RETRIES))
                && (ok ==> HeldBy(Keyboard(), window, screen) && HeldBy(Mouse(), window, screen)
                           && mouse_hide_cursor == hide_cursor)
                && (!ok ==>
                  && Keyboard() == (if Wins(old(script), 2 * RETRIES) then Device(0, 0, 0, []) else old(Keyboard()))
                  && Mouse() == (if Wins(left, RETRIES) then Device(0, 0, 0, []) else old(Mouse()))
                  && (old(NotHeld(Keyboard())) ==> NotHeld(Keyboard()))
                  && (old(NotHeld(Mouse())) ==> NotHeld(Mouse())))
                && keyboardTries - old(keyboardTries) == n <= 8
                && mouseTries - old(mouseTries) == Tries(left, RETRIES) <= 4
                && focusResets == old(focusResets) + (if Wins(old(script), RETRIES) then 0 else 1)
                && script == After(left, Tries(left, RETRIES))
                && (!ok ==> |script| < |old(script)|)
    {
      hide Wins, Tries, After, Outcome;
      AttemptsUseScript(script, Tries(script, 2 * RETRIES));
      ghost var left := After(script, Tries(script, 2 * RETRIES));
      AttemptsUseScript(left, Tries(left, RETRIES));
      AttemptsUseScript([], 2 * RETRIES);
      AttemptsUseScript([], RETRIES);
      WinningMeans(script, 2 * RETRIES);
      WinningMeans(After(script, Tries(script, 2 * RETRIES)), RETRIES);
      var kstatus := KeyboardRounds(window, screen);
      var mstatus := RetryMouse(window, screen, hide_cursor);
      if kstatus != Success || mstatus != Success {
        if kstatus == Success {
          ReleaseKeyboard();
        }
        if mstatus == Success {
          ReleaseMouse();
        }
        return false;
      }
      return true;
    }

    /** One try at moving the pointer grab.  A record without a grab is forgotten first; a failed move
        ends with the old grab restored, cursor and all, or with nothing. */
    method MoveMouse(window: Window, screen: Screen, hide_cursor: bool) returns (ok: bool)
      requires Valid()
      modifies this
      ensures Valid() && serverGrabs == old(serverGrabs)
      ensures Keyboard() == old(Keyboard())
      ensures window == 0 ==> ok && NotHeld(Mouse()) && script == old(script)
      ensures window != 0 && screen == 0 ==>
                ok && script == old(script) && (Mouse() == old(Mouse()) || NotHeld(Mouse()))
      ensures window != 0 && screen != 0 ==>
                var s, had := old(script), old(pointerHolder) != 0;
                if had && old(mouse_grab_window) == window then
                  ok && Mouse() == old(Mouse()) && mouse_hide_cursor == old(mouse_hide_cursor) && script == s
                else
                  && ok == Wins(s, 2)
                  && (ok ==> HeldBy(Mouse(), window, screen) && mouse_hide_cursor == hide_cursor)
                  && (!ok ==>
                    && |script| < |s|
                    && if had && Outcome(After(s, 2)) == Success
                       then Mouse() == old(Mouse()) && mouse_hide_cursor == old(mouse_hide_cursor)
                       else NotHeld(Mouse()))
    {
      if pointerHolder == 0 {
        MouseReset();
      }
      if mouse_grab_window == window {
        return true;
      }
      TwoTries(script);
      serverGrabs := serverGrabs + 1;
      var old_window, old_screen, old_hide_cursor := mouse_grab_window, mouse_grab_screen, mouse_hide_cursor;
      if old_window != 0 {
        ReleaseMouse();
      }
      var result := GetMouse(window, screen, hide_cursor);
      if result != Success {
        result := GetMouse(window, screen, hide_cursor);
      }
      if result != Success && old_window != 0 {
        var _ := GetMouse(old_window, old_screen, old_hide_cursor);
      }
      serverGrabs := serverGrabs - 1;
      return result == Success;
    }

    /** The same for the keyboard, except that nothing asks the server whether the recorded grab still
        exists: a move to the recorded window does nothing at all. */
    method MoveKeyboard(window: Window, screen: Screen) returns (ok: bool)
      requires Valid()
      modifies this
      ensures Valid() && serverGrabs == old(serverGrabs)
      ensures Mouse() == old(Mouse()) && mouse_hide_cursor == old(mouse_hide_cursor)
      ensures old(keyboard_grab_window) == window ==> ok && Keyboard() == old(Keyboard()) && script == old(script)
      ensures window == 0 ==> ok && keyboard_grab_window == 0 && script == old(script)
      ensures window != 0 && screen == 0 ==>
                && ok && script == old(script)
                && (if old(keyboard_grab_window) == window then Keyboard() == old(Keyboard()) else NotHeld(Keyboard()))
      ensures window != 0 && screen != 0 ==>
                var s := old(script);
                if old(keyboard_grab_window) == window then
                  ok && Keyboard() == old(Keyboard()) && script == s
                else
                  && ok == Wins(s, 2)
                  && (ok ==> HeldBy(Keyboard(), window, screen))
                  && (!ok ==>
                    && |script| < |s|
                    && if old(keyboard_grab_window) != 0 && Outcome(After(s, 2)) == Success
                       then HeldBy(Keyboard(), old(keyboard_grab_window), old(keyboard_grab_screen))
                       else NotHeld(Keyboard()))
    {
      if keyboard_grab_window == window {
        return true;
      }
      TwoTries(script);
      serverGrabs := serverGrabs + 1;
      var old_window, old_screen := keyboard_grab_window, keyboard_grab_screen;
      if old_window != 0 {
        ReleaseKeyboard();
      }
      var result := GetKeyboard(window, screen);
      if result != Success {
        result := GetKeyboard(window, screen);
      }
      if result != Success && old_window != 0 {
        var _ := GetKeyboard(old_window, old_screen);
      }
      serverGrabs := serverGrabs - 1;
      return result == Success;
    }

    /** Never fails, and ends: each failed round uses up failures of the oracle.  Afterwards the pointer is
        held by the target, and the keyboard is recorded on it.  The server agrees about the keyboard
        unless the grab had been lost while the record already named the target.  For a NULL window or screen
        both moves count as won at once, and what was held elsewhere is let go. */
    method MoveToWindow(window: Window, screen: Screen, hide_cursor: bool)
      requires Valid()
      modifies this
      ensures Valid() && serverGrabs == old(serverGrabs)
      ensures window != 0 && screen != 0 ==>
        && Mouse().window == window == Mouse().held
        && ((HeldBy(Mouse(), window, screen) && mouse_hide_cursor == hide_cursor)
            || (Mouse() == old(Mouse()) && mouse_hide_cursor == old(mouse_hide_cursor)))
        && keyboard_grab_window == window
        && (keyboardHolder == window <==> !(old(keyboard_grab_window) == window && old(keyboardHolder) == 0))
        && (old(keyboard_grab_window) != window ==> HeldBy(Keyboard(), window, screen))
      ensures window == 0 ==> keyboard_grab_window == 0 && NotHeld(Mouse())
      ensures window != 0 && screen == 0 ==>
        && (if old(keyboard_grab_window) == window then Keyboard() == old(Keyboard()) else NotHeld(Keyboard()))
        && (Mouse() == old(Mouse()) || NotHeld(Mouse()))
      ensures window == 0 || screen == 0 ==> script == old(script)
    {
      var result := MoveKeyboard(window, screen);
      while !result
        invariant Valid() && serverGrabs == old(serverGrabs)
        invariant Mouse() == old(Mouse()) && mouse_hide_cursor == old(mouse_hide_cursor)
        invariant result && old(keyboard_grab_window) == window ==> Keyboard() == old(Keyboard())
        invariant window != 0 && screen != 0 && result && old(keyboard_grab_window) != window ==>
                    HeldBy(Keyboard(), window, screen)
        invariant !result ==> old(keyboard_grab_window) != window && keyboard_grab_window != window
        invariant window == 0 || screen == 0 ==> result && script == old(script)
        invariant window == 0 ==> keyboard_grab_window == 0
        invariant window != 0 && screen == 0 && old(keyboard_grab_window) != window ==> NotHeld(Keyboard())
        decreases !result, |script|
      {
        result := MoveKeyboard(window, screen);
      }
      ghost var k := Keyboard();
      result := MoveMouse(window, screen, hide_cursor);
      while !result
        invariant Valid() && serverGrabs == old(serverGrabs) && Keyboard() == k
        invariant window != 0 && screen != 0 && result ==>
                    (HeldBy(Mouse(), window, screen) && mouse_hide_cursor == hide_cursor)
                    || (Mouse() == old(Mouse()) && mouse_hide_cursor == old(mouse_hide_cursor)
                        && Mouse().window == window == Mouse().held)
        invariant !result ==> mouse_grab_window != window
        invariant window == 0 || screen == 0 ==> result && script == old(script)
        invariant window == 0 ==> NotHeld(Mouse())
        invariant window != 0 && screen == 0 ==> Mouse() == old(Mouse()) || NotHeld(Mouse())
        decreases !result, |script|
      {
        result := MoveMouse(window, screen, hide_cursor);
      }
    }

    // ------------------------------------------------------- what the outside may do

    /** A window is destroyed: weak pointers to it are cleared, and the server drops its grabs. */
    method WindowDestroyed(w: Window)
      requires Valid() && w != 0
      modifies this
      ensures Valid()
      ensures Keyboard() == (if old(keyboard_grab_window) == w then Device(0, old(keyboard_grab_screen), 0, [])
                             else old(Keyboard()))
      ensures Mouse() == (if old(mouse_grab_window) == w then Device(0, old(mouse_grab_screen), 0, [])
                          else old(Mouse()))
    {
      if w in keyboardWeak {
        keyboardWeak := RemoveOne(keyboardWeak, w);
        keyboard_grab_window := 0;
      }
      if w in mouseWeak {
        mouseWeak := RemoveOne(mouseWeak, w);
        mouse_grab_window := 0;
      }
      if keyboardHolder == w {
        keyboardHolder := 0;
      }
      if pointerHolder == w {
        pointerHolder := 0;
      }
    }

    /** The server takes a device away; the records do not notice. */
    method GrabBroken(keyboard: bool, pointer: bool)
      requires Valid()
      modifies this`keyboardHolder, this`pointerHolder
      ensures Valid()
      ensures Keyboard() == old(Keyboard()).(held := if keyboard then 0 else old(keyboardHolder))
      ensures Mouse() == old(Mouse()).(held := if pointer then 0 else old(pointerHolder))
    {
      if keyboard {
        keyboardHolder := 0;
      }
      if pointer {
        pointerHolder := 0;
      }
    }
  }

  /** A broken grab is not mended by moving to the window it was recorded on: afterwards the pointer is
      held again and the keyboard is not.  This is what Stage.on_grab_broken_event asks for. */
  method MoveAfterBreak(grab: CsEventGrabber, window: Window, screen: Screen)
    requires grab.Valid() && window != 0 && screen != 0
    requires HeldBy(grab.Keyboard(), window, screen) && HeldBy(grab.Mouse(), window, screen)
    modifies grab
    ensures grab.pointerHolder == window
    ensures grab.keyboardHolder == 0 && grab.keyboard_grab_window == window
  {
    grab.GrabBroken(true, true);
    grab.MoveToWindow(window, screen, true);
  }

  /** Grabbing another window first, as the backup locker does, mends both whenever that grab succeeds. */
  method RegrabAfterBreak(grab: CsEventGrabber, root: Window, window: Window, screen: Screen) returns (ok: bool)
    requires grab.Valid() && window != 0 && screen != 0 && root != 0 && root != window
    modifies grab
    ensures grab.Valid()
    ensures ok == (Wins(old(grab.script), 2 * RETRIES)
                   && Wins(After(old(grab.script), Tries(old(grab.script), 2 * RETRIES)), RETRIES))
    ensures ok ==> HeldBy(grab.Keyboard(), window, screen) && HeldBy(grab.Mouse(), window, screen)
    ensures !ok ==> grab.keyboardHolder == 0 && grab.pointerHolder == 0
  {
    grab.GrabBroken(true, true);
    ok := grab.GrabWindow(root, screen, false);
    if ok {
      grab.MoveToWindow(window, screen, false);
    }
  }
}
