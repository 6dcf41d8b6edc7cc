# A verified model of cinnamon-screensaver's locking core

cinnamon-screensaver locks a Cinnamon desktop. Several of its parts keep state and react to one another: two
processes raise their windows in answer to each other, input grabs are moved between windows, a manager couples
a stage, timers and a fallback process, a PAM helper talks to the screensaver through a pipe, and widgets are laid
out on several monitors. This project states what these parts promise, for every input, every schedule and every
answer of the outside, and proves it. `dafny verify dfyconfig.toml` checks all of it.

Code that works by changing state is written as classes with methods. The methods are tied to functions on values,
and what must hold over whole runs is proved about those functions or kept by the methods as an invariant.

| file | what it is about |
|---|---|
| `WindowStacking.dfy`, `StackingProtocol.dfy` | the event filter of both processes, and the protocol they form with the X server |
| `EventGrabber.dfy` | getting, moving and losing keyboard and pointer grabs, against a script of failures |
| `BackupLocker.dfy` | the backup locker: outstanding monitor tasks and deferred grabbing |
| `LockManager.dfy`, `LockEvents.dfy` | the manager with the stage and the status flags, and what each event does seen from outside |
| `PamHandshake.dfy`, `PamConversation.dfy`, `Utf8.dfy` | the PAM worker thread, its replies, and the repair of messages |
| `HelperProtocol.dfy`, `AuthClient.dfy`, `PamHelper.dfy`, `AuthSession.dfy` | the lines between helper and client, the sessions on both sides, and both together |
| `MonitorGeometry.dfy` | from the reported monitors to the ones in use |
| `Floating.dfy`, `StageLayout.dfy` | where floating widgets and the unlock dialog go |
| `Lists.dfy` | what two of the others need about sequences |
| `FocusNavigator.dfy`, `TimerTracker.dfy` | tab navigation, and named timers with re-entrant callbacks |

## What the proofs say about the code

Some promises hold only under a condition. Each of these is proved both ways, or shown by a method or lemma.

- Moving grabs to the window that is already on record mends the pointer but not the keyboard: only the pointer's
  record is checked against the server (`MoveToWindow`, `MoveAfterBreak`). Grabbing the root window first, as the
  backup locker does, mends both (`RegrabAfterBreak`).
- The backup locker answers every window but its own, grabbers', fcitx's and any that is titled like the screensaver's,
  whoever made it (`BackupAnswersExactly`). A window of that title is adopted and never risen over, so safety holds with
  this exception, and only with it: `LookalikeStaysOver` is a run that ends quiet with such a window over the backup.
  A backup that has taken over the input lets go of it for such a window (`TakesForScreensaver`).
- For a NULL window or screen the attempt functions return FALSE, which is also the code for success.
- Unlocking ends idle exactly when there is no stage or a realized one. On a stage that is not realized yet it stops at
  an exception (`UnlockEndsIdle`, and `UnlockFailsEarly` for a run that gets there).
- A refresh keeps the screen active exactly when no other refresh was asked for during an earlier one
  (`RefreshKeepsActive`). Otherwise it may end locked, with a stage and not active, and then no user activity brings up
  the dialog (`RefreshDeactivates`; `RefreshLocksOut` is a run that gets there).
- After a failed start of the fallback, killing it signals process 0, the whole group (`KillTargets`).
- A spurious wakeup of the waiting PAM worker does no harm exactly while the main thread holds the mutex
  (`WakeIsHarmlessExactly`). Any other one lets the call return unanswered; `FailureFromStart` is the shortest run.
- A cancelled helper is silent only until the monitor of its standard input has ended, because `shutdown` drops the
  cancellable. What is printed after that follows the grammar exactly if no prompt was open when the cancellation came
  and no FAILURE was kept silent before a CANCELLED (`EverySessionIsAccounted`). `CancelledWhileAsking` is a session
  that prints a prompt, BUSY_FALSE and then FAILURE. A prompt after that is waited for without end
  (`PromptAfterShutdown`).
- A list of helper messages is read back as itself exactly when no text has a newline or one of the other tokens
  (`ReadsBackExactly`). Underscores and a message's own token do no harm.
- The event filter does not look again at a screensaver window it already knows, even when that window was thought
  gone, and the backup then holds on to the input (`ScreensaverSeen`, `KnownWindowComesBack`).
- The album art can join the clock without overlap exactly when the clock is not, and is not about to be, where the album
  art appears; before the first draw that is always so (`JoinKeepsSpread`, `HomeHasRoom`, `DrawnMayCollide`).
- With no monitor reported, a changed screen is compared with its own former size (`BareScreen`).
- The awake layout works exactly for dialogs no wider than the monitor (`AwakeNeverCollides`).
- Tab navigation ends exactly when some widget is sensitive (`SearchEnds`).
- A timer callback that raises leaves a stale record exactly when it did not cancel or restart its own timer first
  (`RaisingLeavesStale`).


## Assumptions

- X: window ids are not used again while somebody knows them; a window's title and class stay what they are when it is
  created, whoever creates it; foreign windows are mapped, moved, restacked and destroyed by others only; the backup's
  window starts on top (CreateWindow, section 9 of the X Window System Protocol, Version 11); both processes read
  their notifications in order. Between two turns of the main loop there is one live Stage, and a stage window and its
  overlay are realized in one step. The toolkit may leave a stage unrealized when it is shown, a case the code
  provides for (src/stage.py:203-206).
- A script says how the next grab attempts end. It is a finite list, after which attempts succeed. Sleeping takes no time.
- Stage construction succeeds. Signals, timers and D-Bus requests are events that come in any order. The manager's
  refresh works on the current stage once it is realized.
- PAM, gettext and GSettings answer as they like, and so does the process table, except that the PID on record does not
  pass to a process of another user, for which `os.kill` would raise out of `set_locked` (src/manager.py:307-313). GLib's condition may wake a waiting thread without a
  signal; where that is harmful is part of the results. Main-loop source ids are positive and not used twice.
- The float timer does not fire before the album art has joined: its period is 5 or 30 seconds, the delay 2.
- In `Deliver` a read from the helper's pipe ends on a message boundary. Every other statement about reads is for any text.
- Rectangles have unbounded integer coordinates, the layout has real ones. Monitors do not overlap where a layout lemma
  says so, and do not change during a run of layout passes; a change brings a new stage.

## Model

| member | source | states |
|---|---|---|
| WindowStacking.MoveKeepsOrder | libcscreensaver/cs-gdk-event-filter-x11.c:139-159 | restacking one window keeps the windows there are and the order of all the others |
| WindowStacking.MovePlaces | libcscreensaver/cs-gdk-event-filter-x11.c:139-159 | and the one that is restacked is where it was put |
| WindowStacking.RaiseOnce | libcscreensaver/cs-gdk-event-filter-x11.c:139-159 | a raised window is on top, with one notification to each listener if it was not, and raising it again changes nothing |
| WindowStacking.StartRaises | libcscreensaver/cs-gdk-event-filter-x11.c:347-377 | at its start a screensaver rises and a backup leaves its screensaver window where it is |
| WindowStacking.XServer.RaiseWindow | libcscreensaver/cs-gdk-event-filter-x11.c:139-159 | raising a window that is not on top puts it there and notifies both listeners; an unknown window or one on top changes nothing |
| WindowStacking.CsGdkEventFilter.constructor | libcscreensaver/cs-gdk-event-filter-x11.c:385-401 | a filter made for a screensaver window is a backup's, one made for none is the screensaver's |
| WindowStacking.CsGdkEventFilter.Restack | libcscreensaver/cs-gdk-event-filter-x11.c:109-164 | the filter skips grabber windows, adopts a new screensaver window with one signal, and raises its own window, for a backup only if the other is not the screensaver's |
| WindowStacking.CsGdkEventFilter.Xevent | libcscreensaver/cs-gdk-event-filter-x11.c:166-244 | which notifications reach the restacking and which are dropped: root, fcitx for a backup, and the filter's own window; a backup, and only a backup, reports a new screen size |
| WindowStacking.CsGdkEventFilter.Start | libcscreensaver/cs-gdk-event-filter-x11.c:347-377 | a starting screensaver raises itself, a starting backup stays quiet for its screensaver window |
| StackingProtocol.SaverReadsKeepsInv | libcscreensaver/cs-gdk-event-filter-x11.c:109-241 | the screensaver's reading of a notification keeps each window over it, and over the backup, tied to a notification still to be read |
| StackingProtocol.BackupReadsKeepsInv | libcscreensaver/cs-gdk-event-filter-x11.c:109-241 | the same for the backup's reading, which may put the backup over the screensaver, and may resize the backup |
| StackingProtocol.BackupAnswersExactly | libcscreensaver/cs-gdk-event-filter-x11.c:109-159 | the backup answers a window if and only if it is not its own, not fcitx's, and titled neither as a grabber nor like the screensaver's |
| StackingProtocol.SaverAnswersExactly | libcscreensaver/cs-gdk-event-filter-x11.c:109-159 | the screensaver answers every window but its own and grabbers' |
| StackingProtocol.TitledIsAdopted | libcscreensaver/cs-gdk-event-filter-x11.c:125-150 | a window titled like the screensaver's is adopted, and the stack and both queues stay as they are |
| StackingProtocol.MapReaches | libcscreensaver/cs-gdk-event-filter-x11.c:166-241 | a foreign window that is mapped is announced to both processes, one that was mapped already or is unmapped to nobody |
| StackingProtocol.RestackReaches | libcscreensaver/cs-gdk-event-filter-x11.c:166-241 | one that is moved is where it was put and is announced to both |
| StackingProtocol.DestroyReaches | libcscreensaver/cs-gdk-event-filter-x11.c:166-241 | one that is destroyed leaves the stack, and nobody is told |
| StackingProtocol.OwnStepsReach | backup-locker/cs-backup-locker.c:77-100 | new screen sizes and moves of own windows are announced to both; a killed backup leaves no window and no queue |
| StackingProtocol.ResizeReaches | backup-locker/cs-backup-locker.c:77-100 | a backup that reads of a new size may move its window, of which both hear, and stays the filter it was |
| StackingProtocol.NotifiedKeepsInv | libcscreensaver/cs-gdk-event-filter-x11.c:166-241 | a foreign map or restack, a new screen size and a move of an own window put at most a foreign window that is announced to both over anybody |
| StackingProtocol.SilentKeepsInv | libcscreensaver/cs-gdk-event-filter-x11.c:166-241 | creating a foreign window of any title, and unmapping one, of which nobody is told, covers nobody |
| StackingProtocol.DestroyKeepsInv | libcscreensaver/cs-gdk-event-filter-x11.c:166-241 | destroying a foreign window covers nobody |
| StackingProtocol.SpawnKeepsInv | backup-locker/cs-backup-locker.c:275-398 | a backup that starts on top of everything is covered by nobody and is announced to the screensaver, also when the stage it was told of has been replaced by then |
| StackingProtocol.RecreateKeepsInv | backup-locker/cs-backup-locker.c:211-228 | so is one that realizes its window anew, under another XID and with its queue kept |
| StackingProtocol.KillKeepsInv | src/manager.py:301-330 | killing the backup keeps the invariant |
| StackingProtocol.RefreshKeepsInv | src/manager.py:427-446 | replacing the stage window keeps the invariant for the new one |
| StackingProtocol.StepKeepsInv | libcscreensaver/cs-gdk-event-filter-x11.c:109-241 | every step of the whole system keeps the invariant |
| StackingProtocol.RunKeepsInv | libcscreensaver/cs-gdk-event-filter-x11.c:109-241 | so does every run |
| StackingProtocol.StackingIsSafe | libcscreensaver/cs-gdk-event-filter-x11.c:109-241 | after any run, an empty screensaver queue means no mapped window but grabber windows is over the screensaver, and an empty backup queue no foreign one but grabber and fcitx windows and windows titled like the screensaver's over the backup |
| StackingProtocol.LookalikeStaysOver | libcscreensaver/cs-gdk-event-filter-x11.c:125-150 | a run from a stage alone to two empty queues with such a window mapped over the backup, so the exception is needed |
| StackingProtocol.StepPaysForItself | libcscreensaver/cs-gdk-event-filter-x11.c:139-159 | no step does more work than the queued weight it takes off, plus a fixed amount for steps of the environment; a window that is replaced adds what the queued notices about the old one weigh more |
| StackingProtocol.WorkIsBounded | libcscreensaver/cs-gdk-event-filter-x11.c:139-159 | over every run, refreshes, re-created backups and new screen sizes included, work done plus work queued is bounded by the work there was plus what the environment's steps add |
| StackingProtocol.BackupReadsPays | backup-locker/cs-backup-locker.c:77-100 | the backup's reading, with the move of its own window on a new screen size, stays within the notification's weight |
| StackingProtocol.SpawnPays | backup-locker/cs-backup-locker.c:257-273 | a backup that starts, with the move of its window, adds at most seven notifications to read and two raises of the screensaver |
| StackingProtocol.RecreatePays | backup-locker/cs-backup-locker.c:211-228 | one that realizes its window anew adds at most eight and two, and what the notices about its old window weigh more |
| StackingProtocol.OwnStepsPay | backup-locker/cs-backup-locker.c:77-100 | a new screen size adds at most six notifications and one raise, a move of an own window two, or four and one, and a step nobody hears of nothing |
| StackingProtocol.NoLivelock | libcscreensaver/cs-gdk-event-filter-x11.c:139-159 | from quiet queues n foreign maps and restacks lead to at most 8n notifications read, 2n raises by the screensaver and n by the backup |
| StackingProtocol.BecomesQuiet | libcscreensaver/cs-gdk-event-filter-x11.c:139-159 | left alone, every schedule of readings from a state that keeps the invariant ends within the weight of the queues, also when the backup resizes itself |
| EventGrabber.WinningMeans | libcscreensaver/cs-event-grabber.c:498-506 | a series of attempts wins exactly when one below the limit succeeds; that one is the last, all before it failed, and a lost series uses up its limit |
| EventGrabber.SeriesAddUp | libcscreensaver/cs-event-grabber.c:496-515 | two rounds of attempts are one longer round |
| EventGrabber.AttemptsUseScript | libcscreensaver/cs-event-grabber.c:603-625 | every attempt uses up one of the finitely many failures, after which attempts win |
| EventGrabber.CsEventGrabber.GetKeyboard | libcscreensaver/cs-event-grabber.c:163-192 | one attempt moves record, weak pointer and device to the window, or changes nothing; NULL reads as success |
| EventGrabber.CsEventGrabber.GetMouse | libcscreensaver/cs-event-grabber.c:194-230 | the same for the pointer with its cursor flag |
| EventGrabber.CsEventGrabber.KeyboardReset | libcscreensaver/cs-event-grabber.c:232-241 | no record and no weak pointer are left, whatever the server says about the device |
| EventGrabber.CsEventGrabber.ReleaseKeyboard | libcscreensaver/cs-event-grabber.c:243-252 | neither record nor server gives us the keyboard any more |
| EventGrabber.CsEventGrabber.MouseReset | libcscreensaver/cs-event-grabber.c:254-264 | no record and no weak pointer are left, whatever the server says about the device |
| EventGrabber.CsEventGrabber.ReleaseMouse | libcscreensaver/cs-event-grabber.c:266-275 | neither record nor server gives us the pointer any more |
| EventGrabber.CsEventGrabber.Release | libcscreensaver/cs-event-grabber.c:416-429 | nothing is held afterwards |
| EventGrabber.CsEventGrabber.RetryKeyboard | libcscreensaver/cs-event-grabber.c:498-506 | up to four attempts, stopping at the first success, with the number made |
| EventGrabber.CsEventGrabber.RetryMouse | libcscreensaver/cs-event-grabber.c:517-525 | up to four attempts at the pointer, with the number made; a lost round leaves the old grab as it was |
| EventGrabber.CsEventGrabber.KeyboardRounds | libcscreensaver/cs-event-grabber.c:496-515 | at most eight attempts, with one focus reset exactly when the first four fail |
| EventGrabber.CsEventGrabber.GrabWindow | libcscreensaver/cs-event-grabber.c:481-564 | TRUE exactly when both devices are won within 8 and 4 attempts, and then the window holds both; on FALSE whatever was won is given back, and who started with nothing ends with nothing |
| EventGrabber.CsEventGrabber.MoveMouse | libcscreensaver/cs-event-grabber.c:277-343 | one move won in two tries; a failed one ends with the old grab, screen and cursor restored or with nothing; server grabs balance |
| EventGrabber.CsEventGrabber.MoveKeyboard | libcscreensaver/cs-event-grabber.c:345-397 | the same for the keyboard, which trusts its record |
| EventGrabber.CsEventGrabber.MoveToWindow | libcscreensaver/cs-event-grabber.c:603-625 | terminates with both records on the target and the pointer held; the keyboard is held too exactly unless the record named the target while the grab had been lost; NULL arguments end it at once and let go of what was held elsewhere |
| EventGrabber.CsEventGrabber.WindowDestroyed | libcscreensaver/cs-event-grabber.c:183-187 | a destroyed window clears the fields with weak pointers to it and leaves the one-pointer-per-record invariant intact |
| EventGrabber.MoveAfterBreak | src/stage.py:189-192 | moving to the window on record after a break brings back the pointer and not the keyboard |
| EventGrabber.RegrabAfterBreak | backup-locker/cs-backup-locker.c:136-168 | grabbing the root first brings back both exactly when that grab is won, and leaves neither held when it is lost |
| BackupLocker.BackupWindow.constructor | backup-locker/cs-backup-locker.c:429-469 | a new backup watches the window it was given and must not grab |
| BackupLocker.BackupWindow.ActivateCallback | backup-locker/cs-backup-locker.c:136-168 | the idle callback repeats only while it should grab and failed to; when it ends, both devices are held or nothing is |
| BackupLocker.BackupWindow.ActivateBackupWindow | backup-locker/cs-backup-locker.c:170-175 | an activation is pending afterwards |
| BackupLocker.BackupWindow.GrabBrokenReported | backup-locker/cs-backup-locker.c:185-197 | a reported break leads to a new activation exactly when a handler is connected and the window should grab |
| BackupLocker.BackupWindow.GrabsBreak | backup-locker/cs-backup-locker.c:185-197 | losing devices to the server keeps the invariant, because a report is to come |
| BackupLocker.BackupWindow.CompositedChanged | backup-locker/cs-backup-locker.c:199-244 | re-creating the window loses its grabs and schedules an activation when it should grab; without an RGBA visual the locker quits and holds nothing |
| BackupLocker.BackupWindow.ScreensaverSeen | backup-locker/cs-backup-locker.c:246-255 | a new screensaver window ends all grabs and is watched by a task of its own; a known one changes nothing |
| BackupLocker.BackupWindow.SetupWindowMonitor | backup-locker/cs-backup-locker.c:545-566 | the new window is on record and one more task is outstanding for it |
| BackupLocker.BackupWindow.MonitorDone | backup-locker/cs-backup-locker.c:510-543 | the end of the task for the window on record starts the take-over; a late one for any other window changes nothing |
| BackupLocker.BackupWindow.RunIdle | backup-locker/cs-backup-locker.c:136-168 | the repeated idle callback ends, with the devices held if they should be |
| BackupLocker.Run | backup-locker/cs-backup-locker.c:136-255 | over every run of events: should_grab exactly when no window is on record, holding implies should_grab, should_grab implies held or an activation or a report pending, and the window on record has an outstanding task; a locker that quits holds nothing |
| BackupLocker.TakesOver | backup-locker/cs-backup-locker.c:510-543 | when the watched window is gone and nothing else comes, the backup ends up with keyboard and pointer |
| BackupLocker.KnownWindowComesBack | libcscreensaver/cs-gdk-event-filter-x11.c:125-137 | a known window that was thought gone and shows up again leaves the backup holding the input |
| BackupLocker.TakesForScreensaver | backup-locker/cs-backup-locker.c:246-255 | a backup that has taken over lets go of all input for a new window titled like the screensaver's and watches it |
| LockManager.StepKeepsJoint | src/manager.py:65-146 | every request, signal and timer, exceptions included, keeps the joint invariant |
| LockManager.RunKeepsJoint | src/manager.py:65-146 | so does every run |
| LockManager.EveryRunIsJoint | src/manager.py:65-146 | in every reachable state: active implies a stage, awake implies active and locked, a live lock delay implies active, the hold count is 1 exactly with a stage, a fallback pid implies locked, and the fallbacks not yet signalled are exactly the one on record |
| LockManager.ActivatedKeepsJoint | src/manager.py:119-138 | activation keeps the invariant whether grabbing and realizing succeed or not, and with grabs there is a stage |
| LockManager.LockedKeepsJoint | src/manager.py:65-73 | locking records the fallback, at once or when the stage is realized |
| LockManager.SpawnCompleteKeepsJoint | src/manager.py:332-351 | a finished stage ends a refresh, activates and stamps the timers |
| LockManager.SpawnStageKeepsJoint | src/manager.py:209-222 | a new stage is in place, realized or not |
| LockManager.RealizedKeepsJoint | src/stage.py:215-237 | a late realization fires the stored callback and the deferred fallback |
| LockManager.RefreshedKeepsJoint | src/manager.py:427-446 | a refresh keeps the invariant and the old stage goes when the new one is there |
| LockManager.LockKeepsJoint | src/manager.py:75-97 | a lock request keeps the invariant, granted or not |
| LockManager.UnlockKeepsJoint | src/manager.py:99-105 | so do unlocking and deactivation |
| LockManager.FallbackStaysKnown | src/manager.py:274-330 | spawning and killing keep the list of living fallbacks equal to the one on record |
| LockManager.UnlockEndsIdle | src/manager.py:99-105 | unlocking ends idle if and only if there is no stage or a realized one; otherwise it stops at an exception |
| LockManager.UnlockFailsEarly | src/manager.py:99-105 | a run from the start to the failing case: an activation whose stage is slow, where unlocking raises and takes nothing down |
| LockManager.LockThenUnlock | src/manager.py:75-105 | unlock takes back everything lock did, and the process lock started is signalled once |
| LockManager.KillTargets | src/manager.py:301-330 | SIGTERM goes to the process on record, or to 0 after a failed start, and to nobody exactly when there is neither |
| LockManager.OnlyUnlockUnlocks | src/manager.py:65-105 | only an unlock request undoes a lock, and until then the backup on record stays, even when the stage goes |
| LockManager.WakingNeedsPam | src/manager.py:164-207 | only user activity or the end of a refresh brings up the unlock dialog, and only when active, locked and with PAM at work; that it then does is `WakesExactly` and `RefreshReplaces` |
| LockManager.LockedProtects | src/manager.py:224-233 | locking leaves a backup on record, a failed start, or a start that waits for the stage |
| LockManager.StepKeepsProtected | src/manager.py:65-146 | no event leaves a locked session without one of the three |
| LockManager.EveryRunIsProtected | src/manager.py:65-146 | so in every reachable locked state |
| LockManager.StageStaysUp | src/manager.py:353-370 | a stage is taken down exactly by an unlock request, a deactivation or the queued idle deactivation, and only once realized |
| LockManager.ScreensaverManager.Dispatch | src/manager.py:65-505 | one main-loop event takes the object where `Step` does, whose effects the `LockEvents` lemmas tell, and keeps the invariant |
| LockManager.ScreensaverManager.RunEvents | src/manager.py:65-505 | so does every run of events |
| LockEvents.WakesExactly | src/manager.py:164-207 | user activity wakes a screen that is asleep if and only if it is active and locked, its stage is realized and PAM is at work |
| LockEvents.ActivityWakesOrLeaves | src/manager.py:164-207 | on an active, realized stage user activity brings up the dialog and starts its timer when locked with PAM at work, and changes nothing else; otherwise the idle callback it queues ends without a stage, with lock and backup as they were |
| LockEvents.IdleScreenStaysIdle | src/manager.py:180-181 | a screen that is not active ignores the user |
| LockEvents.LockThenWake | src/manager.py:75-207 | from idle, a lock request and then user activity end locked with the dialog up and its timer running |
| LockEvents.SleepsAgain | src/stage.py:626-633 | Escape when awake and the wake timer when it runs put the screen to sleep and change nothing else; without their cause they do nothing |
| LockEvents.NoGrabsNoChange | src/manager.py:119-135 | without server grabs a request to lock or activate an idle screen changes nothing |
| LockEvents.ActivationShows | src/manager.py:448-499 | an activated screen is active, held, stamped and asleep; it is locked at once exactly if it was or if idle locking is on, allowed and without delay, and the delay runs exactly if there is one |
| LockEvents.ActivationShowsLater | src/stage.py:203-237 | a stage that is not realized at once stores the callback and nothing else, and comes to the same when it is |
| LockEvents.ReactivationShows | src/manager.py:129-132 | a realized stage that is not active, or one that is realized then, is activated like a new one |
| LockEvents.LockShows | src/manager.py:75-86 | a lock request shows an idle screen and locks it exactly if it was locked or the user can lock, with no delay left |
| LockEvents.LockReactivates | src/manager.py:75-86 | the same for a stage that is there without being active |
| LockEvents.LockWhileActive | src/manager.py:87-97 | a lock request to an active screen changes the lock, exactly if the user can lock, and the fallback |
| LockEvents.DelayLocks | src/manager.py:470-478 | the lock delay locks when it is over, once |
| LockEvents.BackupStartsWithStage | src/manager.py:224-233 | the backup starts with the lock if the stage is realized, and otherwise with the stage, with the process or the failure on record |
| LockEvents.DeactivationTakesDown | src/manager.py:353-370 | deactivation takes down a realized stage with its flags, timers and hold, and leaves lock and backup alone |
| LockEvents.RefreshIsQueued | src/manager.py:385-404 | a request to refresh is queued and one during a refresh is only noted; without a request nothing happens |
| LockEvents.UnlockTakesDown | src/manager.py:99-105 | an unlock request on a realized stage or none ends idle, with the failure forgotten and the backup on record signalled, once, or 0 after a failed start |
| LockEvents.RefreshReplaces | src/manager.py:413-446 | a refresh replaces a realized stage; the dialog is up afterwards exactly if the screen was active and locked and PAM is at work |
| LockEvents.RefreshWaits | src/manager.py:427-446 | a new stage that is not realized at once keeps the old one, and the screen is asleep until then |
| LockEvents.RefreshEndsLater | src/manager.py:413-425 | when it is realized the refresh ends the same way, or, if another was asked for meanwhile, at the exception |
| LockEvents.RefreshDeactivates | src/manager.py:209-222 | a refresh at once that meets such a request leaves a stage that is not active and does not react to the user, with the lock as it was |
| LockEvents.RefreshKeepsActive | src/manager.py:413-425 | a refresh at once keeps the screen active if and only if no other was asked for before |
| LockEvents.RefreshLocksOut | src/manager.py:399-446 | a run from the start to a locked screen with a stage that no user activity wakes: a queued refresh outlives its stage and starts before the next one is realized |
| LockEvents.RaisesExactly | src/manager.py:75-207 | which requests end in an exception: exactly those that meet an unrealized stage, and putting to sleep without one |
| LockEvents.UnrealizedStays | src/manager.py:353-359 | what such a request leaves: the wake timer is gone, nothing else has happened |
| PamHandshake.StepKeepsInv | libcscreensaver/cs-auth-pam.c:183-251 | every step of either thread, a spurious wakeup under the main thread's mutex included, keeps the positions of both consistent |
| PamHandshake.HandshakeIsSafe | libcscreensaver/cs-auth-pam.c:183-251 | over any number of messages and any interleaving with harmless spurious wakeups: handlers run once each and in order, what calls return is what the handlers in the run answered, in order, records are used only while their call has not returned, and no signal is lost |
| PamHandshake.NoDeadlock | libcscreensaver/cs-auth-pam.c:183-251 | some step is possible until the worker is done |
| PamHandshake.HandshakeFinishes | libcscreensaver/cs-auth-pam.c:183-251 | every such run has at most twelve steps a message and one spurious wakeup each, and exactly the complete ones have all messages answered, with the results their handlers gave |
| PamHandshake.VerdictsAreAnswers | libcscreensaver/cs-auth-pam.c:198-202 | the record of verdicts is the list of what the handlers in the run answered |
| PamHandshake.SpuriousWakeBreaksHandshake | libcscreensaver/cs-auth-pam.c:240-250 | a wakeup while nobody holds the mutex can be carried on to a call that returns unanswered and leaves its record with the main thread |
| PamHandshake.WakeIsHarmlessExactly | libcscreensaver/cs-auth-pam.c:230-250 | a spurious wakeup is safe in every continuation if and only if the main thread holds the mutex |
| PamHandshake.FailureFromStart | libcscreensaver/cs-auth-pam.c:230-250 | the shortest run from the start to an unanswered return |
| PamConversation.RefusedMeans | libcscreensaver/cs-auth-pam.c:323-335 | the conversation is refused exactly when some answer does not carry on |
| PamConversation.Conversation | libcscreensaver/cs-auth-pam.c:253-343 | success exactly without refusal, with one reply for every message; on refusal no reply, and every response given so far is freed once and in order |
| Utf8.ValidHasDecoding | libcscreensaver/cs-auth-pam.c:292-298 | valid bytes are the encoding of a sequence of Unicode scalar values (sections 3 and 4 of RFC 3629) |
| Utf8.EncodingIsValid | libcscreensaver/cs-auth-pam.c:292-298 | and every such encoding is valid and decodes to its characters |
| Utf8.RepairedIsValid | libcscreensaver/cs-auth-pam.c:286-299 | the repaired message is valid |
| Utf8.RepairChangesOnly | libcscreensaver/cs-auth-pam.c:286-299 | exactly the bytes that start an invalid sequence become question marks |
| Utf8.RepairKeepsAscii | libcscreensaver/cs-auth-pam.c:286-299 | ASCII bytes survive and no byte becomes NUL |
| Utf8.RepairLeavesValid | libcscreensaver/cs-auth-pam.c:286-299 | a message is left alone exactly when it is valid |
| Utf8.RepairInPlace | libcscreensaver/cs-auth-pam.c:286-299 | the loop over a NUL-terminated string ends with the repaired string in the same place, still NUL-terminated |
| HelperProtocol.LineReadsBack | src/pamhelper/authClient.py:171-194 | on a line printed for a message the client sees that message alone exactly when its text holds none of the other tokens |
| HelperProtocol.PromptLine | src/pamhelper/authClient.py:189-191 | a prompt line holds a token besides its own exactly when its text does, and its text is cut out whole |
| HelperProtocol.InfoLine | src/pamhelper/authClient.py:192-194 | the same for an info line |
| HelperProtocol.RoundTrip | src/pamhelper/authClient.py:171-194 | any list of clean messages is read back as itself: same events, same order, same texts |
| HelperProtocol.ReadsBackExactly | src/pamhelper/authClient.py:171-194 | a list of messages is read back as itself if and only if all its texts are clean |
| HelperProtocol.TextsComeWithoutNewline | src/pamhelper/authClient.py:172-194 | whatever was printed, no text comes back with a newline in it |
| HelperProtocol.ListGivesMore | src/pamhelper/authClient.py:171-194 | printed one-line messages give at least as many events, and as many only if all are clean |
| AuthClient.AuthClient.Initialize | src/pamhelper/authClient.py:33-78 | a running session is kept; otherwise a new helper runs exactly when it could be started |
| AuthClient.AuthClient.EndProc | src/pamhelper/authClient.py:90-101 | no session afterwards, and its helper was sent SIGTERM |
| AuthClient.AuthClient.OnProcCompleted | src/pamhelper/authClient.py:103-132 | only the current helper's completion resets the session |
| AuthClient.AuthClient.Reset | src/pamhelper/authClient.py:80-85 | no process, pipes or cancellable |
| AuthClient.AuthClient.ReadLine | src/pamhelper/authClient.py:174-194 | one line queues the events that are in it and says whether a terminal one was |
| AuthClient.AuthClient.ReadLines | src/pamhelper/authClient.py:171-194 | the loop over the lines queues all events in order, and an exception keeps what came before it |
| AuthClient.AuthClient.MessageFromChild | src/pamhelper/authClient.py:158-200 | a read queues what was in it and ends the session exactly on a terminal message; bytes that do not decode raise; cancelled or failed reads change nothing |
| AuthClient.Run | src/pamhelper/authClient.py:29-132 | over every run, initialized goes with process, pipes and cancellable, and every helper but the current one has exited or was signalled |
| AuthClient.Deliver | src/pamhelper/authClient.py:158-200 | messages that arrive whole come through in order, and the session ends exactly with a terminal one |
| PamHelper.GrammarMeans | src/pamhelper/cinnamon-screensaver-pam-helper.c:261-304 | output that follows the grammar has at most four failures, its terminal message last, CANCELLED exactly where a fifth failure would be, each BUSY_FALSE directly behind a prompt and each BUSY_TRUE directly behind a BUSY_FALSE, and nothing else behind either |
| PamHelper.EverySessionIsAccounted | src/pamhelper/cinnamon-screensaver-pam-helper.c:66-304 | in every session the output up to the cancellation follows the grammar and nothing follows while the cancellable is there; the whole output does if and only if nothing was printed after it was dropped, or no prompt was open at the cancellation and no FAILURE was kept silent before a CANCELLED |
| PamHelper.UndisturbedSession | src/pamhelper/cinnamon-screensaver-pam-helper.c:159-304 | an undisturbed session follows the grammar, has one FAILURE for every failed attempt but the fifth, and is complete exactly after the first success or the fifth failure |
| PamHelper.CancelledWhileAsking | src/pamhelper/cinnamon-screensaver-pam-helper.c:66-77 | a session with a SIGTERM at a waiting prompt whose output is a prompt, BUSY_FALSE and FAILURE, which breaks the grammar |
| PamHelper.StoppedBetweenAttempts | src/pamhelper/cinnamon-screensaver-pam-helper.c:355-376 | a SIGTERM between two attempts ends the session without a word and without a verdict |
| PamHelper.PromptAfterShutdown | src/pamhelper/cinnamon-screensaver-pam-helper.c:176-201 | once the cancellable is dropped a prompt is printed and waited for without end |
| PamHelper.TurnedKeeps | src/pamhelper/cinnamon-screensaver-pam-helper.c:355-376 | a main loop prints nothing, and what it does to the cancellable is for good |
| PamHelper.WaitedKeeps | src/pamhelper/cinnamon-screensaver-pam-helper.c:182-186 | a wait ends only with a password or a cancellation that is still there |
| PamHelper.WaitTakesTyped | src/pamhelper/cinnamon-screensaver-pam-helper.c:182-186 | a wait that ends has the line that was there, or else the last one of the first round that brings one; nobody cancelling, it ends exactly if there is one |
| PamHelper.AnswerIsTyped | src/pamhelper/cinnamon-screensaver-pam-helper.c:176-201 | a prompt is answered with exactly that line, once, or with what was there before if it is cancelled first |
| PamHelper.NothingElseIsAnswered | src/pamhelper/cinnamon-screensaver-pam-helper.c:171-222 | only a prompt is answered, and in every session, cancelled or not, with nothing but what was typed |
| PamHelper.MessageIsHandled | src/pamhelper/cinnamon-screensaver-pam-helper.c:159-231 | undisturbed, a prompt prints itself and BUSY_FALSE, and BUSY_TRUE with its answer; an info prints itself; nothing else prints |
| PamHelper.DialogueIsPrinted | src/pamhelper/cinnamon-screensaver-pam-helper.c:159-231 | undisturbed, the messages of an attempt print these lines one after the other, each prompt with the line typed for it |
| PamHelper.HandledKeeps | src/pamhelper/cinnamon-screensaver-pam-helper.c:159-231 | one message keeps the output accounted for, whatever the main loops find |
| PamHelper.VerdictKeeps | src/pamhelper/cinnamon-screensaver-pam-helper.c:270-294 | so does the verdict behind the messages |
| PamHelper.CheckedCalm | src/pamhelper/cinnamon-screensaver-pam-helper.c:261-304 | an undisturbed attempt leads to the next one, to a wait or to the end, with the line that says which |
| PamHelper.Helper.Send | src/pamhelper/cinnamon-screensaver-pam-helper.c:79-157 | a message is printed unless the cancellable is there and cancelled |
| PamHelper.Helper.MainLoop | src/pamhelper/cinnamon-screensaver-pam-helper.c:306-376 | lines, cancellations and the end of the monitor, in the order they come |
| PamHelper.Helper.AskPassword | src/pamhelper/cinnamon-screensaver-pam-helper.c:176-201 | asks, waits, and answers the line there already or else the last one of the first round that brings one, once; cancelled before the wait, only a line there already |
| PamHelper.Helper.AuthMessageHandler | src/pamhelper/cinnamon-screensaver-pam-helper.c:159-231 | only a prompt is answered, with the line that was typed for it; the main loop behind it may cancel or shut down |
| PamHelper.Helper.AuthCheckIdle | src/pamhelper/cinnamon-screensaver-pam-helper.c:261-304 | one more attempt exactly after a failure below the limit |
| PamHelper.Helper.Session | src/pamhelper/cinnamon-screensaver-pam-helper.c:496-556 | the program runs as the model says, so its output is accounted for, and complete exactly when an undisturbed session has ended |
| AuthSession.RanIsClean | src/pamhelper/cinnamon-screensaver-pam-helper.c:135-157 | in every session, disturbed or not, texts of PAM that can be sent make an output that can be read back |
| AuthSession.TerminalIsLast | src/pamhelper/authClient.py:171-198 | in whatever pieces an output that follows the grammar is read, its terminal message is in the last one |
| AuthSession.Converse | src/pamhelper/authClient.py:158-200 | what an undisturbed helper prints, read in pieces of whole messages, is emitted as it is, and it ends the client's session exactly when it has ended the helper's |
| MonitorGeometry.FilteredIsStable | libcscreensaver/cs-screen-x11.c:63-91 | what filtering leaves are the first occurrences in order, pairwise different, showing the same rectangles, numbered by index from 1 on |
| MonitorGeometry.PositionsAreFirst | libcscreensaver/cs-screen-x11.c:63-91 | the positions that are kept increase and each is the first of its rectangle |
| MonitorGeometry.PositionsAreAll | libcscreensaver/cs-screen-x11.c:63-91 | every first occurrence is kept |
| MonitorGeometry.BoxIsOutermost | libcscreensaver/cs-screen-x11.c:414-439 | each edge of the union is the outermost one of the rectangles and the origin |
| MonitorGeometry.BoxOfSameRects | libcscreensaver/cs-screen-x11.c:414-439 | the union depends neither on the order of the monitors nor on their number |
| MonitorGeometry.MirrorsDoNotMatter | libcscreensaver/cs-screen-x11.c:63-91 | after scaling the union is the same with and without mirrors, in any order |
| MonitorGeometry.ScaledIsTruncated | libcscreensaver/cs-screen-x11.c:160-163 | each coordinate is divided by itself, towards zero |
| MonitorGeometry.TruncatedIsQuotient | libcscreensaver/cs-screen-x11.c:160-163 | and there is only one such number |
| MonitorGeometry.PreparedIsMade | libcscreensaver/cs-screen-x11.c:390-396 | the monitors in use are the filtered ones in order, scaled coordinate by coordinate, with numbers and outputs kept and the first one primary |
| MonitorGeometry.TaggedMeans | libcscreensaver/cs-screen-x11.c:94-113 | only first occurrences get an output, the one of the last controller showing their area |
| MonitorGeometry.NoOutputIsLost | libcscreensaver/cs-screen-x11.c:63-113 | every monitor kept has its controller's output and those left out never had one |
| MonitorGeometry.BareScreen | libcscreensaver/cs-screen-x11.c:376-388 | with no monitor reported the former screen size, scaled, is what the new size is compared with |
| MonitorGeometry.CsScreen.Remove | libcscreensaver/cs-screen-x11.c:81-84 | one monitor is taken out in place and the others close up |
| MonitorGeometry.CsScreen.FilterOne | libcscreensaver/cs-screen-x11.c:71-89 | one turn of the outer loop keeps the monitor, newly numbered, or removes it with index and count one lower |
| MonitorGeometry.CsScreen.FilterMirroredMonitors | libcscreensaver/cs-screen-x11.c:63-91 | the array ends as the filtered list, and each turn brings the index exactly one closer to the end |
| MonitorGeometry.CsScreen.ApplyScaleFactor | libcscreensaver/cs-screen-x11.c:151-173 | each of x, y, width and height becomes the one number that division of the same coordinate by the factor gives, towards zero; nothing else changes |
| MonitorGeometry.CsScreen.IsFullChange | libcscreensaver/cs-screen-x11.c:414-439 | true exactly when the union of the monitors is the screen |
| MonitorGeometry.CsScreen.FindMonitorWithRect | libcscreensaver/cs-screen-x11.c:94-113 | the first monitor with the rectangle, or none if there is none |
| MonitorGeometry.CsScreen.TagOutputs | libcscreensaver/cs-screen-x11.c:283-310 | the outputs end up as the controllers say |
| MonitorGeometry.CsScreen.ReloadMonitorInfos | libcscreensaver/cs-screen-x11.c:211-404 | the monitors in use are the reported ones, tagged, without mirrors, the first one primary, each coordinate divided by itself towards zero |
| MonitorGeometry.CsScreen.ScreenChanged | libcscreensaver/cs-screen-x11.c:441-483 | a change is announced exactly when the reported monitors, mirrors and all, make up the new screen; the monitors in use are made from the reported ones, or from the former screen where there is none |
| MonitorGeometry.CsScreen.GetMouseMonitor | libcscreensaver/cs-screen-x11.c:698-746 | the first monitor whose scaled rectangle has the scaled pointer within it or on an edge, or the first of all |
| Floating.AwakeAlignmentsStay | src/floating.py:16-38 | through every call sequence the awake alignments stay as created, and waking on a monitor shows them there |
| Floating.ShownIsApplied | src/floating.py:28-38 | what is shown changes only when a position is applied |
| Floating.LastSetIsShown | src/floating.py:28-34 | what was set last is what applying shows, and the awake position does not notice |
| Floating.LastWakeIsShown | src/floating.py:31-38 | waking up moves the awake position to the monitor, and that is what applying shows |
| Floating.Floating.constructor | src/floating.py:17-22 | the awake position is the next one and is shown |
| Floating.Floating.SetNextPosition | src/floating.py:28-29 | only the next position changes, whether or not it was the awake one |
| Floating.Floating.ApplyNextPosition | src/floating.py:31-34 | the next position is shown |
| Floating.Floating.SetAwakePosition | src/floating.py:36-38 | the awake position moves to the monitor and comes next |
| Floating.Floating.Replay | src/floating.py:16-38 | sharing one object between two positions cannot be told from two separate values by any call sequence |
| StageLayout.CellsAreDifferent | src/stage.py:873-878 | the listed positions are nine different ones for each monitor |
| StageLayout.AllocationInCell | src/stage.py:917-940 | while asleep an allocation lies in the ninth its alignments name, and the ninth in the monitor |
| StageLayout.PlaceSuits | src/stage.py:889-942 | every place has the natural size limited by the room, a third of the monitor or the room beside the dialog, and the middle its alignment says |
| StageLayout.DialogIsCentred | src/stage.py:843-859 | the dialog has its natural size and the middle of its monitor |
| StageLayout.PlacedSuit | src/stage.py:889-942 | so has each allocation of a pass |
| StageLayout.AsleepNeverOverlaps | src/stage.py:889-942 | floaters in different cells never overlap and stay inside their monitors |
| StageLayout.AwakeNeverCollides | src/stage.py:843-942 | clock, album art and dialog keep clear of each other inside the monitor if and only if the dialog is no wider than it |
| StageLayout.AwakePassNeverCollides | src/stage.py:895-942 | the same for what a full awake pass allocates |
| StageLayout.PassKeepsSpread | src/stage.py:871-915 | a full pass keeps all floaters in different cells, whatever was drawn and whether asleep or awake |
| StageLayout.JoinKeepsSpread | src/stage.py:520-535 | a floater that joins later overlaps nobody, now or in the next pass, if and only if its place is nobody's place and its awake alignments are its own |
| StageLayout.HomeHasRoom | src/stage.py:299-312 | before the first draw there is room for the album art beside the clock |
| StageLayout.DrawnMayCollide | src/stage.py:299-312 | after a draw there may be none |
| StageLayout.Stage.SetupClock | src/stage.py:503-518 | the clock alone, at the start of its monitor |
| StageLayout.Stage.SetupAlbumArt | src/stage.py:520-535 | the album art joins at the end of its monitor and nothing else moves |
| StageLayout.Stage.ListPositions | src/stage.py:873-878 | the three loops list all cells |
| StageLayout.Stage.DrawPositions | src/stage.py:880-883 | for any draws the floaters get different cells on existing monitors, and only their next positions change |
| StageLayout.Stage.DrawIfDue | src/stage.py:871-885 | positions are drawn exactly when floating is allowed and an update is due, once |
| StageLayout.Stage.Reposition | src/stage.py:887-915 | one floater takes its position, no other moves |
| StageLayout.Stage.Allocate | src/stage.py:917-940 | natural width and height, each limited by its own room, and the offset that puts the floater at the start, in the middle or at the end |
| StageLayout.Stage.PositionFloater | src/stage.py:861-942 | the callback's effect on all floaters, and an allocation that has the natural size limited by a third of the monitor, or awake by the room beside the dialog, where the alignments shown say |
| StageLayout.Stage.LayoutPass | src/stage.py:861-942 | a full pass keeps the floaters spread and their awake alignments; every allocation has its own natural size limited by its room; asleep they are disjoint and inside monitors, awake all floaters are home |
| StageLayout.Stage.Night | src/stage.py:322-329 | over every run of passes and timer events no two floaters ever overlap asleep |
| StageLayout.Stage.Evening | src/stage.py:276-329 | the clock alone, then with the album art that joins it: in every run of both no two floaters overlap asleep |
| FocusNavigator.SearchEnds | src/util/focusNavigator.py:38-64 | both searches end if and only if some widget is sensitive, after as many calls as the widget found is away |
| FocusNavigator.NextInOrder | src/util/focusNavigator.py:38-50 | Tab goes one place on among the sensitive widgets, around the end |
| FocusNavigator.PreviousInOrder | src/util/focusNavigator.py:52-64 | Shift+Tab goes one place back |
| FocusNavigator.NextAndPreviousAreInverse | src/util/focusNavigator.py:38-64 | each undoes the other |
| FocusNavigator.TabIsACycle | src/util/focusNavigator.py:38-50 | as many presses as there are sensitive widgets come back to the start without a stop twice |
| FocusNavigator.TabVisitsAll | src/util/focusNavigator.py:38-50 | and visit every one |
| FocusNavigator.FromNoFocus | src/util/focusNavigator.py:66-74 | with no focus Tab reaches the first sensitive widget and Shift+Tab the last |
| FocusNavigator.FocusNavigator.GetFocusIndex | src/util/focusNavigator.py:19-27 | the first place of the focused widget, or -1 exactly when it is not listed |
| FocusNavigator.FocusNavigator.FocusFirstPossible | src/util/focusNavigator.py:29-36 | the first sensitive widget gets the focus, if there is one |
| FocusNavigator.FocusNavigator.FocusNext | src/util/focusNavigator.py:38-50 | the recursion ends with the focus on the next sensitive widget |
| FocusNavigator.FocusNavigator.FocusPrevious | src/util/focusNavigator.py:52-64 | the same backward |
| FocusNavigator.FocusNavigator.Navigate | src/util/focusNavigator.py:66-74 | a Tab moves on from where the focus was, also when there was none |
| FocusNavigator.FocusNavigator.GetFocusedWidget | src/util/focusNavigator.py:91-99 | the focused widget if it is listed |
| FocusNavigator.FocusNavigator.ThereAndBack | src/util/focusNavigator.py:66-74 | Tab and Shift+Tab in either order leave the focus where it was |
| FocusNavigator.FocusNavigator.PressTab | src/util/focusNavigator.py:66-74 | n presses are n steps of the cycle |
| TimerTracker.RanKeepsAgrees | src/util/trackers.py:34-78 | while nothing raises, records and live sources agree after every callback, whatever it starts, cancels or lets run |
| TimerTracker.DispatchedKeepsAgrees | src/util/trackers.py:37-44 | and after every dispatch |
| TimerTracker.RanKeepsRecorded | src/util/trackers.py:34-78 | even with exceptions every live source stays the one on record for its name |
| TimerTracker.NothingElseToRemove | src/util/trackers.py:37-44 | when the wrapper cancels the name, the source just dispatched is gone already or goes with it |
| TimerTracker.FalsyLeavesNone | src/util/trackers.py:37-44 | a falsy callback leaves neither record nor source for its name, even after starting that timer anew |
| TimerTracker.NestedFalsyLeavesNone | src/util/trackers.py:37-44 | the same for a source that a nested main loop dispatches |
| TimerTracker.RaisingLeavesStale | src/util/trackers.py:37-44 | a raising callback leaves a stale record, its own, if and only if it had not cancelled or restarted its timer |
| TimerTracker.RaisingFlatLeavesStale | src/util/trackers.py:37-44 | without a nested main loop that is if and only if none of its calls was about its own name |
| TimerTracker.StaleEnds | src/util/trackers.py:67-78 | the next start or cancellation of the name clears the stale record and touches no other |
| TimerTracker.CancelledExactly | src/util/trackers.py:67-78 | a cancellation takes away the source of its name and no other |
| TimerTracker.StartedExactly | src/util/trackers.py:46-65 | a start replaces it by a new one and touches no other |
| TimerTracker.DispatchDecides | src/util/trackers.py:37-78 | after a dispatch each timer is what the callback's last call on its name made it, and untouched timers keep their ids |
| TimerTracker.EventDecides | src/util/trackers.py:34-78 | the same for starts and cancellations from outside: each event makes every timer what the last call on its name says |
| TimerTracker.RunDecides | src/util/trackers.py:34-78 | and so at every place of a run in which nothing has raised |
| TimerTracker.OutcomeIsEnding | src/util/trackers.py:37-44 | the wrapper sees exactly how the callback ends |
| TimerTracker.EveryRunAgrees | src/util/trackers.py:34-78 | over every run there is at most one live source a name, and without exceptions it is exactly the one recorded |
| TimerTracker.TimerTracker.Cancel | src/util/trackers.py:67-78 | no record and no source for the name are left; the branch for invalid ids is taken exactly for stale records |
| TimerTracker.TimerTracker.StartTimer | src/util/trackers.py:46-65 | exactly one new source for the name, on record |
| TimerTracker.TimerTracker.DoCallback | src/util/trackers.py:37-44 | what the wrapper leaves after truthy and falsy callbacks |
| TimerTracker.TimerTracker.Dispatch | src/util/trackers.py:37-44 | what one dispatch leaves, with callbacks that call back |
| TimerTracker.TimerTracker.Turn | src/util/trackers.py:34-78 | every run of the object is a run of the model |

## Left out

- Drawing, style sheets, icons, labels, clock, album art, volume, media, power and notification widgets: no state the core depends on.
- D-Bus proxies and GSettings: their signals and values are events and parameters.
- `src/service.py`, `src/util/fader.py`, `src/util/eventHandler.py`: they hand requests on or have one branch.
- PAM, GLib, X and GObject themselves: small abstract machines stand for what the code uses of them.
- `libcscreensaver/setuid.c` and process privileges: foreign calls.
- Stage construction that raises (src/manager.py:217-222): the model assumes it does not.
- What a refresh does after the re-queue at src/manager.py:419-423, which lacks an argument: the exception is modelled, nothing is claimed about a second refresh.
- Real time: sleeps, delays and timeouts are steps without a length.
- XID reuse by the X server and windows that change their title after they are created.
- The shape, opacity and popup selection parts of the event filter (libcscreensaver/cs-gdk-event-filter-x11.c:98-107, 246-282): drawing only.
- The keyboard layout, password entry and retries inside the unlock dialog, and writing the password to the pipe (src/pamhelper/authClient.py:134-156).
- The wake timer's switch for interactive debugging (src/stage.py:619): the timer is always started.
- LockManager.ScreensaverManager.Dispatch: the stage is a value inside the manager, so aliasing between the manager's and other references to a stage is not captured.
- AuthClient.Deliver: assumes reads that end on message boundaries, because the code itself keeps no partial line; a read holds at most 1024 bytes.
- PamHandshake.HandshakeFinishes: only with harmless spurious wakeups, because with others the statement is false, as `FailureFromStart` shows.
- PamHelper.Helper.Session: a second SIGTERM, which meets the default action and ends the process where it is; what was printed is then the beginning of a session.
- MonitorGeometry: the low-resolution mode (libcscreensaver/cs-screen-x11.c:178-209), the pointer query and integer overflow of coordinates, which stay within 16 bits.
- StageLayout.Stage.LayoutPass: real arithmetic instead of the toolkit's integers, so rounding by less than a unit is not captured.
- StageLayout: monitor views, audio and info panels and the on-screen keyboard, which have fixed places.
- StageLayout.Stage.Evening: layouts of the clock alone after the float timer has fired, which the timers' periods rule out; `DrawnMayCollide` says what could happen then.
- StageLayout.Stage.DrawPositions: requires no more floaters than cells; the stage has two.
- FocusNavigator.FocusNavigator.Navigate: requires a sensitive widget, because without one the search does not end, as `SearchEnds` states.
- TimerTracker.DispatchDecides: callbacks without a nested main loop, because a nested one also acts for other callbacks; the invariant covers those too.
- TimerTracker.TimerTracker.StartTimer: durations and the difference between timeouts and idle sources, which do not matter to the records.
