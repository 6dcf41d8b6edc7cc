/**
 ScreensaverManager with the parts of Stage and status it drives: what each request, signal
 and timer does to the shared state.

 The X server, PAM, GSettings and the process table answer through `Env`.  A Python
 exception that leaves a method is part of its result, because the statements after it
 are skipped.
 */
module LockManager {
  import opened Lists

  /** A Stage.  Its unlock dialog exists from realization on; `callback` is a stored activate_callback,
      `fallbackOnRealize` a connected `_real_spawn_fallback_window`. */
  datatype Stage = NoStage | Stage(realized: bool, callback: bool, fallbackOnRealize: bool)

  /** The backup locker process as the manager knows it. */
  datatype Fallback = Fallback(
    use: bool,
    pid: nat,
    failed: bool,
    outstanding: seq<int>,    // processes started and not yet sent SIGTERM
    signalled: seq<int>)      // targets of SIGTERM, in order

  /** `stamped`: activated_timestamp is not 0.  The others are live timers of the timer tracker. */
  datatype Timers = Timers(stamped: bool, lockDelay: bool, idleDeactivate: bool, wakeTimeout: bool)

  datatype Refreshing = Refreshing(queued: bool, running: bool, again: bool)

  /** The flags of status.py. */
  datatype Flags = Flags(active: bool, locked: bool, awake: bool)

  datatype State = State(
    fb: Fallback,
    stage: Stage,
    oldStage: Stage,
    refresh: Refreshing,
    flags: Flags,
    timers: Timers,
    holds: int)               // application hold count

  /** Answers of the outside during one event; a `pid` of 0 is a failed start. */
  datatype Env = Env(
    grabs: bool,
    canLock: bool,
    idleLock: bool,
    delay: nat,
    pam: bool,
    realizes: bool,
    pid: nat)

  datatype Out = Out(s: State, raised: bool)

  // ------------------------------------------------------------- the fallback window

  function Spawned(fb: Fallback, pid: nat): Fallback {
    if fb.pid > 0 then fb
    else if pid > 0 then fb.(pid := pid, outstanding := fb.outstanding + [pid])
    else fb.(failed := true)
  }

  function Killed(fb: Fallback): Fallback {
    if !fb.use || (fb.pid == 0 && !fb.failed) then fb
    else fb.(signalled := fb.signalled + [fb.pid], outstanding := RemoveOne(fb.outstanding, fb.pid),
             failed := false, pid := 0)
  }

  /** set_locked(True): starts the fallback now, or when the stage is realized. */
  function Locked(s: State, env: Env): (r: State)
    requires s.stage.Stage?
    ensures r.stage.Stage? && r.stage.realized == s.stage.realized && r.flags.locked
  {
    if !s.fb.use || s.fb.pid > 0 then s.(flags := s.flags.(locked := true))
    else if s.stage.realized then
      s.(flags := s.flags.(locked := true), fb := Spawned(s.fb, env.pid), stage := s.stage.(fallbackOnRealize := false))
    else s.(flags := s.flags.(locked := true), stage := s.stage.(fallbackOnRealize := true))
  }

  /** set_locked(False) */
  function Unlocked(s: State): State {
    s.(flags := s.flags.(locked := false), fb := Killed(s.fb))
  }

  // --------------------------------------------------------------------- the stage

  /** Stage.cancel_unlocking: fails on clearing the clipboards of a dialog that does not exist yet. */
  function StageAsleep(s: State): Out
    requires s.stage.Stage?
  {
    if s.stage.realized then
      Out(s.(timers := s.timers.(wakeTimeout := false), flags := s.flags.(awake := false)), false)
    else Out(s.(timers := s.timers.(wakeTimeout := false)), true)
  }

  function TimersCancelled(s: State): State {
    s.(timers := s.timers.(stamped := false, lockDelay := false))
  }

  function TimersStarted(s: State, env: Env): (r: State)
    requires s.stage.Stage?
    ensures r.stage.Stage? && r.stage.realized == s.stage.realized
  {
    var s1 := s.(timers := s.timers.(stamped := true));
    if !env.idleLock || !env.canLock then s1
    else if env.delay == 0 then Locked(s1, env)
    else s1.(timers := s1.timers.(lockDelay := true))
  }

  /** With `pam` the unlock widget is raised; otherwise the screen is left from an idle callback. */
  function UserActivity(s: State, env: Env): Out {
    if !s.flags.active || s.stage.NoStage? then Out(s, false)
    else if s.flags.locked && !s.stage.realized then Out(s, true)
    else if s.flags.locked && env.pam then
      Out(s.(timers := s.timers.(wakeTimeout := true), flags := s.flags.(awake := true)), false)
    else Out(s.(timers := s.timers.(idleDeactivate := true)), false)
  }

  /** A refresh that was asked for during a refresh ends in a TypeError. */
  function RefreshEnded(s: State, env: Env): Out {
    if s.refresh.again then Out(s.(refresh := s.refresh.(running := false, again := false)), true)
    else UserActivity(s.(refresh := s.refresh.(running := false)), env)
  }

  /** on_spawn_stage_complete */
  function SpawnComplete(s: State, env: Env): (o: Out)
    requires s.stage.Stage?
    ensures o.s.stage.Stage? && o.s.stage.realized == s.stage.realized
  {
    var o := if s.oldStage.Stage?
             then RefreshEnded(s.(timers := s.timers.(wakeTimeout := false), oldStage := NoStage), env)
             else Out(s, false);
    if o.raised then o
    else Out(TimersStarted(o.s.(flags := o.s.flags.(active := true)), env), false)
  }

  /** spawn_stage: the handler around activation swallows exceptions and deactivates. */
  function SpawnStage(s: State, env: Env): State {
    if env.realizes then
      var o := SpawnComplete(s.(stage := Stage(true, false, false)), env);
      if o.raised then TimersCancelled(o.s.(flags := o.s.flags.(active := false))) else o.s
    else s.(stage := Stage(false, true, false))
  }

  /** The stage window and its overlay are realized; an exception in the callback ends in the main loop. */
  function Realized(s: State, env: Env): (r: State)
    requires s.stage.Stage?
    ensures r.stage.Stage? && r.stage.realized
  {
    var st := s.stage;
    var s1 := s.(stage := Stage(true, st.callback, false),
                 fb := if st.fallbackOnRealize then Spawned(s.fb, env.pid) else s.fb);
    if st.callback then SpawnComplete(s1, env).s else s1
  }

  /** Stage.activate on a stage that exists already. */
  function Reactivated(s: State, env: Env): Out
    requires s.stage.Stage?
  {
    var s1 := if !s.stage.realized && env.realizes then Realized(s, env) else s;
    if s1.stage.realized then SpawnComplete(s1, env)
    else Out(s1.(stage := s1.stage.(callback := true)), false)
  }

  function Despawned(s: State): Out
    requires s.stage.Stage?
  {
    var o := StageAsleep(s);
    if o.raised then o
    else Out(TimersCancelled(o.s).(flags := o.s.flags.(active := false), stage := NoStage), false)
  }

  function Activated(s: State, env: Env): Out {
    if s.flags.active || !env.grabs then Out(s, false)
    else if s.stage.NoStage? then Out(SpawnStage(s.(holds := s.holds + 1), env), false)
    else Reactivated(s, env)
  }

  function Deactivated(s: State): Out {
    if s.stage.NoStage? then Out(s, false)
    else
      var o := Despawned(s);
      if o.raised then o else Out(o.s.(holds := o.s.holds - 1), false)
  }

  // --------------------------------------------------------------------- requests

  function AfterLock(s: State, env: Env): Out {
    if !s.flags.active then
      var o := Activated(s, env);
      if o.raised || !env.grabs then o
      else
        var s1 := o.s.(timers := o.s.timers.(lockDelay := false));
        Out(if env.canLock && s1.stage.Stage? then Locked(s1, env) else s1, false)
    else Out(if env.canLock && s.stage.Stage? then Locked(s, env) else s, false)
  }

  function AfterUnlock(s: State): Out {
    var o := Deactivated(s);
    if o.raised then o
    else
      var s1 := Unlocked(o.s);
      Out(s1.(flags := s1.flags.(awake := false)), false)
  }

  function AfterCancel(s: State): Out {
    if s.stage.NoStage? then Out(s, true) else StageAsleep(s)
  }

  /** refresh_stage */
  function Refreshed(s: State, env: Env): Out {
    if s.stage.NoStage? then Out(s, false)
    else
      var o := StageAsleep(s);
      if o.raised then o
      else Out(SpawnStage(TimersCancelled(o.s).(oldStage := s.stage), env), false)
  }

  /** _update_full_stage_on_idle */
  function RefreshOnIdle(s: State, env: Env): Out {
    var s1 := s.(refresh := s.refresh.(queued := false));
    if s1.refresh.running then Out(s1.(refresh := s1.refresh.(again := true)), false)
    else Refreshed(s1.(refresh := s1.refresh.(running := true)), env)
  }

  datatype Event =
    | LockRequest
    | UnlockRequest
    | Activate                // SetActive(true), or the session going idle
    | Deactivate              // deactivate_after_timeout
    | UserEvent
    | IdleDeactivate
    | StageRealized
    | NeedsRefresh
    | RefreshIdle
    | SessionActive
    | LockDelayOver
    | WakeTimeoutOver
    | Escape                  // also the helper's "cancelled"
    | AuthFailed              // the dialog restarts the wake timer

  /** One event; a timer or signal that is not there does nothing. */
  function Step(s: State, e: Event, env: Env): State {
    match e
    case LockRequest => AfterLock(s, env).s
    case UnlockRequest => AfterUnlock(s).s
    case Activate => Activated(s, env).s
    case Deactivate => Deactivated(s).s
    case UserEvent => UserActivity(s, env).s
    case IdleDeactivate =>
      if s.timers.idleDeactivate then
        var s1 := Deactivated(s).s;
        s1.(timers := s1.timers.(idleDeactivate := false))
      else s
    case StageRealized => if s.stage.Stage? && !s.stage.realized then Realized(s, env) else s
    case NeedsRefresh => s.(refresh := s.refresh.(queued := true))
    case RefreshIdle => if s.refresh.queued then RefreshOnIdle(s, env).s else s
    case SessionActive => Refreshed(s, env).s
    case LockDelayOver =>
      if s.timers.lockDelay && s.stage.Stage? then
        var s1 := Locked(s, env);
        s1.(timers := s1.timers.(lockDelay := false))
      else s
    case WakeTimeoutOver =>
      if s.timers.wakeTimeout then AfterCancel(s.(timers := s.timers.(wakeTimeout := false))).s else s
    case Escape => if s.flags.awake then AfterCancel(s).s else s
    case AuthFailed => if s.stage.Stage? then s.(timers := s.timers.(wakeTimeout := true)) else s
  }

  predicate Requests(e: Event) {
    e.LockRequest? || e.UnlockRequest? || e.Activate? || e.Deactivate? || e.UserEvent? || e.IdleDeactivate?
  }

  function Run(s: State, events: seq<(Event, Env)>): State
    decreases |events|
  {
    if events == [] then s else Run(Step(s, events[0].0, events[0].1), events[1..])
  }

  function Start(useFallback: bool): State {
    State(Fallback(useFallback, 0, false, [], []), NoStage, NoStage, Refreshing(false, false, false),
          Flags(false, false, false), Timers(false, false, false, false), 0)
  }

  // --------------------------------------------------------------- the joint invariant

  /** The processes still to be signalled are exactly the recorded one. */
  ghost predicate FallbackKnown(fb: Fallback) {
    && fb.outstanding == (if fb.pid != 0 then [fb.pid] else [])
    && (fb.pid != 0 || fb.failed ==> fb.use)
  }

  lemma FallbackStaysKnown(fb: Fallback, pid: nat)
    requires FallbackKnown(fb)
    ensures fb.use ==> FallbackKnown(Spawned(fb, pid))
    ensures FallbackKnown(Killed(fb)) && Killed(fb).pid == 0 && Killed(fb).outstanding == []
  {
  }

  ghost predicate Joint(s: State) {
    && (s.flags.active ==> s.stage.Stage?)
    && (s.flags.awake ==> s.flags.active && s.flags.locked && s.stage.Stage? && s.stage.realized)
    && (s.timers.lockDelay ==> s.timers.stamped)
    && (s.timers.stamped ==> s.flags.active)
    && (s.timers.wakeTimeout ==> s.stage.Stage?)
    && s.holds == (if s.stage.Stage? then 1 else 0)
    && (s.fb.pid != 0 ==> s.flags.locked)
    && FallbackKnown(s.fb)
    && (s.stage.Stage? && s.stage.fallbackOnRealize ==>
         s.flags.locked && s.fb.use && s.fb.pid == 0 && !s.stage.realized)
    && (s.oldStage.Stage? ==> s.stage.Stage? && !s.stage.realized && s.stage.callback)
  }

  lemma LockedKeepsJoint(s: State, env: Env)
    requires Joint(s) && s.stage.Stage?
    ensures Joint(Locked(s, env))
  {
    hide FallbackKnown, Spawned;
    FallbackStaysKnown(s.fb, env.pid);
  }

  lemma SpawnCompleteKeepsJoint(s: State, env: Env)
    requires s.stage.Stage? && s.stage.realized
    requires Joint(s.(oldStage := NoStage))
    ensures Joint(SpawnComplete(s, env).s)
    ensures SpawnComplete(s, env).raised ==> !s.flags.awake ==> !SpawnComplete(s, env).s.flags.awake
    ensures SpawnComplete(s, env).s.stage.Stage?
  {
    var o := if s.oldStage.Stage?
             then RefreshEnded(s.(timers := s.timers.(wakeTimeout := false), oldStage := NoStage), env)
             else Out(s, false);
    if !o.raised {
      LockedKeepsJoint(o.s.(timers := o.s.timers.(stamped := true), flags := o.s.flags.(active := true)), env);
    }
  }

  lemma SpawnStageKeepsJoint(s: State, env: Env)
    requires !s.flags.awake && !s.timers.stamped && !s.timers.lockDelay && !s.timers.wakeTimeout && s.holds == 1
    requires FallbackKnown(s.fb) && (s.fb.pid != 0 ==> s.flags.locked)
    ensures Joint(SpawnStage(s, env)) && SpawnStage(s, env).stage.Stage?
  {
    if env.realizes {
      SpawnCompleteKeepsJoint(s.(stage := Stage(true, false, false)), env);
    }
  }

  lemma RealizedKeepsJoint(s: State, env: Env)
    requires Joint(s) && s.stage.Stage? && !s.stage.realized
    ensures Joint(Realized(s, env))
    ensures Realized(s, env).stage.Stage? && Realized(s, env).stage.realized
    ensures s.stage.callback ==> Realized(s, env).oldStage.NoStage?
  {
    hide SpawnComplete, FallbackKnown, Spawned;
    FallbackStaysKnown(s.fb, env.pid);
    var st := s.stage;
    var s1 := s.(stage := Stage(true, st.callback, false),
                 fb := if st.fallbackOnRealize then Spawned(s.fb, env.pid) else s.fb);
    if st.callback {
      SpawnCompleteKeepsJoint(s1, env);
    }
  }

  lemma ActivatedKeepsJoint(s: State, env: Env)
    requires Joint(s)
    ensures Joint(Activated(s, env).s)
    ensures !s.flags.active && env.grabs ==> Activated(s, env).s.stage.Stage?
  {
    if !s.flags.active && env.grabs {
      if s.stage.NoStage? {
        SpawnStageKeepsJoint(s.(holds := s.holds + 1), env);
      } else {
        if !s.stage.realized && env.realizes {
          RealizedKeepsJoint(s, env);
        }
        var s1 := if !s.stage.realized && env.realizes then Realized(s, env) else s;
        if s1.stage.realized {
          SpawnCompleteKeepsJoint(s1, env);
        }
      }
    }
  }

  lemma RefreshedKeepsJoint(s: State, env: Env)
    requires Joint(s)
    ensures Joint(Refreshed(s, env).s)
  {
    hide SpawnStage, FallbackKnown;
    if s.stage.Stage? && s.stage.realized {
      SpawnStageKeepsJoint(TimersCancelled(StageAsleep(s).s).(oldStage := s.stage), env);
    }
  }

  lemma UnlockKeepsJoint(s: State)
    requires Joint(s)
    ensures Joint(Deactivated(s).s) && Joint(AfterUnlock(s).s)
  {
    hide FallbackKnown, Killed;
    FallbackStaysKnown(s.fb, 0);
  }

  lemma LockKeepsJoint(s: State, env: Env)
    requires Joint(s)
    ensures Joint(AfterLock(s, env).s)
  {
    hide Activated, FallbackKnown, Locked;
    ActivatedKeepsJoint(s, env);
    var o := Activated(s, env);
    if s.flags.active {
      LockedKeepsJoint(s, env);
    } else if !o.raised && env.grabs {
      LockedKeepsJoint(o.s.(timers := o.s.timers.(lockDelay := false)), env);
    }
  }

  lemma StepKeepsJoint(s: State, e: Event, env: Env)
    requires Joint(s)
    ensures Joint(Step(s, e, env))
  {
    hide Activated, Refreshed, Realized, FallbackKnown, Locked, AfterLock, AfterUnlock, Deactivated;
    match e {
      case LockRequest => LockKeepsJoint(s, env);
      case UnlockRequest => UnlockKeepsJoint(s);
      case Activate => ActivatedKeepsJoint(s, env);
      case Deactivate => UnlockKeepsJoint(s);
      case IdleDeactivate => UnlockKeepsJoint(s);
      case StageRealized => if s.stage.Stage? && !s.stage.realized { RealizedKeepsJoint(s, env); }
      case RefreshIdle => RefreshedKeepsJoint(s.(refresh := Refreshing(false, true, s.refresh.again)), env);
      case SessionActive => RefreshedKeepsJoint(s, env);
      case LockDelayOver => if s.stage.Stage? { LockedKeepsJoint(s, env); }
      case _ =>
    }
  }

  /** Main result: the joint invariant holds after every run of requests, signals and timers, against
      every answer of the outside. */
  lemma {:induction false} RunKeepsJoint(s: State, events: seq<(Event, Env)>)
    requires Joint(s)
    ensures Joint(Run(s, events))
    decreases |events|
  {
    hide Joint, Step;
    if events != [] {
      StepKeepsJoint(s, events[0].0, events[0].1);
      RunKeepsJoint(Step(s, events[0].0, events[0].1), events[1..]);
    }
  }

  lemma EveryRunIsJoint(useFallback: bool, events: seq<(Event, Env)>)
    ensures Joint(Run(Start(useFallback), events))
  {
    RunKeepsJoint(Start(useFallback), events);
  }

  // ------------------------------------------------------------------ the backup while locked

  /** While locked, the backup locker is on record, failed to start, or starts with the stage. */
  predicate Protected(s: State) {
    s.flags.locked && s.fb.use ==>
      s.fb.pid != 0 || s.fb.failed || (s.stage.Stage? && s.stage.fallbackOnRealize)
  }

  lemma LockedProtects(s: State, env: Env)
    requires Joint(s) && s.stage.Stage?
    ensures Protected(Locked(s, env))
  {
  }

  lemma SpawnCompleteProtects(s: State, env: Env)
    requires s.stage.Stage? && s.stage.realized && Joint(s.(oldStage := NoStage)) && Protected(s)
    ensures Protected(SpawnComplete(s, env).s)
  {
    hide FallbackKnown;
  }

  lemma SpawnStageProtects(s: State, env: Env)
    requires !s.flags.awake && !s.timers.stamped && !s.timers.lockDelay && !s.timers.wakeTimeout && s.holds == 1
    requires FallbackKnown(s.fb) && (s.fb.pid != 0 ==> s.flags.locked)
    requires s.flags.locked && s.fb.use ==> s.fb.pid != 0 || s.fb.failed
    ensures Protected(SpawnStage(s, env))
  {
    hide SpawnComplete, FallbackKnown;
    if env.realizes {
      SpawnCompleteProtects(s.(stage := Stage(true, false, false)), env);
    }
  }

  lemma RealizedProtects(s: State, env: Env)
    requires Joint(s) && s.stage.Stage? && !s.stage.realized && Protected(s)
    ensures Protected(Realized(s, env))
  {
    hide SpawnComplete;
    var st := s.stage;
    var s1 := s.(stage := Stage(true, st.callback, false),
                 fb := if st.fallbackOnRealize then Spawned(s.fb, env.pid) else s.fb);
    if st.callback {
      SpawnCompleteProtects(s1, env);
    }
  }

  lemma ActivatedProtects(s: State, env: Env)
    requires Joint(s) && Protected(s)
    ensures Protected(Activated(s, env).s)
  {
    hide SpawnStage, SpawnComplete, Realized, FallbackKnown;
    if !s.flags.active && env.grabs {
      if s.stage.NoStage? {
        SpawnStageProtects(s.(holds := s.holds + 1), env);
      } else if s.stage.realized {
        SpawnCompleteProtects(s, env);
      } else if env.realizes {
        RealizedProtects(s, env);
        RealizedKeepsJoint(s, env);
        SpawnCompleteProtects(Realized(s, env), env);
      }
    }
  }

  lemma RefreshedProtects(s: State, env: Env)
    requires Joint(s) && Protected(s)
    ensures Protected(Refreshed(s, env).s)
  {
    hide SpawnStage, FallbackKnown;
    if s.stage.Stage? && s.stage.realized {
      SpawnStageProtects(TimersCancelled(StageAsleep(s).s).(oldStage := s.stage), env);
    }
  }

  lemma LockRequestProtects(s: State, env: Env)
    requires Joint(s) && Protected(s)
    ensures Protected(AfterLock(s, env).s)
  {
    hide Activated, FallbackKnown, Locked;
    ActivatedProtects(s, env);
    ActivatedKeepsJoint(s, env);
    var o := Activated(s, env);
    if s.flags.active {
      LockedProtects(s, env);
    } else if !o.raised && env.grabs {
      LockedProtects(o.s.(timers := o.s.timers.(lockDelay := false)), env);
    }
  }

  lemma DeactivatedProtects(s: State)
    requires Joint(s) && Protected(s)
    ensures Protected(Deactivated(s).s) && Protected(AfterUnlock(s).s)
  {
    hide FallbackKnown;
  }

  lemma StepKeepsProtected(s: State, e: Event, env: Env)
    requires Joint(s) && Protected(s)
    ensures Protected(Step(s, e, env))
  {
    hide Activated, Refreshed, Realized, FallbackKnown, Locked, AfterLock, AfterUnlock, Deactivated;
    match e {
      case LockRequest => LockRequestProtects(s, env);
      case UnlockRequest => DeactivatedProtects(s);
      case Activate => ActivatedProtects(s, env);
      case Deactivate => DeactivatedProtects(s);
      case IdleDeactivate => DeactivatedProtects(s);
      case StageRealized => if s.stage.Stage? && !s.stage.realized { RealizedProtects(s, env); }
      case RefreshIdle => RefreshedProtects(s.(refresh := Refreshing(false, true, s.refresh.again)), env);
      case SessionActive => RefreshedProtects(s, env);
      case LockDelayOver => if s.stage.Stage? { LockedProtects(s, env); }
      case _ =>
    }
  }

  lemma {:induction false} RunKeepsProtected(s: State, events: seq<(Event, Env)>)
    requires Joint(s) && Protected(s)
    ensures Protected(Run(s, events))
    decreases |events|
  {
    hide Joint, Step, Protected;
    if events != [] {
      StepKeepsJoint(s, events[0].0, events[0].1);
      StepKeepsProtected(s, events[0].0, events[0].1);
      RunKeepsProtected(Step(s, events[0].0, events[0].1), events[1..]);
    }
  }

  /** Main result: in every reachable locked state with the fallback in use, the backup locker is on record, or
      its start failed, or it will start as soon as the stage is realized. */
  lemma EveryRunIsProtected(useFallback: bool, events: seq<(Event, Env)>)
    ensures Protected(Run(Start(useFallback), events))
  {
    hide Run;
    RunKeepsProtected(Start(useFallback), events);
  }

  /** From `s` to `t` a lock stays, and with it the backup on record. */
  predicate StaysLocked(s: State, t: State) {
    s.flags.locked ==> t.flags.locked && (s.fb.pid != 0 ==> t.fb == s.fb)
  }

  lemma SpawnCompleteStaysLocked(s: State, env: Env)
    requires s.stage.Stage?
    ensures StaysLocked(s, SpawnComplete(s, env).s)
  {
  }

  lemma SpawnStageStaysLocked(s: State, env: Env)
    ensures StaysLocked(s, SpawnStage(s, env))
  {
    hide SpawnComplete;
    if env.realizes { SpawnCompleteStaysLocked(s.(stage := Stage(true, false, false)), env); }
  }

  lemma RealizedStaysLocked(s: State, env: Env)
    requires s.stage.Stage?
    ensures StaysLocked(s, Realized(s, env))
  {
    hide SpawnComplete;
    var st := s.stage;
    var s1 := s.(stage := Stage(true, st.callback, false),
                 fb := if st.fallbackOnRealize then Spawned(s.fb, env.pid) else s.fb);
    if st.callback { SpawnCompleteStaysLocked(s1, env); }
  }

  lemma ActivatedStaysLocked(s: State, env: Env)
    ensures StaysLocked(s, Activated(s, env).s)
  {
    hide SpawnComplete, SpawnStage, Realized;
    SpawnStageStaysLocked(s.(holds := s.holds + 1), env);
    if s.stage.Stage? {
      SpawnCompleteStaysLocked(s, env);
      RealizedStaysLocked(s, env);
      SpawnCompleteStaysLocked(Realized(s, env), env);
    }
  }

  lemma RefreshedStaysLocked(s: State, env: Env)
    ensures StaysLocked(s, Refreshed(s, env).s)
  {
    hide SpawnStage;
    if s.stage.Stage? && s.stage.realized {
      SpawnStageStaysLocked(TimersCancelled(StageAsleep(s).s).(oldStage := s.stage), env);
    }
  }

  /** Main result: a lock is undone by an unlock request and by nothing else: no timer, refresh, failure or user
      event.  Until then the backup on record stays, even when the stage goes because PAM could not be reached. */
  lemma OnlyUnlockUnlocks(s: State, e: Event, env: Env)
    requires s.flags.locked && !e.UnlockRequest?
    ensures Step(s, e, env).flags.locked && (s.fb.pid != 0 ==> Step(s, e, env).fb == s.fb)
  {
    hide Activated, Refreshed, Realized;
    match e {
      case LockRequest => ActivatedStaysLocked(s, env);
      case Activate => ActivatedStaysLocked(s, env);
      case StageRealized => if s.stage.Stage? { RealizedStaysLocked(s, env); }
      case RefreshIdle => RefreshedStaysLocked(s.(refresh := Refreshing(false, true, s.refresh.again)), env);
      case SessionActive => RefreshedStaysLocked(s, env);
      case _ =>
    }
  }

  // ------------------------------------------------------------- what the requests achieve

  /** Nothing shown, nothing locked, nothing held, no fallback, no manager timer. */
  predicate Idle(s: State) {
    && s.stage.NoStage? && s.holds == 0 && s.flags == Flags(false, false, false)
    && !s.timers.stamped && !s.timers.lockDelay && !s.timers.wakeTimeout
    && s.fb.pid == 0 && s.fb.outstanding == []
  }

  /** In every reachable state, unlocking ends idle exactly when there is no stage or a realized one; on a
      stage that is not realized yet it stops at an exception and takes nothing away but the wake timer. */
  lemma UnlockEndsIdle(s: State)
    requires Joint(s)
    ensures Idle(AfterUnlock(s).s) <==> s.stage.NoStage? || s.stage.realized
    ensures s.stage.Stage? && !s.stage.realized ==>
              AfterUnlock(s) == Out(s.(timers := s.timers.(wakeTimeout := false)), true)
  {
    hide Killed, FallbackKnown;
    FallbackStaysKnown(s.fb, 0);
  }

  /** Such a stage is reached from the start: an activation whose stage is slow to be realized.  Unlocking raises
      then, and the stage, its hold on the application and the rest stay. */
  lemma UnlockFailsEarly(useFallback: bool, env: Env)
    requires env.grabs && !env.realizes
    ensures var s := Run(Start(useFallback), [(Activate, env)]);
      && s.stage == Stage(false, true, false) && s.holds == 1
      && AfterUnlock(s) == Out(s, true) && !Idle(AfterUnlock(s).s)
  {
    var s := Step(Start(useFallback), Activate, env);
    assert Run(s, []) == s;
    assert [(Activate, env)][1..] == [];
  }

  /** Locking an idle screen whose stage shows at once leaves it active and locked with the fallback process
      recorded, and unlocking takes all of that back: the process is signalled, once. */
  lemma LockThenUnlock(s: State, env: Env)
    requires Joint(s) && Idle(s) && s.oldStage.NoStage? && env.grabs && env.canLock && env.realizes
    ensures var l := AfterLock(s, env).s;
      && l.flags.active && l.flags.locked && !l.flags.awake && l.holds == 1 && !l.timers.lockDelay
      && (s.fb.use && env.pid > 0 ==> l.fb.pid == env.pid && l.fb.outstanding == [env.pid])
      && (var u := AfterUnlock(l).s;
        && Idle(u)
        && u.fb.signalled == s.fb.signalled +
                             (if !s.fb.use then [] else if env.pid > 0 then [env.pid] else [0]))
  {
    var l := AfterLock(s, env).s;
    LockKeepsJoint(s, env);
    assert RemoveOne([l.fb.pid], l.fb.pid) == [];
  }

  /** What SIGTERM is sent to: one target each time there is a process or a failed start on record, and that
      target is the recorded process exactly when there is one.  After a failed start it is 0, which
      kill(2) takes for the whole process group. */
  lemma KillTargets(fb: Fallback)
    requires FallbackKnown(fb)
    ensures var k := Killed(fb);
      && (k.signalled == fb.signalled <==> fb.pid == 0 && !fb.failed)
      && (fb.pid != 0 ==> k.signalled == fb.signalled + [fb.pid] && fb.pid in fb.outstanding)
      && (fb.pid == 0 && fb.failed ==> k.signalled == fb.signalled + [0])
      && k.pid == 0 && !k.failed && k.use == fb.use
  {
  }

  /** The screen is woken, and it was fit to be. */
  predicate WakesRightly(s: State, t: State, env: Env) {
    t.flags.awake ==> s.flags.active && s.flags.locked && env.pam
  }

  lemma SpawnCompleteWakes(s: State, env: Env)
    requires s.stage.Stage? && !s.flags.awake
    ensures WakesRightly(s, SpawnComplete(s, env).s, env)
    ensures s.oldStage.NoStage? ==> !SpawnComplete(s, env).s.flags.awake
  {
  }

  lemma SpawnStageWakes(s: State, env: Env)
    requires !s.flags.awake
    ensures WakesRightly(s, SpawnStage(s, env), env)
  {
    hide SpawnComplete;
    if env.realizes { SpawnCompleteWakes(s.(stage := Stage(true, false, false)), env); }
  }

  lemma RealizedWakes(s: State, env: Env)
    requires s.stage.Stage? && !s.flags.awake
    ensures WakesRightly(s, Realized(s, env), env)
  {
    hide SpawnComplete, Spawned;
    var st := s.stage;
    var s1 := s.(stage := Stage(true, st.callback, false),
                 fb := if st.fallbackOnRealize then Spawned(s.fb, env.pid) else s.fb);
    if st.callback { SpawnCompleteWakes(s1, env); }
  }

  lemma ActivatedStaysAsleep(s: State, env: Env)
    requires Joint(s) && !s.flags.awake
    ensures !Activated(s, env).s.flags.awake
  {
    hide SpawnComplete, SpawnStage, Realized, FallbackKnown;
    SpawnStageWakes(s.(holds := s.holds + 1), env);
    if s.stage.Stage? {
      SpawnCompleteWakes(s, env);
      RealizedWakes(s, env);
      if !s.stage.realized {
        RealizedKeepsJoint(s, env);
        if !s.flags.active { SpawnCompleteWakes(Realized(s, env), env); }
      }
    }
  }

  lemma RefreshedWakes(s: State, env: Env)
    requires !s.flags.awake
    ensures WakesRightly(s, Refreshed(s, env).s, env)
  {
    hide SpawnStage;
    if s.stage.Stage? && s.stage.realized {
      SpawnStageWakes(TimersCancelled(StageAsleep(s).s).(oldStage := s.stage), env);
    }
  }

  /** The unlock dialog comes up only on a locked screen with PAM at work, and only when the user does something or
      a refreshed stage is there. */
  lemma WakingNeedsPam(s: State, e: Event, env: Env)
    requires Joint(s) && !s.flags.awake
    ensures Step(s, e, env).flags.awake ==>
      && s.flags.active && s.flags.locked && env.pam
      && (e.UserEvent? || e.RefreshIdle? || e.SessionActive? || e.StageRealized?)
  {
    ActivatedStaysAsleep(s, env);
    if s.stage.Stage? { RealizedWakes(s, env); }
    RefreshedWakes(s.(refresh := Refreshing(false, true, s.refresh.again)), env);
    RefreshedWakes(s, env);
    hide Activated, Refreshed, Realized, Killed, Spawned, FallbackKnown, Joint;
  }

  /** A stage is taken down by three events only, and only once it is realized: an unlock request, which D-Bus also
      makes of SetActive(false), a deactivation by a stage that cannot be set up, and the idle callback queued by
      user activity that could not be answered with the unlock dialog. */
  lemma StageStaysUp(s: State, e: Event, env: Env)
    requires Joint(s) && s.stage.Stage?
    ensures Step(s, e, env).stage.NoStage? <==>
            s.stage.realized
            && (e.UnlockRequest? || e.Deactivate? || (e.IdleDeactivate? && s.timers.idleDeactivate))
  {
    hide Killed, Spawned, FallbackKnown;
  }

  // ------------------------------------------------------------------- the same, in place

  class ScreensaverManager {
    const useFallback: bool
    var stage: Stage
    var old_stage: Stage
    var stage_refresh_queued: bool
    var refreshing: bool
    var refresh_again: bool
    var fb_pid: nat
    var fb_failed_to_start: bool
    // status
    var Active: bool
    var IsLocked: bool
    var Awake: bool
    var activated: bool
    // timers
    var idleLockDelay: bool
    var idleDeactivate: bool
    var wakeTimeout: bool
    // the application and the process table
    var holds: int
    var outstanding: seq<int>
    var signalled: seq<int>

    function Now(): State
      reads this
    {
      State(Fallback(useFallback, fb_pid, fb_failed_to_start, outstanding, signalled), stage, old_stage,
            Refreshing(stage_refresh_queued, refreshing, refresh_again), Flags(Active, IsLocked, Awake),
            Timers(activated, idleLockDelay, idleDeactivate, wakeTimeout), holds)
    }

    constructor (useFallback: bool)
      ensures Now() == Start(useFallback)
    {
      this.useFallback := useFallback;
      stage, old_stage := NoStage, NoStage;
      stage_refresh_queued, refreshing, refresh_again := false, false, false;
      fb_pid, fb_failed_to_start := 0, false;
      Active, IsLocked, Awake, activated := false, false, false, false;
      idleLockDelay, idleDeactivate, wakeTimeout := false, false, false;
      holds, outstanding, signalled := 0, [], [];
    }

    method RealSpawnFallbackWindow(env: Env)
      requires stage.Stage?
      modifies this
      ensures Now() == old(Now()).(fb := Spawned(old(Now()).fb, env.pid),
                                   stage := if old(fb_pid) > 0 then old(stage)
                                            else old(stage).(fallbackOnRealize := false))
    {
      if fb_pid > 0 {
        return;
      }
      if env.pid > 0 {
        fb_pid := env.pid;
        outstanding := outstanding + [env.pid];
      } else {
        fb_failed_to_start := true;
      }
      stage := stage.(fallbackOnRealize := false);
    }

    method SpawnFallbackWindow(env: Env)
      requires stage.Stage?
      modifies this
      ensures useFallback ==> Now().(flags := Locked(old(Now()), env).flags) == Locked(old(Now()), env)
      ensures Now().flags == old(Now()).flags
    {
      if fb_pid > 0 {
        return;
      }
      if stage.realized {
        RealSpawnFallbackWindow(env);
      } else {
        stage := stage.(fallbackOnRealize := true);
      }
    }

    method KillFallbackWindow()
      requires useFallback
      modifies this
      ensures Now() == old(Now()).(fb := Killed(old(Now()).fb))
    {
      if fb_pid == 0 && !fb_failed_to_start {
        return;
      }
      signalled := signalled + [fb_pid];
      outstanding := RemoveOne(outstanding, fb_pid);
      fb_failed_to_start := false;
      fb_pid := 0;
    }

    method SetLocked(locked: bool, env: Env)
      requires locked ==> stage.Stage?
      modifies this
      ensures Now() == if locked then Locked(old(Now()), env) else Unlocked(old(Now()))
    {
      if locked {
        IsLocked := true;
        if useFallback {
          SpawnFallbackWindow(env);
        }
      } else {
        IsLocked := false;
        if useFallback {
          KillFallbackWindow();
        }
      }
    }

    /** Stage.cancel_unlocking */
    method StageCancelUnlocking() returns (raised: bool)
      requires stage.Stage?
      modifies this
      ensures Out(Now(), raised) == StageAsleep(old(Now()))
    {
      wakeTimeout := false;
      if !stage.realized {
        return true;
      }
      Awake := false;
      return false;
    }

    method CancelTimers()
      modifies this
      ensures Now() == TimersCancelled(old(Now()))
    {
      activated := false;
      idleLockDelay := false;
    }

    method StartTimers(env: Env)
      requires stage.Stage?
      modifies this
      ensures Now() == TimersStarted(old(Now()), env)
    {
      activated := true;
      if !env.idleLock || !env.canLock {
        return;
      }
      if env.delay == 0 {
        SetLocked(true, env);
      } else {
        idleLockDelay := true;
      }
    }

    method SimulateUserActivity(env: Env) returns (raised: bool)
      requires Active ==> stage.Stage?
      modifies this
      ensures Out(Now(), raised) == UserActivity(old(Now()), env)
    {
      if !Active {
        return false;
      }
      if IsLocked && !stage.realized {
        return true;
      }
      if IsLocked && env.pam {
        // Stage.raise_unlock_widget
        wakeTimeout := true;
        if !Awake {
          Awake := true;
        }
      } else {
        idleDeactivate := true;
      }
      return false;
    }

    method StageRefreshed(env: Env) returns (raised: bool)
      requires Active ==> stage.Stage?
      modifies this
      ensures Out(Now(), raised) == RefreshEnded(old(Now()), env)
    {
      refreshing := false;
      if refresh_again {
        refresh_again := false;
        return true;  // queue_refresh_stage is called without its argument
      }
      raised := SimulateUserActivity(env);
    }

    method OnSpawnStageComplete(env: Env) returns (raised: bool)
      requires stage.Stage?
      modifies this
      ensures Out(Now(), raised) == SpawnComplete(old(Now()), env)
    {
      if old_stage.Stage? {
        wakeTimeout := false;
        old_stage := NoStage;
        raised := StageRefreshed(env);
        if raised {
          return;
        }
      }
      Active := true;
      StartTimers(env);
      return false;
    }

    method SpawnNewStage(env: Env)
      modifies this
      ensures Now() == SpawnStage(old(Now()), env)
    {
      stage := Stage(false, false, false);
      // Stage.activate
      if env.realizes {
        stage := stage.(realized := true);
        var raised := OnSpawnStageComplete(env);
        if raised {
          Active := false;
          CancelTimers();
        }
      } else {
        stage := stage.(callback := true);
      }
    }

    /** Realization of the stage: the connected spawn of the fallback runs first, then the stored callback. */
    method OnRealized(env: Env)
      requires stage.Stage? && !stage.realized
      modifies this
      ensures Now() == Realized(old(Now()), env)
    {
      stage := stage.(realized := true);
      if stage.fallbackOnRealize {
        RealSpawnFallbackWindow(env);
        stage := stage.(fallbackOnRealize := false);
      }
      if stage.callback {
        var _ := OnSpawnStageComplete(env);
      }
    }

    method ActivateStage(env: Env) returns (raised: bool)
      requires stage.Stage?
      modifies this
      ensures Out(Now(), raised) == Reactivated(old(Now()), env)
    {
      if !stage.realized && env.realizes {
        OnRealized(env);
      }
      if stage.realized {
        raised := OnSpawnStageComplete(env);
      } else {
        stage := stage.(callback := true);
        return false;
      }
    }

    method DespawnStage() returns (raised: bool)
      requires stage.Stage?
      modifies this
      ensures Out(Now(), raised) == Despawned(old(Now()))
    {
      raised := StageCancelUnlocking();
      if raised {
        return;
      }
      Active := false;
      CancelTimers();
      stage := NoStage;
    }

    /** `done` is what the caller gets when nothing is raised. */
    method SetActive(active: bool, env: Env) returns (done: bool, raised: bool)
      requires Joint(Now())
      modifies this
      ensures Out(Now(), raised) == if active then Activated(old(Now()), env) else Deactivated(old(Now()))
      ensures done <==> !active || old(Active) || env.grabs
    {
      if active {
        if Active {
          return true, false;
        }
        if !env.grabs {
          Active := false;
          return false, false;
        }
        if stage.NoStage? {
          holds := holds + 1;
          SpawnNewStage(env);
          return true, false;
        }
        raised := ActivateStage(env);
        return true, raised;
      } else {
        if stage.Stage? {
          raised := DespawnStage();
          if raised {
            return true, true;
          }
          holds := holds - 1;
        }
        return true, false;
      }
    }

    /** FALSE tells the service to wait for the activation. */
    method Lock(env: Env) returns (immediate: bool, raised: bool)
      requires Joint(Now())
      modifies this
      ensures Out(Now(), raised) == AfterLock(old(Now()), env)
      ensures immediate <==> old(Active) || !env.grabs || raised
    {
      if !Active {
        immediate, raised := LockInactive(env);
      } else {
        hide Activated, Locked, FallbackKnown;
        if env.canLock {
          SetLocked(true, env);
        }
        immediate, raised := true, false;
      }
    }

    /** The branch that activates first. */
    method LockInactive(env: Env) returns (immediate: bool, raised: bool)
      requires Joint(Now()) && !Active
      modifies this
      ensures Out(Now(), raised) == AfterLock(old(Now()), env)
      ensures immediate <==> !env.grabs || raised
    {
      ActivatedKeepsJoint(Now(), env);
      hide Activated, Locked, Joint, FallbackKnown;
      ghost var o := Activated(Now(), env);
      var done;
      done, raised := SetActive(true, env);
      immediate := raised || !done;
      if !immediate {
        idleLockDelay := false;
        assert Now() == o.s.(timers := o.s.timers.(lockDelay := false));
        if env.canLock {
          SetLocked(true, env);
        }
      }
    }

    method Unlock(env: Env) returns (raised: bool)
      requires Joint(Now())
      modifies this
      ensures Out(Now(), raised) == AfterUnlock(old(Now()))
    {
      var done;
      done, raised := SetActive(false, env);
      if raised {
        return;
      }
      SetLocked(false, env);
      Awake := false;
    }

    method CancelUnlocking() returns (raised: bool)
      modifies this
      ensures Out(Now(), raised) == AfterCancel(old(Now()))
    {
      if stage.NoStage? {
        return true;
      }
      raised := StageCancelUnlocking();
    }

    method RefreshStage(env: Env) returns (raised: bool)
      modifies this
      ensures Out(Now(), raised) == Refreshed(old(Now()), env)
    {
      if stage.NoStage? {
        return false;
      }
      raised := StageCancelUnlocking();
      if raised {
        return;
      }
      CancelTimers();
      old_stage := stage;
      SpawnNewStage(env);
      return false;
    }

    method UpdateFullStageOnIdle(env: Env) returns (raised: bool)
      modifies this
      ensures Out(Now(), raised) == RefreshOnIdle(old(Now()), env)
    {
      stage_refresh_queued := false;
      if refreshing {
        refresh_again := true;
        return false;
      }
      refreshing := true;
      raised := RefreshStage(env);
    }

    /** Requests from outside, the user's and the idle callback's included. */
    method Request(e: Event, env: Env)
      requires Joint(Now()) && Requests(e)
      modifies this
      ensures Now() == Step(old(Now()), e, env)
    {
      hide AfterLock, Activated, Deactivated, AfterUnlock, UserActivity, Realized, RefreshOnIdle, Refreshed, Locked,
           FallbackKnown, AfterCancel;
      match e {
        case LockRequest => var _, _ := Lock(env);
        case UnlockRequest => var _ := Unlock(env);
        case Activate => var _, _ := SetActive(true, env);
        case Deactivate => var _, _ := SetActive(false, env);
        case UserEvent => var _ := SimulateUserActivity(env);
        case IdleDeactivate =>
          if idleDeactivate {
            var _, _ := SetActive(false, env);
            idleDeactivate := false;
          }
      }
    }

    /** Everything else the main loop brings: the stage, the timers and the unlock dialog. */
    method Notice(e: Event, env: Env)
      requires Joint(Now()) && !Requests(e)
      modifies this
      ensures Now() == Step(old(Now()), e, env)
    {
      hide AfterLock, Activated, Deactivated, AfterUnlock, UserActivity, Realized, RefreshOnIdle, Refreshed, Locked,
           FallbackKnown, AfterCancel;
      match e {
        case StageRealized => if stage.Stage? && !stage.realized { OnRealized(env); }
        case NeedsRefresh => stage_refresh_queued := true;
        case RefreshIdle => if stage_refresh_queued { var _ := UpdateFullStageOnIdle(env); }
        case SessionActive => var _ := RefreshStage(env);
        case LockDelayOver =>
          if idleLockDelay {
            SetLocked(true, env);
            idleLockDelay := false;
          }
        case WakeTimeoutOver =>
          if wakeTimeout {
            wakeTimeout := false;
            var _ := CancelUnlocking();
          }
        case Escape => if Awake { var _ := CancelUnlocking(); }
        case AuthFailed => if stage.Stage? { wakeTimeout := true; }
      }
    }

    /** One turn of the main loop. */
    method Dispatch(e: Event, env: Env)
      requires Joint(Now())
      modifies this
      ensures Now() == Step(old(Now()), e, env) && Joint(Now())
    {
      StepKeepsJoint(Now(), e, env);
      hide Joint, Step;
      if Requests(e) {
        Request(e, env);
      } else {
        Notice(e, env);
      }
    }

    /** Any run of the manager is a run of the model, from the start on. */
    method RunEvents(events: seq<(Event, Env)>)
      requires Joint(Now())
      modifies this
      ensures Now() == Run(old(Now()), events) && Joint(Now())
    {
      var i := 0;
      hide Joint, Step;
      while i < |events|
        invariant 0 <= i <= |events|
        invariant Joint(Now())
        invariant Run(Now(), events[i..]) == Run(old(Now()), events)
      {
        Dispatch(events[i].0, events[i].1);
        i := i + 1;
      }
    }
  }
}
