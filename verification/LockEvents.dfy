/**
 What each event does to the lock, told from outside: the whole new state or the part of it a user sees,
 in terms of the old state and of what the outside answered.
 */
module LockEvents {
  import opened LockManager

  // ------------------------------------------------------------------------ user activity

  /** A screen that is asleep wakes up on user activity if and only if it is active and locked, its stage is there,
      and PAM is at work. */
  lemma WakesExactly(s: State, env: Env)
    requires Joint(s) && !s.flags.awake
    ensures Step(s, UserEvent, env).flags.awake <==>
      s.flags.active && s.flags.locked && s.stage.realized && env.pam
  {
  }

  /** Main result, user activity on a stage that is there: a locked screen shows the unlock dialog and restarts
      its timer, and nothing else changes; if it is not locked, or PAM is not at work, the screen is left as soon as
      the idle callback runs. */
  lemma ActivityWakesOrLeaves(s: State, env: Env, later: Env)
    requires Joint(s) && s.flags.active && s.stage.realized
    ensures var t := Step(s, UserEvent, env);
      if s.flags.locked && env.pam then
        t == s.(flags := s.flags.(awake := true), timers := s.timers.(wakeTimeout := true))
      else
        && t == s.(timers := s.timers.(idleDeactivate := true))
        && var u := Step(t, IdleDeactivate, later);
           u.stage.NoStage? && !u.flags.active && !u.timers.idleDeactivate && u.holds == 0
           && u.flags.locked == s.flags.locked && u.fb == s.fb
  {
    hide Killed, Spawned, FallbackKnown;
  }

  lemma StartsIdle(useFallback: bool)
    ensures Idle(Start(useFallback)) && Joint(Start(useFallback)) && Start(useFallback).fb.use == useFallback
    ensures !Start(useFallback).fb.failed && Start(useFallback).refresh == Refreshing(false, false, false)
    ensures Start(useFallback).timers == Timers(false, false, false, false)
  {
  }

  /** A screen that is not active does not care. */
  lemma IdleScreenStaysIdle(s: State, env: Env)
    requires Joint(s) && !s.flags.active
    ensures Step(s, UserEvent, env) == s
  {
  }

  /** From the start: after a lock request on a stage that shows at once the user gets the unlock dialog. */
  lemma LockThenWake(s: State, env: Env, later: Env)
    requires Joint(s) && Idle(s) && s.oldStage.NoStage? && env.grabs && env.canLock && env.realizes && later.pam
    ensures var t := Step(Step(s, LockRequest, env), UserEvent, later);
      t.flags == Flags(true, true, true) && t.timers.wakeTimeout
  {
    LockThenUnlock(s, env);
    LockKeepsJoint(s, env);
    LockShows(s, env);
    WakesExactly(Step(s, LockRequest, env), later);
    ActivityWakesOrLeaves(Step(s, LockRequest, env), later, later);
    hide AfterLock, AfterUnlock, UserActivity, Joint;
  }

  /** Back to sleep: by Escape when awake, by the wake timer when it runs; nothing else changes, and without its
      cause nothing at all. */
  lemma SleepsAgain(s: State, e: Event, env: Env)
    requires Joint(s) && (e.Escape? || e.WakeTimeoutOver?)
    requires s.stage.Stage? ==> s.stage.realized
    ensures Step(s, e, env) ==
      if (if e.Escape? then s.flags.awake else s.timers.wakeTimeout) then
        s.(flags := s.flags.(awake := false), timers := s.timers.(wakeTimeout := false))
      else s
  {
  }

  /** A failed attempt to authenticate restarts the timer of a stage. */
  lemma FailureRestartsTimer(s: State, env: Env)
    ensures Step(s, AuthFailed, env) ==
      if s.stage.Stage? then s.(timers := s.timers.(wakeTimeout := true)) else s
  {
  }

  // ------------------------------------------------------------- activation and locking

  /** Without server grabs an idle screen stays as it is. */
  lemma NoGrabsNoChange(s: State, e: Event, env: Env)
    requires !s.flags.active && !env.grabs && (e.LockRequest? || e.Activate?)
    ensures Step(s, e, env) == s
  {
  }

  /** Activation of an idle screen whose stage shows at once: active, with the application held and its time
      stamped.  The lock delay decides whether it is locked now, later or not at all. */
  lemma ActivationShows(s: State, env: Env)
    requires Joint(s) && s.stage.NoStage? && env.grabs && env.realizes
    ensures var t := Step(s, Activate, env);
      && t.stage.Stage? && t.stage.realized && t.oldStage.NoStage?
      && t.flags.active && !t.flags.awake && t.holds == 1 && t.timers.stamped
      && (t.flags.locked <==> s.flags.locked || (env.idleLock && env.canLock && env.delay == 0))
      && (t.timers.lockDelay <==> env.idleLock && env.canLock && env.delay > 0)
  {
    hide FallbackKnown, Spawned;
  }

  /** A stage that does not show at once stores the rest for later, and then it comes to the same. */
  lemma ActivationShowsLater(s: State, env: Env, later: Env)
    requires Joint(s) && s.stage.NoStage? && env.grabs && !env.realizes
    ensures var t := Step(s, Activate, env);
      && t == s.(stage := Stage(false, true, false), holds := 1)
      && var u := Step(t, StageRealized, later);
         && u.stage.Stage? && u.stage.realized && u.flags.active && !u.flags.awake && u.holds == 1 && u.timers.stamped
         && (u.flags.locked <==> s.flags.locked || (later.idleLock && later.canLock && later.delay == 0))
         && (u.timers.lockDelay <==> later.idleLock && later.canLock && later.delay > 0)
  {
    hide FallbackKnown, Spawned;
  }

  /** A request to lock an idle screen: shown, and locked exactly if it was or the user can lock; no delay is left. */
  lemma LockShows(s: State, env: Env)
    requires Joint(s) && s.stage.NoStage? && env.grabs && env.realizes
    ensures var t := Step(s, LockRequest, env);
      && t.stage.Stage? && t.stage.realized && t.flags.active && !t.flags.awake && t.holds == 1 && t.timers.stamped
      && !t.timers.lockDelay
      && (t.flags.locked <==> s.flags.locked || env.canLock)
  {
    hide FallbackKnown, Spawned;
  }

  /** A stage that is there without being active, after a failure or before it shows, is activated like a new one. */
  lemma ReactivationShows(s: State, env: Env)
    requires Joint(s) && s.stage.Stage? && !s.flags.active && env.grabs && (s.stage.realized || env.realizes)
    ensures var t := Step(s, Activate, env);
      && t.stage.Stage? && t.stage.realized && t.oldStage.NoStage?
      && t.flags.active && !t.flags.awake && t.holds == 1 && t.timers.stamped
      && (t.flags.locked <==> s.flags.locked || (env.idleLock && env.canLock && env.delay == 0))
      && (t.timers.lockDelay <==> env.idleLock && env.canLock && env.delay > 0)
  {
    hide FallbackKnown, Spawned;
    if !s.stage.realized {
      RealizedKeepsJoint(s, env);
      var s1 := Realized(s, env);
      assert !s1.flags.awake && s1.oldStage.NoStage?;
      assert s1.flags.locked ==> s.flags.locked || (env.idleLock && env.canLock && env.delay == 0);
      assert s1.timers.lockDelay ==> env.idleLock && env.canLock && env.delay > 0;
      assert s.flags.locked ==> s1.flags.locked;
      hide Realized, Joint;
    }
  }

  /** If it cannot show yet, the rest is stored. */
  lemma ReactivationWaits(s: State, env: Env)
    requires s.stage.Stage? && !s.stage.realized && !s.flags.active && env.grabs && !env.realizes
    ensures Step(s, Activate, env) == s.(stage := s.stage.(callback := true))
  {
  }

  /** A request to lock it does the same and then locks exactly if the user can lock. */
  lemma LockReactivates(s: State, env: Env)
    requires Joint(s) && s.stage.Stage? && !s.flags.active && env.grabs
    ensures var t := Step(s, LockRequest, env);
      && t.stage.Stage? && (t.stage.realized <==> s.stage.realized || env.realizes)
      && (t.flags.active <==> t.stage.realized) && (!t.stage.realized ==> t.stage.callback)
      && (t.flags.locked <==> s.flags.locked || env.canLock) && !t.timers.lockDelay && t.holds == 1
  {
    if s.stage.realized || env.realizes { ReactivationShows(s, env); } else { ReactivationWaits(s, env); }
    hide FallbackKnown, Spawned, Activated;
    ActivatedKeepsJoint(s, env);
  }

  /** A request to lock an active screen locks it exactly if the user can lock, and changes nothing but the lock
      and its fallback. */
  lemma LockWhileActive(s: State, env: Env)
    requires Joint(s) && s.flags.active
    ensures var t := Step(s, LockRequest, env);
      && (t.flags.locked <==> s.flags.locked || env.canLock)
      && t.flags.active && t.flags.awake == s.flags.awake && t.timers == s.timers && t.holds == s.holds
      && t.refresh == s.refresh && t.oldStage == s.oldStage
      && t.stage.Stage? && t.stage.realized == s.stage.realized && t.stage.callback == s.stage.callback
  {
    hide FallbackKnown, Spawned;
  }

  /** The lock delay locks when it is over, once. */
  lemma DelayLocks(s: State, env: Env)
    requires Joint(s)
    ensures var t := Step(s, LockDelayOver, env);
      if s.timers.lockDelay then t.flags.locked && !t.timers.lockDelay && t.flags.active && t.stage.Stage? else t == s
  {
    hide FallbackKnown, Spawned;
  }

  /** Where the backup locker starts: with the lock if the stage is there, with the stage if it is not, and in either
      case with the process the outside gave, or a failure on record. */
  lemma BackupStartsWithStage(s: State, env: Env, later: Env)
    requires Joint(s) && s.flags.active && env.canLock && s.fb.use && s.fb.pid == 0
    requires !s.stage.realized ==> !s.stage.callback
    ensures var t := Step(s, LockRequest, env);
      var u := if s.stage.realized then t else Step(t, StageRealized, later);
      var pid := if s.stage.realized then env.pid else later.pid;
      && u.fb.pid == pid && (pid == 0 ==> u.fb.failed)
      && (!s.stage.realized ==> t.fb == s.fb && t.stage.fallbackOnRealize)
  {
    hide FallbackKnown;
  }

  /** Deactivation takes a stage down with everything that belongs to it, and leaves lock and backup alone. */
  lemma DeactivationTakesDown(s: State, env: Env)
    requires Joint(s) && (s.stage.Stage? ==> s.stage.realized)
    ensures var t := Step(s, Deactivate, env);
      && t.stage.NoStage? && t.holds == 0 && !t.flags.active && !t.flags.awake
      && !t.timers.stamped && !t.timers.lockDelay && !t.timers.wakeTimeout
      && t.flags.locked == s.flags.locked && t.fb == s.fb && t.refresh == s.refresh
      && t.timers.idleDeactivate == s.timers.idleDeactivate
  {
    hide FallbackKnown;
  }

  /** An unlock request takes down all of it: lock, stage and backup, which is signalled once if there is one. */
  lemma UnlockTakesDown(s: State, env: Env)
    requires Joint(s) && (s.stage.Stage? ==> s.stage.realized)
    ensures var t := Step(s, UnlockRequest, env);
      && Idle(t) && !t.fb.failed && t.fb.use == s.fb.use && t.refresh == s.refresh
      && t.timers.idleDeactivate == s.timers.idleDeactivate
      && t.fb.signalled ==
           s.fb.signalled + (if s.fb.pid != 0 then [s.fb.pid] else if s.fb.failed then [0] else [])
  {
    UnlockEndsIdle(s);
  }

  // ---------------------------------------------------------------------------- refreshing

  lemma RefreshIsQueued(s: State, env: Env)
    ensures Step(s, NeedsRefresh, env) == s.(refresh := s.refresh.(queued := true))
    ensures !s.refresh.queued ==> Step(s, RefreshIdle, env) == s
    ensures s.refresh.queued && s.refresh.running ==>
      Step(s, RefreshIdle, env) == s.(refresh := Refreshing(false, true, true))
  {
  }

  /** A refresh, queued or asked for by the session, replaces the stage: a new one is there, the old one is gone, the
      refresh is over, and the dialog is up exactly if the screen was active and locked and PAM is at work. */
  lemma RefreshReplaces(s: State, e: Event, env: Env)
    requires Joint(s) && s.stage.Stage? && s.stage.realized && env.realizes && !s.refresh.again
    requires e.SessionActive? || (e.RefreshIdle? && s.refresh.queued && !s.refresh.running)
    ensures var t := Step(s, e, env);
      && t.stage.Stage? && t.stage.realized && t.oldStage.NoStage? && t.holds == 1 && !t.refresh.running
      && t.flags.active && t.timers.stamped && (t.timers.wakeTimeout <==> t.flags.awake)
      && (t.flags.awake <==> s.flags.active && s.flags.locked && env.pam)
      && (t.flags.locked <==> s.flags.locked || (env.idleLock && env.canLock && env.delay == 0))
  {
    hide FallbackKnown, Spawned;
  }

  /** A stage that does not show at once keeps the old one until it does; until then the screen is asleep. */
  lemma RefreshWaits(s: State, env: Env)
    requires Joint(s) && s.stage.Stage? && s.stage.realized && !env.realizes
    ensures var t := Step(s, SessionActive, env);
      && t.stage == Stage(false, true, false) && t.oldStage == s.stage
      && !t.flags.awake && !t.timers.stamped && !t.timers.lockDelay && !t.timers.wakeTimeout
      && t.flags.active == s.flags.active && t.flags.locked == s.flags.locked && t.fb == s.fb && t.holds == 1
  {
    hide FallbackKnown;
  }

  /** And then it comes to the same, unless another refresh was asked for meanwhile: then the exception skips what was
      still to be done about the new stage. */
  lemma RefreshEndsLater(s: State, env: Env)
    requires Joint(s) && s.oldStage.Stage?
    ensures var t := Step(s, StageRealized, env);
      && t.stage.Stage? && t.stage.realized && t.oldStage.NoStage?
      && t.refresh == Refreshing(s.refresh.queued, false, false) && t.holds == 1
      && (t.timers.wakeTimeout <==> t.flags.awake)
      && if s.refresh.again then t.flags == s.flags && t.timers == s.timers.(wakeTimeout := false)
         else
           && t.flags.active && t.timers.stamped
           && (t.flags.awake <==> s.flags.active && s.flags.locked && env.pam)
           && (t.flags.locked <==> s.flags.locked || (env.idleLock && env.canLock && env.delay == 0))
  {
    hide FallbackKnown, Spawned;
  }

  /** Where a refresh that shows at once meets such a request, the exception reaches the handler around activation:
      the stage stays, but the screen is not active, so no user activity brings up the dialog. */
  lemma RefreshDeactivates(s: State, e: Event, env: Env, later: Env)
    requires Joint(s) && s.stage.Stage? && s.stage.realized && env.realizes && s.refresh.again
    requires e.SessionActive? || (e.RefreshIdle? && s.refresh.queued && !s.refresh.running)
    ensures var t := Step(s, e, env);
      && t == s.(stage := Stage(true, false, false), oldStage := NoStage,
                 refresh := Refreshing(s.refresh.queued && e.SessionActive?, false, false),
                 flags := Flags(false, s.flags.locked, false),
                 timers := Timers(false, false, s.timers.idleDeactivate, false))
      && Step(t, UserEvent, later) == t
  {
    hide FallbackKnown, Spawned;
  }

  /** Main result: a refresh of a stage that is there, on one that shows at once, keeps the screen active if and only
      if no other refresh was asked for during an earlier one. */
  lemma RefreshKeepsActive(s: State, env: Env)
    requires Joint(s) && s.stage.Stage? && s.stage.realized && env.realizes
    ensures Step(s, SessionActive, env).flags.active <==> !s.refresh.again
  {
    if s.refresh.again { RefreshDeactivates(s, SessionActive, env, env); }
    else { RefreshReplaces(s, SessionActive, env); }
    hide Step, Joint;
  }

  lemma RunFrom(s: State, events: seq<(Event, Env)>, k: nat)
    requires k < |events|
    ensures Run(s, events[k..]) == Run(Step(s, events[k].0, events[k].1), events[k + 1..])
    ensures events[0..] == events && Run(s, events[|events|..]) == s
  {
    assert events[k..][1..] == events[k + 1..];
    hide Step;
  }

  /** A queued refresh outlives its stage. */
  lemma RefreshOutlivesStage(env: Env)
    requires env.grabs && env.realizes
    ensures var s := Step(Step(Step(Start(false), Activate, env), NeedsRefresh, env), Deactivate, env);
      var t := Step(s, Activate, env.(realizes := false));
      Joint(t) && t.stage == Stage(false, true, false) && !t.flags.active && t.oldStage.NoStage?
      && t.refresh == Refreshing(true, false, false)
  {
    var s := Step(Step(Step(Start(false), Activate, env), NeedsRefresh, env), Deactivate, env);
    assert s.stage.NoStage? && s.holds == 0 && s.refresh == Refreshing(true, false, false);
  }

  /** One that begins before the stage is there never ends, so that the next one is taken for a second one. */
  lemma StepsLockOut(s: State, env: Env)
    requires Joint(s) && s.stage == Stage(false, true, false) && !s.flags.active && s.oldStage.NoStage?
    requires s.refresh == Refreshing(true, false, false)
    requires env.realizes && env.idleLock && env.canLock && env.delay == 0
    ensures var pending := Step(Step(s, RefreshIdle, env), StageRealized, env);
      var t := Step(Step(Step(pending, NeedsRefresh, env), RefreshIdle, env), SessionActive, env);
      t.flags == Flags(false, true, false) && t.stage.Stage? && Step(t, UserEvent, env) == t
  {
    hide FallbackKnown, Spawned;
    var s1 := Step(s, RefreshIdle, env);
    assert s1.refresh == Refreshing(false, true, false) && s1.stage == Stage(false, true, false);
    var s2 := Step(s1, StageRealized, env);
    assert s2.flags == Flags(true, true, false) && s2.refresh.running;
    var s3 := Step(Step(s2, NeedsRefresh, env), RefreshIdle, env);
    assert s3.refresh == Refreshing(false, true, true) && s3.stage.realized;
  }

  /** So that a screen that is locked and does not listen to the user is within reach. */
  lemma RefreshLocksOut(env: Env)
    requires env.grabs && env.realizes && env.idleLock && env.canLock && env.delay == 0
    ensures var t := Run(Start(false), [(Activate, env), (NeedsRefresh, env), (Deactivate, env),
        (Activate, env.(realizes := false)), (RefreshIdle, env), (StageRealized, env), (NeedsRefresh, env),
        (RefreshIdle, env), (SessionActive, env)]);
      t.flags == Flags(false, true, false) && t.stage.Stage? && Step(t, UserEvent, env) == t
  {
    hide Step;
    var events := [(Activate, env), (NeedsRefresh, env), (Deactivate, env), (Activate, env.(realizes := false)),
      (RefreshIdle, env), (StageRealized, env), (NeedsRefresh, env), (RefreshIdle, env), (SessionActive, env)];
    RunFrom(Start(false), events, 0);
    var s1 := Step(Start(false), Activate, env);
    RunFrom(s1, events, 1);
    var s2 := Step(s1, NeedsRefresh, env);
    RunFrom(s2, events, 2);
    var s3 := Step(s2, Deactivate, env);
    RunFrom(s3, events, 3);
    var s4 := Step(s3, Activate, env.(realizes := false));
    RunFrom(s4, events, 4);
    var s5 := Step(s4, RefreshIdle, env);
    RunFrom(s5, events, 5);
    var s6 := Step(s5, StageRealized, env);
    RunFrom(s6, events, 6);
    var s7 := Step(s6, NeedsRefresh, env);
    RunFrom(s7, events, 7);
    RunFrom(Step(s7, RefreshIdle, env), events, 8);
    RefreshOutlivesStage(env);
    StepsLockOut(s4, env);
  }

  // ---------------------------------------------------------------- failures and whole runs

  /** Which requests end in an exception: only those that meet a stage that is not realized, and putting to sleep a
      screen without one. */
  lemma RaisesExactly(s: State, env: Env)
    requires Joint(s)
    ensures !Activated(s, env).raised && !AfterLock(s, env).raised
    ensures AfterUnlock(s).raised <==> s.stage.Stage? && !s.stage.realized
    ensures Deactivated(s).raised <==> s.stage.Stage? && !s.stage.realized
    ensures Refreshed(s, env).raised <==> s.stage.Stage? && !s.stage.realized
    ensures RefreshOnIdle(s, env).raised <==> s.stage.Stage? && !s.stage.realized && !s.refresh.running
    ensures AfterCancel(s).raised <==> s.stage.NoStage? || !s.stage.realized
    ensures UserActivity(s, env).raised <==> s.flags.active && s.flags.locked && !s.stage.realized
  {
    hide FallbackKnown, Spawned;
  }

  /** What such a request leaves: the wake timer is gone and nothing else has happened. */
  lemma UnrealizedStays(s: State, e: Event, env: Env)
    requires Joint(s) && s.stage.Stage? && !s.stage.realized
    requires e.UnlockRequest? || e.Deactivate? || e.SessionActive?
    ensures Step(s, e, env) == s.(timers := s.timers.(wakeTimeout := false))
    ensures s.flags.active && s.flags.locked ==> Step(s, UserEvent, env) == s
  {
  }

  /** A run is its first part and then the rest. */
  lemma {:induction false} RunsOn(s: State, events: seq<(Event, Env)>, next: (Event, Env))
    ensures Run(s, events + [next]) == Step(Run(s, events), next.0, next.1)
    decreases |events|
  {
    hide Step;
    if events == [] {
      assert (events + [next])[1..] == [];
    } else {
      assert (events + [next])[1..] == events[1..] + [next];
      RunsOn(Step(s, events[0].0, events[0].1), events[1..], next);
    }
  }
}
