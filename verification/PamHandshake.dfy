/**
 The handshake between the PAM worker thread and the main thread.

 cs_auth_run_message_handler puts a record on its own stack, hands its address to the
 main loop and waits on a condition; cs_auth_queued_message_handler answers through the
 record and signals.  Each action between two scheduling points is one step, and the
 two threads are interleaved freely.  GLib may wake a waiting thread without a signal, and
 the waiting code does not loop: `SpuriousWake` is that step.  It does no harm exactly while
 the main thread holds the mutex.
 */
module PamHandshake {

  datatype Owner = Nobody | WorkerThread | MainThread

  /** Where the worker stands: `Begun` has set up the record of the current message. */
  datatype Worker = Between | Begun | Locked | Queued | Waiting | Waking | Resumed | Unlocked

  /** Where the main thread stands with the record it took from the idle queue. */
  datatype Main =
    | Loop
    | Dispatched(record: nat)
    | InHandler(record: nat)
    | Stored(record: nat)
    | Signalled(record: nat)

  /** The record of message number k is record k; it lives from `Begun` until the worker returns. */
  datatype State = State(
    messages: nat,          // messages PAM will send
    worker: Worker,
    main: Main,
    owner: Owner,           // of message_handler_mutex
    idle: seq<nat>,         // records queued with g_idle_add
    interrupt: bool,        // should_interrupt_stack of the current record
    handled: seq<nat>,      // records whose handler ran, in order
    verdicts: seq<bool>,    // what those handlers answered
    results: seq<bool>)     // what the worker's calls returned, message by message

  datatype Step =
    | Begin | LockByWorker | AddIdle | Wait | Reacquire | UnlockByWorker | Return
    | Dispatch | LockByMain | Answer(verdict: bool) | Signal | UnlockByMain
    | SpuriousWake

  /** The message the worker is about, or will be about next. */
  function Current(s: State): nat {
    |s.results|
  }

  predicate Enabled(s: State, step: Step) {
    match step
    case Begin => s.worker == Between && Current(s) < s.messages
    case LockByWorker => s.worker == Begun && s.owner == Nobody
    case AddIdle => s.worker == Locked
    case Wait => s.worker == Queued
    case Reacquire => s.worker == Waking && s.owner == Nobody
    case UnlockByWorker => s.worker == Resumed
    case Return => s.worker == Unlocked
    case Dispatch => s.main == Loop && s.idle != []
    case LockByMain => s.main.Dispatched? && s.owner == Nobody
    case Answer(_) => s.main.InHandler?
    case Signal => s.main.Stored?
    case UnlockByMain => s.main.Signalled?
    case SpuriousWake => s.worker == Waiting
  }

  function Next(s: State, step: Step): State
    requires Enabled(s, step)
  {
    match step
    case Begin => s.(worker := Begun, interrupt := true)
    case LockByWorker => s.(worker := Locked, owner := WorkerThread)
    case AddIdle => s.(worker := Queued, idle := s.idle + [Current(s)])
    case Wait => s.(worker := Waiting, owner := Nobody)
    case Reacquire => s.(worker := Resumed, owner := WorkerThread)
    case UnlockByWorker => s.(worker := Unlocked, owner := Nobody)
    case Return => s.(worker := Between, results := s.results + [!s.interrupt])
    case Dispatch => s.(main := Dispatched(s.idle[0]), idle := s.idle[1..])
    case LockByMain => s.(main := InHandler(s.main.record), owner := MainThread)
    case Answer(v) =>
      s.(main := Stored(s.main.record), interrupt := !v,
         handled := s.handled + [s.main.record], verdicts := s.verdicts + [v])
    case Signal =>
      // a signal wakes a waiting thread and is lost otherwise
      s.(main := Signalled(s.main.record), worker := if s.worker == Waiting then Waking else s.worker)
    case UnlockByMain => s.(main := Loop, owner := Nobody)
    case SpuriousWake => s.(worker := Waking)
  }

  ghost predicate Run(s: State, steps: seq<Step>, t: State)
    decreases |steps|
  {
    if steps == [] then s == t
    else Enabled(s, steps[0]) && Run(Next(s, steps[0]), steps[1..], t)
  }

  /** Every spurious wakeup of the run comes while the main thread holds the mutex. */
  predicate Harmless(s: State, steps: seq<Step>)
    decreases |steps|
  {
    steps == [] ||
    (&& Enabled(s, steps[0]) && (steps[0].SpuriousWake? ==> s.owner == MainThread)
     && Harmless(Next(s, steps[0]), steps[1..]))
  }

  /** What the handlers of a run said, in order. */
  function AnswersIn(steps: seq<Step>): seq<bool> {
    if steps == [] then []
    else (if steps[0].Answer? then [steps[0].verdict] else []) + AnswersIn(steps[1..])
  }

  function Start(messages: nat): State {
    State(messages, Between, Loop, Nobody, [], true, [], [], [])
  }

  // -------------------------------------------------------------------------- safety

  /** A thread that will still read or write the record. */
  predicate UsesRecord(m: Main) {
    m.Dispatched? || m.InHandler? || m.Stored?
  }

  /** The worker's call for the current message has not returned. */
  predicate RecordLives(s: State) {
    s.worker != Between
  }

  /** The worker's message has been answered. */
  predicate Answered(s: State) {
    || s.worker in {Resumed, Unlocked}
    || (s.worker == Waking && !s.main.InHandler?)
    || (s.worker == Waiting && s.main.Stored?)
  }

  function UpTo(n: nat): (r: seq<nat>)
    ensures |r| == n && forall i :: 0 <= i < n ==> r[i] == i
  {
    if n == 0 then [] else UpTo(n - 1) + [n - 1]
  }

  predicate Positions(s: State) {
    var cur := Current(s);
    match s.worker
    case Between => s.owner == Nobody && s.idle == [] && s.main == Loop
    case Begun => s.owner == Nobody && s.idle == [] && s.main == Loop
    case Locked => s.owner == WorkerThread && s.idle == [] && s.main == Loop
    case Queued =>
      s.owner == WorkerThread && ((s.idle == [cur] && s.main == Loop) || (s.idle == [] && s.main == Dispatched(cur)))
    case Waiting =>
      || (s.owner == Nobody && s.idle == [cur] && s.main == Loop)
      || (s.owner == Nobody && s.idle == [] && s.main == Dispatched(cur))
      || (s.owner == MainThread && s.idle == [] && s.main in {InHandler(cur), Stored(cur)})
    case Waking =>
      && s.idle == []
      && if s.owner == MainThread then s.main in {InHandler(cur), Stored(cur), Signalled(cur)}
         else s.owner == Nobody && s.main == Loop
    case Resumed => s.owner == WorkerThread && s.idle == [] && s.main == Loop
    case Unlocked => s.owner == Nobody && s.idle == [] && s.main == Loop
  }

  ghost predicate Inv(s: State) {
    && Positions(s)
    && Current(s) + (if s.worker == Between then 0 else 1) <= s.messages
    && s.handled == UpTo(Current(s) + (if Answered(s) then 1 else 0))
    && |s.verdicts| == |s.handled|
    && s.results == s.verdicts[..|s.results|]
    && (RecordLives(s) && !Answered(s) ==> s.interrupt)
    && (Answered(s) ==> s.interrupt == !s.verdicts[Current(s)])
  }

  lemma StepKeepsInv(s: State, step: Step)
    requires Inv(s) && Enabled(s, step) && (step.SpuriousWake? ==> s.owner == MainThread)
    ensures Inv(Next(s, step))
  {
    var t := Next(s, step);
    if step.Return? {
      assert t.results == t.verdicts[..|t.results|];
    }
  }

  lemma {:induction false} RunKeepsInv(s: State, steps: seq<Step>, t: State)
    requires Inv(s) && Run(s, steps, t) && Harmless(s, steps)
    ensures Inv(t)
    decreases |steps|
  {
    if steps != [] {
      StepKeepsInv(s, steps[0]);
      RunKeepsInv(Next(s, steps[0]), steps[1..], t);
    }
  }

  /** The log of verdicts is what the handlers said, and nothing else writes to it. */
  lemma {:induction false} VerdictsAreAnswers(s: State, steps: seq<Step>, t: State)
    requires Run(s, steps, t)
    ensures t.verdicts == s.verdicts + AnswersIn(steps)
    decreases |steps|
  {
    if steps != [] {
      VerdictsAreAnswers(Next(s, steps[0]), steps[1..], t);
      var first := if steps[0].Answer? then [steps[0].verdict] else [];
      assert Next(s, steps[0]).verdicts == s.verdicts + first;
      assert s.verdicts + first + AnswersIn(steps[1..]) == s.verdicts + (first + AnswersIn(steps[1..]));
    }
  }

  /** What the handshake is for:
      each message's handler has run at most once, in order, and exactly once when its call has returned;
      a call returns what its own handler answered;
      whoever still uses a record uses the current one, and its owner has not returned;
      a signal never gets lost: it is sent only to a worker that waits or is already waking up;
      and while the handler runs its nested main loop finds no other request to run. */
  ghost predicate Safe(t: State) {
    && t.handled == UpTo(|t.handled|) && |t.results| <= |t.handled| <= |t.results| + 1
    && |t.verdicts| == |t.handled| && t.results == t.verdicts[..|t.results|]
    && (UsesRecord(t.main) ==> t.main.record == Current(t) && RecordLives(t))
    && (t.idle != [] ==> t.idle == [Current(t)] && RecordLives(t))
    && (t.worker in {Resumed, Unlocked} ==> |t.handled| == |t.results| + 1 && t.interrupt == !t.verdicts[|t.results|])
    && (Enabled(t, Signal) ==> t.worker in {Waiting, Waking})
    && (t.main.InHandler? ==> t.idle == [])
  }

  lemma InvIsSafe(t: State)
    requires Inv(t)
    ensures Safe(t)
  {
  }

  /** Main result, for any number of messages and any interleaving whose spurious wakeups, if any, come while the
      main thread holds the mutex.  What the calls return is what the handlers of the run said, call by call. */
  lemma HandshakeIsSafe(messages: nat, steps: seq<Step>, t: State)
    requires Run(Start(messages), steps, t) && Harmless(Start(messages), steps)
    ensures Safe(t)
    ensures |t.results| <= |AnswersIn(steps)| == |t.handled| && t.results == AnswersIn(steps)[..|t.results|]
  {
    RunKeepsInv(Start(messages), steps, t);
    InvIsSafe(t);
    VerdictsAreAnswers(Start(messages), steps, t);
  }

  // ------------------------------------------------------------------------ progress

  predicate Finished(s: State) {
    s.worker == Between && Current(s) == s.messages
  }

  /** A step that is possible as long as the worker has something left to do. */
  function Possible(s: State, answer: bool): Step {
    match s.worker
    case Between => Begin
    case Begun => LockByWorker
    case Locked => AddIdle
    case Queued => Wait
    case Waiting =>
      (match s.main
       case Loop => Dispatch
       case Dispatched(_) => LockByMain
       case InHandler(_) => Answer(answer)
       case _ => Signal)
    case Waking =>
      (match s.main
       case InHandler(_) => Answer(answer)
       case Stored(_) => Signal
       case Signalled(_) => UnlockByMain
       case _ => Reacquire)
    case Resumed => UnlockByWorker
    case Unlocked => Return
  }

  /** Steps taken for the current message, a spurious wakeup not counted. */
  function Progress(s: State): nat {
    match s.worker
    case Between => 0
    case Begun => 1
    case Locked => 2
    case Queued => if s.main.Dispatched? then 4 else 3
    case Waiting =>
      (match s.main
       case Loop => 4
       case Dispatched(_) => 5
       case InHandler(_) => 6
       case _ => 7)
    case Waking =>
      (match s.main
       case InHandler(_) => 6
       case Stored(_) => 7
       case Signalled(_) => 8
       case _ => 9)
    case Resumed => 10
    case Unlocked => 11
  }

  function CountWakes(steps: seq<Step>): nat {
    if steps == [] then 0 else (if steps[0].SpuriousWake? then 1 else 0) + CountWakes(steps[1..])
  }

  /** The messages for which there may still be a spurious wakeup. */
  function WakesLeft(s: State): int {
    s.messages - Current(s) - if s.worker in {Waking, Resumed, Unlocked} then 1 else 0
  }

  lemma StepCounts(s: State, step: Step)
    requires Inv(s) && Enabled(s, step) && (step.SpuriousWake? ==> s.owner == MainThread)
    ensures var t, wakes := Next(s, step), if step.SpuriousWake? then 1 else 0;
      && 12 * Current(s) + Progress(s) + 1 == 12 * Current(t) + Progress(t) + wakes
      && WakesLeft(t) + wakes <= WakesLeft(s) && t.messages == s.messages
  {
    hide UpTo;
  }

  lemma {:induction false} StepsAreCounted(s: State, steps: seq<Step>, t: State)
    requires Inv(s) && Run(s, steps, t) && Harmless(s, steps)
    ensures 12 * Current(s) + Progress(s) + |steps| == 12 * Current(t) + Progress(t) + CountWakes(steps)
    ensures WakesLeft(t) + CountWakes(steps) <= WakesLeft(s)
    ensures t.messages == s.messages
    decreases |steps|
  {
    if steps != [] {
      StepKeepsInv(s, steps[0]);
      StepCounts(s, steps[0]);
      hide Inv, Next, Progress, WakesLeft, Enabled;
      StepsAreCounted(Next(s, steps[0]), steps[1..], t);
    }
  }

  lemma NoDeadlock(s: State, answer: bool)
    requires Inv(s) && !Finished(s)
    ensures Enabled(s, Possible(s, answer)) && !Possible(s, answer).SpuriousWake?
  {
  }

  lemma FinishedByCount(s: State)
    requires Inv(s)
    ensures 12 * Current(s) + Progress(s) <= 12 * s.messages
    ensures Finished(s) <==> 12 * Current(s) + Progress(s) == 12 * s.messages
    ensures Finished(s) ==> s.results == s.verdicts && s.handled == UpTo(s.messages)
    ensures WakesLeft(s) >= 0
  {
  }

  /** Main result: no deadlock, and no run is longer than twelve steps a message and one spurious wakeup.  So every
      run that is carried on ends with all messages handled and answered. */
  lemma HandshakeFinishes(messages: nat, steps: seq<Step>, t: State)
    requires Run(Start(messages), steps, t) && Harmless(Start(messages), steps)
    ensures CountWakes(steps) <= messages && |steps| <= 12 * messages + CountWakes(steps)
    ensures !Finished(t) ==> forall answer :: Enabled(t, Possible(t, answer)) && !Possible(t, answer).SpuriousWake?
    ensures Finished(t) <==> |steps| == 12 * messages + CountWakes(steps)
    ensures Finished(t) ==> t.results == AnswersIn(steps) && t.handled == UpTo(messages)
  {
    RunKeepsInv(Start(messages), steps, t);
    StepsAreCounted(Start(messages), steps, t);
    VerdictsAreAnswers(Start(messages), steps, t);
    FinishedByCount(t);
    assert Current(Start(messages)) == 0 && Progress(Start(messages)) == 0 && WakesLeft(Start(messages)) == messages;
    hide *;
    if !Finished(t) {
      forall answer ensures Enabled(t, Possible(t, answer)) && !Possible(t, answer).SpuriousWake? {
        NoDeadlock(t, answer);
      }
    }
  }

  // ----------------------------------------------------------- harmful spurious wakeups

  /** From a spurious wakeup to the return of the call. */
  const HASTY: seq<Step> := [SpuriousWake, Reacquire, UnlockByWorker, Return]

  function AfterHasty(s: State): State {
    s.(worker := Between, owner := Nobody, results := s.results + [!s.interrupt])
  }

  lemma {:induction false} HastyRuns(s: State)
    requires s.worker == Waiting && s.owner == Nobody
    ensures Run(s, HASTY, AfterHasty(s))
  {
    var s1 := Next(s, SpuriousWake);
    var s2 := Next(s1, Reacquire);
    var s3 := Next(s2, UnlockByWorker);
    var s4 := Next(s3, Return);
    assert Run(s4, [], s4);
    assert Run(s3, [Return], s4);
    assert [UnlockByWorker, Return][1..] == [Return];
    assert Run(s2, [UnlockByWorker, Return], s4);
    assert [Reacquire, UnlockByWorker, Return][1..] == [UnlockByWorker, Return];
    assert Run(s1, [Reacquire, UnlockByWorker, Return], s4);
    assert HASTY[1..] == [Reacquire, UnlockByWorker, Return];
  }

  /** If the worker wakes up before the main thread has taken the mutex, it can return `interrupt the stack`
      for a message nobody has answered, and the main thread is left with the record of a call that has
      returned. */
  lemma {:induction false} SpuriousWakeBreaksHandshake(s: State)
    requires Inv(s) && s.worker == Waiting && s.owner == Nobody
    ensures var t := AfterHasty(s);
      && Run(s, HASTY, t)
      && t.results == s.results + [false]
      && |t.handled| < |t.results|
      && !RecordLives(t)
      && (UsesRecord(t.main) || t.idle == [Current(s)])
      && !Safe(t)
  {
    HastyRuns(s);
  }

  /** Main result: the exact condition.  A spurious wakeup of a waiting worker does no harm, in whatever way things
      go on with harmless ones, if and only if the main thread holds the mutex. */
  lemma {:induction false} WakeIsHarmlessExactly(s: State)
    requires Inv(s) && s.worker == Waiting
    ensures s.owner == MainThread <==>
      forall steps, t :: Run(s, [SpuriousWake] + steps, t) && Harmless(Next(s, SpuriousWake), steps) ==> Safe(t)
  {
    if s.owner == MainThread {
      forall steps, t | Run(s, [SpuriousWake] + steps, t) && Harmless(Next(s, SpuriousWake), steps) ensures Safe(t) {
        StepKeepsInv(s, SpuriousWake);
        assert ([SpuriousWake] + steps)[1..] == steps;
        RunKeepsInv(Next(s, SpuriousWake), steps, t);
        InvIsSafe(t);
      }
    } else {
      SpuriousWakeBreaksHandshake(s);
      var rest := [Reacquire, UnlockByWorker, Return];
      assert HASTY == [SpuriousWake] + rest;
      HastyIsHarmlessBehind(s);
      assert Run(s, [SpuriousWake] + rest, AfterHasty(s)) && !Safe(AfterHasty(s));
    }
  }

  lemma HastyIsHarmlessBehind(s: State)
    requires s.worker == Waiting && s.owner == Nobody
    ensures Harmless(Next(s, SpuriousWake), [Reacquire, UnlockByWorker, Return])
  {
    var s1 := Next(s, SpuriousWake);
    var s2 := Next(s1, Reacquire);
    var s3 := Next(s2, UnlockByWorker);
    assert Harmless(Next(s3, Return), []);
    assert Harmless(s3, [Return]);
    assert [UnlockByWorker, Return][1..] == [Return];
    assert Harmless(s2, [UnlockByWorker, Return]);
    assert [Reacquire, UnlockByWorker, Return][1..] == [UnlockByWorker, Return];
  }

  /** The shortest failure, from the start: the first message's call returns before its handler has been
      dispatched. */
  lemma FailureFromStart(messages: nat)
    requires messages > 0
    ensures var steps := [Begin, LockByWorker, AddIdle, Wait] + HASTY;
      var t := Start(messages).(idle := [0], results := [false]);
      Run(Start(messages), steps, t) && !Safe(t) && t.handled == [] && t.idle == [0] && !RecordLives(t)
  {
    var s0 := Start(messages);
    var s1 := Next(s0, Begin);
    var s2 := Next(s1, LockByWorker);
    var s3 := Next(s2, AddIdle);
    var s4 := Next(s3, Wait);
    HastyRuns(s4);
    var t := AfterHasty(s4);
    assert ([Wait] + HASTY)[1..] == HASTY;
    assert Run(s3, [Wait] + HASTY, t);
    assert ([AddIdle] + ([Wait] + HASTY))[1..] == [Wait] + HASTY;
    assert Run(s2, [AddIdle] + ([Wait] + HASTY), t);
    assert ([LockByWorker] + ([AddIdle] + ([Wait] + HASTY)))[1..] == [AddIdle] + ([Wait] + HASTY);
    assert Run(s1, [LockByWorker] + ([AddIdle] + ([Wait] + HASTY)), t);
    var steps := [Begin, LockByWorker, AddIdle, Wait] + HASTY;
    assert steps[1..] == [LockByWorker] + ([AddIdle] + ([Wait] + HASTY));
    assert steps[0] == Begin && Run(s0, steps, t);
    assert t == Start(messages).(idle := [0], results := [false]);
  }
}
