/**
 The PAM helper process: up to five attempts at authentication, and what they print.

 What is printed is checked by `Advance`, an automaton over messages that knows nothing of
 the code.  PAM supplies the messages of each attempt and its verdict.

 SIGTERM or an error on standard input cancels, which makes every printing function silent.  The
 monitor of standard input then ends, and its callback, run by whatever main loop is turning,
 drops the cancellable: from then on nothing is silent any more.
 */
module PamHelper {
  import opened HelperProtocol

  const MAX_FAILURES: nat := 5

  // ------------------------------------------------------------------ the grammar

  /** After `failures` failed attempts: between exchanges, behind a prompt, behind its BUSY_FALSE. */
  datatype Phase =
    | Ready(failures: nat)
    | Prompted(failures: nat)
    | Asking(failures: nat)
    | Finished
    | Wrong

  function Advance(p: Phase, m: Message): Phase {
    match (p, m)
    case (Ready(k), Info(_)) => Ready(k)
    case (Ready(k), Prompt(_)) => Prompted(k)
    case (Ready(k), Failure) => if k + 1 < MAX_FAILURES then Ready(k + 1) else Wrong
    case (Ready(_), Success) => Finished
    case (Ready(k), Cancelled) => if k + 1 == MAX_FAILURES then Finished else Wrong
    case (Prompted(k), Busy(b)) => if b then Wrong else Asking(k)
    case (Asking(k), Busy(b)) => if b then Ready(k) else Wrong
    case _ => Wrong
  }

  function PhaseOf(trace: seq<Message>): Phase {
    if trace == [] then Ready(0) else Advance(PhaseOf(trace[..|trace| - 1]), trace[|trace| - 1])
  }

  predicate Grammatical(trace: seq<Message>) {
    PhaseOf(trace) != Wrong
  }

  function CountFailures(trace: seq<Message>): nat {
    if trace == [] then 0
    else CountFailures(trace[..|trace| - 1]) + (if trace[|trace| - 1] == Failure then 1 else 0)
  }

  predicate TerminalMessage(m: Message) {
    m == Success || m == Cancelled
  }

  /** What the last messages say about the phase. */
  predicate EndFits(trace: seq<Message>, p: Phase)
    requires !p.Wrong?
  {
    var n := |trace|;
    && (p.Finished? <==> n > 0 && TerminalMessage(trace[n - 1]))
    && (!p.Finished? ==> p.failures == CountFailures(trace))
    && CountFailures(trace) < MAX_FAILURES
    && (n > 0 && trace[n - 1] == Cancelled ==> CountFailures(trace) == MAX_FAILURES - 1)
    && (p.Prompted? ==> n > 0 && trace[n - 1].Prompt?)
    && (p.Asking? ==> n >= 2 && trace[n - 1] == Busy(false) && trace[n - 2].Prompt?)
  }

  lemma EndFitsStep(front: seq<Message>, p: Phase, m: Message)
    requires !p.Wrong? && EndFits(front, p) && !Advance(p, m).Wrong?
    ensures EndFits(front + [m], Advance(p, m))
  {
    assert (front + [m])[..|front|] == front;
  }

  lemma {:induction false} GrammarEnds(trace: seq<Message>)
    requires Grammatical(trace)
    ensures EndFits(trace, PhaseOf(trace))
  {
    if trace != [] {
      var front, m := trace[..|trace| - 1], trace[|trace| - 1];
      GrammarEnds(front);
      EndFitsStep(front, PhaseOf(front), m);
      assert front + [m] == trace;
    }
  }

  lemma {:induction false} GrammarInside(trace: seq<Message>, i: nat)
    requires Grammatical(trace) && i < |trace|
    ensures i < |trace| - 1 ==> !TerminalMessage(trace[i])
    ensures trace[i] == Busy(true) ==> i >= 2 && trace[i - 1] == Busy(false) && trace[i - 2].Prompt?
    ensures trace[i] == Busy(false) <==> i > 0 && trace[i - 1].Prompt?
    ensures i > 0 && trace[i - 1] == Busy(false) ==> trace[i] == Busy(true)
  {
    var front := trace[..|trace| - 1];
    GrammarEnds(front);
    if i < |front| {
      GrammarInside(front, i);
    }
  }

  /** What the grammar amounts to, at every place `i`: at most four failures; a terminal message is the last one;
      CANCELLED comes exactly where a fifth failure would; each BUSY_FALSE directly follows a prompt and each
      BUSY_TRUE directly follows a BUSY_FALSE; and nothing else follows either. */
  lemma {:induction false} GrammarMeans(trace: seq<Message>, i: nat)
    requires Grammatical(trace) && i < |trace|
    ensures CountFailures(trace) <= 4
    ensures PhaseOf(trace).Finished? <==> TerminalMessage(trace[|trace| - 1])
    ensures TerminalMessage(trace[i]) ==> i == |trace| - 1
    ensures trace[i] == Cancelled ==> CountFailures(trace) == 4
    ensures trace[i] == Busy(true) ==> i >= 2 && trace[i - 1] == Busy(false) && trace[i - 2].Prompt?
    ensures trace[i] == Busy(false) <==> i > 0 && trace[i - 1].Prompt?
    ensures i > 0 && trace[i - 1] == Busy(false) ==> trace[i] == Busy(true)
  {
    GrammarEnds(trace);
    GrammarInside(trace, i);
    hide PhaseOf, CountFailures, Grammatical;
  }

  lemma PhaseOfMore(trace: seq<Message>, m: Message)
    ensures PhaseOf(trace + [m]) == Advance(PhaseOf(trace), m)
    ensures CountFailures(trace + [m]) == CountFailures(trace) + (if m == Failure then 1 else 0)
  {
    assert (trace + [m])[..|trace|] == trace;
  }

  // ------------------------------------------------------------------- the environment

  datatype Style = EchoOn | EchoOff | ErrorMessage | TextInfo

  /** What a main loop may find: a line on standard input, a SIGTERM or an error there, and the end of the
      monitor of standard input, which comes after either. */
  datatype Occurrence = LineRead(line: string) | Stop | MonitorEnds

  type Turn = seq<Occurrence>

  /** A message from PAM.  `rounds` are the main loop's turns while a password is waited for, one for each
      round of the wait; `after` is what the main loops find behind the message, up to the next one. */
  datatype Conversation = Conversation(style: Style, msg: Option<string>, rounds: seq<Turn>, after: Turn)

  /** One call of pam_authenticate: what the outer main loop finds before it, what the nested one finds up to the
      first message, the messages, and the verdict. */
  datatype Attempt = Attempt(before: Turn, first: Turn, messages: seq<Conversation>, verified: bool)

  predicate Calm(c: Conversation) {
    Stop !in c.after && forall t :: t in c.rounds ==> Stop !in t
  }

  predicate CalmAttempt(a: Attempt) {
    Stop !in a.before && Stop !in a.first && forall c :: c in a.messages ==> Calm(c)
  }

  predicate Undisturbed(attempts: seq<Attempt>) {
    forall a :: a in attempts ==> CalmAttempt(a)
  }

  /** How many attempts fail before the first success or the limit. */
  function FailedFirst(attempts: seq<Attempt>, limit: nat): nat {
    if attempts == [] || limit == 0 || attempts[0].verified then 0
    else 1 + FailedFirst(attempts[1..], limit - 1)
  }

  // --------------------------------------------------------------------- the process

  /** stdin_cancellable: `Gone` once it has been dropped, which counts as not cancelled. */
  datatype Cancellable = Live | Stopped | Gone

  /** Which main loop is turning: the program's own, one nested in an attempt, or the wait for a password. */
  datatype Loop = Outer | InAttempt | InWait

  /** `waiting`: the wait for a password is not over.  `fails`: whether the monitor of standard input meets an
      error just before the next message is printed, and the ones after it.  `cut` is how much was printed before
      the cancellation; `revived`: the cancellable was dropped in a loop nested in an attempt. */
  datatype State = State(
    loop_counter: nat,
    cancellable: Cancellable,
    password: Option<string>,
    output: seq<Message>,
    waiting: bool,
    fails: seq<bool>,
    cut: nat,
    revived: bool)

  function Start(fails: seq<bool>): State {
    State(0, Live, None, [], false, fails, 0, false)
  }

  /** g_cancellable_cancel */
  function Cancelling(s: State): State {
    if s.cancellable.Live? then s.(cancellable := Stopped, cut := |s.output|) else s
  }

  /** stdin_monitor_task_finished, which runs shutdown. */
  function MonitorEnded(s: State, where: Loop): State {
    if s.cancellable.Stopped? then s.(cancellable := Gone, password := None, revived := where == InAttempt) else s
  }

  /** Nobody reads standard input when the monitor is gone. */
  function Happened(s: State, o: Occurrence, where: Loop): State {
    match o
    case LineRead(line) => if s.cancellable.Gone? then s else s.(password := Some(line))
    case Stop => Cancelling(s)
    case MonitorEnds => MonitorEnded(s, where)
  }

  /** One turn of a main loop. */
  function Turned(s: State, turn: Turn, where: Loop): State
    decreases |turn|
  {
    if turn == [] then s else Turned(Happened(s, turn[0], where), turn[1..], where)
  }

  /** The monitor meets its next error, or not. */
  function Failing(s: State): State {
    if s.fails == [] then s else (if s.fails[0] then Cancelling(s) else s).(fails := s.fails[1..])
  }

  /** send_failure, send_success, ...: silent while the cancellable is cancelled. */
  function Sent(s: State, m: Message): State {
    var t := Failing(s);
    if t.cancellable.Stopped? then t else t.(output := t.output + [m])
  }

  /** The rounds of the wait for a password; when they are over before it is, it is not over. */
  function Waited(s: State, rounds: seq<Turn>): State
    decreases |rounds|
  {
    if s.password.Some? || s.cancellable.Stopped? then s
    else if rounds == [] then s.(waiting := true)
    else Waited(Turned(s, rounds[0], InWait), rounds[1..])
  }

  /** A prompt: asked, waited for, and the password taken. */
  function Asked(s: State, prompt: string, rounds: seq<Turn>): (State, Option<string>) {
    var t := Waited(Sent(Sent(s, Prompt(prompt)), Busy(false)), rounds);
    if t.waiting then (t, None) else (t.(password := None), t.password)
  }

  /** The switch of auth_message_handler and what is sent after it. */
  function Answered(s: State, c: Conversation): (State, Option<string>) {
    if c.msg.None? then (s, None)
    else
      match c.style
      case EchoOff =>
        var (t, response) := Asked(s, c.msg.value, c.rounds);
        (if response.Some? then Sent(t, Busy(true)) else t, response)
      case TextInfo => (Sent(s, Info(c.msg.value)), None)
      case _ => (s, None)
  }

  /** auth_message_handler with the main loop's turns behind it. */
  function Handled(s: State, c: Conversation): State {
    var t := Answered(s, c).0;
    if t.waiting then t else Turned(t, c.after, InAttempt)
  }

  function HandledAll(s: State, messages: seq<Conversation>): State
    decreases |messages|
  {
    if messages == [] || s.waiting then s else HandledAll(Handled(s, messages[0]), messages[1..])
  }

  /** auth_check_idle behind the check: the verdict, and whether there is another attempt. */
  function Judged(s: State, verified: bool): (State, bool) {
    if verified then (Cancelling(Sent(s, Success)), false)
    else
      var t := s.(loop_counter := s.loop_counter + 1);
      if t.loop_counter < MAX_FAILURES then (Sent(t, Failure), true) else (Cancelling(Sent(t, Cancelled)), false)
  }

  /** auth_check_idle; a check that waits does not come back. */
  function Checked(s: State, a: Attempt): (State, bool) {
    var t := HandledAll(Turned(s, a.first, InAttempt), a.messages);
    if t.waiting then (t, true) else Judged(t, a.verified)
  }

  /** The whole session, and whether it came to a verdict that ends it.  Dropping the cancellable also quits the
      outer main loop. */
  function Ran(s: State, attempts: seq<Attempt>): (State, bool)
    decreases |attempts|
  {
    if attempts == [] || s.waiting || s.cancellable.Gone? then (s, false)
    else
      var t := Turned(s, attempts[0].before, Outer);
      if t.cancellable.Gone? then (t, false)
      else
        var (u, again) := Checked(t, attempts[0]);
        if again then Ran(u, attempts[1..]) else (u, true)
  }

  // ---------------------------------------------------- what holds in the course of a session

  /** How far an exchange with the user has come, and the phase that belongs to it. */
  datatype Spot = Between | BehindPrompt | BehindBusy

  function PhaseAt(failures: nat, spot: Spot): Phase {
    match spot
    case Between => Ready(failures)
    case BehindPrompt => Prompted(failures)
    case BehindBusy => Asking(failures)
  }

  /** Where a printed message leads; verdicts are looked at apart. */
  predicate Follows(spot: Spot, m: Message, next: Spot) {
    match m
    case Info(_) => spot == next == Between
    case Prompt(_) => spot == Between && next == BehindPrompt
    case Busy(b) => if b then spot == BehindBusy && next == Between else spot == BehindPrompt && next == BehindBusy
    case _ => false
  }

  /** The phase in which the cancellation came. */
  function CutPhase(s: State): Phase
    requires s.cut <= |s.output|
  {
    PhaseOf(s.output[..s.cut])
  }

  predicate Going(p: Phase) { !p.Wrong? && !p.Finished? }

  /** In the course of an attempt.  Up to the cancellation the output is where the exchange is.  From then on
      nothing is printed, until the cancellable is gone; what is printed after that fits only if the
      cancellation came between two exchanges. */
  ghost predicate At(s: State, spot: Spot) {
    && s.loop_counter < MAX_FAILURES && s.cut <= |s.output|
    && match s.cancellable
       case Live => PhaseOf(s.output) == PhaseAt(s.loop_counter, spot) && !s.revived
       case Stopped =>
         s.cut == |s.output| && !s.revived && Going(CutPhase(s)) && CutPhase(s).failures <= s.loop_counter
       case Gone =>
         && s.password.None?
         && Going(CutPhase(s)) && CutPhase(s).failures <= s.loop_counter
         && (s.cut < |s.output| ==> s.revived)
         && PhaseOf(s.output) ==
              (if s.cut == |s.output| then CutPhase(s)
               else if CutPhase(s).Ready? then PhaseAt(CutPhase(s).failures, spot) else Wrong)
  }

  /** The same, where something more will be printed. */
  ghost predicate GoesOn(s: State, spot: Spot) {
    At(s, spot) && !s.waiting && (s.cancellable.Gone? ==> s.revived && (spot != Between ==> s.cut < |s.output|))
  }

  /** Whether the whole output follows the grammar: it does as long as nothing was printed after a cancellation,
      and beyond that exactly if no prompt was open when the cancellation came, and CANCELLED, where it is the
      verdict, stands behind four FAILUREs, none of them kept silent. */
  predicate FollowsGrammar(s: State)
    requires s.cut <= |s.output|
  {
    || !s.revived
    || (CutPhase(s).Ready? && (s.loop_counter < MAX_FAILURES || CutPhase(s).failures == MAX_FAILURES - 1))
  }

  /** What is known when an attempt is over, or while a password is waited for. */
  ghost predicate Accounted(s: State) {
    && s.cut <= |s.output|
    && (Grammatical(s.output) <==> FollowsGrammar(s))
    && (s.cancellable.Live? || s.cancellable.Stopped? ==> !s.revived)
    && (!s.cancellable.Live? ==> Grammatical(s.output[..s.cut]) && (s.revived <==> s.cut < |s.output|))
  }

  lemma HappenedKeeps(s: State, o: Occurrence, where: Loop, spot: Spot)
    requires At(s, spot)
    ensures At(Happened(s, o, where), spot)
  {
    hide PhaseOf;
    assert s.output[..|s.output|] == s.output;
  }

  /** What a turn of a main loop may do: it prints nothing, and what it does to the cancellable is for good. */
  predicate TurnsTo(s: State, t: State, calm: bool, where: Loop) {
    && t.output == s.output && t.waiting == s.waiting && t.fails == s.fails && t.loop_counter == s.loop_counter
    && (s.cancellable.Gone? ==> t == s)
    && (s.cancellable.Stopped? ==> !t.cancellable.Live? && t.cut == s.cut)
    && (!s.cancellable.Gone? && t.cancellable.Gone? ==>
          (t.revived <==> where == InAttempt) && t.password.None? && (s.cancellable.Live? ==> t.cut == |t.output|))
    && (s.cancellable.Live? && calm ==> t.cancellable.Live?)
  }

  lemma {:induction false} TurnedKeeps(s: State, turn: Turn, where: Loop, spot: Spot)
    requires At(s, spot)
    ensures At(Turned(s, turn, where), spot) && TurnsTo(s, Turned(s, turn, where), Stop !in turn, where)
    decreases |turn|
  {
    if turn != [] {
      HappenedKeeps(s, turn[0], where, spot);
      TurnedKeeps(Happened(s, turn[0], where), turn[1..], where, spot);
      hide At;
      assert turn[0] in turn;
    }
  }

  /** What printing a message leads to. */
  predicate SendsTo(s: State, t: State, m: Message) {
    && t.output == (if t.cancellable.Stopped? then s.output else s.output + [m])
    && t.password == s.password && t.waiting == s.waiting && t.loop_counter == s.loop_counter
    && t.revived == s.revived && (t.cancellable.Gone? <==> s.cancellable.Gone?)
    && (s.cancellable.Live? ==> t.cut == if t.cancellable.Live? then s.cut else |s.output|)
    && (!s.cancellable.Live? ==> t.cancellable == s.cancellable && t.cut == s.cut)
    && (true !in s.fails ==> true !in t.fails && (s.cancellable.Live? ==> t.cancellable.Live?))
  }

  lemma SentIs(s: State, m: Message)
    ensures SendsTo(s, Sent(s, m), m)
  {
  }

  lemma FailingKeeps(s: State, spot: Spot)
    requires GoesOn(s, spot)
    ensures GoesOn(Failing(s), spot)
  {
    hide PhaseOf;
    assert s.output[..|s.output|] == s.output;
  }

  lemma PrintedKeeps(s: State, m: Message, spot: Spot, next: Spot)
    requires GoesOn(s, spot) && Follows(spot, m, next) && !s.cancellable.Stopped?
    ensures GoesOn(s.(output := s.output + [m]), next)
  {
    PhaseOfMore(s.output, m);
    assert s.output[..|s.output|] == s.output;
    assert (s.output + [m])[..s.cut] == s.output[..s.cut];
    hide PhaseOf;
    AdvanceFollows(s.loop_counter, m, spot, next);
    if s.cancellable.Gone? {
      AdvanceFollows(CutPhase(s).failures, m, spot, next);
      if spot == Between { AdvanceOpen(CutPhase(s), m, next); }
      hide Advance, Follows;
    }
  }

  lemma AdvanceFollows(k: nat, m: Message, spot: Spot, next: Spot)
    requires Follows(spot, m, next)
    ensures Advance(PhaseAt(k, spot), m) == PhaseAt(k, next) && Advance(Wrong, m) == Wrong
  {
  }

  /** A new message while an exchange is open. */
  lemma AdvanceOpen(p: Phase, m: Message, next: Spot)
    requires Follows(Between, m, next) && Going(p)
    ensures Advance(p, m) == if p.Ready? then PhaseAt(p.failures, next) else Wrong
  {
  }

  lemma SentKeeps(s: State, m: Message, spot: Spot, next: Spot)
    requires GoesOn(s, spot) && Follows(spot, m, next)
    ensures GoesOn(Sent(s, m), next) && SendsTo(s, Sent(s, m), m)
  {
    SentIs(s, m);
    FailingKeeps(s, spot);
    var t := Failing(s);
    if t.cancellable.Stopped? {
      hide PhaseOf, Failing;
    } else {
      PrintedKeeps(t, m, spot, next);
    }
    hide GoesOn, Failing, Follows;
  }

  /** Where a wait may stand: once the cancellable is gone in it, nothing has been printed since. */
  ghost predicate CanWait(s: State) {
    At(s, BehindBusy) && !s.waiting && (s.cancellable.Gone? ==> (s.revived <==> s.cut < |s.output|))
  }

  /** A wait that goes on. */
  ghost predicate StillAsking(s: State) {
    s.waiting && Accounted(s) && (s.cancellable.Live? ==> At(s, BehindBusy))
  }

  /** A wait is over when there is a password or the cancellable is cancelled. */
  lemma {:induction false} WaitedKeeps(s: State, rounds: seq<Turn>)
    requires CanWait(s)
    ensures var t := Waited(s, rounds);
      && t.output == s.output && t.loop_counter == s.loop_counter && t.fails == s.fails
      && (!t.waiting ==> At(t, BehindBusy) && !t.cancellable.Gone? && (t.password.Some? || t.cancellable.Stopped?))
      && (t.waiting ==> StillAsking(t))
      && (s.cancellable.Live? && (forall r :: r in rounds ==> Stop !in r) ==> t.cancellable.Live?)
    decreases |rounds|
  {
    if s.password.Some? || s.cancellable.Stopped? {
    } else if rounds == [] {
      AtIsAccounted(s.(waiting := true), BehindBusy);
    } else {
      TurnedKeeps(s, rounds[0], InWait, BehindBusy);
      hide At, StillAsking, Turned;
      assert rounds[0] in rounds;
      WaitedKeeps(Turned(s, rounds[0], InWait), rounds[1..]);
    }
  }

  /** Without the monitor nobody answers: the prompt is printed and waited for without end. */
  lemma {:induction false} GoneWaitsForever(s: State, rounds: seq<Turn>)
    requires s.cancellable.Gone? && s.password.None?
    ensures Waited(s, rounds) == s.(waiting := true)
    decreases |rounds|
  {
    if rounds != [] {
      GoneStays(s, rounds[0], InWait);
      GoneWaitsForever(s, rounds[1..]);
    }
  }

  lemma AtIsAccounted(s: State, spot: Spot)
    requires At(s, spot) && (s.cancellable.Gone? ==> (s.revived <==> s.cut < |s.output|))
    ensures Accounted(s)
  {
    assert s.output[..|s.output|] == s.output;
    hide PhaseOf;
  }

  /** Undisturbed so far, and by the monitor to come. */
  predicate Peaceful(s: State) {
    s.cancellable.Live? && true !in s.fails
  }

  lemma AskedKeeps(s: State, prompt: string, rounds: seq<Turn>)
    requires GoesOn(s, Between)
    ensures var (t, response) := Asked(s, prompt, rounds);
      && t.loop_counter == s.loop_counter
      && (t.waiting ==> StillAsking(t) && response.None?)
      && (!t.waiting ==> GoesOn(t, BehindBusy) && !t.cancellable.Gone? && (t.cancellable.Live? ==> response.Some?))
      && (Peaceful(s) && (forall r :: r in rounds ==> Stop !in r) ==>
            Peaceful(t) && t.output == s.output + [Prompt(prompt), Busy(false)])
  {
    var s1 := Sent(s, Prompt(prompt));
    var s2 := Sent(s1, Busy(false));
    SentKeeps(s, Prompt(prompt), Between, BehindPrompt);
    SentKeeps(s1, Busy(false), BehindPrompt, BehindBusy);
    hide Sent;
    WaitedKeeps(s2, rounds);
    hide PhaseOf, Waited, StillAsking;
  }

  lemma AnsweredKeeps(s: State, c: Conversation)
    requires GoesOn(s, Between)
    ensures var t := Answered(s, c).0;
      && t.loop_counter == s.loop_counter
      && (if t.waiting then StillAsking(t) else GoesOn(t, Between))
      && (Peaceful(s) && Calm(c) ==> Peaceful(t))
  {
    if c.msg.Some? {
      match c.style {
        case EchoOff =>
          AskedKeeps(s, c.msg.value, c.rounds);
          var (t, response) := Asked(s, c.msg.value, c.rounds);
          hide Asked, StillAsking;
          if response.Some? { SentKeeps(t, Busy(true), BehindBusy, Between); }
          hide Sent, At;
        case TextInfo => SentKeeps(s, Info(c.msg.value), Between, Between);
        case _ =>
      }
    }
  }

  lemma HandledKeeps(s: State, c: Conversation)
    requires GoesOn(s, Between)
    ensures var t := Handled(s, c);
      && t.loop_counter == s.loop_counter
      && (if t.waiting then StillAsking(t) else GoesOn(t, Between))
      && (Peaceful(s) && Calm(c) ==> Peaceful(t))
  {
    AnsweredKeeps(s, c);
    var t := Answered(s, c).0;
    hide Answered, At, StillAsking;
    if !t.waiting { TurnedKeeps(t, c.after, InAttempt, Between); }
  }

  lemma {:induction false} HandledAllKeeps(s: State, messages: seq<Conversation>)
    requires GoesOn(s, Between)
    ensures var t := HandledAll(s, messages);
      && t.loop_counter == s.loop_counter
      && (if t.waiting then StillAsking(t) else GoesOn(t, Between))
      && (Peaceful(s) && (forall c :: c in messages ==> Calm(c)) ==> Peaceful(t))
    decreases |messages|
  {
    if messages != [] {
      HandledKeeps(s, messages[0]);
      hide Handled, GoesOn, StillAsking, Calm;
      var t := Handled(s, messages[0]);
      assert messages[0] in messages;
      if !t.waiting { HandledAllKeeps(t, messages[1..]); }
    }
  }

  // ------------------------------------------------------------------------ the verdict

  lemma AdvanceVerdict(p: Phase, m: Message)
    requires Going(p) && p.failures < MAX_FAILURES && m in {Success, Failure, Cancelled}
    ensures Advance(p, m) == Wrong <==>
      !p.Ready? || (m == Failure && p.failures + 1 == MAX_FAILURES)
      || (m == Cancelled && p.failures + 1 != MAX_FAILURES)
    ensures p.Ready? && m == Failure && p.failures + 1 < MAX_FAILURES ==> Advance(p, m) == Ready(p.failures + 1)
    ensures Advance(Wrong, m) == Wrong
  {
  }

  /** A verdict fits its loop counter: CANCELLED is the one at the limit. */
  predicate Fits(s: State, m: Message, k: nat) {
    && m in {Success, Failure, Cancelled}
    && k == (if m == Success then s.loop_counter else s.loop_counter + 1)
    && (m == Cancelled <==> k == MAX_FAILURES)
  }

  lemma VerdictLive(s: State, m: Message, k: nat)
    requires At(s, Between) && s.cancellable.Live? && Fits(s, m, k)
    ensures var t := s.(loop_counter := k, output := s.output + [m]);
      Accounted(t) && (m == Failure ==> At(t, Between)) && Accounted(Cancelling(t))
  {
    PhaseOfMore(s.output, m);
    AdvanceVerdict(PhaseOf(s.output), m);
    var t := s.output + [m];
    assert t[..|t|] == t;
    hide PhaseOf, Advance;
  }

  lemma VerdictStopped(s: State, m: Message, k: nat)
    requires At(s, Between) && s.cancellable.Stopped? && Fits(s, m, k)
    ensures var t := s.(loop_counter := k); Accounted(t) && (m == Failure ==> At(t, Between))
  {
    assert s.output[..|s.output|] == s.output;
    hide PhaseOf;
  }

  lemma VerdictGone(s: State, m: Message, k: nat)
    requires At(s, Between) && s.cancellable.Gone? && s.revived && Fits(s, m, k)
    ensures Accounted(s.(loop_counter := k, output := s.output + [m]))
  {
    PhaseOfMore(s.output, m);
    assert (s.output + [m])[..s.cut] == s.output[..s.cut];
    assert s.cut == |s.output| ==> s.output[..s.cut] == s.output;
    AdvanceVerdict(CutPhase(s), m);
    hide PhaseOf, Advance;
  }

  lemma FailingCounts(s: State, k: nat)
    ensures Failing(s.(loop_counter := k)) == Failing(s).(loop_counter := k)
  {
  }

  /** A verdict is printed behind an attempt, or kept silent.  `k` is the loop counter by then. */
  lemma VerdictKeeps(s: State, m: Message, k: nat)
    requires GoesOn(s, Between) && Fits(s, m, k)
    ensures var t := Sent(s.(loop_counter := k), m);
      && SendsTo(s.(loop_counter := k), t, m)
      && Accounted(t)
      && (m == Failure && !t.cancellable.Gone? ==> At(t, Between) && !t.waiting)
      && (m != Failure ==> Accounted(Cancelling(t)))
  {
    SentIs(s.(loop_counter := k), m);
    FailingKeeps(s, Between);
    FailingCounts(s, k);
    var u := Failing(s);
    assert u.loop_counter == s.loop_counter && u.waiting == s.waiting && u.output == s.output;
    match u.cancellable {
      case Live => VerdictLive(u, m, k);
      case Stopped => VerdictStopped(u, m, k);
      case Gone => VerdictGone(u, m, k);
    }
    hide Failing, PhaseOf, At, Accounted;
  }

  /** What is known when an attempt is through. */
  ghost predicate Through(s: State, t: State, again: bool) {
    && Accounted(t)
    && (again && !t.waiting && !t.cancellable.Gone? ==> At(t, Between))
    && (!again ==> !t.waiting && !t.cancellable.Live?)
    && (!t.waiting ==> t.loop_counter == s.loop_counter || t.loop_counter == s.loop_counter + 1)
  }

  lemma JudgedKeeps(s: State, verified: bool)
    requires GoesOn(s, Between)
    ensures var (t, again) := Judged(s, verified); Through(s, t, again) && !t.waiting
  {
    var k := if verified then s.loop_counter else s.loop_counter + 1;
    var m := if verified then Success else if k < MAX_FAILURES then Failure else Cancelled;
    VerdictKeeps(s, m, k);
    hide Sent, Accounted, At;
  }

  lemma CheckedKeeps(s: State, a: Attempt)
    requires At(s, Between) && !s.waiting && !s.cancellable.Gone?
    ensures var (t, again) := Checked(s, a); Through(s, t, again)
  {
    TurnedKeeps(s, a.first, InAttempt, Between);
    var s1 := Turned(s, a.first, InAttempt);
    hide At, Accounted, Turned;
    assert GoesOn(s1, Between);
    HandledAllKeeps(s1, a.messages);
    var s2 := HandledAll(s1, a.messages);
    hide HandledAll, GoesOn, Judged;
    if !s2.waiting { JudgedKeeps(s2, a.verified); }
  }

  lemma {:induction false} RanKeeps(s: State, attempts: seq<Attempt>)
    requires Accounted(s)
    requires !s.waiting && !s.cancellable.Gone? ==> At(s, Between)
    ensures Accounted(Ran(s, attempts).0)
    decreases |attempts|
  {
    if attempts != [] && !s.waiting && !s.cancellable.Gone? {
      var t := Turned(s, attempts[0].before, Outer);
      TurnedKeeps(s, attempts[0].before, Outer, Between);
      OuterIsAccounted(s, t, attempts[0].before);
      hide At, Accounted, Turned;
      if !t.cancellable.Gone? {
        CheckedKeeps(t, attempts[0]);
        hide Checked;
        var (u, again) := Checked(t, attempts[0]);
        if again { RanKeeps(u, attempts[1..]); }
      }
    }
  }

  /** In the outer loop the end of the monitor leaves the output as it was. */
  lemma OuterIsAccounted(s: State, t: State, turn: Turn)
    requires At(s, Between) && !s.cancellable.Gone? && At(t, Between) && TurnsTo(s, t, Stop !in turn, Outer)
    ensures Accounted(t)
  {
    AtIsAccounted(t, Between);
  }

  /** Main result, for every session: until the cancellation the output follows the grammar, and while the
      cancellable is there nothing follows.  With what is printed after it was dropped in an attempt, the output
      follows the grammar if and only if no prompt was open when the cancellation came and no FAILURE before a
      CANCELLED was kept silent. */
  lemma EverySessionIsAccounted(fails: seq<bool>, attempts: seq<Attempt>)
    ensures var t := Ran(Start(fails), attempts).0;
      && t.cut <= |t.output|
      && (t.cancellable.Live? ==> Grammatical(t.output))
      && (t.cancellable.Stopped? ==> t.cut == |t.output|)
      && (!t.cancellable.Live? ==> Grammatical(t.output[..t.cut]) && (t.revived <==> t.cut < |t.output|))
      && (Grammatical(t.output) <==> FollowsGrammar(t))
    ensures Accounted(Ran(Start(fails), attempts).0)
  {
    var s := Start(fails);
    assert At(s, Between);
    AtIsAccounted(s, Between);
    RanKeeps(s, attempts);
  }

  // ------------------------------------------------------------------ undisturbed sessions

  lemma CountAt(s: State, spot: Spot)
    requires At(s, spot) && s.cancellable.Live?
    ensures CountFailures(s.output) == s.loop_counter
    ensures Grammatical(s.output) && !PhaseOf(s.output).Finished?
  {
    GrammarEnds(s.output);
  }

  /** What an undisturbed attempt leads to: more of the same, a wait, or the end. */
  ghost predicate Proceeds(s: State, t: State, again: bool, verified: bool) {
    && (t.waiting ==> again && PhaseOf(t.output).Asking? && CountFailures(t.output) == s.loop_counter)
    && (!t.waiting ==> (again <==> !verified && s.loop_counter + 1 < MAX_FAILURES))
    && (again && !t.waiting ==> At(t, Between) && Peaceful(t) && t.loop_counter == s.loop_counter + 1)
    && (!again ==>
      && PhaseOf(t.output).Finished? && CountFailures(t.output) == s.loop_counter
      && t.output != [] && t.output[|t.output| - 1] == (if verified then Success else Cancelled))
  }

  lemma VerdictCalm(s: State, m: Message, k: nat)
    requires GoesOn(s, Between) && Peaceful(s) && Fits(s, m, k)
    ensures var t := Sent(s.(loop_counter := k), m);
      && Peaceful(t) && !t.waiting && t.loop_counter == k && t.output == s.output + [m]
      && CountFailures(t.output) == s.loop_counter + (if m == Failure then 1 else 0)
      && (m == Failure ==> At(t, Between))
      && (m != Failure ==> PhaseOf(t.output).Finished?)
  {
    CountAt(s, Between);
    assert PhaseOf(s.output) == Ready(s.loop_counter);
    VerdictKeeps(s, m, k);
    PhaseOfMore(s.output, m);
    VerdictEnds(PhaseOf(s.output), m);
    hide PhaseOf, CountFailures, Sent, Accounted, At, GoesOn;
  }

  lemma JudgedCalm(s: State, verified: bool)
    requires GoesOn(s, Between) && Peaceful(s)
    ensures var (t, again) := Judged(s, verified); Proceeds(s, t, again, verified) && !t.waiting
  {
    var k := if verified then s.loop_counter else s.loop_counter + 1;
    var m := if verified then Success else if k < MAX_FAILURES then Failure else Cancelled;
    assert s.loop_counter < MAX_FAILURES && Fits(s, m, k);
    hide PhaseOf, CountFailures, Sent, At, GoesOn;
    VerdictCalm(s, m, k);
    assert Judged(s, verified) ==
      var t := Sent(s.(loop_counter := k), m); if m == Failure then (t, true) else (Cancelling(t), false);
  }

  lemma VerdictEnds(p: Phase, m: Message)
    requires p.Ready?
    ensures m == Success || (m == Cancelled && p.failures + 1 == MAX_FAILURES) ==> Advance(p, m) == Finished
  {
  }

  lemma CheckedCalm(s: State, a: Attempt)
    requires At(s, Between) && Peaceful(s) && !s.waiting && CalmAttempt(a)
    ensures var (t, again) := Checked(s, a); Proceeds(s, t, again, a.verified)
  {
    TurnedKeeps(s, a.first, InAttempt, Between);
    var s1 := Turned(s, a.first, InAttempt);
    assert GoesOn(s1, Between) && Peaceful(s1);
    HandledAllKeeps(s1, a.messages);
    var s2 := HandledAll(s1, a.messages);
    if s2.waiting {
      CountAt(s2, BehindBusy);
    } else {
      JudgedCalm(s2, a.verified);
    }
    hide HandledAll, Judged, Turned;
  }

  /** What an undisturbed session leads to, with `limit` failures to go. */
  ghost predicate Outcome(s: State, attempts: seq<Attempt>, limit: nat, t: State, ended: bool) {
    var f := FailedFirst(attempts, limit);
    && Grammatical(t.output)
    && (ended <==> !t.waiting && (f == limit || f < |attempts|))
    && (ended <==> PhaseOf(t.output).Finished?)
    && (ended ==> t.output != [] && t.output[|t.output| - 1] == if f == limit then Cancelled else Success)
    && (!t.waiting ==> CountFailures(t.output) == s.loop_counter + if f == limit then limit - 1 else f)
  }

  lemma OutcomeStep(s: State, u: State, attempts: seq<Attempt>, t: State, ended: bool)
    requires attempts != [] && !attempts[0].verified && u.loop_counter == s.loop_counter + 1 < MAX_FAILURES
    requires Outcome(u, attempts[1..], MAX_FAILURES - u.loop_counter, t, ended)
    ensures Outcome(s, attempts, MAX_FAILURES - s.loop_counter, t, ended)
  {
    hide PhaseOf, CountFailures, Grammatical;
  }

  lemma OutcomeNow(s: State, u: State, again: bool, attempts: seq<Attempt>)
    requires attempts != [] && s.loop_counter < MAX_FAILURES && Proceeds(s, u, again, attempts[0].verified)
    requires !again || u.waiting
    ensures Outcome(s, attempts, MAX_FAILURES - s.loop_counter, u, !again)
  {
    hide PhaseOf, CountFailures;
    assert FailedFirst(attempts[1..], 0) == 0;
  }

  lemma {:induction false} RanCalm(s: State, attempts: seq<Attempt>)
    requires At(s, Between) && Peaceful(s) && !s.waiting && Undisturbed(attempts)
    ensures var (t, ended) := Ran(s, attempts); Outcome(s, attempts, MAX_FAILURES - s.loop_counter, t, ended)
    decreases |attempts|
  {
    if attempts == [] {
      CountAt(s, Between);
    } else {
      var a := attempts[0];
      assert a in attempts;
      TurnedKeeps(s, a.before, Outer, Between);
      var t := Turned(s, a.before, Outer);
      assert CalmAttempt(a);
      CheckedCalm(t, a);
      var (u, again) := Checked(t, a);
      hide Turned, Checked, At, CalmAttempt, Outcome;
      if again && !u.waiting {
        RanCalm(u, attempts[1..]);
        var (v, ended) := Ran(u, attempts[1..]);
        OutcomeStep(s, u, attempts, v, ended);
      } else {
        OutcomeNow(t, u, again, attempts);
        SameOutcome(s, t, attempts, u, !again);
      }
    }
  }

  lemma SameOutcome(s: State, t: State, attempts: seq<Attempt>, u: State, ended: bool)
    requires s.loop_counter == t.loop_counter <= MAX_FAILURES
    requires Outcome(t, attempts, MAX_FAILURES - t.loop_counter, u, ended)
    ensures Outcome(s, attempts, MAX_FAILURES - s.loop_counter, u, ended)
  {
  }

  /** Main result: an undisturbed session follows the grammar, prints a FAILURE for every attempt that failed but
      the fifth, and is complete exactly after the first success or the fifth failure, and tells which. */
  lemma UndisturbedSession(fails: seq<bool>, attempts: seq<Attempt>)
    requires true !in fails && Undisturbed(attempts)
    ensures var (t, ended) := Ran(Start(fails), attempts);
      var f := FailedFirst(attempts, MAX_FAILURES);
      && Grammatical(t.output)
      && (ended <==> !t.waiting && (f == MAX_FAILURES || f < |attempts|))
      && (ended <==> PhaseOf(t.output).Finished?)
      && (ended ==> t.output != [] && t.output[|t.output| - 1] == if f == MAX_FAILURES then Cancelled else Success)
      && (!t.waiting ==> CountFailures(t.output) == if f == MAX_FAILURES then MAX_FAILURES - 1 else f)
  {
    assert At(Start(fails), Between);
    hide PhaseOf, CountFailures, Ran, Undisturbed, At, FailedFirst;
    RanCalm(Start(fails), attempts);
  }

  // ----------------------------------------------------------------------- the password

  /** The last line a turn of the main loop brings. */
  function LastLine(turn: Turn): Option<string>
    decreases |turn|
  {
    if turn == [] then None
    else if LastLine(turn[1..]).Some? then LastLine(turn[1..])
    else if turn[0].LineRead? then Some(turn[0].line)
    else None
  }

  /** The line a wait takes: the one that is there already, or else the last one of the first round that brings any;
      a round with a cancellation is the last one. */
  function Typed(first: Option<string>, rounds: seq<Turn>): Option<string>
    decreases |rounds|
  {
    if first.Some? then first
    else if rounds == [] then None
    else if LastLine(rounds[0]).Some? || Stop in rounds[0] then LastLine(rounds[0])
    else Typed(None, rounds[1..])
  }

  lemma {:induction false} TurnBrings(s: State, turn: Turn, where: Loop)
    requires !s.cancellable.Gone?
    ensures var t := Turned(s, turn, where);
      && t.waiting == s.waiting
      && (t.cancellable.Gone? ==> t.password.None?)
      && (!t.cancellable.Gone? ==>
           && t.password == (if LastLine(turn).Some? then LastLine(turn) else s.password)
           && (t.cancellable.Stopped? <==> s.cancellable.Stopped? || Stop in turn))
    decreases |turn|
  {
    if turn != [] {
      var t := Happened(s, turn[0], where);
      if t.cancellable.Gone? {
        GoneStays(t, turn[1..], where);
      } else {
        TurnBrings(t, turn[1..], where);
      }
    }
  }

  lemma {:induction false} GoneStays(s: State, turn: Turn, where: Loop)
    requires s.cancellable.Gone?
    ensures Turned(s, turn, where) == s
    decreases |turn|
  {
    if turn != [] { GoneStays(s, turn[1..], where); }
  }

  /** Main result: a wait that ends has the line that was typed, and it ends if there is one and nobody cancels. */
  lemma {:induction false} WaitTakesTyped(s: State, rounds: seq<Turn>)
    requires !s.cancellable.Gone? && !s.waiting
    ensures var t := Waited(s, rounds);
      && (!t.waiting ==>
           !t.cancellable.Gone?
           && t.password == if s.cancellable.Stopped? then s.password else Typed(s.password, rounds))
      && (s.cancellable.Live? && (forall r :: r in rounds ==> Stop !in r) ==>
           (t.waiting <==> Typed(s.password, rounds).None?))
    decreases |rounds|
  {
    if s.password.None? && !s.cancellable.Stopped? && rounds != [] {
      var t := Turned(s, rounds[0], InWait);
      TurnBrings(s, rounds[0], InWait);
      assert rounds[0] in rounds;
      hide Turned, LastLine;
      if t.cancellable.Gone? {
        GoneWaitsForever(t, rounds[1..]);
        WasStopped(s, rounds[0], InWait);
      } else {
        WaitTakesTyped(t, rounds[1..]);
      }
    }
  }

  lemma {:induction false} WasStopped(s: State, turn: Turn, where: Loop)
    requires s.cancellable.Live? && Turned(s, turn, where).cancellable.Gone?
    ensures Stop in turn
    decreases |turn|
  {
    if turn != [] && Happened(s, turn[0], where).cancellable.Live? {
      WasStopped(Happened(s, turn[0], where), turn[1..], where);
    }
  }

  /** The cancellation came before the wait: it was there, or the monitor failed at one of the two prints. */
  predicate CutBefore(s: State) {
    s.cancellable.Stopped? || true in s.fails[..if |s.fails| < 2 then |s.fails| else 2]
  }

  lemma PromptMayCut(s: State, prompt: string)
    requires !s.cancellable.Gone? && !s.waiting
    ensures var t := Sent(Sent(s, Prompt(prompt)), Busy(false));
      && !t.cancellable.Gone? && !t.waiting && t.password == s.password
      && (t.cancellable.Stopped? <==> CutBefore(s))
  {
  }

  /** Main result: what a prompt is answered with, and that it is answered once. */
  lemma {:induction false} AnswerIsTyped(s: State, prompt: string, rounds: seq<Turn>)
    requires !s.cancellable.Gone? && !s.waiting
    ensures var (t, response) := Asked(s, prompt, rounds);
      && (t.waiting ==> response.None?)
      && (!t.waiting ==>
           t.password.None? && response == if CutBefore(s) then s.password else Typed(s.password, rounds))
      && (!CutBefore(s) && (forall r :: r in rounds ==> Stop !in r) ==>
           (t.waiting <==> Typed(s.password, rounds).None?))
  {
    PromptMayCut(s, prompt);
    WaitTakesTyped(Sent(Sent(s, Prompt(prompt)), Busy(false)), rounds);
    hide Sent, Waited, Typed;
  }

  /** Main result: one message.  A prompt is printed, announced and answered with what was typed; an info is printed;
      nothing else is. */
  lemma MessageIsHandled(s: State, c: Conversation)
    requires GoesOn(s, Between) && Peaceful(s) && Calm(c)
    ensures var (t, response) := Answered(s, c);
      match c.style
      case EchoOff =>
        if c.msg.None? then t == s && response.None?
        else
          && response == Typed(s.password, c.rounds)
          && (t.waiting <==> response.None?)
          && t.output == s.output + [Prompt(c.msg.value), Busy(false)] + (if response.Some? then [Busy(true)] else [])
          && (response.Some? ==> t.password.None?)
      case TextInfo =>
        && response.None? && t.password == s.password && !t.waiting
        && t.output == if c.msg.Some? then s.output + [Info(c.msg.value)] else s.output
      case _ => t == s && response.None?
  {
    if c.msg.Some? {
      AskedKeeps(s, c.msg.value, c.rounds);
      AnswerIsTyped(s, c.msg.value, c.rounds);
      var (t, response) := Asked(s, c.msg.value, c.rounds);
      SentIs(t, Busy(true));
      SentIs(s, Info(c.msg.value));
      hide Asked, Sent, At, Typed;
    }
  }

  lemma {:induction false} AfterKeepsWaiting(s: State, turn: Turn)
    ensures Turned(s, turn, InAttempt).waiting == s.waiting
    decreases |turn|
  {
    if turn != [] { AfterKeepsWaiting(Happened(s, turn[0], InAttempt), turn[1..]); }
  }

  /** What one message prints, with `first` typed before it. */
  function Lines(first: Option<string>, c: Conversation): seq<Message> {
    if c.msg.None? then []
    else match c.style
      case EchoOff =>
        [Prompt(c.msg.value), Busy(false)] + if Typed(first, c.rounds).Some? then [Busy(true)] else []
      case TextInfo => [Info(c.msg.value)]
      case _ => []
  }

  predicate IsPrompt(c: Conversation) {
    c.style.EchoOff? && c.msg.Some?
  }

  /** What is typed for the next prompt by then: a prompt uses up what was there. */
  function Left(first: Option<string>, c: Conversation): Option<string> {
    if LastLine(c.after).Some? || IsPrompt(c) then LastLine(c.after) else first
  }

  /** What the messages of an attempt print, up to a prompt that is never answered. */
  function Dialogue(first: Option<string>, messages: seq<Conversation>): seq<Message>
    decreases |messages|
  {
    if messages == [] then []
    else if IsPrompt(messages[0]) && Typed(first, messages[0].rounds).None? then Lines(first, messages[0])
    else Lines(first, messages[0]) + Dialogue(Left(first, messages[0]), messages[1..])
  }

  lemma HandledPrints(s: State, c: Conversation)
    requires GoesOn(s, Between) && Peaceful(s) && Calm(c)
    ensures var t := Handled(s, c);
      && t.output == s.output + Lines(s.password, c)
      && (t.waiting <==> IsPrompt(c) && Typed(s.password, c.rounds).None?)
      && (!t.waiting ==> t.password == Left(s.password, c))
  {
    MessageIsHandled(s, c);
    AnsweredKeeps(s, c);
    var t := Answered(s, c).0;
    if !t.waiting {
      TurnBrings(t, c.after, InAttempt);
      TurnedKeeps(t, c.after, InAttempt, Between);
    }
    hide Answered, Turned, Typed, At;
    if !IsPrompt(c) {
      assert Lines(s.password, c) == [] || Lines(s.password, c) == [Info(c.msg.value)];
    }
  }

  lemma Joined(a: seq<Message>, b: seq<Message>, c: seq<Message>)
    ensures a + b + c == a + (b + c)
  {
  }

  /** Main result: the messages of an undisturbed attempt are handled one after the other, each with what was typed
      for it, and print what they should. */
  lemma {:induction false} DialogueIsPrinted(s: State, messages: seq<Conversation>)
    requires GoesOn(s, Between) && Peaceful(s) && forall c :: c in messages ==> Calm(c)
    ensures HandledAll(s, messages).output == s.output + Dialogue(s.password, messages)
    decreases |messages|
  {
    if messages != [] {
      var t := Handled(s, messages[0]);
      assert messages[0] in messages;
      HandledPrints(s, messages[0]);
      HandledKeeps(s, messages[0]);
      var lines, rest := Lines(s.password, messages[0]), messages[1..];
      assert HandledAll(s, messages) == HandledAll(t, rest);
      assert Dialogue(s.password, messages) ==
        if t.waiting then lines else lines + Dialogue(Left(s.password, messages[0]), rest);
      if t.waiting {
        assert HandledAll(t, rest) == t;
      } else {
        hide Handled, Lines, Typed, Left, GoesOn, Calm, Dialogue, HandledAll;
        DialogueIsPrinted(t, rest);
        Joined(s.output, lines, Dialogue(Left(s.password, messages[0]), rest));
      }
    }
  }

  /** Only a prompt is answered, and whatever happens, with nothing but what was typed. */
  lemma NothingElseIsAnswered(s: State, c: Conversation)
    requires !s.cancellable.Gone? && !s.waiting && Answered(s, c).1.Some?
    ensures c.style.EchoOff? && c.msg.Some?
    ensures Answered(s, c).1 == if CutBefore(s) then s.password else Typed(s.password, c.rounds)
  {
    if c.msg.Some? { AnswerIsTyped(s, c.msg.value, c.rounds); }
    hide Asked, Sent, Typed;
  }

  // --------------------------------------------------------------------- disturbed ones

  /** A SIGTERM between two attempts ends the session without a word and without a verdict. */
  lemma {:induction false} StoppedBetweenAttempts(s: State, attempts: seq<Attempt>)
    requires s.cancellable.Live? && !s.waiting && attempts != [] && attempts[0].before == [Stop, MonitorEnds]
    ensures var (t, ended) := Ran(s, attempts);
      !ended && t.cancellable.Gone? && !t.revived && t.output == s.output
  {
    hide Checked;
    var stopped := Happened(s, Stop, Outer);
    assert Turned(s, [Stop, MonitorEnds], Outer) == Turned(stopped, [MonitorEnds], Outer);
    assert Turned(stopped, [MonitorEnds], Outer) == Happened(stopped, MonitorEnds, Outer);
  }

  /** Where the grammar fails: a SIGTERM while a prompt waits, the monitor's end in a main loop behind it, and the
      attempt that fails then: its FAILURE is printed although the exchange was never closed. */
  lemma CancelledWhileAsking(prompt: string)
    ensures var a := Attempt([], [], [Conversation(EchoOff, Some(prompt), [[Stop]], [MonitorEnds])], false);
      var t := Ran(Start([]), [a]).0;
      t.output == [Prompt(prompt), Busy(false), Failure] && t.revived && !Grammatical(t.output)
  {
    var c := Conversation(EchoOff, Some(prompt), [[Stop]], [MonitorEnds]);
    var a := Attempt([], [], [c], false);
    var s0 := Start([]);
    var s2 := s0.(output := [Prompt(prompt), Busy(false)]);
    assert Sent(Sent(s0, Prompt(prompt)), Busy(false)) == s2;
    var s3 := s2.(cancellable := Stopped, cut := 2);
    assert Turned(s2, [Stop], InWait) == s3;
    assert Waited(s2, [[Stop]]) == s3;
    assert Answered(s0, c) == (s3, None);
    var s4 := s3.(cancellable := Gone, revived := true);
    assert Turned(s3, [MonitorEnds], InAttempt) == s4;
    assert Handled(s0, c) == s4;
    assert HandledAll(s0, [c]) == s4;
    var s5 := s4.(loop_counter := 1, output := [Prompt(prompt), Busy(false), Failure]);
    assert Sent(s4.(loop_counter := 1), Failure) == s5;
    assert Judged(s4, false) == (s5, true);
    assert Turned(s0, [], InAttempt) == s0;
    assert Checked(s0, a) == (s5, true);
    assert Ran(s0, [a]).0 == s5;
    BrokenTrace(prompt);
  }

  lemma BrokenTrace(prompt: string)
    ensures PhaseOf([Prompt(prompt), Busy(false), Failure]) == Wrong
  {
    PhaseOfMore([], Prompt(prompt));
    PhaseOfMore([Prompt(prompt)], Busy(false));
    PhaseOfMore([Prompt(prompt), Busy(false)], Failure);
    assert [] + [Prompt(prompt)] == [Prompt(prompt)];
    assert [Prompt(prompt)] + [Busy(false)] == [Prompt(prompt), Busy(false)];
    assert [Prompt(prompt), Busy(false)] + [Failure] == [Prompt(prompt), Busy(false), Failure];
  }

  /** After that a prompt waits without end: the monitor is gone, and no SIGTERM can cancel any more. */
  lemma PromptAfterShutdown(s: State, prompt: string, rounds: seq<Turn>)
    requires s.cancellable.Gone? && s.password.None?
    ensures var (t, response) := Asked(s, prompt, rounds);
      t.waiting && response.None? && t.output == s.output + [Prompt(prompt), Busy(false)]
  {
    var t := Sent(Sent(s, Prompt(prompt)), Busy(false));
    GoneWaitsForever(t, rounds);
  }

  // ------------------------------------------------------------------- the same, in place

  class Helper {
    var loop_counter: nat
    var stdin_cancellable: Cancellable
    var password_ptr: Option<string>
    var output: seq<Message>
    /** The wait for a password that has not ended. */
    var waiting: bool
    // Bookkeeping: the errors to come, and what was printed before the cancellation.
    var fails: seq<bool>
    var cut: nat
    var revived: bool

    function Value(): State
      reads this
    {
      State(loop_counter, stdin_cancellable, password_ptr, output, waiting, fails, cut, revived)
    }

    constructor (fails: seq<bool>)
      ensures Value() == Start(fails)
    {
      loop_counter, stdin_cancellable, password_ptr, output, waiting := 0, Live, None, [], false;
      this.fails, cut, revived := fails, 0, false;
    }

    /** handle_sigterm, and the monitor's own cancellation on an error. */
    method Cancel()
      modifies this
      ensures Value() == Cancelling(old(Value()))
    {
      if stdin_cancellable.Live? {
        stdin_cancellable, cut := Stopped, |output|;
      }
    }

    /** What a main loop dispatches, one thing after the other. */
    method MainLoop(turn: Turn, where: Loop)
      modifies this
      ensures Value() == Turned(old(Value()), turn, where)
    {
      var i := 0;
      while i < |turn|
        invariant 0 <= i <= |turn|
        invariant Turned(Value(), turn[i..], where) == Turned(old(Value()), turn, where)
      {
        match turn[i] {
          case LineRead(line) => if !stdin_cancellable.Gone? { password_ptr := Some(line); }
          case Stop => Cancel();
          case MonitorEnds =>
            if stdin_cancellable.Stopped? {
              stdin_cancellable, password_ptr, revived := Gone, None, where == InAttempt;
            }
        }
        i := i + 1;
      }
    }

    /** All of send_failure, send_success, ... */
    method Send(m: Message)
      modifies this
      ensures Value() == Sent(old(Value()), m)
    {
      if fails != [] {
        if fails[0] { Cancel(); }
        fails := fails[1..];
      }
      if stdin_cancellable.Stopped? {
        return;
      }
      output := output + [m];
    }

    /** The wait for a password in auth_message_handler. */
    method AskPassword(prompt: string, rounds: seq<Turn>) returns (response: Option<string>)
      modifies this
      ensures (Value(), response) == Asked(old(Value()), prompt, rounds)
      ensures !old(stdin_cancellable).Gone? && !old(waiting) && !waiting ==>
                && password_ptr.None?
                && response == if CutBefore(old(Value())) then old(password_ptr) else Typed(old(password_ptr), rounds)
    {
      if !stdin_cancellable.Gone? && !waiting { AnswerIsTyped(Value(), prompt, rounds); }
      hide Turned, Sent;
      Send(Prompt(prompt));
      Send(Busy(false));
      ghost var asked := Value();
      var i := 0;
      while password_ptr.None? && !stdin_cancellable.Stopped? && i < |rounds|
        invariant 0 <= i <= |rounds|
        invariant Waited(Value(), rounds[i..]) == Waited(asked, rounds)
      {
        MainLoop(rounds[i], InWait);
        i := i + 1;
      }
      if password_ptr.None? && !stdin_cancellable.Stopped? {
        waiting := true;
      }
      assert Value() == Waited(asked, rounds);
      if waiting {
        return None;
      }
      response, password_ptr := password_ptr, None;
    }

    method AnswerMessage(c: Conversation) returns (ret: bool, response: Option<string>)
      modifies this
      ensures (Value(), response) == Answered(old(Value()), c) && (ret <==> response.Some?)
    {
      hide Asked, Sent;
      response := None;
      match c.style {
        case EchoOff =>
          if c.msg.Some? { response := AskPassword(c.msg.value, c.rounds); }
        case TextInfo =>
          if c.msg.Some? { Send(Info(c.msg.value)); }
        case EchoOn =>
        case ErrorMessage =>
      }
      ret := response.Some?;
      if ret {
        Send(Busy(true));
      }
    }

    /** auth_message_handler.  Only a prompt can be answered; every other message refuses to go on. */
    method AuthMessageHandler(c: Conversation) returns (ret: bool, response: Option<string>)
      modifies this
      ensures Value() == Handled(old(Value()), c)
      ensures response == Answered(old(Value()), c).1 && (ret <==> response.Some?)
      ensures !old(stdin_cancellable).Gone? && !old(waiting) && response.Some? ==>
                && c.style.EchoOff? && c.msg.Some?
                && response == if CutBefore(old(Value())) then old(password_ptr) else Typed(old(password_ptr), c.rounds)
      ensures GoesOn(old(Value()), Between) && Peaceful(old(Value())) && Calm(c) && c.style.EchoOff? && c.msg.Some? ==>
                response == Typed(old(password_ptr), c.rounds) && (waiting <==> response.None?)
    {
      if !stdin_cancellable.Gone? && !waiting && Answered(Value(), c).1.Some? { NothingElseIsAnswered(Value(), c); }
      if GoesOn(Value(), Between) && Peaceful(Value()) && Calm(c) { MessageIsHandled(Value(), c); }
      AfterKeepsWaiting(Answered(Value(), c).0, c.after);
      hide Answered, Turned;
      ret, response := AnswerMessage(c);
      if !waiting {
        MainLoop(c.after, InAttempt);
      }
    }

    /** do_auth_check */
    method DoAuthCheck(a: Attempt) returns (res: bool)
      modifies this
      ensures Value() == HandledAll(Turned(old(Value()), a.first, InAttempt), a.messages) && res == a.verified
    {
      hide Handled, Turned;
      MainLoop(a.first, InAttempt);
      ghost var s := Value();
      var i := 0;
      while i < |a.messages| && !waiting
        invariant 0 <= i <= |a.messages|
        invariant HandledAll(Value(), a.messages[i..]) == HandledAll(s, a.messages)
      {
        var _, _ := AuthMessageHandler(a.messages[i]);
        i := i + 1;
      }
      return a.verified;
    }

    /** auth_check_idle; TRUE asks to be called again. */
    method AuthCheckIdle(a: Attempt) returns (again: bool)
      modifies this
      ensures (Value(), again) == Checked(old(Value()), a)
    {
      hide HandledAll, Turned, Sent, Cancelling;
      var res := DoAuthCheck(a);
      again := true;
      if waiting {
        return;
      }
      if res {
        again := false;
        Send(Success);
      } else {
        loop_counter := loop_counter + 1;
        if loop_counter < MAX_FAILURES {
          Send(Failure);
        } else {
          again := false;
          Send(Cancelled);
        }
      }
      if !again {
        Cancel();
      }
    }

    /** The program: attempt after attempt, until the outer main loop is quit.  What the lemmas above say about
        `Ran` holds for what it prints. */
    method Session(attempts: seq<Attempt>) returns (ended: bool)
      requires Value() == Start(fails)
      modifies this
      ensures (Value(), ended) == Ran(old(Value()), attempts)
      ensures Accounted(Value())
      ensures true !in old(fails) && Undisturbed(attempts) ==>
                Grammatical(output) && (ended <==> PhaseOf(output).Finished?)
    {
      EverySessionIsAccounted(fails, attempts);
      if true !in fails && Undisturbed(attempts) { UndisturbedSession(fails, attempts); }
      hide Checked, Turned, Grammatical, Undisturbed, PhaseOf, CutPhase, FollowsGrammar;
      ghost var start := Value();
      ended := false;
      var i := 0;
      while i < |attempts| && !waiting && !stdin_cancellable.Gone? && !ended
        invariant 0 <= i <= |attempts|
        invariant (if ended then (Value(), true) else Ran(Value(), attempts[i..])) == Ran(start, attempts)
      {
        MainLoop(attempts[i].before, Outer);
        if !stdin_cancellable.Gone? {
          var again := AuthCheckIdle(attempts[i]);
          ended := !again;
        }
        i := i + 1;
      }
    }
  }
}
