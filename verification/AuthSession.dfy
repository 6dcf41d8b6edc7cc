/**
 Both ends of the pipe: what an undisturbed helper prints is what its client emits.
 */
module AuthSession {
  import opened HelperProtocol
  import AuthClient
  import opened PamHelper

  predicate CleanEach(ms: seq<Message>) {
    forall m :: m in ms ==> Clean(m)
  }

  /** Whatever PAM says in it can be sent, as a prompt or as an info. */
  predicate CleanText(c: Conversation) {
    c.msg.Some? ==> Clean(Prompt(c.msg.value)) && Clean(Info(c.msg.value))
  }

  predicate CleanAttempt(a: Attempt) {
    forall c :: c in a.messages ==> CleanText(c)
  }

  // ------------------------------------------------------------- clean texts stay clean

  lemma SentIsClean(s: State, m: Message)
    requires CleanEach(s.output) && Clean(m)
    ensures CleanEach(Sent(s, m).output)
  {
    SentIs(s, m);
    hide Sent, Clean;
  }

  lemma {:induction false} TurnPrintsNothing(s: State, turn: Turn, where: Loop)
    ensures Turned(s, turn, where).output == s.output
    decreases |turn|
  {
    if turn != [] { TurnPrintsNothing(Happened(s, turn[0], where), turn[1..], where); }
  }

  lemma {:induction false} WaitPrintsNothing(s: State, rounds: seq<Turn>)
    ensures Waited(s, rounds).output == s.output
    decreases |rounds|
  {
    if rounds != [] {
      TurnPrintsNothing(s, rounds[0], InWait);
      WaitPrintsNothing(Turned(s, rounds[0], InWait), rounds[1..]);
    }
  }

  lemma HandledIsClean(s: State, c: Conversation)
    requires CleanEach(s.output) && CleanText(c)
    ensures CleanEach(Handled(s, c).output)
  {
    hide CleanEach, Sent, Waited, Turned, Contains;
    var t := Answered(s, c).0;
    if c.msg.Some? {
      var prompted := Sent(s, Prompt(c.msg.value));
      var asked := Sent(prompted, Busy(false));
      SentIsClean(s, Prompt(c.msg.value));
      SentIsClean(prompted, Busy(false));
      WaitPrintsNothing(asked, c.rounds);
      SentIsClean(Asked(s, c.msg.value, c.rounds).0, Busy(true));
      SentIsClean(s, Info(c.msg.value));
    }
    TurnPrintsNothing(t, c.after, InAttempt);
  }

  lemma {:induction false} HandledAllIsClean(s: State, messages: seq<Conversation>)
    requires CleanEach(s.output) && forall c :: c in messages ==> CleanText(c)
    ensures CleanEach(HandledAll(s, messages).output)
    decreases |messages|
  {
    if messages != [] {
      HandledIsClean(s, messages[0]);
      hide Handled, CleanEach, CleanText;
      HandledAllIsClean(Handled(s, messages[0]), messages[1..]);
    }
  }

  lemma CheckedIsClean(s: State, a: Attempt)
    requires CleanEach(s.output) && CleanAttempt(a)
    ensures CleanEach(Checked(s, a).0.output)
  {
    TurnPrintsNothing(s, a.first, InAttempt);
    var t := HandledAll(Turned(s, a.first, InAttempt), a.messages);
    HandledAllIsClean(Turned(s, a.first, InAttempt), a.messages);
    hide CleanEach, Sent, HandledAll, Turned;
    SentIsClean(t, Success);
    SentIsClean(t.(loop_counter := t.loop_counter + 1), Failure);
    SentIsClean(t.(loop_counter := t.loop_counter + 1), Cancelled);
  }

  /** Whatever happens in a session, clean texts make a clean output. */
  lemma {:induction false} RanIsClean(s: State, attempts: seq<Attempt>)
    requires CleanEach(s.output) && forall a :: a in attempts ==> CleanAttempt(a)
    ensures CleanEach(Ran(s, attempts).0.output)
    decreases |attempts|
  {
    if attempts != [] {
      var t := Turned(s, attempts[0].before, Outer);
      TurnPrintsNothing(s, attempts[0].before, Outer);
      hide Turned, Checked, CleanEach, CleanAttempt;
      CheckedIsClean(t, attempts[0]);
      RanIsClean(Checked(t, attempts[0]).0, attempts[1..]);
    }
  }

  // ------------------------------------------------------------------------ reads

  /** The output of a helper in the pieces it is read in, each of some whole messages. */
  predicate Pieces(groups: seq<seq<Message>>, output: seq<Message>) {
    AuthClient.Flatten(groups) == output && [] !in groups
  }

  lemma {:induction false} FlattenMembers(groups: seq<seq<Message>>, g: seq<Message>, m: Message)
    requires g in groups && m in g
    ensures m in AuthClient.Flatten(groups)
  {
    if g != groups[0] { FlattenMembers(groups[1..], g, m); }
  }

  lemma {:induction false} FlattenSplits(groups: seq<seq<Message>>)
    requires groups != []
    ensures AuthClient.Flatten(groups) == AuthClient.Flatten(groups[..|groups| - 1]) + groups[|groups| - 1]
  {
    if |groups| > 1 {
      FlattenSplits(groups[1..]);
      assert groups[1..][..|groups| - 2] == groups[..|groups| - 1][1..];
    } else {
      assert groups[..0] == [] && groups[1..] == [];
    }
  }

  /** A grammatical output has its terminal message, if any, in its last piece. */
  lemma TerminalIsLast(groups: seq<seq<Message>>, output: seq<Message>)
    requires Pieces(groups, output) && Grammatical(output)
    ensures forall i :: 0 <= i < |groups| - 1 ==> !AuthClient.HasTerminal(groups[i])
    ensures PhaseOf(output).Finished? <==> groups != [] && AuthClient.HasTerminal(groups[|groups| - 1])
  {
    if groups != [] {
      var front, last := groups[..|groups| - 1], groups[|groups| - 1];
      FlattenSplits(groups);
      assert last in groups && last != [];
      GrammarEnds(output);
      assert output[|output| - 1] == last[|last| - 1];
      forall m | m in AuthClient.Flatten(front) ensures !TerminalMessage(m) {
        var k :| 0 <= k < |AuthClient.Flatten(front)| && AuthClient.Flatten(front)[k] == m;
        GrammarInside(output, k);
      }
      forall i | 0 <= i < |groups| - 1 ensures !AuthClient.HasTerminal(groups[i]) {
        forall m | m in groups[i] ensures !TerminalMessage(m) {
          assert front[i] in front;
          FlattenMembers(front, groups[i], m);
        }
      }
      LastMayBeTerminal(front, last, output);
    } else {
      assert output == [];
    }
  }

  lemma LastMayBeTerminal(front: seq<seq<Message>>, last: seq<Message>, output: seq<Message>)
    requires Grammatical(output) && output == AuthClient.Flatten(front) + last && last != []
    ensures AuthClient.HasTerminal(last) <==> TerminalMessage(output[|output| - 1])
  {
    var n := |AuthClient.Flatten(front)|;
    forall k | 0 <= k < |last| - 1 ensures !TerminalMessage(last[k]) {
      GrammarInside(output, n + k);
      assert output[n + k] == last[k];
    }
    assert output[|output| - 1] == last[|last| - 1];
  }

  /** Main result: the output of an undisturbed session whose texts are clean, read in whatever pieces of whole
      messages, is emitted as it is, and it ends the client's session exactly when it has ended the helper's. */
  method Converse(client: AuthClient.AuthClient, helper: Helper, attempts: seq<Attempt>, groups: seq<seq<Message>>)
    returns (ended: bool)
    requires client.Inv() && client.initialized
    requires helper.Value() == Start(helper.fails) && true !in helper.fails && Undisturbed(attempts)
    requires forall a :: a in attempts ==> CleanAttempt(a)
    requires Pieces(groups, Ran(Start(helper.fails), attempts).0.output)
    modifies client, helper
    ensures client.Inv()
    ensures (helper.Value(), ended) == Ran(old(helper.Value()), attempts)
    ensures client.emitted == old(client.emitted) + helper.output
    ensures client.initialized <==> !ended
  {
    RanIsClean(helper.Value(), attempts);
    UndisturbedSession(helper.fails, attempts);
    TerminalIsLast(groups, Ran(Start(helper.fails), attempts).0.output);
    hide Ran, Undisturbed, Grammatical, PhaseOf, AuthClient.HasTerminal, CleanAttempt, Clean, Accounted;
    ended := helper.Session(attempts);
    forall g, m | g in groups && m in g ensures Clean(m) {
      FlattenMembers(groups, g, m);
    }
    AuthClient.Deliver(client, groups);
  }
}
