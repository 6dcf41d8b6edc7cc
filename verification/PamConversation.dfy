/**
 pam_conversation: one reply per message, or none at all.

 Responses are allocations, numbered from 1; 0 is NULL.  What the user interface answers
 to each message is given; asking it is the handshake of PamHandshake.
 */
module PamConversation {

  datatype Status = PamSuccess | PamConvErr

  datatype Reply = Reply(resp: nat, answered: bool)

  /** The answer to one message: whether to carry on, and the response left behind. */
  datatype Answer = Answer(carryOn: bool, resp: nat)

  /** The number of messages that are put to the user: all of them, or those up to the first refusal. */
  function Asked(answers: seq<Answer>): (n: nat)
    ensures n <= |answers|
    ensures forall i :: 0 <= i < n - 1 ==> answers[i].carryOn
    ensures n < |answers| ==> n > 0 && !answers[n - 1].carryOn
  {
    if answers == [] then 0
    else if !answers[0].carryOn then 1
    else 1 + Asked(answers[1..])
  }

  predicate Refused(answers: seq<Answer>) {
    var n := Asked(answers);
    n > 0 && !answers[n - 1].carryOn
  }

  lemma {:induction false} RefusedMeans(answers: seq<Answer>)
    ensures Refused(answers) <==> exists i :: 0 <= i < |answers| && !answers[i].carryOn
  {
    if answers != [] {
      RefusedMeans(answers[1..]);
      var n := Asked(answers);
      if answers[0].carryOn {
        assert forall i :: 0 <= i < |answers[1..]| ==> answers[1..][i] == answers[i + 1];
        assert n == 1 + Asked(answers[1..]);
        if i :| 0 <= i < |answers| && !answers[i].carryOn {
          assert !answers[1..][i - 1].carryOn;
        }
      }
    }
  }

  lemma {:induction false} AskedFrom(answers: seq<Answer>, k: nat)
    requires k < |answers| && forall i :: 0 <= i < k ==> answers[i].carryOn
    ensures !answers[k].carryOn ==> Asked(answers) == k + 1
    ensures k + 1 == |answers| ==> Asked(answers) == |answers|
  {
    if k > 0 {
      AskedFrom(answers[1..], k - 1);
    }
  }

  /** On success there is a reply for every message, with the response given to it, and nothing was freed.
      On a refusal no reply is left, and every response given so far was freed, once, in order. */
  method Conversation(answers: seq<Answer>, callback: bool, allocates: bool)
    returns (ret: Status, reply: array?<Reply>, freed: seq<nat>)
    ensures ret == PamSuccess <==> allocates && !(callback && Refused(answers))
    ensures ret == PamSuccess ==>
              && reply != null && reply.Length == |answers| && freed == []
              && forall i :: 0 <= i < |answers| ==>
                   reply[i] == if callback then Reply(answers[i].resp, true) else Reply(0, false)
    ensures ret == PamConvErr ==> reply == null
    ensures ret == PamConvErr && allocates ==>
              && |freed| == Asked(answers)
              && forall i :: 0 <= i < |freed| ==> freed[i] == answers[i].resp
    ensures !allocates ==> freed == []
  {
    RefusedMeans(answers);
    ret, reply, freed := PamSuccess, null, [];
    if !allocates {
      return PamConvErr, null, [];
    }
    var replies := new Reply[|answers|](_ => Reply(0, false));
    var n := 0;
    while n < |answers|
      invariant 0 <= n <= |answers| && freed == []
      invariant callback ==> forall i :: 0 <= i < n ==> answers[i].carryOn
      invariant forall i :: 0 <= i < n ==>
                  replies[i] == if callback then Reply(answers[i].resp, true) else Reply(0, false)
      invariant forall i :: n <= i < |answers| ==> replies[i] == Reply(0, false)
    {
      if callback {
        replies[n] := Reply(answers[n].resp, false);
        if answers[n].carryOn {
          replies[n] := Reply(replies[n].resp, true);
        } else {
          AskedFrom(answers, n);
          var i := 0;
          while i <= n
            invariant 0 <= i <= n + 1 && |freed| == i
            invariant forall j :: 0 <= j < i ==> freed[j] == answers[j].resp
          {
            freed := freed + [replies[i].resp];
            i := i + 1;
          }
          return PamConvErr, null, freed;
        }
      }
      n := n + 1;
    }
    reply := replies;
  }
}
