/**
 AuthClient: one helper process at a time, and what becomes of its output.

 Helpers, pipes and cancellables are numbered from 1; 0 is None.  A helper is `gone` once
 it has exited or been sent SIGTERM.
 */
module AuthClient {
  import opened HelperProtocol

  predicate HasTerminal(ms: seq<Message>) {
    Success in ms || Cancelled in ms
  }

  /** The tests on the tokens without text. */
  function ScanTokens(line: string): Scan {
    Found(Contains(line, FAILURE), Failure)
      .Then(Found(Contains(line, SUCCESS), Success))
      .Then(Found(Contains(line, CANCELLED), Cancelled))
      .Then(Found(Contains(line, BUSY_TRUE), Busy(true)))
      .Then(Found(Contains(line, BUSY_FALSE), Busy(false)))
  }

  lemma TerminalLine(line: string)
    ensures HasTerminal(ScanTokens(line).events) <==> Contains(line, SUCCESS) || Contains(line, CANCELLED)
    ensures !ScanTokens(line).raised
    ensures line != "" ==> ScanLine(line) == ScanTokens(line).Then(FoundPrompt(line)).Then(FoundInfo(line))
    ensures line == "" ==> ScanLine(line).events == []
    ensures HasTerminal(ScanLine(line).events) <==> line != "" && (Contains(line, SUCCESS) || Contains(line, CANCELLED))
  {
    hide Contains, Search;
  }

  function Flatten(groups: seq<seq<Message>>): seq<Message> {
    if groups == [] then [] else groups[0] + Flatten(groups[1..])
  }

  class AuthClient {
    var initialized: bool
    var cancellable: nat
    var proc: nat
    var in_pipe: nat
    var out_pipe: nat

    // The process table and GLib.
    var nextProc: nat
    var nextCancellable: nat
    var gone: set<nat>
    var cancelled: set<nat>
    /** Signals queued with idle_add, in order. */
    var emitted: seq<Message>

    ghost predicate Inv()
      reads this
    {
      && (initialized ==> proc != 0 && in_pipe == proc && out_pipe == proc && cancellable != 0)
      && (!initialized ==> proc == 0 && in_pipe == 0 && out_pipe == 0)
      && proc < nextProc
      && (forall p :: 0 < p < nextProc && p != proc ==> p in gone)
      && cancellable < nextCancellable && 0 < nextCancellable
      && (forall c :: c in cancelled ==> 0 < c < nextCancellable && c != cancellable)
    }

    constructor ()
      ensures Inv() && !initialized && emitted == [] && gone == {} && nextProc == 1
    {
      initialized, cancellable, proc, in_pipe, out_pipe := false, 0, 0, 0, 0;
      nextProc, nextCancellable, gone, cancelled, emitted := 1, 1, {}, {}, [];
    }

    method Reset()
      modifies this`initialized, this`cancellable, this`proc, this`in_pipe, this`out_pipe
      ensures !initialized && cancellable == proc == in_pipe == out_pipe == 0
    {
      initialized := false;
      cancellable := 0;
      proc := 0;
      in_pipe := 0;
      out_pipe := 0;
    }

    /** A running session is kept; otherwise a new helper is started, if it can be. */
    method Initialize(starts: bool) returns (ok: bool)
      requires Inv()
      modifies this
      ensures Inv() && gone == old(gone) && emitted == old(emitted)
      ensures ok <==> initialized
      ensures old(initialized) ==> ok && proc == old(proc) && nextProc == old(nextProc)
      ensures !old(initialized) && starts ==> ok && proc == old(nextProc) && nextProc == old(nextProc) + 1
      ensures !old(initialized) && !starts ==> !ok && nextProc == old(nextProc)
    {
      if initialized {
        return true;
      }
      cancellable := nextCancellable;
      nextCancellable := nextCancellable + 1;
      if !starts {
        return false;
      }
      proc := nextProc;
      nextProc := nextProc + 1;
      out_pipe := proc;
      in_pipe := proc;
      initialized := true;
      return true;
    }

    /** end_proc; `cancel` is the same. */
    method EndProc()
      requires Inv()
      modifies this
      ensures Inv() && !initialized && nextProc == old(nextProc) && emitted == old(emitted)
      ensures gone == old(gone) + (if old(proc) != 0 then {old(proc)} else {})
    {
      if cancellable == 0 {
        return;
      }
      cancelled := cancelled + {cancellable};
      if proc != 0 {
        gone := gone + {proc};
      }
      Reset();
    }

    /** A helper exits; nobody is told yet. */
    method ProcExits(p: nat)
      requires Inv() && 0 < p < nextProc
      modifies this`gone
      ensures Inv() && gone == old(gone) + {p}
    {
      gone := gone + {p};
    }

    /** on_proc_completed: a helper that exited or whose wait was cancelled.  Only the current helper's
        completion touches the session. */
    method OnProcCompleted(p: nat)
      requires Inv() && 0 < p < nextProc && p in gone
      modifies this
      ensures Inv() && gone == old(gone) && nextProc == old(nextProc) && emitted == old(emitted)
      ensures p == old(proc) ==> !initialized
      ensures p != old(proc) ==>
                && initialized == old(initialized) && proc == old(proc) && cancellable == old(cancellable)
                && in_pipe == old(in_pipe) && out_pipe == old(out_pipe)
    {
      if proc == p {
        Reset();
      }
    }

    /** The tests on one line of output. */
    method ReadLine(output: string) returns (terminate: bool, raised: bool)
      modifies this`emitted
      ensures emitted == old(emitted) + ScanLine(output).events && raised == ScanLine(output).raised
      ensures terminate <==> HasTerminal(ScanLine(output).events)
    {
      hide Contains, Search, ScanTokens, HasTerminal, ScanLine, FoundPrompt, FoundInfo;
      TerminalLine(output);
      EmptyLine();
      if output == "" {
        return false, false;
      }
      terminate := ReadTokens(output);
      raised := ReadPrompt(output);
      if !raised {
        raised := ReadInfo(output);
      }
    }

    method EmitIf(found: bool, m: Message)
      modifies this`emitted
      ensures emitted == old(emitted) + Found(found, m).events
    {
      if found {
        emitted := emitted + [m];
      }
    }

    method ReadTokens(output: string) returns (terminate: bool)
      modifies this`emitted
      ensures emitted == old(emitted) + ScanTokens(output).events
      ensures terminate <==> Contains(output, SUCCESS) || Contains(output, CANCELLED)
    {
      hide Contains, Scan.Then;
      EmitIf(Contains(output, FAILURE), Failure);
      ghost var scan := Found(Contains(output, FAILURE), Failure);
      scan := EmitNext(scan, Contains(output, SUCCESS), Success, old(emitted));
      terminate := Contains(output, SUCCESS);
      scan := EmitNext(scan, Contains(output, CANCELLED), Cancelled, old(emitted));
      if Contains(output, CANCELLED) {
        terminate := true;
      }
      scan := EmitNext(scan, Contains(output, BUSY_TRUE), Busy(true), old(emitted));
      scan := EmitNext(scan, Contains(output, BUSY_FALSE), Busy(false), old(emitted));
    }

    /** `EmitIf`, with the scan so far carried along. */
    method EmitNext(ghost scan: Scan, found: bool, m: Message, ghost before: seq<Message>) returns (ghost next: Scan)
      requires emitted == before + scan.events && !scan.raised
      modifies this`emitted
      ensures next == scan.Then(Found(found, m)) && !next.raised && emitted == before + next.events
    {
      EmitIf(found, m);
      next := scan.Then(Found(found, m));
    }

    method ReadPrompt(output: string) returns (raised: bool)
      modifies this`emitted
      ensures emitted == old(emitted) + FoundPrompt(output).events && raised == FoundPrompt(output).raised
    {
      hide Contains, Search;
      if Contains(output, SET_PROMPT) {
        var found := Search(output, SET_PROMPT_);
        if found.None? {
          return true;
        }
        emitted := emitted + [Prompt(found.value)];
      }
      return false;
    }

    method ReadInfo(output: string) returns (raised: bool)
      modifies this`emitted
      ensures emitted == old(emitted) + FoundInfo(output).events && raised == FoundInfo(output).raised
    {
      hide Contains, Search;
      if Contains(output, SET_INFO) {
        var found := Search(output, SET_INFO_);
        if found.None? {
          return true;
        }
        emitted := emitted + [Info(found.value)];
      }
      return false;
    }

    /** The loop over the lines of one read.  An exception on the way keeps what was queued before it. */
    method ReadLines(lines: seq<string>) returns (terminate: bool, raised: bool)
      modifies this`emitted
      ensures emitted == old(emitted) + ScanLines(lines).events && raised == ScanLines(lines).raised
      ensures !raised ==> (terminate <==> HasTerminal(ScanLines(lines).events))
    {
      hide ScanLine, ScanLines, HasTerminal, Scan.Then;
      terminate, raised := false, false;
      ghost var so_far: seq<Message> := [];
      NoTerminalInNothing();
      FirstAndLastLine(lines, so_far);
      for i := 0 to |lines|
        invariant emitted == old(emitted) + so_far
        invariant terminate <==> HasTerminal(so_far)
        invariant Scan(so_far, false).Then(ScanLines(lines[i..])) == ScanLines(lines)
      {
        var more;
        more, raised := ReadLine(lines[i]);
        ghost var next := so_far + ScanLine(lines[i]).events;
        TerminalsJoin(so_far, ScanLine(lines[i]).events);
        LineByLine(so_far, lines, i);
        so_far := next;
        if raised {
          return;
        }
        terminate := terminate || more;
      }
      FirstAndLastLine(lines, so_far);
      raised := false;
    }

    /** message_from_child: what was read from the pipe, if the read went well.  Bytes that are not UTF-8 raise. */
    method MessageFromChild(read: bool, raw: Option<string>) returns (raised: bool)
      requires Inv()
      modifies this
      ensures Inv() && nextProc == old(nextProc)
      ensures old(cancellable) == 0 || !read ==>
                !raised && emitted == old(emitted) && proc == old(proc) && initialized == old(initialized)
      ensures old(cancellable) != 0 && read && raw.None? ==>
                raised && emitted == old(emitted) && proc == old(proc) && initialized == old(initialized)
      ensures old(cancellable) != 0 && read && raw.Some? ==>
                var scan := Parse(raw.value);
                && emitted == old(emitted) + scan.events && raised == scan.raised
                && (HasTerminal(scan.events) && !raised ==> !initialized && (old(proc) != 0 ==> old(proc) in gone))
                && (!HasTerminal(scan.events) || raised ==>
                      initialized == old(initialized) && proc == old(proc) && cancellable == old(cancellable))
    {
      hide ScanLines, HasTerminal, Split;
      if cancellable == 0 || cancellable in cancelled || !read {
        return false;
      }
      if raw.None? {
        return true;
      }
      var terminate;
      terminate, raised := ReadLines(Split(raw.value));
      if raised {
        return true;
      }
      if terminate {
        EndProc();
      }
    }
  }

  lemma {:induction false} FirstAndLastLine(lines: seq<string>, so_far: seq<Message>)
    ensures Scan([], false).Then(ScanLines(lines[0..])) == ScanLines(lines)
    ensures Scan(so_far, false).Then(ScanLines(lines[|lines|..])) == Scan(so_far, false)
  {
    assert ScanLines([]) == Scan([], false);
    hide ScanLine, ScanLines;
    assert lines[0..] == lines && lines[|lines|..] == [];
  }

  lemma {:induction false} LineByLine(so_far: seq<Message>, lines: seq<string>, i: nat)
    requires i < |lines|
    ensures var line := ScanLine(lines[i]);
      Scan(so_far, false).Then(ScanLines(lines[i..])) ==
        (if line.raised then Scan(so_far + line.events, true)
         else Scan(so_far + line.events, false).Then(ScanLines(lines[i + 1..])))
  {
    hide ScanLine;
    var rest := ScanLines(lines[i + 1..]);
    assert lines[i..][1..] == lines[i + 1..];
    assert so_far + (ScanLine(lines[i]).events + rest.events) == so_far + ScanLine(lines[i]).events + rest.events;
  }

  lemma NoTerminalInNothing()
    ensures !HasTerminal([])
  {
  }

  lemma TerminalsJoin(a: seq<Message>, b: seq<Message>)
    ensures HasTerminal(a + b) <==> HasTerminal(a) || HasTerminal(b)
  {
  }

  datatype Event =
    | Start(starts: bool)
    | Cancel
    | Exit(p: nat)
    | Completed(p: nat)
    | Output(read: bool, raw: Option<string>)

  /** Every run of initializations, cancellations, exits, late completions and output, stale output of an
      earlier helper included: no helper is left running except the current one. */
  method Run(client: AuthClient, events: seq<Event>)
    requires client.Inv()
    modifies client
    ensures client.Inv()
    ensures forall p :: 0 < p < client.nextProc && p !in client.gone ==> client.initialized && p == client.proc
  {
    for i := 0 to |events|
      invariant client.Inv()
    {
      match events[i] {
        case Start(starts) => var _ := client.Initialize(starts);
        case Cancel => client.EndProc();
        case Exit(p) => if 0 < p < client.nextProc { client.ProcExits(p); }
        case Completed(p) => if 0 < p < client.nextProc && p in client.gone { client.OnProcCompleted(p); }
        case Output(read, raw) => var _ := client.MessageFromChild(read, raw);
      }
    }
  }

  /** A helper whose output arrives in whole messages and ends with its terminal message gets everything
      through, in order, and the session ends exactly when a terminal message has come. */
  method Deliver(client: AuthClient, groups: seq<seq<Message>>)
    requires client.Inv() && client.initialized
    requires forall g, m :: g in groups && m in g ==> Clean(m)
    requires forall i :: 0 <= i < |groups| - 1 ==> !HasTerminal(groups[i])
    modifies client
    ensures client.Inv()
    ensures client.emitted == old(client.emitted) + Flatten(groups)
    ensures client.initialized <==> groups == [] || !HasTerminal(groups[|groups| - 1])
  {
    hide HasTerminal, Clean, Parse, PrintAll;
    var i := 0;
    while i < |groups|
      invariant 0 <= i <= |groups| && client.Inv()
      invariant client.emitted + Flatten(groups[i..]) == old(client.emitted) + Flatten(groups)
      invariant client.initialized <==> i == 0 || !HasTerminal(groups[i - 1])
    {
      assert groups[i] in groups;
      RoundTrip(groups[i]);
      ghost var before := client.emitted;
      var _ := client.MessageFromChild(true, Some(PrintAll(groups[i])));
      assert before + groups[i] + Flatten(groups[i + 1..]) == before + (groups[i] + Flatten(groups[i + 1..]));
      i := i + 1;
    }
  }
}
