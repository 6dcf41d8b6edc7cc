/**
 The line protocol between the PAM helper and AuthClient: what the helper prints, and what
 the client makes of it.

 The client looks for seven tokens anywhere in a line, and cuts the text of a prompt or
 an info out with a regular expression.  `Clean` says exactly which texts survive that.
 */
module HelperProtocol {

  datatype Message =
    | Failure
    | Success
    | Cancelled
    | Busy(busy: bool)
    | Prompt(text: string)
    | Info(text: string)

  const FAILURE := "CS_PAM_AUTH_FAILURE"
  const SUCCESS := "CS_PAM_AUTH_SUCCESS"
  const CANCELLED := "CS_PAM_AUTH_CANCELLED"
  const BUSY_TRUE := "CS_PAM_AUTH_BUSY_TRUE"
  const BUSY_FALSE := "CS_PAM_AUTH_BUSY_FALSE"
  const SET_PROMPT := "CS_PAM_AUTH_SET_PROMPT"
  const SET_INFO := "CS_PAM_AUTH_SET_INFO"
  const SET_PROMPT_ := "CS_PAM_AUTH_SET_PROMPT_"
  const SET_INFO_ := "CS_PAM_AUTH_SET_INFO_"

  // ------------------------------------------------------------------------ printing

  /** The line the helper prints for a message, without its newline. */
  function Line(m: Message): string {
    match m
    case Failure => FAILURE
    case Success => SUCCESS
    case Cancelled => CANCELLED
    case Busy(b) => if b then BUSY_TRUE else BUSY_FALSE
    case Prompt(text) => SET_PROMPT_ + text + "_"
    case Info(text) => SET_INFO_ + text + "_"
  }

  function PrintAll(ms: seq<Message>): string {
    if ms == [] then "" else Line(ms[0]) + "\n" + PrintAll(ms[1..])
  }

  // ------------------------------------------------------------------------- parsing

  /** `t` occurs in `s` at `i`. */
  predicate OccursAt(s: string, t: string, i: nat) {
    i + |t| <= |s| && s[i..i + |t|] == t
  }

  /** Python's `t in s`. */
  predicate Contains(s: string, t: string) {
    exists i: nat :: i <= |s| && OccursAt(s, t, i)
  }

  /** Where `t` first occurs in `s`, or |s| + 1. */
  function FirstAt(s: string, t: string, from: nat): (i: nat)
    requires from <= |s|
    ensures i <= |s| ==> from <= i && OccursAt(s, t, i)
    ensures forall k: nat :: from <= k < i && k <= |s| ==> !OccursAt(s, t, k)
    decreases |s| - from
  {
    if OccursAt(s, t, from) then from
    else if from == |s| then |s| + 1
    else FirstAt(s, t, from + 1)
  }

  /** One past the last underscore of `s`, or 0. */
  function AfterLastUnderscore(s: string): (j: nat)
    ensures j <= |s|
    ensures j > 0 ==> s[j - 1] == '_'
    ensures forall k :: j <= k < |s| ==> s[k] != '_'
  {
    if s == "" then 0
    else if s[|s| - 1] == '_' then |s|
    else AfterLastUnderscore(s[..|s| - 1])
  }

  datatype Option<+T> = None | Some(value: T)

  /** `(?<=prefix)(.*)(?=_)`: behind the first `prefix`, up to the last underscore. */
  function Search(line: string, prefix: string): Option<string> {
    var i, j := FirstAt(line, prefix, 0), AfterLastUnderscore(line);
    if i > |line| || j < i + |prefix| + 1 then None else Some(line[i + |prefix|..j - 1])
  }

  /** What a stretch of input leads to.  A search without a match raises an exception. */
  datatype Scan = Scan(events: seq<Message>, raised: bool) {
    function Then(next: Scan): Scan {
      if raised then this else Scan(events + next.events, next.raised)
    }
  }

  function Found(on: bool, m: Message): Scan {
    Scan(if on then [m] else [], false)
  }

  function FoundPrompt(line: string): Scan {
    if !Contains(line, SET_PROMPT) then Scan([], false)
    else match Search(line, SET_PROMPT_)
      case None => Scan([], true)
      case Some(text) => Scan([Prompt(text)], false)
  }

  function FoundInfo(line: string): Scan {
    if !Contains(line, SET_INFO) then Scan([], false)
    else match Search(line, SET_INFO_)
      case None => Scan([], true)
      case Some(text) => Scan([Info(text)], false)
  }

  /** The tests message_from_child makes on one line, in its order. */
  function ScanLine(line: string): Scan {
    if line == "" then Scan([], false)
    else
      Found(Contains(line, FAILURE), Failure)
        .Then(Found(Contains(line, SUCCESS), Success))
        .Then(Found(Contains(line, CANCELLED), Cancelled))
        .Then(Found(Contains(line, BUSY_TRUE), Busy(true)))
        .Then(Found(Contains(line, BUSY_FALSE), Busy(false)))
        .Then(FoundPrompt(line))
        .Then(FoundInfo(line))
  }

  function ScanLines(lines: seq<string>): Scan {
    if lines == [] then Scan([], false) else ScanLine(lines[0]).Then(ScanLines(lines[1..]))
  }

  /** Where the first line ends. */
  function LineEnd(s: string): (i: nat)
    ensures i <= |s| && (i < |s| ==> s[i] == '\n')
    ensures forall k :: 0 <= k < i ==> s[k] != '\n'
  {
    if s == "" || s[0] == '\n' then 0 else 1 + LineEnd(s[1..])
  }

  /** Python's s.split("\n"). */
  function Split(s: string): (lines: seq<string>)
    decreases |s|
  {
    var i := LineEnd(s);
    if i == |s| then [s] else [s[..i]] + Split(s[i + 1..])
  }

  function Parse(raw: string): Scan {
    ScanLines(Split(raw))
  }

  // ---------------------------------------------------------------------- round trip

  predicate NoNewline(s: string) {
    forall k :: 0 <= k < |s| ==> s[k] != '\n'
  }

  /** The text can be sent: it is one line, and it holds no token but the one that announces it. */
  predicate Clean(m: Message) {
    match m
    case Prompt(text) =>
      && NoNewline(text)
      && !Contains(text, FAILURE) && !Contains(text, SUCCESS) && !Contains(text, CANCELLED)
      && !Contains(text, BUSY_TRUE) && !Contains(text, BUSY_FALSE) && !Contains(text, SET_INFO)
    case Info(text) =>
      && NoNewline(text)
      && !Contains(text, FAILURE) && !Contains(text, SUCCESS) && !Contains(text, CANCELLED)
      && !Contains(text, BUSY_TRUE) && !Contains(text, BUSY_FALSE) && !Contains(text, SET_PROMPT)
    case _ => true
  }

  /** Only the beginning of a prefix looks like the beginning of a token. */
  predicate StartsOnce(prefix: string) {
    |prefix| > 0 && forall k :: 0 < k < |prefix| ==> prefix[k] != 'C'
  }

  predicate IsToken(t: string) {
    |t| > 0 && t[0] == 'C' && t[|t| - 1] != '_'
  }

  lemma Pointwise(s: string, t: string, i: nat)
    requires i <= |s|
    ensures OccursAt(s, t, i) ==> forall k :: 0 <= k < |t| ==> t[k] == s[i + k]
  {
    if OccursAt(s, t, i) {
      var part := s[i..i + |t|];
      assert part == t;
    }
  }

  /** A token other than the announced one is in the line if and only if it is in the text: it cannot
      straddle the prefix, nor end in the closing underscore. */
  lemma TokenInLine(prefix: string, text: string, t: string, d: nat)
    requires StartsOnce(prefix) && IsToken(t)
    requires d < |prefix| && d < |t| && prefix[d] != t[d]
    ensures Contains(prefix + text + "_", t) <==> Contains(text, t)
  {
    var line := prefix + text + "_";
    if Contains(line, t) {
      var i: nat :| i <= |line| && OccursAt(line, t, i);
      Pointwise(line, t, i);
      if i >= |prefix| {
        var k := i - |prefix|;
        assert text[k..k + |t|] == line[i..i + |t|];
        assert OccursAt(text, t, k);
      }
    }
    if Contains(text, t) {
      var k: nat :| k <= |text| && OccursAt(text, t, k);
      assert line[|prefix| + k..|prefix| + k + |t|] == text[k..k + |t|];
      assert OccursAt(line, t, |prefix| + k);
    }
  }

  /** The announced token is there, and the search returns the text. */
  lemma SearchInLine(token: string, text: string)
    ensures var prefix := token + "_"; var line := prefix + text + "_";
      Contains(line, token) && Search(line, prefix) == Some(text)
  {
    var prefix := token + "_";
    var line := prefix + text + "_";
    assert line[0..|prefix|] == prefix && OccursAt(line, prefix, 0);
    assert line[0..|token|] == token && OccursAt(line, token, 0);
    assert FirstAt(line, prefix, 0) == 0;
    assert line[|line| - 1] == '_' && AfterLastUnderscore(line) == |line|;
    assert line[|prefix|..|line| - 1] == text;
  }

  /** A token starts with "CS", which the fixed lines hold at their start only. */
  predicate StartsOnceCS(line: string) {
    forall k :: 0 < k < |line| - 1 ==> !(line[k] == 'C' && line[k + 1] == 'S')
  }

  lemma NotInFixedLine(line: string, t: string, d: nat)
    requires StartsOnceCS(line) && |t| > 1 && t[0] == 'C' && t[1] == 'S'
    requires d < |line| && d < |t| && line[d] != t[d]
    ensures !Contains(line, t)
  {
    forall i: nat | i <= |line| ensures !OccursAt(line, t, i) {
      Pointwise(line, t, i);
    }
  }

  lemma InItself(t: string)
    ensures Contains(t, t)
  {
    assert t[0..|t|] == t && OccursAt(t, t, 0);
  }

  lemma Literals()
    ensures SET_PROMPT_ == SET_PROMPT + "_" && SET_INFO_ == SET_INFO + "_"
    ensures StartsOnce(SET_PROMPT_) && StartsOnce(SET_INFO_)
    ensures StartsOnceCS(FAILURE) && StartsOnceCS(SUCCESS) && StartsOnceCS(CANCELLED)
    ensures StartsOnceCS(BUSY_TRUE) && StartsOnceCS(BUSY_FALSE)
  {
  }

  lemma FixedLine(m: Message)
    requires !m.Prompt? && !m.Info?
    ensures ScanLine(Line(m)) == Scan([m], false)
  {
    Literals();
    var line := Line(m);
    InItself(line);
    var d := if m.Busy? then 17 else 12;
    if !m.Failure? { NotInFixedLine(line, FAILURE, 12); }
    if !m.Success? { NotInFixedLine(line, SUCCESS, 12); }
    if !m.Cancelled? { NotInFixedLine(line, CANCELLED, 12); }
    if m != Busy(true) { NotInFixedLine(line, BUSY_TRUE, d); }
    if m != Busy(false) { NotInFixedLine(line, BUSY_FALSE, d); }
    var e := if m.Success? then 13 else 12;
    NotInFixedLine(line, SET_PROMPT, e);
    NotInFixedLine(line, SET_INFO, e);
  }

  /** What the client makes of a prompt line: the prompt itself, and whatever tokens its text holds. */
  lemma PromptLine(text: string)
    ensures var line := Line(Prompt(text));
      && Contains(line, FAILURE) == Contains(text, FAILURE)
      && Contains(line, SUCCESS) == Contains(text, SUCCESS)
      && Contains(line, CANCELLED) == Contains(text, CANCELLED)
      && Contains(line, BUSY_TRUE) == Contains(text, BUSY_TRUE)
      && Contains(line, BUSY_FALSE) == Contains(text, BUSY_FALSE)
      && Contains(line, SET_INFO) == Contains(text, SET_INFO)
      && FoundPrompt(line) == Scan([Prompt(text)], false)
  {
    hide Contains, Search;
    Literals();
    TokenInLine(SET_PROMPT_, text, FAILURE, 12);
    TokenInLine(SET_PROMPT_, text, SUCCESS, 13);
    TokenInLine(SET_PROMPT_, text, CANCELLED, 12);
    TokenInLine(SET_PROMPT_, text, BUSY_TRUE, 12);
    TokenInLine(SET_PROMPT_, text, BUSY_FALSE, 12);
    TokenInLine(SET_PROMPT_, text, SET_INFO, 16);
    SearchInLine(SET_PROMPT, text);
  }

  lemma InfoLine(text: string)
    ensures var line := Line(Info(text));
      && Contains(line, FAILURE) == Contains(text, FAILURE)
      && Contains(line, SUCCESS) == Contains(text, SUCCESS)
      && Contains(line, CANCELLED) == Contains(text, CANCELLED)
      && Contains(line, BUSY_TRUE) == Contains(text, BUSY_TRUE)
      && Contains(line, BUSY_FALSE) == Contains(text, BUSY_FALSE)
      && Contains(line, SET_PROMPT) == Contains(text, SET_PROMPT)
      && FoundInfo(line) == Scan([Info(text)], false)
  {
    hide Contains, Search;
    Literals();
    TokenInLine(SET_INFO_, text, FAILURE, 12);
    TokenInLine(SET_INFO_, text, SUCCESS, 13);
    TokenInLine(SET_INFO_, text, CANCELLED, 12);
    TokenInLine(SET_INFO_, text, BUSY_TRUE, 12);
    TokenInLine(SET_INFO_, text, BUSY_FALSE, 12);
    TokenInLine(SET_INFO_, text, SET_PROMPT, 16);
    SearchInLine(SET_INFO, text);
  }

  lemma FoundNoInfo(line: string)
    ensures FoundInfo(line) == Scan([], false) <==> !Contains(line, SET_INFO)
    ensures !FoundInfo(line).raised && Contains(line, SET_INFO) ==> |FoundInfo(line).events| == 1
  {
  }

  lemma FoundNoPrompt(line: string)
    ensures FoundPrompt(line) == Scan([], false) <==> !Contains(line, SET_PROMPT)
    ensures !FoundPrompt(line).raised && Contains(line, SET_PROMPT) ==> |FoundPrompt(line).events| == 1
  {
  }

  /** A line alone: it is read back as itself exactly when its text holds no other token. */
  lemma LineReadsBack(m: Message)
    requires m.Prompt? || m.Info? ==> NoNewline(m.text)
    ensures ScanLine(Line(m)) == Scan([m], false) <==> Clean(m)
  {
    hide Contains, FoundPrompt, FoundInfo, FirstAt, AfterLastUnderscore;
    match m {
      case Prompt(text) => PromptLine(text); FoundNoInfo(Line(m));
      case Info(text) => InfoLine(text); FoundNoPrompt(Line(m));
      case _ => FixedLine(m);
    }
  }

  lemma ParseLine(line: string, rest: string)
    requires NoNewline(line)
    ensures Parse(line + "\n" + rest) == ScanLine(line).Then(Parse(rest))
  {
    hide ScanLine;
    var raw := line + "\n" + rest;
    assert raw[|line|] == '\n';
    assert LineEnd(raw) == |line|;
    assert raw[..|line|] == line && raw[|line| + 1..] == rest;
  }

  lemma NoNewlineIn(a: string, b: string)
    ensures NoNewline(a + b) <==> NoNewline(a) && NoNewline(b)
  {
    assert forall k :: 0 <= k < |a| ==> (a + b)[k] == a[k];
    assert forall k :: 0 <= k < |b| ==> (a + b)[|a| + k] == b[k];
  }

  lemma TokensAreOneLine()
    ensures NoNewline(FAILURE) && NoNewline(SUCCESS) && NoNewline(CANCELLED)
    ensures NoNewline(BUSY_TRUE) && NoNewline(BUSY_FALSE)
    ensures NoNewline(SET_PROMPT_) && NoNewline(SET_INFO_) && NoNewline("_")
  {
  }

  lemma LineIsOneLine(m: Message)
    ensures NoNewline(Line(m)) <==> (m.Prompt? || m.Info? ==> NoNewline(m.text))
  {
    TokensAreOneLine();
    hide FAILURE, SUCCESS, CANCELLED, BUSY_TRUE, BUSY_FALSE, SET_PROMPT_, SET_INFO_, NoNewline;
    if m.Prompt? || m.Info? {
      var prefix := if m.Prompt? then SET_PROMPT_ else SET_INFO_;
      NoNewlineIn(prefix, m.text);
      NoNewlineIn(prefix + m.text, "_");
    }
  }

  /** Main result: any sequence of messages with clean texts is read back as itself. */
  lemma {:induction false} RoundTrip(ms: seq<Message>)
    requires forall m :: m in ms ==> Clean(m)
    ensures Parse(PrintAll(ms)) == Scan(ms, false)
  {
    hide ScanLine, Line;
    if ms != [] {
      assert ms[0] in ms;
      LineIsOneLine(ms[0]);
      LineReadsBack(ms[0]);
      ParseLine(Line(ms[0]), PrintAll(ms[1..]));
      RoundTrip(ms[1..]);
    } else {
      assert Split("") == [""];
      assert ScanLine("") == Scan([], false) by { EmptyLine(); }
    }
  }

  lemma EmptyLine()
    ensures ScanLine("") == Scan([], false)
  {
  }

  // -------------------------------------------------------------- what does not come back

  predicate OneLine(m: Message) {
    m.Prompt? || m.Info? ==> NoNewline(m.text)
  }

  predicate OneLineEach(ms: seq<Message>) {
    forall m :: m in ms ==> OneLine(m)
  }

  lemma SearchStaysInLine(line: string, prefix: string)
    requires NoNewline(line) && Search(line, prefix).Some?
    ensures NoNewline(Search(line, prefix).value)
  {
  }

  lemma FoundOneLine(line: string)
    requires NoNewline(line)
    ensures OneLineEach(FoundPrompt(line).events) && OneLineEach(FoundInfo(line).events)
  {
    hide Contains, Search;
    if Search(line, SET_PROMPT_).Some? { SearchStaysInLine(line, SET_PROMPT_); }
    if Search(line, SET_INFO_).Some? { SearchStaysInLine(line, SET_INFO_); }
  }

  lemma ScanLineOneLine(line: string)
    requires NoNewline(line)
    ensures OneLineEach(ScanLine(line).events)
  {
    FoundOneLine(line);
    hide Contains, FoundPrompt, FoundInfo, NoNewline;
  }

  lemma {:induction false} SplitIntoLines(s: string)
    ensures forall line :: line in Split(s) ==> NoNewline(line)
    decreases |s|
  {
    var i := LineEnd(s);
    if i < |s| { SplitIntoLines(s[i + 1..]); }
  }

  lemma {:induction false} ScanLinesOneLine(lines: seq<string>)
    requires forall line :: line in lines ==> NoNewline(line)
    ensures OneLineEach(ScanLines(lines).events)
  {
    if lines != [] {
      ScanLineOneLine(lines[0]);
      ScanLinesOneLine(lines[1..]);
      hide ScanLine, OneLine;
    }
  }

  /** Whatever was printed, no text comes back with a newline in it. */
  lemma TextsComeWithoutNewline(raw: string)
    ensures OneLineEach(Parse(raw).events)
  {
    SplitIntoLines(raw);
    ScanLinesOneLine(Split(raw));
  }

  /** A printed line gives its own message; with a text that is not clean, it gives more or raises. */
  lemma LineGivesMore(m: Message)
    requires OneLine(m)
    ensures var scan := ScanLine(Line(m));
      scan.raised || |scan.events| > 1 || (|scan.events| == 1 && Clean(m))
  {
    hide Contains, FoundPrompt, FoundInfo, FirstAt, AfterLastUnderscore;
    match m {
      case Prompt(text) => PromptLine(text); FoundNoInfo(Line(m));
      case Info(text) => InfoLine(text); FoundNoPrompt(Line(m));
      case _ => FixedLine(m);
    }
  }

  /** Lists of one-line messages: at least as many events come back, and as many only if all texts are clean. */
  lemma {:induction false} ListGivesMore(ms: seq<Message>)
    requires OneLineEach(ms)
    ensures var scan := Parse(PrintAll(ms));
      scan.raised || |scan.events| > |ms| || (|scan.events| == |ms| && forall m :: m in ms ==> Clean(m))
  {
    if ms == [] {
      RoundTrip([]);
    } else {
      var m, rest := ms[0], ms[1..];
      LineIsOneLine(m);
      LineGivesMore(m);
      ParseLine(Line(m), PrintAll(rest));
      ListGivesMore(rest);
      hide ScanLine, Line, Parse, Clean, OneLine;
      assert PrintAll(ms) == Line(m) + "\n" + PrintAll(rest);
    }
  }

  /** Main result: a list of messages is read back as itself if and only if all its texts are clean. */
  lemma ReadsBackExactly(ms: seq<Message>)
    ensures Parse(PrintAll(ms)) == Scan(ms, false) <==> forall m :: m in ms ==> Clean(m)
  {
    if forall m :: m in ms ==> Clean(m) {
      RoundTrip(ms);
    } else if OneLineEach(ms) {
      ListGivesMore(ms);
    } else {
      TextsComeWithoutNewline(PrintAll(ms));
    }
    hide Parse, PrintAll, Clean, OneLine;
  }
}
