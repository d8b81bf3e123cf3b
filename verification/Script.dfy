/**
 The script language that scriptCmdProcess (core/src/at_cmdProc.c:1041-1098) interprets, as
 structured programs: the rows `loop n`, ..., `start`, body, `end` form one loop, every other
 row is one command.
 */
module Script {
  import opened CStrings

  const CMD_LOOP := "loop"
  const LOOP_START := "start"
  const LOOP_END := "end"

  predicate IsLoop(line: string) { HasPrefixNoCase(line, CMD_LOOP) }
  predicate IsStart(line: string) { HasPrefixNoCase(line, LOOP_START) }
  predicate IsEnd(line: string) { HasPrefixNoCase(line, LOOP_END) }

  /** The three words, in either case. */
  lemma KeywordRows(line: string)
    ensures IsLoop(line) <==> |line| >= 4 && line[0] in "lL" && line[1] in "oO" && line[2] in "oO" && line[3] in "pP"
    ensures IsStart(line) <==>
      |line| >= 5 && line[0] in "sS" && line[1] in "tT" && line[2] in "aA" && line[3] in "rR" && line[4] in "tT"
    ensures IsEnd(line) <==> |line| >= 3 && line[0] in "eE" && line[1] in "nN" && line[2] in "dD"
  {
    PrefixIs(line, "loop");
    PrefixIs(line, "start");
    PrefixIs(line, "end");
    hide HasPrefixNoCase;
    LowerLetters();
  }

  lemma LowerLetters()
    ensures forall c :: Lower(c) == 'l' <==> c in "lL"
    ensures forall c :: Lower(c) == 'o' <==> c in "oO"
    ensures forall c :: Lower(c) == 'p' <==> c in "pP"
    ensures forall c :: Lower(c) == 's' <==> c in "sS"
    ensures forall c :: Lower(c) == 't' <==> c in "tT"
    ensures forall c :: Lower(c) == 'a' <==> c in "aA"
    ensures forall c :: Lower(c) == 'r' <==> c in "rR"
    ensures forall c :: Lower(c) == 'e' <==> c in "eE"
    ensures forall c :: Lower(c) == 'n' <==> c in "nN"
    ensures forall c :: Lower(c) == 'd' <==> c in "dD"
  {
  }

  /** The text behind the first space of a loop row: what goes into `parameter`. */
  function LoopArgument(head: string): string
    requires ' ' in head
  {
    head[FirstIndex(head, ' ') + 1..]
  }

  /** A loop row has a space, and its argument fits into the 10-byte `parameter`. */
  predicate HeadOk(head: string)
  {
    ' ' in head && |LoopArgument(head)| <= 9
  }

  function LoopCount(head: string): int
    requires HeadOk(head)
  {
    Atoi(LoopArgument(head))
  }

  /** How often the body of a loop row runs. */
  function Times(head: string): nat
  {
    if HeadOk(head) && LoopCount(head) > 0 then LoopCount(head) else 0
  }

  /**
   A script.  In Loop, `skipped` are the rows between the loop row and the last start row;
   Abort is a loop row whose count is not positive, and the rows behind it are never read.
   */
  datatype Prog =
    | Done
    | Plain(cmd: string, next: Prog)
    | Loop(head: string, skipped: seq<string>, begin: string, body: seq<string>, end: string, next: Prog)
    | Abort(head: string, unread: seq<string>)

  predicate WellFormed(p: Prog)
  {
    match p
    case Done => true
    case Plain(cmd, next) => !IsLoop(cmd) && WellFormed(next)
    case Loop(head, skipped, begin, body, end, next) =>
      && IsLoop(head) && HeadOk(head) && LoopCount(head) > 0
      && LoopParts(skipped, begin, body, end)
      && WellFormed(next)
    case Abort(head, unread) => IsLoop(head) && HeadOk(head) && LoopCount(head) <= 0
  }

  /** The rows of one loop: its end is the first end row, its start the last start row before it. */
  predicate LoopParts(skipped: seq<string>, begin: string, body: seq<string>, end: string)
  {
    && IsStart(begin) && IsEnd(end)
    && (forall k :: 0 <= k < |skipped| ==> !IsEnd(skipped[k]))
    && (forall k :: 0 <= k < |body| ==> !IsStart(body[k]) && !IsEnd(body[k]))
  }

  // ---- Rows and programs ----

  function Flatten(p: Prog): seq<string>
  {
    match p
    case Done => []
    case Plain(cmd, next) => [cmd] + Flatten(next)
    case Loop(head, skipped, begin, body, end, next) =>
      LoopRows(head, skipped, begin, body, end) + Flatten(next)
    case Abort(head, unread) => [head] + unread
  }

  function LoopRows(head: string, skipped: seq<string>, begin: string, body: seq<string>, end: string): seq<string>
  {
    [head] + skipped + [begin] + body + [end]
  }

  /** The first end row from i on, |lines| when there is none. */
  function FirstEnd(lines: seq<string>, i: nat): (e: nat)
    requires i <= |lines|
    ensures i <= e <= |lines|
    ensures forall k :: i <= k < e ==> !IsEnd(lines[k])
    ensures e < |lines| ==> IsEnd(lines[e])
    decreases |lines| - i
  {
    if i == |lines| || IsEnd(lines[i]) then i else FirstEnd(lines, i + 1)
  }

  /** The last start row in [i, e), -1 when there is none. */
  function LastStart(lines: seq<string>, i: nat, e: nat): (s: int)
    requires i <= e <= |lines|
    ensures s == -1 || i <= s < e
    ensures s != -1 ==> IsStart(lines[s])
    ensures forall k :: i <= k < e && k > s ==> !IsStart(lines[k])
    decreases e - i
  {
    if i == e then -1
    else if IsStart(lines[e - 1]) then e - 1
    else LastStart(lines, i, e - 1)
  }

  /** The loop that starts at row i has its own start row and an end row. */
  predicate LoopOk(lines: seq<string>, i: nat)
    requires i < |lines|
  {
    var e := FirstEnd(lines, i + 1);
    e < |lines| && LastStart(lines, i + 1, e) != -1
  }

  /** Reading rows as a program; None when the rows are not balanced. */
  function Parse(lines: seq<string>): Option<Prog>
  {
    if lines == [] then Some(Done)
    else if !IsLoop(lines[0]) then
      var next := Parse(lines[1..]);
      if next.None? then None else Some(Plain(lines[0], next.value))
    else if !HeadOk(lines[0]) then None
    else if LoopCount(lines[0]) <= 0 then Some(Abort(lines[0], lines[1..]))
    else if !LoopOk(lines, 0) then None
    else
      var e := FirstEnd(lines, 1);
      var s := LastStart(lines, 1, e);
      var next := Parse(lines[e + 1..]);
      if next.None? then None
      else Some(Loop(lines[0], lines[1..s], lines[s], lines[s + 1..e], lines[e], next.value))
  }

  /** The scripts the interpreter runs within its arrays. */
  predicate Balanced(lines: seq<string>)
  {
    Parse(lines).Some?
  }

  lemma StartIsNotEnd(line: string)
    requires IsStart(line)
    ensures !IsEnd(line)
  {
    assert Lower(line[0]) == Lower(LOOP_START[0]) == 's' && Lower(LOOP_END[0]) == 'e';
  }

  lemma LastStartIs(lines: seq<string>, i: nat, e: nat, s: nat)
    requires i <= s < e <= |lines| && IsStart(lines[s])
    requires forall k :: s < k < e ==> !IsStart(lines[k])
    ensures LastStart(lines, i, e) == s
  {
    assert IsStart(lines[s]);
    var s' := LastStart(lines, i, e);
    assert s <= s';
  }

  /** Parsing gives a well-formed program whose rows are the rows parsed. */
  lemma {:induction false} FlattenParse(lines: seq<string>)
    requires Balanced(lines)
    ensures WellFormed(Parse(lines).value) && Flatten(Parse(lines).value) == lines
    decreases |lines|
  {
    hide IsStart, IsEnd, IsLoop, HeadOk, LoopCount, LoopParts, LoopRows;
    if lines == [] {
    } else if !IsLoop(lines[0]) {
      FlattenParse(lines[1..]);
    } else if LoopCount(lines[0]) > 0 {
      var e := FirstEnd(lines, 1);
      var s := LastStart(lines, 1, e);
      FlattenParse(lines[e + 1..]);
      CutLoop(lines, s, e);
    }
  }

  lemma CutLoop(lines: seq<string>, s: nat, e: nat)
    requires |lines| > 0 && LoopOk(lines, 0) && e == FirstEnd(lines, 1) && s == LastStart(lines, 1, e)
    ensures LoopParts(lines[1..s], lines[s], lines[s + 1..e], lines[e])
    ensures LoopRows(lines[0], lines[1..s], lines[s], lines[s + 1..e], lines[e]) + lines[e + 1..] == lines
  {
    hide IsStart, IsEnd;
    var skipped, body := lines[1..s], lines[s + 1..e];
    forall k | 0 <= k < |skipped| ensures !IsEnd(skipped[k]) {
      assert skipped[k] == lines[k + 1];
    }
    forall k | 0 <= k < |body| ensures !IsStart(body[k]) && !IsEnd(body[k]) {
      assert body[k] == lines[k + s + 1];
    }
    Reassemble(lines, s, e);
  }

  lemma Reassemble(lines: seq<string>, s: nat, e: nat)
    requires 1 <= s < e < |lines|
    ensures LoopRows(lines[0], lines[1..s], lines[s], lines[s + 1..e], lines[e]) + lines[e + 1..] == lines
  {
    assert lines[..s] == [lines[0]] + lines[1..s];
    assert lines[..e] == lines[..s] + [lines[s]] + lines[s + 1..e];
  }

  /** Every well-formed program is what its rows parse as: the rows are unambiguous. */
  lemma {:induction false} ParseFlatten(p: Prog)
    requires WellFormed(p)
    ensures Parse(Flatten(p)) == Some(p)
  {
    match p
    case Done =>
    case Plain(cmd, next) =>
      ParseFlatten(next);
    case Loop(head, skipped, begin, body, end, next) =>
      ParseFlatten(next);
      hide Parse, IsLoop, HeadOk, LoopCount, LoopParts, LoopRows;
      ParseLoop(head, skipped, begin, body, end, Flatten(next));
    case Abort(head, unread) =>
  }

  lemma ParseLoop(head: string, skipped: seq<string>, begin: string, body: seq<string>, end: string,
                  rest: seq<string>)
    requires IsLoop(head) && HeadOk(head) && LoopCount(head) > 0 && LoopParts(skipped, begin, body, end)
    ensures Parse(LoopRows(head, skipped, begin, body, end) + rest) ==
      match Parse(rest) {
        case None => None
        case Some(next) => Some(Loop(head, skipped, begin, body, end, next))
      }
  {
    var lines := LoopRows(head, skipped, begin, body, end) + rest;
    LoopRowsParse(head, skipped, begin, body, end, rest);
    hide IsLoop, HeadOk, LoopCount, LoopParts, LoopRows;
    assert lines != [] && IsLoop(lines[0]) && HeadOk(lines[0]) && LoopCount(lines[0]) > 0 && LoopOk(lines, 0);
  }

  lemma LoopRowsParse(head: string, skipped: seq<string>, begin: string, body: seq<string>, end: string,
                      rest: seq<string>)
    requires LoopParts(skipped, begin, body, end)
    ensures var lines := LoopRows(head, skipped, begin, body, end) + rest;
      var s, e := |skipped| + 1, |skipped| + |body| + 2;
      && FirstEnd(lines, 1) == e && LastStart(lines, 1, e) == s && e < |lines|
      && lines[0] == head && lines[1..s] == skipped && lines[s] == begin
      && lines[s + 1..e] == body && lines[e] == end && lines[e + 1..] == rest
  {
    var lines := LoopRows(head, skipped, begin, body, end) + rest;
    var s, e := |skipped| + 1, |skipped| + |body| + 2;
    assert lines[1..s] == skipped && lines[s] == begin;
    assert lines[s + 1..e] == body && lines[e] == end && lines[e + 1..] == rest;
    StartIsNotEnd(begin);
    forall k | 1 <= k < e ensures !IsEnd(lines[k]) && (k > s ==> !IsStart(lines[k])) {
      if k < s {
        assert lines[k] == lines[1..s][k - 1];
      } else if k > s {
        assert lines[k] == lines[s + 1..e][k - s - 1];
      }
    }
    FirstEndIs(lines, 1, e);
    LastStartIs(lines, 1, e, s);
  }

  lemma FirstEndIs(lines: seq<string>, i: nat, e: nat)
    requires i <= e < |lines| && IsEnd(lines[e]) && forall k :: i <= k < e ==> !IsEnd(lines[k])
    ensures FirstEnd(lines, i) == e
  {
    var e' := FirstEnd(lines, i);
    assert e' <= e;
  }
}
