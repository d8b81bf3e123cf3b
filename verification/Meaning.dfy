/**
 What a script means: the commands it issues, in order, and the loop iterations it counts.
 */
module Meaning {
  import opened CStrings
  import opened Script

  function Repeat(body: seq<string>, n: nat): seq<string>
  {
    if n == 0 then [] else body + Repeat(body, n - 1)
  }

  /** The commands a script issues, in order. */
  function Trace(p: Prog): seq<string>
  {
    match p
    case Done => []
    case Plain(cmd, next) => [cmd] + Trace(next)
    case Loop(head, _, _, body, _, next) => Repeat(body, Times(head)) + Trace(next)
    case Abort(_, _) => []
  }

  /** The iterations a script counts: empty loop bodies add none. */
  function Runs(p: Prog): nat
  {
    match p
    case Done => 0
    case Plain(_, next) => Runs(next)
    case Loop(head, _, _, body, _, next) => (if body == [] then 0 else Times(head)) + Runs(next)
    case Abort(_, _) => 0
  }

  predicate Aborts(p: Prog)
  {
    match p
    case Done => false
    case Plain(_, next) => Aborts(next)
    case Loop(_, _, _, _, _, next) => Aborts(next)
    case Abort(_, _) => true
  }

  /** The program of balanced rows. */
  function Program(lines: seq<string>): (p: Prog)
    requires Balanced(lines)
    ensures WellFormed(p)
  {
    FlattenParse(lines);
    Parse(lines).value
  }

  // ---- One script behind another ----

  /** p, then q; a script that aborts never gets to q. */
  function Then(p: Prog, q: Prog): Prog
  {
    match p
    case Done => q
    case Plain(cmd, next) => Plain(cmd, Then(next, q))
    case Loop(head, skipped, begin, body, end, next) => Loop(head, skipped, begin, body, end, Then(next, q))
    case Abort(head, unread) => Abort(head, unread + Flatten(q))
  }

  lemma {:induction false} ThenIsWellFormed(p: Prog, q: Prog)
    requires WellFormed(p) && WellFormed(q)
    ensures WellFormed(Then(p, q)) && Flatten(Then(p, q)) == Flatten(p) + Flatten(q)
  {
    hide IsLoop, HeadOk, LoopCount, LoopParts, LoopRows;
    match p
    case Done =>
    case Plain(cmd, next) =>
      ThenIsWellFormed(next, q);
      Regroup([cmd], Flatten(next), Flatten(q));
    case Loop(head, skipped, begin, body, end, next) =>
      ThenIsWellFormed(next, q);
      Regroup(LoopRows(head, skipped, begin, body, end), Flatten(next), Flatten(q));
    case Abort(head, unread) =>
      Regroup([head], unread, Flatten(q));
  }

  lemma {:induction false} ThenMeans(p: Prog, q: Prog)
    ensures Trace(Then(p, q)) == Trace(p) + (if Aborts(p) then [] else Trace(q))
    ensures Runs(Then(p, q)) == Runs(p) + (if Aborts(p) then 0 else Runs(q))
    ensures Aborts(Then(p, q)) == (Aborts(p) || Aborts(q))
  {
    hide Times, Repeat;
    match p
    case Done =>
    case Plain(cmd, next) =>
      ThenMeans(next, q);
      Regroup([cmd], Trace(next), if Aborts(p) then [] else Trace(q));
    case Loop(head, skipped, begin, body, end, next) =>
      ThenMeans(next, q);
      Regroup(Repeat(body, Times(head)), Trace(next), if Aborts(p) then [] else Trace(q));
    case Abort(head, unread) =>
  }

  /**
   Running one script behind another: what the first one leaves behind never shows in the
   second, whose commands and iterations are those of a run of its own.
   */
  lemma RunsInSequence(s1: seq<string>, s2: seq<string>)
    requires Balanced(s1) && Balanced(s2)
    ensures Balanced(s1 + s2)
    ensures Trace(Program(s1 + s2)) == Trace(Program(s1)) + (if Aborts(Program(s1)) then [] else Trace(Program(s2)))
    ensures Runs(Program(s1 + s2)) == Runs(Program(s1)) + (if Aborts(Program(s1)) then 0 else Runs(Program(s2)))
    ensures Aborts(Program(s1 + s2)) == (Aborts(Program(s1)) || Aborts(Program(s2)))
  {
    var p, q := Program(s1), Program(s2);
    FlattenParse(s1);
    FlattenParse(s2);
    ThenIsWellFormed(p, q);
    ParseFlatten(Then(p, q));
    ThenMeans(p, q);
  }

  // ---- Scripts without loops ----

  predicate LoopFree(lines: seq<string>)
  {
    forall l :: l in lines ==> !IsLoop(l)
  }

  lemma {:induction false} LoopFreeMeans(lines: seq<string>)
    requires LoopFree(lines)
    ensures Balanced(lines) && Trace(Program(lines)) == lines
    ensures Runs(Program(lines)) == 0 && !Aborts(Program(lines))
  {
    if lines != [] {
      LoopFreeMeans(lines[1..]);
    }
  }

  function CountEnds(lines: seq<string>): nat
  {
    if lines == [] then 0 else (if IsEnd(lines[0]) then 1 else 0) + CountEnds(lines[1..])
  }

  lemma {:induction false} CountEndsAppend(a: seq<string>, b: seq<string>)
    ensures CountEnds(a + b) == CountEnds(a) + CountEnds(b)
  {
    if a == [] {
      assert a + b == b;
    } else {
      CountEndsAppend(a[1..], b);
      assert (a + b)[1..] == a[1..] + b;
    }
  }

  lemma {:induction false} NoEnds(body: seq<string>, n: nat)
    requires forall k :: 0 <= k < |body| ==> !IsEnd(body[k])
    ensures CountEnds(body) == 0 && CountEnds(Repeat(body, n)) == 0
    decreases n, body
  {
    if n > 0 {
      NoEnds(body, n - 1);
      CountEndsAppend(body, Repeat(body, n - 1));
    } else if body != [] {
      NoEnds(body[1..], 0);
    }
  }

  predicate HasLoop(p: Prog)
  {
    match p
    case Done => false
    case Plain(_, next) => HasLoop(next)
    case Loop(_, _, _, _, _, _) => true
    case Abort(_, _) => false
  }

  /** Every loop that runs uses up an end row, and no loop body issues one. */
  lemma {:induction false} LoopsUseUpEnds(p: Prog)
    requires WellFormed(p)
    ensures CountEnds(Trace(p)) <= CountEnds(Flatten(p))
    ensures HasLoop(p) ==> CountEnds(Trace(p)) < CountEnds(Flatten(p))
  {
    match p
    case Done =>
    case Plain(cmd, next) =>
      LoopsUseUpEnds(next);
      CountEndsAppend([cmd], Trace(next));
      CountEndsAppend([cmd], Flatten(next));
    case Loop(head, skipped, begin, body, end, next) =>
      LoopsUseUpEnds(next);
      hide WellFormed;
      NoEnds(body, Times(head));
      CountEndsAppend(Repeat(body, Times(head)), Trace(next));
      LoopRowsEnd(head, skipped, begin, body, end);
      CountEndsAppend(LoopRows(head, skipped, begin, body, end), Flatten(next));
    case Abort(head, unread) =>
  }

  lemma LoopRowsEnd(head: string, skipped: seq<string>, begin: string, body: seq<string>, end: string)
    requires IsEnd(end)
    ensures CountEnds(LoopRows(head, skipped, begin, body, end)) >= 1
  {
    CountEndsAppend([head] + skipped + [begin] + body, [end]);
  }

  lemma {:induction false} AbortIsShort(p: Prog)
    requires WellFormed(p) && !HasLoop(p) && Aborts(p)
    ensures |Trace(p)| < |Flatten(p)|
  {
    if p.Plain? {
      AbortIsShort(p.next);
    }
  }

  lemma {:induction false} NoLoopNoAbort(p: Prog)
    requires WellFormed(p) && !HasLoop(p) && !Aborts(p)
    ensures LoopFree(Flatten(p))
  {
    if p.Plain? {
      NoLoopNoAbort(p.next);
    }
  }

  /** Rows are their own trace exactly when no row starts with `loop`. */
  lemma OwnTrace(lines: seq<string>)
    ensures Balanced(lines) && Trace(Program(lines)) == lines <==> LoopFree(lines)
  {
    if LoopFree(lines) {
      LoopFreeMeans(lines);
    } else if Balanced(lines) {
      var p := Program(lines);
      FlattenParse(lines);
      LoopsUseUpEnds(p);
      if !HasLoop(p) && Aborts(p) {
        AbortIsShort(p);
      } else if !HasLoop(p) {
        NoLoopNoAbort(p);
      }
    }
  }

  /**
   Unrolling: the script whose rows are the commands of p, loop bodies written out, issues
   those same commands exactly when no command of p starts with `loop`.
   */
  lemma Unrolling(p: Prog)
    requires WellFormed(p)
    ensures Balanced(Trace(p)) && Trace(Program(Trace(p))) == Trace(p)
      <==> forall cmd :: cmd in Trace(p) ==> !IsLoop(cmd)
  {
    OwnTrace(Trace(p));
  }

  // ---- What a loop row's number does ----

  /** A loop row as it is written: a word that starts with `loop`, spaces, and a number. */
  function LoopRow(word: string, spaces: string, n: int): string
  {
    word + spaces + Decimal(n)
  }

  predicate LoopRowOk(word: string, spaces: string, n: int)
  {
    && IsLoop(word) && ' ' !in word && spaces != "" && (forall i :: 0 <= i < |spaces| ==> spaces[i] == ' ')
    && |spaces| - 1 + |Decimal(n)| <= 9
  }

  lemma LoopRowCounts(word: string, spaces: string, n: int)
    requires LoopRowOk(word, spaces, n)
    ensures var row := LoopRow(word, spaces, n);
      IsLoop(row) && HeadOk(row) && LoopCount(row) == n
  {
    var row, number := LoopRow(word, spaces, n), Decimal(n);
    assert row == word + (spaces + number);
    FirstIndexIs(row, ' ', |word|);
    assert LoopArgument(row) == spaces[1..] + number;
    NineCharacters(n);
    AtoiReads(spaces[1..], n, "");
    assert spaces[1..] + number + "" == spaces[1..] + number;
    KeywordRows(word);
    KeywordRows(row);
    hide IsLoop, Decimal, Atoi;
  }

  /** The number and the spaces in front of it, but for one, have to fit into 9 characters. */
  lemma LoopRowFits(word: string, spaces: string, n: int, rest: seq<string>)
    requires IsLoop(word) && ' ' !in word && spaces != "" && (forall i :: 0 <= i < |spaces| ==> spaces[i] == ' ')
    ensures HeadOk(LoopRow(word, spaces, n)) <==> LoopRowOk(word, spaces, n)
    ensures !LoopRowOk(word, spaces, n) ==> !Balanced([LoopRow(word, spaces, n)] + rest)
  {
    var row, number := LoopRow(word, spaces, n), Decimal(n);
    assert row == word + (spaces + number);
    FirstIndexIs(row, ' ', |word|);
    assert LoopArgument(row) == spaces[1..] + number;
    KeywordRows(word);
    KeywordRows(row);
    hide IsLoop, Decimal, Atoi;
  }

  /**
   `loop n`, rows that are skipped, the last start row, body, the first end row: the body n times in
   order, and n iterations unless it is empty.
   */
  lemma LoopRunsSoOften(word: string, spaces: string, n: int, skipped: seq<string>, begin: string,
                        body: seq<string>, end: string)
    requires LoopRowOk(word, spaces, n) && n > 0 && IsStart(begin) && IsEnd(end)
    requires forall k :: 0 <= k < |skipped| ==> !IsEnd(skipped[k])
    requires forall k :: 0 <= k < |body| ==> !IsStart(body[k]) && !IsEnd(body[k])
    ensures var rows := [LoopRow(word, spaces, n)] + skipped + [begin] + body + [end];
      && Balanced(rows) && Trace(Program(rows)) == Repeat(body, n) && !Aborts(Program(rows))
      && Runs(Program(rows)) == if body == [] then 0 else n
  {
    var row := LoopRow(word, spaces, n);
    LoopRowCounts(word, spaces, n);
    var p := Loop(row, skipped, begin, body, end, Done);
    hide IsLoop, IsStart, IsEnd, HeadOk, LoopCount, LoopRow;
    assert LoopParts(skipped, begin, body, end);
    ParseFlatten(p);
    assert Flatten(p) == [row] + skipped + [begin] + body + [end];
    assert Repeat(body, n) + [] == Repeat(body, n);
  }

  /** With a number that is not positive the script ends there, whatever follows. */
  lemma LoopEndsScript(word: string, spaces: string, n: int, rest: seq<string>)
    requires LoopRowOk(word, spaces, n) && n <= 0
    ensures var rows := [LoopRow(word, spaces, n)] + rest;
      Balanced(rows) && Trace(Program(rows)) == [] && Runs(Program(rows)) == 0 && Aborts(Program(rows))
  {
    LoopRowCounts(word, spaces, n);
    hide IsLoop, HeadOk, LoopCount, LoopRow;
  }

  /** A body written out so often: copy k of row j stands where it should. */
  lemma {:induction false} RepeatIs(body: seq<string>, n: nat, k: nat, j: nat)
    requires k < n && j < |body|
    ensures |Repeat(body, n)| == n * |body|
    ensures 0 <= k * |body| + j < n * |body| && Repeat(body, n)[k * |body| + j] == body[j]
    decreases n
  {
    assert n * |body| == |body| + (n - 1) * |body|;
    assert k * |body| + j < n * |body| by {
      assert (k + 1) * |body| <= n * |body|;
      assert (k + 1) * |body| == k * |body| + |body|;
    }
    if n == 1 {
      assert Repeat(body, 1) == body + Repeat(body, 0) == body;
    } else if k > 0 {
      RepeatIs(body, n - 1, k - 1, j);
      assert k * |body| == (k - 1) * |body| + |body|;
    } else {
      RepeatIs(body, n - 1, 0, j);
    }
  }
}
