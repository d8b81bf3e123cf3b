/**
 scriptCmdProcess (core/src/at_cmdProc.c:1008-1107): one index runs over the loaded rows, and
 loopStart, loopEnd and loopTime keep their values from one loop to the next.
 */
module Interpreter {
  import opened Common
  import opened CStrings
  import opened Script
  import opened Meaning
  import opened Loader


  /** The counter after n more iterations: at INT_MAX the setter refuses the wrapped value. */
  function Counted(count: int, n: nat): int
  {
    if count + n <= INT_MAX then count + n else INT_MAX
  }

  // ---- One step of the index ----

  lemma Slices<T>(rows: seq<T>, i: nat, a: nat, b: nat)
    requires i <= a <= b <= |rows|
    ensures rows[i..][a - i..b - i] == rows[a..b] && rows[i..][b - i..] == rows[b..]
  {
  }

  lemma {:induction false} FirstEndBehind(rows: seq<string>, i: nat, k: nat)
    requires i <= k <= |rows|
    ensures FirstEnd(rows[i..], k - i) == FirstEnd(rows, k) - i
    decreases |rows| - k
  {
    if k < |rows| {
      assert rows[i..][k - i] == rows[k];
      FirstEndBehind(rows, i, k + 1);
    }
  }

  lemma {:induction false} LastStartBehind(rows: seq<string>, i: nat, k: nat, e: nat)
    requires i <= k <= e <= |rows|
    ensures LastStart(rows[i..], k - i, e - i) == if LastStart(rows, k, e) == -1 then -1 else LastStart(rows, k, e) - i
    decreases e
  {
    if k < e {
      LastStartBehind(rows, i, k, e - 1);
      assert rows[i..][e - 1 - i] == rows[e - 1];
    }
  }

  lemma StepPlain(rows: seq<string>, i: nat)
    requires i < |rows| && Balanced(rows[i..]) && !IsLoop(rows[i])
    ensures Balanced(rows[i + 1..])
    ensures Program(rows[i..]) == Plain(rows[i], Program(rows[i + 1..]))
  {
    assert rows[i..][1..] == rows[i + 1..];
  }

  lemma StepHead(rows: seq<string>, i: nat)
    requires i < |rows| && Balanced(rows[i..]) && IsLoop(rows[i])
    ensures HeadOk(rows[i])
    ensures LoopCount(rows[i]) <= 0 ==> Program(rows[i..]) == Abort(rows[i], rows[i + 1..])
    ensures LoopCount(rows[i]) > 0 ==> LoopOk(rows, i)
  {
    assert rows[i..][1..] == rows[i + 1..];
    if LoopCount(rows[i]) > 0 {
      FirstEndBehind(rows, i, i + 1);
      LastStartBehind(rows, i, i + 1, FirstEnd(rows, i + 1));
    }
  }

  lemma LoopFirst(lines: seq<string>, s: nat, e: nat)
    requires 0 < s < e < |lines| && e == FirstEnd(lines, 1) && s == LastStart(lines, 1, e)
    requires Balanced(lines) && IsLoop(lines[0]) && HeadOk(lines[0]) && LoopCount(lines[0]) > 0
    ensures Balanced(lines[e + 1..])
    ensures var p := Program(lines);
      p.Loop? && p.head == lines[0] && p.body == lines[s + 1..e] && p.next == Program(lines[e + 1..])
  {
    hide IsLoop, HeadOk, LoopCount, IsStart, IsEnd, Flatten, WellFormed;
  }

  /** The loop at row i is one Loop, and behind it the index stands at row e + 1. */
  lemma StepLoop(rows: seq<string>, i: nat, s: nat, e: nat)
    requires i < s < e < |rows| && e == FirstEnd(rows, i + 1) && s == LastStart(rows, i + 1, e)
    requires Balanced(rows[i..]) && IsLoop(rows[i]) && HeadOk(rows[i]) && LoopCount(rows[i]) > 0
    ensures Balanced(rows[e + 1..])
    ensures var p := Program(rows[i..]);
      p.Loop? && p.head == rows[i] && p.body == rows[s + 1..e] && p.next == Program(rows[e + 1..])
  {
    hide Parse, IsLoop, HeadOk, LoopCount, IsStart, IsEnd, Flatten, WellFormed;
    var l := rows[i..];
    FirstEndBehind(rows, i, i + 1);
    LastStartBehind(rows, i, i + 1, e);
    LoopFirst(l, s - i, e - i);
    Slices(rows, i, s + 1, e);
    Slices(rows, i, e + 1, e + 1);
  }

  // ---- Loops as the interpreter sees them ----

  /** The rows the loop runs: none when loopStart is behind loopEnd. */
  function BodyRows(rows: seq<string>, loopStart: int, loopEnd: int): seq<string>
    requires 0 <= loopStart && loopEnd < |rows|
  {
    if loopStart <= loopEnd then rows[loopStart..loopEnd + 1] else []
  }

  /** loopStart after the scan of [i, e): a loop without a start row keeps the old value. */
  function ScannedStart(rows: seq<string>, i: nat, e: nat, loopStart: int): int
    requires i <= e <= |rows|
  {
    var s := LastStart(rows, i, e);
    if s == -1 then loopStart else s + 1
  }

  /** What the loop at row i issues when loopStart still holds `stale` from before. */
  function LoopIssues(rows: seq<string>, i: nat, stale: nat): seq<string>
    requires i < |rows| && HeadOk(rows[i]) && LoopCount(rows[i]) > 0 && FirstEnd(rows, i + 1) < |rows|
  {
    var e := FirstEnd(rows, i + 1);
    Repeat(BodyRows(rows, ScannedStart(rows, i + 1, e, stale), e - 1), LoopCount(rows[i]))
  }

  lemma {:induction false} RepeatLength(body: seq<string>, n: nat)
    ensures |Repeat(body, n)| == n * |body|
  {
    if n > 0 {
      RepeatLength(body, n - 1);
      assert n * |body| == (n - 1) * |body| + |body|;
    }
  }

  /** What an earlier loop left in loopStart is harmless exactly when the loop has a start row. */
  lemma OwnStartRow(rows: seq<string>, i: nat)
    requires i < |rows| && HeadOk(rows[i]) && LoopCount(rows[i]) > 0 && FirstEnd(rows, i + 1) < |rows|
    ensures (forall a: nat, b: nat :: LoopIssues(rows, i, a) == LoopIssues(rows, i, b)) <==> LoopOk(rows, i)
  {
    var e := FirstEnd(rows, i + 1);
    if LastStart(rows, i + 1, e) == -1 {
      RepeatLength(rows[e - 1..e], LoopCount(rows[i]));
      RepeatLength([], LoopCount(rows[i]));
      assert LoopIssues(rows, i, e - 1) != LoopIssues(rows, i, e);
    }
  }

  /** Without a start row of its own, a loop runs again from where an earlier loop started. */
  lemma StaleStart(rows: seq<string>, i: nat, stale: nat)
    requires i < |rows| && HeadOk(rows[i]) && LoopCount(rows[i]) > 0 && FirstEnd(rows, i + 1) < |rows|
    requires !LoopOk(rows, i) && stale <= i
    ensures LoopIssues(rows, i, stale) == Repeat(rows[stale..FirstEnd(rows, i + 1)], LoopCount(rows[i]))
    ensures rows[i] in LoopIssues(rows, i, stale)
  {
    var e := FirstEnd(rows, i + 1);
    var body := rows[stale..e];
    assert body[i - stale] == rows[i];
    assert Repeat(body, LoopCount(rows[i])) == body + Repeat(body, LoopCount(rows[i]) - 1);
  }

  // ---- What is ahead ----

  /**
   With `calls` issued and `count` counted, running the rows from i on gives `total` commands
   and leaves the counter at `final`; `stops` says whether a loop row ends the run.
   */
  ghost predicate Ahead(rows: seq<string>, i: nat, calls: seq<string>, count: int,
                        total: seq<string>, final: int, stops: bool)
  {
    && i <= |rows| && Balanced(rows[i..]) && 0 <= count <= INT_MAX
    && calls + Trace(Program(rows[i..])) == total
    && Counted(count, Runs(Program(rows[i..]))) == final
    && Aborts(Program(rows[i..])) == stops
  }

  lemma AheadAtStart(rows: seq<string>, calls: seq<string>, count: int)
    requires Balanced(rows) && 0 <= count <= INT_MAX
    ensures var p := Program(rows);
      Ahead(rows, 0, calls, count, calls + Trace(p), Counted(count, Runs(p)), Aborts(p))
  {
    assert rows[0..] == rows;
  }

  lemma AheadPlain(rows: seq<string>, i: nat, calls: seq<string>, count: int,
                   total: seq<string>, final: int, stops: bool)
    requires i < |rows| && Ahead(rows, i, calls, count, total, final, stops) && !IsLoop(rows[i])
    ensures Ahead(rows, i + 1, calls + [rows[i]], count, total, final, stops)
  {
    StepPlain(rows, i);
    hide Balanced, WellFormed, Program;
    Regroup(calls, [rows[i]], Trace(Program(rows[i + 1..])));
  }

  lemma AheadBody(rows: seq<string>, i: nat, s: nat, e: nat, calls: seq<string>, count: int,
                  total: seq<string>, final: int, stops: bool)
    requires i < s < e < |rows| && e == FirstEnd(rows, i + 1) && s == LastStart(rows, i + 1, e)
    requires Ahead(rows, i, calls, count, total, final, stops)
    requires IsLoop(rows[i]) && HeadOk(rows[i]) && LoopCount(rows[i]) > 0
    ensures var n := LoopCount(rows[i]);
      Ahead(rows, e + 1, calls + Repeat(rows[s + 1..e], n), Counted(count, if s + 1 == e then 0 else n), total,
        final, stops)
  {
    StepLoop(rows, i, s, e);
    hide Balanced, WellFormed, Program, Repeat, LoopCount, HeadOk, IsLoop;
    Regroup(calls, Repeat(rows[s + 1..e], LoopCount(rows[i])), Trace(Program(rows[e + 1..])));
  }

  lemma AheadLoop(rows: seq<string>, i: nat, loopStart: int, loopEnd: int, stale: int, calls: seq<string>, count: int,
                  total: seq<string>, final: int, stops: bool)
    requires i < |rows| && LoopOk(rows, i) && loopEnd == FirstEnd(rows, i + 1) - 1
    requires loopStart == ScannedStart(rows, i + 1, loopEnd + 1, stale)
    requires Ahead(rows, i, calls, count, total, final, stops)
    requires IsLoop(rows[i]) && HeadOk(rows[i]) && LoopCount(rows[i]) > 0
    ensures 0 <= loopStart && i <= loopEnd < |rows| - 1
    ensures var n := LoopCount(rows[i]);
      Ahead(rows, loopEnd + 2, calls + Repeat(BodyRows(rows, loopStart, loopEnd), n),
            Counted(count, if loopStart <= loopEnd then n else 0), total, final, stops)
  {
    hide Ahead, IsLoop, IsStart, IsEnd, HeadOk, LoopCount, Repeat, Counted, FirstEnd, LastStart;
    AheadBody(rows, i, loopStart - 1, loopEnd + 1, calls, count, total, final, stops);
    assert BodyRows(rows, loopStart, loopEnd) == rows[loopStart..loopEnd + 1];
  }

  lemma AheadHead(rows: seq<string>, i: nat, calls: seq<string>, count: int,
                  total: seq<string>, final: int, stops: bool)
    requires i < |rows| && Ahead(rows, i, calls, count, total, final, stops) && IsLoop(rows[i])
    ensures HeadOk(rows[i])
    ensures if LoopCount(rows[i]) > 0 then LoopOk(rows, i) else calls == total && count == final && stops
  {
    StepHead(rows, i);
  }

  lemma AheadCount(rows: seq<string>, i: nat, calls: seq<string>, count: int,
                   total: seq<string>, final: int, stops: bool)
    requires Ahead(rows, i, calls, count, total, final, stops)
    ensures 0 <= count <= INT_MAX && i <= |rows|
  {
  }

  lemma AheadAtEnd(rows: seq<string>, calls: seq<string>, count: int, total: seq<string>, final: int, stops: bool)
    requires Ahead(rows, |rows|, calls, count, total, final, stops)
    ensures calls == total && count == final && !stops
  {
  }

  // ---- The interpreter ----

  /** Only the counter of slot n may have changed. */
  ghost predicate OthersKept(counts: seq<int>, was: seq<int>, n: nat)
  {
    |counts| == |was| && forall k :: 0 <= k < |was| && k != n ==> counts[k] == was[k]
  }

  lemma SameKept(counts: seq<int>, n: nat)
    ensures OthersKept(counts, counts, n)
  {
  }

  class ScriptRun {
    /** The counters of all script slots. */
    const gScriptCount: array<int>
    /** The lines handed to cmd_proc, in order. */
    var calls: seq<string>

    constructor ()
      ensures fresh(gScriptCount) && gScriptCount.Length == MAX_SCRIPT_THREAD && calls == []
      ensures forall k :: 0 <= k < MAX_SCRIPT_THREAD ==> gScriptCount[k] == 0
    {
      gScriptCount := new int[MAX_SCRIPT_THREAD](_ => 0);
      calls := [];
    }

    method CmdProc(cmdLine: string)
      modifies this`calls
      ensures calls == old(calls) + [cmdLine]
    {
      calls := calls + [cmdLine];
    }

    method SetCountOfScriptRun(scriptNum: nat, value: int)
      requires scriptNum < gScriptCount.Length
      modifies gScriptCount
      ensures gScriptCount[..] == if value < 0 then old(gScriptCount[..]) else old(gScriptCount[..])[scriptNum := value]
    {
      if value < 0 {
        return;
      }
      gScriptCount[scriptNum] := value;
    }

    /** The scan of lines 1056-1068: up to the first end row, noting every start row on the way. */
    method ScanLoop(scriptCmd: array<string>, ghost rows: seq<string>, first: nat, stale: int)
      returns (loopStart: int, loopEnd: int)
      requires rows <= scriptCmd[..] && first <= |rows| && FirstEnd(rows, first) < |rows|
      ensures loopEnd == FirstEnd(rows, first) - 1
      ensures loopStart == ScannedStart(rows, first, FirstEnd(rows, first), stale)
    {
      ghost var e := FirstEnd(rows, first);
      var index := first;
      loopStart := stale;
      while !HasPrefixNoCase(scriptCmd[index], LOOP_END)
        invariant first <= index <= e
        invariant loopStart == ScannedStart(rows, first, index, stale)
        decreases e - index
      {
        assert scriptCmd[index] == rows[index];
        if HasPrefixNoCase(scriptCmd[index], LOOP_START) {
          loopStart := index + 1;
        }
        index := index + 1;
      }
      assert scriptCmd[index] == rows[index];
      loopEnd := index - 1;
    }

    /** One pass over the loop body, lines 1071-1079. */
    method RunBody(scriptCmd: array<string>, ghost rows: seq<string>, loopStart: int, loopEnd: int)
      requires rows <= scriptCmd[..] && 0 <= loopStart <= loopEnd < |rows|
      modifies this`calls
      ensures calls == old(calls) + BodyRows(rows, loopStart, loopEnd)
    {
      if loopStart == loopEnd {
        assert scriptCmd[loopEnd] == rows[loopEnd];
        CmdProc(scriptCmd[loopEnd]);
      } else {
        var index := loopStart;
        while index <= loopEnd
          invariant loopStart <= index <= loopEnd + 1
          invariant calls == old(calls) + rows[loopStart..index]
        {
          assert scriptCmd[index] == rows[index];
          CmdProc(scriptCmd[index]);
          index := index + 1;
        }
      }
    }

    /** The iterations of lines 1069-1084. */
    method RunLoop(scriptNum: nat, scriptCmd: array<string>, ghost rows: seq<string>,
                   loopStart: int, loopEnd: int, times: int)
      requires scriptNum < gScriptCount.Length && 0 <= gScriptCount[scriptNum] <= INT_MAX
      requires rows <= scriptCmd[..] && 0 <= loopStart && loopEnd < |rows| && times > 0
      modifies this`calls, gScriptCount
      ensures calls == old(calls) + Repeat(BodyRows(rows, loopStart, loopEnd), times)
      ensures gScriptCount[scriptNum] == Counted(old(gScriptCount[scriptNum]),
        if loopStart <= loopEnd then times else 0)
      ensures OthersKept(gScriptCount[..], old(gScriptCount[..]), scriptNum)
    {
      ghost var body := BodyRows(rows, loopStart, loopEnd);
      RepeatLength([], times);
      var loopTime := times;
      while loopTime > 0
        invariant 0 <= loopTime <= times && (loopStart > loopEnd ==> loopTime == times)
        invariant calls == old(calls) + Repeat(body, times - loopTime)
        invariant gScriptCount[scriptNum] == Counted(old(gScriptCount[scriptNum]), times - loopTime)
        invariant OthersKept(gScriptCount[..], old(gScriptCount[..]), scriptNum)
      {
        if loopStart > loopEnd {
          break;
        }
        RunBody(scriptCmd, rows, loopStart, loopEnd);
        SetCountOfScriptRun(scriptNum, ToInt32(gScriptCount[scriptNum] + 1));
        RepeatMore(body, times - loopTime);
        loopTime := loopTime - 1;
      }
    }

    /** A loop row with a positive count, lines 1055-1085. */
    method LoopRow(scriptNum: nat, scriptCmd: array<string>, ghost rows: seq<string>, index: nat, loopTime: int,
                   stale: int, ghost total: seq<string>, ghost final: int, ghost stops: bool)
      returns (loopStart: int, loopEnd: nat)
      requires scriptNum < gScriptCount.Length && rows <= scriptCmd[..] && index < |rows|
      requires Ahead(rows, index, calls, gScriptCount[scriptNum], total, final, stops)
      requires IsLoop(rows[index]) && HeadOk(rows[index]) && loopTime == LoopCount(rows[index]) > 0 &&
        LoopOk(rows, index)
      modifies this`calls, gScriptCount
      ensures OthersKept(gScriptCount[..], old(gScriptCount[..]), scriptNum)
      ensures index <= loopEnd && Ahead(rows, loopEnd + 2, calls, gScriptCount[scriptNum], total, final, stops)
    {
      ghost var before, count := calls, gScriptCount[scriptNum];
      AheadCount(rows, index, before, count, total, final, stops);
      hide Ahead, Balanced, IsLoop, HeadOk, LoopCount, Repeat, Counted, ScannedStart, BodyRows, FirstEnd;
      hide IsStart, IsEnd;
      loopStart, loopEnd := ScanLoop(scriptCmd, rows, index + 1, stale);
      AheadLoop(rows, index, loopStart, loopEnd, stale, before, count, total, final, stops);
      RunLoop(scriptNum, scriptCmd, rows, loopStart, loopEnd, loopTime);
    }

    /** One round of the main loop, lines 1046-1097: the row at `index`, or the loop it starts. */
    method Round(scriptNum: nat, scriptCmd: array<string>, ghost rows: seq<string>, index: nat,
                 loopStart: int, loopEnd: int, ghost total: seq<string>, ghost final: int, ghost stops: bool)
      returns (next: nat, loopStart': int, loopEnd': int, aborted: bool)
      requires scriptNum < gScriptCount.Length && rows <= scriptCmd[..] && index < |rows|
      requires Ahead(rows, index, calls, gScriptCount[scriptNum], total, final, stops)
      modifies this`calls, gScriptCount
      ensures OthersKept(gScriptCount[..], old(gScriptCount[..]), scriptNum)
      ensures if aborted then calls == total && gScriptCount[scriptNum] == final && stops else
          index < next && Ahead(rows, next, calls, gScriptCount[scriptNum], total, final, stops)
    {
      hide *;
      ghost var before, count := calls, gScriptCount[scriptNum];
      AheadCount(rows, index, before, count, total, final, stops);
      SameKept(gScriptCount[..], scriptNum);
      next, loopStart', loopEnd', aborted := index, loopStart, loopEnd, false;
      if IsLoop(scriptCmd[index]) {
        AheadHead(rows, index, before, count, total, final, stops);
        var loopTime := LoopCount(scriptCmd[index]);
        if loopTime <= 0 {
          aborted := true;
          return;
        }
        loopStart', loopEnd' := LoopRow(scriptNum, scriptCmd, rows, index, loopTime, loopStart, total, final, stops);
        next := loopEnd' + 1;
      } else {
        AheadPlain(rows, index, before, count, total, final, stops);
        CmdProc(scriptCmd[index]);
      }
      next := next + 1;
    }

    /** The main loop, lines 1041-1098. */
    method Interpret(scriptNum: nat, scriptCmd: array<string>, scriptLineNum: int) returns (aborted: bool)
      requires scriptNum < gScriptCount.Length && 0 <= gScriptCount[scriptNum] <= INT_MAX
      requires -1 <= scriptLineNum < scriptCmd.Length && Balanced(scriptCmd[..scriptLineNum + 1])
      modifies this`calls, gScriptCount
      ensures var p := Program(scriptCmd[..scriptLineNum + 1]);
        && calls == old(calls) + Trace(p)
        && gScriptCount[scriptNum] == Counted(old(gScriptCount[scriptNum]), Runs(p))
        && aborted == Aborts(p)
      ensures OthersKept(gScriptCount[..], old(gScriptCount[..]), scriptNum)
    {
      ghost var rows := scriptCmd[..scriptLineNum + 1];
      ghost var p := Program(rows);
      ghost var total, final, stops := calls + Trace(p), Counted(gScriptCount[scriptNum], Runs(p)), Aborts(p);
      AheadAtStart(rows, calls, gScriptCount[scriptNum]);
      hide Ahead, Program, Balanced, Trace, Runs, Aborts, Counted;
      var index := 0;
      var loopStart: int, loopEnd: int := *, *;  // uninitialised in the source
      aborted := false;
      while index <= scriptLineNum && !aborted
        invariant aborted || (0 <= index <= |rows| && Ahead(rows, index, calls, gScriptCount[scriptNum], total,
          final, stops))
        invariant aborted ==> calls == total && gScriptCount[scriptNum] == final && stops
        invariant OthersKept(gScriptCount[..], old(gScriptCount[..]), scriptNum)
        decreases !aborted, |rows| - index
      {
        index, loopStart, loopEnd, aborted :=
          Round(scriptNum, scriptCmd, rows, index, loopStart, loopEnd, total, final, stops);
        if !aborted {
          AheadCount(rows, index, calls, gScriptCount[scriptNum], total, final, stops);
        }
      }
      if !aborted {
        AheadAtEnd(rows, calls, gScriptCount[scriptNum], total, final, stops);
      }
    }

    /** The whole thread, with the script file's text or None when it cannot be opened. */
    method ScriptCmdProcess(scriptNum: nat, file: Option<string>)
      requires scriptNum < gScriptCount.Length
      requires file.Some? ==> |Load(file.value)| <= MAX_SC_LINE && Balanced(Load(file.value))
      modifies this`calls, gScriptCount
      ensures file == None ==> calls == old(calls) && gScriptCount[scriptNum] == 0
      ensures file.Some? ==> var p := Program(Load(file.value));
        calls == old(calls) + Trace(p) && gScriptCount[scriptNum] == Counted(0, Runs(p))
      ensures OthersKept(gScriptCount[..], old(gScriptCount[..]), scriptNum)
    {
      hide Load, Program, Balanced, Trace, Runs, Aborts, Counted, Reader.Left, Reader.Valid;
      SetCountOfScriptRun(scriptNum, 0);
      if file == None {
        return;
      }
      var scriptFd := new Reader(file.value);
      var scriptCmd := new string[MAX_SC_LINE](_ => "");
      var scriptLineNum := CpScriptContentToArray(scriptFd, scriptCmd);
      ghost var rows := Load(file.value);
      assert scriptCmd[..scriptLineNum + 1] == rows;
      if scriptLineNum == FAILED {
        assert rows == [];
        NoRows();
        return;
      }
      var _ := Interpret(scriptNum, scriptCmd, scriptLineNum);
    }
  }

  lemma NoRows()
    ensures Balanced([]) && Trace(Program([])) == [] && Runs(Program([])) == 0 && Counted(0, 0) == 0
  {
  }

  /** The commands a text issues as a script. */
  method CommandsOf(text: string) returns (calls: seq<string>)
    requires |Load(text)| <= MAX_SC_LINE && Balanced(Load(text))
    ensures calls == Trace(Program(Load(text)))
  {
    var run := new ScriptRun();
    run.ScriptCmdProcess(0, Some(text));
    calls := run.calls;
    assert calls == [] + Trace(Program(Load(text)));
  }

  lemma {:induction false} RepeatMore(body: seq<string>, n: nat)
    ensures Repeat(body, n + 1) == Repeat(body, n) + body
  {
    if n == 0 {
      assert Repeat(body, 1) == body + [];
    } else {
      RepeatMore(body, n - 1);
      Regroup(body, Repeat(body, n - 1), body);
    }
  }
}
