/**
 One script thread as a state machine.  A step runs up to and including the next cmd_proc call
 (core/src/at_cmdProc.c:1041-1098); other threads may run between two steps.
 */
module Threads {
  import opened CStrings
  import opened Script
  import opened Meaning
  import opened Interpreter

  datatype Pc = AtRow | InBody | Exited

  /** The locals of scriptCmdProcess, and where it stands. */
  datatype Thread = Thread(pc: Pc, index: nat, loopTime: int, loopStart: int, loopEnd: int)

  /** What one step does: the state behind it, the line it issues, the iterations it completes. */
  datatype Step = Step(next: Thread, issued: seq<string>, counted: nat)

  /** The state right after the rows are loaded; the locals hold arbitrary values. */
  predicate Initial(t: Thread)
  {
    t.pc == AtRow && t.index == 0
  }

  /** The scripts' arrays are read in bounds, and loopStart and loopEnd belong to this loop. */
  predicate Good(rows: seq<string>, t: Thread)
  {
    match t.pc
    case AtRow => t.index <= |rows| && Balanced(rows[t.index..])
    case InBody =>
      && 0 <= t.loopStart <= t.index <= t.loopEnd && t.loopEnd + 2 <= |rows|
      && t.loopTime > 0 && Balanced(rows[t.loopEnd + 2..])
    case Exited => true
  }

  function EnterLoop(rows: seq<string>, t: Thread): Thread
    requires t.index < |rows| && HeadOk(rows[t.index]) && LoopOk(rows, t.index)
  {
    var loopEnd := FirstEnd(rows, t.index + 1) - 1;
    var loopStart := ScannedStart(rows, t.index + 1, loopEnd + 1, t.loopStart);
    var loopTime := LoopCount(rows[t.index]);
    if loopStart <= loopEnd then Thread(InBody, loopStart, loopTime, loopStart, loopEnd)
    else Thread(AtRow, loopEnd + 2, loopTime, loopStart, loopEnd)
  }

  lemma GoodHead(rows: seq<string>, t: Thread)
    requires Good(rows, t) && t.pc == AtRow && t.index < |rows| && IsLoop(rows[t.index])
    ensures HeadOk(rows[t.index]) && (LoopCount(rows[t.index]) > 0 ==> LoopOk(rows, t.index))
  {
    StepHead(rows, t.index);
  }

  function StepOf(rows: seq<string>, t: Thread): Step
    requires Good(rows, t) && t.pc != Exited
  {
    if t.pc == InBody then
      var line := [rows[t.index]];
      if t.index < t.loopEnd then Step(t.(index := t.index + 1), line, 0)
      else if t.loopTime > 1 then Step(t.(index := t.loopStart, loopTime := t.loopTime - 1), line, 1)
      else Step(t.(pc := AtRow, index := t.loopEnd + 2, loopTime := 0), line, 1)
    else if t.index == |rows| then Step(t.(pc := Exited), [], 0)
    else if !IsLoop(rows[t.index]) then Step(t.(index := t.index + 1), [rows[t.index]], 0)
    else
      GoodHead(rows, t);
      if LoopCount(rows[t.index]) <= 0 then Step(t.(pc := Exited), [], 0)
      else Step(EnterLoop(rows, t), [], 0)
  }

  // ---- What a thread still has to do ----

  /** The lines the loop the thread is in will still issue. */
  function BodyRest(rows: seq<string>, t: Thread): seq<string>
    requires t.pc == InBody && Good(rows, t)
  {
    rows[t.index..t.loopEnd + 1] + Repeat(rows[t.loopStart..t.loopEnd + 1], t.loopTime - 1)
  }

  /** The lines the thread will issue from here on. */
  function Rest(rows: seq<string>, t: Thread): seq<string>
    requires Good(rows, t)
  {
    match t.pc
    case AtRow => Trace(Program(rows[t.index..]))
    case InBody =>
      BodyRest(rows, t) + Trace(Program(rows[t.loopEnd + 2..]))
    case Exited => []
  }

  /** The iterations the thread will complete from here on. */
  function RestRuns(rows: seq<string>, t: Thread): nat
    requires Good(rows, t)
  {
    match t.pc
    case AtRow => Runs(Program(rows[t.index..]))
    case InBody => t.loopTime + Runs(Program(rows[t.loopEnd + 2..]))
    case Exited => 0
  }

  /** The steps a program takes, with the one that ends the thread. */
  function Steps(p: Prog): nat
  {
    match p
    case Done => 1
    case Plain(_, next) => 1 + Steps(next)
    case Loop(head, _, _, body, _, next) => 1 + |Repeat(body, Times(head))| + Steps(next)
    case Abort(_, _) => 1
  }

  function StepsLeft(rows: seq<string>, t: Thread): nat
    requires Good(rows, t)
  {
    match t.pc
    case AtRow => Steps(Program(rows[t.index..]))
    case InBody =>
      |BodyRest(rows, t)| + Steps(Program(rows[t.loopEnd + 2..]))
    case Exited => 0
  }

  /** A step issues the next line of what is ahead, and takes the thread one step nearer its end. */
  ghost predicate Advances(rows: seq<string>, t: Thread, s: Step)
    requires Good(rows, t)
  {
    && Good(rows, s.next)
    && Rest(rows, t) == s.issued + Rest(rows, s.next)
    && RestRuns(rows, t) == s.counted + RestRuns(rows, s.next)
    && StepsLeft(rows, t) == 1 + StepsLeft(rows, s.next)
  }

  lemma BodyStep(rows: seq<string>, t: Thread)
    requires Good(rows, t) && t.pc == InBody
    ensures var s := StepOf(rows, t);
      && s.issued == [rows[t.index]] && Good(rows, s.next)
      && if s.next.pc == InBody then
           && s.next.loopEnd == t.loopEnd && s.next.loopTime == t.loopTime - s.counted
           && BodyRest(rows, t) == [rows[t.index]] + BodyRest(rows, s.next)
         else
           && s.next.pc == AtRow && s.next.index == t.loopEnd + 2 && t.loopTime == s.counted
           && BodyRest(rows, t) == [rows[t.index]]
  {
    hide Balanced;
    var line, tail := [rows[t.index]], rows[t.index + 1..t.loopEnd + 1];
    var body := rows[t.loopStart..t.loopEnd + 1];
    assert rows[t.index..t.loopEnd + 1] == line + tail;
    if t.index < t.loopEnd {
      Regroup(line, tail, Repeat(body, t.loopTime - 1));
    } else {
      assert line + tail == line;
    }
  }

  lemma StaysInBody(rows: seq<string>, t: Thread, s: Step)
    requires Good(rows, t) && t.pc == InBody && Good(rows, s.next) && s.next.pc == InBody
    requires s.next.loopEnd == t.loopEnd && s.next.loopTime == t.loopTime - s.counted
    requires |s.issued| == 1 && BodyRest(rows, t) == s.issued + BodyRest(rows, s.next)
    ensures Advances(rows, t, s)
  {
    hide Balanced, Program, Trace, Runs, Steps, BodyRest;
    Regroup(s.issued, BodyRest(rows, s.next), Trace(Program(rows[t.loopEnd + 2..])));
  }

  lemma LeavesBody(rows: seq<string>, t: Thread, s: Step)
    requires Good(rows, t) && t.pc == InBody && Good(rows, s.next) && s.next.pc == AtRow
    requires s.next.index == t.loopEnd + 2 && t.loopTime == s.counted
    requires |s.issued| == 1 && BodyRest(rows, t) == s.issued
    ensures Advances(rows, t, s)
  {
    hide Good, Balanced, Program, Trace, Runs, Steps, BodyRest;
  }

  lemma BodyAdvances(rows: seq<string>, t: Thread)
    requires Good(rows, t) && t.pc == InBody
    ensures Advances(rows, t, StepOf(rows, t))
  {
    BodyStep(rows, t);
    var s := StepOf(rows, t);
    hide Good, StepOf, Advances, BodyRest;
    if s.next.pc == InBody {
      StaysInBody(rows, t, s);
    } else {
      LeavesBody(rows, t, s);
    }
  }

  lemma EnterAdvances(rows: seq<string>, t: Thread)
    requires Good(rows, t) && t.pc == AtRow && t.index < |rows| && IsLoop(rows[t.index])
    requires HeadOk(rows[t.index]) && LoopCount(rows[t.index]) > 0 && LoopOk(rows, t.index)
    ensures Advances(rows, t, Step(EnterLoop(rows, t), [], 0))
  {
    var n, e := LoopCount(rows[t.index]), FirstEnd(rows, t.index + 1);
    var s := LastStart(rows, t.index + 1, e);
    assert EnterLoop(rows, t) == Entered(n, s, e);
    hide Balanced, IsLoop, IsStart, IsEnd, HeadOk, LoopCount, FirstEnd, LastStart, EnterLoop, Advances, Good;
    StepLoop(rows, t.index, s, e);
    EnterBody(rows, t, n, s, e);
  }

  function Entered(n: int, s: nat, e: nat): Thread
  {
    if s + 1 < e then Thread(InBody, s + 1, n, s + 1, e - 1) else Thread(AtRow, e + 1, n, s + 1, e - 1)
  }

  /** The whole loop and what follows it are ahead of a thread that has just entered it. */
  lemma EnterBody(rows: seq<string>, t: Thread, n: int, s: nat, e: nat)
    requires Good(rows, t) && t.pc == AtRow && t.index < |rows|
    requires s < e < |rows| && Balanced(rows[e + 1..])
    requires var p := Program(rows[t.index..]);
      p.Loop? && Times(p.head) == n > 0 && p.body == rows[s + 1..e] && p.next == Program(rows[e + 1..])
    ensures Advances(rows, t, Step(Entered(n, s, e), [], 0))
  {
    var body := rows[s + 1..e];
    LoopAhead(rows, t, n, body, e);
    EnteredAhead(rows, n, s, e);
    hide Balanced, Program, Trace, Runs, Steps, Times, Repeat, Entered, Rest, RestRuns, StepsLeft;
  }

  lemma LoopAhead(rows: seq<string>, t: Thread, n: int, body: seq<string>, e: nat)
    requires Good(rows, t) && t.pc == AtRow && t.index < |rows| && e < |rows| && Balanced(rows[e + 1..])
    requires var p := Program(rows[t.index..]);
      p.Loop? && Times(p.head) == n > 0 && p.body == body && p.next == Program(rows[e + 1..])
    ensures var next := Program(rows[e + 1..]);
      && Rest(rows, t) == Repeat(body, n) + Trace(next)
      && RestRuns(rows, t) == (if body == [] then 0 else n) + Runs(next)
      && StepsLeft(rows, t) == 1 + |Repeat(body, n)| + Steps(next)
  {
    hide Balanced, Program, Times, Repeat;
  }

  lemma EnteredAhead(rows: seq<string>, n: int, s: nat, e: nat)
    requires n > 0 && s < e < |rows| && Balanced(rows[e + 1..])
    ensures var b, body, next := Entered(n, s, e), rows[s + 1..e], Program(rows[e + 1..]);
      && Good(rows, b)
      && Rest(rows, b) == Repeat(body, n) + Trace(next)
      && RestRuns(rows, b) == (if body == [] then 0 else n) + Runs(next)
      && StepsLeft(rows, b) == |Repeat(body, n)| + Steps(next)
  {
    hide Balanced, Program, Trace, Runs, Steps;
    var body := rows[s + 1..e];
    if s + 1 < e {
      assert BodyRest(rows, Entered(n, s, e)) == Repeat(body, n);
    } else {
      RepeatLength(body, n);
      assert Repeat(body, n) == [];
    }
  }

  /** Every step of a balanced script advances it, and no step reads outside the rows. */
  lemma StepAdvances(rows: seq<string>, t: Thread)
    requires Good(rows, t) && t.pc != Exited
    ensures Advances(rows, t, StepOf(rows, t))
  {
    if t.pc == InBody {
      BodyAdvances(rows, t);
    } else if t.index == |rows| {
      assert rows[t.index..] == [];
    } else if !IsLoop(rows[t.index]) {
      hide Balanced, Program, IsLoop;
      StepPlain(rows, t.index);
    } else {
      LoopAdvances(rows, t);
    }
  }

  lemma LoopAdvances(rows: seq<string>, t: Thread)
    requires Good(rows, t) && t.pc == AtRow && t.index < |rows| && IsLoop(rows[t.index])
    ensures Advances(rows, t, StepOf(rows, t))
  {
    StepHead(rows, t.index);
    hide Balanced, Program, HeadOk, LoopCount, IsLoop, LoopOk, EnterLoop;
    if LoopCount(rows[t.index]) > 0 {
      EnterAdvances(rows, t);
    }
  }

  // ---- A thread on its own ----

  /** Right after loading, the whole script is ahead, whatever the uninitialised locals hold. */
  lemma InitiallyAllAhead(rows: seq<string>, t: Thread)
    requires Balanced(rows) && Initial(t)
    ensures Good(rows, t) && Rest(rows, t) == Trace(Program(rows)) && RestRuns(rows, t) == Runs(Program(rows))
  {
    assert rows[0..] == rows;
  }

  /** The thread after n steps, or at its end. */
  function Alone(rows: seq<string>, t: Thread, n: nat): (t': Thread)
    requires Good(rows, t)
    ensures Good(rows, t')
    decreases n
  {
    if n == 0 || t.pc == Exited then t
    else
      StepAdvances(rows, t);
      Alone(rows, StepOf(rows, t).next, n - 1)
  }

  /** The lines those steps issue. */
  function IssuedAlone(rows: seq<string>, t: Thread, n: nat): seq<string>
    requires Good(rows, t)
    decreases n
  {
    if n == 0 || t.pc == Exited then []
    else
      StepAdvances(rows, t);
      StepOf(rows, t).issued + IssuedAlone(rows, StepOf(rows, t).next, n - 1)
  }

  lemma LeftUntilExit(rows: seq<string>, t: Thread)
    requires Good(rows, t)
    ensures StepsLeft(rows, t) == 0 <==> t.pc == Exited
  {
    hide Balanced, Program;
  }

  /**
   Every balanced script ends: after exactly StepsLeft steps and no sooner, having issued what
   was ahead of it.
   */
  lemma {:induction false} Ends(rows: seq<string>, t: Thread, n: nat)
    requires Good(rows, t)
    ensures Alone(rows, t, n).pc == Exited <==> n >= StepsLeft(rows, t)
    ensures IssuedAlone(rows, t, n) + Rest(rows, Alone(rows, t, n)) == Rest(rows, t)
    decreases n
  {
    hide Good, StepOf, Rest, RestRuns, StepsLeft;
    LeftUntilExit(rows, t);
    if n > 0 && t.pc != Exited {
      StepAdvances(rows, t);
      var s := StepOf(rows, t);
      Ends(rows, s.next, n - 1);
      Regroup(s.issued, IssuedAlone(rows, s.next, n - 1), Rest(rows, Alone(rows, s.next, n - 1)));
    }
  }
}
