/**
 Config files that run config files: autoConfig (core/src/at_cmdProc.c:317-350) hands every row
 of its file to cmd_proc, which may come back to autoConfig.
 */
module Includes {
  import opened Common
  import opened CStrings
  import opened Tokens
  import opened Commands
  import opened Effects
  import Loader
  import Clients
  import KeyMap
  import Meaning
  import Modes
  import KeyLists
  import Safety
  import Script

  /** The file a line runs, if it runs one. */
  function Included(files: map<string, string>, line: string): Option<string>
  {
    var argv := Argv(line);
    if argv != [] && HandlerOf(argv[0]) == Some(AutoConfig) && |argv| == 2 && FileName(argv[1]) in files
    then Some(FileName(argv[1])) else None
  }

  lemma IncludedByAutoConfig(files: map<string, string>, line: string)
    requires Argv(line) != [] && HandlerOf(Argv(line)[0]) == Some(AutoConfig)
    ensures Included(files, line) ==
      if |Argv(line)| == 2 && FileName(Argv(line)[1]) in files then Some(FileName(Argv(line)[1])) else None
  {
  }

  /** The files include each other without a cycle: every file ranks above those it runs. */
  ghost predicate Ranked(files: map<string, string>, rank: map<string, nat>)
  {
    forall f :: f in files ==> f in rank && RowsBelow(files, rank, Loader.Load(files[f]), rank[f])
  }

  ghost predicate RowsBelow(files: map<string, string>, rank: map<string, nat>, rows: seq<string>, bound: nat)
  {
    forall k :: 0 <= k < |rows| ==> RankOf(files, rank, rows[k]) <= bound
  }

  function RankOf(files: map<string, string>, rank: map<string, nat>, line: string): nat
  {
    match Included(files, line)
    case None => 0
    case Some(f) => if f in rank then rank[f] + 1 else 0
  }

  /** The lines cmd_proc gets to see for one line: the line, then depth first those of its file. */
  ghost function Expand(files: map<string, string>, rank: map<string, nat>, line: string): seq<string>
    requires Ranked(files, rank)
    decreases RankOf(files, rank, line), 0, 0
  {
    [line] + match Included(files, line)
             case None => []
             case Some(f) => ExpandAll(files, rank, Loader.Load(files[f]), rank[f])
  }

  ghost function ExpandAll(files: map<string, string>, rank: map<string, nat>, rows: seq<string>,
    bound: nat): seq<string>
    requires Ranked(files, rank) && RowsBelow(files, rank, rows, bound)
    decreases bound, 1, |rows|
  {
    if rows == [] then []
    else Expand(files, rank, rows[0]) + ExpandAll(files, rank, rows[1..], bound)
  }

  /** Lines one after another. */
  ghost function ExecAll(c: Config, w: World, lines: seq<string>): (w': World)
    requires w.Sized() && Fair(c.kernel)
    ensures w'.Sized() && w'.self == w.self
    decreases lines
  {
    if lines == [] then w else ExecAll(c, Exec(c, w, lines[0]), lines[1..])
  }

  /** A thread that has ended itself runs no more lines. */
  lemma {:induction false} NoMoreLines(c: Config, w: World, lines: seq<string>)
    requires w.Sized() && Fair(c.kernel) && !w.Alive()
    ensures ExecAll(c, w, lines) == w
    decreases lines
  {
    if lines != [] {
      assert Exec(c, w, lines[0]) == w;
      NoMoreLines(c, w, lines[1..]);
    }
  }

  lemma {:induction false} ExecAppend(c: Config, w: World, a: seq<string>, b: seq<string>)
    requires w.Sized() && Fair(c.kernel)
    ensures ExecAll(c, w, a + b) == ExecAll(c, ExecAll(c, w, a), b)
    decreases a
  {
    hide Exec;
    if a == [] {
      assert a + b == b;
    } else {
      assert (a + b)[1..] == a[1..] + b;
      ExecAppend(c, Exec(c, w, a[0]), a[1..], b);
    }
  }

  // ---- Lines the tool can take ----

  /** The arguments of stop that are told apart before gCmdParam[2] is looked at. */
  predicate StopWord(arg: string)
  {
    arg == Modes.PARAM_ALL || arg == Modes.PARAM_TEST || arg == Modes.PARAM_REC
  }

  /**
   With the pointers `params` from earlier lines, the line keeps clear of what the tool does not
   guard against: conversions in its formats, a pointer that is still NULL, slot number 10, and
   a randomKey client too long for its format buffer.
   */
  predicate LineOk(params: seq<int>, line: string)
    requires |params| == MAX_TOKEN
  {
    var argv := Argv(line);
    && NUL !in line && '%' !in line
    && (argv == [] ==> params[0] >= 0)
    && (argv != [] && HandlerOf(argv[0]).Some? ==>
          match HandlerOf(argv[0]).value
          case DelClient => |argv| >= 2 || params[1] >= 0
          case RandomKey => |argv| == 2 ==> |argv[1]| <= 239
          case RunScript => |argv| == 3 ==> Atoi(argv[1]) != MAX_SCRIPT_THREAD
          case Stop =>
            (|argv| == 2 || |argv| == 3) && !StopWord(argv[1]) ==>
              && (|argv| == 2 ==> params[2] >= 0)
              && (ThirdRead(params, line) == Modes.PARAM_SC ==> Atoi(argv[1]) != MAX_SCRIPT_THREAD)
          case _ => true)
  }

  /** Lines one after another, each fit for the pointers it comes to, if it comes to be run. */
  ghost predicate Fit(c: Config, w: World, lines: seq<string>)
    requires w.Sized() && Fair(c.kernel)
    decreases lines
  {
    lines == [] || !w.Alive() || (LineOk(w.params, lines[0]) && Fit(c, Exec(c, w, lines[0]), lines[1..]))
  }

  lemma {:induction false} FitAppend(c: Config, w: World, a: seq<string>, b: seq<string>)
    requires w.Sized() && Fair(c.kernel)
    ensures Fit(c, w, a + b) <==> Fit(c, w, a) && Fit(c, ExecAll(c, w, a), b)
    decreases a
  {
    hide LineOk, Exec;
    if a == [] {
      assert a + b == b;
    } else {
      assert (a + b)[1..] == a[1..] + b;
      FitAppend(c, Exec(c, w, a[0]), a[1..], b);
      if !w.Alive() {
        NoMoreLines(c, w, a);
      }
    }
  }

  /** A line that makes cmd_proc call itself once more, through randomKey. */
  function Weight(line: string): (n: nat)
    ensures n <= 1
  {
    var argv := Argv(line);
    if argv != [] && HandlerOf(argv[0]) == Some(RandomKey) then 1 else 0
  }

  // ---- The line randomKey makes ----

  /** It is a line like any other, runs no file, and its effect is ioevt's. */
  lemma KeyLineIsPlain(c: Config, rank: map<string, nat>, w: World, client: string, key: nat)
    requires w.Sized() && Fair(c.kernel) && Ranked(c.files, rank) && w.Alive()
    ensures Exec(c, w, KeyLine(client, key)) == KeyLineEffect(c, w, client, key)
    ensures Expand(c.files, rank, KeyLine(client, key)) == [KeyLine(client, key)]
    ensures RankOf(c.files, rank, KeyLine(client, key)) == 0 && Weight(KeyLine(client, key)) == 0
  {
    Safety.KeyLineIsIoevt(client, key);
    IoevtIsFound();
    hide KeyLine, Argv, HandlerOf, IoevtMsg, Send, Ranked, FieldStarts, ThirdRead;
    assert [KeyLine(client, key)] + [] == [KeyLine(client, key)];
  }

  lemma KeyLineOk(params: seq<int>, client: string, key: nat)
    requires Tokens.IsToken(client, ' ') && NUL !in client && '%' !in client && |client| <= 239 && KeyMap.Populated(key)
    requires |params| == MAX_TOKEN
    ensures LineOk(params, KeyLine(client, key)) && |KeyLine(client, key)| < Loader.MAX_CMD_LEN
  {
    Safety.KeyLineIsIoevt(client, key);
    Safety.KeyLineTokens(client, key);
    KeyLists.KeyTexts(key);
    IoevtIsFound();
    hide Argv, HandlerOf, KeyMap.KeyAt, KeyMap.Populated, ThirdRead;
  }

  /** All that randomKey's way back into cmd_proc needs. */
  lemma KeyLineReturns(c: Config, rank: map<string, nat>, w: World, params: seq<int>, line: string, client: string,
                       key: nat)
    requires w.Sized() && Fair(c.kernel) && Ranked(c.files, rank) && KeyMap.Populated(key) && |params| == MAX_TOKEN
    requires w.Alive()
    requires LineOk(params, line) && Argv(line) != [] && HandlerOf(Argv(line)[0]) == Some(RandomKey)
    requires |Argv(line)| == 2 && Argv(line)[1] == client
    ensures Fit(c, w, Expand(c.files, rank, KeyLine(client, key))) && |KeyLine(client, key)| < Loader.MAX_CMD_LEN
    ensures ExecAll(c, w, Expand(c.files, rank, KeyLine(client, key))) == KeyLineEffect(c, w, client, key)
    ensures RankOf(c.files, rank, KeyLine(client, key)) == 0 && Weight(KeyLine(client, key)) == 0 && Weight(line) == 1
  {
    KeyLineIsPlain(c, rank, w, client, key);
    Tokens.FieldsKeepOut(line, C_SPACE, NUL);
    Tokens.FieldsKeepOut(line, C_SPACE, '%');
    assert client in Argv(line);
    KeyLineOk(w.params, client, key);
    hide Ranked, KeyLine, Exec, KeyLineEffect, HandlerOf, LineOk;
    var k := KeyLine(client, key);
    assert ExecAll(c, w, [k]) == ExecAll(c, Exec(c, w, k), []);
    assert [k][1..] == [];
  }

  // ---- One step of the expansion ----

  lemma ExpandRow(c: Config, rank: map<string, nat>, w: World, row: string, rest: seq<string>, bound: nat)
    requires w.Sized() && Fair(c.kernel) && Ranked(c.files, rank) && RowsBelow(c.files, rank, [row] + rest, bound)
    ensures RowsBelow(c.files, rank, rest, bound) && RankOf(c.files, rank, row) <= bound
    ensures ExpandAll(c.files, rank, [row] + rest, bound) == Expand(c.files, rank, row) + ExpandAll(c.files,
      rank, rest, bound)
    ensures ExecAll(c, w, ExpandAll(c.files, rank, [row] + rest, bound)) ==
      ExecAll(c, ExecAll(c, w, Expand(c.files, rank, row)), ExpandAll(c.files, rank, rest, bound))
  {
    var rows := [row] + rest;
    hide RankOf, Ranked;
    assert rows[0] == row;
    assert forall k :: 0 <= k < |rest| ==> rest[k] == rows[k + 1];
    assert rows[1..] == rest;
    ExecAppend(c, w, Expand(c.files, rank, row), ExpandAll(c.files, rank, rest, bound));
  }

  // ---- autoConfig's loop ----

  /** With `rows` still to come, the rest of the run leads to `final`, and every line of it is fit. */
  ghost predicate RowsRunning(c: Config, rank: map<string, nat>, w: World, rows: seq<string>, bound: nat, final: World)
  {
    && w.Sized() && Fair(c.kernel) && Ranked(c.files, rank) && RowsBelow(c.files, rank, rows, bound)
    && ExecAll(c, w, ExpandAll(c.files, rank, rows, bound)) == final
    && Fit(c, w, ExpandAll(c.files, rank, rows, bound))
  }

  lemma RowsDone(c: Config, rank: map<string, nat>, w: World, bound: nat, final: World)
    requires RowsRunning(c, rank, w, [], bound, final)
    ensures w == final
  {
  }

  /** The rows left when the thread has ended itself make no difference. */
  lemma RowsCutShort(c: Config, rank: map<string, nat>, w: World, rows: seq<string>, bound: nat, final: World)
    requires RowsRunning(c, rank, w, rows, bound, final) && !w.Alive()
    ensures w == final
  {
    NoMoreLines(c, w, ExpandAll(c.files, rank, rows, bound));
  }

  lemma NextRow(c: Config, rank: map<string, nat>, w: World, row: string, rest: seq<string>, bound: nat, final: World)
    requires RowsRunning(c, rank, w, [row] + rest, bound, final)
    ensures Ranked(c.files, rank) && w.Sized() && Fair(c.kernel)
    ensures RankOf(c.files, rank, row) <= bound && Fit(c, w, Expand(c.files, rank, row))
    ensures RowsRunning(c, rank, ExecAll(c, w, Expand(c.files, rank, row)), rest, bound, final)
  {
    ExpandRow(c, rank, w, row, rest, bound);
    hide Ranked, RowsBelow, Expand, ExpandAll, ExecAll, Fit, RankOf, Fair;
    FitAppend(c, w, Expand(c.files, rank, row), ExpandAll(c.files, rank, rest, bound));
  }

  /** The rows to come are those `left` in the file. */
  ghost predicate Running(c: Config, rank: map<string, nat>, w: World, left: string, bound: nat, final: World)
  {
    RowsRunning(c, rank, w, Loader.Load(left), bound, final)
  }

  lemma RunningAtEnd(c: Config, rank: map<string, nat>, w: World, bound: nat, final: World)
    requires Running(c, rank, w, "", bound, final)
    ensures w == final
  {
    RowsDone(c, rank, w, bound, final);
  }

  lemma RunningCutShort(c: Config, rank: map<string, nat>, w: World, left: string, bound: nat, final: World)
    requires Running(c, rank, w, left, bound, final) && !w.Alive()
    ensures w == final
  {
    RowsCutShort(c, rank, w, Loader.Load(left), bound, final);
  }

  lemma RunningSkips(c: Config, rank: map<string, nat>, w: World, chunk: string, left: string, bound: nat,
                     final: World)
    requires Loader.IsChunk(chunk, left) && Running(c, rank, w, chunk + left, bound, final)
    requires Loader.RowOf(chunk) == None
    ensures Running(c, rank, w, left, bound, final)
  {
    hide RowsRunning;
    Loader.LoadChunk(chunk, left);
    assert [] + Loader.Load(left) == Loader.Load(left);
  }

  lemma RunningRow(c: Config, rank: map<string, nat>, w: World, chunk: string, left: string, bound: nat, final: World)
    requires Loader.IsChunk(chunk, left) && Running(c, rank, w, chunk + left, bound, final)
    requires Loader.RowOf(chunk).Some?
    ensures var row := Loader.RowOf(chunk).value;
      && Ranked(c.files, rank) && w.Sized() && Fair(c.kernel)
      && RankOf(c.files, rank, row) <= bound && Fit(c, w, Expand(c.files, rank, row))
      && Running(c, rank, ExecAll(c, w, Expand(c.files, rank, row)), left, bound, final)
  {
    hide RowsRunning, Ranked, RankOf, Fit, Expand, ExecAll, Fair;
    Loader.LoadChunk(chunk, left);
    NextRow(c, rank, w, Loader.RowOf(chunk).value, Loader.Load(left), bound, final);
  }

  /** A line that runs a file: its own share, then the rows of the file. */
  lemma RunningStarts(c: Config, rank: map<string, nat>, w: World, line: string)
    requires w.Sized() && Fair(c.kernel) && Ranked(c.files, rank) && Fit(c, w, Expand(c.files, rank, line))
    requires Included(c.files, line).Some?
    ensures var f := Included(c.files, line).value;
      && f in c.files && f in rank && RankOf(c.files, rank, line) == rank[f] + 1
      && Running(c, rank, Exec(c, w, line), c.files[f], rank[f], ExecAll(c, w, Expand(c.files, rank, line)))
  {
    var f := Included(c.files, line).value;
    var tail := ExpandAll(c.files, rank, Loader.Load(c.files[f]), rank[f]);
    assert Expand(c.files, rank, line) == [line] + tail;
    hide LineOk, Exec, Expand, ExpandAll, RowsBelow, Argv, HandlerOf, Included, Loader.Load;
    assert ([line] + tail)[1..] == tail && ([line] + tail)[0] == line;
  }

  /** A line that runs no file is all of its expansion. */
  lemma RunsNoFile(c: Config, rank: map<string, nat>, w: World, line: string)
    requires w.Sized() && Fair(c.kernel) && Ranked(c.files, rank) && Fit(c, w, Expand(c.files, rank, line))
    ensures w.Alive() ==> LineOk(w.params, line)
    ensures Included(c.files, line) == None ==> ExecAll(c, w, Expand(c.files, rank, line)) == Exec(c, w, line)
  {
    hide LineOk, Exec, Included, Ranked;
    assert line == Expand(c.files, rank, line)[0];
    if Included(c.files, line) == None {
      assert Expand(c.files, rank, line) == [line];
      assert ExecAll(c, w, [line]) == ExecAll(c, Exec(c, w, line), []);
    }
  }

  // ---- A config file as a script ----

  /** What a script issues are rows of it. */
  lemma {:induction false} TraceInRows(p: Script.Prog, row: string)
    requires row in Meaning.Trace(p)
    ensures row in Script.Flatten(p)
  {
    hide Script.Times, Meaning.Repeat;
    match p
    case Done =>
    case Plain(cmd, next) =>
      if row != cmd {
        TraceInRows(next, row);
      }
    case Loop(head, skipped, begin, body, end, next) =>
      if row in Meaning.Trace(next) {
        TraceInRows(next, row);
      } else {
        InRepeat(body, Script.Times(head), row);
        InLoopRows(head, skipped, begin, body, end, row);
      }
    case Abort(head, unread) =>
  }

  lemma {:induction false} InRepeat(body: seq<string>, n: nat, row: string)
    requires row in Meaning.Repeat(body, n)
    ensures row in body
    decreases n
  {
    if n > 0 && row !in body {
      InRepeat(body, n - 1, row);
    }
  }

  lemma InLoopRows(head: string, skipped: seq<string>, begin: string, body: seq<string>, end: string, row: string)
    requires row in body
    ensures row in Script.LoopRows(head, skipped, begin, body, end)
  {
  }

  lemma TraceBelow(files: map<string, string>, rank: map<string, nat>, rows: seq<string>, bound: nat)
    requires Script.Balanced(rows) && RowsBelow(files, rank, rows, bound)
    ensures RowsBelow(files, rank, Meaning.Trace(Meaning.Program(rows)), bound)
  {
    var trace := Meaning.Trace(Meaning.Program(rows));
    Script.FlattenParse(rows);
    hide RankOf, Meaning.Trace;
    forall k | 0 <= k < |trace| ensures RankOf(files, rank, trace[k]) <= bound {
      TraceInRows(Meaning.Program(rows), trace[k]);
    }
  }

  /** The world after the commands a text issues as a script have been handed to cmd_proc one by one. */
  ghost function AsScript(c: Config, rank: map<string, nat>, w: World, text: string, bound: nat): (w': World)
    requires w.Sized() && Fair(c.kernel) && Ranked(c.files, rank) && Script.Balanced(Loader.Load(text))
    requires RowsBelow(c.files, rank, Loader.Load(text), bound)
    ensures w'.Sized() && w'.self == w.self
  {
    TraceBelow(c.files, rank, Loader.Load(text), bound);
    ExecAll(c, w, ExpandAll(c.files, rank, Meaning.Trace(Meaning.Program(Loader.Load(text))), bound))
  }

  /** The world after autoConfig has handed it the rows of the text. */
  ghost function AsConfig(c: Config, rank: map<string, nat>, w: World, text: string, bound: nat): (w': World)
    requires w.Sized() && Fair(c.kernel) && Ranked(c.files, rank)
    requires RowsBelow(c.files, rank, Loader.Load(text), bound)
    ensures w'.Sized() && w'.self == w.self
  {
    ExecAll(c, w, ExpandAll(c.files, rank, Loader.Load(text), bound))
  }

  /** A line is on record before anything it does. */
  lemma LogStarts(c: Config, w: World, line: string)
    requires w.Sized() && Fair(c.kernel)
    ensures if w.Alive() then w.log + [line] <= Exec(c, w, line).log else Exec(c, w, line) == w
  {
    var argv := Argv(line);
    hide Argv, HandlerOf, FieldStarts, ThirdRead, Modes.Start, Modes.Stop, Clients.Add, Clients.ChangeIp, Clients.Del;
    hide IoevtMsg, CallMsg, SyslogMsg, HideFeatureMsg, Modes.CanRun, Modes.RunScript, Atoi, KeyLine, KeyIndex;
  }

  lemma {:induction false} LogGrows(c: Config, w: World, lines: seq<string>)
    requires w.Sized() && Fair(c.kernel)
    ensures w.log <= ExecAll(c, w, lines).log
    ensures lines != [] && w.Alive() ==> w.log + [lines[0]] <= ExecAll(c, w, lines).log
    decreases lines
  {
    hide Exec;
    if lines != [] {
      LogStarts(c, w, lines[0]);
      LogGrows(c, Exec(c, w, lines[0]), lines[1..]);
    }
  }

  /** For a thread that is there to the end, the record tells which lines were handed to cmd_proc. */
  lemma {:induction false} LogTellsLines(c: Config, w: World, a: seq<string>, b: seq<string>)
    requires w.Sized() && Fair(c.kernel) && ExecAll(c, w, a) == ExecAll(c, w, b) && ExecAll(c, w, a).Alive()
    ensures a == b
    decreases |a|
  {
    hide Exec;
    if !w.Alive() {
      NoMoreLines(c, w, a);
      assert false;
    }
    LogGrows(c, w, a);
    LogGrows(c, w, b);
    if a != [] && b != [] {
      SameAt(w.log, a[0], b[0], ExecAll(c, w, a).log);
      LogTellsLines(c, Exec(c, w, a[0]), a[1..], b[1..]);
      assert a == [a[0]] + a[1..] && b == [b[0]] + b[1..];
    }
  }

  lemma SameAt(log: seq<string>, x: string, y: string, longer: seq<string>)
    requires log + [x] <= longer && log + [y] <= longer
    ensures x == y
  {
    assert longer[|log|] == (log + [x])[|log|] == x;
    assert longer[|log|] == (log + [y])[|log|] == y;
  }

  /** An expansion tells which rows it came from: every row stands in front of what it runs. */
  lemma {:induction false} ExpansionTellsRows(files: map<string, string>, rank: map<string, nat>, a: seq<string>,
                                              b: seq<string>, bound: nat)
    requires Ranked(files, rank) && RowsBelow(files, rank, a, bound) && RowsBelow(files, rank, b, bound)
    requires ExpandAll(files, rank, a, bound) == ExpandAll(files, rank, b, bound)
    ensures a == b
    decreases |a|
  {
    if a != [] && b != [] {
      ExpandedRow(files, rank, a, bound);
      ExpandedRow(files, rank, b, bound);
      hide Ranked, RowsBelow, Expand, ExpandAll;
      var x, y := Expand(files, rank, a[0]), ExpandAll(files, rank, a[1..], bound);
      assert a[0] == b[0];
      assert (x + y)[|x|..] == y;
      assert (x + ExpandAll(files, rank, b[1..], bound))[|x|..] == ExpandAll(files, rank, b[1..], bound);
      ExpansionTellsRows(files, rank, a[1..], b[1..], bound);
      assert a == [a[0]] + a[1..] && b == [b[0]] + b[1..];
    } else {
      NotEmptied(files, rank, a, bound);
      NotEmptied(files, rank, b, bound);
    }
  }

  lemma ExpandedRow(files: map<string, string>, rank: map<string, nat>, rows: seq<string>, bound: nat)
    requires Ranked(files, rank) && RowsBelow(files, rank, rows, bound) && rows != []
    ensures RowsBelow(files, rank, rows[1..], bound)
    ensures ExpandAll(files, rank, rows, bound) == Expand(files, rank, rows[0]) + ExpandAll(files, rank, rows[1..],
      bound)
    ensures ExpandAll(files, rank, rows, bound) != [] && ExpandAll(files, rank, rows, bound)[0] == rows[0]
    ensures Expand(files, rank, rows[0]) != []
  {
    hide Ranked, RankOf;
    assert Expand(files, rank, rows[0])[0] == rows[0];
  }

  /** Rows expand in their order, each to its own lines. */
  lemma {:induction false} RowsInOrder(files: map<string, string>, rank: map<string, nat>, a: seq<string>,
                                       b: seq<string>, bound: nat)
    requires Ranked(files, rank) && RowsBelow(files, rank, a, bound) && RowsBelow(files, rank, b, bound)
    ensures RowsBelow(files, rank, a + b, bound)
    ensures ExpandAll(files, rank, a + b, bound) == ExpandAll(files, rank, a, bound) + ExpandAll(files, rank, b, bound)
    decreases |a|
  {
    hide *;
    BothBelow(files, rank, a, b, bound);
    if a == [] {
      NotEmptied(files, rank, a, bound);
      assert a + b == b;
    } else {
      var rows := a + b;
      FirstOfBoth(a, b);
      ExpandedRow(files, rank, a, bound);
      ExpandedRow(files, rank, rows, bound);
      RowsInOrder(files, rank, a[1..], b, bound);
      Regroup(Expand(files, rank, a[0]), ExpandAll(files, rank, a[1..], bound), ExpandAll(files, rank, b, bound));
    }
  }

  lemma FirstOfBoth(a: seq<string>, b: seq<string>)
    requires a != []
    ensures a + b != [] && (a + b)[0] == a[0] && (a + b)[1..] == a[1..] + b
  {
  }

  lemma OneRow(files: map<string, string>, rank: map<string, nat>, row: string, bound: nat)
    requires Ranked(files, rank) && RowsBelow(files, rank, [row], bound)
    ensures ExpandAll(files, rank, [row], bound) == Expand(files, rank, row)
  {
    hide Ranked, Expand, RowsBelow;
    ExpandedRow(files, rank, [row], bound);
    assert Expand(files, rank, row) + [] == Expand(files, rank, row);
  }

  lemma BothBelow(files: map<string, string>, rank: map<string, nat>, a: seq<string>, b: seq<string>, bound: nat)
    requires RowsBelow(files, rank, a, bound) && RowsBelow(files, rank, b, bound)
    ensures RowsBelow(files, rank, a + b, bound)
  {
    hide RankOf;
  }

  /** Rows that run no file expand to themselves. */
  lemma {:induction false} PlainRows(files: map<string, string>, rank: map<string, nat>, rows: seq<string>, bound: nat)
    requires Ranked(files, rank) && RowsBelow(files, rank, rows, bound)
    requires forall row :: row in rows ==> Included(files, row).None?
    ensures ExpandAll(files, rank, rows, bound) == rows
    decreases |rows|
  {
    hide Ranked, Included, ExpandAll, RankOf;
    NotEmptied(files, rank, rows, bound);
    if rows != [] {
      ExpandedRow(files, rank, rows, bound);
      hide RowsBelow;
      assert Expand(files, rank, rows[0]) == [rows[0]] by {
        assert rows[0] in rows;
      }
      PlainRows(files, rank, rows[1..], bound);
      assert rows == [rows[0]] + rows[1..];
    }
  }

  lemma NotEmptied(files: map<string, string>, rank: map<string, nat>, rows: seq<string>, bound: nat)
    requires Ranked(files, rank) && RowsBelow(files, rank, rows, bound)
    ensures rows != [] ==> ExpandAll(files, rank, rows, bound) != []
    ensures rows == [] ==> ExpandAll(files, rank, rows, bound) == []
  {
    if rows != [] {
      ExpandedRow(files, rank, rows, bound);
    }
  }

  /**
   A text run by autoConfig and the same text run as a script leave the same world when no row of
   it starts with `loop`, and only then, unless a row of it ends the thread that runs it.
   */
  lemma ConfigIsScript(c: Config, rank: map<string, nat>, w: World, text: string, bound: nat)
    requires w.Sized() && Fair(c.kernel) && Ranked(c.files, rank) && Script.Balanced(Loader.Load(text))
    requires RowsBelow(c.files, rank, Loader.Load(text), bound)
    ensures Meaning.LoopFree(Loader.Load(text)) ==>
      AsConfig(c, rank, w, text, bound) == AsScript(c, rank, w, text, bound)
    ensures AsConfig(c, rank, w, text, bound) == AsScript(c, rank, w, text, bound) ==>
      AsConfig(c, rank, w, text, bound).Alive() ==> Meaning.LoopFree(Loader.Load(text))
  {
    var rows := Loader.Load(text);
    var trace := Meaning.Trace(Meaning.Program(rows));
    TraceBelow(c.files, rank, rows, bound);
    Meaning.OwnTrace(rows);
    hide Loader.Load, Meaning.Trace, Meaning.Program, Script.Balanced, Ranked, RowsBelow, ExpandAll, ExecAll, Fair;
    hide Meaning.LoopFree;
    if AsConfig(c, rank, w, text, bound) == AsScript(c, rank, w, text, bound)
      && AsConfig(c, rank, w, text, bound).Alive()
    {
      LogTellsLines(c, w, ExpandAll(c.files, rank, rows, bound), ExpandAll(c.files, rank, trace, bound));
      ExpansionTellsRows(c.files, rank, rows, trace, bound);
    }
  }

  /** The world after a line that runs a file is that of its rows handed to cmd_proc. */
  lemma LineRunsFile(c: Config, rank: map<string, nat>, w: World, line: string)
    requires w.Sized() && Fair(c.kernel) && Ranked(c.files, rank) && Included(c.files, line).Some?
    ensures var f := Included(c.files, line).value;
      && f in c.files && f in rank && RowsBelow(c.files, rank, Loader.Load(c.files[f]), rank[f])
      && ExecAll(c, w, Expand(c.files, rank, line)) == AsConfig(c, rank, Exec(c, w, line), c.files[f], rank[f])
  {
    var f := Included(c.files, line).value;
    var tail := ExpandAll(c.files, rank, Loader.Load(c.files[f]), rank[f]);
    assert Expand(c.files, rank, line) == [line] + tail;
    hide Exec, Expand, ExpandAll, RowsBelow, Argv, HandlerOf, Included, Loader.Load;
    assert ([line] + tail)[1..] == tail && ([line] + tail)[0] == line;
  }
}
