/**
 What typed lines do: from the words of a line, under either name of its command, to its effect on
 the registry, the threads, the scripts and the queue (core/src/at_cmdProc.c:229-1006).
 */
module TypedLines {
  import opened Common
  import opened CStrings
  import opened Tokens
  import opened Commands
  import opened Effects
  import opened Includes
  import opened KeyLists
  import Clients
  import KeyMap
  import Loader
  import Modes
  import Safety
  import Threads

  // ---- The words of a line ----

  /** A word, a space, and what follows. */
  function Word(a: string, rest: string): string
  {
    a + " " + rest
  }

  /** More words behind the last one that matters, or none. */
  predicate TailOk(tail: string)
  {
    tail == "" || tail[0] == ' '
  }

  lemma OneArgument(cmd: string, a: string, tail: string)
    requires IsToken(cmd, ' ') && IsToken(a, ' ') && TailOk(tail) && |Word(cmd, a + tail)| <= 255
    ensures var argv := Argv(Word(cmd, a + tail));
      |argv| >= 2 && argv[0] == cmd && argv[1] == a && (tail == "" ==> |argv| == 2)
  {
    hide Split, Starts, IsToken;
    WordFirst(cmd, a + tail, 0);
    SplitHead(a, tail, ' ');
    EmptySplit();
  }

  lemma EmptySplit()
    ensures Split("", ' ') == []
  {
  }

  lemma TwoArguments(cmd: string, a: string, b: string, tail: string)
    requires IsToken(cmd, ' ') && IsToken(a, ' ') && IsToken(b, ' ') && TailOk(tail)
    requires |Word(cmd, Word(a, b + tail))| <= 255
    ensures var argv := Argv(Word(cmd, Word(a, b + tail)));
      |argv| >= 3 && argv[0] == cmd && argv[1] == a && argv[2] == b && (tail == "" ==> |argv| == 3)
  {
    hide Split, Starts, IsToken;
    WordFirst(cmd, Word(a, b + tail), 0);
    WordFirst(a, b + tail, 0);
    SplitHead(b, tail, ' ');
    EmptySplit();
  }

  lemma ThreeArguments(cmd: string, a: string, b: string, d: string, tail: string)
    requires IsToken(cmd, ' ') && IsToken(a, ' ') && IsToken(b, ' ') && IsToken(d, ' ') && TailOk(tail)
    requires |Word(cmd, Word(a, Word(b, d + tail)))| <= 255
    ensures var argv := Argv(Word(cmd, Word(a, Word(b, d + tail))));
      && |argv| >= 4 && argv[0] == cmd && argv[1] == a && argv[2] == b && argv[3] == d
      && (tail == "" ==> |argv| == 4)
  {
    hide Split, Starts, IsToken;
    WordFirst(cmd, Word(a, Word(b, d + tail)), 0);
    WordFirst(a, Word(b, d + tail), 0);
    WordFirst(b, d + tail, 0);
    SplitHead(d, tail, ' ');
    EmptySplit();
  }

  lemma CalledIsToken(h: Handler, cmd: string)
    requires Called(h, cmd)
    ensures IsToken(cmd, ' ') && HandlerOf(cmd) == Some(h) && DoesSomething(h)
  {
    hide EntryOf, SearchFrom, Names, IsToken;
    RunsUnder(cmd, h);
    SearchFinds(cmd);
    NameIsToken(CmdCode(cmd), cmd);
  }

  lemma {:induction false} DigitsAreToken(n: nat)
    ensures ' ' !in Digits(n)
  {
    if n >= 10 {
      DigitsAreToken(n / 10);
    }
  }

  lemma NumberIsToken(n: int)
    ensures IsToken(Decimal(n), ' ')
  {
    DigitsAreToken(if n < 0 then -n else n);
  }

  predicate IsInt(n: int)
  {
    -0x8000_0000 <= n <= 0x7fff_ffff
  }

  lemma ExecIs(c: Config, w: World, line: string, h: Handler)
    requires w.Sized() && Fair(c.kernel) && w.Alive() && Argv(line) != [] && HandlerOf(Argv(line)[0]) == Some(h)
    ensures Exec(c, w, line) == Handle(c, Noted(w, line), h, Argv(line), ThirdRead(w.params, line))
  {
    hide Argv, HandlerOf, Handle, ThirdRead, Fair;
  }

  // ---- Too few words, or too many ----

  /** How many words, the command included, a command acts on. */
  predicate CountOk(h: Handler, n: nat)
  {
    match h
    case AddClient => n >= 3
    case ChangeClientIpAddr => n >= 3
    case DelClient => n >= 2
    case Call => n == 3
    case Ioevt => n == 4
    case SyslogConf => n >= 3
    case HideFeatureProc => n >= 3
    case Start => n == 2
    case Stop => n == 2 || n == 3
    case RunScript => n == 3
    case RandomKey => n == 2
    case AutoConfig => n == 2
    case Quit => true
    case _ => false
  }

  /** Nothing has happened to clients, threads, scripts and queue. */
  predicate Quiet(w: World, w': World)
  {
    && w'.clients == w.clients && w'.threads == w.threads && w'.jobs == w.jobs
    && w'.queue == w.queue && w'.sentAt == w.sentAt
  }

  /** With the wrong number of words a command does nothing, and runs no file. */
  lemma WrongCount(c: Config, w: World, line: string, h: Handler)
    requires w.Sized() && Fair(c.kernel) && w.Alive() && Argv(line) != [] && HandlerOf(Argv(line)[0]) == Some(h)
    requires !CountOk(h, |Argv(line)|)
    ensures Quiet(w, Exec(c, w, line)) && Included(c.files, line) == None
  {
    ExecIs(c, w, line, h);
    hide Argv, HandlerOf, ThirdRead, Fair, Atoi, FieldStarts, Exec;
    hide Clients.Add, Clients.ChangeIp, Clients.Del;
  }

  // ---- Clients ----

  /** Nothing has happened but to the registry. */
  predicate OnlyClients(w: World, w': World)
  {
    w'.threads == w.threads && w'.jobs == w.jobs && w'.queue == w.queue && w'.sentAt == w.sentAt
  }

  /** `add n ip`, whatever follows. */
  lemma AddTyped(c: Config, w: World, cmd: string, n: int, ip: string, tail: string)
    requires w.Sized() && Fair(c.kernel) && w.Alive() && (cmd == "add" || cmd == "ad") && IsInt(n)
    requires IsToken(ip, ' ') && TailOk(tail) && |Word(cmd, Word(Decimal(n), ip + tail))| <= 255
    ensures var w' := Exec(c, w, Word(cmd, Word(Decimal(n), ip + tail)));
      OnlyClients(w, w') && w'.clients == Clients.Add(w.clients, n, ip, c.kernel(w.clock))
  {
    var line := Word(cmd, Word(Decimal(n), ip + tail));
    CalledIsToken(AddClient, cmd);
    NumberIsToken(n);
    AtoiDecimal(n);
    TwoArguments(cmd, Decimal(n), ip, tail);
    ExecIs(c, w, line, AddClient);
    hide Argv, HandlerOf, ThirdRead, Fair, Atoi, FieldStarts, Exec, Clients.Add, Word, IsToken;
  }

  /** `changeIp n ip`. */
  lemma ChangeIpTyped(c: Config, w: World, cmd: string, n: int, ip: string, tail: string)
    requires w.Sized() && Fair(c.kernel) && w.Alive() && (cmd == "changeIp" || cmd == "ci") && IsInt(n)
    requires IsToken(ip, ' ') && TailOk(tail) && |Word(cmd, Word(Decimal(n), ip + tail))| <= 255
    ensures var w' := Exec(c, w, Word(cmd, Word(Decimal(n), ip + tail)));
      OnlyClients(w, w') && w'.clients == Clients.ChangeIp(w.clients, n, ip, c.kernel(w.clock))
  {
    var line := Word(cmd, Word(Decimal(n), ip + tail));
    CalledIsToken(ChangeClientIpAddr, cmd);
    NumberIsToken(n);
    AtoiDecimal(n);
    TwoArguments(cmd, Decimal(n), ip, tail);
    ExecIs(c, w, line, ChangeClientIpAddr);
    hide Argv, HandlerOf, ThirdRead, Fair, Atoi, FieldStarts, Exec, Clients.ChangeIp, Word, IsToken;
  }

  /** `del n`. */
  lemma DelTyped(c: Config, w: World, cmd: string, n: int, tail: string)
    requires w.Sized() && Fair(c.kernel) && w.Alive() && (cmd == "del" || cmd == "dl") && IsInt(n)
    requires TailOk(tail) && |Word(cmd, Decimal(n) + tail)| <= 255
    ensures var w' := Exec(c, w, Word(cmd, Decimal(n) + tail));
      OnlyClients(w, w') && w'.clients == Clients.Del(w.clients, n)
  {
    var line := Word(cmd, Decimal(n) + tail);
    CalledIsToken(DelClient, cmd);
    NumberIsToken(n);
    AtoiDecimal(n);
    OneArgument(cmd, Decimal(n), tail);
    ExecIs(c, w, line, DelClient);
    hide Argv, HandlerOf, ThirdRead, Fair, Atoi, FieldStarts, Exec, Clients.Del, Word, IsToken;
  }

  // ---- Threads ----

  /** Nothing has happened but to the threads. */
  predicate OnlyThreads(w: World, w': World)
  {
    w'.clients == w.clients && w'.jobs == w.jobs && w'.queue == w.queue && w'.sentAt == w.sentAt
  }

  /** `start word`: the first answer says whether there is a queue, the next two are the threads' IDs. */
  lemma StartTyped(c: Config, w: World, cmd: string, word: string)
    requires w.Sized() && Fair(c.kernel) && w.Alive() && (cmd == "start" || cmd == "st")
    requires IsToken(word, ' ') && |Word(cmd, word)| <= 255
    ensures var w', k := Exec(c, w, Word(cmd, word)), c.kernel;
      && OnlyThreads(w, w')
      && w'.threads == Modes.Start(w.threads, 1, word, k(w.clock) != -1, k(w.clock + 1), k(w.clock + 2))
  {
    hide Argv, HandlerOf, ThirdRead, Fair, FieldStarts, Exec, Modes.Start, IsToken;
    CalledIsToken(Start, cmd);
    assert word + "" == word;
    OneArgument(cmd, word, "");
    hide Word;
    ExecIs(c, w, Word(cmd, word), Start);
  }

  /** `stop all`, `stop test` and `stop rec`, with or without a third word. */
  lemma StopTyped(c: Config, w: World, cmd: string, word: string, third: string)
    requires w.Sized() && Fair(c.kernel) && w.Alive() && (cmd == "stop" || cmd == "sp")
    requires word == "all" || word == "test" || word == "rec"
    requires third == "" || (third[0] == ' ' && ' ' !in third[1..])
    requires |third| != 1 && |Word(cmd, word + third)| <= 255
    ensures var w' := Exec(c, w, Word(cmd, word + third));
      OnlyThreads(w, w') && w'.threads == Modes.Stop(w.threads, 1, word, "", w.self)
  {
    hide Argv, HandlerOf, ThirdRead, Fair, Exec, Handle, Modes.Stop, IsToken, Noted, Word;
    CalledIsToken(Stop, cmd);
    var line := Word(cmd, word + third);
    StopWords(cmd, word, third);
    ExecIs(c, w, line, Stop);
    StopHandled(c, Noted(w, line), Argv(line), ThirdRead(w.params, line));
    NotedIs(w, line);
  }

  lemma NotedIs(w: World, line: string)
    requires w.Sized()
    ensures OnlyThreads(w, Noted(w, line)) && Noted(w, line).threads == w.threads && Noted(w, line).self == w.self
  {
    hide FieldStarts;
  }

  lemma StopWords(cmd: string, word: string, third: string)
    requires Called(Stop, cmd) && IsToken(cmd, ' ')
    requires word == "all" || word == "test" || word == "rec"
    requires third == "" || (third[0] == ' ' && ' ' !in third[1..])
    requires |third| != 1 && |Word(cmd, word + third)| <= 255
    ensures var argv := Argv(Word(cmd, word + third));
      (|argv| == 2 || |argv| == 3) && argv[0] == cmd && argv[1] == word
  {
    hide Argv, Called;
    if third == "" {
      OneArgument(cmd, word, third);
    } else {
      assert Word(cmd, Word(word, third[1..] + "")) == Word(cmd, word + third) by {
        assert " " + third[1..] == third;
      }
      TwoArguments(cmd, word, third[1..], "");
    }
  }

  lemma StopHandled(c: Config, w: World, argv: seq<string>, third: string)
    requires w.Sized() && Fair(c.kernel) && (|argv| == 2 || |argv| == 3)
    requires argv[1] == "all" || argv[1] == "test" || argv[1] == "rec"
    ensures var w' := Handle(c, w, Stop, argv, third);
      OnlyThreads(w, w') && w'.threads == Modes.Stop(w.threads, 1, argv[1], "", w.self)
  {
    hide Modes.Stop, Fair;
    SecondIsIdle(w.threads, |argv| - 1, argv[1], third, w.self);
  }

  lemma SecondIsIdle(t: Modes.State, argc: int, word: string, second: string, self: int)
    requires t.Sized() && (argc == 1 || argc == 2) && (word == "all" || word == "test" || word == "rec")
    ensures Modes.Stop(t, argc, word, second, self) == Modes.Stop(t, 1, word, "", self)
  {
  }

  /** `stop n script` stops the script in slot n. */
  lemma StopScriptTyped(c: Config, w: World, cmd: string, n: nat)
    requires w.Sized() && Fair(c.kernel) && w.Alive() && (cmd == "stop" || cmd == "sp") && n <= 9
    ensures var w' := Exec(c, w, Word(cmd, Word(Decimal(n), "script")));
      OnlyThreads(w, w') && w'.threads == Modes.Kill(w.threads, Modes.Runner(n), w.self)
  {
    var line := Word(cmd, Word(Decimal(n), "script"));
    CalledIsToken(Stop, cmd);
    NumberIsToken(n);
    AtoiDecimal(n);
    assert "script" + "" == "script";
    TwoArguments(cmd, Decimal(n), "script", "");
    ExecIs(c, w, line, Stop);
    hide Argv, HandlerOf, Fair, FieldStarts, Exec, Modes.Kill, Modes.StopScripts, Atoi, Word, IsToken;
  }

  /** quit, whatever follows. */
  lemma QuitTyped(c: Config, w: World, cmd: string, tail: string)
    requires w.Sized() && Fair(c.kernel) && w.Alive() && (cmd == "quit" || cmd == "q")
    requires TailOk(tail) && |cmd + tail| <= 255
    ensures var w' := Exec(c, w, cmd + tail);
      OnlyThreads(w, w') && w'.threads == Modes.Quit(w.threads, w.self)
  {
    CalledIsToken(Quit, cmd);
    SplitHead(cmd, tail, ' ');
    assert Argv(cmd + tail) != [] && Argv(cmd + tail)[0] == cmd;
    ExecIs(c, w, cmd + tail, Quit);
    hide Argv, HandlerOf, ThirdRead, Fair, FieldStarts, Exec, Modes.Quit, IsToken;
  }

  // ---- Files ----

  /** What a file name is cut to: its first 59 characters. */
  function Opened(f: string): string
  {
    if |f| <= 59 then f else f[..59]
  }

  /** `runScript n f` runs the rows of that file in slot n. */
  lemma RunScriptTyped(c: Config, w: World, cmd: string, n: int, f: string)
    requires w.Sized() && Fair(c.kernel) && w.Alive() && (cmd == "runScript" || cmd == "rs") && IsInt(n)
    requires IsToken(f, ' ') && |Word(cmd, Word(Decimal(n), f))| <= 255
    ensures var w' := Exec(c, w, Word(cmd, Word(Decimal(n), f)));
      var name := Opened(f);
      var rows := if name in c.files then Some(Loader.Load(c.files[name])) else None;
      && w'.clients == w.clients && w'.queue == w.queue && w'.sentAt == w.sentAt
      && w'.threads == Modes.RunScript(w.threads, 2, n, c.kernel(w.clock), rows)
      && (!Modes.CanRun(w.threads, 2, n, c.kernel(w.clock)) ==> w'.jobs == w.jobs)
      && (Modes.CanRun(w.threads, 2, n, c.kernel(w.clock)) ==>
            && (forall k :: 0 <= k <= 9 && k != n ==> w'.jobs[k] == w.jobs[k])
            && w'.jobs[n].rows == (if rows.Some? then rows.value else []) && w'.jobs[n].issued == []
            && w'.jobs[n].count == 0 && (rows.Some? ==> Threads.Initial(w'.jobs[n].thread)))
  {
    var line := Word(cmd, Word(Decimal(n), f));
    CalledIsToken(RunScript, cmd);
    NumberIsToken(n);
    AtoiDecimal(n);
    assert f + "" == f;
    TwoArguments(cmd, Decimal(n), f, "");
    ExecIs(c, w, line, RunScript);
    assert FileName(f) == Opened(f);
    hide Argv, HandlerOf, ThirdRead, Fair, FieldStarts, Exec, Modes.RunScript, Atoi, Word, IsToken, FileName, Opened;
    hide Loader.Load;
  }

  /**
   With test mode on, the slot free, a thread to be had and the file there, the slot's thread runs
   and reads the rows of exactly that file.
   */
  lemma RunScriptReads(c: Config, w: World, cmd: string, n: int, f: string)
    requires w.Sized() && Fair(c.kernel) && w.Alive() && (cmd == "runScript" || cmd == "rs") && 0 <= n <= 9
    requires IsToken(f, ' ') && |f| < 60 && f in c.files && |Word(cmd, Word(Decimal(n), f))| <= 255
    requires Modes.Tidy(w.threads) && w.threads.sendId != 0 && w.threads.scriptId[n] == 0
    requires c.kernel(w.clock) > 0 && c.kernel(w.clock) !in w.threads.live
    ensures var w' := Exec(c, w, Word(cmd, Word(Decimal(n), f)));
      && Modes.RowsOf(w'.threads, n) == Loader.Load(c.files[f]) == w'.jobs[n].rows
      && Modes.Running(w'.threads, Modes.Runner(n)) && w'.threads.scriptId[n] == c.kernel(w.clock)
      && Threads.Initial(w'.jobs[n].thread)
  {
    hide Exec, Fair, Modes.RunScript, Loader.Load, Modes.Tidy, Word, IsToken, Decimal, Modes.Running, Modes.RowsOf;
    RunScriptTyped(c, w, cmd, n, f);
    assert Opened(f) == f;
    Modes.RunScriptRuns(w.threads, 2, n, c.kernel(w.clock), Some(Loader.Load(c.files[f])));
  }

  lemma RunScriptIsPlain(cmd: string, n: int, f: string)
    requires (cmd == "runScript" || cmd == "rs") && IsToken(f, ' ') && |Word(cmd, Word(Decimal(n), f))| <= 255
    ensures var argv := Argv(Word(cmd, Word(Decimal(n), f)));
      argv != [] && HandlerOf(argv[0]) == Some(RunScript)
  {
    hide IsToken, HandlerOf;
    CalledIsToken(RunScript, cmd);
    NumberIsToken(n);
    assert f + "" == f;
    TwoArguments(cmd, Decimal(n), f, "");
  }

  /** `autoConfig f` runs the rows of that file; with any other name, or none, no file. */
  lemma AutoConfigTyped(c: Config, rank: map<string, nat>, w: World, cmd: string, f: string)
    requires w.Sized() && Fair(c.kernel) && w.Alive() && (cmd == "autoConfig" || cmd == "ac")
    requires IsToken(f, ' ') && |Word(cmd, f)| <= 255 && Ranked(c.files, rank)
    ensures Quiet(w, Exec(c, w, Word(cmd, f)))
    ensures Included(c.files, Word(cmd, f)) == if Opened(f) in c.files then Some(Opened(f)) else None
    ensures Opened(f) !in c.files ==> Expand(c.files, rank, Word(cmd, f)) == [Word(cmd, f)]
    ensures Opened(f) in c.files ==>
      && Opened(f) in rank && RowsBelow(c.files, rank, Loader.Load(c.files[Opened(f)]), rank[Opened(f)])
      && Expand(c.files, rank, Word(cmd, f)) ==
         [Word(cmd, f)] + ExpandAll(c.files, rank, Loader.Load(c.files[Opened(f)]), rank[Opened(f)])
  {
    var line := Word(cmd, f);
    CalledIsToken(AutoConfig, cmd);
    assert f + "" == f;
    OneArgument(cmd, f, "");
    ExecIs(c, w, line, AutoConfig);
    IncludedByAutoConfig(c.files, line);
    assert FileName(f) == Opened(f);
    hide Argv, HandlerOf, ThirdRead, Fair, FieldStarts, Exec, Word, IsToken, FileName, Opened, Included, ExpandAll;
    hide Loader.Load, RowsBelow;
  }

  /** And no other line runs a file. */
  lemma OnlyAutoConfigRunsFiles(files: map<string, string>, line: string)
    requires Included(files, line).Some?
    ensures |Argv(line)| == 2 && (Argv(line)[0] == "autoConfig" || Argv(line)[0] == "ac")
    ensures Included(files, line) == Some(Opened(Argv(line)[1])) && Opened(Argv(line)[1]) in files
  {
    OnlyAutoConfig(Argv(line)[0]);
    hide Argv, HandlerOf;
  }

  // ---- Messages ----

  /** The queue grows by the message, if there is one and the system takes it; nothing else happens. */
  predicate Queued(c: Config, w: World, w': World, m: Option<Msg>)
  {
    && w'.clients == w.clients && w'.threads == w.threads && w'.jobs == w.jobs
    && if m.Some? && c.kernel(w.clock) != -1 then
         w'.queue == w.queue + [m.value] && w'.sentAt == w.sentAt + [w.threads]
       else w'.queue == w.queue && w'.sentAt == w.sentAt
  }

  /** ioevt makes a message exactly with four words, press or long press, a client, test mode and known keys. */
  lemma IoevtMsgIs(argv: seq<string>, sendId: int)
    requires argv != [] && (argv[0] == "ioevt" || argv[0] == "ie")
    ensures IoevtMsg(argv, sendId).Some? <==>
      && |argv| == 4 && (argv[3] == "p" || argv[3] == "l") && 0 <= Atoi(argv[1]) <= 9 && sendId != 0
      && forall t :: t in KeyTokens(argv[2]) ==> KeyMap.SlotOf(t) != -1
    ensures IoevtMsg(argv, sendId).Some? ==>
      var m := IoevtMsg(argv, sendId).value;
      && m.clientNum == Atoi(argv[1]) && m.cmdCode == "ioevt" && m.body.Keys? && m.body.action == argv[3]
      && |m.body.codes| == |KeyTokens(argv[2])|
      && forall i :: 0 <= i < |m.body.codes| ==>
           m.body.codes[i] == KeyMap.KeyAt(KeyMap.SlotOf(KeyTokens(argv[2])[i])).code
  {
    hide KeyTokens, Translate, KeyMap.KeyAt, KeyMap.SlotOf, Atoi;
    if |argv| == 4 {
      TranslatesAllOrNothing(KeyTokens(argv[2]));
    }
  }

  /** A line with ioevt, call, syslog or hideFeature queues the message of its words, or none. */
  lemma SenderTyped(c: Config, w: World, line: string)
    requires w.Sized() && Fair(c.kernel) && w.Alive() && Argv(line) != []
    ensures var argv, w' := Argv(line), Exec(c, w, line);
      && (argv[0] == "ioevt" || argv[0] == "ie" ==> Queued(c, w, w', IoevtMsg(argv, w.threads.sendId)))
      && (argv[0] == "call" ==> Queued(c, w, w', CallMsg(argv, w.threads.sendId)))
      && (argv[0] == "syslog" || argv[0] == "sl" ==>
            Queued(c, w, w', SyslogMsg(argv, w.threads.sendId, c.syslogPort)))
      && (argv[0] == "hideFeature" || argv[0] == "hf" ==> Queued(c, w, w', HideFeatureMsg(argv, w.threads.sendId)))
  {
    hide Argv, HandlerOf, ThirdRead, Fair, FieldStarts, IoevtMsg, CallMsg, SyslogMsg, HideFeatureMsg, Split, Starts;
    IoevtIsFound();
    CallIsFound();
    SyslogIsFound();
    HideFeatureIsFound();
  }

  /** `call n number`: one message for client n with the number. */
  lemma CallTyped(c: Config, w: World, n: int, number: string)
    requires w.Sized() && Fair(c.kernel) && w.Alive() && IsInt(n)
    requires IsToken(number, ' ') && |Word("call", Word(Decimal(n), number))| <= 255
    ensures var w' := Exec(c, w, Word("call", Word(Decimal(n), number)));
      if 0 <= n <= 9 && w.threads.sendId != 0 && c.kernel(w.clock) != -1 then
        && |w'.queue| == |w.queue| + 1 && w'.queue[..|w.queue|] == w.queue
        && var m := w'.queue[|w.queue|];
          m.clientNum == n && m.cmdCode == "call" && m.body.Shared? && FitsShared(m.body.text, number)
      else w'.queue == w.queue
  {
    var line := Word("call", Word(Decimal(n), number));
    CalledIsToken(Call, "call");
    NumberIsToken(n);
    AtoiDecimal(n);
    assert number + "" == number;
    TwoArguments("call", Decimal(n), number, "");
    SenderTyped(c, w, line);
    CallMsgIs(Argv(line), w.threads.sendId);
    hide Argv, HandlerOf, Fair, FieldStarts, Exec, CallMsg, Atoi, Word, IsToken, FitsShared;
  }

  /** `randomKey n` presses the key drawn, on client n. */
  lemma RandomKeyTyped(c: Config, w: World, cmd: string, client: string)
    requires w.Sized() && Fair(c.kernel) && w.Alive() && (cmd == "randomKey" || cmd == "rk")
    requires IsToken(client, ' ') && |client| <= 239 && |Word(cmd, client)| <= 255
    requires 0 <= Atoi(client) <= 9 && w.threads.sendId != 0 && c.kernel(NextHit(c.kernel, w.clock) + 1) != -1
    ensures var w' := Exec(c, w, Word(cmd, client));
      var key := KeyIndex(c.kernel(NextHit(c.kernel, w.clock)));
      && w'.clients == w.clients && w'.threads == w.threads && w'.jobs == w.jobs && KeyMap.Populated(key)
      && w'.queue == w.queue + [Msg(Atoi(client), "ioevt", Keys([KeyMap.KeyAt(key).code], "p"))]
  {
    hide Argv, HandlerOf, ThirdRead, Fair, FieldStarts, Exec, IsToken, Atoi, RandomKeyEffect, KeyIndex;
    hide KeyMap.KeyAt, KeyMap.Populated, IsNextHit, HitFrom, NextHit, Truncate, Split, Starts;
    CalledIsToken(RandomKey, cmd);
    assert client + "" == client;
    OneArgument(cmd, client, "");
    hide Word;
    ExecIs(c, w, Word(cmd, client), RandomKey);
    Safety.RandomKeySendsOneKey(c, Noted(w, Word(cmd, client)), client);
  }
}
