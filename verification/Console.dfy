/**
 cmd_proc and its handlers (core/src/at_cmdProc.c:229-1006) over the globals they share: the
 token buffer, the pointers gCmdParam into it, gParamNum, and the tables of clients and
 threads.  Handlers read their arguments through those pointers; ioevt tokenizes into the same
 buffer again, and randomKey and autoConfig come back to cmd_proc, which overwrites buffer,
 pointers and count.
 */
module Console {
  import opened Common
  import opened CStrings
  import opened Tokens
  import opened KeyMap
  import opened Commands
  import opened Effects
  import opened Includes
  import opened Moves
  import Interpreter
  import Loader
  import Clients
  import Meaning
  import Modes
  import KeyLists
  import Safety
  import Script
  import Threads

  class Console {
    const config: Config
    /** Files rank above the files they run. */
    ghost const rank: map<string, nat>
    const buffer: TokenBuffer
    const gCmdParam: array<int>
    const keys: KeyTable
    const clients: Clients.ClientTable
    const threads: Modes.ThreadTable
    var gParamNum: int
    var jobs: seq<Job>
    var queue: seq<Msg>
    /** How many answers the system has given. */
    var clock: nat
    /** The ID of the thread that runs cmd_proc, 0 for main. */
    var self: int
    /** All of this as a value, with what only the proofs look at. */
    ghost var world: World

    ghost function Tables(): set<object>
    {
      {clients, clients.gClientFlag, clients.gSockets, clients.gClientIpAddr, clients.clientSockAddr,
       threads, threads.scriptId, threads.gScriptParam}
    }

    /** Every pointer is NULL (-1) or points into the buffer. */
    ghost predicate PointersOk()
      reads buffer, buffer.tmp, gCmdParam
    {
      && buffer.Valid() && gCmdParam.Length == MAX_TOKEN
      && forall i :: 0 <= i < MAX_TOKEN ==> -1 <= gCmdParam[i] < MAX_SC_CONTENT
    }

    /** The tables are the world's. */
    ghost predicate TablesOk()
      reads this`world, Tables()
    {
      && clients.Valid() && threads.Valid()
      && gCmdParam !in Tables() && {clients.gClientFlag, clients.gSockets} !! {threads.scriptId}
      && world.clients == clients.View() && world.threads == threads.View()
    }

    ghost predicate Valid()
      reads this`world, this`jobs, this`queue, this`clock, this`self
      reads buffer, buffer.tmp, gCmdParam, keys.gKeyLib, Tables()
    {
      && PointersOk() && keys.Valid() && TablesOk()
      && world.Sized() && Fair(config.kernel) && Ranked(config.files, rank)
      && world.jobs == jobs && world.queue == queue && world.clock == clock && world.params == gCmdParam[..]
      && world.self == self
    }

    constructor (config: Config, ghost rank: map<string, nat>)
      requires Fair(config.kernel) && Ranked(config.files, rank)
      ensures Valid() && this.config == config && this.rank == rank && world == START
      ensures fresh(buffer) && fresh(buffer.tmp) && fresh(gCmdParam) && fresh(Tables())
    {
      hide START, Fair, Ranked, KeyMap.KeyAt, Clients.ClientTable.View, Modes.ThreadTable.View;
      hide Clients.ClientTable.Valid, Modes.ThreadTable.Valid, KeyTable.Valid, Clients.EMPTY, Modes.IDLE;
      StartIs();
      this.config := config;
      this.rank := rank;
      buffer := new TokenBuffer();
      gCmdParam := new int[MAX_TOKEN](_ => -1);
      keys := new KeyTable();
      clients := new Clients.ClientTable();
      threads := new Modes.ThreadTable();
      gParamNum := 0;
      jobs, queue, clock, self := seq(MAX_SCRIPT_THREAD, _ => NO_JOB), [], 0, ERROR;
      world := START;
      new;
      assert gCmdParam[..] == START.params;
      assert PointersOk() && TablesOk();
    }

    /** What gCmdParam[i] points at. */
    function Param(i: nat): string
      requires PointersOk() && i < MAX_TOKEN && gCmdParam[i] >= 0
      reads buffer, buffer.tmp, gCmdParam
    {
      buffer.Read(gCmdParam[i])
    }

    /** The pointers and gParamNum are those of the tokens argv. */
    ghost predicate Holding(argv: seq<string>)
      requires PointersOk()
      reads this`gParamNum, buffer, buffer.tmp, gCmdParam
    {
      && |argv| <= MAX_TOKEN && gParamNum == |argv| - 1
      && forall i :: 0 <= i < |argv| ==> gCmdParam[i] >= 0 && Param(i) == argv[i]
    }

    /** Lines 232-233: the tokens of the line, through the shared buffer and pointers. */
    method Tokenize(cmdLine: string)
      requires Valid() && NUL !in cmdLine && '%' !in cmdLine
      modifies this`gParamNum, this`world, buffer`save, buffer.tmp, gCmdParam
      ensures Valid() && Holding(Argv(cmdLine)) && world == Noted(old(world), cmdLine)
      ensures gCmdParam[..] == Pointed(old(world).params, FieldStarts(cmdLine, C_SPACE))
      ensures CutTo(buffer.tmp[..], buffer.save, cmdLine, C_SPACE)
      ensures |Argv(cmdLine)| < MAX_TOKEN ==> buffer.tmp[..] == Cut(cmdLine, C_SPACE)
    {
      hide Split, Starts, Truncate, StringAt, CutTo, Cut, Taken, FieldStarts, Pointed, Fair, Ranked, Fields, Argv;
      hide Clients.ClientTable.View, Modes.ThreadTable.View, Clients.ClientTable.Valid, Modes.ThreadTable.Valid;
      hide KeyTable.Valid;
      LineFields(cmdLine);
      gParamNum := 0;
      gParamNum := buffer.GetTokens(cmdLine, C_SPACE, gCmdParam);
      assert buffer.Reads(gCmdParam[..], Argv(cmdLine));
      PointersAfter(old(gCmdParam[..]), FieldStarts(cmdLine, C_SPACE), gCmdParam[..]);
      world := Noted(world, cmdLine);
    }

    /**
     The keys of an ioevt line, lines 510-521: a second pass of getTokens over the shared buffer.
     Its ten pointers are enough, and the guard of line 512 never fires.
     */
    method EncodeKeys(arg: string) returns (codes: Option<seq<string>>)
      requires Valid() && NUL !in arg && '%' !in arg
      modifies buffer`save, buffer.tmp
      ensures Valid() && codes == Translate(KeyTokens(arg))
    {
      var keyCodes := Truncate(arg, 2 * MAX_IOEVT);
      var ioevtParam := new int[MAX_IOEVT](_ => -1);
      ghost var tokens := KeyTokens(arg);
      KeyLists.KeysFit(arg);
      KeyLists.KeyTokensAreTokens(arg);
      var ioevtNum := buffer.GetTokens(keyCodes, ',', ioevtParam);
      assert ioevtNum < MAX_IOEVT;
      codes := LookUp(ioevtParam, ioevtNum, tokens);
    }

    /** The loop of lines 515-521. */
    method LookUp(ioevtParam: array<int>, ioevtNum: int, ghost tokens: seq<string>) returns (codes: Option<seq<string>>)
      requires keys.Valid() && buffer.Valid() && ioevtNum == |tokens| - 1 && buffer.Reads(ioevtParam[..], tokens)
      requires forall t :: t in tokens ==> t != ""
      ensures codes == Translate(tokens)
    {
      KeyLists.TranslatesAllOrNothing(tokens);
      hide Translate, KeyAt, SlotOf, StringAt;
      var found: seq<string>, index := [], 0;
      while index <= ioevtNum
        invariant 0 <= index == |found| <= |tokens|
        invariant forall i :: 0 <= i < index ==>
          SlotOf(tokens[i]) != FAILED && found[i] == KeyAt(SlotOf(tokens[i])).code
      {
        assert ioevtParam[..][index] == ioevtParam[index] && tokens[index] in tokens;
        var key := keys.GetKeyCode(buffer.Read(ioevtParam[index]));
        if key == FAILED {
          return None;
        }
        KeyLists.RowHoldsCode(tokens[index]);
        found := found + [Truncate(keys.gKeyLib[key].code, MAX_KEY_LENGTH)];
        index := index + 1;
      }
      assert found == Translate(tokens).value;
      codes := Some(found);
    }

    /** A handler may run: its pointers hold argv, and the line had no conversions in it. */
    ghost predicate Ready(argv: seq<string>)
      reads this`gParamNum, buffer, buffer.tmp, gCmdParam
    {
      && PointersOk() && argv != [] && Holding(argv)
      && forall i :: 0 <= i < |argv| ==> NUL !in argv[i] && '%' !in argv[i]
    }

    lemma ValidFacts()
      requires Valid()
      ensures PointersOk() && world.Sized() && Fair(config.kernel) && Ranked(config.files, rank)
    {
    }

    lemma ReadyFacts(argv: seq<string>)
      requires Ready(argv)
      ensures PointersOk() && argv != [] && |argv| <= MAX_TOKEN == gCmdParam.Length && gParamNum == |argv| - 1
    {
    }

    lemma ReadyParam(argv: seq<string>, i: nat)
      requires Ready(argv) && i < |argv|
      ensures PointersOk() && i < MAX_TOKEN == gCmdParam.Length && gCmdParam[i] >= 0 && Param(i) == argv[i]
      ensures NUL !in argv[i] && '%' !in argv[i]
    {
    }

    /** The command code of a message, lines 497-502, 942-947 and 991-996. */
    method CodeOf(cmdNum: nat, ghost argv: seq<string>) returns (code: string)
      requires Valid() && Ready(argv) && cmdNum < MAX_CMD_NUM
      ensures code == CodeFor(argv[0], cmdNum)
    {
      ReadyFacts(argv);
      hide Valid, PointersOk, Ready, Holding, Param, Truncate;
      ReadyParam(argv, 0);
      if Param(0) == CmdAt(cmdNum).nickName {
        code := CmdAt(cmdNum).cmdName;
      } else {
        code := Truncate(Param(0), MAX_CMD_CODE);
      }
    }

    /** msgsnd of a finished message. */
    method MsgSnd(m: Msg)
      requires Valid()
      modifies this`queue, this`clock, this`world
      ensures Valid() && world == Send(config, old(world), Some(m))
    {
      if config.kernel(clock) != FAILED {
        queue := queue + [m];
      }
      clock := clock + 1;
      world := Send(config, world, Some(m));
    }

    method GetSendThreadID() returns (id: int)
      requires Valid()
      ensures Valid() && id == world.threads.sendId
    {
      id := threads.GetId(Modes.Sender);
    }

    /** So many answers of the system are used up. */
    method Pass(n: nat)
      requires Valid()
      modifies this`clock, this`world
      ensures Valid() && world == old(world).Tick(n)
    {
      clock := clock + n;
      world := world.Tick(n);
    }

    method IoevtCmd(ghost argv: seq<string>)
      requires Valid() && Ready(argv)
      modifies this`queue, this`clock, this`world, buffer`save, buffer.tmp
      ensures Valid() && world == Send(config, old(world), IoevtMsg(argv, old(world).threads.sendId))
    {
      ReadyFacts(argv);
      hide Valid, PointersOk, Ready, Holding, Param, KeyTokens, Translate, Send, CodeFor, Atoi;
      if gParamNum != 3 {
        return;
      }
      ReadyParam(argv, 1);
      ReadyParam(argv, 3);
      if Param(3) != KEY_PRESS && Param(3) != KEY_LONG_PRESS {
        return;
      }
      if Atoi(Param(1)) > Clients.MAX_CLIENT - 1 || Atoi(Param(1)) < Clients.MIN_CLIENT {
        return;
      }
      var sendId := GetSendThreadID();
      if sendId == ERROR {
        return;
      }
      IoevtSend(argv);
    }

    /** Lines 493-532. */
    method IoevtSend(ghost argv: seq<string>)
      requires Valid() && Ready(argv) && |argv| == 4 && ClientOk(argv[1])
      requires world.threads.sendId != ERROR && (argv[3] == KEY_PRESS || argv[3] == KEY_LONG_PRESS)
      modifies this`queue, this`clock, this`world, buffer`save, buffer.tmp
      ensures Valid() && world == Send(config, old(world), IoevtMsg(argv, old(world).threads.sendId))
    {
      ReadyParam(argv, 1);
      ReadyParam(argv, 2);
      ReadyParam(argv, 3);
      hide Valid, PointersOk, Ready, Holding, Param, KeyTokens, Translate, Send, CodeFor, Atoi;
      var cmdCode := CodeOf(7, argv);
      var clientNum := Atoi(Param(1));
      var action := Truncate(Param(3), MAX_ACT_LENTH);
      var codes := EncodeKeys(Param(2));
      if codes.Some? {
        MsgSnd(Msg(clientNum, cmdCode, Keys(codes.value, action)));
      }
    }

    method CallCmd(ghost argv: seq<string>)
      requires Valid() && Ready(argv)
      modifies this`queue, this`clock, this`world
      ensures Valid() && world == Send(config, old(world), CallMsg(argv, old(world).threads.sendId))
    {
      ReadyFacts(argv);
      hide Valid, PointersOk, Ready, Holding, Param, Send, Atoi, Truncate;
      if gParamNum != 2 {
        return;
      }
      ReadyParam(argv, 0);
      ReadyParam(argv, 1);
      ReadyParam(argv, 2);
      var clientNum := Atoi(Param(1));
      if clientNum > Clients.MAX_CLIENT - 1 || clientNum < Clients.MIN_CLIENT {
        return;
      }
      var sendId := GetSendThreadID();
      if sendId == ERROR {
        return;
      }
      MsgSnd(Msg(clientNum, Truncate(Param(0), MAX_CMD_CODE), Shared(Truncate(Param(2), MAX_SHARED_LENTH))));
    }

    method SyslogConfCmd(ghost argv: seq<string>)
      requires Valid() && Ready(argv)
      modifies this`queue, this`clock, this`world
      ensures Valid() && world == Send(config, old(world), SyslogMsg(argv, old(world).threads.sendId,
        config.syslogPort))
    {
      ReadyFacts(argv);
      hide Valid, PointersOk, Ready, Holding, Param, Send, CodeFor, Decimal, Atoi, Truncate;
      if gParamNum < 2 {
        return;
      }
      ReadyParam(argv, 1);
      ReadyParam(argv, 2);
      if Atoi(Param(1)) > Clients.MAX_CLIENT - 1 || Atoi(Param(1)) < Clients.MIN_CLIENT {
        return;
      }
      var sendId := GetSendThreadID();
      if sendId == ERROR {
        return;
      }
      SyslogSend(argv);
    }

    /** Lines 939-961. */
    method SyslogSend(ghost argv: seq<string>)
      requires Valid() && Ready(argv) && |argv| >= 3 && ClientOk(argv[1]) && world.threads.sendId != ERROR
      modifies this`queue, this`clock, this`world
      ensures Valid() && world == Send(config, old(world), SyslogMsg(argv, old(world).threads.sendId,
        config.syslogPort))
    {
      ReadyFacts(argv);
      ReadyParam(argv, 1);
      ReadyParam(argv, 2);
      hide Valid, PointersOk, Ready, Holding, Param, Send, CodeFor, Decimal, Atoi, Truncate;
      var cmdCode := CodeOf(17, argv);
      var clientNum := Atoi(Param(1));
      var tail := STR_CLIENT + " " + Decimal(clientNum) + " " + STR_SYSLOG_PORT + " " + Decimal(config.syslogPort);
      var text := Param(2) + " " + tail;
      if gParamNum == 3 {
        ReadyParam(argv, 3);
        text := Param(2) + " " + Param(3) + " " + tail;
      }
      MsgSnd(Msg(clientNum, cmdCode, Shared(Truncate(text, MAX_SHARED_LENTH))));
    }

    method HideFeatureCmd(ghost argv: seq<string>)
      requires Valid() && Ready(argv)
      modifies this`queue, this`clock, this`world
      ensures Valid() && world == Send(config, old(world), HideFeatureMsg(argv, old(world).threads.sendId))
    {
      ReadyFacts(argv);
      hide Valid, PointersOk, Ready, Holding, Param, Send, CodeFor, Atoi, Truncate;
      if gParamNum < 2 {
        return;
      }
      ReadyParam(argv, 1);
      ReadyParam(argv, 2);
      if Atoi(Param(1)) > Clients.MAX_CLIENT - 1 || Atoi(Param(1)) < Clients.MIN_CLIENT {
        return;
      }
      var sendId := GetSendThreadID();
      if sendId == ERROR {
        return;
      }
      var cmdCode := CodeOf(18, argv);
      MsgSnd(Msg(Atoi(Param(1)), cmdCode, Shared(Truncate(Param(2), MAX_SHARED_LENTH))));
    }

    /** Lines 361-378, on the client tables. */
    method AddToTable(clientNum: int, ipAddr: string)
      requires Valid()
      modifies this`clock, this`world, Tables()
      ensures Valid()
      ensures world == old(world).(clients := Clients.Add(old(world).clients, clientNum, ipAddr,
        config.kernel(old(world).clock))).Tick(1)
    {
      clients.AddClient(clientNum, ipAddr, config.kernel(clock));
      clock := clock + 1;
      world := world.(clients := clients.View()).Tick(1);
    }

    method AddClientCmd(ghost argv: seq<string>, ghost third: string)
      requires Valid() && Ready(argv)
      modifies this`clock, this`world, Tables()
      ensures Valid() && world == Handle(config, old(world), AddClient, argv, third)
    {
      hide *;
      ReadyFacts(argv);
      ValidFacts();
      ClientHandlers(config, world, AddClient, argv, third);
      if gParamNum < 2 {
        return;
      }
      ReadyParam(argv, 1);
      ReadyParam(argv, 2);
      AddToTable(Atoi(Param(1)), Param(2));
    }

    /** Lines 414-431, on the client tables. */
    method ChangeInTable(clientNum: int, ipAddr: string)
      requires Valid()
      modifies this`clock, this`world, Tables()
      ensures Valid()
      ensures world == old(world).(clients := Clients.ChangeIp(old(world).clients, clientNum, ipAddr,
        config.kernel(old(world).clock))).Tick(1)
    {
      clients.ChangeClientIpAddr(clientNum, ipAddr, config.kernel(clock));
      clock := clock + 1;
      world := world.(clients := clients.View()).Tick(1);
    }

    method ChangeClientIpAddrCmd(ghost argv: seq<string>, ghost third: string)
      requires Valid() && Ready(argv)
      modifies this`clock, this`world, Tables()
      ensures Valid() && world == Handle(config, old(world), ChangeClientIpAddr, argv, third)
    {
      hide *;
      ReadyFacts(argv);
      ValidFacts();
      ClientHandlers(config, world, ChangeClientIpAddr, argv, third);
      if gParamNum < 2 {
        return;
      }
      ReadyParam(argv, 1);
      ReadyParam(argv, 2);
      ChangeInTable(Atoi(Param(1)), Param(2));
    }

    /** Lines 385-402, on the client tables. */
    method DelFromTable(clientNum: int)
      requires Valid()
      modifies this`world, Tables()
      ensures Valid() && world == old(world).(clients := Clients.Del(old(world).clients, clientNum))
    {
      clients.DelClient(clientNum);
      world := world.(clients := clients.View());
    }

    /** del looks at gCmdParam[1] before it looks at gParamNum. */
    method DelClientCmd(ghost argv: seq<string>, ghost third: string)
      requires Valid() && Ready(argv) && gCmdParam[1] >= 0
      modifies this`world, Tables()
      ensures Valid() && world == Handle(config, old(world), DelClient, argv, third)
    {
      hide Valid, PointersOk, Ready, Holding, Param, Clients.Del, Handle, Atoi;
      ReadyFacts(argv);
      ValidFacts();
      ClientHandlers(config, world, DelClient, argv, third);
      var clientNum := Atoi(Param(1));
      if gParamNum < 1 {
        return;
      }
      ReadyParam(argv, 1);
      DelFromTable(clientNum);
    }

    method StartThreads(argc: int, word: string)
      requires Valid()
      modifies this`clock, this`world, Tables()
      ensures Valid() && world == Started(config, old(world), argc, word)
    {
      threads.StartCmd(argc, word, config.kernel(clock) != FAILED, config.kernel(clock + 1), config.kernel(clock + 2));
      clock := clock + 3;
      world := world.(threads := threads.View()).Tick(3);
    }

    method StartCmd(ghost argv: seq<string>, ghost third: string)
      requires Valid() && Ready(argv)
      modifies this`clock, this`world, Tables()
      ensures Valid() && world == Handle(config, old(world), Start, argv, third)
    {
      hide *;
      ReadyFacts(argv);
      ValidFacts();
      ThreadHandlers(config, world, argv, third, ArgAt(argv, 1));
      FirstArgumentIs(argv);
      var word := FirstArgument();
      StartThreads(gParamNum, word);
    }

    /** The first argument, if there is one. */
    function FirstArgument(): string
      requires PointersOk() && (gParamNum >= 1 ==> gCmdParam[1] >= 0)
      reads this`gParamNum, buffer, buffer.tmp, gCmdParam
    {
      if gParamNum >= 1 then Param(1) else ""
    }

    lemma FirstArgumentIs(argv: seq<string>)
      requires Ready(argv)
      ensures PointersOk() && (gParamNum >= 1 ==> gCmdParam[1] >= 0) && FirstArgument() == ArgAt(argv, 1)
    {
      ReadyFacts(argv);
      if |argv| > 1 {
        ReadyParam(argv, 1);
      }
    }

    /** False stands for pthread_exit, as everywhere below: whoever called returns at once. */
    method StopThreads(argc: int, first: string, second: string) returns (alive: bool)
      requires Valid() && world.Alive() && (second == Modes.PARAM_SC ==> Atoi(first) != MAX_SCRIPT_THREAD)
      modifies this`world, Tables()
      ensures Valid() && alive == world.Alive()
      ensures world == old(world).(threads := Modes.Stop(old(world).threads, argc, first, second, old(world).self))
    {
      hide Modes.Stop, Modes.Alive;
      alive := threads.StopCmd(argc, first, second, self);
      world := world.(threads := threads.View());
    }

    /** stop reads gCmdParam[2] whether or not the line has that token. */
    method StopCmd(ghost argv: seq<string>, ghost third: string) returns (alive: bool)
      requires Valid() && Ready(argv) && world.Alive()
      requires (|argv| == 2 || |argv| == 3) && !StopWord(argv[1]) ==>
        && gCmdParam[2] >= 0 && Param(2) == third
        && (third == Modes.PARAM_SC ==> Atoi(argv[1]) != MAX_SCRIPT_THREAD)
      modifies this`world, Tables()
      ensures Valid() && world == Handle(config, old(world), Stop, argv, third) && alive == world.Alive()
    {
      hide Valid, PointersOk, Ready, Holding, Param, Handle, StopWord, Atoi, Modes.Stop, ArgAt;
      ReadyFacts(argv);
      ValidFacts();
      ThreadHandlers(config, world, argv, third, ArgAt(argv, 1));
      StopNeeds(world.threads, argv, third, world.self);
      if gParamNum != 1 && gParamNum != 2 {
        return true;
      }
      ReadyParam(argv, 1);
      ArgIs(argv, 1);
      var second := "";
      if !StopWord(Param(1)) {
        second := Param(2);
      }
      alive := StopThreads(gParamNum, Param(1), second);
    }

    /** Both joins of quit; the IDs stay. */
    method QuitCmd(ghost argv: seq<string>, ghost third: string) returns (alive: bool)
      requires Valid() && argv != [] && world.Alive()
      modifies this`world, Tables()
      ensures Valid() && world == Handle(config, old(world), Quit, argv, third) && alive == world.Alive()
    {
      hide Modes.Quit, Modes.Alive;
      alive := threads.QuitCmd(self);
      world := world.(threads := threads.View());
    }

    method RunThread(n: int, name: string)
      requires Valid() && n != MAX_SCRIPT_THREAD
      modifies this`clock, this`world, this`jobs, Tables()
      ensures Valid() && world == ThreadRun(config, old(world), n, name)
    {
      hide Modes.RunScript, Modes.CanRun, NewJob, FileRows, ThreadRun, Fair, Ranked;
      hide Modes.ThreadTable.View, Clients.ClientTable.View;
      ThreadRunParts(config, world, n, name);
      var started := threads.RunScriptCmd(2, n, config.kernel(clock), FileRows(config, name));
      if started {
        jobs := jobs[n := NewJob(config, name, config.kernel(clock + 1))];
      }
      clock := clock + 2;
      world := ThreadRun(config, world, n, name);
    }

    method RunScriptCmd(ghost argv: seq<string>, ghost third: string)
      requires Valid() && Ready(argv) && (|argv| == 3 ==> Atoi(argv[1]) != MAX_SCRIPT_THREAD)
      modifies this`clock, this`world, this`jobs, Tables()
      ensures Valid() && world == Handle(config, old(world), RunScript, argv, third)
    {
      hide *;
      ReadyFacts(argv);
      ValidFacts();
      RunScriptHandler(config, world, argv, third);
      if gParamNum != 2 {
        Pass(2);
        return;
      }
      ReadyParam(argv, 1);
      ReadyParam(argv, 2);
      RunThread(Atoi(Param(1)), FileName(Param(2)));
    }

    /** getRandValue: one call of rand(), when the bounds allow one. */
    method GetRandValue(minRand: int, maxRand: int) returns (ret: int)
      requires Valid()
      modifies this`clock, this`world
      ensures Valid()
      ensures if maxRand <= 0 || minRand < 0 || maxRand < minRand
              then ret == FAILED && world == old(world)
              else ret == RandValue(minRand, maxRand, RandOf(config.kernel(old(world).clock)))
                   && world == old(world).Tick(1)
    {
      if maxRand <= 0 || minRand < 0 || maxRand < minRand {
        return FAILED;
      }
      ret := RandValue(minRand, maxRand, RandOf(config.kernel(clock)));
      clock := clock + 1;
      world := world.Tick(1);
    }

    method IsPopulated(key: nat) returns (populated: bool)
      requires Valid() && key < MAX_KEY_NUM
      ensures Valid() && populated == Populated(key)
    {
      populated := keys.gKeyLib[key].code != "";
      assert keys.gKeyLib[key] == KeyAt(key);
    }

    /** The rejection loop of lines 881-888: the next draw that hits a key. */
    method DrawKey() returns (key: nat)
      requires Valid()
      modifies this`clock, this`world
      ensures Valid() && Populated(key)
      ensures var d := NextHit(config.kernel, old(world).clock);
        key == KeyIndex(config.kernel(d)) && world == old(world).(clock := d + 1)
    {
      hide Valid, Populated, RandValue, RandOf, Ranked, Fair, KeyIndex;
      ValidFacts();
      ghost var d := NextHit(config.kernel, world.clock);
      key := DrawIndex();
      var populated := IsPopulated(key);
      while !populated
        invariant Valid() && key < MAX_KEY_NUM && populated == Populated(key)
        invariant old(world).clock < world.clock <= d + 1
        invariant world == old(world).(clock := world.clock) && key == KeyIndex(config.kernel(world.clock - 1))
        decreases d + 1 - world.clock
      {
        key := DrawIndex();
        populated := IsPopulated(key);
      }
    }

    /** getRandValue(MIN_KEY_NUM, MAX_KEY_NUM). */
    method DrawIndex() returns (key: nat)
      requires Valid()
      modifies this`clock, this`world
      ensures Valid() && key < MAX_KEY_NUM
      ensures key == KeyIndex(config.kernel(old(world).clock)) && world == old(world).Tick(1)
    {
      RandValueRange(0, MAX_KEY_NUM, RandOf(config.kernel(world.clock)));
      hide Valid, RandValue, RandOf;
      key := GetRandValue(0, MAX_KEY_NUM);
    }

    /** randomKey comes back to cmd_proc with a line of its own. */
    method RandomKeyCmd(ghost argv: seq<string>, ghost line: string, ghost params: seq<int>) returns (alive: bool)
      requires world.Alive() && Valid() && Ready(argv) && argv == Argv(line) && HandlerOf(argv[0]) == Some(RandomKey)
      requires |params| == MAX_TOKEN && LineOk(params, line)
      modifies this, buffer`save, buffer.tmp, gCmdParam, Tables()
      ensures Valid() && alive == world.Alive()
      ensures world == if |argv| == 2 then RandomKeyEffect(config, old(world), argv[1]) else old(world)
      decreases RankOf(config.files, rank, line), Weight(line), 1
    {
      hide Valid, PointersOk, Ready, Holding, Param, Argv, LineOk, Fit, HandlerOf, Ranked, Fair, KeyLine, KeyIndex;
      hide IsNextHit, KeyLineEffect, ExecAll, Expand, RankOf, Weight, Populated;
      ReadyFacts(argv);
      ValidFacts();
      if gParamNum != 1 {
        return true;
      }
      ReadyParam(argv, 1);
      var key := DrawKey();
      ValidFacts();
      KeyLineReturns(config, rank, world, params, line, argv[1], key);
      var cmdRandomKey := KeyLine(Param(1), key);
      alive := CmdProc(cmdRandomKey);
    }

    /** autoConfig: every row of the file goes to cmd_proc; after each call only locals are read. */
    method AutoConfigCmd(ghost argv: seq<string>, ghost line: string, ghost before: World) returns (alive: bool)
      requires Valid() && Ready(argv) && argv == Argv(line) && HandlerOf(argv[0]) == Some(AutoConfig)
      requires before.Sized() && world == Exec(config, before, line) && before.Alive() && world.Alive()
      requires Fit(config, before, Expand(config.files, rank, line))
      modifies this, buffer`save, buffer.tmp, gCmdParam, Tables()
      ensures Valid() && alive == world.Alive()
      ensures world == ExecAll(config, before, Expand(config.files, rank, line))
      decreases RankOf(config.files, rank, line), Weight(line), 1
    {
      hide Valid, PointersOk, Ready, Holding, Param, Argv, LineOk, Fit, HandlerOf, Ranked, Fair, Included;
      hide Exec, ExecAll, Expand, RankOf, Weight, Running, FileName;
      ReadyFacts(argv);
      ValidFacts();
      IncludedByAutoConfig(config.files, line);
      RunsNoFile(config, rank, before, line);
      if gParamNum != 1 {
        return true;
      }
      ReadyParam(argv, 1);
      var gConfFileName := FileName(Param(1));
      if gConfFileName !in config.files {
        return true;
      }
      RunningStarts(config, rank, before, line);
      ghost var final := ExecAll(config, before, Expand(config.files, rank, line));
      alive := RunFile(gConfFileName, rank[gConfFileName], final);
    }

    /** The loop of lines 332-348. */
    method RunFile(name: string, ghost bound: nat, ghost final: World) returns (alive: bool)
      requires Valid() && world.Alive() && name in config.files
      requires Running(config, rank, world, config.files[name], bound, final)
      modifies this, buffer`save, buffer.tmp, gCmdParam, Tables()
      ensures Valid() && world == final && alive == world.Alive()
      decreases bound + 1, 0, 0
    {
      hide Running, RankOf, Expand, ExecAll, Fit, Valid, Weight, Ranked, Fair;
      hide Loader.Taken, Loader.Reader.Left, Loader.Reader.Valid, PointersOk, TablesOk;
      var confFilp := new Loader.Reader(config.files[name]);
      ghost var left := config.files[name];
      alive := true;
      var cmdTmp := confFilp.Fgets();
      while cmdTmp.Some?
        invariant Valid() && fresh(confFilp) && confFilp.Valid() && alive && world.Alive()
        invariant Loader.Taken(cmdTmp, confFilp.Left(), left)
        invariant Running(config, rank, world, left, bound, final)
        decreases |left|
      {
        Loader.TakenFacts(cmdTmp.value, confFilp.Left(), left);
        alive := RunChunk(cmdTmp.value, confFilp.Left(), left, bound, final);
        if !alive {
          RunningCutShort(config, rank, world, confFilp.Left(), bound, final);
          return;
        }
        left := confFilp.Left();
        cmdTmp := confFilp.Fgets();
      }
      Loader.NothingTaken(confFilp.Left(), left);
      RunningAtEnd(config, rank, world, bound, final);
    }

    /** One chunk of the file, lines 337-347: its row, if it has one, goes to cmd_proc. */
    method RunChunk(cmdTmp: string, ghost rest: string, ghost left: string, ghost bound: nat, ghost final: World)
      returns (alive: bool)
      requires Valid() && world.Alive() && Loader.Taken(Some(cmdTmp), rest, left)
      requires Running(config, rank, world, left, bound, final)
      modifies this, buffer`save, buffer.tmp, gCmdParam, Tables()
      ensures Valid() && Running(config, rank, world, rest, bound, final) && alive == world.Alive()
      decreases bound, 2, 0
    {
      hide Running, Loader.RowOf, RankOf, Expand, ExecAll, Fit, Valid, FirstIndex, Until, Truncate, Weight;
      Loader.TakenFacts(cmdTmp, rest, left);
      Loader.ParseChunk(cmdTmp);
      if cmdTmp[0] == '#' || cmdTmp[0] == '\n' {
        RunningSkips(config, rank, world, cmdTmp, rest, bound, final);
        return true;
      }
      var p := FirstIndex(Until(cmdTmp, NUL), ';');
      if p == |Until(cmdTmp, NUL)| {
        RunningSkips(config, rank, world, cmdTmp, rest, bound, final);
        return true;
      }
      RunningRow(config, rank, world, cmdTmp, rest, bound, final);
      alive := CmdProc(cmdTmp[..p]);
    }

    /** The commands the interpreter issues for a text, handed to cmd_proc one by one. */
    method RunAsScript(text: string, ghost bound: nat, ghost final: World) returns (alive: bool)
      requires Valid() && world.Alive()
      requires |Loader.Load(text)| <= Loader.MAX_SC_LINE && Script.Balanced(Loader.Load(text))
      requires RowsRunning(config, rank, world, Meaning.Trace(Meaning.Program(Loader.Load(text))), bound, final)
      modifies this, buffer`save, buffer.tmp, gCmdParam, Tables()
      ensures Valid() && world == final && alive == world.Alive()
    {
      hide Valid, RowsRunning, Ranked, RankOf, Fit, ExecAll, Expand, Weight;
      var calls := Interpreter.CommandsOf(text);
      alive := HandOver(calls, bound, final);
    }

    method HandOver(calls: seq<string>, ghost bound: nat, ghost final: World) returns (alive: bool)
      requires Valid() && world.Alive() && RowsRunning(config, rank, world, calls, bound, final)
      modifies this, buffer`save, buffer.tmp, gCmdParam, Tables()
      ensures Valid() && world == final && alive == world.Alive()
    {
      hide *;
      alive := true;
      var k := 0;
      assert calls[0..] == calls;
      while k < |calls|
        invariant 0 <= k <= |calls| && Valid() && alive && world.Alive()
        invariant RowsRunning(config, rank, world, calls[k..], bound, final)
      {
        assert calls[k..] == [calls[k]] + calls[k + 1..];
        NextRow(config, rank, world, calls[k], calls[k + 1..], bound, final);
        alive := CmdProc(calls[k]);
        if !alive {
          RowsCutShort(config, rank, world, calls[k + 1..], bound, final);
          return;
        }
        k := k + 1;
      }
      assert calls[k..] == [];
      RowsDone(config, rank, world, bound, final);
    }

    /**
     A line without tokens leaves the pointers as they were, and no command is called what the
     first of them reads now.
     */
    lemma NoTokenNoCommand(line: string)
      requires PointersOk() && CutTo(buffer.tmp[..], buffer.save, line, C_SPACE) && NUL !in line
      requires Argv(line) == [] && gCmdParam[0] >= 0
      ensures CmdCode(Param(0)) == FAILED
    {
      OldPointer(buffer.tmp[..], buffer.save, line, C_SPACE, gCmdParam[0]);
      assert Split(Truncate(line, MAX_SC_CONTENT), C_SPACE) == [];
      hide Split, CmdCode, CutTo;
      NoSpaceInNames(Param(0));
    }

    /** Lines 234-239: the search, and the call of the handler found. */
    method Dispatch(ghost argv: seq<string>, ghost line: string, ghost before: World, h: Handler) returns (alive: bool)
      requires before.Alive() && Valid() && argv == Argv(line) && argv != [] && HandlerOf(argv[0]) == Some(h)
      requires before.Sized() && world == Noted(before, line) && LineOk(before.params, line)
      requires Fetched(argv, before.params, line, h)
      requires Fit(config, before, Expand(config.files, rank, line))
      modifies this, buffer`save, buffer.tmp, gCmdParam, Tables()
      ensures Valid() && alive == world.Alive()
      ensures world == ExecAll(config, before, Expand(config.files, rank, line))
      decreases RankOf(config.files, rank, line), Weight(line), 2
    {
      hide Valid, PointersOk, Ready, Holding, Param, Fit, LineOk, Expand, ExecAll, Argv, HandlerOf, RankOf, Weight;
      hide ThirdRead, Noted, FieldStarts, Handle, StopWord;
      ValidFacts();
      ReadyFacts(argv);
      ghost var third := ThirdRead(before.params, line);
      RunsNoFile(config, rank, before, line);
      HandlerRuns(config, before, line, h);
      SlotNeeds(before.params, line, h);
      PlainHandlers(config, world, h, argv, third);
      if h != Stop && h != Quit {
        Safety.StaysAlive(config, world, h, argv, third);
      }
      alive := true;
      match h {
        case AutoConfig => alive := AutoConfigCmd(argv, line, before);
        case AddClient => AddClientCmd(argv, third);
        case Call => CallCmd(argv);
        case ChangeClientIpAddr => ChangeClientIpAddrCmd(argv, third);
        case DelClient => DelClientCmd(argv, third);
        case Ioevt => IoevtCmd(argv);
        case Quit => alive := QuitCmd(argv, third);
        case RunScript => RunScriptCmd(argv, third);
        case RandomKey => alive := RandomKeyCmd(argv, line, before.params);
        case Start => StartCmd(argv, third);
        case Stop => alive := StopCmd(argv, third);
        case SyslogConf => SyslogConfCmd(argv);
        case HideFeatureProc => HideFeatureCmd(argv);
        case _ =>
      }
    }

    /** What Dispatch needs to find in the pointers. */
    ghost predicate Fetched(argv: seq<string>, params: seq<int>, line: string, h: Handler)
      reads this`gParamNum, buffer, buffer.tmp, gCmdParam
    {
      && Ready(argv)
      && (h == DelClient ==> gCmdParam[1] >= 0)
      && (h == Stop && (|argv| == 2 || |argv| == 3) && !StopWord(argv[1]) ==>
            gCmdParam[2] >= 0 && Param(2) == ThirdRead(params, line))
    }

    /** cmdNum is the command of the line's first token, and its arguments are where it looks for them. */
    ghost predicate Found(cmdNum: int, params: seq<int>, line: string)
      reads this`gParamNum, buffer, buffer.tmp, gCmdParam
    {
      var argv := Argv(line);
      if argv == [] then cmdNum == FAILED
      else
        && cmdNum == CmdCode(argv[0])
        && (HandlerOf(argv[0]).Some? ==> Fetched(argv, params, line, HandlerOf(argv[0]).value))
    }

    /** After the tokenizing, the pointers a command looks at are there, and read what the world says. */
    lemma PointersFit(line: string, params: seq<int>)
      requires PointersOk() && CutTo(buffer.tmp[..], buffer.save, line, C_SPACE) && Holding(Argv(line))
      requires |Argv(line)| < MAX_TOKEN ==> buffer.tmp[..] == Cut(line, C_SPACE)
      requires |params| == MAX_TOKEN && gCmdParam[..] == Pointed(params, FieldStarts(line, C_SPACE))
      requires LineOk(params, line)
      ensures 0 < MAX_TOKEN == gCmdParam.Length && gCmdParam[0] >= 0
      ensures Found(CmdCode(Param(0)), params, line)
    {
      LineNeeds(params, line);
      FieldsKeepOut(line, C_SPACE, NUL);
      FieldsKeepOut(line, C_SPACE, '%');
      OtherPointers(params, FieldStarts(line, C_SPACE), gCmdParam[..]);
      assert |FieldStarts(line, C_SPACE)| == |Argv(line)|;
      hide LineOk, Argv, CutTo, HandlerOf, CmdCode, StopWord, Cut, FieldStarts, Pointed;
      if Argv(line) == [] {
        NoTokenNoCommand(line);
      }
    }

    /** Lines 232-234: tokens, record, search. */
    method Fetch(cmdLine: string) returns (cmdNum: int)
      requires Valid() && world.Alive() && LineOk(world.params, cmdLine)
      modifies this`gParamNum, this`world, buffer`save, buffer.tmp, gCmdParam
      ensures Valid() && world == Noted(old(world), cmdLine) && Found(cmdNum, old(world).params, cmdLine)
    {
      hide Valid, Noted, Found, LineOk, Argv, HandlerOf, CutTo, Cut, Holding, Param, CmdCode, Ranked, Fair, FieldStarts;
      hide Pointed, PointersOk;
      ValidFacts();
      ghost var params := world.params;
      LineNeeds(params, cmdLine);
      Tokenize(cmdLine);
      ValidFacts();
      PointersFit(cmdLine, params);
      assert forall o :: o in Tables() ==> allocated(o);
      cmdNum := GetCmdCode(Param(0));
    }

    /** cmd_proc: tokens, record, search, handler. */
    method CmdProc(cmdLine: string) returns (alive: bool)
      requires Valid() && world.Alive() && Fit(config, world, Expand(config.files, rank, cmdLine))
      modifies this, buffer`save, buffer.tmp, gCmdParam, Tables()
      ensures Valid() && alive == world.Alive()
      ensures world == ExecAll(config, old(world), Expand(config.files, rank, cmdLine))
      decreases RankOf(config.files, rank, cmdLine), Weight(cmdLine), 3
    {
      ghost var before, argv := world, Argv(cmdLine);
      ValidFacts();
      hide LineOk, Fit, Expand, ExecAll, Argv, HandlerOf, RankOf, Weight, CmdCode, Ranked, Fair, Valid, Noted, Fetched;
      RunsNoFile(config, rank, before, cmdLine);
      var cmdNum := Fetch(cmdLine);
      NoCommand(config, before, cmdLine);
      if cmdNum == FAILED {
        return true;
      }
      FoundCommand(argv[0]);
      alive := Dispatch(argv, cmdLine, before, CmdAt(cmdNum).func);
    }

    // ---- The other moves ----

    method EnterMain(ghost line: string)
      requires Valid()
      modifies this`self, this`world
      ensures Valid() && world == Before(old(world), ConsoleLine(line))
    {
      self := ERROR;
      world := world.(self := self);
    }

    /** Whether slot n can make a step, and the rows it reads through its buffer. */
    method ReadSlot(n: nat) returns (live: bool, rows: seq<string>)
      requires Valid()
      ensures Valid() && live == Live(world, n) && (live ==> n < MAX_SCRIPT_THREAD == |jobs| && rows == Rows(world, n))
      ensures live ==> Threads.Good(rows, jobs[n].thread)
    {
      hide Threads.Good, Fair, Ranked, Modes.RowsOf, Modes.Running;
      if n >= MAX_SCRIPT_THREAD {
        return false, [];
      }
      var running := threads.IsRunning(Modes.Runner(n));
      rows := threads.Rows(n);
      live := running && Threads.Good(rows, jobs[n].thread);
    }

    /** A script's thread at its end: its buffer and its slot are given back. */
    method EndScript(n: nat)
      requires Valid() && n < MAX_SCRIPT_THREAD
      modifies this`self, this`world, Tables()
      ensures Valid() && world == old(world).(threads := Modes.Exit(old(world).threads, n), self := ERROR)
    {
      hide Modes.Exit, Fair, Ranked;
      self := ERROR;
      threads.ScriptExit(n);
      world := world.(threads := threads.View(), self := self);
    }

    /** What a script's step does besides its line. */
    method StepScript(n: nat) returns (issued: seq<string>)
      requires Valid()
      modifies this`jobs, this`self, this`world, Tables()
      ensures Valid() && issued == Issued(old(world), n) && world == Moved(old(world), n)
    {
      hide Threads.Good, Threads.StepOf, Modes.Exit, Fair, Ranked, Live, Rows, Stepped;
      var live, rows := ReadSlot(n);
      if !live {
        EnterMain("");
        return [];
      }
      if jobs[n].thread.pc == Threads.Exited {
        EndScript(n);
        return [];
      }
      issued := Threads.StepOf(rows, jobs[n].thread).issued;
      jobs := jobs[n := Stepped(rows, jobs[n])];
      self := threads.GetId(Modes.Runner(n));
      world := world.(jobs := jobs, self := self);
    }

    method SuspendPhone(num: int)
      requires Valid()
      modifies this`self, this`world, Tables()
      ensures Valid() && world == Before(old(world), Suspended(num))
    {
      self := ERROR;
      var running := threads.IsRunning(Modes.Receiver);
      if running {
        clients.SuspendClient(num);
      }
      world := world.(clients := clients.View(), self := self);
    }

    method EndReceiver()
      requires Valid()
      modifies this`self, this`world, Tables()
      ensures Valid() && world == Before(old(world), ReceiverEnds)
    {
      self := ERROR;
      threads.ReceiverExit();
      world := world.(threads := threads.View(), self := self);
    }

    /** Any move of the tool, on the tables and pointers themselves. */
    method Make(m: Move)
      requires Valid() && Fit(config, Before(world, m), Lines(config, rank, world, m))
      modifies this, buffer`save, buffer.tmp, gCmdParam, Tables()
      ensures Valid() && world == Next(config, rank, old(world), m)
    {
      hide Valid, Fit, Expand, ExecAll, Ranked, Fair, Issued, Moved, RankOf, Weight, World.Alive;
      ValidFacts();
      CallerIsAlive(world, m);
      match m
      case ConsoleLine(line) =>
        EnterMain(line);
        var _ := CmdProc(line);
      case ScriptStep(n) =>
        var issued := StepScript(n);
        ValidFacts();
        if issued != [] {
          var _ := CmdProc(issued[0]);
        } else {
          NothingRuns(config, world);
        }
      case Suspended(num) =>
        SuspendPhone(num);
        ValidFacts();
        NothingRuns(config, world);
      case ReceiverEnds =>
        EndReceiver();
        ValidFacts();
        NothingRuns(config, world);
    }
  }

  lemma StartIs()
    ensures START.Sized() && START.clients == Clients.EMPTY && START.threads == Modes.IDLE
    ensures START.queue == [] && START.clock == 0 && START.self == ERROR
    ensures START.jobs == seq(MAX_SCRIPT_THREAD, _ => NO_JOB)
    ensures |START.params| == MAX_TOKEN && forall i :: 0 <= i < MAX_TOKEN ==> START.params[i] == -1
  {
  }

  lemma NothingRuns(c: Config, w: World)
    requires w.Sized() && Fair(c.kernel)
    ensures ExecAll(c, w, []) == w
  {
  }

  /** gCmdParam after getTokens, pointer by pointer. */
  lemma LineFields(line: string)
    ensures Argv(line) == Fields(line, C_SPACE) && |Argv(line)| <= MAX_TOKEN
    ensures |Argv(line)| < MAX_TOKEN ==> |Split(Truncate(line, MAX_SC_CONTENT), C_SPACE)| <= MAX_TOKEN
  {
  }

  lemma PointersAfter(was: seq<int>, starts: seq<int>, now: seq<int>)
    requires |was| == |now| == MAX_TOKEN && |starts| <= MAX_TOKEN && now[..|starts|] == starts
    requires forall i :: |starts| <= i < MAX_TOKEN ==> now[i] == was[i]
    ensures now == Pointed(was, starts)
  {
    assert forall i :: 0 <= i < |starts| ==> now[i] == now[..|starts|][i];
  }

  lemma OtherPointers(was: seq<int>, starts: seq<int>, now: seq<int>)
    requires |was| == MAX_TOKEN && |starts| <= MAX_TOKEN && now == Pointed(was, starts)
    ensures |now| == MAX_TOKEN && forall i :: |starts| <= i < MAX_TOKEN ==> now[i] == was[i]
  {
  }

  /** Where the first argument tells stop what to do, the second does not matter. */
  lemma StopNeeds(t: Modes.State, argv: seq<string>, third: string, self: int)
    requires t.Sized() && argv != []
    ensures |argv| > 1 && StopWord(argv[1]) ==>
      Modes.Stop(t, |argv| - 1, argv[1], "", self) == Modes.Stop(t, |argv| - 1, argv[1], third, self)
    ensures |argv| != 2 && |argv| != 3 ==> Modes.Stop(t, |argv| - 1, ArgAt(argv, 1), third, self) == t
  {
  }

  /** A script thread asked for in slot n. */
  function ThreadRun(c: Config, w: World, n: int, name: string): World
    requires w.Sized()
  {
    if !Modes.CanRun(w.threads, 2, n, c.kernel(w.clock)) then w.Tick(2)
    else w.(threads := Modes.RunScript(w.threads, 2, n, c.kernel(w.clock), FileRows(c, name)),
            jobs := w.jobs[n := NewJob(c, name, c.kernel(w.clock + 1))]).Tick(2)
  }

  lemma ThreadRunParts(c: Config, w: World, n: int, name: string)
    requires w.Sized()
    ensures Modes.CanRun(w.threads, 2, n, c.kernel(w.clock)) ==> 0 <= n < MAX_SCRIPT_THREAD
    ensures ThreadRun(c, w, n, name).Sized()
    ensures ThreadRun(c, w, n, name) ==
      w.(threads := Modes.RunScript(w.threads, 2, n, c.kernel(w.clock), FileRows(c, name)),
         jobs := if Modes.CanRun(w.threads, 2, n, c.kernel(w.clock))
                 then w.jobs[n := NewJob(c, name, c.kernel(w.clock + 1))] else w.jobs,
         clock := w.clock + 2)
  {
    NotStarted(w.threads, 2, n, c.kernel(w.clock), FileRows(c, name));
    hide Modes.RunScript, Modes.CanRun, NewJob, FileRows;
  }

  lemma ArgIs(argv: seq<string>, i: nat)
    requires i < |argv|
    ensures ArgAt(argv, i) == argv[i]
  {
  }

  /** A thread that does not start leaves the IDs as they are. */
  lemma NotStarted(t: Modes.State, argc: int, n: int, answer: int, rows: Option<seq<string>>)
    requires t.Sized()
    ensures !Modes.CanRun(t, argc, n, answer) ==> Modes.RunScript(t, argc, n, answer, rows) == t
    ensures Modes.CanRun(t, argc, n, answer) ==> 0 <= n < MAX_SCRIPT_THREAD
  {
  }

  lemma NoSpaceInNames(str: string)
    requires str == "" || C_SPACE in str
    ensures CmdCode(str) == FAILED
  {
    hide EntryOf, SearchFrom, Names;
    SearchFinds(str);
    if CmdCode(str) != FAILED {
      NameIsToken(CmdCode(str), str);
    }
  }

  /** A handler other than autoConfig runs no file, and the line's effect is the handler's. */
  lemma HandlerRuns(c: Config, w: World, line: string, h: Handler)
    requires w.Sized() && Fair(c.kernel) && w.Alive() && Argv(line) != [] && HandlerOf(Argv(line)[0]) == Some(h)
    ensures Exec(c, w, line) == Handle(c, Noted(w, line), h, Argv(line), ThirdRead(w.params, line))
    ensures h != AutoConfig ==> Included(c.files, line) == None
  {
    hide Argv, HandlerOf, Handle, Fair, ThirdRead, Noted;
  }

  /** The handlers that change the client tables. */
  lemma ClientHandlers(c: Config, w: World, h: Handler, argv: seq<string>, third: string)
    requires w.Sized() && argv != [] && Fair(c.kernel)
    ensures h == AddClient ==> Handle(c, w, h, argv, third) == if |argv| < 3 then w else
        w.(clients := Clients.Add(w.clients, Atoi(argv[1]), argv[2], c.kernel(w.clock))).Tick(1)
    ensures h == ChangeClientIpAddr ==> Handle(c, w, h, argv, third) == if |argv| < 3 then w else
        w.(clients := Clients.ChangeIp(w.clients, Atoi(argv[1]), argv[2], c.kernel(w.clock))).Tick(1)
    ensures h == DelClient ==> Handle(c, w, h, argv, third) == if |argv| < 2 then w else
        w.(clients := Clients.Del(w.clients, Atoi(argv[1])))
  {
    hide Clients.Add, Clients.ChangeIp, Clients.Del, Atoi, Fair;
  }

  /** start and stop look at their first argument, if there is one. */
  lemma ThreadHandlers(c: Config, w: World, argv: seq<string>, third: string, word: string)
    requires w.Sized() && argv != [] && Fair(c.kernel) && word == ArgAt(argv, 1)
    ensures Handle(c, w, Start, argv, third) == Started(c, w, |argv| - 1, word)
    ensures Handle(c, w, Stop, argv, third) == w.(threads := Modes.Stop(w.threads, |argv| - 1, word, third, w.self))
  {
    hide Modes.Start, Modes.Stop, ArgAt, Fair;
  }

  function Started(c: Config, w: World, argc: int, word: string): World
    requires w.Sized()
  {
    w.(threads := Modes.Start(w.threads, argc, word, c.kernel(w.clock) != FAILED, c.kernel(w.clock + 1),
                              c.kernel(w.clock + 2))).Tick(3)
  }

  /** runScript runs a thread when it has two arguments. */
  lemma RunScriptHandler(c: Config, w: World, argv: seq<string>, third: string)
    requires w.Sized() && argv != [] && Fair(c.kernel)
    ensures |argv| != 3 ==> Handle(c, w, RunScript, argv, third) == w.Tick(2)
    ensures |argv| == 3 ==>
      Handle(c, w, RunScript, argv, third) == ThreadRun(c, w, Atoi(argv[1]), FileName(argv[2]))
  {
    hide Modes.RunScript, NewJob, FileName, FileRows, Atoi, Fair;
  }

  /** The handlers whose effect is a message or nothing. */
  lemma PlainHandlers(c: Config, w: World, h: Handler, argv: seq<string>, third: string)
    requires w.Sized() && argv != [] && Fair(c.kernel)
    ensures h == Ioevt ==> Handle(c, w, h, argv, third) == Send(c, w, IoevtMsg(argv, w.threads.sendId))
    ensures h == Call ==> Handle(c, w, h, argv, third) == Send(c, w, CallMsg(argv, w.threads.sendId))
    ensures h == SyslogConf ==>
      Handle(c, w, h, argv, third) == Send(c, w, SyslogMsg(argv, w.threads.sendId, c.syslogPort))
    ensures h == HideFeatureProc ==> Handle(c, w, h, argv, third) == Send(c, w, HideFeatureMsg(argv, w.threads.sendId))
    ensures h == RandomKey ==>
      Handle(c, w, h, argv, third) == if |argv| == 2 then RandomKeyEffect(c, w, argv[1]) else w
    ensures h.ShowHelp? || h.AutoConfig? || h.Delay? || h.Look? || h.RandomTime? || h.ShowClient? ==>
      Handle(c, w, h, argv, third) == w
  {
    hide Send, IoevtMsg, CallMsg, SyslogMsg, HideFeatureMsg, RandomKeyEffect, Fair;
  }

  /** What a line may rely on to be there. */
  lemma LineNeeds(params: seq<int>, line: string)
    requires |params| == MAX_TOKEN && LineOk(params, line)
    ensures NUL !in line && '%' !in line && (Argv(line) == [] ==> params[0] >= 0)
    ensures Argv(line) != [] && HandlerOf(Argv(line)[0]) == Some(DelClient) ==> |Argv(line)| >= 2 || params[1] >= 0
    ensures Argv(line) != [] && HandlerOf(Argv(line)[0]) == Some(Stop) && |Argv(line)| == 2 && !StopWord(Argv(line)[1])
      ==> params[2] >= 0
  {
    hide Argv, HandlerOf, ThirdRead;
  }

  /** Slot number 10 is out of the way. */
  lemma SlotNeeds(params: seq<int>, line: string, h: Handler)
    requires |params| == MAX_TOKEN && LineOk(params, line) && Argv(line) != [] && HandlerOf(Argv(line)[0]) == Some(h)
    ensures h == RunScript && |Argv(line)| == 3 ==> Atoi(Argv(line)[1]) != MAX_SCRIPT_THREAD
    ensures h == Stop && (|Argv(line)| == 2 || |Argv(line)| == 3) ==>
      !StopWord(Argv(line)[1]) && ThirdRead(params, line) == Modes.PARAM_SC ==>
      Atoi(Argv(line)[1]) != MAX_SCRIPT_THREAD
  {
    hide Argv, HandlerOf, ThirdRead;
  }

  /** A line whose first token is no command changes nothing but the record and the pointers. */
  lemma NoCommand(c: Config, w: World, line: string)
    requires w.Sized() && Fair(c.kernel) && w.Alive()
    ensures Argv(line) == [] || CmdCode(Argv(line)[0]) == FAILED ==>
      Exec(c, w, line) == Noted(w, line) && Included(c.files, line) == None
  {
    hide Argv, CmdCode, Handle, Fair, Noted;
  }

  lemma FoundCommand(str: string)
    ensures CmdCode(str) != FAILED ==>
      0 <= CmdCode(str) < MAX_CMD_NUM && HandlerOf(str) == Some(CmdAt(CmdCode(str)).func)
  {
  }
}
