/**
 The commands and what they mean (core/src/at_cmdProc.c): the table gCmdLib and its search, the
 messages that ioevt, call, syslog and hideFeature queue, and the effect of one command line.
 */
module Commands {
  import opened Common
  import opened CStrings
  import opened Tokens
  import opened KeyMap
  import Loader
  import Clients
  import Modes
  import Threads

  const MAX_CMD_NUM: nat := 19
  const MAX_FILE_NAME: nat := 60
  const MAX_CMD_CODE: nat := 15
  const MAX_IOEVT: nat := 10
  const MAX_ACT_LENTH: nat := 5
  const MAX_SHARED_LENTH: nat := 60
  const RAND_MAX: nat := 0x7fff_ffff
  const KEY_PRESS := "p"
  const KEY_LONG_PRESS := "l"
  const STR_CLIENT := "client"
  const STR_SYSLOG_PORT := "syslogPort"

  datatype Handler =
    | ShowHelp | AutoConfig | AddClient | Call | ChangeClientIpAddr | DelClient | Delay | Ioevt | Look | Quit
    | RunScript | RandomTime | RandomKey | ShowClient | Start | Stop | SyslogConf | HideFeatureProc

  datatype Cmd = Cmd(cmdName: string, nickName: string, func: Handler)

  /** Entry i of gCmdLib; `call` stands in it twice. */
  function CmdAt(i: nat): Cmd
    requires i < MAX_CMD_NUM
  {
    match i
    case 0 => Cmd("help", "h", ShowHelp)
    case 1 => Cmd("autoConfig", "ac", AutoConfig)
    case 2 => Cmd("add", "ad", AddClient)
    case 3 => Cmd("call", "call", Call)
    case 4 => Cmd("changeIp", "ci", ChangeClientIpAddr)
    case 5 => Cmd("del", "dl", DelClient)
    case 6 => Cmd("delay", "dy", Delay)
    case 7 => Cmd("ioevt", "ie", Ioevt)
    case 8 => Cmd("call", "call", Call)
    case 9 => Cmd("look", "l", Look)
    case 10 => Cmd("quit", "q", Quit)
    case 11 => Cmd("runScript", "rs", RunScript)
    case 12 => Cmd("randomTime", "rt", RandomTime)
    case 13 => Cmd("randomKey", "rk", RandomKey)
    case 14 => Cmd("show", "s", ShowClient)
    case 15 => Cmd("start", "st", Start)
    case 16 => Cmd("stop", "sp", Stop)
    case 17 => Cmd("syslog", "sl", SyslogConf)
    case _ => Cmd("hideFeature", "hf", HideFeatureProc)
  }

  predicate Names(i: nat, str: string)
    requires i < MAX_CMD_NUM
  {
    CmdAt(i).cmdName == str || CmdAt(i).nickName == str
  }

  /** getCmdCode from entry i on: the first entry with that name or nickname. */
  function SearchFrom(str: string, i: nat): (c: int)
    requires i <= MAX_CMD_NUM
    ensures c == FAILED || (i <= c < MAX_CMD_NUM && Names(c, str))
    decreases MAX_CMD_NUM - i
  {
    if i == MAX_CMD_NUM then FAILED
    else if Names(i, str) then i
    else SearchFrom(str, i + 1)
  }

  function CmdCode(str: string): int
  {
    SearchFrom(str, 0)
  }

  /** The result is the first entry with that name or nickname, and FAILED when there is none. */
  method GetCmdCode(str: string) returns (cmd: int)
    ensures cmd == FAILED ==> forall k :: 0 <= k < MAX_CMD_NUM ==> !Names(k, str)
    ensures cmd != FAILED ==> 0 <= cmd < MAX_CMD_NUM && Names(cmd, str) && forall k :: 0 <= k < cmd ==> !Names(k, str)
    ensures cmd == CmdCode(str)
  {
    cmd := 0;
    while cmd < MAX_CMD_NUM
      invariant 0 <= cmd <= MAX_CMD_NUM && forall k :: 0 <= k < cmd ==> !Names(k, str)
    {
      if CmdAt(cmd).cmdName == str || CmdAt(cmd).nickName == str {
        SearchSkips(str, 0, cmd);
        return;
      }
      cmd := cmd + 1;
    }
    SearchSkips(str, 0, MAX_CMD_NUM);
    cmd := FAILED;
  }

  function HandlerOf(str: string): Option<Handler>
  {
    var c := CmdCode(str);
    if c == FAILED then None else Some(CmdAt(c).func)
  }

  lemma {:induction false} SearchSkips(str: string, i: nat, j: nat)
    requires i <= j <= MAX_CMD_NUM && forall k :: i <= k < j ==> !Names(k, str)
    ensures SearchFrom(str, i) == SearchFrom(str, j)
    decreases j - i
  {
    if i < j {
      SearchSkips(str, i + 1, j);
    }
  }

  lemma NamedLike(str: string, i: nat)
    requires i < MAX_CMD_NUM && HandlerOf(str) == Some(CmdAt(i).func)
    requires forall k :: 0 <= k < MAX_CMD_NUM && CmdAt(k).func == CmdAt(i).func ==>
      CmdAt(k).cmdName == CmdAt(i).cmdName && CmdAt(k).nickName == CmdAt(i).nickName
    ensures Names(i, str)
  {
  }

  lemma OnlyIoevt(str: string)
    ensures HandlerOf(str) == Some(Ioevt) ==> str == "ioevt" || str == "ie"
  {
    hide CmdCode;
    if HandlerOf(str) == Some(Ioevt) {
      NamedLike(str, 7);
    }
  }

  lemma OnlyCall(str: string)
    ensures HandlerOf(str) == Some(Call) ==> str == "call"
  {
    hide CmdCode;
    if HandlerOf(str) == Some(Call) {
      NamedLike(str, 3);
    }
  }

  lemma OnlySyslog(str: string)
    ensures HandlerOf(str) == Some(SyslogConf) ==> str == "syslog" || str == "sl"
  {
    hide CmdCode;
    if HandlerOf(str) == Some(SyslogConf) {
      NamedLike(str, 17);
    }
  }

  lemma OnlyHideFeature(str: string)
    ensures HandlerOf(str) == Some(HideFeatureProc) ==> str == "hideFeature" || str == "hf"
  {
    hide CmdCode;
    if HandlerOf(str) == Some(HideFeatureProc) {
      NamedLike(str, 18);
    }
  }

  lemma OnlyAdd(str: string)
    ensures HandlerOf(str) == Some(AddClient) ==> str == "add" || str == "ad"
  {
    hide CmdCode;
    if HandlerOf(str) == Some(AddClient) {
      NamedLike(str, 2);
    }
  }

  lemma OnlyChangeIp(str: string)
    ensures HandlerOf(str) == Some(ChangeClientIpAddr) ==> str == "changeIp" || str == "ci"
  {
    hide CmdCode;
    if HandlerOf(str) == Some(ChangeClientIpAddr) {
      NamedLike(str, 4);
    }
  }

  lemma OnlyDel(str: string)
    ensures HandlerOf(str) == Some(DelClient) ==> str == "del" || str == "dl"
  {
    hide CmdCode;
    if HandlerOf(str) == Some(DelClient) {
      NamedLike(str, 5);
    }
  }

  lemma OnlyStart(str: string)
    ensures HandlerOf(str) == Some(Start) ==> str == "start" || str == "st"
  {
    hide CmdCode;
    if HandlerOf(str) == Some(Start) {
      NamedLike(str, 15);
    }
  }

  lemma OnlyStop(str: string)
    ensures HandlerOf(str) == Some(Stop) ==> str == "stop" || str == "sp"
  {
    hide CmdCode;
    if HandlerOf(str) == Some(Stop) {
      NamedLike(str, 16);
    }
  }

  lemma OnlyQuit(str: string)
    ensures HandlerOf(str) == Some(Quit) ==> str == "quit" || str == "q"
  {
    hide CmdCode;
    if HandlerOf(str) == Some(Quit) {
      NamedLike(str, 10);
    }
  }

  lemma OnlyRunScript(str: string)
    ensures HandlerOf(str) == Some(RunScript) ==> str == "runScript" || str == "rs"
  {
    hide CmdCode;
    if HandlerOf(str) == Some(RunScript) {
      NamedLike(str, 11);
    }
  }

  lemma OnlyAutoConfig(str: string)
    ensures HandlerOf(str) == Some(AutoConfig) ==> str == "autoConfig" || str == "ac"
  {
    hide CmdCode;
    if HandlerOf(str) == Some(AutoConfig) {
      NamedLike(str, 1);
    }
  }

  lemma OnlyRandomKey(str: string)
    ensures HandlerOf(str) == Some(RandomKey) ==> str == "randomKey" || str == "rk"
  {
    hide CmdCode;
    if HandlerOf(str) == Some(RandomKey) {
      NamedLike(str, 13);
    }
  }

  /** The commands that queue messages run only under their own two names. */
  lemma SenderNames(str: string)
    ensures HandlerOf(str) == Some(Ioevt) ==> str == "ioevt" || str == "ie"
    ensures HandlerOf(str) == Some(Call) ==> str == "call"
    ensures HandlerOf(str) == Some(SyslogConf) ==> str == "syslog" || str == "sl"
    ensures HandlerOf(str) == Some(HideFeatureProc) ==> str == "hideFeature" || str == "hf"
  {
    hide HandlerOf;
    OnlyIoevt(str);
    OnlyCall(str);
    OnlySyslog(str);
    OnlyHideFeature(str);
  }

  /** The first entry with a name or nickname, written down the other way round. */
  function EntryOf(str: string): int
  {
    match |str|
    case 1 =>
      (match str[0]
       case 'h' => 0
       case 'l' => 9
       case 'q' => 10
       case 's' => 14
       case _ => FAILED)
    case 2 => EntryOfPair(str[0], str[1])
    case 3 => if str == "add" then 2 else if str == "del" then 5 else FAILED
    case 4 =>
      if str == "help" then 0 else if str == "call" then 3 else if str == "look" then 9
      else if str == "quit" then 10 else if str == "show" then 14 else if str == "stop" then 16 else FAILED
    case 5 => if str == "delay" then 6 else if str == "ioevt" then 7 else if str == "start" then 15 else FAILED
    case 6 => if str == "syslog" then 17 else FAILED
    case 8 => if str == "changeIp" then 4 else FAILED
    case 9 => if str == "runScript" then 11 else if str == "randomKey" then 13 else FAILED
    case 10 => if str == "autoConfig" then 1 else if str == "randomTime" then 12 else FAILED
    case 11 => if str == "hideFeature" then 18 else FAILED
    case _ => FAILED
  }

  function EntryOfPair(c: char, d: char): int
  {
    match c
    case 'a' => if d == 'c' then 1 else if d == 'd' then 2 else FAILED
    case 'c' => if d == 'i' then 4 else FAILED
    case 'd' => if d == 'l' then 5 else if d == 'y' then 6 else FAILED
    case 'i' => if d == 'e' then 7 else FAILED
    case 'r' => if d == 's' then 11 else if d == 't' then 12 else if d == 'k' then 13 else FAILED
    case 's' => if d == 't' then 15 else if d == 'p' then 16 else if d == 'l' then 17 else FAILED
    case 'h' => if d == 'f' then 18 else FAILED
    case _ => FAILED
  }

  lemma EntryNames(k: nat, str: string)
    requires k < MAX_CMD_NUM && Names(k, str)
    ensures EntryOf(str) == if k == 8 then 3 else k
  {
  }

  lemma ShortEntries(str: string)
    requires |str| <= 2 && EntryOf(str) != FAILED
    ensures 0 <= EntryOf(str) < MAX_CMD_NUM && Names(EntryOf(str), str)
  {
  }

  lemma LongEntries(str: string)
    requires |str| > 2 && EntryOf(str) != FAILED
    ensures 0 <= EntryOf(str) < MAX_CMD_NUM && Names(EntryOf(str), str)
  {
  }

  /** A name or nickname is one word. */
  lemma NameIsToken(k: nat, str: string)
    requires k < MAX_CMD_NUM && Names(k, str)
    ensures IsToken(str, ' ')
  {
    hide Names, IsToken;
    if |str| <= 3 {
      ShortName(k, str);
    } else if |str| <= 6 {
      MiddleName(k, str);
    } else if |str| <= 9 {
      LongName(k, str);
    } else {
      LongestName(k, str);
    }
  }

  lemma ShortName(k: nat, str: string)
    requires k < MAX_CMD_NUM && Names(k, str) && |str| <= 3
    ensures IsToken(str, ' ')
  {
  }

  lemma MiddleName(k: nat, str: string)
    requires k < MAX_CMD_NUM && Names(k, str) && 3 < |str| <= 6
    ensures IsToken(str, ' ')
  {
  }

  lemma LongName(k: nat, str: string)
    requires k < MAX_CMD_NUM && Names(k, str) && 6 < |str| <= 9
    ensures IsToken(str, ' ')
  {
  }

  lemma LongestName(k: nat, str: string)
    requires k < MAX_CMD_NUM && Names(k, str) && |str| > 9
    ensures IsToken(str, ' ')
  {
  }

  /** So the search finds every name and nickname, in its first entry, and nothing else. */
  lemma SearchFinds(str: string)
    ensures CmdCode(str) == EntryOf(str)
  {
    hide Names, EntryOf;
    if EntryOf(str) == FAILED {
      forall k | 0 <= k < MAX_CMD_NUM ensures !Names(k, str) {
        if Names(k, str) {
          EntryNames(k, str);
        }
      }
      SearchSkips(str, 0, MAX_CMD_NUM);
    } else {
      if |str| <= 2 {
        ShortEntries(str);
      } else {
        LongEntries(str);
      }
      EntryNames(EntryOf(str), str);
      FoundAt(str, EntryOf(str));
    }
  }

  lemma FoundAt(str: string, i: nat)
    requires i < MAX_CMD_NUM && Names(i, str) && EntryOf(str) == i
    ensures CmdCode(str) == i && HandlerOf(str) == Some(CmdAt(i).func)
  {
    hide EntryOf, Names;
    forall k | 0 <= k < i ensures !Names(k, str) {
      if Names(k, str) {
        EntryNames(k, str);
        EntryNames(i, str);
      }
    }
    SearchSkips(str, 0, i);
  }

  lemma AutoConfigIsFound()
    ensures HandlerOf("autoConfig") == Some(AutoConfig) && HandlerOf("ac") == Some(AutoConfig)
  {
    hide HandlerOf;
    FoundAt("autoConfig", 1);
    FoundAt("ac", 1);
  }

  lemma AddIsFound()
    ensures HandlerOf("add") == Some(AddClient) && HandlerOf("ad") == Some(AddClient)
  {
    hide HandlerOf;
    FoundAt("add", 2);
    FoundAt("ad", 2);
  }

  lemma CallIsFound()
    ensures HandlerOf("call") == Some(Call)
  {
    hide HandlerOf;
    FoundAt("call", 3);
  }

  lemma ChangeIpIsFound()
    ensures HandlerOf("changeIp") == Some(ChangeClientIpAddr) && HandlerOf("ci") == Some(ChangeClientIpAddr)
  {
    hide HandlerOf;
    FoundAt("changeIp", 4);
    FoundAt("ci", 4);
  }

  lemma DelIsFound()
    ensures HandlerOf("del") == Some(DelClient) && HandlerOf("dl") == Some(DelClient)
  {
    hide HandlerOf;
    FoundAt("del", 5);
    FoundAt("dl", 5);
  }

  lemma IoevtIsFound()
    ensures HandlerOf("ioevt") == Some(Ioevt) && HandlerOf("ie") == Some(Ioevt)
  {
    hide HandlerOf;
    FoundAt("ioevt", 7);
    FoundAt("ie", 7);
  }

  lemma QuitIsFound()
    ensures HandlerOf("quit") == Some(Quit) && HandlerOf("q") == Some(Quit)
  {
    hide HandlerOf;
    FoundAt("quit", 10);
    FoundAt("q", 10);
  }

  lemma RunScriptIsFound()
    ensures HandlerOf("runScript") == Some(RunScript) && HandlerOf("rs") == Some(RunScript)
  {
    hide HandlerOf;
    FoundAt("runScript", 11);
    FoundAt("rs", 11);
  }

  lemma RandomKeyIsFound()
    ensures HandlerOf("randomKey") == Some(RandomKey) && HandlerOf("rk") == Some(RandomKey)
  {
    hide HandlerOf;
    FoundAt("randomKey", 13);
    FoundAt("rk", 13);
  }

  lemma StartIsFound()
    ensures HandlerOf("start") == Some(Start) && HandlerOf("st") == Some(Start)
  {
    hide HandlerOf;
    FoundAt("start", 15);
    FoundAt("st", 15);
  }

  lemma StopIsFound()
    ensures HandlerOf("stop") == Some(Stop) && HandlerOf("sp") == Some(Stop)
  {
    hide HandlerOf;
    FoundAt("stop", 16);
    FoundAt("sp", 16);
  }

  lemma SyslogIsFound()
    ensures HandlerOf("syslog") == Some(SyslogConf) && HandlerOf("sl") == Some(SyslogConf)
  {
    hide HandlerOf;
    FoundAt("syslog", 17);
    FoundAt("sl", 17);
  }

  lemma HideFeatureIsFound()
    ensures HandlerOf("hideFeature") == Some(HideFeatureProc) && HandlerOf("hf") == Some(HideFeatureProc)
  {
    hide HandlerOf;
    FoundAt("hideFeature", 18);
    FoundAt("hf", 18);
  }

  /** What each command that does something is called. */
  predicate Called(h: Handler, str: string)
  {
    match h
    case AutoConfig => str == "autoConfig" || str == "ac"
    case AddClient => str == "add" || str == "ad"
    case Call => str == "call"
    case ChangeClientIpAddr => str == "changeIp" || str == "ci"
    case DelClient => str == "del" || str == "dl"
    case Ioevt => str == "ioevt" || str == "ie"
    case Quit => str == "quit" || str == "q"
    case RunScript => str == "runScript" || str == "rs"
    case RandomKey => str == "randomKey" || str == "rk"
    case Start => str == "start" || str == "st"
    case Stop => str == "stop" || str == "sp"
    case SyslogConf => str == "syslog" || str == "sl"
    case HideFeatureProc => str == "hideFeature" || str == "hf"
    case _ => false
  }

  predicate DoesSomething(h: Handler)
  {
    match h
    case ShowHelp => false
    case Delay => false
    case Look => false
    case RandomTime => false
    case ShowClient => false
    case _ => true
  }

  /** A command that does something is run under its two names, and under no other. */
  lemma RunsUnder(str: string, h: Handler)
    requires DoesSomething(h)
    ensures HandlerOf(str) == Some(h) <==> Called(h, str)
  {
    hide HandlerOf;
    match h
    case AutoConfig =>
      AutoConfigIsFound();
      OnlyAutoConfig(str);
    case AddClient =>
      AddIsFound();
      OnlyAdd(str);
    case Call =>
      CallIsFound();
      OnlyCall(str);
    case ChangeClientIpAddr =>
      ChangeIpIsFound();
      OnlyChangeIp(str);
    case DelClient =>
      DelIsFound();
      OnlyDel(str);
    case Ioevt =>
      IoevtIsFound();
      OnlyIoevt(str);
    case Quit =>
      QuitIsFound();
      OnlyQuit(str);
    case RunScript =>
      RunScriptIsFound();
      OnlyRunScript(str);
    case RandomKey =>
      RandomKeyIsFound();
      OnlyRandomKey(str);
    case Start =>
      StartIsFound();
      OnlyStart(str);
    case Stop =>
      StopIsFound();
      OnlyStop(str);
    case SyslogConf =>
      SyslogIsFound();
      OnlySyslog(str);
    case HideFeatureProc =>
      HideFeatureIsFound();
      OnlyHideFeature(str);
  }

  // ---- Random draws ----

  /** rand() is some number up to RAND_MAX; `answer` is the system's choice. */
  function RandOf(answer: int): nat
  {
    answer % (RAND_MAX + 1)
  }

  /** getRandValue, with exact arithmetic in place of float. */
  function RandValue(minRand: int, maxRand: int, r: nat): int
  {
    if maxRand <= 0 || minRand < 0 || maxRand < minRand then FAILED
    else minRand + maxRand * r / (RAND_MAX + 1)
  }

  lemma RandValueRange(minRand: int, maxRand: int, r: nat)
    requires 0 <= minRand <= maxRand && 0 < maxRand && r <= RAND_MAX
    ensures minRand <= RandValue(minRand, maxRand, r) < minRand + maxRand
  {
    Product(maxRand, r, RAND_MAX + 1);
    Quotient(maxRand * r, maxRand, RAND_MAX + 1);
  }

  /** It is the whole part of max times the draw's share of 2147483648, above min; bad bounds give -1. */
  lemma RandValueIs(minRand: int, maxRand: int, r: nat)
    requires r < 2147483648
    ensures 0 <= minRand <= maxRand && 0 < maxRand ==>
      var k := RandValue(minRand, maxRand, r) - minRand;
      k * 2147483648 <= maxRand * r < (k + 1) * 2147483648
    ensures !(0 <= minRand <= maxRand && 0 < maxRand) ==> RandValue(minRand, maxRand, r) == -1
  {
  }

  /** Every key index is drawn by some number, and only those are. */
  lemma AllKeysAreDrawn(i: nat)
    requires i <= 254
    ensures KeyIndex((i * 2147483648 + 254) / 255) == i
  {
    var r := (i * 2147483648 + 254) / 255;
    assert 255 * r <= i * 2147483648 + 254 < 255 * (r + 1);
    assert RandOf(r) == r;
  }

  lemma Product(a: nat, r: nat, d: nat)
    requires a > 0 && r < d
    ensures 0 <= a * r < a * d
  {
  }

  lemma Quotient(x: nat, a: nat, d: nat)
    requires d > 0 && x < a * d
    ensures 0 <= x / d < a
  {
    var q := x / d;
    assert q * d <= x;
    LessFactor(q, a, d);
  }

  lemma LessFactor(a: int, b: int, d: nat)
    requires d > 0 && a * d < b * d
    ensures a < b
  {
  }

  function KeyIndex(answer: int): (i: nat)
    ensures i < MAX_KEY_NUM
  {
    RandValueRange(0, MAX_KEY_NUM, RandOf(answer));
    RandValue(0, MAX_KEY_NUM, RandOf(answer))
  }

  // ---- The world ----

  datatype Body = Keys(codes: seq<string>, action: string) | Shared(text: string)

  /** A message in the queue: msgQ_t. */
  datatype Msg = Msg(clientNum: int, cmdCode: string, body: Body)

  /** What does not change: the files, the system's answers to calls, and the syslog port. */
  datatype Config = Config(files: map<string, string>, kernel: nat -> int, syslogPort: int)

  /**
   A script slot: its thread, the lines it has issued, its run counter, and the rows of the file it
   was started with.  The thread reads its rows from its buffer (Modes.RowsOf).
   */
  datatype Job = Job(rows: seq<string>, thread: Threads.Thread, issued: seq<string>, count: int)

  /** A slot that has not run yet. */
  const NO_JOB := Job([], Threads.Thread(Threads.Exited, 0, 0, 0, 0), [], 0)

  /**
   What the commands work on.  `queue` lists every message ever sent and `sentAt` the threads at
   that moment; `params` are the offsets in gCmdParam, -1 for NULL; `log` lists every line
   handed to cmd_proc; `self` is the ID of the thread that runs the lines now, 0 for main.
   */
  datatype World = World(clients: Clients.Registry, threads: Modes.State, jobs: seq<Job>, queue: seq<Msg>,
                         sentAt: seq<Modes.State>, clock: nat, params: seq<int>, log: seq<string>, self: int)
  {
    predicate Sized()
    {
      && clients.Sized() && threads.Sized() && |jobs| == MAX_SCRIPT_THREAD
      && |params| == MAX_TOKEN && forall i :: 0 <= i < MAX_TOKEN ==> -1 <= params[i] < MAX_SC_CONTENT
    }

    /** The thread that runs the lines is still there. */
    predicate Alive()
    {
      Modes.Alive(threads, self)
    }

    function Tick(n: nat): World
    {
      this.(clock := clock + n)
    }
  }

  const START := World(Clients.EMPTY, Modes.IDLE, seq(MAX_SCRIPT_THREAD, _ => NO_JOB), [], [], 0,
                       seq(MAX_TOKEN, _ => -1), [], 0)

  // ---- Messages ----

  predicate ClientOk(arg: string)
  {
    0 <= Atoi(arg) < Clients.MAX_CLIENT
  }

  /** The command code of a message: the full name when the nickname was typed. */
  function CodeFor(str: string, i: nat): string
    requires i < MAX_CMD_NUM
  {
    if str == CmdAt(i).nickName then CmdAt(i).cmdName else Truncate(str, MAX_CMD_CODE)
  }

  /** The codes of a list of keys, or nothing when one of them is unknown. */
  function Translate(tokens: seq<string>): Option<seq<string>>
  {
    if tokens == [] then Some([])
    else if SlotOf(tokens[0]) == FAILED then None
    else
      var rest := Translate(tokens[1..]);
      if rest.None? then None else Some([KeyAt(SlotOf(tokens[0])).code] + rest.value)
  }

  /** The keys in the 20-byte keyCodes buffer. */
  function KeyTokens(arg: string): seq<string>
  {
    Fields(Truncate(arg, 2 * MAX_IOEVT), ',')
  }

  function IoevtMsg(argv: seq<string>, sendId: int): Option<Msg>
    requires argv != []
  {
    if |argv| != 4 || (argv[3] != KEY_PRESS && argv[3] != KEY_LONG_PRESS) then None
    else if !ClientOk(argv[1]) || sendId == ERROR then None
    else
      var codes := Translate(KeyTokens(argv[2]));
      if codes.None? then None
      else Some(Msg(Atoi(argv[1]), CodeFor(argv[0], 7), Keys(codes.value, argv[3])))
  }

  function CallMsg(argv: seq<string>, sendId: int): Option<Msg>
    requires argv != []
  {
    if |argv| != 3 || !ClientOk(argv[1]) || sendId == ERROR then None
    else Some(Msg(Atoi(argv[1]), Truncate(argv[0], MAX_CMD_CODE), Shared(Truncate(argv[2], MAX_SHARED_LENTH))))
  }

  function SyslogMsg(argv: seq<string>, sendId: int, port: int): Option<Msg>
    requires argv != []
  {
    if |argv| < 3 || !ClientOk(argv[1]) || sendId == ERROR then None
    else
      var tail := STR_CLIENT + " " + Decimal(Atoi(argv[1])) + " " + STR_SYSLOG_PORT + " " + Decimal(port);
      var text := if |argv| == 4 then argv[2] + " " + argv[3] + " " + tail else argv[2] + " " + tail;
      Some(Msg(Atoi(argv[1]), CodeFor(argv[0], 17), Shared(Truncate(text, MAX_SHARED_LENTH))))
  }

  function HideFeatureMsg(argv: seq<string>, sendId: int): Option<Msg>
    requires argv != []
  {
    if |argv| < 3 || !ClientOk(argv[1]) || sendId == ERROR then None
    else Some(Msg(Atoi(argv[1]), CodeFor(argv[0], 18), Shared(Truncate(argv[2], MAX_SHARED_LENTH))))
  }

  /** Words with a space between them. */
  function Spaced(words: seq<string>): string
    requires words != []
  {
    if |words| == 1 then words[0] else words[0] + " " + Spaced(words[1..])
  }

  /** The text is the beginning of the long one, as much as fits into 60 bytes with its NUL. */
  predicate FitsShared(text: string, long: string)
  {
    text <= long && |text| == if |long| <= 59 then |long| else 59
  }

  /**
   call makes a message exactly with three tokens, a client from 0 to 9 and the sender's ID set:
   for that client, with its own name and the number to call.
   */
  lemma CallMsgIs(argv: seq<string>, sendId: int)
    requires argv != [] && argv[0] == "call"
    ensures CallMsg(argv, sendId).Some? <==> |argv| == 3 && 0 <= Atoi(argv[1]) <= 9 && sendId != 0
    ensures CallMsg(argv, sendId).Some? ==>
      var m := CallMsg(argv, sendId).value;
      m.clientNum == Atoi(argv[1]) && m.cmdCode == "call" && m.body.Shared? && FitsShared(m.body.text, argv[2])
  {
    hide Atoi;
  }

  /** hideFeature the same with three tokens or more, under its full name, with the feature. */
  lemma HideFeatureMsgIs(argv: seq<string>, sendId: int)
    requires argv != [] && (argv[0] == "hideFeature" || argv[0] == "hf")
    ensures HideFeatureMsg(argv, sendId).Some? <==> |argv| >= 3 && 0 <= Atoi(argv[1]) <= 9 && sendId != 0
    ensures HideFeatureMsg(argv, sendId).Some? ==>
      var m := HideFeatureMsg(argv, sendId).value;
      m.clientNum == Atoi(argv[1]) && m.cmdCode == "hideFeature" && m.body.Shared? && FitsShared(m.body.text, argv[2])
  {
    hide Atoi;
  }

  /**
   syslog likewise; its text is the third token, the fourth if there are exactly four, and then the
   client and the port.
   */
  lemma SyslogMsgIs(argv: seq<string>, sendId: int, port: int)
    requires argv != [] && (argv[0] == "syslog" || argv[0] == "sl")
    ensures SyslogMsg(argv, sendId, port).Some? <==> |argv| >= 3 && 0 <= Atoi(argv[1]) <= 9 && sendId != 0
    ensures SyslogMsg(argv, sendId, port).Some? ==>
      var m := SyslogMsg(argv, sendId, port).value;
      var tail := ["client", Decimal(Atoi(argv[1])), "syslogPort", Decimal(port)];
      var words := if |argv| == 4 then [argv[2], argv[3]] + tail else [argv[2]] + tail;
      m.clientNum == Atoi(argv[1]) && m.cmdCode == "syslog" && m.body.Shared? && FitsShared(m.body.text, Spaced(words))
  {
    hide Atoi, Decimal, Spaced;
    if SyslogMsg(argv, sendId, port).Some? {
      SyslogText(argv, Decimal(Atoi(argv[1])), Decimal(port));
    }
  }

  lemma SyslogText(argv: seq<string>, client: string, port: string)
    requires |argv| >= 3
    ensures var tail := ["client", client, "syslogPort", port];
      var end := "client" + " " + client + " " + "syslogPort" + " " + port;
      && Spaced([argv[2]] + tail) == argv[2] + " " + end
      && (|argv| == 4 ==> Spaced([argv[2], argv[3]] + tail) == argv[2] + " " + argv[3] + " " + end)
  {
    hide Spaced;
    var tail := ["client", client, "syslogPort", port];
    FourSpaced("client", client, "syslogPort", port);
    SpacedFirst(argv[2], tail);
    if |argv| == 4 {
      SpacedFirst(argv[3], tail);
      SpacedFirst(argv[2], [argv[3]] + tail);
      assert [argv[2]] + ([argv[3]] + tail) == [argv[2], argv[3]] + tail;
      Regroup(argv[2] + " ", argv[3] + " ", Spaced(tail));
    }
  }

  lemma SpacedFirst(word: string, words: seq<string>)
    requires words != []
    ensures Spaced([word] + words) == word + " " + Spaced(words)
  {
    assert ([word] + words)[1..] == words;
  }

  lemma FourSpaced(a: string, b: string, c: string, d: string)
    ensures Spaced([a, b, c, d]) == a + " " + b + " " + c + " " + d
  {
    assert [a] + [b, c, d] == [a, b, c, d] && [b] + [c, d] == [b, c, d] && [c] + [d] == [c, d];
    SpacedFirst(a, [b, c, d]);
    SpacedFirst(b, [c, d]);
    SpacedFirst(c, [d]);
  }

  /** msgsnd, when there is a message; the system may refuse it. */
  function Send(c: Config, w: World, m: Option<Msg>): (w': World)
    ensures w'.clients == w.clients && w'.threads == w.threads && w'.jobs == w.jobs
    ensures w'.params == w.params && w'.log == w.log && w'.self == w.self
  {
    if m.None? then w
    else if c.kernel(w.clock) == FAILED then w.Tick(1)
    else w.(queue := w.queue + [m.value], sentAt := w.sentAt + [w.threads]).Tick(1)
  }
}
