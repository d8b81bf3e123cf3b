/**
 The effect of one command line on the world, and of a line that runs a config file: cmd_proc
 (core/src/at_cmdProc.c:229-240) as a function, with autoConfig (317-350) as the expansion of
 its include tree.
 */
module Effects {
  import opened Common
  import opened CStrings
  import opened Tokens
  import opened KeyMap
  import opened Commands
  import Loader
  import Script
  import Clients
  import Modes
  import Threads

  const C_SPACE := ' '

  /** The tokens cmd_proc finds in a line. */
  function Argv(line: string): seq<string>
  {
    Fields(line, C_SPACE)
  }

  /** gCmdParam after a line with tokens at `starts`: the pointers behind the last token keep their value. */
  function Pointed(params: seq<int>, starts: seq<int>): seq<int>
    requires |starts| <= |params|
  {
    starts + params[|starts|..]
  }

  /** Lines 232-233: the line is on record, and its tokens are pointed at. */
  function Noted(w: World, line: string): (w': World)
    requires w.Sized()
    ensures w'.Sized() && w'.threads == w.threads && w'.self == w.self
  {
    w.(params := Pointed(w.params, FieldStarts(line, C_SPACE)), log := w.log + [line])
  }

  /**
   What gCmdParam[2] reads while a line is handled: the line's third token, or whatever an older
   pointer finds in the buffer that the line was cut in.
   */
  function ThirdRead(params: seq<int>, line: string): string
  {
    if |Argv(line)| > 2 then Argv(line)[2]
    else if |params| > 2 && 0 <= params[2] < MAX_SC_CONTENT then StringAt(Cut(line, C_SPACE), params[2])
    else ""
  }

  // ---- randomKey ----

  ghost predicate HitFrom(kernel: nat -> int, n: nat)
  {
    exists d: nat :: n <= d && Populated(KeyIndex(kernel(d)))
  }

  /** The rejection loop of randomKey ends: populated keys keep being drawn. */
  ghost predicate Fair(kernel: nat -> int)
  {
    forall n: nat :: HitFrom(kernel, n)
  }

  ghost predicate IsNextHit(kernel: nat -> int, n: nat, d: nat)
  {
    n <= d && Populated(KeyIndex(kernel(d))) && forall k: nat :: n <= k < d ==> !Populated(KeyIndex(kernel(k)))
  }

  lemma {:induction false} FirstHit(kernel: nat -> int, n: nat, far: nat)
    requires n <= far && Populated(KeyIndex(kernel(far)))
    ensures exists d: nat :: IsNextHit(kernel, n, d)
    decreases far - n
  {
    hide KeyIndex, Populated;
    if Populated(KeyIndex(kernel(n))) {
      assert IsNextHit(kernel, n, n);
    } else {
      FirstHit(kernel, n + 1, far);
      var d: nat :| IsNextHit(kernel, n + 1, d);
      assert IsNextHit(kernel, n, d);
    }
  }

  /** The draw randomKey settles on. */
  ghost function NextHit(kernel: nat -> int, n: nat): (d: nat)
    requires Fair(kernel)
    ensures IsNextHit(kernel, n, d)
  {
    assert HitFrom(kernel, n);
    var far: nat :| n <= far && Populated(KeyIndex(kernel(far)));
    FirstHit(kernel, n, far);
    var d: nat :| IsNextHit(kernel, n, d);
    d
  }

  /** A draw that hits a key is settled on, and any other one is passed over. */
  lemma DrawsOn(kernel: nat -> int, n: nat)
    requires Fair(kernel)
    ensures NextHit(kernel, n) == if Populated(KeyIndex(kernel(n))) then n else NextHit(kernel, n + 1)
  {
    var d, e := NextHit(kernel, n), NextHit(kernel, n + 1);
    hide Fair, KeyIndex, Populated;
    if !Populated(KeyIndex(kernel(n))) {
      assert IsNextHit(kernel, n, e);
      OneNextHit(kernel, n, d, e);
    }
  }

  lemma OneNextHit(kernel: nat -> int, n: nat, d: nat, e: nat)
    requires IsNextHit(kernel, n, d) && IsNextHit(kernel, n, e)
    ensures d == e
  {
    hide KeyIndex, Populated;
  }

  /** The line randomKey prints into cmdRandomKey. */
  function KeyLine(client: string, key: nat): string
  {
    "ioevt" + " " + client + " " + KeyAt(key).name + " " + "p"
  }

  // ---- One line ----

  function ArgAt(argv: seq<string>, i: nat): string
  {
    if i < |argv| then argv[i] else ""
  }

  function FileName(arg: string): string
  {
    Truncate(arg, MAX_FILE_NAME)
  }

  /** The rows of a file, if it opens. */
  function FileRows(c: Config, name: string): Option<seq<string>>
  {
    if name in c.files then Some(Loader.Load(c.files[name])) else None
  }

  /** The thread runScript starts, once it has loaded its file; its locals hold anything. */
  function NewJob(c: Config, name: string, anything: int): Job
  {
    if name in c.files then
      Job(Loader.Load(c.files[name]), Threads.Thread(Threads.AtRow, 0, 0, anything, anything), [], 0)
    else Job([], Threads.Thread(Threads.Exited, 0, 0, anything, anything), [], 0)
  }

  function RunScriptEffect(c: Config, w: World, argv: seq<string>): (w': World)
    requires w.Sized()
    ensures w'.Sized() && w'.self == w.self
  {
    var argc, n, name := |argv| - 1, Atoi(ArgAt(argv, 1)), FileName(ArgAt(argv, 2));
    if !Modes.CanRun(w.threads, argc, n, c.kernel(w.clock)) then w.Tick(2)
    else
      w.(threads := Modes.RunScript(w.threads, argc, n, c.kernel(w.clock), FileRows(c, name)),
         jobs := w.jobs[n := NewJob(c, name, c.kernel(w.clock + 1))]).Tick(2)
  }

  /** cmd_proc on the line randomKey printed: ioevt is found and sends the key. */
  function KeyLineEffect(c: Config, w: World, client: string, key: nat): (w': World)
    requires w.Sized()
    ensures w'.threads == w.threads && w'.clients == w.clients && w'.jobs == w.jobs && w'.Sized() && w'.self == w.self
  {
    var argv := Argv(KeyLine(client, key));
    if argv == [] then w
    else Send(c, Noted(w, KeyLine(client, key)), IoevtMsg(argv, w.threads.sendId))
  }

  /** randomKey draws a key and hands a line of its own to cmd_proc. */
  ghost function RandomKeyEffect(c: Config, w: World, client: string): (w': World)
    requires w.Sized() && Fair(c.kernel)
    ensures w'.threads == w.threads && w'.clients == w.clients && w'.jobs == w.jobs && w'.Sized() && w'.self == w.self
  {
    var d := NextHit(c.kernel, w.clock);
    KeyLineEffect(c, w.(clock := d + 1), client, KeyIndex(c.kernel(d)))
  }

  /**
   What a handler does, given the tokens of its line and what gCmdParam[2] reads; autoConfig's
   own share is nothing.
   */
  ghost function Handle(c: Config, w: World, h: Handler, argv: seq<string>, third: string): (w': World)
    requires w.Sized() && argv != [] && Fair(c.kernel)
    ensures w'.Sized() && w'.self == w.self
  {
    match h
    case AddClient =>
      if |argv| < 3 then w
      else w.(clients := Clients.Add(w.clients, Atoi(argv[1]), argv[2], c.kernel(w.clock))).Tick(1)
    case ChangeClientIpAddr =>
      if |argv| < 3 then w
      else w.(clients := Clients.ChangeIp(w.clients, Atoi(argv[1]), argv[2], c.kernel(w.clock))).Tick(1)
    case DelClient =>
      if |argv| < 2 then w else w.(clients := Clients.Del(w.clients, Atoi(argv[1])))
    case Ioevt => Send(c, w, IoevtMsg(argv, w.threads.sendId))
    case Call => Send(c, w, CallMsg(argv, w.threads.sendId))
    case SyslogConf => Send(c, w, SyslogMsg(argv, w.threads.sendId, c.syslogPort))
    case HideFeatureProc => Send(c, w, HideFeatureMsg(argv, w.threads.sendId))
    case Start =>
      w.(threads := Modes.Start(w.threads, |argv| - 1, ArgAt(argv, 1), c.kernel(w.clock) != FAILED,
                                c.kernel(w.clock + 1), c.kernel(w.clock + 2))).Tick(3)
    case Stop =>
      w.(threads := Modes.Stop(w.threads, |argv| - 1, ArgAt(argv, 1), third, w.self))
    case Quit => w.(threads := Modes.Quit(w.threads, w.self))
    case RunScript => RunScriptEffect(c, w, argv)
    case RandomKey =>
      if |argv| != 2 then w else RandomKeyEffect(c, w, argv[1])
    case _ => w
  }

  /**
   cmd_proc on one line, without the lines of a config file it may run; nothing when the thread
   that should run it has ended itself.
   */
  ghost function Exec(c: Config, w: World, line: string): (w': World)
    requires w.Sized() && Fair(c.kernel)
    ensures w'.Sized() && w'.self == w.self
  {
    var argv := Argv(line);
    if !w.Alive() then w
    else if argv == [] || HandlerOf(argv[0]).None? then Noted(w, line)
    else Handle(c, Noted(w, line), HandlerOf(argv[0]).value, argv, ThirdRead(w.params, line))
  }

  // ---- stop with one argument ----

  /** The line's second token ends in `script`, and the pointer stands where that begins. */
  predicate PointsAtScript(params: seq<int>, line: string)
  {
    && |params| == MAX_TOKEN && |Argv(line)| == 2 && EndsWith(Argv(line)[1], Modes.PARAM_SC)
    && params[2] == FieldStarts(line, C_SPACE)[1] + |Argv(line)[1]| - |Modes.PARAM_SC|
  }

  /** An old third pointer reads `script` in a two-token stop line exactly there. */
  lemma ThirdReadsScript(w: World, line: string)
    requires w.Sized() && NUL !in line && |Argv(line)| == 2 && HandlerOf(Argv(line)[0]) == Some(Stop)
    ensures ThirdRead(w.params, line) == Modes.PARAM_SC <==> PointsAtScript(w.params, line)
  {
    var ts, p := Argv(line), w.params[2];
    OnlyStop(ts[0]);
    assert EndsWith(ts[1], Modes.PARAM_SC) ==> |ts[1]| >= |Modes.PARAM_SC|;
    hide Argv, HandlerOf, EndsWith, StringAt, Cut, Split, Starts, Truncate, FieldStarts, PointsIntoToken;
    if p >= 0 {
      OldPointerReads(line, C_SPACE, p, Modes.PARAM_SC);
      TwoTokens(line, p);
    }
  }

  lemma TwoTokens(line: string, p: int)
    requires |Argv(line)| == 2 && (Argv(line)[0] == "stop" || Argv(line)[0] == "sp")
    ensures (exists i: nat :: PointsIntoToken(line, C_SPACE, p, Modes.PARAM_SC, i)) <==>
      EndsWith(Argv(line)[1], Modes.PARAM_SC) &&
      p == FieldStarts(line, C_SPACE)[1] + |Argv(line)[1]| - |Modes.PARAM_SC|
  {
    var ts := Split(Truncate(line, MAX_SC_CONTENT), C_SPACE);
    assert ts == Argv(line) && FieldStarts(line, C_SPACE) == Starts(Truncate(line, MAX_SC_CONTENT), C_SPACE, 0);
    assert !EndsWith(ts[0], Modes.PARAM_SC);
    hide EndsWith, Split, Starts, Truncate;
    if i: nat :| PointsIntoToken(line, C_SPACE, p, Modes.PARAM_SC, i) {
      assert i == 1;
    }
    if EndsWith(ts[1], Modes.PARAM_SC) && p == FieldStarts(line, C_SPACE)[1] + |ts[1]| - |Modes.PARAM_SC| {
      assert PointsIntoToken(line, C_SPACE, p, Modes.PARAM_SC, 1);
    }
  }

  /** stop with one argument does what its own two tokens say. */
  ghost predicate ActsOnItsOwn(c: Config, w: World, line: string)
    requires w.Sized() && Fair(c.kernel)
  {
    |Argv(line)| == 2 && Exec(c, w, line) == Handle(c, Noted(w, line), Stop, Argv(line), "")
  }

  /**
   It does so exactly unless its argument ends in `script`, the third pointer of an earlier line
   stands right there, and the argument is the number of a script slot that is in use.
   */
  lemma StopActsOnItsOwn(c: Config, w: World, line: string)
    requires w.Sized() && Fair(c.kernel) && NUL !in line && w.Alive()
    requires |Argv(line)| == 2 && HandlerOf(Argv(line)[0]) == Some(Stop)
    ensures var n := Atoi(Argv(line)[1]);
      ActsOnItsOwn(c, w, line) <==>
      !(PointsAtScript(w.params, line) && 0 <= n < MAX_SCRIPT_THREAD && w.threads.scriptId[n] != ERROR)
  {
    hide Argv, HandlerOf, Atoi, FieldStarts, ThirdRead, Fair, Modes.Stop;
    var ts, third := Argv(line), ThirdRead(w.params, line);
    ThirdReadsScript(w, line);
    if PointsAtScript(w.params, line) {
      NotAStopWord(ts[1]);
    }
    hide PointsAtScript;
    StopSecond(w.threads, ts[1], third, w.self);
  }

  lemma NotAStopWord(arg: string)
    requires EndsWith(arg, Modes.PARAM_SC)
    ensures arg != Modes.PARAM_ALL && arg != Modes.PARAM_TEST && arg != Modes.PARAM_REC
  {
  }

  lemma StopSecond(t: Modes.State, first: string, second: string, self: int)
    requires t.Sized() && Modes.Alive(t, self)
    requires second == Modes.PARAM_SC ==>
      first != Modes.PARAM_ALL && first != Modes.PARAM_TEST && first != Modes.PARAM_REC
    ensures Modes.Stop(t, 1, first, second, self) == Modes.Stop(t, 1, first, "", self) <==>
      !(second == Modes.PARAM_SC && 0 <= Atoi(first) < MAX_SCRIPT_THREAD
        && t.scriptId[Atoi(first)] != ERROR)
  {
    hide Atoi;
  }

  // ---- It happens ----

  /** A word, a space, and the rest. */
  lemma WordFirst(a: string, rest: string, base: nat)
    requires IsToken(a, C_SPACE)
    ensures Split(a + " " + rest, C_SPACE) == [a] + Split(rest, C_SPACE)
    ensures Starts(a + " " + rest, C_SPACE, base) == [base] + Starts(rest, C_SPACE, base + |a| + 1)
  {
    SplitHead(a, " " + rest, C_SPACE);
    StartsHead(a, " " + rest, C_SPACE, base);
    assert (" " + rest)[1..] == rest;
    assert a + " " + rest == a + (" " + rest);
  }

  lemma LastWord(a: string, base: nat)
    requires IsToken(a, C_SPACE)
    ensures Split(a, C_SPACE) == [a] && Starts(a, C_SPACE, base) == [base]
  {
    SplitHead(a, "", C_SPACE);
    StartsHead(a, "", C_SPACE, base);
    assert a + "" == a;
  }

  lemma OneWord(a: string)
    requires IsToken(a, C_SPACE) && |a| < MAX_SC_CONTENT
    ensures Argv(a) == [a] && FieldStarts(a, C_SPACE) == [0]
  {
    hide Split, Starts, IsToken;
    LastWord(a, 0);
  }

  lemma TwoWords(a: string, b: string)
    requires IsToken(a, C_SPACE) && IsToken(b, C_SPACE) && |a| + |b| + 1 < MAX_SC_CONTENT
    ensures Argv(a + " " + b) == [a, b] && FieldStarts(a + " " + b, C_SPACE) == [0, |a| + 1]
  {
    hide Split, Starts, IsToken;
    WordFirst(a, b, 0);
    LastWord(b, |a| + 1);
  }

  lemma ThreeWords(a: string, b: string, c: string)
    requires IsToken(a, C_SPACE) && IsToken(b, C_SPACE) && IsToken(c, C_SPACE)
    requires |a| + |b| + |c| + 2 < MAX_SC_CONTENT
    ensures Argv(a + " " + (b + " " + c)) == [a, b, c]
    ensures FieldStarts(a + " " + (b + " " + c), C_SPACE) == [0, |a| + 1, |a| + |b| + 2]
  {
    hide Split, Starts, IsToken;
    WordFirst(a, b + " " + c, 0);
    WordFirst(b, c, |a| + 1);
    LastWord(c, |a| + |b| + 2);
  }

  const ADD_LINE := "add" + " " + ("1" + " " + "192.168.10.1")
  const STOP_LINE := "stop" + " " + "1script"

  lemma OneScript()
    ensures Atoi("1script") == 1 && EndsWith("1script", Modes.PARAM_SC)
  {
    assert "1script"[1..] == "script";
    assert LeadingDigits("script", 1) == 1;
    assert SkipSpaces("1script") == "1script";
  }

  lemma AfterAdd(c: Config, w: World, line: string)
    requires w.Sized() && Fair(c.kernel) && w.Alive()
    requires |Argv(line)| == 3 && HandlerOf(Argv(line)[0]) == Some(AddClient)
    ensures Exec(c, w, line).threads == w.threads && Exec(c, w, line).Alive()
    ensures |FieldStarts(line, C_SPACE)| == 3 && Exec(c, w, line).params[2] == FieldStarts(line, C_SPACE)[2]
  {
    assert |FieldStarts(line, C_SPACE)| == 3;
    hide Argv, HandlerOf, Fair, Clients.Add, Atoi, FieldStarts;
  }

  /** Where stop does not act on its own tokens, it stops a script. */
  lemma StopsAScript(c: Config, w: World, line: string)
    requires w.Sized() && Fair(c.kernel) && NUL !in line && w.Alive()
    requires PointsAtScript(w.params, line) && HandlerOf(Argv(line)[0]) == Some(Stop)
    requires var n := Atoi(Argv(line)[1]); 0 <= n < MAX_SCRIPT_THREAD && w.threads.scriptId[n] != ERROR
    ensures !ActsOnItsOwn(c, w, line)
    ensures Exec(c, w, line).threads == Modes.Kill(w.threads, Modes.Runner(Atoi(Argv(line)[1])), w.self)
  {
    hide Argv, HandlerOf, Atoi, Fair, FieldStarts, Modes.Kill, ThirdRead, ActsOnItsOwn, EndsWith;
    ThirdReadsScript(w, line);
    StopActsOnItsOwn(c, w, line);
    NotAStopWord(Argv(line)[1]);
  }

  /** After `add 1 192.168.10.1`, the line `stop 1script` stops script 1. */
  lemma StopMistakesItsArgument(c: Config, w: World)
    requires w.Sized() && Fair(c.kernel) && w.Alive() && w.threads.scriptId[1] != ERROR
    ensures var w1 := Exec(c, w, ADD_LINE);
      && PointsAtScript(w1.params, STOP_LINE) && !ActsOnItsOwn(c, w1, STOP_LINE)
      && Exec(c, w1, STOP_LINE).threads == Modes.Kill(w.threads, Modes.Runner(1), w.self)
  {
    hide Argv, FieldStarts, HandlerOf, Atoi, Fair, Modes.Kill, ThirdRead, EndsWith, Exec, ActsOnItsOwn;
    ThreeWords("add", "1", "192.168.10.1");
    TwoWords("stop", "1script");
    AddIsFound();
    StopIsFound();
    OneScript();
    assert NUL !in STOP_LINE;
    AfterAdd(c, w, ADD_LINE);
    StopsAScript(c, Exec(c, w, ADD_LINE), STOP_LINE);
  }
}
