/**
 What the commands promise: randomKey sends one key press, every message in the queue is
 well-formed, and what each line keeps of the registry and the threads.
 */
module Safety {
  import opened Common
  import opened CStrings
  import opened Tokens
  import opened KeyMap
  import opened Commands
  import opened Effects
  import opened KeyLists
  import Loader
  import Clients
  import Modes

  // ---- randomKey ----

  /** What randomKey prints is tokenized into what it printed. */
  lemma KeyLineTokens(client: string, key: nat)
    requires IsToken(client, ' ') && |client| <= 239 && Populated(key)
    ensures Argv(KeyLine(client, key)) == ["ioevt", client, KeyAt(key).name, "p"]
    ensures |KeyLine(client, key)| < Loader.MAX_CMD_LEN
  {
    KeyTexts(key);
    hide KeyAt, Split;
    var ts, gaps := ["ioevt", client, KeyAt(key).name, "p"], [0, 1, 1, 1, 0];
    SplitJoin(ts, gaps, ' ');
    JoinFour("ioevt", client, KeyAt(key).name, "p");
  }

  lemma JoinFour(a: string, b: string, c: string, d: string)
    ensures Join([a, b, c, d], [0, 1, 1, 1, 0], ' ') == a + " " + b + " " + c + " " + d
  {
    assert Run(' ', 0) == "" && Run(' ', 1) == " ";
    JoinStep(a, [b, c, d], 0, [1, 1, 1, 0]);
    JoinStep(b, [c, d], 1, [1, 1, 0]);
    JoinStep(c, [d], 1, [1, 0]);
    JoinStep(d, [], 1, [0]);
    assert Join([], [0], ' ') == "";
  }

  lemma JoinStep(t: string, ts: seq<string>, gap: nat, gaps: seq<nat>)
    requires |gaps| == |ts| + 1
    ensures Join([t] + ts, [gap] + gaps, ' ') == Run(' ', gap) + (t + Join(ts, gaps, ' '))
  {
    assert ([t] + ts)[1..] == ts && ([gap] + gaps)[1..] == gaps;
  }

  /** A key's name, alone in a key list, is that key. */
  lemma OneKey(key: nat)
    requires Populated(key)
    ensures Translate(KeyTokens(KeyAt(key).name)) == Some([KeyAt(key).code])
  {
    KeyTexts(key);
    MatchIsUnique(key, KeyAt(key).name);
    hide KeyAt, SlotOf;
    var name := KeyAt(key).name;
    SplitHead(name, "", ',');
    assert name + "" == name;
    KeysFit(name);
    assert KeyTokens(name) == [name];
    assert [name][1..] == [];
    assert Translate([name][1..]) == Some([]);
    assert [KeyAt(key).code] + [] == [KeyAt(key).code];
  }

  lemma KeyMsg(client: string, key: nat, sendId: int)
    requires ClientOk(client) && Populated(key) && sendId != ERROR
    ensures IoevtMsg(["ioevt", client, KeyAt(key).name, "p"], sendId) ==
      Some(Msg(Atoi(client), "ioevt", Keys([KeyAt(key).code], "p")))
  {
    OneKey(key);
    hide KeyAt, KeyTokens, Translate, ClientOk;
  }

  lemma KeyLineSends(c: Config, w: World, client: string, key: nat)
    requires w.Sized() && w.threads.sendId != ERROR && c.kernel(w.clock) != FAILED && Populated(key)
    requires IsToken(client, ' ') && |client| <= 239 && ClientOk(client)
    ensures KeyLineEffect(c, w, client, key).queue == w.queue + [Msg(Atoi(client), "ioevt",
      Keys([KeyAt(key).code], "p"))]
  {
    KeyLineTokens(client, key);
    KeyMsg(client, key, w.threads.sendId);
    hide KeyAt, Argv, KeyLine, Populated, ClientOk, IoevtMsg, IsToken, FieldStarts;
  }

  /**
   From the draw to the queue: with test mode on, randomKey formats, tokenizes, dispatches and
   encodes one message, for its client and with the code of exactly the key it drew.
   */
  lemma RandomKeySendsOneKey(c: Config, w: World, client: string)
    requires w.Sized() && Fair(c.kernel) && w.threads.sendId != ERROR
    requires IsToken(client, ' ') && |client| <= 239 && ClientOk(client)
    requires c.kernel(NextHit(c.kernel, w.clock) + 1) != FAILED
    ensures var key := KeyIndex(c.kernel(NextHit(c.kernel, w.clock)));
      && Populated(key)
      && RandomKeyEffect(c, w, client).queue == w.queue + [Msg(Atoi(client), "ioevt", Keys([KeyAt(key).code], "p"))]
  {
    hide KeyAt, Populated, ClientOk, KeyIndex, IsToken, KeyLineEffect;
    var d := NextHit(c.kernel, w.clock);
    KeyLineSends(c, w.(clock := d + 1), client, KeyIndex(c.kernel(d)));
  }

  // ---- The queue ----

  /** The commands that queue messages, under their full names. */
  predicate SenderName(code: string)
  {
    code == "ioevt" || code == "call" || code == "syslog" || code == "hideFeature"
  }

  ghost predicate IsKeyCode(code: string)
  {
    exists key: nat :: Populated(key) && KeyAt(key).code == code
  }

  ghost predicate MsgOk(m: Msg)
  {
    && 0 <= m.clientNum < Clients.MAX_CLIENT && SenderName(m.cmdCode)
    && match m.body
       case Keys(codes, action) =>
         && m.cmdCode == "ioevt" && |codes| <= MAX_IOEVT && (action == KEY_PRESS || action == KEY_LONG_PRESS)
         && forall i :: 0 <= i < |codes| ==> IsKeyCode(codes[i])
       case Shared(text) => m.cmdCode != "ioevt" && |text| < MAX_SHARED_LENTH
  }

  lemma CodesAreKeys(arg: string, codes: seq<string>)
    requires Translate(KeyTokens(arg)) == Some(codes)
    ensures |codes| <= MAX_IOEVT
    ensures forall i :: 0 <= i < |codes| ==> IsKeyCode(codes[i])
  {
    var tokens := KeyTokens(arg);
    KeysFit(arg);
    KeyTokensAreTokens(arg);
    TranslatesAllOrNothing(tokens);
    hide KeyTokens, Translate;
    forall i | 0 <= i < |codes| ensures IsKeyCode(codes[i]) {
      assert tokens[i] in tokens;
      SlotMatches(tokens[i]);
      MatchIsUnique(SlotOf(tokens[i]), tokens[i]);
    }
  }

  lemma IoevtMsgOk(argv: seq<string>, sendId: int)
    requires argv != [] && (argv[0] == "ioevt" || argv[0] == "ie") && IoevtMsg(argv, sendId).Some?
    ensures MsgOk(IoevtMsg(argv, sendId).value) && sendId != ERROR
  {
    CodesAreKeys(argv[2], Translate(KeyTokens(argv[2])).value);
    hide KeyTokens, Translate, IsKeyCode;
  }

  lemma CallMsgOk(argv: seq<string>, sendId: int)
    requires argv != [] && argv[0] == "call" && CallMsg(argv, sendId).Some?
    ensures MsgOk(CallMsg(argv, sendId).value) && sendId != ERROR
  {
  }

  lemma SyslogMsgOk(argv: seq<string>, sendId: int, port: int)
    requires argv != [] && (argv[0] == "syslog" || argv[0] == "sl") && SyslogMsg(argv, sendId, port).Some?
    ensures MsgOk(SyslogMsg(argv, sendId, port).value) && sendId != ERROR
  {
    hide Decimal;
  }

  lemma HideFeatureMsgOk(argv: seq<string>, sendId: int)
    requires argv != [] && (argv[0] == "hideFeature" || argv[0] == "hf") && HideFeatureMsg(argv, sendId).Some?
    ensures MsgOk(HideFeatureMsg(argv, sendId).value) && sendId != ERROR
  {
  }

  /** The queue is as it was, or one good message longer, and then the sender's ID is set. */
  ghost predicate SendsWell(w: World, w': World)
  {
    (w'.queue == w.queue && w'.sentAt == w.sentAt) ||
    (|w'.queue| == |w.queue| + 1 && w.queue <= w'.queue && MsgOk(w'.queue[|w.queue|])
     && w'.sentAt == w.sentAt + [w.threads] && w.threads.sendId != ERROR)
  }

  lemma SendIsSafe(c: Config, w: World, m: Option<Msg>)
    requires m.Some? ==> MsgOk(m.value) && w.threads.sendId != ERROR
    ensures SendsWell(w, Send(c, w, m))
  {
    hide MsgOk;
  }

  lemma KeyLineIsIoevt(client: string, key: nat)
    ensures Argv(KeyLine(client, key)) != [] && Argv(KeyLine(client, key))[0] == "ioevt"
  {
    var line := KeyLine(client, key);
    var text := Truncate(line, MAX_SC_CONTENT);
    var rest := text[5..];
    hide KeyAt;
    assert line[..5] == "ioevt" && line[5] == ' ' && |line| > 6;
    assert text == "ioevt" + rest;
    SplitHead("ioevt", rest, ' ');
  }

  /** Whatever a handler is given, it leaves at most one good message. */
  lemma HandleSendsWell(c: Config, w: World, h: Handler, argv: seq<string>, third: string)
    requires w.Sized() && argv != [] && Fair(c.kernel) && HandlerOf(argv[0]) == Some(h)
    ensures SendsWell(w, Handle(c, w, h, argv, third))
  {
    SenderNames(argv[0]);
    hide HandlerOf, SendsWell, MsgOk, IoevtMsg, CallMsg, SyslogMsg, HideFeatureMsg, Send, IsToken;
    var sendId := w.threads.sendId;
    match h
    case Ioevt =>
      if IoevtMsg(argv, sendId).Some? {
        IoevtMsgOk(argv, sendId);
      }
      SendIsSafe(c, w, IoevtMsg(argv, sendId));
    case Call =>
      if CallMsg(argv, sendId).Some? {
        CallMsgOk(argv, sendId);
      }
      SendIsSafe(c, w, CallMsg(argv, sendId));
    case SyslogConf =>
      if SyslogMsg(argv, sendId, c.syslogPort).Some? {
        SyslogMsgOk(argv, sendId, c.syslogPort);
      }
      SendIsSafe(c, w, SyslogMsg(argv, sendId, c.syslogPort));
    case HideFeatureProc =>
      if HideFeatureMsg(argv, sendId).Some? {
        HideFeatureMsgOk(argv, sendId);
      }
      SendIsSafe(c, w, HideFeatureMsg(argv, sendId));
    case RandomKey =>
      if |argv| == 2 {
        RandomKeySendsWell(c, w, argv[1]);
      } else {
        Unsent(w, w);
      }
    case _ =>
      OthersSendNothing(c, w, h, argv, third);
  }

  lemma Unsent(w: World, w': World)
    requires w'.queue == w.queue && w'.sentAt == w.sentAt
    ensures SendsWell(w, w')
  {
  }

  lemma OthersSendNothing(c: Config, w: World, h: Handler, argv: seq<string>, third: string)
    requires w.Sized() && argv != [] && Fair(c.kernel)
    requires !h.Ioevt? && !h.Call? && !h.SyslogConf? && !h.HideFeatureProc? && !h.RandomKey?
    ensures SendsWell(w, Handle(c, w, h, argv, third))
  {
    hide MsgOk;
  }

  lemma RandomKeySendsWell(c: Config, w: World, client: string)
    requires w.Sized() && Fair(c.kernel)
    ensures SendsWell(w, RandomKeyEffect(c, w, client))
  {
    var d := NextHit(c.kernel, w.clock);
    var key := KeyIndex(c.kernel(d));
    var argv := Argv(KeyLine(client, key));
    KeyLineIsIoevt(client, key);
    hide Argv, KeyLine, MsgOk, IoevtMsg, KeyIndex, Send, FieldStarts;
    if IoevtMsg(argv, w.threads.sendId).Some? {
      IoevtMsgOk(argv, w.threads.sendId);
    }
    SendIsSafe(c, Noted(w.(clock := d + 1), KeyLine(client, key)), IoevtMsg(argv, w.threads.sendId));
  }

  /** Every line leaves at most one good message, and only with the sender's ID set. */
  lemma ExecSendsWell(c: Config, w: World, line: string)
    requires w.Sized() && Fair(c.kernel)
    ensures SendsWell(w, Exec(c, w, line))
  {
    var argv := Argv(line);
    hide Argv, HandlerOf, Handle, MsgOk, FieldStarts, ThirdRead;
    if w.Alive() && argv != [] && HandlerOf(argv[0]).Some? {
      HandleSendsWell(c, Noted(w, line), HandlerOf(argv[0]).value, argv, ThirdRead(w.params, line));
    }
  }

  // ---- What lines keep ----

  lemma HandleKeepsRegistry(c: Config, w: World, h: Handler, argv: seq<string>, third: string)
    requires w.Sized() && Clients.Consistent(w.clients) && argv != [] && Fair(c.kernel)
    ensures Clients.Consistent(Handle(c, w, h, argv, third).clients)
  {
    hide Clients.Consistent, Send, IoevtMsg, CallMsg, SyslogMsg, HideFeatureMsg, Atoi;
    match h
    case AddClient =>
      Clients.AddKeeps(w.clients, Atoi(ArgAt(argv, 1)), ArgAt(argv, 2), c.kernel(w.clock));
    case ChangeClientIpAddr =>
      Clients.ChangeIpIsRefused(w.clients, Atoi(ArgAt(argv, 1)), ArgAt(argv, 2), c.kernel(w.clock));
    case DelClient =>
      Clients.DelKeeps(w.clients, Atoi(ArgAt(argv, 1)));
    case _ =>
  }

  /** Every line keeps the registry consistent. */
  lemma ExecKeepsRegistry(c: Config, w: World, line: string)
    requires w.Sized() && Clients.Consistent(w.clients) && Fair(c.kernel)
    ensures Clients.Consistent(Exec(c, w, line).clients)
  {
    var argv := Argv(line);
    hide Argv, HandlerOf, Handle, FieldStarts, ThirdRead, Clients.Consistent;
    if w.Alive() && argv != [] && HandlerOf(argv[0]).Some? {
      HandleKeepsRegistry(c, Noted(w, line), HandlerOf(argv[0]).value, argv, ThirdRead(w.params, line));
    }
  }

  lemma HandleKeepsThreads(c: Config, w: World, h: Handler, argv: seq<string>, third: string)
    requires w.Sized() && Modes.Tidy(w.threads) && w.Alive() && argv != [] && Fair(c.kernel)
    ensures Modes.Tidy(Handle(c, w, h, argv, third).threads)
    ensures h != Quit && h != Stop ==> Modes.Grown(w.threads, Handle(c, w, h, argv, third).threads)
    ensures h == Stop ==> Modes.Kept(w.threads, Handle(c, w, h, argv, third).threads, w.self)
    ensures h == Stop ==>
      (Handle(c, w, h, argv, third).Alive() <==>
       !Modes.StopsCaller(w.threads, |argv| - 1, ArgAt(argv, 1), third, w.self))
  {
    hide Modes.LiveOk, Modes.BuffersOk, Modes.IdsOk, Send, IoevtMsg, CallMsg, SyslogMsg, HideFeatureMsg, Atoi;
    hide Modes.Quit, Modes.Stop, Modes.Start, Modes.RunScript, Modes.StopsCaller, Modes.CanRun;
    match h
    case Start =>
      Modes.StartKeeps(w.threads, |argv| - 1, ArgAt(argv, 1), c.kernel(w.clock) != FAILED,
                       c.kernel(w.clock + 1), c.kernel(w.clock + 2));
    case Stop =>
      Modes.StopKeeps(w.threads, |argv| - 1, ArgAt(argv, 1), third, w.self);
    case RunScript =>
      Modes.RunScriptKeeps(w.threads, |argv| - 1, Atoi(ArgAt(argv, 1)), c.kernel(w.clock),
                           FileRows(c, FileName(ArgAt(argv, 2))));
    case Quit =>
      Modes.LosingKeeps(w.threads, w.self);
    case _ =>
  }

  predicate IsQuit(line: string)
  {
    Argv(line) != [] && HandlerOf(Argv(line)[0]) == Some(Quit)
  }

  /** The line is a stop that ends the thread that runs it. */
  predicate StopsSelf(w: World, line: string)
    requires w.Sized()
  {
    var argv := Argv(line);
    && argv != [] && HandlerOf(argv[0]) == Some(Stop)
    && Modes.StopsCaller(w.threads, |argv| - 1, ArgAt(argv, 1), ThirdRead(w.params, line), w.self)
  }

  /**
   quit, if the line is quit, finds neither sender nor receiver registered, and stop, if it is
   stop, does not end the thread that runs it.
   */
  predicate CleanLine(w: World, line: string)
    requires w.Sized()
  {
    w.Alive() ==> (IsQuit(line) ==> w.threads.sendId == ERROR && w.threads.recId == ERROR) && !StopsSelf(w, line)
  }

  /**
   Every line keeps the threads tidy, and it keeps IDs and live threads matched exactly unless it
   is quit and there is a sender or a receiver, or a stop of the thread that runs it.
   */
  lemma ExecKeepsThreads(c: Config, w: World, line: string)
    requires w.Sized() && Modes.Tidy(w.threads) && Fair(c.kernel)
    ensures Modes.Tidy(Exec(c, w, line).threads)
    ensures Modes.IdsOk(w.threads) ==> (Modes.IdsOk(Exec(c, w, line).threads) <==> CleanLine(w, line))
  {
    var argv, third := Argv(line), ThirdRead(w.params, line);
    if Modes.IdsOk(w.threads) && w.Alive() {
      Modes.QuitKeepsIds(w.threads, w.self);
    }
    hide Argv, HandlerOf, FieldStarts, ThirdRead, Modes.LiveOk, Modes.BuffersOk, Modes.IdsOk, Modes.Quit;
    hide Modes.StopsCaller, Noted;
    if w.Alive() && argv != [] && HandlerOf(argv[0]).Some? {
      HandleKeepsThreads(c, Noted(w, line), HandlerOf(argv[0]).value, argv, third);
      QuitHandled(c, Noted(w, line), argv, third);
      hide Handle;
    }
  }

  lemma QuitHandled(c: Config, w: World, argv: seq<string>, third: string)
    requires w.Sized() && argv != [] && Fair(c.kernel)
    ensures Handle(c, w, Quit, argv, third).threads == Modes.Quit(w.threads, w.self)
  {
    hide Modes.Quit, Fair;
  }

  /** Only stop and quit can end the thread that runs them. */
  lemma StaysAlive(c: Config, w: World, h: Handler, argv: seq<string>, third: string)
    requires w.Sized() && argv != [] && Fair(c.kernel) && w.Alive() && h != Stop && h != Quit
    ensures Handle(c, w, h, argv, third).Alive()
  {
    hide Send, IoevtMsg, CallMsg, SyslogMsg, HideFeatureMsg, Atoi;
  }
}
