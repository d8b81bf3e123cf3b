/**
 The whole tool: lines typed at the console, steps of up to ten script threads, suspend messages
 and the end of the receiver, in any order.
 */
module System {
  import opened Common
  import opened CStrings
  import opened Commands
  import opened KeyMap
  import opened Effects
  import opened Includes
  import opened Safety
  import opened Moves
  import Clients
  import Console
  import Interpreter
  import Loader
  import Meaning
  import Modes
  import Script
  import Threads
  import Tokens
  import TypedLines

  // ---- What every run keeps ----

  /**
   A slot's script is on its own way: what it has issued and what is ahead of it make up the
   trace of its rows, and its counter stands at the iterations it has completed.
   */
  ghost predicate OnItsWay(job: Job)
    requires Script.Balanced(job.rows)
  {
    var p := Meaning.Program(job.rows);
    && Threads.Good(job.rows, job.thread)
    && job.issued + Threads.Rest(job.rows, job.thread) == Meaning.Trace(p)
    && Threads.RestRuns(job.rows, job.thread) <= Meaning.Runs(p)
    && job.count == Interpreter.Counted(0, Meaning.Runs(p) - Threads.RestRuns(job.rows, job.thread))
  }

  ghost predicate JobOk(job: Job)
  {
    Script.Balanced(job.rows) ==> OnItsWay(job)
  }

  ghost predicate QueueOk(w: World)
  {
    && |w.sentAt| == |w.queue|
    && forall i :: 0 <= i < |w.queue| ==> MsgOk(w.queue[i]) && w.sentAt[i].sendId != ERROR
  }

  /** Every registered slot reads, through its buffer, the rows its script was started with. */
  ghost predicate RowsKept(w: World)
    requires w.Sized()
  {
    forall n :: 0 <= n < MAX_SCRIPT_THREAD && w.threads.scriptId[n] != ERROR ==> Rows(w, n) == w.jobs[n].rows
  }

  ghost predicate Safe(w: World)
  {
    && w.Sized() && Modes.Tidy(w.threads) && QueueOk(w) && RowsKept(w)
    && forall n :: 0 <= n < MAX_SCRIPT_THREAD ==> JobOk(w.jobs[n])
  }

  lemma SafeIsSized(w: World)
    requires Safe(w)
    ensures w.Sized() && Modes.Tidy(w.threads)
  {
  }

  lemma FreshJobOk(c: Config, name: string, anything: int)
    ensures JobOk(NewJob(c, name, anything))
  {
    var job := NewJob(c, name, anything);
    if Script.Balanced(job.rows) && name in c.files {
      Threads.InitiallyAllAhead(job.rows, job.thread);
    }
  }

  lemma SendKeepsQueue(w: World, w': World)
    requires QueueOk(w) && SendsWell(w, w')
    ensures QueueOk(w')
  {
    hide MsgOk;
  }

  /** A handler changes no slot but the one runScript fills, and fills it with a fresh job. */
  lemma HandleKeepsJobs(c: Config, w: World, h: Handler, argv: seq<string>, third: string)
    requires w.Sized() && argv != [] && Fair(c.kernel)
    requires forall n :: 0 <= n < MAX_SCRIPT_THREAD ==> JobOk(w.jobs[n])
    ensures forall n :: 0 <= n < MAX_SCRIPT_THREAD ==> JobOk(Handle(c, w, h, argv, third).jobs[n])
  {
    hide JobOk, NewJob, FileName, Fair;
    if h == RunScript {
      FreshJobOk(c, FileName(ArgAt(argv, 2)), c.kernel(w.clock + 1));
    }
  }

  lemma ExecKeepsJobs(c: Config, w: World, line: string)
    requires w.Sized() && Fair(c.kernel)
    requires forall n :: 0 <= n < MAX_SCRIPT_THREAD ==> JobOk(w.jobs[n])
    ensures forall n :: 0 <= n < MAX_SCRIPT_THREAD ==> JobOk(Exec(c, w, line).jobs[n])
  {
    hide Argv, HandlerOf, Handle, JobOk, Fair, Tokens.FieldStarts, ThirdRead;
    var argv := Argv(line);
    if w.Alive() && argv != [] && HandlerOf(argv[0]).Some? {
      HandleKeepsJobs(c, Noted(w, line), HandlerOf(argv[0]).value, argv, ThirdRead(w.params, line));
    }
  }

  lemma SlotsKeepRows(w: World, w': World)
    requires w.Sized() && w'.Sized() && RowsKept(w) && w'.jobs == w.jobs && Modes.SlotsKept(w.threads, w'.threads)
    ensures RowsKept(w')
  {
    Modes.SlotsRead(w.threads, w'.threads);
    hide Modes.RowsOf;
  }

  /** Loading a script leaves the rows of the others alone. */
  lemma LoadKeepsRows(c: Config, w: World, argv: seq<string>, third: string)
    requires w.Sized() && argv != [] && Fair(c.kernel) && Modes.Tidy(w.threads) && RowsKept(w)
    ensures RowsKept(Handle(c, w, RunScript, argv, third))
  {
    var n, name := Atoi(ArgAt(argv, 1)), FileName(ArgAt(argv, 2));
    Modes.LoadingIsolates(w.threads, |argv| - 1, n, c.kernel(w.clock), FileRows(c, name));
    hide Modes.RowsOf, Modes.RunScript, Modes.Tidy, FileName, Atoi, Fair, ArgAt;
  }

  lemma HandleKeepsRows(c: Config, w: World, h: Handler, argv: seq<string>, third: string)
    requires w.Sized() && argv != [] && Fair(c.kernel) && Modes.Tidy(w.threads) && RowsKept(w)
    ensures RowsKept(Handle(c, w, h, argv, third))
  {
    hide RowsKept, Modes.Tidy, Modes.SlotsKept, Send, Fair, Modes.Start, Modes.Stop, Modes.Quit, RunScriptEffect;
    hide Clients.Add, Clients.ChangeIp, Clients.Del, RandomKeyEffect;
    var w' := Handle(c, w, h, argv, third);
    match h
    case RunScript => LoadKeepsRows(c, w, argv, third);
    case Start =>
      Modes.StartKeeps(w.threads, |argv| - 1, ArgAt(argv, 1), c.kernel(w.clock) != FAILED,
                       c.kernel(w.clock + 1), c.kernel(w.clock + 2));
      SameSlots(w.threads, w'.threads);
      SlotsKeepRows(w, w');
    case Stop =>
      Modes.StoppingIsolates(w.threads, |argv| - 1, ArgAt(argv, 1), third, w.self);
      SlotsKeepRows(w, w');
    case Quit =>
      Modes.StoppingIsolates(w.threads, 0, "", "", w.self);
      SlotsKeepRows(w, w');
    case _ =>
      SameSlots(w.threads, w.threads);
      SlotsKeepRows(w, w');
  }

  lemma SameSlots(t: Modes.State, t': Modes.State)
    requires t.Sized() && t'.Sized() && t'.heap == t.heap && t'.buffer == t.buffer && t'.scriptId == t.scriptId
    ensures Modes.SlotsKept(t, t')
  {
  }

  lemma ExecKeepsRows(c: Config, w: World, line: string)
    requires w.Sized() && Fair(c.kernel) && Modes.Tidy(w.threads) && RowsKept(w)
    ensures RowsKept(Exec(c, w, line))
  {
    hide Argv, HandlerOf, Handle, Fair, Tokens.FieldStarts, ThirdRead, Modes.Tidy;
    var argv := Argv(line);
    if w.Alive() && argv != [] && HandlerOf(argv[0]).Some? {
      HandleKeepsRows(c, Noted(w, line), HandlerOf(argv[0]).value, argv, ThirdRead(w.params, line));
    }
  }

  lemma ExecKeepsSafe(c: Config, w: World, line: string)
    requires Safe(w) && Fair(c.kernel)
    ensures Safe(Exec(c, w, line))
  {
    hide Exec, QueueOk, JobOk, Modes.Tidy, Fair, RowsKept;
    ExecKeepsThreads(c, w, line);
    ExecSendsWell(c, w, line);
    SendKeepsQueue(w, Exec(c, w, line));
    ExecKeepsJobs(c, w, line);
    ExecKeepsRows(c, w, line);
  }

  lemma {:induction false} ExecAllKeepsSafe(c: Config, w: World, lines: seq<string>)
    requires Safe(w) && Fair(c.kernel)
    ensures Safe(ExecAll(c, w, lines))
    decreases lines
  {
    hide Safe, Exec;
    SafeIsSized(w);
    if lines != [] {
      ExecKeepsSafe(c, w, lines[0]);
      ExecAllKeepsSafe(c, Exec(c, w, lines[0]), lines[1..]);
    }
  }

  /** A step of a script keeps it on its way, one step nearer its end. */
  lemma StepKeepsOnItsWay(job: Job)
    requires Script.Balanced(job.rows) && OnItsWay(job) && job.thread.pc != Threads.Exited
    ensures Stepped(job.rows, job).rows == job.rows && OnItsWay(Stepped(job.rows, job))
    ensures Threads.StepsLeft(job.rows, job.thread) == 1 + Threads.StepsLeft(job.rows, Stepped(job.rows, job).thread)
  {
    hide Threads.Good, Threads.StepOf, Threads.Rest, Threads.RestRuns, Threads.StepsLeft;
    var s := Threads.StepOf(job.rows, job.thread);
    Threads.StepAdvances(job.rows, job.thread);
    Regroup(job.issued, s.issued, Threads.Rest(job.rows, s.next));
  }

  lemma StepKeepsJob(job: Job)
    requires JobOk(job) && Threads.Good(job.rows, job.thread) && job.thread.pc != Threads.Exited
    ensures JobOk(Stepped(job.rows, job))
  {
    hide OnItsWay;
    if Script.Balanced(job.rows) {
      StepKeepsOnItsWay(job);
    }
  }

  lemma SameQueue(w: World, w': World)
    requires QueueOk(w) && w'.queue == w.queue && w'.sentAt == w.sentAt
    ensures QueueOk(w')
  {
    hide MsgOk;
  }

  /** A script thread that is live has its ID. */
  lemma LiveHasId(w: World, n: nat)
    requires w.Sized() && Modes.Tidy(w.threads) && Live(w, n)
    ensures n < MAX_SCRIPT_THREAD && w.threads.scriptId[n] != ERROR
  {
    Modes.RunningHasId(w.threads, n);
  }

  lemma MovedKeepsSafe(w: World, n: nat)
    requires Safe(w)
    ensures Safe(Moved(w, n))
  {
    hide JobOk, QueueOk, Threads.Good, Threads.StepOf, Stepped, Modes.Exit, Modes.Tidy, Modes.Running, Modes.RowsOf;
    SameQueue(w, Moved(w, n));
    if Live(w, n) {
      LiveHasId(w, n);
      if w.jobs[n].thread.pc == Threads.Exited {
        Modes.ExitKeeps(w.threads, n);
        Modes.ExitIsolates(w.threads, n);
      } else {
        assert Rows(w, n) == w.jobs[n].rows;
        StepKeepsJob(w.jobs[n]);
        StepKeepsRows(w.jobs[n]);
      }
    }
  }

  lemma StepKeepsRows(job: Job)
    requires Threads.Good(job.rows, job.thread) && job.thread.pc != Threads.Exited
    ensures Stepped(job.rows, job).rows == job.rows
  {
    hide Threads.Good, Threads.StepOf;
  }

  lemma BeforeKeepsSafe(w: World, m: Move)
    requires Safe(w)
    ensures Safe(Before(w, m))
  {
    SafeIsSized(w);
    match m
    case ScriptStep(n) => MovedKeepsSafe(w, n);
    case _ =>
      Modes.LosingKeeps(w.threads, ERROR);
      SameQueue(w, Before(w, m));
      hide JobOk, QueueOk, Modes.Tidy, Modes.ReceiverEnds, Clients.Suspend, Modes.Running, Modes.RowsOf, RowsKept;
      SameSlots(w.threads, Before(w, m).threads);
      SlotsKeepRows(w, Before(w, m));
  }

  lemma {:induction false} RunKeepsSafe(c: Config, rank: map<string, nat>, w: World, moves: seq<Move>)
    requires Safe(w) && Fair(c.kernel) && Ranked(c.files, rank)
    ensures Safe(Run(c, rank, w, moves))
    decreases moves
  {
    hide Safe, Fair, Ranked, Before, Lines, ExecAll;
    SafeIsSized(w);
    if moves != [] {
      BeforeKeepsSafe(w, moves[0]);
      ExecAllKeepsSafe(c, Before(w, moves[0]), Lines(c, rank, w, moves[0]));
      RunKeepsSafe(c, rank, Next(c, rank, w, moves[0]), moves[1..]);
    }
  }

  lemma StartIsSafe()
    ensures Safe(START) && Modes.IdsOk(START.threads) && Clients.Consistent(START.clients)
  {
    Clients.EmptyIsConsistent();
    Modes.IdleIsSound();
    hide Clients.Consistent, Modes.Tidy, Modes.IdsOk;
    assert START.Sized();
    assert JobOk(NO_JOB);
  }

  // ---- The registry ----

  /** A suspend message that gets through comes from a client whose old descriptor is not open again. */
  predicate SuspendOk(w: World, m: Move)
    requires w.Sized()
  {
    m.Suspended? && Modes.Running(w.threads, Modes.Receiver) ==> Clients.MaySuspend(w.clients, m.num)
  }

  ghost predicate SuspendsOk(c: Config, rank: map<string, nat>, w: World, moves: seq<Move>)
    requires w.Sized() && Fair(c.kernel) && Ranked(c.files, rank)
    decreases moves
  {
    moves == [] || (SuspendOk(w, moves[0]) && SuspendsOk(c, rank, Next(c, rank, w, moves[0]), moves[1..]))
  }

  /** The registry is consistent after every move. */
  ghost predicate AlwaysConsistent(c: Config, rank: map<string, nat>, w: World, moves: seq<Move>)
    requires w.Sized() && Fair(c.kernel) && Ranked(c.files, rank)
    decreases moves
  {
    Clients.Consistent(w.clients) &&
    (moves == [] || AlwaysConsistent(c, rank, Next(c, rank, w, moves[0]), moves[1..]))
  }

  lemma {:induction false} LinesKeepRegistry(c: Config, w: World, lines: seq<string>)
    requires w.Sized() && Clients.Consistent(w.clients) && Fair(c.kernel)
    ensures Clients.Consistent(ExecAll(c, w, lines).clients)
    decreases lines
  {
    hide Exec, Clients.Consistent;
    if lines != [] {
      ExecKeepsRegistry(c, w, lines[0]);
      LinesKeepRegistry(c, Exec(c, w, lines[0]), lines[1..]);
    }
  }

  lemma MoveKeepsRegistry(c: Config, rank: map<string, nat>, w: World, m: Move)
    requires w.Sized() && Clients.Consistent(w.clients) && Fair(c.kernel) && Ranked(c.files, rank)
    ensures Clients.Consistent(Next(c, rank, w, m).clients) <==> SuspendOk(w, m)
  {
    hide Clients.Consistent, Clients.MaySuspend, Modes.Running, Fair, Ranked, Expand, Live, Stepped, Issued;
    if m.Suspended? {
      Clients.SuspendKeeps(w.clients, m.num);
      assert Lines(c, rank, w, m) == [];
    } else {
      LinesKeepRegistry(c, Before(w, m), Lines(c, rank, w, m));
    }
  }

  lemma {:induction false} RegistryAlong(c: Config, rank: map<string, nat>, w: World, moves: seq<Move>)
    requires w.Sized() && Clients.Consistent(w.clients) && Fair(c.kernel) && Ranked(c.files, rank)
    ensures AlwaysConsistent(c, rank, w, moves) <==> SuspendsOk(c, rank, w, moves)
    ensures AlwaysConsistent(c, rank, w, moves) ==> Clients.Consistent(Run(c, rank, w, moves).clients)
    decreases moves
  {
    hide Clients.Consistent, Next, SuspendOk, Fair, Ranked;
    if moves != [] {
      MoveKeepsRegistry(c, rank, w, moves[0]);
      if Clients.Consistent(Next(c, rank, w, moves[0]).clients) {
        RegistryAlong(c, rank, Next(c, rank, w, moves[0]), moves[1..]);
      } else {
        NotConsistent(c, rank, Next(c, rank, w, moves[0]), moves[1..]);
      }
    }
  }

  lemma NotConsistent(c: Config, rank: map<string, nat>, w: World, moves: seq<Move>)
    requires w.Sized() && Fair(c.kernel) && Ranked(c.files, rank) && !Clients.Consistent(w.clients)
    ensures !AlwaysConsistent(c, rank, w, moves)
  {
    hide Clients.Consistent, Next;
  }

  // ---- The thread IDs ----

  /** Every line of the lines is clean when it comes to be run. */
  ghost predicate LinesClean(c: Config, w: World, lines: seq<string>)
    requires w.Sized() && Fair(c.kernel)
    decreases lines
  {
    lines == [] || (CleanLine(w, lines[0]) && LinesClean(c, Exec(c, w, lines[0]), lines[1..]))
  }

  /** Before and after every line, each ID that is set has its live thread. */
  ghost predicate LinesMatch(c: Config, w: World, lines: seq<string>)
    requires w.Sized() && Fair(c.kernel)
    decreases lines
  {
    Modes.IdsOk(w.threads) && (lines == [] || LinesMatch(c, Exec(c, w, lines[0]), lines[1..]))
  }

  ghost predicate QuitsOk(c: Config, rank: map<string, nat>, w: World, moves: seq<Move>)
    requires w.Sized() && Fair(c.kernel) && Ranked(c.files, rank)
    decreases moves
  {
    moves == [] || (
      && (moves[0].ReceiverEnds? ==> w.threads.recId == ERROR)
      && LinesClean(c, Before(w, moves[0]), Lines(c, rank, w, moves[0]))
      && QuitsOk(c, rank, Next(c, rank, w, moves[0]), moves[1..]))
  }

  /** At every moment of the run each ID that is set has its live thread. */
  ghost predicate AlwaysMatched(c: Config, rank: map<string, nat>, w: World, moves: seq<Move>)
    requires w.Sized() && Fair(c.kernel) && Ranked(c.files, rank)
    decreases moves
  {
    Modes.IdsOk(w.threads) && (moves == [] || (
      && LinesMatch(c, Before(w, moves[0]), Lines(c, rank, w, moves[0]))
      && AlwaysMatched(c, rank, Next(c, rank, w, moves[0]), moves[1..])))
  }

  /** Every message was sent while the sender thread was live. */
  ghost predicate SentLive(w: World)
  {
    forall i :: 0 <= i < |w.sentAt| ==> w.sentAt[i].Sized() && Modes.Running(w.sentAt[i], Modes.Sender)
  }

  /** With all IDs right, a line sends only while the sender is live. */
  lemma ExecSendsLive(c: Config, w: World, line: string)
    requires w.Sized() && Modes.IdsOk(w.threads) && Fair(c.kernel) && SentLive(w)
    ensures SentLive(Exec(c, w, line))
  {
    ExecSendsWell(c, w, line);
    assert w.threads.sendId != ERROR ==> Modes.Running(w.threads, Modes.Sender) by {
      assert Modes.Known(Modes.Sender) && w.threads.IdOf(Modes.Sender) == w.threads.sendId;
    }
    hide Exec, Modes.Running, MsgOk, Modes.IdsOk, Fair;
  }

  lemma {:induction false} LinesAlong(c: Config, w: World, lines: seq<string>)
    requires w.Sized() && Modes.Tidy(w.threads) && Modes.IdsOk(w.threads) && Fair(c.kernel)
    ensures LinesMatch(c, w, lines) <==> LinesClean(c, w, lines)
    ensures LinesMatch(c, w, lines) ==> Modes.IdsOk(ExecAll(c, w, lines).threads)
    ensures LinesMatch(c, w, lines) && SentLive(w) ==> SentLive(ExecAll(c, w, lines))
    decreases lines
  {
    hide Exec, Modes.Tidy, Modes.IdsOk, CleanLine, SentLive, Fair;
    if lines != [] {
      ExecKeepsThreads(c, w, lines[0]);
      if SentLive(w) {
        ExecSendsLive(c, w, lines[0]);
      }
      if Modes.IdsOk(Exec(c, w, lines[0]).threads) {
        LinesAlong(c, Exec(c, w, lines[0]), lines[1..]);
      } else {
        NotMatched(c, Exec(c, w, lines[0]), lines[1..]);
      }
    }
  }

  lemma NotMatched(c: Config, w: World, lines: seq<string>)
    requires w.Sized() && Fair(c.kernel) && !Modes.IdsOk(w.threads)
    ensures !LinesMatch(c, w, lines)
  {
    hide Modes.IdsOk, Exec;
  }

  lemma BeforeKeepsIds(w: World, m: Move)
    requires w.Sized() && Modes.Tidy(w.threads) && Modes.IdsOk(w.threads)
    ensures Modes.Tidy(Before(w, m).threads)
    ensures Modes.IdsOk(Before(w, m).threads) <==> (m.ReceiverEnds? ==> w.threads.recId == ERROR)
    ensures Before(w, m).sentAt == w.sentAt
  {
    Modes.LosingKeeps(w.threads, ERROR);
    Modes.ReceiverEndKeepsIds(w.threads);
    hide Modes.Tidy, Modes.IdsOk, Modes.ReceiverEnds, Modes.Exit, Threads.Good, Stepped, Clients.Suspend;
    hide Modes.Running;
    if m.ScriptStep? && Live(w, m.slot) {
      LiveHasId(w, m.slot);
      Modes.ExitKeeps(w.threads, m.slot);
    }
  }

  /** One move: the lines it runs are clean exactly when all IDs are right all the way. */
  lemma MoveAlong(c: Config, rank: map<string, nat>, w: World, m: Move)
    requires w.Sized() && Modes.Tidy(w.threads) && Modes.IdsOk(w.threads) && Fair(c.kernel) && Ranked(c.files, rank)
    ensures LinesMatch(c, Before(w, m), Lines(c, rank, w, m)) <==>
      (m.ReceiverEnds? ==> w.threads.recId == ERROR) && LinesClean(c, Before(w, m), Lines(c, rank, w, m))
    ensures LinesMatch(c, Before(w, m), Lines(c, rank, w, m)) ==>
      Modes.IdsOk(Next(c, rank, w, m).threads) && (SentLive(w) ==> SentLive(Next(c, rank, w, m)))
  {
    BeforeKeepsIds(w, m);
    hide Modes.Tidy, Modes.IdsOk, Before, Lines, LinesMatch, LinesClean, ExecAll, Fair, Ranked;
    if Modes.IdsOk(Before(w, m).threads) {
      LinesAlong(c, Before(w, m), Lines(c, rank, w, m));
    } else {
      NotMatched(c, Before(w, m), Lines(c, rank, w, m));
    }
  }

  lemma {:induction false} IdsAlong(c: Config, rank: map<string, nat>, w: World, moves: seq<Move>)
    requires Safe(w) && Modes.IdsOk(w.threads) && Fair(c.kernel) && Ranked(c.files, rank)
    ensures AlwaysMatched(c, rank, w, moves) <==> QuitsOk(c, rank, w, moves)
    ensures AlwaysMatched(c, rank, w, moves) ==> Modes.IdsOk(Run(c, rank, w, moves).threads)
    ensures AlwaysMatched(c, rank, w, moves) && SentLive(w) ==> SentLive(Run(c, rank, w, moves))
    decreases moves
  {
    SafeIsSized(w);
    hide Safe, Modes.IdsOk, SentLive, LinesMatch, LinesClean, Before, Lines, Next, Fair, Ranked;
    if moves != [] {
      MoveAlong(c, rank, w, moves[0]);
      if LinesMatch(c, Before(w, moves[0]), Lines(c, rank, w, moves[0])) {
        RunKeepsSafe(c, rank, w, [moves[0]]);
        OneMove(c, rank, w, moves[0]);
        IdsAlong(c, rank, Next(c, rank, w, moves[0]), moves[1..]);
      }
    }
  }

  lemma OneMove(c: Config, rank: map<string, nat>, w: World, m: Move)
    requires w.Sized() && Fair(c.kernel) && Ranked(c.files, rank)
    ensures Run(c, rank, w, [m]) == Next(c, rank, w, m)
  {
    hide Next;
    assert Run(c, rank, w, [m]) == Run(c, rank, Next(c, rank, w, m), []);
  }

  // ---- What that means ----

  /** A suspend message is only heard while the receiver runs, and then from phones 1 to 9. */
  lemma SuspendNeedsReceiver(c: Config, rank: map<string, nat>, w: World, num: int)
    requires w.Sized() && Fair(c.kernel) && Ranked(c.files, rank)
    ensures var w' := Next(c, rank, w, Suspended(num));
      && w'.threads == w.threads && w'.jobs == w.jobs && w'.queue == w.queue
      && if 1 <= num <= 9 && w.threads.recId in w.threads.live && w.threads.live[w.threads.recId] == Modes.Receiver then
           w'.clients == Clients.Suspend(w.clients, num)
         else w'.clients == w.clients
  {
  }

  /**
   However console and scripts interleave: a registered slot reads the rows its script was started
   with; the script has issued a prefix of the trace those rows have on their own, its counter
   stands at the iterations completed so far, and once its thread has come to the end of its rows
   it has issued all of that trace and counted every iteration.
   */
  lemma ScriptsRunAsIfAlone(c: Config, rank: map<string, nat>, moves: seq<Move>, n: nat)
    requires Fair(c.kernel) && Ranked(c.files, rank) && n < MAX_SCRIPT_THREAD
    requires Script.Balanced(Run(c, rank, START, moves).jobs[n].rows)
    ensures var job := Run(c, rank, START, moves).jobs[n];
      var p := Meaning.Program(job.rows);
      && OnItsWay(job)
      && (Run(c, rank, START, moves).threads.scriptId[n] != ERROR ==>
            Rows(Run(c, rank, START, moves), n) == job.rows)
      && job.issued <= Meaning.Trace(p)
      && (job.thread.pc == Threads.Exited ==>
            && job.issued == Meaning.Trace(p)
            && job.count == if Meaning.Runs(p) <= 0x7fff_ffff then Meaning.Runs(p) else 0x7fff_ffff)
  {
    StartIsSafe();
    RunKeepsSafe(c, rank, START, moves);
    var job := Run(c, rank, START, moves).jobs[n];
    assert JobOk(job);
    assert RowsKept(Run(c, rank, START, moves));
    hide Run, Safe, JobOk, Meaning.Program, Rows;
  }

  /**
   Every message that was ever queued is well-formed and was sent with the sender's ID set, and
   if every quit was clean, while the sender thread was live.
   */
  lemma QueueIsSafe(c: Config, rank: map<string, nat>, moves: seq<Move>)
    requires Fair(c.kernel) && Ranked(c.files, rank)
    ensures QueueOk(Run(c, rank, START, moves))
    ensures QuitsOk(c, rank, START, moves) ==> SentLive(Run(c, rank, START, moves))
  {
    StartIsSafe();
    RunKeepsSafe(c, rank, START, moves);
    IdsAlong(c, rank, START, moves);
    hide Run, QuitsOk, AlwaysMatched;
  }

  /**
   Whatever happens, every live thread is registered and no buffer is shared or freed twice.  The
   registry is consistent after every move exactly when no suspend message comes from a client
   whose old descriptor is open again.  IDs and live threads match at every moment exactly when
   quit is only run without sender and receiver, no stop ends the thread that runs it, and no
   receiver ends by itself.
   */
  lemma TablesAreSound(c: Config, rank: map<string, nat>, moves: seq<Move>)
    requires Fair(c.kernel) && Ranked(c.files, rank)
    ensures Modes.Tidy(Run(c, rank, START, moves).threads)
    ensures AlwaysConsistent(c, rank, START, moves) <==> SuspendsOk(c, rank, START, moves)
    ensures AlwaysMatched(c, rank, START, moves) <==> QuitsOk(c, rank, START, moves)
  {
    StartIsSafe();
    RunKeepsSafe(c, rank, START, moves);
    RegistryAlong(c, rank, START, moves);
    IdsAlong(c, rank, START, moves);
    hide Run, AlwaysConsistent, AlwaysMatched, SuspendsOk, QuitsOk;
  }

  /** A line that runs no file is one line. */
  lemma PlainMove(c: Config, rank: map<string, nat>, w: World, line: string)
    requires w.Sized() && Fair(c.kernel) && Ranked(c.files, rank)
    requires Argv(line) != [] && HandlerOf(Argv(line)[0]) != Some(AutoConfig) && w.self == ERROR
    ensures Next(c, rank, w, ConsoleLine(line)) == Exec(c, w, line)
  {
    hide Argv, HandlerOf, Exec, Fair, Ranked;
    assert Expand(c.files, rank, line) == [line];
    assert ExecAll(c, w, [line]) == ExecAll(c, Exec(c, w, line), []);
  }

  const START_ALL := "start" + " " + "all"
  const CALL_HI := "call" + " " + ("0" + " " + "hi")

  lemma ClientZero()
    ensures ClientOk("0")
  {
    AtoiDecimal(0);
    DigitsAre(0);
    assert Decimal(0) == "0";
  }

  lemma StartEffect(c: Config, w: World, line: string)
    requires w.Sized() && Fair(c.kernel) && w.Alive() && |Argv(line)| == 2 && HandlerOf(Argv(line)[0]) == Some(Start)
    ensures var w' := Exec(c, w, line);
      && w'.threads == Modes.Start(w.threads, 1, Argv(line)[1], c.kernel(w.clock) != FAILED, c.kernel(w.clock + 1),
                                   c.kernel(w.clock + 2))
      && w'.clock == w.clock + 3 && w'.queue == w.queue && w'.sentAt == w.sentAt
  {
    hide Argv, Tokens.FieldStarts, HandlerOf, ThirdRead, Modes.Start, Fair;
  }

  lemma QuitEffect(c: Config, w: World, line: string)
    requires w.Sized() && Fair(c.kernel) && w.Alive() && IsQuit(line)
    ensures var w' := Exec(c, w, line);
      && w'.threads == Modes.Quit(w.threads, w.self)
      && w'.clock == w.clock && w'.queue == w.queue && w'.sentAt == w.sentAt
  {
    hide Argv, Tokens.FieldStarts, HandlerOf, ThirdRead, Modes.Quit, Fair;
  }

  lemma CallEffect(c: Config, w: World, line: string)
    requires w.Sized() && Fair(c.kernel) && w.Alive() && w.threads.sendId != ERROR && c.kernel(w.clock) != FAILED
    requires |Argv(line)| == 3 && HandlerOf(Argv(line)[0]) == Some(Call) && ClientOk(Argv(line)[1])
    ensures var w' := Exec(c, w, line);
      |w'.queue| == |w.queue| + 1 && w'.sentAt == w.sentAt + [w.threads] && w'.threads == w.threads
  {
    hide Argv, Tokens.FieldStarts, HandlerOf, ThirdRead, ClientOk, Atoi, Truncate, Fair;
  }

  /** What the three lines of the example are. */
  lemma TheLines()
    ensures Argv(START_ALL) == ["start", "all"] && HandlerOf("start") == Some(Start)
    ensures Argv("q") == ["q"] && HandlerOf("q") == Some(Quit)
    ensures Argv(CALL_HI) == ["call", "0", "hi"] && HandlerOf("call") == Some(Call) && ClientOk("0")
  {
    hide Argv, HandlerOf, ClientOk, Tokens.FieldStarts;
    TwoWords("start", "all");
    OneWord("q");
    ThreeWords("call", "0", "hi");
    StartIsFound();
    QuitIsFound();
    CallIsFound();
    ClientZero();
  }

  /** With both threads started by `first`, quit and call leave IDs without threads and a message. */
  lemma NobodyListens(c: Config, w: World, first: string, second: string, third: string)
    requires w.Sized() && Fair(c.kernel) && Modes.Sound(w.threads) && w.queue == [] && w.sentAt == []
    requires w.self == ERROR
    requires |Argv(first)| == 2 && HandlerOf(Argv(first)[0]) == Some(Start) && Argv(first)[1] == "all"
    requires IsQuit(second)
    requires |Argv(third)| == 3 && HandlerOf(Argv(third)[0]) == Some(Call) && ClientOk(Argv(third)[1])
    requires Modes.NewId(w.threads, c.kernel(w.clock + 1)) != 0 && Modes.NewId(w.threads, c.kernel(w.clock + 2)) != 0
    requires c.kernel(w.clock + 1) != c.kernel(w.clock + 2)
    requires c.kernel(w.clock) != FAILED && c.kernel(w.clock + 3) != FAILED
    ensures var w' := Exec(c, Exec(c, Exec(c, w, first), second), third);
      && w'.threads.sendId != ERROR && w'.threads.recId != ERROR && !Modes.IdsOk(w'.threads)
      && |w'.queue| == 1 && !SentLive(w')
  {
    hide Argv, HandlerOf, ClientOk, Exec, IsQuit, Modes.Quit, Modes.Start, Modes.IdsOk, Modes.Tidy, Modes.Running, Fair;
    hide Modes.NewId;
    StartEffect(c, w, first);
    var w1 := Exec(c, w, first);
    QuitEffect(c, w1, second);
    var w2 := Exec(c, w1, second);
    Modes.QuitLeavesIds(w.threads, c.kernel(w.clock + 1), c.kernel(w.clock + 2), ERROR);
    CallEffect(c, w2, third);
    assert Exec(c, w2, third).sentAt[0] == w2.threads;
  }

  /**
   For example: `start all`, `q`, `call 0 hi`.  Both threads are gone, both IDs are set, and the
   message is queued all the same.
   */
  lemma QuitDeceives(c: Config, rank: map<string, nat>)
    requires Fair(c.kernel) && Ranked(c.files, rank)
    requires c.kernel(0) != FAILED && c.kernel(1) > 0 && c.kernel(2) > 0 && c.kernel(1) != c.kernel(2)
    requires c.kernel(3) != FAILED
    ensures var w := Run(c, rank, START, [ConsoleLine(START_ALL), ConsoleLine("q"), ConsoleLine(CALL_HI)]);
      && w.threads.sendId != ERROR && w.threads.recId != ERROR && !Modes.IdsOk(w.threads)
      && |w.queue| == 1 && !SentLive(w)
  {
    hide Exec, Run, Next, Argv, HandlerOf, ClientOk, Modes.IdsOk, Modes.Running, Fair, Ranked, START_ALL, CALL_HI;
    hide SentLive, Modes.Tidy;
    Modes.IdleIsSound();
    assert START.Sized();
    TheLines();
    NobodyListens(c, START, START_ALL, "q", CALL_HI);
    var w1 := Exec(c, START, START_ALL);
    PlainMove(c, rank, START, START_ALL);
    PlainMove(c, rank, w1, "q");
    PlainMove(c, rank, Exec(c, w1, "q"), CALL_HI);
    ThreeMoves(c, rank, START, ConsoleLine(START_ALL), ConsoleLine("q"), ConsoleLine(CALL_HI));
  }

  const STOP_ALL := "stop" + " " + "all"

  lemma StopEffect(c: Config, w: World, line: string)
    requires w.Sized() && Fair(c.kernel) && w.Alive() && |Argv(line)| == 2 && HandlerOf(Argv(line)[0]) == Some(Stop)
    ensures Exec(c, w, line).threads ==
      Modes.Stop(w.threads, 1, Argv(line)[1], ThirdRead(w.params, line), w.self)
  {
    hide Argv, Tokens.FieldStarts, HandlerOf, ThirdRead, Modes.Stop, Fair;
  }

  lemma StopAllLine()
    ensures Argv(STOP_ALL) == ["stop", "all"] && HandlerOf("stop") == Some(Stop)
  {
    hide Argv, HandlerOf, Tokens.FieldStarts;
    TwoWords("stop", "all");
    StopIsFound();
  }

  /** A line a script hands to cmd_proc that runs no file. */
  lemma PlainStep(c: Config, rank: map<string, nat>, w: World, n: nat, line: string)
    requires w.Sized() && Fair(c.kernel) && Ranked(c.files, rank) && Issued(w, n) == [line]
    requires Argv(line) != [] && HandlerOf(Argv(line)[0]) != Some(AutoConfig)
    ensures Next(c, rank, w, ScriptStep(n)) == Exec(c, Moved(w, n), line)
  {
    hide Argv, HandlerOf, Exec, Fair, Ranked, Issued, Moved;
    assert Expand(c.files, rank, line) == [line];
    assert ExecAll(c, Moved(w, n), [line]) == ExecAll(c, Exec(c, Moved(w, n), line), []);
  }

  /**
   For example: a script that hands out `stop all`.  Sender, receiver and the scripts in slots
   before its own are stopped; the script itself is gone for good, with its ID set and its slot
   taken; the scripts behind it go on.
   */
  lemma ScriptStopsItself(c: Config, rank: map<string, nat>, w: World, n: nat)
    requires Safe(w) && Modes.IdsOk(w.threads) && Fair(c.kernel) && Ranked(c.files, rank)
    requires w.Sized() && Issued(w, n) == [STOP_ALL]
    ensures n < MAX_SCRIPT_THREAD
    ensures var w' := Next(c, rank, w, ScriptStep(n));
      && w'.threads.sendId == ERROR && w'.threads.recId == ERROR
      && (forall k :: 0 <= k < n ==> w'.threads.scriptId[k] == ERROR)
      && w'.threads.scriptId[n] == w.threads.scriptId[n] != ERROR && !Live(w', n) && !Modes.IdsOk(w'.threads)
      && (forall k :: n < k < MAX_SCRIPT_THREAD ==>
            w'.threads.scriptId[k] == w.threads.scriptId[k]
            && (Modes.Running(w'.threads, Modes.Runner(k)) <==> Modes.Running(w.threads, Modes.Runner(k))))
      && forall answer :: !Modes.CanRun(w'.threads, 2, n, answer)
  {
    hide Exec, Argv, HandlerOf, Threads.Good, Threads.StepOf, Modes.IdsOk, Modes.Tidy, Modes.Stop, Modes.Exit;
    hide ThirdRead, Fair, Ranked, STOP_ALL, Expand, QueueOk, RowsKept, JobOk, Modes.CanRun;
    StopAllLine();
    assert Live(w, n) && w.jobs[n].thread.pc != Threads.Exited;
    var w1 := Moved(w, n);
    assert w1.threads == w.threads && w1.self == w.threads.scriptId[n] && w1.Alive();
    PlainStep(c, rank, w, n, STOP_ALL);
    StopEffect(c, w1, STOP_ALL);
    Modes.StopAllFromScript(w.threads, n, ThirdRead(w1.params, STOP_ALL));
  }

  lemma ThreeMoves(c: Config, rank: map<string, nat>, w: World, a: Move, b: Move, d: Move)
    requires w.Sized() && Fair(c.kernel) && Ranked(c.files, rank)
    ensures Run(c, rank, w, [a, b, d]) == Next(c, rank, Next(c, rank, Next(c, rank, w, a), b), d)
  {
    hide Next, Fair, Ranked;
    MoveFirst(c, rank, w, a, [b, d]);
    MoveFirst(c, rank, Next(c, rank, w, a), b, [d]);
    MoveFirst(c, rank, Next(c, rank, Next(c, rank, w, a), b), d, []);
    assert [a] + [b, d] == [a, b, d] && [b] + [d] == [b, d] && [d] + [] == [d];
  }

  lemma MoveFirst(c: Config, rank: map<string, nat>, w: World, m: Move, moves: seq<Move>)
    requires w.Sized() && Fair(c.kernel) && Ranked(c.files, rank)
    ensures Run(c, rank, w, [m] + moves) == Run(c, rank, Next(c, rank, w, m), moves)
  {
    hide Next;
    assert ([m] + moves)[1..] == moves;
  }

  // ---- A script comes to its end ----

  /** The lines are run by the script thread in slot n. */
  ghost predicate RunBy(w: World, n: nat)
  {
    w.Sized() && n < MAX_SCRIPT_THREAD && w.self == w.threads.scriptId[n] != ERROR
  }

  /** What a script's line does leaves its own slot to it. */
  lemma HandleKeepsOwn(c: Config, w: World, h: Handler, argv: seq<string>, third: string, n: nat)
    requires RunBy(w, n) && argv != [] && Fair(c.kernel)
    ensures var w' := Handle(c, w, h, argv, third);
      RunBy(w', n) && w'.self == w.self && w'.jobs[n] == w.jobs[n]
  {
    hide Modes.Stop, Modes.Quit, Fair, Send, RandomKeyEffect, Clients.Add, Clients.Del, Clients.ChangeIp, NewJob;
    hide FileName, Atoi, FileRows;
    Modes.OwnIdStays(w.threads, |argv| - 1, ArgAt(argv, 1), third, w.self, n);
  }

  lemma ExecKeepsOwn(c: Config, w: World, line: string, n: nat)
    requires RunBy(w, n) && Fair(c.kernel)
    ensures var w' := Exec(c, w, line);
      RunBy(w', n) && w'.self == w.self && w'.jobs[n] == w.jobs[n]
  {
    hide Argv, HandlerOf, Handle, Fair, Tokens.FieldStarts, ThirdRead;
    var argv := Argv(line);
    if w.Alive() && argv != [] && HandlerOf(argv[0]).Some? {
      HandleKeepsOwn(c, Noted(w, line), HandlerOf(argv[0]).value, argv, ThirdRead(w.params, line), n);
    }
  }

  lemma {:induction false} ExecAllKeepsOwn(c: Config, w: World, lines: seq<string>, n: nat)
    requires RunBy(w, n) && Fair(c.kernel)
    ensures var w' := ExecAll(c, w, lines);
      RunBy(w', n) && w'.self == w.self && w'.jobs[n] == w.jobs[n]
    decreases lines
  {
    hide Exec, RunBy;
    assert w.Sized() by {
      RunBySized(w, n);
    }
    if lines != [] {
      ExecKeepsOwn(c, w, lines[0], n);
      ExecAllKeepsOwn(c, Exec(c, w, lines[0]), lines[1..], n);
    }
  }

  lemma RunBySized(w: World, n: nat)
    requires RunBy(w, n)
    ensures w.Sized() && n < MAX_SCRIPT_THREAD
  {
  }

  /**
   A move of a live script hands out its next line and takes it exactly one step nearer its end,
   whatever that line does; at its end the move gives the slot back.
   */
  lemma StepGoesOn(c: Config, rank: map<string, nat>, w: World, n: nat)
    requires Safe(w) && Fair(c.kernel) && Ranked(c.files, rank) && Live(w, n) && Script.Balanced(w.jobs[n].rows)
    ensures OnItsWay(w.jobs[n])
    ensures var w', job := Next(c, rank, w, ScriptStep(n)), w.jobs[n];
      if job.thread.pc != Threads.Exited then
        && w'.jobs[n] == Stepped(job.rows, job) && OnItsWay(w'.jobs[n]) && w'.jobs[n].rows == job.rows
        && Threads.StepsLeft(job.rows, w'.jobs[n].thread) == Threads.StepsLeft(job.rows, job.thread) - 1
        && w'.threads.scriptId[n] == w.threads.scriptId[n] && w.log + Issued(w, n) <= w'.log
      else w'.threads == Modes.Exit(w.threads, n) && w'.jobs == w.jobs && w'.log == w.log
  {
    hide Threads.Good, Threads.StepOf, Threads.StepsLeft, OnItsWay, Fair, Ranked, ExecAll, Expand, Modes.Exit;
    hide Modes.Tidy, QueueOk, Modes.RowsOf, Modes.Running;
    var job := w.jobs[n];
    LiveHasId(w, n);
    assert JobOk(job) && Rows(w, n) == job.rows;
    if job.thread.pc != Threads.Exited {
      StepKeepsOnItsWay(job);
      var lines := Lines(c, rank, w, ScriptStep(n));
      ExecAllKeepsOwn(c, Moved(w, n), lines, n);
      LogGrows(c, Moved(w, n), lines);
      IssuedLine(c, rank, w, n);
    } else {
      NoLines(c, Moved(w, n));
    }
  }

  /** So many moves of slot n. */
  function StepsOf(n: nat, k: nat): seq<Move>
  {
    if k == 0 then [] else [ScriptStep(n)] + StepsOf(n, k - 1)
  }

  /**
   Left to itself, a script that is live and k steps from its end has, k moves later, handed out the
   whole trace of its rows and counted every iteration, and the next move gives its slot back;
   unless it is not live any more because a line of its own has ended it.
   */
  lemma {:induction false} ScriptRunsOut(c: Config, rank: map<string, nat>, w: World, n: nat, k: nat)
    requires Safe(w) && Fair(c.kernel) && Ranked(c.files, rank) && Live(w, n) && Script.Balanced(w.jobs[n].rows)
    requires Threads.Good(w.jobs[n].rows, w.jobs[n].thread)
    requires k == Threads.StepsLeft(w.jobs[n].rows, w.jobs[n].thread)
    ensures var w' := Run(c, rank, w, StepsOf(n, k));
      var p := Meaning.Program(w.jobs[n].rows);
      Live(w', n) ==>
        && w'.jobs[n].thread.pc == Threads.Exited && w'.jobs[n].issued == Meaning.Trace(p)
        && w'.jobs[n].count == (if Meaning.Runs(p) <= 0x7fff_ffff then Meaning.Runs(p) else 0x7fff_ffff)
        && Next(c, rank, w', ScriptStep(n)).threads == Modes.Exit(w'.threads, n)
        && Next(c, rank, w', ScriptStep(n)).threads.scriptId[n] == 0
    decreases k
  {
    hide Safe, Fair, Ranked, Live, Next, Run, OnItsWay, Modes.Exit, Stepped, Threads.Good, Threads.StepsLeft;
    SafeIsSized(w);
    LiveHasId(w, n);
    var job := w.jobs[n];
    StepGoesOn(c, rank, w, n);
    NoMovesLeft(c, rank, w);
    if job.thread.pc == Threads.Exited {
      AtTheEnd(w, n);
      assert StepsOf(n, 0) == [];
    } else {
      var w1 := Next(c, rank, w, ScriptStep(n));
      RunKeepsSafe(c, rank, w, [ScriptStep(n)]);
      OneMove(c, rank, w, ScriptStep(n));
      StepsAreLeft(job);
      MoveFirst(c, rank, w, ScriptStep(n), StepsOf(n, k - 1));
      assert StepsOf(n, k) == [ScriptStep(n)] + StepsOf(n, k - 1);
      GoodOnItsWay(w1.jobs[n]);
      if Live(w1, n) {
        ScriptRunsOut(c, rank, w1, n, k - 1);
      } else {
        StaysGone(c, rank, w1, n, k - 1);
      }
    }
  }

  /**
   A file named in a typed runScript, in test mode with the slot free: the slot's script is live,
   and left to itself it hands out the trace of that file's rows and counts its iterations.
   */
  lemma TypedScriptRunsOut(c: Config, rank: map<string, nat>, w: World, cmd: string, n: nat, f: string)
    requires Safe(w) && Fair(c.kernel) && Ranked(c.files, rank) && w.self == ERROR
    requires (cmd == "runScript" || cmd == "rs") && n <= 9 && Tokens.IsToken(f, ' ') && |f| < 60 && f in c.files
    requires |TypedLines.Word(cmd, TypedLines.Word(Decimal(n), f))| <= 255 && Script.Balanced(Loader.Load(c.files[f]))
    requires w.threads.sendId != 0 && w.threads.scriptId[n] == 0
    requires c.kernel(w.clock) > 0 && c.kernel(w.clock) !in w.threads.live
    ensures var typed := Next(c, rank, w, ConsoleLine(TypedLines.Word(cmd, TypedLines.Word(Decimal(n), f))));
      var p := Meaning.Program(Loader.Load(c.files[f]));
      var w' := Run(c, rank, typed, StepsOf(n, Threads.Steps(p)));
      && Live(typed, n)
      && (Live(w', n) ==>
            && w'.jobs[n].thread.pc == Threads.Exited && w'.jobs[n].issued == Meaning.Trace(p)
            && w'.jobs[n].count == if Meaning.Runs(p) <= 0x7fff_ffff then Meaning.Runs(p) else 0x7fff_ffff)
  {
    hide Safe, Fair, Ranked, Next, Run, Exec, TypedLines.Word, Tokens.IsToken, Decimal, Loader.Load, Script.Balanced;
    hide Meaning.Program, Modes.Running, Modes.RowsOf, Modes.Tidy, Argv, HandlerOf, Expand, ExecAll;
    var line, rows := TypedLines.Word(cmd, TypedLines.Word(Decimal(n), f)), Loader.Load(c.files[f]);
    SafeIsSized(w);
    TypedLines.RunScriptReads(c, w, cmd, n, f);
    TypedLines.RunScriptIsPlain(cmd, n, f);
    PlainMove(c, rank, w, line);
    RunKeepsSafe(c, rank, w, [ConsoleLine(line)]);
    OneMove(c, rank, w, ConsoleLine(line));
    FromTheTop(rows, Next(c, rank, w, ConsoleLine(line)).jobs[n].thread);
    ScriptRunsOut(c, rank, Next(c, rank, w, ConsoleLine(line)), n, Threads.Steps(Meaning.Program(rows)));
  }

  lemma FromTheTop(rows: seq<string>, t: Threads.Thread)
    requires Script.Balanced(rows) && Threads.Initial(t)
    ensures Threads.Good(rows, t) && Threads.StepsLeft(rows, t) == Threads.Steps(Meaning.Program(rows))
  {
    hide Script.Balanced, Meaning.Program, Threads.Steps;
    assert rows[0..] == rows;
  }

  lemma NoMovesLeft(c: Config, rank: map<string, nat>, w: World)
    requires w.Sized() && Fair(c.kernel) && Ranked(c.files, rank)
    ensures Run(c, rank, w, []) == w
  {
  }

  lemma GoodOnItsWay(job: Job)
    requires Script.Balanced(job.rows) && OnItsWay(job)
    ensures Threads.Good(job.rows, job.thread)
  {
  }

  lemma StepsAreLeft(job: Job)
    requires Threads.Good(job.rows, job.thread)
    ensures Threads.StepsLeft(job.rows, job.thread) == 0 <==> job.thread.pc == Threads.Exited
  {
    hide Threads.Good;
  }

  lemma AtTheEnd(w: World, n: nat)
    requires Safe(w) && Live(w, n) && w.jobs[n].thread.pc == Threads.Exited && Script.Balanced(w.jobs[n].rows)
    ensures Threads.Good(w.jobs[n].rows, w.jobs[n].thread)
    ensures Threads.StepsLeft(w.jobs[n].rows, w.jobs[n].thread) == 0
    ensures var p := Meaning.Program(w.jobs[n].rows);
      && w.jobs[n].issued == Meaning.Trace(p)
      && w.jobs[n].count == (if Meaning.Runs(p) <= 0x7fff_ffff then Meaning.Runs(p) else 0x7fff_ffff)
    ensures Modes.Exit(w.threads, n).scriptId[n] == 0
  {
    hide Meaning.Program, Meaning.Trace, Meaning.Runs, QueueOk, RowsKept, Modes.Exit, Modes.Tidy;
    LiveHasId(w, n);
    Modes.ExitKeeps(w.threads, n);
    assert JobOk(w.jobs[n]);
  }

  lemma {:induction false} StaysGone(c: Config, rank: map<string, nat>, w: World, n: nat, k: nat)
    requires w.Sized() && Fair(c.kernel) && Ranked(c.files, rank) && !Live(w, n)
    ensures !Live(Run(c, rank, w, StepsOf(n, k)), n)
    decreases k
  {
    hide Fair, Ranked, Threads.Good, Modes.Running;
    NoMovesLeft(c, rank, w);
    if k > 0 {
      NoLines(c, Moved(w, n));
      MoveFirst(c, rank, w, ScriptStep(n), StepsOf(n, k - 1));
      StaysGone(c, rank, Next(c, rank, w, ScriptStep(n)), n, k - 1);
    }
  }

  lemma IssuedLine(c: Config, rank: map<string, nat>, w: World, n: nat)
    requires w.Sized() && Ranked(c.files, rank) && Live(w, n) && w.jobs[n].thread.pc != Threads.Exited
    ensures Moved(w, n).log == w.log && Moved(w, n).Alive()
    ensures var issued, lines := Issued(w, n), Lines(c, rank, w, ScriptStep(n));
      if issued == [] then lines == [] else issued == [issued[0]] && lines != [] && lines[0] == issued[0]
  {
    hide Threads.Good, Threads.EnterLoop, Ranked, Stepped;
  }

  lemma NoLines(c: Config, w: World)
    requires w.Sized() && Fair(c.kernel)
    ensures ExecAll(c, w, []) == w
  {
  }

  // ---- The command loop ----

  /** main exits behind input that starts with quit, whether or not that is a command. */
  predicate EndsMain(m: Move)
  {
    m.ConsoleLine? && "quit" <= m.line
  }

  /** What comes to pass: empty input is skipped, and nothing happens behind the end of main. */
  function Heard(moves: seq<Move>): seq<Move>
  {
    if moves == [] then []
    else if moves[0] == ConsoleLine("") then Heard(moves[1..])
    else if EndsMain(moves[0]) then [moves[0]]
    else [moves[0]] + Heard(moves[1..])
  }

  lemma {:induction false} HeardAfter(moves: seq<Move>, more: seq<Move>)
    requires forall k :: 0 <= k < |moves| && moves[k].ConsoleLine? ==> moves[k].line != "" && !("quit" <= moves[k].line)
    ensures Heard(moves + more) == moves + Heard(more)
    decreases |moves|
  {
    hide Heard;
    if moves == [] {
      assert moves + more == more;
    } else {
      HeardFirst(moves + more);
      assert (moves + more)[1..] == moves[1..] + more;
      HeardAfter(moves[1..], more);
      assert moves == [moves[0]] + moves[1..];
    }
  }

  /** In words: but for empty input, everything up to the first input that starts with quit. */
  lemma HeardIs(moves: seq<Move>, more: seq<Move>, last: string)
    requires forall k :: 0 <= k < |moves| && moves[k].ConsoleLine? ==> moves[k].line != "" && !("quit" <= moves[k].line)
    ensures Heard(moves) == moves
    ensures Heard(moves + ([ConsoleLine("quit" + last)] + more)) == moves + [ConsoleLine("quit" + last)]
    ensures Heard(moves + ([ConsoleLine("")] + more)) == moves + Heard(more)
  {
    var quit, empty := [ConsoleLine("quit" + last)] + more, [ConsoleLine("")] + more;
    HeardAfter(moves, []);
    HeardAfter(moves, quit);
    HeardAfter(moves, empty);
    assert moves + [] == moves && quit[1..] == more && empty[1..] == more;
    assert Heard(quit) == [quit[0]];
    assert Heard(empty) == Heard(more);
  }

  /**
   main (core/src/autoTest.c:54-75) with the threads beside it: on the memory of the tool, what is
   typed and what the threads do is a run, up to the first input that starts with quit.
   */
  method Session(config: Config, ghost rank: map<string, nat>, moves: seq<Move>) returns (console: Console.Console)
    requires Fair(config.kernel) && Ranked(config.files, rank) && AllFit(config, rank, START, Heard(moves))
    ensures console.Valid() && console.config == config && console.rank == rank && fresh(console)
    ensures fresh(console.buffer) && fresh(console.buffer.tmp) && fresh(console.gCmdParam) && fresh(console.Tables())
    ensures console.world == Run(config, rank, START, Heard(moves)) && Safe(console.world)
  {
    hide *;
    console := new Console.Console(config, rank);
    console.ValidFacts();
    StartIsSafe();
    RunKeepsSafe(config, rank, START, Heard(moves));
    ghost var end := Run(config, rank, START, Heard(moves));
    AllAhead(config, rank, START, Heard(moves));
    var k, running := 0, true;
    assert moves[0..] == moves;
    while k < |moves| && running
      invariant 0 <= k <= |moves| && console.Valid() && fresh(console) && console.config == config &&
        console.rank == rank
      invariant fresh(console.buffer) && fresh(console.buffer.tmp) && fresh(console.gCmdParam)
      invariant fresh(console.Tables())
      invariant console.world.Sized() && Fair(config.kernel) && Ranked(config.files, rank)
      invariant !running ==> console.world == end
      invariant running ==> Ahead(config, rank, console.world, Heard(moves[k..]), end)
    {
      assert moves[k..][1..] == moves[k + 1..] && moves[k..][0] == moves[k];
      HeardFirst(moves[k..]);
      if moves[k] != ConsoleLine("") {
        ghost var rest := if EndsMain(moves[k]) then [] else Heard(moves[k + 1..]);
        NextAhead(config, rank, console.world, moves[k], rest, end);
        console.Make(moves[k]);
        console.ValidFacts();
        NothingAhead(config, rank, console.world, end);
        running := !EndsMain(moves[k]);
      }
      k := k + 1;
    }
    if running {
      assert moves[k..] == [];
      NothingAhead(config, rank, console.world, end);
    }
  }

  /** The moves to come are fit and lead to `end`. */
  ghost predicate Ahead(c: Config, rank: map<string, nat>, w: World, moves: seq<Move>, end: World)
  {
    && w.Sized() && Fair(c.kernel) && Ranked(c.files, rank)
    && AllFit(c, rank, w, moves) && Run(c, rank, w, moves) == end
  }

  lemma AllAhead(c: Config, rank: map<string, nat>, w: World, moves: seq<Move>)
    requires w.Sized() && Fair(c.kernel) && Ranked(c.files, rank) && AllFit(c, rank, w, moves)
    ensures Ahead(c, rank, w, moves, Run(c, rank, w, moves))
  {
  }

  lemma NothingAhead(c: Config, rank: map<string, nat>, w: World, end: World)
    ensures Heard([]) == []
    ensures Ahead(c, rank, w, [], end) ==> w == end
  {
    hide AllFit;
  }

  lemma NextAhead(c: Config, rank: map<string, nat>, w: World, m: Move, rest: seq<Move>, end: World)
    requires Ahead(c, rank, w, [m] + rest, end)
    ensures w.Sized() && Fair(c.kernel) && Ranked(c.files, rank)
    ensures Fit(c, Before(w, m), Lines(c, rank, w, m)) && Ahead(c, rank, Next(c, rank, w, m), rest, end)
  {
    hide Fit, Before, Lines, Next;
    MoveFirst(c, rank, w, m, rest);
    assert ([m] + rest)[1..] == rest;
  }

  lemma HeardFirst(moves: seq<Move>)
    requires moves != []
    ensures moves[0] == ConsoleLine("") ==> Heard(moves) == Heard(moves[1..])
    ensures moves[0] != ConsoleLine("") ==>
      Heard(moves) == [moves[0]] + (if EndsMain(moves[0]) then [] else Heard(moves[1..]))
  {
    hide EndsMain;
  }

  // ---- A text as config file and as script ----

  /** The rows of a text, and its commands as a script, are fit. */
  ghost predicate TextFits(c: Config, rank: map<string, nat>, w: World, text: string, bound: nat)
    requires w.Sized() && Fair(c.kernel) && Ranked(c.files, rank)
  {
    var rows := Loader.Load(text);
    && |rows| <= Loader.MAX_SC_LINE && Script.Balanced(rows) && RowsBelow(c.files, rank, rows, bound)
    && Fit(c, w, ExpandAll(c.files, rank, rows, bound))
    && (TraceBelow(c.files, rank, rows, bound);
        Fit(c, w, ExpandAll(c.files, rank, Meaning.Trace(Meaning.Program(rows)), bound)))
  }

  /** The world as the main thread finds it when it reads on. */
  function AtPrompt(w: World): (w': World)
    requires w.Sized()
    ensures w'.Sized() && w'.self == ERROR && w'.Alive()
  {
    w.(self := ERROR)
  }

  lemma PromptIsMain(w: World)
    requires w.Sized()
    ensures Before(w, ConsoleLine("")) == AtPrompt(w)
  {
  }

  /**
   After the same moves, one tool reads a file as autoConfig does, and the other loads it,
   interprets it and hands over what that issues: they end up in the same world exactly when no
   row of the file starts with `loop`.
   */
  method BothWays(config: Config, ghost rank: map<string, nat>, moves: seq<Move>, name: string, ghost bound: nat)
    returns (c1: Console.Console, c2: Console.Console)
    requires Fair(config.kernel) && Ranked(config.files, rank) && AllFit(config, rank, START, Heard(moves))
    requires name in config.files
    requires TextFits(config, rank, AtPrompt(Run(config, rank, START, Heard(moves))), config.files[name], bound)
    ensures c1.world == c2.world <==> Meaning.LoopFree(Loader.Load(config.files[name]))
  {
    hide *;
    StartIsSafe();
    SafeIsSized(START);
    var text := config.files[name];
    ghost var w := AtPrompt(Run(config, rank, START, Heard(moves)));
    PromptIsMain(Run(config, rank, START, Heard(moves)));
    TextParts(config, rank, w, text, bound);
    c1 := Session(config, rank, moves);
    c1.EnterMain("");
    var _ := c1.RunFile(name, bound, AsConfig(config, rank, w, text, bound));
    c2 := Session(config, rank, moves);
    c2.EnterMain("");
    var _ := c2.RunAsScript(text, bound, AsScript(config, rank, w, text, bound));
  }

  lemma TextParts(c: Config, rank: map<string, nat>, w: World, text: string, bound: nat)
    requires w.Sized() && Fair(c.kernel) && Ranked(c.files, rank) && TextFits(c, rank, w, text, bound)
    requires w.self == ERROR
    ensures |Loader.Load(text)| <= Loader.MAX_SC_LINE && Script.Balanced(Loader.Load(text))
    ensures RowsBelow(c.files, rank, Loader.Load(text), bound)
    ensures Includes.Running(c, rank, w, text, bound, AsConfig(c, rank, w, text, bound))
    ensures RowsRunning(c, rank, w, Meaning.Trace(Meaning.Program(Loader.Load(text))), bound,
      AsScript(c, rank, w, text, bound))
    ensures AsConfig(c, rank, w, text, bound) == AsScript(c, rank, w, text, bound) <==>
      Meaning.LoopFree(Loader.Load(text))
  {
    hide ExecAll, ExpandAll, Fit, Loader.Load, Meaning.Trace, Meaning.Program, Script.Balanced, Ranked, Fair, RowsBelow;
    hide Meaning.LoopFree;
    TraceBelow(c.files, rank, Loader.Load(text), bound);
    ConfigIsScript(c, rank, w, text, bound);
  }
}
