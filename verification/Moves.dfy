/**
 The moves of the whole tool: a line typed at the console, a step of one of up to ten script
 threads, a phone's suspend message, and the receiver thread ending by itself.  A line, and a
 script's step up to and including its cmd_proc call, are atomic.
 */
module Moves {
  import opened Common
  import opened CStrings
  import opened Commands
  import opened Effects
  import opened Includes
  import Clients
  import Interpreter
  import Modes
  import Script
  import Threads

  datatype Move = ConsoleLine(line: string) | ScriptStep(slot: nat) | Suspended(num: int) | ReceiverEnds

  /** The rows slot n reads, through its buffer. */
  function Rows(w: World, n: nat): seq<string>
    requires w.Sized() && n < MAX_SCRIPT_THREAD
  {
    Modes.RowsOf(w.threads, n)
  }

  /** A script thread is live in slot n, and stands where its rows are balanced. */
  predicate Live(w: World, n: nat)
    requires w.Sized()
  {
    && n < MAX_SCRIPT_THREAD && Modes.Running(w.threads, Modes.Runner(n))
    && Threads.Good(Rows(w, n), w.jobs[n].thread)
  }

  /** The slot after a step of its thread over the rows it reads. */
  function Stepped(rows: seq<string>, job: Job): Job
    requires Threads.Good(rows, job.thread) && job.thread.pc != Threads.Exited
  {
    var s := Threads.StepOf(rows, job.thread);
    Job(job.rows, s.next, job.issued + s.issued, Interpreter.Counted(job.count, s.counted))
  }

  /** The line, if any, that the next step of slot n hands to cmd_proc. */
  function Issued(w: World, n: nat): seq<string>
    requires w.Sized()
  {
    if !Live(w, n) || w.jobs[n].thread.pc == Threads.Exited then []
    else Threads.StepOf(Rows(w, n), w.jobs[n].thread).issued
  }

  /** The world after the step, but for the effect of that line, which the slot's thread runs. */
  function Moved(w: World, n: nat): (w': World)
    requires w.Sized()
    ensures w'.Sized()
  {
    if !Live(w, n) then w.(self := ERROR)
    else if w.jobs[n].thread.pc == Threads.Exited then w.(threads := Modes.Exit(w.threads, n), self := ERROR)
    else w.(jobs := w.jobs[n := Stepped(Rows(w, n), w.jobs[n])], self := w.threads.scriptId[n])
  }

  /** The world before the lines of a move. */
  function Before(w: World, m: Move): (w': World)
    requires w.Sized()
    ensures w'.Sized()
  {
    match m
    case ConsoleLine(_) => w.(self := ERROR)
    case ScriptStep(n) => Moved(w, n)
    case Suspended(num) =>
      if Modes.Running(w.threads, Modes.Receiver) then
        w.(clients := Clients.Suspend(w.clients, num), self := ERROR)
      else w.(self := ERROR)
    case ReceiverEnds => w.(threads := Modes.ReceiverEnds(w.threads), self := ERROR)
  }

  /** The thread that makes the move is there when it starts. */
  lemma CallerIsAlive(w: World, m: Move)
    requires w.Sized()
    ensures Before(w, m).Alive()
  {
    hide Threads.Good, Modes.Exit, Clients.Suspend, Modes.ReceiverEnds, Stepped;
  }

  ghost function Lines(c: Config, rank: map<string, nat>, w: World, m: Move): seq<string>
    requires w.Sized() && Ranked(c.files, rank)
  {
    match m
    case ConsoleLine(line) => Expand(c.files, rank, line)
    case ScriptStep(n) => if Issued(w, n) == [] then [] else Expand(c.files, rank, Issued(w, n)[0])
    case _ => []
  }

  /**
   One move.  A script whose rows are not balanced is not followed, and a line that ends the
   thread that runs it is the last one of the move.
   */
  ghost function Next(c: Config, rank: map<string, nat>, w: World, m: Move): (w': World)
    requires w.Sized() && Fair(c.kernel) && Ranked(c.files, rank)
    ensures w'.Sized()
  {
    ExecAll(c, Before(w, m), Lines(c, rank, w, m))
  }

  ghost function Run(c: Config, rank: map<string, nat>, w: World, moves: seq<Move>): (w': World)
    requires w.Sized() && Fair(c.kernel) && Ranked(c.files, rank)
    ensures w'.Sized()
    decreases moves
  {
    if moves == [] then w else Run(c, rank, Next(c, rank, w, moves[0]), moves[1..])
  }

  /** Every line of the run is fit for the pointers it comes to. */
  ghost predicate AllFit(c: Config, rank: map<string, nat>, w: World, moves: seq<Move>)
    requires w.Sized() && Fair(c.kernel) && Ranked(c.files, rank)
    decreases moves
  {
    moves == [] || (Fit(c, Before(w, moves[0]), Lines(c, rank, w, moves[0]))
                    && AllFit(c, rank, Next(c, rank, w, moves[0]), moves[1..]))
  }
}
