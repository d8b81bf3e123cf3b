/**
 The sender, receiver and script threads: start, stop, quit and runScript
 (core/src/at_cmdProc.c:573-837), the way a script thread ends (1099-1106), the receiver that
 ends by itself (core/src/autoTest.c:124-126), and the ID getters and setters (277-303 there).
 */
module Modes {
  import opened Common
  import opened CStrings

  const PARAM_TEST := "test"
  const PARAM_REC := "rec"
  const PARAM_SC := "script"
  const PARAM_ALL := "all"

  datatype Role = Sender | Receiver | Runner(slot: nat)

  /**
   The IDs kept by the tool; the live threads as the kernel knows them; the buffer each script
   slot last pointed to, and the buffers themselves with the rows they hold, numbered in order of
   allocation.
   */
  datatype State = State(sendId: int, recId: int, scriptId: seq<int>, live: map<int, Role>,
                             buffer: seq<nat>, heap: map<nat, seq<string>>, freed: seq<nat>, mallocs: nat)
  {
    predicate Sized()
    {
      |scriptId| == |buffer| == MAX_SCRIPT_THREAD
    }

    function IdOf(role: Role): int
      requires Sized()
    {
      match role
      case Sender => sendId
      case Receiver => recId
      case Runner(n) => if n < MAX_SCRIPT_THREAD then scriptId[n] else ERROR
    }

    function WithId(role: Role, id: int): (t: State)
      requires Sized()
      ensures t.Sized()
    {
      match role
      case Sender => this.(sendId := id)
      case Receiver => this.(recId := id)
      case Runner(n) => if n < MAX_SCRIPT_THREAD then this.(scriptId := scriptId[n := id]) else this
    }
  }

  const IDLE := State(0, 0, seq(MAX_SCRIPT_THREAD, _ => 0), map[], seq(MAX_SCRIPT_THREAD, _ => 0), map[], [], 0)

  // ---- The kernel's part ----

  /** pthread_create: an ID that no live thread has, or 0 when it fails; `answer` is the kernel's choice. */
  function NewId(t: State, answer: int): int
  {
    if answer > 0 && answer !in t.live then answer else 0
  }

  /** pthread_create and the registration of the ID. */
  function Spawn(t: State, role: Role, answer: int): (t': State)
    requires t.Sized()
    ensures t'.Sized()
  {
    var id := NewId(t, answer);
    if id == 0 then t else t.WithId(role, id).(live := t.live[id := role])
  }

  /** The calling thread is still there; ID 0 stands for the main thread, which no command ends. */
  predicate Alive(t: State, self: int)
  {
    self == ERROR || self in t.live
  }

  /**
   pthread_kill, pthread_join and the ID set to 0, called by thread `self`; nothing when no thread
   is registered.  A thread that kills itself is gone before it gets to the setter, and a thread
   that is gone does nothing any more.
   */
  function Kill(t: State, role: Role, self: int): (t': State)
    requires t.Sized()
    ensures t'.Sized()
  {
    var id := t.IdOf(role);
    if id == ERROR || !Alive(t, self) then t
    else if id == self then t.(live := t.live - {id})
    else t.WithId(role, ERROR).(live := t.live - {id})
  }

  predicate Running(t: State, role: Role)
    requires t.Sized()
  {
    t.IdOf(role) in t.live && t.live[t.IdOf(role)] == role
  }

  // ---- The commands ----

  function StartIfOff(t: State, role: Role, answer: int): (t': State)
    requires t.Sized()
    ensures t'.Sized()
  {
    if t.IdOf(role) != ERROR then t else Spawn(t, role, answer)
  }

  /** start; `ipc` says whether the message queue could be set up. */
  function Start(t: State, argc: int, word: string, ipc: bool, answer1: int, answer2: int): (t': State)
    requires t.Sized()
    ensures t'.Sized()
  {
    if argc != 1 then t
    else if word == PARAM_REC then StartIfOff(t, Receiver, answer1)
    else if !ipc then t
    else if word == PARAM_ALL then
      if t.sendId == ERROR && NewId(t, answer1) == 0 then t
      else StartIfOff(StartIfOff(t, Sender, answer1), Receiver, answer2)
    else if word == PARAM_TEST then StartIfOff(t, Sender, answer1)
    else t
  }

  /** The script threads below slot n stopped. */
  function StopScripts(t: State, n: nat, self: int): (t': State)
    requires t.Sized() && n <= MAX_SCRIPT_THREAD
    ensures t'.Sized()
  {
    if n == 0 then t else Kill(StopScripts(t, n - 1, self), Runner(n - 1), self)
  }

  /** stop, called by thread `self`; `second` is what gCmdParam[2] reads. */
  function Stop(t: State, argc: int, first: string, second: string, self: int): (t': State)
    requires t.Sized()
    ensures t'.Sized()
  {
    if argc != 1 && argc != 2 then t
    else if first == PARAM_ALL then
      StopScripts(Kill(Kill(t, Sender, self), Receiver, self), MAX_SCRIPT_THREAD, self)
    else if first == PARAM_TEST then Kill(t, Sender, self)
    else if first == PARAM_REC then Kill(t, Receiver, self)
    else if second == PARAM_SC then
      var n := Atoi(first);
      if n < 0 || n >= MAX_SCRIPT_THREAD then t else Kill(t, Runner(n), self)
    else t
  }

  /** pthread_kill and pthread_join without a setter; nothing for ID 0 or from a thread that is gone. */
  function Join(t: State, id: int, self: int): (t': State)
    requires t.Sized()
    ensures t'.Sized()
  {
    if id == ERROR || !Alive(t, self) then t else t.(live := t.live - {id})
  }

  /** quit, called by thread `self`, stops sender and receiver and leaves their IDs set. */
  function Quit(t: State, self: int): (t': State)
    requires t.Sized()
    ensures t'.Sized()
  {
    Join(Join(t, t.sendId, self), t.recId, self)
  }

  /** A receiver that cannot open its socket ends by itself and leaves its ID set. */
  function ReceiverEnds(t: State): (t': State)
    requires t.Sized()
    ensures t'.Sized()
  {
    if Running(t, Receiver) then t.(live := t.live - {t.recId}) else t
  }

  predicate CanRun(t: State, argc: int, n: int, answer: int)
    requires t.Sized()
  {
    && t.sendId != ERROR && argc == 2 && 0 <= n < MAX_SCRIPT_THREAD
    && t.scriptId[n] == ERROR && NewId(t, answer) != 0
  }

  /** The script thread's buffer, with the rows of its file. */
  function Malloc(t: State, n: nat, rows: seq<string>): State
    requires t.Sized() && n < MAX_SCRIPT_THREAD
  {
    t.(buffer := t.buffer[n := t.mallocs], heap := t.heap[t.mallocs := rows], mallocs := t.mallocs + 1)
  }

  /**
   runScript; a thread whose file does not open ends at once, without a buffer.  `rows` are those
   of the file.
   */
  function RunScript(t: State, argc: int, n: int, answer: int, rows: Option<seq<string>>): (t': State)
    requires t.Sized()
    ensures t'.Sized()
  {
    if !CanRun(t, argc, n, answer) then t
    else
      var s := Spawn(t, Runner(n), answer);
      if rows.Some? then Malloc(s, n, rows.value) else Kill(s, Runner(n), ERROR)
  }

  /** A script thread that has come to its end frees its buffer and gives its slot back. */
  function Exit(t: State, n: nat): State
    requires t.Sized() && n < MAX_SCRIPT_THREAD
  {
    Kill(t.(heap := t.heap - {t.buffer[n]}, freed := t.freed + [t.buffer[n]]), Runner(n), ERROR)
  }

  /** The rows slot n points to. */
  function RowsOf(t: State, n: nat): seq<string>
    requires t.Sized() && n < MAX_SCRIPT_THREAD
  {
    if t.buffer[n] in t.heap then t.heap[t.buffer[n]] else []
  }

  // ---- What every run keeps ----

  predicate Known(role: Role)
  {
    role.Runner? ==> role.slot < MAX_SCRIPT_THREAD
  }

  /** Every live thread is registered for its role, so no role has two live threads. */
  ghost predicate LiveOk(t: State)
  {
    && t.Sized()
    && forall id :: id in t.live ==> id > 0 && Known(t.live[id]) && t.IdOf(t.live[id]) == id
  }

  /** Every ID that is set belongs to a live thread of its role. */
  ghost predicate IdsOk(t: State)
  {
    && t.Sized()
    && forall role :: Known(role) && t.IdOf(role) != ERROR ==> Running(t, role)
  }

  /** Registered slots have buffers of their own that nobody has freed, and no buffer was freed twice. */
  ghost predicate BuffersOk(t: State)
  {
    && t.Sized()
    && (forall n :: 0 <= n < MAX_SCRIPT_THREAD && t.scriptId[n] != ERROR ==> t.buffer[n] in t.heap)
    && (forall n, m :: 0 <= n < m < MAX_SCRIPT_THREAD && t.scriptId[n] != ERROR && t.scriptId[m] != ERROR
          ==> t.buffer[n] != t.buffer[m])
    && (forall p :: p in t.heap ==> p < t.mallocs && p !in t.freed)
    && (forall p :: p in t.freed ==> p < t.mallocs)
    && (forall i, j :: 0 <= i < j < |t.freed| ==> t.freed[i] != t.freed[j])
  }

  /** What nothing breaks. */
  ghost predicate Tidy(t: State)
  {
    t.Sized() && LiveOk(t) && BuffersOk(t)
  }

  /** An ID is set exactly when its thread is live. */
  ghost predicate Sound(t: State)
  {
    Tidy(t) && IdsOk(t)
  }

  lemma IdleIsSound()
    ensures Sound(IDLE)
  {
  }

  lemma SpawnKeeps(t: State, role: Role, answer: int)
    requires LiveOk(t) && Known(role) && t.IdOf(role) == ERROR
    ensures LiveOk(Spawn(t, role, answer))
    ensures IdsOk(t) ==> IdsOk(Spawn(t, role, answer))
  {
    var t' := Spawn(t, role, answer);
    forall id | id in t'.live ensures id > 0 && Known(t'.live[id]) && t'.IdOf(t'.live[id]) == id {
      if id in t.live {
        assert t.IdOf(t.live[id]) == id;
      }
    }
    forall other | Known(other) && t'.IdOf(other) != ERROR && IdsOk(t) ensures Running(t', other) {
      if other != role {
        assert Running(t, other);
      }
    }
  }

  /**
   t' is tidy, and if the IDs of t were right and the caller is a thread that was there, then the
   IDs of t' are right exactly when the caller is still there.
   */
  ghost predicate Kept(t: State, t': State, self: int)
  {
    Tidy(t') && (IdsOk(t) && Alive(t, self) ==> (IdsOk(t') <==> Alive(t', self)))
  }

  lemma KillLive(t: State, role: Role, self: int)
    requires LiveOk(t) && Known(role)
    ensures LiveOk(Kill(t, role, self))
    ensures Alive(t, self) ==> (Alive(Kill(t, role, self), self) <==> self == ERROR || t.IdOf(role) != self)
  {
    var t' := Kill(t, role, self);
    forall i | i in t'.live ensures i > 0 && Known(t'.live[i]) && t'.IdOf(t'.live[i]) == i {
      assert i in t.live;
    }
  }

  lemma KillIds(t: State, role: Role, self: int)
    requires LiveOk(t) && IdsOk(t) && Known(role) && Alive(t, self)
    ensures IdsOk(Kill(t, role, self)) <==> Alive(Kill(t, role, self), self)
  {
    var t', id := Kill(t, role, self), t.IdOf(role);
    if id != ERROR && id == self {
      assert !Running(t', role) && t'.IdOf(role) != ERROR;
    } else {
      forall other | Known(other) && t'.IdOf(other) != ERROR ensures Running(t', other) {
        if other != role {
          assert Running(t, other);
        }
      }
    }
  }

  /** Stopping threads touches no buffer. */
  lemma KillBuffers(t: State, role: Role, self: int)
    requires BuffersOk(t)
    ensures BuffersOk(Kill(t, role, self))
  {
  }

  lemma SpawnBuffers(t: State, role: Role, answer: int)
    requires BuffersOk(t) && !role.Runner?
    ensures BuffersOk(Spawn(t, role, answer))
  {
  }

  /** What commands that end no thread keep. */
  ghost predicate Grown(t: State, t': State)
  {
    Tidy(t') && (IdsOk(t) ==> IdsOk(t')) && t.live.Keys <= t'.live.Keys
  }

  lemma OnKeeps(t: State, role: Role, answer: int)
    requires Tidy(t) && !role.Runner?
    ensures Grown(t, StartIfOff(t, role, answer)) && StartIfOff(t, role, answer).scriptId == t.scriptId
    ensures StartIfOff(t, role, answer).heap == t.heap && StartIfOff(t, role, answer).buffer == t.buffer
  {
    if t.IdOf(role) == ERROR {
      SpawnKeeps(t, role, answer);
      SpawnBuffers(t, role, answer);
    }
  }

  lemma OffKeeps(t: State, role: Role, self: int)
    requires Tidy(t) && Known(role)
    ensures Kept(t, Kill(t, role, self), self)
    ensures Alive(t, self) && Alive(Kill(t, role, self), self) ==> Kill(t, role, self).IdOf(role) == ERROR
    ensures Alive(t, self) ==> (Alive(Kill(t, role, self), self) <==> self == ERROR || t.IdOf(role) != self)
    ensures Kill(t, role, self).heap == t.heap && Kill(t, role, self).buffer == t.buffer
  {
    KillLive(t, role, self);
    KillBuffers(t, role, self);
    if IdsOk(t) && Alive(t, self) {
      KillIds(t, role, self);
    }
  }

  /** The kills of stop all, as far as slot n, and what a caller among them makes of it. */
  lemma {:induction false} StopScriptsKeeps(t: State, n: nat, self: int)
    requires Tidy(t) && n <= MAX_SCRIPT_THREAD && (IdsOk(t) ==> Alive(t, self))
    ensures var t' := StopScripts(t, n, self);
      && Tidy(t') && (IdsOk(t) ==> (IdsOk(t') <==> Alive(t', self)))
      && t'.sendId == t.sendId && t'.recId == t.recId && t'.heap == t.heap && t'.buffer == t.buffer
      && (Alive(t', self) ==> Alive(t, self) && forall k :: 0 <= k < n ==> t'.scriptId[k] == ERROR)
      && forall k :: n <= k < MAX_SCRIPT_THREAD ==> t'.scriptId[k] == t.scriptId[k]
  {
    hide LiveOk, BuffersOk, IdsOk;
    if n > 0 {
      StopScriptsKeeps(t, n - 1, self);
      OffKeeps(StopScripts(t, n - 1, self), Runner(n - 1), self);
      DeadIsDead(StopScripts(t, n - 1, self), Runner(n - 1), self);
    }
  }

  lemma DeadIsDead(t: State, role: Role, self: int)
    requires t.Sized()
    ensures !Alive(t, self) ==> Kill(t, role, self) == t
    ensures Kill(t, role, self).scriptId == t.scriptId ||
      (role.Runner? && role.slot < MAX_SCRIPT_THREAD && Kill(t, role, self).scriptId == t.scriptId[role.slot := ERROR])
    ensures role != Sender ==> Kill(t, role, self).sendId == t.sendId
    ensures role != Receiver ==> Kill(t, role, self).recId == t.recId
  {
  }

  lemma StartKeeps(t: State, argc: int, word: string, ipc: bool, answer1: int, answer2: int)
    requires Tidy(t)
    ensures var t' := Start(t, argc, word, ipc, answer1, answer2);
      Grown(t, t') && t'.scriptId == t.scriptId && t'.heap == t.heap && t'.buffer == t.buffer
  {
    hide LiveOk, BuffersOk, IdsOk, StartIfOff;
    OnKeeps(t, Receiver, answer1);
    OnKeeps(t, Sender, answer1);
    OnKeeps(StartIfOff(t, Sender, answer1), Receiver, answer2);
  }

  /** stop ends the thread that called it. */
  predicate StopsCaller(t: State, argc: int, first: string, second: string, self: int)
    requires t.Sized()
  {
    && self != ERROR && (argc == 1 || argc == 2)
    && if first == PARAM_ALL then true
       else if first == PARAM_TEST then t.sendId == self
       else if first == PARAM_REC then t.recId == self
       else second == PARAM_SC && 0 <= Atoi(first) < MAX_SCRIPT_THREAD && t.scriptId[Atoi(first)] == self
  }

  lemma StopAllKeeps(t: State, self: int)
    requires Tidy(t) && Alive(t, self)
    ensures var t' := StopScripts(Kill(Kill(t, Sender, self), Receiver, self), MAX_SCRIPT_THREAD, self);
      && Kept(t, t', self) && t'.heap == t.heap && t'.buffer == t.buffer
      && (Alive(t', self) <==> self == ERROR)
      && (self == ERROR ==>
            t'.sendId == t'.recId == ERROR && forall k :: 0 <= k < MAX_SCRIPT_THREAD ==> t'.scriptId[k] == ERROR)
  {
    var t1 := Kill(t, Sender, self);
    var t2 := Kill(t1, Receiver, self);
    OffKeeps(t, Sender, self);
    OffKeeps(t1, Receiver, self);
    DeadIsDead(t, Sender, self);
    DeadIsDead(t1, Receiver, self);
    StopScriptsKeeps(t2, MAX_SCRIPT_THREAD, self);
  }

  /** stop keeps the threads tidy, and IDs right, exactly unless it ends the thread that called it. */
  lemma StopKeeps(t: State, argc: int, first: string, second: string, self: int)
    requires Tidy(t) && Alive(t, self)
    ensures var t' := Stop(t, argc, first, second, self);
      && Kept(t, t', self) && t'.heap == t.heap && t'.buffer == t.buffer
      && (Alive(t', self) <==> !StopsCaller(t, argc, first, second, self))
  {
    hide LiveOk, BuffersOk, IdsOk, Kill, StopScripts, Atoi;
    OffKeeps(t, Sender, self);
    OffKeeps(t, Receiver, self);
    StopAllKeeps(t, self);
    var n := Atoi(first);
    if 0 <= n < MAX_SCRIPT_THREAD {
      OffKeeps(t, Runner(n), self);
    }
  }

  lemma LiveHaveIds(t: State)
    requires LiveOk(t)
    ensures forall id :: id in t.live.Keys ==> exists role :: Known(role) && t.IdOf(role) == id != ERROR
  {
    forall id | id in t.live.Keys ensures exists role :: Known(role) && t.IdOf(role) == id != ERROR {
      assert Known(t.live[id]) && t.IdOf(t.live[id]) == id;
    }
  }

  /**
   stop all leaves no ID set and no thread live, whatever went before, exactly when no script
   calls it.
   */
  lemma StopAllIdles(t: State, argc: int, second: string, self: int)
    requires Tidy(t) && Alive(t, self) && (argc == 1 || argc == 2)
    ensures var t' := Stop(t, argc, PARAM_ALL, second, self);
      && (self == ERROR ==> Sound(t'))
      && (self == ERROR <==> t'.live.Keys == {} && t'.sendId == ERROR && t'.recId == ERROR
                             && forall n :: 0 <= n < MAX_SCRIPT_THREAD ==> t'.scriptId[n] == ERROR)
  {
    StopAllKeeps(t, self);
    var t' := Stop(t, argc, PARAM_ALL, second, self);
    if self == ERROR {
      assert forall role :: Known(role) ==> t'.IdOf(role) == ERROR;
      LiveHaveIds(t');
      assert forall id :: id !in t'.live.Keys;
    } else {
      CallerKeepsId(t, self);
      assert t'.IdOf(t.live[self]) == self;
    }
  }

  /** Whoever calls stop all keeps its ID. */
  lemma CallerKeepsId(t: State, self: int)
    requires Tidy(t) && self != ERROR && Alive(t, self)
    ensures var t' := StopScripts(Kill(Kill(t, Sender, self), Receiver, self), MAX_SCRIPT_THREAD, self);
      Known(t.live[self]) && t'.IdOf(t.live[self]) == self
  {
    var t1 := Kill(t, Sender, self);
    var t2 := Kill(t1, Receiver, self);
    var role := t.live[self];
    assert t.IdOf(role) == self && Known(role);
    KillsOthers(t, Sender, self, role);
    KillsOthers(t1, Receiver, self, role);
    ScriptsKillOthers(t2, MAX_SCRIPT_THREAD, self, role);
  }

  lemma KillsOthers(t: State, other: Role, self: int, role: Role)
    requires t.Sized() && self != ERROR && Known(role) && t.IdOf(role) == self
    ensures Kill(t, other, self).IdOf(role) == self
  {
  }

  lemma {:induction false} ScriptsKillOthers(t: State, n: nat, self: int, role: Role)
    requires t.Sized() && self != ERROR && Known(role) && t.IdOf(role) == self && n <= MAX_SCRIPT_THREAD
    ensures StopScripts(t, n, self).IdOf(role) == self
  {
    if n > 0 {
      ScriptsKillOthers(t, n - 1, self, role);
      KillsOthers(StopScripts(t, n - 1, self), Runner(n - 1), self, role);
    }
  }

  /**
   stop all called by the script in slot n: sender, receiver and the slots before n are stopped,
   the script is gone with its ID set, and the slots behind n are as they were.
   */
  lemma StopAllFromScript(t: State, n: nat, second: string)
    requires Sound(t) && n < MAX_SCRIPT_THREAD && Running(t, Runner(n))
    ensures var t' := Stop(t, 1, PARAM_ALL, second, t.scriptId[n]);
      && t'.sendId == ERROR && t'.recId == ERROR && (forall k :: 0 <= k < n ==> t'.scriptId[k] == ERROR)
      && t'.scriptId[n] == t.scriptId[n] != ERROR && !Running(t', Runner(n)) && !IdsOk(t')
      && (forall k :: n < k < MAX_SCRIPT_THREAD ==>
            t'.scriptId[k] == t.scriptId[k] && (Running(t', Runner(k)) <==> Running(t, Runner(k))))
      && forall answer :: !CanRun(t', 2, n, answer)
  {
    hide BuffersOk;
    var self := t.scriptId[n];
    assert self in t.live && t.live[self] == Runner(n) && self > 0;
    hide LiveOk;
    var t1 := Kill(t, Sender, self);
    var t2 := Kill(t1, Receiver, self);
    OthersKilled(t, Sender, self, n);
    OthersKilled(t1, Receiver, self, n);
    LowerSlotsKilled(t2, n, self, n);
    var t3 := StopScripts(t2, n, self);
    var t4 := Kill(t3, Runner(n), self);
    assert t4 == t3.(live := t3.live - {self});
    DeadStops(t2, n + 1, MAX_SCRIPT_THREAD, self);
    assert !Running(t4, Runner(n)) && t4.IdOf(Runner(n)) != ERROR;
    BehindCaller(t, t3, n);
  }

  lemma BehindCaller(t: State, t': State, n: nat)
    requires Untouched(t, t', n) && Running(t, Runner(n))
    ensures forall k :: n < k < MAX_SCRIPT_THREAD ==>
      (Running(t'.(live := t'.live - {t.scriptId[n]}), Runner(k)) <==> Running(t, Runner(k)))
  {
    hide LiveOk, BuffersOk, IdsOk;
    assert t'.live[t.scriptId[n]] == Runner(n);
  }

  /** The part of the threads the caller in slot n has not come to yet. */
  ghost predicate Untouched(t: State, t': State, n: nat)
  {
    && Sound(t) && Sound(t') && n < MAX_SCRIPT_THREAD
    && forall k :: n <= k < MAX_SCRIPT_THREAD ==>
         t'.scriptId[k] == t.scriptId[k] && (Running(t', Runner(k)) <==> Running(t, Runner(k)))
  }

  lemma OthersKilled(t: State, role: Role, self: int, n: nat)
    requires Sound(t) && Known(role) && n < MAX_SCRIPT_THREAD && t.scriptId[n] == self != ERROR && Running(t, Runner(n))
    requires role.Runner? ==> role.slot < n
    ensures Untouched(t, Kill(t, role, self), n) && Kill(t, role, self).IdOf(role) == ERROR
    ensures role != Sender ==> Kill(t, role, self).sendId == t.sendId
    ensures role != Receiver ==> Kill(t, role, self).recId == t.recId
    ensures forall k :: 0 <= k < MAX_SCRIPT_THREAD && role != Runner(k) ==>
      Kill(t, role, self).scriptId[k] == t.scriptId[k]
  {
    assert role != Runner(n) && (t.IdOf(role) == self ==> Running(t, role));
    OffKeeps(t, role, self);
    var t' := Kill(t, role, self);
    forall k | n <= k < MAX_SCRIPT_THREAD ensures Running(t', Runner(k)) <==> Running(t, Runner(k)) {
      if t.IdOf(role) != ERROR {
        assert Running(t, role);
      }
    }
  }

  lemma {:induction false} LowerSlotsKilled(t: State, m: nat, self: int, n: nat)
    requires Sound(t) && m <= n < MAX_SCRIPT_THREAD && t.scriptId[n] == self != ERROR && Running(t, Runner(n))
    ensures var t' := StopScripts(t, m, self);
      && Untouched(t, t', n) && t'.sendId == t.sendId && t'.recId == t.recId
      && forall k :: 0 <= k < m ==> t'.scriptId[k] == ERROR
  {
    hide LiveOk, BuffersOk, IdsOk, Kill;
    if m > 0 {
      LowerSlotsKilled(t, m - 1, self, n);
      OthersKilled(StopScripts(t, m - 1, self), Runner(m - 1), self, n);
    }
  }

  /** Once the caller is gone, the remaining kills do nothing. */
  lemma {:induction false} DeadStops(t: State, m: nat, n: nat, self: int)
    requires t.Sized() && m <= n <= MAX_SCRIPT_THREAD && !Alive(StopScripts(t, m, self), self)
    ensures StopScripts(t, n, self) == StopScripts(t, m, self)
    decreases n
  {
    if m < n {
      DeadStops(t, m, n - 1, self);
    }
  }

  lemma RunScriptKeeps(t: State, argc: int, n: int, answer: int, rows: Option<seq<string>>)
    requires Tidy(t)
    ensures Grown(t, RunScript(t, argc, n, answer, rows))
  {
    if CanRun(t, argc, n, answer) {
      SpawnKeeps(t, Runner(n), answer);
      var t' := Spawn(t, Runner(n), answer);
      hide LiveOk, IdsOk;
      if rows.Some? {
        MallocKeeps(t, t', n, rows.value);
      } else {
        KillLive(t', Runner(n), ERROR);
        if IdsOk(t') {
          KillIds(t', Runner(n), ERROR);
        }
        assert Kill(t', Runner(n), ERROR).scriptId == t.scriptId;
        assert Kill(t', Runner(n), ERROR).live == t.live;
      }
    }
  }

  lemma MallocKeeps(t: State, t': State, n: nat, rows: seq<string>)
    requires BuffersOk(t) && LiveOk(t') && n < MAX_SCRIPT_THREAD && t.scriptId[n] == ERROR
    requires t'.scriptId == t.scriptId[n := t'.scriptId[n]]
    requires t'.buffer == t.buffer && t'.heap == t.heap && t'.freed == t.freed && t'.mallocs == t.mallocs
    ensures Grown(t', Malloc(t', n, rows))
  {
    var m := Malloc(t', n, rows);
    assert forall role :: Known(role) ==> m.IdOf(role) == t'.IdOf(role);
    assert IdsOk(t') ==> IdsOk(m) by {
      assert forall role :: Known(role) && Running(t', role) ==> Running(m, role);
    }
    forall k | 0 <= k < MAX_SCRIPT_THREAD && m.scriptId[k] != ERROR
      ensures m.buffer[k] in m.heap && (k != n ==> m.buffer[k] != t.mallocs)
    {
      if k != n {
        assert t.scriptId[k] != ERROR;
      }
    }
  }

  /**
   A script that is loaded finds the rows of its file in its buffer, and loading it leaves the rows
   of every other registered slot alone.
   */
  lemma LoadingIsolates(t: State, argc: int, n: int, answer: int, rows: Option<seq<string>>)
    requires Tidy(t)
    ensures var t' := RunScript(t, argc, n, answer, rows);
      && (forall k :: 0 <= k < MAX_SCRIPT_THREAD && t.scriptId[k] != ERROR ==> RowsOf(t', k) == RowsOf(t, k))
      && (CanRun(t, argc, n, answer) && rows.Some? ==> RowsOf(t', n) == rows.value)
      && (forall k :: 0 <= k < MAX_SCRIPT_THREAD && t'.scriptId[k] != ERROR && t.scriptId[k] == ERROR ==>
            k == n && CanRun(t, argc, n, answer) && rows.Some?)
  {
  }

  /** Buffers as they were, and no new slot taken. */
  ghost predicate SlotsKept(t: State, t': State)
  {
    && t.Sized() && t'.Sized() && t'.heap == t.heap && t'.buffer == t.buffer
    && forall k :: 0 <= k < MAX_SCRIPT_THREAD ==> t'.scriptId[k] == t.scriptId[k] || t'.scriptId[k] == ERROR
  }

  lemma KillSlots(t: State, t': State, role: Role, self: int)
    requires SlotsKept(t, t')
    ensures SlotsKept(t, Kill(t', role, self))
  {
  }

  lemma {:induction false} StopScriptsSlots(t: State, t': State, n: nat, self: int)
    requires SlotsKept(t, t') && n <= MAX_SCRIPT_THREAD
    ensures SlotsKept(t, StopScripts(t', n, self))
  {
    hide SlotsKept, Kill;
    SlotsSized(t, t');
    if n > 0 {
      StopScriptsSlots(t, t', n - 1, self);
      KillSlots(t, StopScripts(t', n - 1, self), Runner(n - 1), self);
    }
  }

  lemma SlotsSized(t: State, t': State)
    requires SlotsKept(t, t')
    ensures t.Sized() && t'.Sized()
  {
  }

  /** stop and quit leave every script's rows alone. */
  lemma StoppingIsolates(t: State, argc: int, first: string, second: string, self: int)
    requires t.Sized()
    ensures SlotsKept(t, Stop(t, argc, first, second, self)) && SlotsKept(t, Quit(t, self))
  {
    assert SlotsKept(t, t) && SlotsKept(t, Quit(t, self));
    hide SlotsKept, Kill, StopScripts, Quit, Atoi;
    KillSlots(t, t, Sender, self);
    KillSlots(t, t, Receiver, self);
    KillSlots(t, Kill(t, Sender, self), Receiver, self);
    StopScriptsSlots(t, Kill(Kill(t, Sender, self), Receiver, self), MAX_SCRIPT_THREAD, self);
    if 0 <= Atoi(first) < MAX_SCRIPT_THREAD {
      KillSlots(t, t, Runner(Atoi(first)), self);
    }
  }

  /** A script's own commands leave its own ID set, even those that end it. */
  lemma OwnIdStays(t: State, argc: int, first: string, second: string, self: int, n: nat)
    requires t.Sized() && n < MAX_SCRIPT_THREAD && t.scriptId[n] == self != ERROR
    ensures Stop(t, argc, first, second, self).scriptId[n] == self && Quit(t, self).scriptId[n] == self
  {
    hide StopScripts;
    StopScriptsKeepOwn(Kill(Kill(t, Sender, self), Receiver, self), MAX_SCRIPT_THREAD, self, n);
  }

  lemma {:induction false} StopScriptsKeepOwn(t: State, m: nat, self: int, n: nat)
    requires t.Sized() && m <= MAX_SCRIPT_THREAD && n < MAX_SCRIPT_THREAD && t.scriptId[n] == self != ERROR
    ensures StopScripts(t, m, self).scriptId[n] == self
  {
    if m > 0 {
      StopScriptsKeepOwn(t, m - 1, self, n);
    }
  }

  lemma SlotsRead(t: State, t': State)
    requires SlotsKept(t, t')
    ensures forall k :: 0 <= k < MAX_SCRIPT_THREAD && t'.scriptId[k] != ERROR ==>
      t.scriptId[k] != ERROR && RowsOf(t', k) == RowsOf(t, k)
  {
  }

  /** A script that ends frees no other slot's rows. */
  lemma ExitIsolates(t: State, n: nat)
    requires Tidy(t) && n < MAX_SCRIPT_THREAD && t.scriptId[n] != ERROR
    ensures forall k :: 0 <= k < MAX_SCRIPT_THREAD && Exit(t, n).scriptId[k] != ERROR ==>
      t.scriptId[k] != ERROR && RowsOf(Exit(t, n), k) == RowsOf(t, k)
  {
    var e := Exit(t, n);
    forall k | 0 <= k < MAX_SCRIPT_THREAD && e.scriptId[k] != ERROR
      ensures t.scriptId[k] != ERROR && RowsOf(e, k) == RowsOf(t, k)
    {
      assert k != n && t.buffer[k] != t.buffer[n];
    }
  }

  /** A natural exit frees the slot's own buffer, for the first time, and the slot can run again. */
  lemma ExitKeeps(t: State, n: nat)
    requires Tidy(t) && n < MAX_SCRIPT_THREAD && t.scriptId[n] != ERROR
    ensures Tidy(Exit(t, n)) && (IdsOk(t) ==> IdsOk(Exit(t, n)))
    ensures Exit(t, n).scriptId == t.scriptId[n := ERROR]
    ensures t.buffer[n] in t.heap && t.buffer[n] !in t.freed && Exit(t, n).freed == t.freed + [t.buffer[n]]
    ensures Exit(t, n).heap == t.heap - {t.buffer[n]} && Exit(t, n).live.Keys == t.live.Keys - {t.scriptId[n]}
    ensures Exit(t, n).sendId == t.sendId && Exit(t, n).recId == t.recId
    ensures forall answer :: CanRun(Exit(t, n), 2, n, answer) <==> t.sendId != ERROR && NewId(Exit(t, n), answer) != 0
  {
    var t' := t.(heap := t.heap - {t.buffer[n]}, freed := t.freed + [t.buffer[n]]);
    assert LiveOk(t') && (IdsOk(t) ==> IdsOk(t')) by {
      assert forall role :: Known(role) ==> t'.IdOf(role) == t.IdOf(role) && (Running(t, role) ==> Running(t', role));
    }
    KillLive(t', Runner(n), ERROR);
    if IdsOk(t) {
      KillIds(t', Runner(n), ERROR);
    }
    var e := Exit(t, n);
    forall k | 0 <= k < MAX_SCRIPT_THREAD && e.scriptId[k] != ERROR ensures e.buffer[k] in e.heap {
      assert t.scriptId[k] != ERROR && k != n;
      assert t.buffer[k] != t.buffer[n];
    }
  }

  // ---- quit, and the receiver that ends by itself ----

  /** The two ways to lose a thread and keep its ID. */
  lemma LosingKeeps(t: State, self: int)
    requires Tidy(t)
    ensures Tidy(Quit(t, self)) && Tidy(ReceiverEnds(t))
    ensures Quit(t, self).scriptId == t.scriptId && ReceiverEnds(t).scriptId == t.scriptId
    ensures Quit(t, self).heap == t.heap && Quit(t, self).buffer == t.buffer
    ensures ReceiverEnds(t).heap == t.heap && ReceiverEnds(t).buffer == t.buffer
  {
  }

  /** quit leaves the IDs right exactly when neither sender nor receiver is registered. */
  lemma QuitKeepsIds(t: State, self: int)
    requires Sound(t) && Alive(t, self)
    ensures IdsOk(Quit(t, self)) <==> t.sendId == ERROR && t.recId == ERROR
  {
    var q := Quit(t, self);
    assert forall role :: q.IdOf(role) == t.IdOf(role);
    if t.sendId == ERROR && t.recId == ERROR {
      assert q == t;
    } else if t.sendId != ERROR {
      assert !Running(q, Sender) && q.IdOf(Sender) != ERROR;
    } else {
      assert !Running(q, Receiver) && q.IdOf(Receiver) != ERROR;
    }
  }

  /** So does the receiver's own end exactly when there is no receiver. */
  lemma ReceiverEndKeepsIds(t: State)
    requires Sound(t)
    ensures IdsOk(ReceiverEnds(t)) <==> t.recId == ERROR
  {
    var q := ReceiverEnds(t);
    if t.recId != ERROR {
      assert Running(t, Receiver);
      assert !Running(q, Receiver) && q.IdOf(Receiver) != ERROR;
    } else {
      assert !Running(t, Receiver);
    }
  }

  /**
   start all, then quit: both threads are gone and both IDs are set, and from then on no start
   brings a thread back, whatever its argument.
   */
  lemma QuitLeavesIds(t: State, answer1: int, answer2: int, self: int)
    requires Sound(t) && Alive(t, self)
    requires NewId(t, answer1) != 0 && NewId(t, answer2) != 0 && answer1 != answer2
    requires self == ERROR || t.live[self].Runner?
    ensures var q := Quit(Start(t, 1, PARAM_ALL, true, answer1, answer2), self);
      && q.sendId != ERROR && q.recId != ERROR
      && !Running(q, Sender) && !Running(q, Receiver) && !IdsOk(q)
      && forall word, ipc, a, b :: Start(q, 1, word, ipc, a, b) == q
  {
    var s := Start(t, 1, PARAM_ALL, true, answer1, answer2);
    StartKeeps(t, 1, PARAM_ALL, true, answer1, answer2);
    var q := Quit(s, self);
    assert q.IdOf(Sender) != ERROR && !Running(q, Sender);
  }

  /**
   The ID quit leaves behind may be given to a script's thread; stop test then ends that thread,
   and the script's slot stays taken.
   */
  lemma OldIdHitsAnother(t: State, n: nat)
    requires Sound(t) && t.sendId != ERROR && n < MAX_SCRIPT_THREAD && t.scriptId[n] == ERROR
    ensures var s := RunScript(Quit(t, ERROR), 2, n, t.sendId, Some([]));
      && Running(s, Runner(n))
      && !Running(Stop(s, 1, PARAM_TEST, "", ERROR), Runner(n))
      && Stop(s, 1, PARAM_TEST, "", ERROR).scriptId[n] != ERROR
      && forall answer :: !CanRun(Stop(s, 1, PARAM_TEST, "", ERROR), 2, n, answer)
  {
    assert Running(t, Sender);
    var s := RunScript(Quit(t, ERROR), 2, n, t.sendId, Some([]));
    assert CanRun(Quit(t, ERROR), 2, n, t.sendId);
    assert s.scriptId[n] == t.sendId == s.sendId;
  }

  // ---- Which thread it is ----

  /** The same threads run but for `role`, and the same IDs are set but for its own. */
  ghost predicate SameButFor(t: State, t': State, role: Role)
  {
    && t.Sized() && t'.Sized() && t'.heap == t.heap && t'.buffer == t.buffer && t'.freed == t.freed
    && forall other :: Known(other) && other != role ==>
         t'.IdOf(other) == t.IdOf(other) && (Running(t', other) <==> Running(t, other))
  }

  /**
   start test runs the sender, and start rec the receiver, with or without a message queue; an ID
   that is set already, a missing queue for the sender, and any other word but all leave
   everything as it was.
   */
  lemma StartRuns(t: State, word: string, ipc: bool, answer1: int, answer2: int)
    requires Tidy(t)
    ensures var t' := Start(t, 1, word, ipc, answer1, answer2);
      && (word == "test" && ipc && t.sendId == 0 && answer1 > 0 && answer1 !in t.live ==>
            SameButFor(t, t', Sender) && t'.sendId == answer1 && Running(t', Sender))
      && (word == "rec" && t.recId == 0 && answer1 > 0 && answer1 !in t.live ==>
            SameButFor(t, t', Receiver) && t'.recId == answer1 && Running(t', Receiver))
      && (word == "test" && (!ipc || t.sendId != 0 || answer1 <= 0 || answer1 in t.live) ==> t' == t)
      && (word == "rec" && (t.recId != 0 || answer1 <= 0 || answer1 in t.live) ==> t' == t)
      && (word != "test" && word != "rec" && word != "all" ==> t' == t)
    ensures forall argc :: argc != 1 ==> Start(t, argc, word, ipc, answer1, answer2) == t
  {
  }

  /**
   start all, with a message queue, is start test and then start rec; if the sender does not come
   up, the receiver is not tried.
   */
  lemma StartAllIsBoth(t: State, ipc: bool, answer1: int, answer2: int)
    requires t.Sized()
    ensures !ipc ==> Start(t, 1, "all", ipc, answer1, answer2) == t
    ensures ipc && t.sendId == 0 && (answer1 <= 0 || answer1 in t.live) ==>
      Start(t, 1, "all", ipc, answer1, answer2) == t
    ensures ipc && (t.sendId != 0 || (answer1 > 0 && answer1 !in t.live)) ==>
      Start(t, 1, "all", ipc, answer1, answer2) ==
      Start(Start(t, 1, "test", true, answer1, answer2), 1, "rec", true, answer2, answer2)
  {
  }

  /**
   From the main thread, stop test ends the sender, stop rec the receiver, and stop n script the
   script in slot n; each leaves the other threads and IDs as they were, and any other words
   leave everything as it was.
   */
  lemma StopStops(t: State, argc: int, first: string, second: string)
    requires Sound(t)
    ensures var t' := Stop(t, argc, first, second, 0);
      && ((argc == 1 || argc == 2) && first == "test" ==>
            SameButFor(t, t', Sender) && t'.sendId == 0 && !Running(t', Sender))
      && ((argc == 1 || argc == 2) && first == "rec" ==>
            SameButFor(t, t', Receiver) && t'.recId == 0 && !Running(t', Receiver))
      && ((argc == 1 || argc == 2) && first != "all" && first != "test" && first != "rec" && second == "script"
          && 0 <= Atoi(first) <= 9 ==>
            var n := Atoi(first);
            SameButFor(t, t', Runner(n)) && t'.scriptId[n] == 0 && !Running(t', Runner(n)))
      && (first != "all" && first != "test" && first != "rec" && (second != "script" || !(0 <= Atoi(first) <= 9)) ==>
            t' == t)
      && (argc != 1 && argc != 2 ==> t' == t)
  {
    EndsOne(t, Sender);
    EndsOne(t, Receiver);
    if 0 <= Atoi(first) <= 9 {
      EndsOne(t, Runner(Atoi(first)));
    }
    hide Sound, SameButFor, Kill, StopScripts, Atoi, Running;
  }

  lemma EndsOne(t: State, role: Role)
    requires Sound(t) && Known(role)
    ensures var t' := Kill(t, role, 0);
      t'.Sized() && SameButFor(t, t', role) && t'.IdOf(role) == 0 && !Running(t', role)
  {
    var t' := Kill(t, role, 0);
    OffKeeps(t, role, 0);
    forall other | Known(other) && other != role ensures Running(t', other) <==> Running(t, other) {
      if t.IdOf(role) != 0 {
        assert Running(t, role);
      }
    }
  }

  /** quit from the main thread ends the sender and the receiver and touches no script and no ID. */
  lemma QuitEnds(t: State)
    requires Sound(t)
    ensures var q := Quit(t, 0);
      && q.sendId == t.sendId && q.recId == t.recId && q.scriptId == t.scriptId && q.heap == t.heap
      && q.buffer == t.buffer && q.freed == t.freed && !Running(q, Sender) && !Running(q, Receiver)
      && forall n :: 0 <= n <= 9 ==> (Running(q, Runner(n)) <==> Running(t, Runner(n)))
  {
    var q := Quit(t, 0);
    assert t.sendId != 0 ==> Running(t, Sender) by {
      assert Known(Sender) && t.IdOf(Sender) == t.sendId;
    }
    assert t.recId != 0 ==> Running(t, Receiver) by {
      assert Known(Receiver) && t.IdOf(Receiver) == t.recId;
    }
  }

  /** The receiver's own end touches no other thread and no ID. */
  lemma ReceiverEndsAlone(t: State)
    requires Sound(t)
    ensures var q := ReceiverEnds(t);
      && q.recId == t.recId && !Running(q, Receiver) && SameButFor(t, q, Receiver)
  {
    assert t.recId != 0 ==> Running(t, Receiver) by {
      assert Known(Receiver) && t.IdOf(Receiver) == t.recId;
    }
  }

  /**
   runScript with two arguments puts a thread with the file's rows into a slot from 0 to 9 exactly
   when the sender's ID is set, the slot's is not, the thread starts and the file opens; all else
   stays as it was.
   */
  lemma RunScriptRuns(t: State, argc: int, n: int, answer: int, rows: Option<seq<string>>)
    requires Tidy(t)
    ensures var t' := RunScript(t, argc, n, answer, rows);
      if argc == 2 && t.sendId != 0 && 0 <= n <= 9 && t.scriptId[n] == 0 && answer > 0 && answer !in t.live
        && rows.Some? then
        && t'.scriptId == t.scriptId[n := answer] && Running(t', Runner(n)) && RowsOf(t', n) == rows.value
        && t'.sendId == t.sendId && t'.recId == t.recId && t'.freed == t.freed
        && forall other :: Known(other) && other != Runner(n) ==> (Running(t', other) <==> Running(t, other))
      else
        && t'.scriptId == t.scriptId && t'.sendId == t.sendId && t'.recId == t.recId && t'.live == t.live
        && t'.heap == t.heap && t'.buffer == t.buffer && t'.freed == t.freed
  {
    var t' := RunScript(t, argc, n, answer, rows);
    if CanRun(t, argc, n, answer) {
      assert t'.live == if rows.Some? then t.live[answer := Runner(n)] else t.live;
    }
  }

  // ---- Runs ----

  /** Commands, with the thread that calls them where that matters, and threads' ends. */
  datatype Op =
    | OpStart(argc: int, word: string, ipc: bool, answer1: int, answer2: int)
    | OpStop(argc: int, first: string, second: string, self: int)
    | OpRunScript(argc: int, n: int, answer: int, rows: Option<seq<string>>)
    | OpQuit(self: int)
    | OpExit(slot: nat)
    | OpReceiverEnds

  /** One command of a thread that is there, or one thread's end. */
  function Apply(t: State, op: Op): (t': State)
    requires t.Sized()
    ensures t'.Sized()
  {
    match op
    case OpStart(argc, word, ipc, answer1, answer2) => Start(t, argc, word, ipc, answer1, answer2)
    case OpStop(argc, first, second, self) => if Alive(t, self) then Stop(t, argc, first, second, self) else t
    case OpRunScript(argc, n, answer, rows) => RunScript(t, argc, n, answer, rows)
    case OpQuit(self) => if Alive(t, self) then Quit(t, self) else t
    case OpExit(n) => if n < MAX_SCRIPT_THREAD && Running(t, Runner(n)) then Exit(t, n) else t
    case OpReceiverEnds => ReceiverEnds(t)
  }

  /** The operations that leave no ID behind. */
  predicate CleanOp(t: State, op: Op)
    requires t.Sized()
  {
    match op
    case OpStop(argc, first, second, self) => Alive(t, self) ==> !StopsCaller(t, argc, first, second, self)
    case OpQuit(self) => Alive(t, self) ==> t.sendId == ERROR && t.recId == ERROR
    case OpReceiverEnds => t.recId == ERROR
    case _ => true
  }

  lemma ApplyKeeps(t: State, op: Op)
    requires Tidy(t)
    ensures Tidy(Apply(t, op))
    ensures IdsOk(t) ==> (IdsOk(Apply(t, op)) <==> CleanOp(t, op))
  {
    hide Start, Stop, RunScript, Quit, ReceiverEnds, Exit, LiveOk, BuffersOk, IdsOk, StopsCaller;
    match op
    case OpStart(argc, word, ipc, answer1, answer2) =>
      StartKeeps(t, argc, word, ipc, answer1, answer2);
    case OpStop(argc, first, second, self) =>
      if Alive(t, self) {
        StopKeeps(t, argc, first, second, self);
      }
    case OpRunScript(argc, n, answer, rows) =>
      RunScriptKeeps(t, argc, n, answer, rows);
    case OpQuit(self) =>
      LosingKeeps(t, self);
      if IdsOk(t) && Alive(t, self) {
        QuitKeepsIds(t, self);
      }
    case OpExit(n) =>
      if n < MAX_SCRIPT_THREAD && Running(t, Runner(n)) {
        RunningHasId(t, n);
        ExitKeeps(t, n);
      }
    case OpReceiverEnds =>
      LosingKeeps(t, ERROR);
      if IdsOk(t) {
        ReceiverEndKeepsIds(t);
      }
  }

  lemma RunningHasId(t: State, n: nat)
    requires Tidy(t) && n < MAX_SCRIPT_THREAD && Running(t, Runner(n))
    ensures t.scriptId[n] > 0
  {
    assert t.IdOf(Runner(n)) in t.live;
  }

  function Run(t: State, ops: seq<Op>): (t': State)
    requires t.Sized()
    ensures t'.Sized()
    decreases ops
  {
    if ops == [] then t else Run(Apply(t, ops[0]), ops[1..])
  }

  /**
   No stop ends the thread that called it, quit comes only while neither sender nor receiver is
   registered, and no receiver ends by itself.
   */
  predicate CleanRun(t: State, ops: seq<Op>)
    requires t.Sized()
    decreases ops
  {
    ops == [] || (CleanOp(t, ops[0]) && CleanRun(Apply(t, ops[0]), ops[1..]))
  }

  /** At every moment of the run the IDs are right. */
  ghost predicate AlwaysRight(t: State, ops: seq<Op>)
    requires t.Sized()
    decreases ops
  {
    IdsOk(t) && (ops == [] || AlwaysRight(Apply(t, ops[0]), ops[1..]))
  }

  /**
   Whatever is done in whatever order: no role ever has two live threads, no buffer is shared or
   freed twice; and the IDs are right at every moment exactly when the run is clean.
   */
  lemma {:induction false} RunKeeps(t: State, ops: seq<Op>)
    requires Tidy(t)
    ensures Tidy(Run(t, ops))
    ensures IdsOk(t) ==> (AlwaysRight(t, ops) <==> CleanRun(t, ops))
    decreases ops
  {
    hide LiveOk, BuffersOk, Apply, CleanOp;
    if ops == [] {
    } else {
      ApplyKeeps(t, ops[0]);
      RunKeeps(Apply(t, ops[0]), ops[1..]);
    }
  }

  // ---- The IDs in memory ----

  /** Once the caller has killed itself, stop all stops. */
  lemma NothingMore(t: State, self: int)
    requires t.Sized() && !Alive(Kill(t, Sender, self), self)
    ensures StopScripts(Kill(Kill(t, Sender, self), Receiver, self), MAX_SCRIPT_THREAD, self) == Kill(t, Sender, self)
  {
    DeadIsDead(Kill(t, Sender, self), Receiver, self);
    DeadStops(Kill(t, Sender, self), 0, MAX_SCRIPT_THREAD, self);
  }

  class ThreadTable {
    var sendId: int
    var recId: int
    const scriptId: array<int>
    const gScriptParam: array<nat>
    // The kernel's and the heap's side.
    var live: map<int, Role>
    var heap: map<nat, seq<string>>
    var freed: seq<nat>
    var mallocs: nat

    ghost predicate Valid()
    {
      scriptId.Length == gScriptParam.Length == MAX_SCRIPT_THREAD
    }

    ghost function View(): State
      reads this, scriptId, gScriptParam
    {
      State(sendId, recId, scriptId[..], live, gScriptParam[..], heap, freed, mallocs)
    }

    constructor ()
      ensures Valid() && View() == IDLE && fresh(scriptId) && fresh(gScriptParam)
    {
      sendId, recId, live := 0, 0, map[];
      scriptId := new int[MAX_SCRIPT_THREAD](_ => 0);
      gScriptParam := new nat[MAX_SCRIPT_THREAD](_ => 0);
      heap, freed, mallocs := map[], [], 0;
    }

    method GetId(role: Role) returns (id: int)
      requires Valid() && Known(role)
      ensures id == View().IdOf(role)
    {
      match role
      case Sender => id := sendId;
      case Receiver => id := recId;
      case Runner(n) => id := scriptId[n];
    }

    method IsRunning(role: Role) returns (running: bool)
      requires Valid() && Known(role)
      ensures running == Running(View(), role)
    {
      var id := GetId(role);
      running := id in live && live[id] == role;
    }

    method SetId(role: Role, id: int)
      requires Valid() && Known(role)
      modifies this, scriptId
      ensures View() == old(View()).WithId(role, id)
    {
      match role
      case Sender => sendId := id;
      case Receiver => recId := id;
      case Runner(n) => scriptId[n] := id;
    }

    /** pthread_create, and the ID stored when it succeeds. */
    method Create(role: Role, answer: int) returns (ok: bool)
      requires Valid() && Known(role)
      modifies this, scriptId
      ensures View() == Spawn(old(View()), role, answer) && ok == (NewId(old(View()), answer) != 0)
    {
      var id := if answer > 0 && answer !in live then answer else 0;
      if id == 0 {
        return false;
      }
      live := live[id := role];
      SetId(role, id);
      return true;
    }

    /**
     The ID read, pthread_kill, pthread_join and the setter.  False stands for pthread_exit in the
     signal handler: the caller killed itself, and whoever called it returns at once.
     */
    method KillAndJoin(role: Role, self: int) returns (alive: bool)
      requires Valid() && Known(role) && Alive(View(), self)
      modifies this, scriptId
      ensures View() == Kill(old(View()), role, self) && alive == Alive(View(), self)
    {
      var id := GetId(role);
      if id != ERROR {
        live := live - {id};
        if id == self {
          return false;
        }
        SetId(role, ERROR);
      }
      alive := true;
    }

    method StartCmd(argc: int, word: string, ipc: bool, answer1: int, answer2: int)
      requires Valid()
      modifies this, scriptId
      ensures View() == Start(old(View()), argc, word, ipc, answer1, answer2)
    {
      if argc < 1 || argc > 1 {
        return;
      }
      if word == PARAM_REC {
        if recId == 0 {
          var _ := Create(Receiver, answer1);
        }
        return;
      }
      if !ipc {
        return;
      }
      if word == PARAM_ALL {
        if sendId == 0 {
          var ok := Create(Sender, answer1);
          if !ok {
            return;
          }
        }
        if recId == 0 {
          var _ := Create(Receiver, answer2);
        }
      } else if word == PARAM_TEST {
        if sendId == 0 {
          var _ := Create(Sender, answer1);
        }
      }
    }

    /** Slot number 10 passes the range check and is outside thr_script_id; callers keep off it. */
    method StopCmd(argc: int, first: string, second: string, self: int) returns (alive: bool)
      requires Valid() && Alive(View(), self) && (second == PARAM_SC ==> Atoi(first) != MAX_SCRIPT_THREAD)
      modifies this, scriptId
      ensures View() == Stop(old(View()), argc, first, second, self) && alive == Alive(View(), self)
    {
      if argc != 1 && argc != 2 {
        return true;
      }
      if first == PARAM_ALL {
        alive := StopAll(self);
      } else if first == PARAM_TEST {
        alive := KillAndJoin(Sender, self);
      } else if first == PARAM_REC {
        alive := KillAndJoin(Receiver, self);
      } else if second == PARAM_SC {
        var n := Atoi(first);
        if n < 0 || n > MAX_SCRIPT_THREAD {
          return true;
        }
        alive := KillAndJoin(Runner(n), self);
      } else {
        alive := true;
      }
    }

    /** Lines 678-702. */
    method StopAll(self: int) returns (alive: bool)
      requires Valid() && Alive(View(), self)
      modifies this, scriptId
      ensures View() == StopScripts(Kill(Kill(old(View()), Sender, self), Receiver, self), MAX_SCRIPT_THREAD, self)
      ensures alive == Alive(View(), self)
    {
      hide Kill;
      ghost var t0 := View();
      alive := KillAndJoin(Sender, self);
      if !alive {
        NothingMore(t0, self);
        return;
      }
      alive := KillAndJoin(Receiver, self);
      ghost var t := View();
      if !alive {
        DeadStops(t, 0, MAX_SCRIPT_THREAD, self);
        return;
      }
      var index := 0;
      while index < MAX_SCRIPT_THREAD
        invariant 0 <= index <= MAX_SCRIPT_THREAD && View() == StopScripts(t, index, self) && Alive(View(), self)
      {
        alive := KillAndJoin(Runner(index), self);
        if !alive {
          DeadStops(t, index + 1, MAX_SCRIPT_THREAD, self);
          return;
        }
        index := index + 1;
      }
    }

    /** quit's two pthread_kill and pthread_join; no setter is called. */
    method QuitCmd(self: int) returns (alive: bool)
      requires Valid() && Alive(View(), self)
      modifies this`live
      ensures View() == Quit(old(View()), self) && alive == Alive(View(), self)
    {
      if sendId != ERROR {
        live := live - {sendId};
        if sendId == self {
          return false;
        }
      }
      if recId != 0 {
        live := live - {recId};
        if recId == self {
          return false;
        }
      }
      alive := true;
    }

    method RunScriptCmd(argc: int, n: int, answer: int, rows: Option<seq<string>>) returns (started: bool)
      requires Valid() && n != MAX_SCRIPT_THREAD
      modifies this, scriptId, gScriptParam
      ensures View() == RunScript(old(View()), argc, n, answer, rows)
      ensures started == CanRun(old(View()), argc, n, answer)
    {
      if sendId == ERROR || argc != 2 || n > MAX_SCRIPT_THREAD || n < 0 {
        return false;
      }
      if scriptId[n] != ERROR {
        return false;
      }
      started := Create(Runner(n), answer);
      if !started {
        return;
      }
      if rows.Some? {
        gScriptParam[n] := mallocs;
        heap, mallocs := heap[mallocs := rows.value], mallocs + 1;
      } else {
        var _ := KillAndJoin(Runner(n), ERROR);
      }
    }

    /** The receiver's pthread_exit when its socket cannot be opened. */
    method ReceiverExit()
      requires Valid()
      modifies this`live
      ensures View() == ReceiverEnds(old(View()))
    {
      var running := IsRunning(Receiver);
      if running {
        live := live - {recId};
      }
    }

    /** free(gScriptParam[n]), the ID set to ERROR, and the thread gone. */
    method ScriptExit(n: nat)
      requires Valid() && n < MAX_SCRIPT_THREAD
      modifies this, scriptId
      ensures View() == Exit(old(View()), n)
    {
      heap, freed := heap - {gScriptParam[n]}, freed + [gScriptParam[n]];
      var _ := KillAndJoin(Runner(n), ERROR);
    }

    /** The rows gScriptParam[n] points to. */
    method Rows(n: nat) returns (rows: seq<string>)
      requires Valid() && n < MAX_SCRIPT_THREAD
      ensures rows == RowsOf(View(), n)
    {
      rows := if gScriptParam[n] in heap then heap[gScriptParam[n]] else [];
    }
  }
}
