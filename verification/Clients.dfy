/**
 The client registry: the four tables of core/src/at_network.c and the commands add, del and
 changeIp (core/src/at_cmdProc.c:351-433), with the kernel's open sockets beside them.
 */
module Clients {
  import opened Common
  import opened CStrings

  const MAX_CLIENT: nat := 10
  const MIN_CLIENT: nat := 0
  const MAX_IP_LENTH: nat := 20
  const SERVER_PORT: nat := 5000
  const USED: int := 1
  const UNUSED: int := 0

  // ---- Addresses ----

  /** The fields of s between separators, empty ones included. */
  function Parts(s: string, d: char): (ps: seq<string>)
    ensures ps != []
  {
    var i := FirstIndex(s, d);
    if i == |s| then [s] else [s[..i]] + Parts(s[i + 1..], d)
  }

  predicate IsOctet(s: string)
  {
    && 1 <= |s| <= 3 && (forall i :: 0 <= i < |s| ==> IsDigit(s[i]))
    && (|s| > 1 ==> s[0] != '0') && LeadingDigits(s, 0) <= 255
  }

  /** inet_pton(AF_INET, s, ..) accepts s: four decimal octets. */
  predicate IsValidIp(s: string)
  {
    var ps := Parts(s, '.');
    |ps| == 4 && IsOctet(ps[0]) && IsOctet(ps[1]) && IsOctet(ps[2]) && IsOctet(ps[3])
  }

  datatype SockAddr = Zero | Inet(port: nat, octets: seq<nat>)

  function Address(ip: string): SockAddr
    requires IsValidIp(ip)
  {
    var ps := Parts(ip, '.');
    Inet(SERVER_PORT, [LeadingDigits(ps[0], 0), LeadingDigits(ps[1], 0), LeadingDigits(ps[2], 0),
      LeadingDigits(ps[3], 0)])
  }

  function PartsLength(ps: seq<string>): nat
  {
    if ps == [] then 0 else |ps[0]| + PartsLength(ps[1..])
  }

  lemma {:induction false} LengthOfParts(s: string, d: char)
    ensures |s| == PartsLength(Parts(s, d)) + |Parts(s, d)| - 1
    decreases |s|
  {
    var i := FirstIndex(s, d);
    if i == |s| {
      assert PartsLength([s]) == |s| + PartsLength([]);
    } else {
      LengthOfParts(s[i + 1..], d);
      assert Parts(s, d)[1..] == Parts(s[i + 1..], d);
    }
  }

  /** An accepted address fits into the 20 bytes of its gClientIpAddr entry. */
  lemma ValidIpFits(ip: string)
    requires IsValidIp(ip)
    ensures 7 <= |ip| <= 15
  {
    LengthOfParts(ip, '.');
    var ps := Parts(ip, '.');
    assert ps[1..][1..] == ps[2..] && ps[2..][1..] == ps[3..] && ps[3..][1..] == [];
    assert PartsLength(ps[3..]) == |ps[3]|;
    assert PartsLength(ps[2..]) == |ps[2]| + |ps[3]|;
    assert PartsLength(ps[1..]) == |ps[1]| + |ps[2]| + |ps[3]|;
  }

  function Dotted(a: nat, b: nat, c: nat, d: nat): string
  {
    Decimal(a) + "." + (Decimal(b) + "." + (Decimal(c) + "." + Decimal(d)))
  }

  lemma {:induction false} DigitsHaveNoDot(n: nat)
    ensures '.' !in Digits(n) && forall i :: 0 <= i < |Digits(n)| ==> '0' <= Digits(n)[i] <= '9'
    ensures n > 0 ==> Digits(n)[0] != '0'
  {
    if n >= 10 {
      DigitsHaveNoDot(n / 10);
    }
  }

  lemma OctetIs(n: nat)
    requires n <= 255
    ensures IsOctet(Decimal(n)) && LeadingDigits(Decimal(n), 0) == n && '.' !in Decimal(n)
  {
    DigitsHaveNoDot(n);
    LeadingDigitsDecimal(n, "");
    assert Digits(n) + "" == Digits(n);
    if n >= 100 {
      assert Digits(n) == Digits(n / 10) + [(n % 10) as char + '0'];
      assert |Digits(n / 10 / 10)| == 1;
    }
  }

  lemma OctetOnly(s: string)
    requires IsOctet(s)
    ensures LeadingDigits(s, 0) <= 255 && s == Decimal(LeadingDigits(s, 0))
  {
    DigitsOfValue(s);
  }

  lemma PartFirst(x: string, rest: string)
    requires '.' !in x
    ensures Parts(x + "." + rest, '.') == [x] + Parts(rest, '.')
  {
    var s := x + "." + rest;
    FirstIndexIs(s, '.', |x|);
    assert s[..|x|] == x && s[|x| + 1..] == rest;
  }

  lemma PartLast(x: string)
    requires '.' !in x
    ensures Parts(x, '.') == [x]
  {
    FirstIndexIs(x, '.', |x|);
  }

  lemma DottedParts(a: nat, b: nat, c: nat, d: nat)
    requires a <= 255 && b <= 255 && c <= 255 && d <= 255
    ensures Parts(Dotted(a, b, c, d), '.') == [Decimal(a), Decimal(b), Decimal(c), Decimal(d)]
  {
    OctetIs(a);
    OctetIs(b);
    OctetIs(c);
    OctetIs(d);
    hide Parts, Decimal, IsOctet;
    PartFirst(Decimal(a), Decimal(b) + "." + (Decimal(c) + "." + Decimal(d)));
    PartFirst(Decimal(b), Decimal(c) + "." + Decimal(d));
    PartFirst(Decimal(c), Decimal(d));
    PartLast(Decimal(d));
  }

  /** Four numbers up to 255 with dots between them are accepted, and stand for themselves on port 5000. */
  lemma DottedIsValid(a: nat, b: nat, c: nat, d: nat)
    requires a <= 255 && b <= 255 && c <= 255 && d <= 255
    ensures IsValidIp(Dotted(a, b, c, d)) && Address(Dotted(a, b, c, d)) == Inet(5000, [a, b, c, d])
  {
    DottedParts(a, b, c, d);
    OctetIs(a);
    OctetIs(b);
    OctetIs(c);
    OctetIs(d);
    hide Parts, Decimal, IsOctet, LeadingDigits, Dotted;
  }

  lemma {:induction false} PartsGiveBack(s: string)
    ensures var ps := Parts(s, '.');
      s == if |ps| == 1 then ps[0] else ps[0] + "." + s[|ps[0]| + 1..]
    ensures var ps := Parts(s, '.');
      |ps| > 1 ==> |ps[0]| + 1 <= |s| && Parts(s[|ps[0]| + 1..], '.') == ps[1..]
  {
  }

  /** Nothing else is accepted. */
  lemma ValidIsDotted(s: string) returns (a: nat, b: nat, c: nat, d: nat)
    requires IsValidIp(s)
    ensures a <= 255 && b <= 255 && c <= 255 && d <= 255 && s == Dotted(a, b, c, d)
  {
    var ps := Parts(s, '.');
    OctetOnly(ps[0]);
    OctetOnly(ps[1]);
    OctetOnly(ps[2]);
    OctetOnly(ps[3]);
    a, b, c, d := LeadingDigits(ps[0], 0), LeadingDigits(ps[1], 0), LeadingDigits(ps[2], 0), LeadingDigits(ps[3], 0);
    FourParts(s);
  }

  lemma FourParts(s: string)
    requires |Parts(s, '.')| == 4
    ensures var ps := Parts(s, '.'); s == ps[0] + "." + (ps[1] + "." + (ps[2] + "." + ps[3]))
  {
    hide Parts;
    var ps := Parts(s, '.');
    PartsGiveBack(s);
    var s1 := s[|ps[0]| + 1..];
    PartsGiveBack(s1);
    var s2 := s1[|ps[1]| + 1..];
    PartsGiveBack(s2);
    PartsGiveBack(s2[|ps[2]| + 1..]);
  }

  // ---- The registry as a value ----

  /**
   The tables, and the kernel's side of the sockets: the open ones, and all those ever handed
   out and closed.
   */
  datatype Registry = Registry(flag: seq<int>, socket: seq<int>, ip: seq<string>, addr: seq<SockAddr>,
                               open: set<int>, granted: seq<int>, closed: seq<int>)
  {
    predicate Sized()
    {
      |flag| == |socket| == |ip| == |addr| == MAX_CLIENT
    }
  }

  predicate InRange(num: int)
  {
    MIN_CLIENT <= num < MAX_CLIENT
  }

  /** socket(): a descriptor that is not open, or -1; `answer` is the kernel's choice. */
  function Grant(open: set<int>, answer: int): int
  {
    if answer > 0 && answer !in open then answer else -1
  }

  /** close(fd): a descriptor that is not open is left alone. */
  function Close(r: Registry, fd: int): Registry
  {
    if fd in r.open then r.(open := r.open - {fd}, closed := r.closed + [fd]) else r
  }

  function FlagOf(r: Registry, num: int): int
    requires r.Sized()
  {
    if InRange(num) then r.flag[num] else ERROR
  }

  function Configure(r: Registry, num: int, ip: string, answer: int): (Registry, bool)
    requires r.Sized()
  {
    if !InRange(num) || !IsValidIp(ip) || r.flag[num] == USED then (r, false)
    else
      var fd := Grant(r.open, answer);
      var r' := r.(socket := r.socket[num := fd]);
      if fd == -1 then (r', false)
      else (r'.(open := r.open + {fd}, granted := r.granted + [fd], addr := r.addr[num := Address(ip)]), true)
  }

  function Add(r: Registry, num: int, ip: string, answer: int): (r': Registry)
    requires r.Sized()
    ensures r'.Sized()
  {
    if FlagOf(r, num) == USED then r
    else
      var (r', ok) := Configure(r, num, ip, answer);
      if ok then r'.(flag := r'.flag[num := USED], ip := r'.ip[num := ip]) else r'
  }

  function Remove(r: Registry, num: int): Registry
    requires r.Sized() && InRange(num)
  {
    var r' := r.(flag := r.flag[num := UNUSED], ip := r.ip[num := ""], addr := r.addr[num := Zero]);
    if r.socket[num] != ERROR then Close(r', r.socket[num]) else r'
  }

  function Del(r: Registry, num: int): (r': Registry)
    requires r.Sized()
    ensures r'.Sized()
  {
    if num > MAX_CLIENT || num < MIN_CLIENT || FlagOf(r, num) == UNUSED then r else Remove(r, num)
  }

  function ChangeIp(r: Registry, num: int, ip: string, answer: int): (r': Registry)
    requires r.Sized()
    ensures r'.Sized()
  {
    if FlagOf(r, num) == UNUSED then r
    else
      var (r', ok) := Configure(r, num, ip, answer);
      if ok then r'.(ip := r'.ip[num := ip]) else r'
  }

  const EMPTY := Registry(
    seq(MAX_CLIENT, _ => UNUSED), seq(MAX_CLIENT, _ => 0), seq(MAX_CLIENT, _ => ""), seq(MAX_CLIENT, _ => Zero),
    {}, [], [])

  // ---- What every run keeps ----

  predicate SlotOk(r: Registry, c: int)
    requires r.Sized() && InRange(c)
  {
    if r.flag[c] == USED then
      IsValidIp(r.ip[c]) && r.addr[c] == Address(r.ip[c]) && r.socket[c] > 0 && r.socket[c] in r.open
    else
      r.flag[c] == UNUSED && r.ip[c] == "" && r.addr[c] == Zero
  }

  /** The sockets the registry uses. */
  ghost predicate Owns(r: Registry, fd: int)
    requires r.Sized()
  {
    exists c :: InRange(c) && r.flag[c] == USED && r.socket[c] == fd
  }

  /**
   Used slots hold a valid address, a matching socket address and an open socket of their own,
   unused slots hold nothing; every open socket belongs to a used slot; and every socket
   handed out is open or was closed, once.
   */
  ghost predicate Consistent(r: Registry)
  {
    && r.Sized()
    && (forall c :: InRange(c) ==> SlotOk(r, c))
    && (forall c, d :: InRange(c) && InRange(d) && c != d && r.flag[c] == USED && r.flag[d] == USED
          ==> r.socket[c] != r.socket[d])
    && (forall fd :: fd in r.open ==> Owns(r, fd))
    && multiset(r.granted) == multiset(r.closed) + multiset(r.open)
  }

  lemma EmptyIsConsistent()
    ensures Consistent(EMPTY)
  {
  }

  /** The registry once socket fd is handed out and client num is set up with it. */
  function Registered(r: Registry, num: int, ip: string, fd: int): Registry
    requires r.Sized() && InRange(num) && IsValidIp(ip)
  {
    Registry(r.flag[num := USED], r.socket[num := fd], r.ip[num := ip], r.addr[num := Address(ip)],
             r.open + {fd}, r.granted + [fd], r.closed)
  }

  lemma OpenedOnce(granted: seq<int>, closed: seq<int>, open: set<int>, fd: int)
    requires multiset(granted) == multiset(closed) + multiset(open) && fd !in open
    ensures multiset(granted + [fd]) == multiset(closed) + multiset(open + {fd})
  {
  }

  lemma RegisteredKeeps(r: Registry, num: int, ip: string, fd: int)
    requires Consistent(r) && InRange(num) && r.flag[num] != USED && IsValidIp(ip) && fd > 0 && fd !in r.open
    ensures Consistent(Registered(r, num, ip, fd))
  {
    hide IsValidIp, Address;
    var r' := Registered(r, num, ip, fd);
    OpenedOnce(r.granted, r.closed, r.open, fd);
    forall f | f in r'.open ensures Owns(r', f) {
      if f == fd {
        assert r'.socket[num] == f;
      } else {
        assert Owns(r, f);
        var c :| InRange(c) && r.flag[c] == USED && r.socket[c] == f;
        assert r'.flag[c] == USED && r'.socket[c] == f;
      }
    }
    forall c | InRange(c) ensures SlotOk(r', c) && (c != num && r'.flag[c] == USED ==> r'.socket[c] != fd) {
      assert SlotOk(r, c);
    }
  }

  /** The registry after socket() failed for client num. */
  function Refused(r: Registry, num: int): Registry
    requires r.Sized() && InRange(num)
  {
    r.(socket := r.socket[num := -1])
  }

  lemma RefusedKeeps(r: Registry, num: int)
    requires Consistent(r) && InRange(num) && r.flag[num] != USED
    ensures Consistent(Refused(r, num))
  {
    hide IsValidIp, Address;
    var r' := Refused(r, num);
    assert forall c :: InRange(c) && r.flag[c] == USED ==> r'.socket[c] == r.socket[c];
    forall c | InRange(c) ensures SlotOk(r', c) {
      assert SlotOk(r, c);
    }
    forall f | f in r'.open ensures Owns(r', f) {
      assert Owns(r, f);
    }
  }

  lemma AddKeeps(r: Registry, num: int, ip: string, answer: int)
    requires Consistent(r)
    ensures Consistent(Add(r, num, ip, answer))
  {
    if InRange(num) && r.flag[num] != USED && IsValidIp(ip) {
      var fd := Grant(r.open, answer);
      hide IsValidIp, Address, Consistent;
      if fd == -1 {
        RefusedKeeps(r, num);
      } else {
        RegisteredKeeps(r, num, ip, fd);
      }
    }
  }

  lemma RemoveKeeps(r: Registry, num: int)
    requires Consistent(r) && InRange(num)
    requires r.flag[num] == USED || r.socket[num] !in r.open
    ensures Consistent(Remove(r, num))
  {
    hide IsValidIp, Address;
    var r' := Remove(r, num);
    assert SlotOk(r, num);
    forall f | f in r'.open ensures Owns(r', f) {
      assert Owns(r, f);
      var c :| InRange(c) && r.flag[c] == USED && r.socket[c] == f;
      assert r'.socket[c] == f;
    }
    forall c | InRange(c) ensures SlotOk(r', c) {
      assert SlotOk(r, c);
    }
  }

  lemma DelKeeps(r: Registry, num: int)
    requires Consistent(r)
    ensures Consistent(Del(r, num))
  {
    if InRange(num) && r.flag[num] != UNUSED {
      assert SlotOk(r, num);
      RemoveKeeps(r, num);
    }
  }

  /** changeIp never changes anything: network_config refuses a client that is in use. */
  lemma ChangeIpIsRefused(r: Registry, num: int, ip: string, answer: int)
    requires Consistent(r)
    ensures ChangeIp(r, num, ip, answer) == r
  {
    if InRange(num) {
      assert SlotOk(r, num);
    }
  }

  /**
   add takes a client in exactly when its slot is free, its address is good and a socket is to
   be had; the slot then holds that address and that socket, and no other slot has changed.  With
   a used slot, a number out of range or a bad address nothing changes at all, and without a
   socket only the slot's socket number does.
   */
  lemma AddTakesIn(r: Registry, num: int, ip: string, answer: int)
    requires r.Sized()
    ensures !(0 <= num <= 9) || r.flag[num] == USED || !IsValidIp(ip) ==> Add(r, num, ip, answer) == r
    ensures 0 <= num <= 9 && r.flag[num] != USED && IsValidIp(ip) ==>
      if answer <= 0 || answer in r.open then Add(r, num, ip, answer) == r.(socket := r.socket[num := -1])
      else
        var r' := Add(r, num, ip, answer);
        && r'.flag == r.flag[num := USED] && r'.socket == r.socket[num := answer]
        && r'.ip == r.ip[num := ip] && r'.addr == r.addr[num := Address(ip)]
        && r'.open == r.open + {answer} && r'.granted == r.granted + [answer] && r'.closed == r.closed
  {
    hide IsValidIp, Address;
  }

  /**
   del takes a client out exactly when its slot is used: the slot is then free, without an
   address, and its socket, open as long as the registry is consistent, is closed; nothing else
   changes.
   */
  lemma DelTakesOut(r: Registry, num: int)
    requires r.Sized()
    ensures !(0 <= num <= 9) || r.flag[num] == UNUSED ==> Del(r, num) == r
    ensures 0 <= num <= 9 && r.flag[num] != UNUSED ==>
      var r' := Del(r, num);
      && r'.flag == r.flag[num := UNUSED] && r'.ip == r.ip[num := ""] && r'.addr == r.addr[num := Zero]
      && r'.socket == r.socket && r'.granted == r.granted
      && (if r.socket[num] != 0 && r.socket[num] in r.open then
            r'.open == r.open - {r.socket[num]} && r'.closed == r.closed + [r.socket[num]]
          else r'.open == r.open && r'.closed == r.closed)
      && (Consistent(r) ==> r.socket[num] != 0 && r.socket[num] in r.open)
  {
    hide IsValidIp, Address;
    if Consistent(r) && InRange(num) {
      assert SlotOk(r, num);
    }
  }

  /** Deleting a client that was just added gives the tables back; its socket was opened and closed once. */
  lemma DelUndoesAdd(r: Registry, num: int, ip: string, answer: int)
    requires Consistent(r) && InRange(num) && r.flag[num] == UNUSED
    requires IsValidIp(ip) && answer > 0 && answer !in r.open
    ensures Del(Add(r, num, ip, answer), num) ==
      r.(socket := r.socket[num := answer], granted := r.granted + [answer], closed := r.closed + [answer])
  {
    hide IsValidIp, Address;
    assert SlotOk(r, num);
    var r' := Del(Add(r, num, ip, answer), num);
    assert r'.flag == r.flag && r'.ip == r.ip && r'.addr == r.addr;
    assert r'.open == r.open;
  }

  // ---- The suspend message ----

  /** A phone that reports itself suspended is removed whatever its flag (core/src/autoTest.c:244-254). */
  function Suspend(r: Registry, num: int): (r': Registry)
    requires r.Sized()
    ensures r'.Sized()
  {
    if MIN_CLIENT < num < MAX_CLIENT then Remove(r, num) else r
  }

  /** The client is in use, or the number left in its socket slot is not open again by now. */
  predicate MaySuspend(r: Registry, num: int)
    requires r.Sized()
  {
    MIN_CLIENT < num < MAX_CLIENT ==>
      r.flag[num] == USED || r.socket[num] == ERROR || r.socket[num] !in r.open
  }

  /** Suspending keeps the registry consistent exactly then. */
  lemma SuspendKeeps(r: Registry, num: int)
    requires Consistent(r)
    ensures Consistent(Suspend(r, num)) <==> MaySuspend(r, num)
  {
    if MIN_CLIENT < num < MAX_CLIENT {
      assert SlotOk(r, num);
      if r.flag[num] == USED || r.socket[num] !in r.open {
        RemoveKeeps(r, num);
      } else {
        SuspendTakesSocket(r, num);
      }
    }
  }

  lemma SuspendTakesSocket(r: Registry, num: int)
    requires Consistent(r) && MIN_CLIENT < num < MAX_CLIENT && r.flag[num] != USED && r.socket[num] in r.open
    ensures Consistent(Suspend(r, num)) <==> r.socket[num] == ERROR
  {
    var fd := r.socket[num];
    assert Owns(r, fd);
    var c :| InRange(c) && r.flag[c] == USED && r.socket[c] == fd;
    var r' := Suspend(r, num);
    assert SlotOk(r, c);
    assert r'.flag[c] == USED && r'.socket[c] == fd;
    if fd != ERROR {
      assert !SlotOk(r', c);
    }
  }

  /** Phones 1 to 9 are taken out by it, used or not, with the socket their slot names; phone 0 never is. */
  lemma SuspendTakesOut(r: Registry, num: int)
    requires r.Sized()
    ensures !(1 <= num <= 9) ==> Suspend(r, num) == r
    ensures 1 <= num <= 9 ==>
      var r' := Suspend(r, num);
      && r'.flag == r.flag[num := UNUSED] && r'.ip == r.ip[num := ""] && r'.addr == r.addr[num := Zero]
      && r'.socket == r.socket && r'.granted == r.granted
      && if r.socket[num] != 0 && r.socket[num] in r.open then
           r'.open == r.open - {r.socket[num]} && r'.closed == r.closed + [r.socket[num]]
         else r'.open == r.open && r'.closed == r.closed
  {
  }

  // ---- Runs ----

  datatype Op =
    | OpAdd(num: int, ip: string, answer: int)
    | OpDel(num: int)
    | OpChangeIp(num: int, ip: string, answer: int)
    | OpSuspend(num: int)

  function Apply(r: Registry, op: Op): (r': Registry)
    requires r.Sized()
    ensures r'.Sized()
  {
    match op
    case OpAdd(num, ip, answer) => Add(r, num, ip, answer)
    case OpDel(num) => Del(r, num)
    case OpChangeIp(num, ip, answer) => ChangeIp(r, num, ip, answer)
    case OpSuspend(num) => Suspend(r, num)
  }

  function Run(r: Registry, ops: seq<Op>): Registry
    requires r.Sized()
    decreases ops
  {
    if ops == [] then r else Run(Apply(r, ops[0]), ops[1..])
  }

  /** No suspend message comes from a client whose old descriptor is open again. */
  predicate CleanRun(r: Registry, ops: seq<Op>)
    requires r.Sized()
    decreases ops
  {
    ops == [] || ((ops[0].OpSuspend? ==> MaySuspend(r, ops[0].num)) && CleanRun(Apply(r, ops[0]), ops[1..]))
  }

  /** The registry is consistent at every moment of the run. */
  ghost predicate AlwaysConsistent(r: Registry, ops: seq<Op>)
    requires r.Sized()
    decreases ops
  {
    Consistent(r) && (ops == [] || AlwaysConsistent(Apply(r, ops[0]), ops[1..]))
  }

  lemma ApplyKeeps(r: Registry, op: Op)
    requires Consistent(r)
    ensures Consistent(Apply(r, op)) <==> (op.OpSuspend? ==> MaySuspend(r, op.num))
  {
    match op
    case OpAdd(num, ip, answer) => AddKeeps(r, num, ip, answer);
    case OpDel(num) => DelKeeps(r, num);
    case OpChangeIp(num, ip, answer) => ChangeIpIsRefused(r, num, ip, answer);
    case OpSuspend(num) => SuspendKeeps(r, num);
  }

  /**
   Whatever is added, deleted, changed and suspended, in any order: the registry is consistent at
   every moment exactly when the run is clean.
   */
  lemma {:induction false} RunKeeps(r: Registry, ops: seq<Op>)
    requires Consistent(r)
    ensures AlwaysConsistent(r, ops) <==> CleanRun(r, ops)
    ensures CleanRun(r, ops) ==> Consistent(Run(r, ops))
    decreases ops
  {
    if ops == [] {
    } else {
      ApplyKeeps(r, ops[0]);
      assert r.Sized();
      hide Consistent, Apply, MaySuspend;
      if Consistent(Apply(r, ops[0])) {
        RunKeeps(Apply(r, ops[0]), ops[1..]);
      }
    }
  }

  /** Client 1 is deleted, client 2 gets its descriptor, and suspending client 1 closes client 2's socket. */
  lemma SuspendClosesAnother(ip: string)
    requires IsValidIp(ip)
    ensures var r := Run(EMPTY, [OpAdd(1, ip, 3), OpDel(1), OpAdd(2, ip, 3)]);
      Consistent(r) && r.flag[2] == USED && !Consistent(Suspend(r, 1))
  {
    EmptyIsConsistent();
    var r1 := Add(EMPTY, 1, ip, 3);
    var r2 := Del(r1, 1);
    var r3 := Add(r2, 2, ip, 3);
    AddKeeps(EMPTY, 1, ip, 3);
    DelKeeps(r1, 1);
    AddKeeps(r2, 2, ip, 3);
    assert r2.open == {};
    ThreeOps(EMPTY, OpAdd(1, ip, 3), OpDel(1), OpAdd(2, ip, 3));
    SuspendKeeps(r3, 1);
  }

  lemma ThreeOps(r: Registry, a: Op, b: Op, c: Op)
    requires r.Sized()
    ensures Run(r, [a, b, c]) == Apply(Apply(Apply(r, a), b), c)
  {
    hide Apply;
    assert [a] + [b, c] == [a, b, c] && [b] + [c] == [b, c];
    OpFirst(r, a, [b, c]);
    OpFirst(Apply(r, a), b, [c]);
    OpFirst(Apply(Apply(r, a), b), c, []);
    assert [c] + [] == [c];
  }

  lemma OpFirst(r: Registry, op: Op, ops: seq<Op>)
    requires r.Sized()
    ensures Run(r, [op] + ops) == Run(Apply(r, op), ops)
  {
    assert ([op] + ops)[1..] == ops;
  }

  // ---- The tables in memory ----

  class ClientTable {
    const gClientFlag: array<int>
    const gSockets: array<int>
    const gClientIpAddr: array<string>
    const clientSockAddr: array<SockAddr>
    // The kernel's side.
    var open: set<int>
    var granted: seq<int>
    var closed: seq<int>

    ghost predicate Valid()
    {
      && gClientFlag.Length == gSockets.Length == gClientIpAddr.Length == clientSockAddr.Length == MAX_CLIENT
      && gClientFlag != gSockets
    }

    ghost function View(): Registry
      reads this, gClientFlag, gSockets, gClientIpAddr, clientSockAddr
    {
      Registry(gClientFlag[..], gSockets[..], gClientIpAddr[..], clientSockAddr[..], open, granted, closed)
    }

    constructor ()
      ensures Valid() && View() == EMPTY
      ensures fresh(gClientFlag) && fresh(gSockets) && fresh(gClientIpAddr) && fresh(clientSockAddr)
    {
      gClientFlag := new int[MAX_CLIENT](_ => UNUSED);
      gSockets := new int[MAX_CLIENT](_ => 0);
      gClientIpAddr := new string[MAX_CLIENT](_ => "");
      clientSockAddr := new SockAddr[MAX_CLIENT](_ => Zero);
      open, granted, closed := {}, [], [];
    }

    method SetClientFlag(clientNum: int, flag: int)
      requires Valid()
      modifies gClientFlag
      ensures View() ==
        if InRange(clientNum) then old(View()).(flag := old(View()).flag[clientNum := flag]) else old(View())
    {
      if clientNum < MIN_CLIENT || clientNum > MAX_CLIENT - 1 {
        return;
      }
      gClientFlag[clientNum] := flag;
    }

    method GetClientFlag(clientNum: int) returns (flag: int)
      requires Valid()
      ensures flag == FlagOf(View(), clientNum)
    {
      if clientNum < MIN_CLIENT || clientNum > MAX_CLIENT - 1 {
        return ERROR;
      }
      return gClientFlag[clientNum];
    }

    /** The copy with its NUL has to fit into 20 bytes. */
    method SetClientIpAddr(clientNum: int, ipAddr: string)
      requires Valid() && |ipAddr| < MAX_IP_LENTH
      modifies gClientIpAddr
      ensures View() ==
        if InRange(clientNum) then old(View()).(ip := old(View()).ip[clientNum := ipAddr]) else old(View())
    {
      if clientNum < MIN_CLIENT || clientNum > MAX_CLIENT - 1 {
        return;
      }
      gClientIpAddr[clientNum] := ipAddr;
    }

    /** setClientSockAddr, and delClientSockAddr for the zero address. */
    method SetClientSockAddr(clientNum: int, addr: SockAddr)
      requires Valid()
      modifies clientSockAddr
      ensures View() ==
        if InRange(clientNum) then old(View()).(addr := old(View()).addr[clientNum := addr]) else old(View())
    {
      if clientNum < MIN_CLIENT || clientNum > MAX_CLIENT - 1 {
        return;
      }
      clientSockAddr[clientNum] := addr;
    }

    /** closeSocket has no range check of its own. */
    method CloseSocket(clientNum: int)
      requires Valid() && InRange(clientNum)
      modifies this
      ensures View() == if gSockets[clientNum] != ERROR then Close(old(View()), gSockets[clientNum]) else old(View())
    {
      if gSockets[clientNum] != ERROR && gSockets[clientNum] in open {
        closed := closed + [gSockets[clientNum]];
        open := open - {gSockets[clientNum]};
      }
    }

    method NetworkConfig(cNum: int, ipAddr: string, answer: int) returns (ok: bool)
      requires Valid()
      modifies this, gSockets, clientSockAddr
      ensures (View(), ok) == Configure(old(View()), cNum, ipAddr, answer)
    {
      if cNum < MIN_CLIENT || cNum > MAX_CLIENT - 1 {
        return false;
      }
      if !IsValidIp(ipAddr) {
        return false;
      }
      if gClientFlag[cNum] == USED {
        return false;
      }
      var fd := Grant(open, answer);
      gSockets[cNum] := fd;
      if fd == -1 {
        return false;
      }
      open, granted := open + {fd}, granted + [fd];
      SetClientSockAddr(cNum, Address(ipAddr));
      return true;
    }

    method AddClient(clientNum: int, ipAddr: string, answer: int)
      requires Valid()
      modifies this, gClientFlag, gSockets, gClientIpAddr, clientSockAddr
      ensures View() == Add(old(View()), clientNum, ipAddr, answer)
    {
      var stat := GetClientFlag(clientNum);
      if USED == stat {
        return;
      }
      var ok := NetworkConfig(clientNum, ipAddr, answer);
      if !ok {
        return;
      }
      ValidIpFits(ipAddr);
      SetClientFlag(clientNum, USED);
      SetClientIpAddr(clientNum, ipAddr);
    }

    /** The four calls that take a client out, shared by del and the suspend message. */
    method RemoveClient(clientNum: int)
      requires Valid() && InRange(clientNum)
      modifies this, gClientFlag, gClientIpAddr, clientSockAddr
      ensures View() == Remove(old(View()), clientNum)
    {
      SetClientFlag(clientNum, UNUSED);
      SetClientIpAddr(clientNum, "");
      CloseSocket(clientNum);
      SetClientSockAddr(clientNum, Zero);
    }

    method DelClient(clientNum: int)
      requires Valid()
      modifies this, gClientFlag, gClientIpAddr, clientSockAddr
      ensures View() == Del(old(View()), clientNum)
    {
      if clientNum > MAX_CLIENT || clientNum < MIN_CLIENT {
        return;
      }
      var stat := GetClientFlag(clientNum);
      if stat == UNUSED {
        return;
      }
      RemoveClient(clientNum);
    }

    /** The LOG_SUSPEND case of syslogProcess. */
    method SuspendClient(clientNum: int)
      requires Valid()
      modifies this, gClientFlag, gClientIpAddr, clientSockAddr
      ensures View() == Suspend(old(View()), clientNum)
    {
      if clientNum > MIN_CLIENT && clientNum < MAX_CLIENT {
        RemoveClient(clientNum);
      }
    }

    method ChangeClientIpAddr(clientNum: int, ipAddr: string, answer: int)
      requires Valid()
      modifies this, gSockets, gClientIpAddr, clientSockAddr
      ensures View() == ChangeIp(old(View()), clientNum, ipAddr, answer)
    {
      var stat := GetClientFlag(clientNum);
      if UNUSED == stat {
        return;
      }
      var ok := NetworkConfig(clientNum, ipAddr, answer);
      if !ok {
        return;
      }
      ValidIpFits(ipAddr);
      SetClientIpAddr(clientNum, ipAddr);
    }
  }
}
