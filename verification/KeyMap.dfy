/** The key table gKeyLib and its search (core/src/keyMap.c). */
module KeyMap {
  import opened Common
  import opened CStrings

  const MAX_KEY_NUM: nat := 255
  const MAX_KEY_LENGTH: nat := 5

  datatype Key = Key(name: string, code: string)

  /** The initializer of gKeyLib; slots it does not mention hold empty strings. */
  function KeyAt(i: nat): Key
  {
    match i
    case 34 => Key("s1", "251")
    case 4 => Key("s2", "252")
    case 44 => Key("s3", "253")
    case 24 => Key("s4", "254")
    case 14 => Key("up", "31")
    case 54 => Key("dn", "32")
    case 3 => Key("1", "49")
    case 2 => Key("2", "50")
    case 41 => Key("3", "51")
    case 33 => Key("4", "52")
    case 32 => Key("5", "53")
    case 31 => Key("6", "54")
    case 13 => Key("7", "55")
    case 12 => Key("8", "56")
    case 1 => Key("9", "57")
    case 52 => Key("0", "48")
    case 53 => Key("*", "10")
    case 51 => Key("#", "11")
    case 22 => Key("vd", "47")
    case 42 => Key("me", "64")
    case 43 => Key("vu", "46")
    case 11 => Key("rl", "63")
    case 25 => Key("he", "61")
    case 15 => Key("le1", "151")
    case 5 => Key("le2", "152")
    case 100 => Key("offhook", "100")
    case 101 => Key("onhook", "101")
    case _ => Key("", "")
  }

  predicate Populated(i: nat)
  {
    i < MAX_KEY_NUM && KeyAt(i).code != ""
  }

  /** The slot a name or a code belongs to, written down the other way round. */
  function SlotOf(s: string): (i: int)
    ensures i == FAILED || 0 <= i < MAX_KEY_NUM
  {
    match |s|
    case 1 => SlotOfChar(s[0])
    case 2 => SlotOfPair(s[0], s[1])
    case 3 => SlotOfTriple(s[0], s[1], s[2])
    case 6 => if s == "onhook" then 101 else FAILED
    case 7 => if s == "offhook" then 100 else FAILED
    case _ => FAILED
  }

  function SlotOfChar(c: char): int
  {
    match c
    case '1' => 3
    case '2' => 2
    case '3' => 41
    case '4' => 33
    case '5' => 32
    case '6' => 31
    case '7' => 13
    case '8' => 12
    case '9' => 1
    case '0' => 52
    case '*' => 53
    case '#' => 51
    case _ => FAILED
  }

  function SlotOfPair(c: char, d: char): int
  {
    match c
    case 's' =>
      if d == '1' then 34 else if d == '2' then 4 else if d == '3' then 44 else if d == '4' then 24 else FAILED
    case 'u' =>
      if d == 'p' then 14 else FAILED
    case '3' =>
      if d == '1' then 14 else if d == '2' then 54 else FAILED
    case 'd' =>
      if d == 'n' then 54 else FAILED
    case '4' =>
      if d == '9' then 3 else if d == '8' then 52 else if d == '7' then 22 else if d == '6' then 43 else FAILED
    case '5' =>
      if d == '0' then 2 else if d == '1' then 41 else if d == '2' then 33 else if d == '3' then 32
      else if d == '4' then 31 else if d == '5' then 13 else if d == '6' then 12 else if d == '7' then 1 else FAILED
    case '1' =>
      if d == '0' then 53 else if d == '1' then 51 else FAILED
    case 'v' =>
      if d == 'd' then 22 else if d == 'u' then 43 else FAILED
    case 'm' =>
      if d == 'e' then 42 else FAILED
    case '6' =>
      if d == '4' then 42 else if d == '3' then 11 else if d == '1' then 25 else FAILED
    case 'r' =>
      if d == 'l' then 11 else FAILED
    case 'h' =>
      if d == 'e' then 25 else FAILED
    case _ => FAILED
  }

  function SlotOfTriple(c: char, d: char, e: char): int
  {
    match (c, d)
    case ('2', '5') =>
      if e == '1' then 34 else if e == '2' then 4 else if e == '3' then 44 else if e == '4' then 24 else FAILED
    case ('l', 'e') =>
      if e == '1' then 15 else if e == '2' then 5 else FAILED
    case ('1', '5') =>
      if e == '1' then 15 else if e == '2' then 5 else FAILED
    case ('1', '0') =>
      if e == '0' then 100 else if e == '1' then 101 else FAILED
    case _ => FAILED
  }

  predicate Matches(i: nat, s: string)
  {
    KeyAt(i).name == s || KeyAt(i).code == s
  }

  lemma LowMatch(i: nat, s: string)
    requires s != "" && Matches(i, s) && i < 25
    ensures SlotOf(s) == i
  {
  }

  lemma HighMatch(i: nat, s: string)
    requires s != "" && Matches(i, s) && i >= 25
    ensures SlotOf(s) == i
  {
  }

  /** No name or code stands in two slots, and no name is another key's code. */
  lemma MatchIsUnique(i: nat, s: string)
    requires s != "" && Matches(i, s)
    ensures SlotOf(s) == i && Populated(i)
  {
    if i < 25 {
      LowMatch(i, s);
    } else {
      HighMatch(i, s);
    }
    hide SlotOf;
  }

  lemma SlotMatches(s: string)
    requires SlotOf(s) != FAILED
    ensures SlotOf(s) >= 0 && Matches(SlotOf(s), s) && s != ""
  {
  }

  /** The table in memory. */
  /** A digit has the decimal number of its character as code. */
  lemma DigitKeys(c: char)
    requires '0' <= c <= '9'
    ensures SlotOf([c]) == [52, 3, 2, 41, 33, 32, 31, 13, 12, 1][c as int - '0' as int]
    ensures KeyAt(SlotOf([c])) == Key([c], Decimal(c as int))
  {
    hide SlotOfPair, SlotOfTriple, Digits;
    DigitSlots(c);
    hide KeyAt, SlotOf, SlotOfChar;
    DigitsAre(c as int);
    DigitsAre(c as int / 10);
  }

  lemma DigitSlots(c: char)
    requires '0' <= c <= '9'
    ensures SlotOf([c]) == [52, 3, 2, 41, 33, 32, 31, 13, 12, 1][c as int - '0' as int]
    ensures KeyAt(SlotOf([c])).name == [c]
    ensures KeyAt(SlotOf([c])).code == ["0123456789"[c as int / 10]] + ["0123456789"[c as int % 10]]
  {
    hide SlotOfPair, SlotOfTriple;
    assert SlotOf([c]) == SlotOfChar(c);
    hide SlotOf;
  }

  /** The other keys, by name. */
  lemma OtherKeys()
    ensures SlotOf("s1") == 34 && KeyAt(34).code == "251" && SlotOf("s2") == 4 && KeyAt(4).code == "252"
    ensures SlotOf("s3") == 44 && KeyAt(44).code == "253" && SlotOf("s4") == 24 && KeyAt(24).code == "254"
    ensures SlotOf("up") == 14 && KeyAt(14).code == "31" && SlotOf("dn") == 54 && KeyAt(54).code == "32"
    ensures SlotOf("*") == 53 && KeyAt(53).code == "10" && SlotOf("#") == 51 && KeyAt(51).code == "11"
    ensures SlotOf("vd") == 22 && KeyAt(22).code == "47" && SlotOf("vu") == 43 && KeyAt(43).code == "46"
    ensures SlotOf("me") == 42 && KeyAt(42).code == "64" && SlotOf("rl") == 11 && KeyAt(11).code == "63"
    ensures SlotOf("he") == 25 && KeyAt(25).code == "61" && SlotOf("le1") == 15 && KeyAt(15).code == "151"
    ensures SlotOf("le2") == 5 && KeyAt(5).code == "152" && SlotOf("offhook") == 100 && KeyAt(100).code == "100"
    ensures SlotOf("onhook") == 101 && KeyAt(101).code == "101"
    ensures forall i :: 102 <= i <= 254 ==> !Populated(i)
  {
  }

  class KeyTable {
    const gKeyLib: array<Key>

    ghost predicate Valid()
      reads gKeyLib
    {
      gKeyLib.Length == MAX_KEY_NUM && forall i :: 0 <= i < MAX_KEY_NUM ==> gKeyLib[i] == KeyAt(i)
    }

    constructor ()
      ensures Valid() && fresh(gKeyLib)
    {
      gKeyLib := new Key[MAX_KEY_NUM](i => if i >= 0 then KeyAt(i) else Key("", ""));
    }

    /** A token, which is never empty, is found exactly when it is a key's name or code, and in that key's slot. */
    method GetKeyCode(str: string) returns (index: int)
      requires Valid() && str != ""
      ensures index == SlotOf(str)
    {
      index := 0;
      while index < MAX_KEY_NUM
        invariant 0 <= index <= MAX_KEY_NUM
        invariant forall k :: 0 <= k < index ==> !Matches(k, str)
      {
        assert gKeyLib[index] == KeyAt(index);
        if gKeyLib[index].name == str || gKeyLib[index].code == str {
          MatchIsUnique(index, str);
          return;
        }
        index := index + 1;
      }
      NoMatch(str);
      index := FAILED;
    }
  }

  lemma NoMatch(str: string)
    requires forall k :: 0 <= k < MAX_KEY_NUM ==> !Matches(k, str)
    ensures SlotOf(str) == FAILED
  {
    if SlotOf(str) != FAILED {
      SlotMatches(str);
    }
  }
}
