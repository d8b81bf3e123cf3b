/**
 The key lists of ioevt (core/src/at_cmdProc.c:474-521): what the 20-byte buffer keeps of a list,
 which lists are translated whole or not at all, and which codes come out.
 */
module KeyLists {
  import opened Common
  import opened CStrings
  import opened Tokens
  import opened KeyMap
  import opened Commands
  import Modes

  /** A key list is translated exactly when every key in it is known, and then key by key, in order. */
  lemma {:induction false} TranslatesAllOrNothing(tokens: seq<string>)
    ensures Translate(tokens).Some? <==> forall t :: t in tokens ==> SlotOf(t) != FAILED
    ensures Translate(tokens).Some? ==>
      && |Translate(tokens).value| == |tokens|
      && forall i :: 0 <= i < |tokens| ==> Translate(tokens).value[i] == KeyAt(SlotOf(tokens[i])).code
  {
    hide SlotOf, KeyAt;
    if tokens != [] {
      TranslatesAllOrNothing(tokens[1..]);
      assert tokens == [tokens[0]] + tokens[1..];
    }
  }

  /** However long the list, at most ten keys come out of the 20-byte buffer: one for each message row. */
  lemma KeysFit(arg: string)
    ensures |KeyTokens(arg)| <= MAX_IOEVT
    ensures KeyTokens(arg) == Split(Truncate(arg, 2 * MAX_IOEVT), ',')
  {
    AtMostHalf(Truncate(arg, 2 * MAX_IOEVT), ',');
  }

  /** The list fits into the buffer with its NUL, or only commas are cut off. */
  predicate ListFits(arg: string)
  {
    |arg| < 2 * MAX_IOEVT || forall i :: 2 * MAX_IOEVT - 1 <= i < |arg| ==> arg[i] == ','
  }

  /** ioevt reads a key list as it was typed exactly when it fits. */
  lemma KeysAsTyped(arg: string)
    ensures KeyTokens(arg) == Split(arg, ',') <==> ListFits(arg)
  {
    KeysFit(arg);
    if |arg| >= 2 * MAX_IOEVT {
      CutShort(arg, 2 * MAX_IOEVT - 1, ',');
    }
  }

  /** A key behind a list of 19 characters is not read: an unknown one goes unnoticed. */
  lemma LastKeyIsLost(list: string, last: string)
    requires |list| == 2 * MAX_IOEVT - 1 && IsToken(last, ',')
    ensures Split(list + "," + last, ',') == Split(list, ',') + [last]
    ensures KeyTokens(list + "," + last) == Split(list, ',')
  {
    var arg := list + "," + last;
    assert arg == list + ("," + last) && arg[..|list|] == list;
    SplitAppend(list, "," + last, ',');
    assert ("," + last)[1..] == last;
    SplitHead(last, "", ',');
    assert last + "" == last;
    KeysFit(arg);
  }

  /** A key that stands across the cut is read as its beginning: here 49, the key 1, is read as the key 4. */
  lemma LastKeyIsCut(list: string, codes: seq<string>)
    requires |list| == 2 * MAX_IOEVT - 2 && list[|list| - 1] == ','
    requires Translate(Split(list, ',')) == Some(codes)
    ensures Translate(Split(list + "49", ',')) == Some(codes + [KeyAt(SlotOf("1")).code])
    ensures Translate(KeyTokens(list + "49")) == Some(codes + [KeyAt(SlotOf("4")).code])
  {
    hide Split, Translate, KeyTokens;
    var arg := list + "49";
    assert arg[..2 * MAX_IOEVT - 1] == list + "4";
    KeysFit(arg);
    SameKey();
    hide KeyAt, SlotOf;
    EndsInKey(list, "49");
    EndsInKey(list, "4");
    OneMoreKey(Split(list, ','), codes, "49");
    OneMoreKey(Split(list, ','), codes, "4");
  }

  lemma SameKey()
    ensures SlotOf("49") == SlotOf("1") != FAILED && SlotOf("4") != FAILED && SlotOf("4") != SlotOf("1")
  {
  }

  lemma EndsInKey(list: string, key: string)
    requires list == "" || list[|list| - 1] == ','
    requires IsToken(key, ',')
    ensures Split(list + key, ',') == Split(list, ',') + [key]
  {
    hide Split;
    OneField(key);
    if list == "" {
      assert list + key == key;
      OneField("");
    } else {
      var a := list[..|list| - 1];
      assert a + [','] == list && a + ([','] + key) == list + key;
      SplitAppend(a, [','] + key, ',');
      SkipOne(key, ',');
      CommaBehind(a);
    }
  }

  lemma OneField(key: string)
    requires ',' !in key
    ensures Split(key, ',') == if key == "" then [] else [key]
  {
    if key != "" {
      SplitHead(key, "", ',');
      assert key + "" == key;
    }
  }

  /** A comma at the end of a list makes no difference. */
  lemma CommaBehind(list: string)
    ensures Split(list + [','], ',') == Split(list, ',')
  {
    hide Split;
    SplitAppend(list, [','], ',');
    SkipOne("", ',');
    OneField("");
    assert [','] + "" == [','];
    assert Split(list, ',') + [] == Split(list, ',');
  }

  lemma {:induction false} OneMoreKey(tokens: seq<string>, codes: seq<string>, key: string)
    requires Translate(tokens) == Some(codes) && SlotOf(key) != FAILED
    ensures Translate(tokens + [key]) == Some(codes + [KeyAt(SlotOf(key)).code])
    decreases tokens
  {
    hide SlotOf, KeyAt;
    var code := KeyAt(SlotOf(key)).code;
    if tokens == [] {
      assert tokens + [key] == [key] && [key][1..] == [];
      assert Translate([key][1..]) == Some([]);
      assert codes + [code] == [code] == [code] + [];
    } else {
      assert (tokens + [key])[1..] == tokens[1..] + [key];
      OneMoreKey(tokens[1..], Translate(tokens[1..]).value, key);
      assert codes + [code] == [codes[0]] + (codes[1..] + [code]);
    }
  }

  /** So behind any list of 19 characters an unknown key goes unnoticed, and the message is sent. */
  lemma UnknownKeyIsSent(argv: seq<string>, sendId: int, list: string, codes: seq<string>)
    requires |argv| == 4 && argv[3] == KEY_PRESS && ClientOk(argv[1]) && sendId != ERROR && argv[0] == "ioevt"
    requires |list| == 2 * MAX_IOEVT - 1 && Translate(Split(list, ',')) == Some(codes)
    requires argv[2] == list + "," + "zz"
    ensures "zz" in Split(argv[2], ',') && SlotOf("zz") == FAILED
    ensures IoevtMsg(argv, sendId) == Some(Msg(Atoi(argv[1]), "ioevt", Keys(codes, KEY_PRESS)))
  {
    hide Split, KeyTokens, ClientOk, Translate, Atoi, IsToken, SlotOf;
    ZzIsNoKey();
    LastKeyIsLost(list, "zz");
    assert (Split(list, ',') + ["zz"])[|Split(list, ',')|] == "zz";
    SendsCodes(argv, sendId, codes);
  }

  lemma ZzIsNoKey()
    ensures SlotOf("zz") == FAILED && IsToken("zz", ',')
  {
  }

  lemma SendsCodes(argv: seq<string>, sendId: int, codes: seq<string>)
    requires |argv| == 4 && argv[3] == KEY_PRESS && ClientOk(argv[1]) && sendId != ERROR && argv[0] == "ioevt"
    requires Translate(KeyTokens(argv[2])) == Some(codes)
    ensures IoevtMsg(argv, sendId) == Some(Msg(Atoi(argv[1]), "ioevt", Keys(codes, KEY_PRESS)))
  {
    hide KeyTokens, ClientOk, Translate, Atoi;
  }

  /** There are such lists. */
  lemma AListOfNineteen()
    ensures |"offhook,offhook,101"| == 2 * MAX_IOEVT - 1
    ensures Translate(Split("offhook,offhook,101", ',')).Some?
  {
    hide Translate, Split;
    assert Translate(Split("", ',')).Some? by {
      NothingTranslates();
    }
    KnownKeyBehind("", "offhook");
    assert "" + "offhook" + "," == "offhook,";
    KnownKeyBehind("offhook,", "offhook");
    assert "offhook," + "offhook" + "," == "offhook,offhook,";
    KnownKeyBehind("offhook,offhook,", "101");
    assert "offhook,offhook," + "101" == "offhook,offhook,101";
  }

  lemma NothingTranslates()
    ensures Translate(Split("", ',')) == Some([])
  {
  }

  /** A known key behind a known list makes a known list, with or without another comma. */
  lemma KnownKeyBehind(list: string, key: string)
    requires list == "" || list[|list| - 1] == ','
    requires IsToken(key, ',') && SlotOf(key) != FAILED && Translate(Split(list, ',')).Some?
    ensures Translate(Split(list + key, ',')).Some? && Translate(Split(list + key + ",", ',')).Some?
  {
    hide Split, Translate, SlotOf;
    EndsInKey(list, key);
    OneMoreKey(Split(list, ','), Translate(Split(list, ',')).value, key);
    CommaBehind(list + key);
    assert list + key + "," == list + key + [','];
  }

  // ---- Which lists are sent as typed ----

  /** The cut goes through the list's last key, 53, which the rest of it, 5, names as well. */
  predicate CutsFive(arg: string)
  {
    && |arg| >= 2 * MAX_IOEVT && arg[17] == ',' && arg[18] == '5' && arg[19] == '3'
    && forall i :: 2 * MAX_IOEVT <= i < |arg| ==> arg[i] == ','
  }

  predicate HasUnknown(keys: seq<string>)
  {
    exists t :: t in keys && SlotOf(t) == FAILED
  }

  /**
   Whether a list fits or not, it is encoded as if all of it were read exactly when it fits, or
   has an unknown key both in what is read and in all of it, or the cut makes a 5 of a last 53.
   */
  lemma SentAsTyped(arg: string)
    ensures Translate(KeyTokens(arg)) == Translate(Split(arg, ',')) <==>
      ListFits(arg) || CutsFive(arg) || (HasUnknown(KeyTokens(arg)) && HasUnknown(Split(arg, ',')))
  {
    hide Split, Translate, KeyTokens, SlotOf;
    KeysAsTyped(arg);
    TranslatesAllOrNothing(KeyTokens(arg));
    TranslatesAllOrNothing(Split(arg, ','));
    if !ListFits(arg) {
      if arg[18] == ',' || arg[19] == ',' {
        CutBetweenKeys(arg);
      } else {
        CutThroughKey(arg);
      }
    }
  }

  lemma {:induction false} TranslateAppend(a: seq<string>, b: seq<string>)
    ensures Translate(a + b) ==
      if Translate(a).Some? && Translate(b).Some? then Some(Translate(a).value + Translate(b).value) else None
    decreases a
  {
    hide SlotOf, KeyAt;
    if a == [] {
      assert a + b == b;
      assert Translate(b).Some? ==> [] + Translate(b).value == Translate(b).value;
    } else {
      assert (a + b)[1..] == a[1..] + b;
      TranslateAppend(a[1..], b);
      if SlotOf(a[0]) != FAILED && Translate(a[1..]).Some? && Translate(b).Some? {
        Regroup([KeyAt(SlotOf(a[0])).code], Translate(a[1..]).value, Translate(b).value);
      }
    }
  }

  /** More keys than were read make a longer message. */
  lemma CutBetweenKeys(arg: string)
    requires !ListFits(arg) && (arg[18] == ',' || arg[19] == ',')
    ensures !CutsFive(arg)
    ensures Translate(KeyTokens(arg)) == Translate(Split(arg, ',')) <==>
      Translate(KeyTokens(arg)).None? && Translate(Split(arg, ',')).None?
  {
    hide Split, Translate, KeyTokens;
    var list, rest := arg[..19], arg[19..];
    assert list + rest == arg;
    KeysFit(arg);
    SplitAtComma(list, rest);
    NoLetters(rest, ',');
    LettersAreInTokens(rest, ',');
    assert exists i :: 0 <= i < |rest| && rest[i] != ',' by {
      var i :| 19 <= i < |arg| && arg[i] != ',';
      assert rest[i - 19] == arg[i];
    }
    assert Split(rest, ',') != [];
    TranslateAppend(Split(list, ','), Split(rest, ','));
    TranslatesAllOrNothing(Split(rest, ','));
  }

  lemma SplitAtComma(list: string, rest: string)
    requires list != "" && rest != "" && (list[|list| - 1] == ',' || rest[0] == ',')
    ensures Split(list + rest, ',') == Split(list, ',') + Split(rest, ',')
  {
    hide Split;
    if rest[0] == ',' {
      SplitAppend(list, rest, ',');
    } else {
      var b := list[..|list| - 1];
      assert b + [','] == list && b + ([','] + rest) == list + rest;
      SplitAppend(b, [','] + rest, ',');
      SkipOne(rest, ',');
      CommaBehind(b);
    }
  }

  /** The key the cut goes through, with what stands before and behind it. */
  lemma CutKey(arg: string) returns (list: string, read: string, key: string, rest: string)
    requires |arg| >= 2 * MAX_IOEVT && arg[18] != ',' && arg[19] != ','
    ensures arg == list + key + rest && |list| + |read| == 19 && |read| < |key| && read == key[..|read|] != ""
    ensures list == "" || list[|list| - 1] == ','
    ensures ',' !in key && (rest == "" || rest[0] == ',')
  {
    var i, j := 18, 20;
    while i > 0 && arg[i - 1] != ','
      invariant 0 <= i <= 18 && forall k :: i <= k < 20 ==> arg[k] != ','
    {
      i := i - 1;
    }
    while j < |arg| && arg[j] != ','
      invariant 20 <= j <= |arg| && forall k :: i <= k < j ==> arg[k] != ','
    {
      j := j + 1;
    }
    list, read, key, rest := arg[..i], arg[i..19], arg[i..j], arg[j..];
  }

  lemma CutThroughKey(arg: string)
    requires !ListFits(arg) && arg[18] != ',' && arg[19] != ','
    ensures Translate(KeyTokens(arg)) == Translate(Split(arg, ',')) <==>
      CutsFive(arg) || (Translate(KeyTokens(arg)).None? && Translate(Split(arg, ',')).None?)
  {
    hide Split, Translate, KeyTokens, CutsFive;
    var list, read, key, rest := CutKey(arg);
    KeysFit(arg);
    assert arg[..19] == list + read;
    assert IsToken(read, ',') && IsToken(key, ',');
    EndsInKey(list, read);
    EndsInKey(list, key);
    SplitAppend(list + key, rest, ',');
    OneKeyMore(Split(list, ','), read, key, Split(rest, ','));
    assert KeyTokens(arg) == Split(list, ',') + [read];
    assert Split(arg, ',') == Split(list, ',') + [key] + Split(rest, ',');
    TranslateAppend(Split(list, ','), [read]);
    TranslateAppend(Split(list, ',') + [key], Split(rest, ','));
    TranslateAppend(Split(list, ','), [key]);
    WhenFive(arg, list, read, key, rest);
  }

  lemma OneKeyMore(keys: seq<string>, read: string, key: string, rest: seq<string>)
    requires |read| < |key| && read == key[..|read|] != ""
    ensures Translate(keys + [read]) == Translate(keys + [key] + rest) <==>
      || (Translate(keys + [read]).None? && Translate(keys + [key] + rest).None?)
      || (Translate(keys).Some? && rest == [] && read == "5" && key == "53")
  {
    hide Translate, KeyAt, SlotOf;
    TranslateAppend(keys, [read]);
    TranslateAppend(keys, [key]);
    TranslateAppend(keys + [key], rest);
    TranslatesAllOrNothing(rest);
    OneCode(read);
    OneCode(key);
    if SlotOf(read) != FAILED && SlotOf(key) != FAILED {
      SameCode(read, key);
    }
    FiveAndFiftyThree();
    if rest == [] && Translate(keys).Some? && Translate([read]).Some? && Translate([key]).Some? {
      var codes := Translate(keys).value;
      assert codes + [KeyAt(SlotOf(key)).code] + [] == codes + [KeyAt(SlotOf(key)).code];
      assert (codes + [KeyAt(SlotOf(read)).code])[|codes|] == KeyAt(SlotOf(read)).code;
      assert (codes + [KeyAt(SlotOf(key)).code])[|codes|] == KeyAt(SlotOf(key)).code;
    }
  }

  lemma OneCode(key: string)
    ensures Translate([key]) == if SlotOf(key) == FAILED then None else Some([KeyAt(SlotOf(key)).code])
  {
    hide SlotOf, KeyAt;
    assert [key][1..] == [];
    assert Translate([key][1..]) == Some([]);
    if SlotOf(key) != FAILED {
      assert [KeyAt(SlotOf(key)).code] + [] == [KeyAt(SlotOf(key)).code];
    }
  }

  lemma FiveAndFiftyThree()
    ensures SlotOf("5") == SlotOf("53") != FAILED
  {
  }

  /** No key's name is the beginning of its code, or the other way round, but for 5 and 53. */
  lemma SameCode(read: string, key: string)
    requires |read| < |key| && read == key[..|read|] != "" && SlotOf(read) != FAILED && SlotOf(key) != FAILED
    ensures KeyAt(SlotOf(read)).code == KeyAt(SlotOf(key)).code <==> read == "5" && key == "53"
  {
    FiveAndFiftyThree();
    CodeOfKnownKey(read);
    CodeOfKnownKey(key);
    SlotMatches(read);
    SlotMatches(key);
    if KeyAt(SlotOf(read)).code == KeyAt(SlotOf(key)).code {
      hide SlotOf;
      OneBeginsOther(SlotOf(read), read, key);
    }
  }

  lemma OneBeginsOther(i: nat, read: string, key: string)
    requires Matches(i, read) && Matches(i, key) && |read| < |key| && read == key[..|read|] && Populated(i)
    requires read != ""
    ensures read == "5" && key == "53"
  {
    var k := KeyAt(i);
    assert (read == k.name && key == k.code) || (read == k.code && key == k.name);
    assert read[0] == key[0];
    if i < 25 {
      LowFirsts(i);
    } else {
      HighFirsts(i);
    }
  }

  lemma LowFirsts(i: nat)
    requires Populated(i) && i < 25
    ensures KeyAt(i).name != "" && KeyAt(i).name[0] != KeyAt(i).code[0]
  {
  }

  lemma HighFirsts(i: nat)
    requires Populated(i) && i >= 25
    ensures KeyAt(i).name != "" && (KeyAt(i).name[0] == KeyAt(i).code[0] ==> KeyAt(i) == Key("5", "53"))
  {
  }

  lemma WhenFive(arg: string, list: string, read: string, key: string, rest: string)
    requires |arg| >= 2 * MAX_IOEVT && arg == list + key + rest && |list| + |read| == 19
    requires |read| < |key| && read == key[..|read|] && (list == "" || list[|list| - 1] == ',')
    requires ',' !in key && (rest == "" || rest[0] == ',')
    ensures CutsFive(arg) <==> Split(rest, ',') == [] && read == "5" && key == "53"
  {
    hide Split;
    NoLetters(rest, ',');
    LettersAreInTokens(rest, ',');
    assert forall i :: 0 <= i < |key| ==> arg[|list| + i] == key[i];
    assert forall i :: 0 <= i < |rest| ==> arg[|list| + |key| + i] == rest[i];
    if CutsFive(arg) {
      assert |list| == 18;
      assert key[|key| - 1] == arg[|list| + |key| - 1];
      assert |key| == 2;
      assert key == "53" && read == "5";
      assert forall i :: 0 <= i < |rest| ==> rest[i] == ',';
    }
    if Split(rest, ',') == [] && read == "5" && key == "53" {
      assert |list| == 18 && forall i :: 0 <= i < 18 ==> arg[i] == list[i];
      assert forall i :: 20 <= i < |arg| ==> arg[i] == rest[i - 20];
      assert arg[18] == key[0] && arg[19] == key[1];
      assert Letters(rest, ',') == 0;
    }
  }

  lemma KeyTokensAreTokens(arg: string)
    ensures forall t :: t in KeyTokens(arg) ==> IsToken(t, ',')
  {
  }

  ghost predicate KeyTextOk(k: Key)
  {
    && IsToken(k.name, ' ') && IsToken(k.name, ',') && IsToken(k.code, ',')
    && |k.name| <= 7 && |k.code| < MAX_KEY_LENGTH && '%' !in k.name && NUL !in k.name
  }

  lemma LowKeyTexts(i: nat)
    requires Populated(i) && i < 25
    ensures KeyTextOk(KeyAt(i))
  {
  }

  lemma MidKeyTexts(i: nat)
    requires Populated(i) && 25 <= i < 43
    ensures KeyTextOk(KeyAt(i))
  {
  }

  lemma UpperKeyTexts(i: nat)
    requires Populated(i) && 43 <= i < 53
    ensures KeyTextOk(KeyAt(i))
  {
  }

  lemma HighKeyTexts(i: nat)
    requires Populated(i) && i >= 53
    ensures KeyTextOk(KeyAt(i))
  {
  }

  /** The names and codes of keys are tokens, whichever the delimiter. */
  lemma KeyTexts(i: nat)
    requires Populated(i)
    ensures KeyTextOk(KeyAt(i))
  {
    hide KeyTextOk, KeyAt;
    if i < 25 {
      LowKeyTexts(i);
    } else if i < 43 {
      MidKeyTexts(i);
    } else if i < 53 {
      UpperKeyTexts(i);
    } else {
      HighKeyTexts(i);
    }
  }

  function CommaGaps(n: nat): (gaps: seq<nat>)
    ensures |gaps| == n + 1
  {
    seq(n + 1, i => if 0 < i < n then 1 else 0)
  }

  /** A list of codes as it would be typed. */
  function CodeList(codes: seq<string>): string
  {
    Join(codes, CommaGaps(|codes|), ',')
  }

  /** The codes of a message, typed as a key list that fits the buffer, give the same codes again. */
  lemma ReEncode(tokens: seq<string>, codes: seq<string>)
    requires Translate(tokens) == Some(codes) && |CodeList(codes)| < 2 * MAX_IOEVT
    ensures Translate(KeyTokens(CodeList(codes))) == Some(codes)
  {
    TranslatesAllOrNothing(tokens);
    forall i | 0 <= i < |codes| ensures IsToken(codes[i], ',') && SlotOf(codes[i]) == SlotOf(tokens[i]) {
      CodeOfKnownKey(tokens[i]);
    }
    SplitJoin(codes, CommaGaps(|codes|), ',');
    KeysFit(CodeList(codes));
    TranslatesAllOrNothing(codes);
    hide SlotOf, KeyAt;
    assert Translate(codes).value == codes;
  }

  lemma CodeOfKnownKey(t: string)
    requires SlotOf(t) != FAILED
    ensures SlotOf(t) >= 0
    ensures var code := KeyAt(SlotOf(t)).code; IsToken(code, ',') && SlotOf(code) == SlotOf(t)
  {
    SlotMatches(t);
    MatchIsUnique(SlotOf(t), t);
    KeyTexts(SlotOf(t));
    MatchIsUnique(SlotOf(t), KeyAt(SlotOf(t)).code);
  }

  /** A known key's slot is in the table, and its code fits into a message row. */
  lemma RowHoldsCode(t: string)
    requires SlotOf(t) != FAILED
    ensures 0 <= SlotOf(t) < MAX_KEY_NUM
    ensures Truncate(KeyAt(SlotOf(t)).code, MAX_KEY_LENGTH) == KeyAt(SlotOf(t)).code
  {
    SlotMatches(t);
    MatchIsUnique(SlotOf(t), t);
    KeyTexts(SlotOf(t));
  }

  /**
   With a key list that fits, ioevt queues nothing when any key typed is unknown, and otherwise
   one message whose rows are the codes of all keys typed, in order.
   */
  lemma IoevtIsAllOrNothing(argv: seq<string>, sendId: int)
    requires |argv| == 4 && (argv[3] == KEY_PRESS || argv[3] == KEY_LONG_PRESS)
    requires ClientOk(argv[1]) && sendId != ERROR && (argv[0] == "ioevt" || argv[0] == "ie")
    requires ListFits(argv[2])
    ensures var keys := Split(argv[2], ',');
      && (IoevtMsg(argv, sendId).Some? <==> forall t :: t in keys ==> SlotOf(t) != FAILED)
      && (IoevtMsg(argv, sendId).Some? ==>
            var m := IoevtMsg(argv, sendId).value;
            && m.clientNum == Atoi(argv[1]) && m.cmdCode == "ioevt" && m.body.Keys? && m.body.action == argv[3]
            && |m.body.codes| == |keys| <= MAX_IOEVT
            && forall i :: 0 <= i < |keys| ==> m.body.codes[i] == KeyAt(SlotOf(keys[i])).code)
  {
    KeysAsTyped(argv[2]);
    hide KeyTokens, Translate, KeyAt, SlotOf, ClientOk, ListFits, Split;
    IoevtSendsWhatItReads(argv, sendId);
  }

  /** Whatever was typed, that is so for the keys in the first 19 characters. */
  lemma IoevtSendsWhatItReads(argv: seq<string>, sendId: int)
    requires |argv| == 4 && (argv[3] == KEY_PRESS || argv[3] == KEY_LONG_PRESS)
    requires ClientOk(argv[1]) && sendId != ERROR && (argv[0] == "ioevt" || argv[0] == "ie")
    ensures IoevtMsg(argv, sendId).Some? <==> forall t :: t in KeyTokens(argv[2]) ==> SlotOf(t) != FAILED
    ensures IoevtMsg(argv, sendId).Some? ==>
      var m := IoevtMsg(argv, sendId).value;
      && m.clientNum == Atoi(argv[1]) && m.cmdCode == "ioevt" && m.body.Keys? && m.body.action == argv[3]
      && |m.body.codes| == |KeyTokens(argv[2])| <= MAX_IOEVT
      && forall i :: 0 <= i < |m.body.codes| ==> m.body.codes[i] == KeyAt(SlotOf(KeyTokens(argv[2])[i])).code
  {
    hide KeyTokens, Translate, KeyAt, SlotOf, ClientOk;
    TranslatesAllOrNothing(KeyTokens(argv[2]));
    KeysFit(argv[2]);
  }
}
