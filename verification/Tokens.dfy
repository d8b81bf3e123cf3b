/**
 getTokens (core/src/at_cmdProc.c:252-267): strtok runs in place over one static buffer, and
 the tokens are returned as pointers into it.  Here a pointer is an offset into that buffer,
 so a later call that rewrites the buffer changes what every older pointer reads.
 */
module Tokens {
  import opened CStrings

  const MAX_TOKEN: nat := 15
  const MAX_SC_CONTENT: nat := 256

  // ---- The pure split ----

  predicate IsToken(t: string, d: char)
  {
    t != "" && d !in t
  }

  /** The non-empty fields of s between delimiters. */
  function Split(s: string, d: char): (ts: seq<string>)
    ensures forall t :: t in ts ==> IsToken(t, d)
  {
    if s == "" then []
    else if s[0] == d then Split(s[1..], d)
    else
      var n := FirstIndex(s, d);
      [s[..n]] + Split(s[n..], d)
  }

  /** Where the fields of s start, when s itself stands at offset `base`. */
  function Starts(s: string, d: char, base: nat): (ps: seq<int>)
    ensures |ps| == |Split(s, d)|
    ensures forall i :: 0 <= i < |ps| ==> base <= ps[i] < base + |s|
  {
    if s == "" then []
    else if s[0] == d then Starts(s[1..], d, base + 1)
    else
      var n := FirstIndex(s, d);
      [base] + Starts(s[n..], d, base + n)
  }

  lemma SplitHead(t: string, r: string, d: char)
    requires IsToken(t, d) && (r == "" || r[0] == d)
    ensures Split(t + r, d) == [t] + Split(r, d)
  {
    FirstIndexIs(t + r, d, |t|);
    assert (t + r)[..|t|] == t && (t + r)[|t|..] == r;
  }

  lemma StartsHead(t: string, r: string, d: char, base: nat)
    requires IsToken(t, d) && (r == "" || r[0] == d)
    ensures Starts(t + r, d, base) == [base] + Starts(r, d, base + |t|)
  {
    FirstIndexIs(t + r, d, |t|);
    assert (t + r)[|t|..] == r;
  }

  function Run(d: char, n: nat): (s: string)
    ensures |s| == n && forall i :: 0 <= i < n ==> s[i] == d
  {
    seq(n, _ => d)
  }

  lemma {:induction false} SplitRun(d: char, n: nat, r: string)
    ensures Split(Run(d, n) + r, d) == Split(r, d)
  {
    if n == 0 {
      assert Run(d, n) + r == r;
    } else {
      SplitRun(d, n - 1, r);
      assert (Run(d, n) + r)[1..] == Run(d, n - 1) + r;
    }
  }

  lemma SkipOne(r: string, d: char)
    ensures Split([d] + r, d) == Split(r, d)
  {
    assert ([d] + r)[1..] == r;
  }

  /** A text may be split in two in front of a delimiter. */
  lemma {:induction false} SplitAppend(a: string, r: string, d: char)
    requires r == "" || r[0] == d
    ensures Split(a + r, d) == Split(a, d) + Split(r, d)
    decreases |a|
  {
    if a == "" {
      assert a + r == r;
    } else if a[0] == d {
      SplitAppend(a[1..], r, d);
      assert (a + r)[1..] == a[1..] + r;
    } else {
      var n := FirstIndex(a, d);
      SplitAppend(a[n..], r, d);
      assert a + r == a[..n] + (a[n..] + r);
      SplitHead(a[..n], a[n..] + r, d);
      Regroup([a[..n]], Split(a[n..], d), Split(r, d));
    }
  }

  /** The characters of s that are not delimiters. */
  function Letters(s: string, d: char): nat
  {
    if s == "" then 0 else (if s[0] == d then 0 else 1) + Letters(s[1..], d)
  }

  function TotalLength(ts: seq<string>): nat
  {
    if ts == [] then 0 else |ts[0]| + TotalLength(ts[1..])
  }

  lemma {:induction false} LettersAppend(a: string, b: string, d: char)
    ensures Letters(a + b, d) == Letters(a, d) + Letters(b, d)
  {
    if a == "" {
      assert a + b == b;
    } else {
      LettersAppend(a[1..], b, d);
      assert (a + b)[1..] == a[1..] + b;
    }
  }

  lemma {:induction false} NoDelimiter(t: string, d: char)
    requires d !in t
    ensures Letters(t, d) == |t|
  {
    if t != "" {
      NoDelimiter(t[1..], d);
    }
  }

  /** The tokens hold every character that is not a delimiter. */
  lemma {:induction false} LettersAreInTokens(s: string, d: char)
    ensures TotalLength(Split(s, d)) == Letters(s, d)
    decreases |s|
  {
    if s == "" {
    } else if s[0] == d {
      LettersAreInTokens(s[1..], d);
    } else {
      var n := FirstIndex(s, d);
      LettersAreInTokens(s[n..], d);
      NoDelimiter(s[..n], d);
      assert s[..n] + s[n..] == s;
      LettersAppend(s[..n], s[n..], d);
      assert Split(s, d)[1..] == Split(s[n..], d);
    }
  }

  lemma {:induction false} NoLetters(s: string, d: char)
    ensures Letters(s, d) == 0 <==> forall i :: 0 <= i < |s| ==> s[i] == d
    ensures Letters(s, d) == 0 ==> Split(s, d) == []
  {
    if s != "" {
      NoLetters(s[1..], d);
      assert s == [s[0]] + s[1..];
    }
  }

  /** Cutting a text short leaves its tokens as they are exactly when only delimiters are cut off. */
  lemma CutShort(s: string, n: nat, d: char)
    requires n <= |s|
    ensures Split(s[..n], d) == Split(s, d) <==> forall i :: n <= i < |s| ==> s[i] == d
  {
    var a, r := s[..n], s[n..];
    assert a + r == s;
    LettersAppend(a, r, d);
    LettersAreInTokens(a, d);
    LettersAreInTokens(s, d);
    NoLetters(r, d);
    assert (forall i :: 0 <= i < |r| ==> r[i] == d) <==> (forall i :: n <= i < |s| ==> s[i] == d) by {
      assert forall i :: n <= i < |s| ==> s[i] == r[i - n];
    }
    if Letters(r, d) == 0 {
      SplitAppend(a, r, d);
    }
  }

  /** gaps[i] delimiters stand before token i, and the last gap closes the text. */
  predicate GapsOk(gaps: seq<nat>, ts: seq<string>)
  {
    |gaps| == |ts| + 1 && forall i :: 0 < i < |ts| ==> gaps[i] >= 1
  }

  function Join(ts: seq<string>, gaps: seq<nat>, d: char): string
    requires |gaps| == |ts| + 1
  {
    if ts == [] then Run(d, gaps[0])
    else Run(d, gaps[0]) + (ts[0] + Join(ts[1..], gaps[1..], d))
  }

  /** Tokenizing any join of tokens with arbitrary runs of delimiters returns those tokens. */
  lemma {:induction false} SplitJoin(ts: seq<string>, gaps: seq<nat>, d: char)
    requires GapsOk(gaps, ts) && forall t :: t in ts ==> IsToken(t, d)
    ensures Split(Join(ts, gaps, d), d) == ts
  {
    if ts == [] {
      SplitRun(d, gaps[0], "");
      assert Run(d, gaps[0]) + "" == Run(d, gaps[0]);
    } else {
      var rest := Join(ts[1..], gaps[1..], d);
      SplitJoin(ts[1..], gaps[1..], d);
      SplitRun(d, gaps[0], ts[0] + rest);
      SplitHead(ts[0], rest, d);
    }
  }

  /** The delimiter runs of s. */
  function Gaps(s: string, d: char): (gaps: seq<nat>)
    ensures |gaps| == |Split(s, d)| + 1
  {
    if s == "" then [0]
    else if s[0] == d then
      var g := Gaps(s[1..], d);
      g[0 := g[0] + 1]
    else [0] + Gaps(s[FirstIndex(s, d)..], d)
  }

  lemma OneMoreDelimiter(ts: seq<string>, gaps: seq<nat>, d: char)
    requires |gaps| == |ts| + 1
    ensures Join(ts, gaps[0 := gaps[0] + 1], d) == [d] + Join(ts, gaps, d)
  {
    var more := gaps[0 := gaps[0] + 1];
    assert more[1..] == gaps[1..];
    assert Run(d, gaps[0] + 1) == [d] + Run(d, gaps[0]);
    if ts != [] {
      Regroup([d], Run(d, gaps[0]), ts[0] + Join(ts[1..], gaps[1..], d));
    }
  }

  lemma OneMoreToken(t: string, ts: seq<string>, gaps: seq<nat>, d: char)
    requires |gaps| == |ts| + 1
    ensures Join([t] + ts, [0] + gaps, d) == t + Join(ts, gaps, d)
  {
    assert ([t] + ts)[1..] == ts && ([0] + gaps)[1..] == gaps;
    assert Run(d, 0) == "";
  }

  /** Every text is the join of its tokens: Split loses the delimiter runs and nothing else. */
  lemma {:induction false} JoinSplit(s: string, d: char)
    ensures GapsOk(Gaps(s, d), Split(s, d))
    ensures Join(Split(s, d), Gaps(s, d), d) == s
    ensures s != "" && s[0] == d ==> Gaps(s, d)[0] > 0
    decreases |s|
  {
    hide Join;
    if s == "" {
      EmptyJoin(d);
    } else if s[0] == d {
      JoinSplit(s[1..], d);
      OneMoreDelimiter(Split(s[1..], d), Gaps(s[1..], d), d);
    } else {
      var n := FirstIndex(s, d);
      JoinSplit(s[n..], d);
      assert s[..n] + s[n..] == s;
      OneMoreToken(s[..n], Split(s[n..], d), Gaps(s[n..], d), d);
    }
  }

  lemma EmptyJoin(d: char)
    ensures Join([], [0], d) == ""
  {
  }

  /** Two tokens need a delimiter between them. */
  lemma {:induction false} AtMostHalf(s: string, d: char)
    ensures 2 * |Split(s, d)| <= |s| + 1
    ensures s != "" && s[0] == d ==> 2 * |Split(s, d)| <= |s|
    decreases |s|
  {
    if s == "" {
    } else if s[0] == d {
      AtMostHalf(s[1..], d);
    } else {
      AtMostHalf(s[FirstIndex(s, d)..], d);
    }
  }

  /** What getTokens hands out for line: the first 15 tokens of the first 255 characters. */
  function Fields(line: string, d: char): seq<string>
  {
    var ts := Split(Truncate(line, MAX_SC_CONTENT), d);
    if |ts| <= MAX_TOKEN then ts else ts[..MAX_TOKEN]
  }

  /** In numbers: of tokens joined in a line of up to 255 characters, the first 15. */
  lemma FirstFifteen(ts: seq<string>, gaps: seq<nat>, d: char)
    requires GapsOk(gaps, ts) && (forall t :: t in ts ==> IsToken(t, d)) && |Join(ts, gaps, d)| <= 255
    ensures |ts| <= 15 ==> Fields(Join(ts, gaps, d), d) == ts
    ensures |ts| > 15 ==> Fields(Join(ts, gaps, d), d) == ts[..15]
  {
    SplitJoin(ts, gaps, d);
    hide Split, Join;
  }

  /** And of a longer line, those of its first 255 characters. */
  lemma First255(line: string, d: char)
    requires |line| > 255
    ensures Fields(line, d) == Fields(line[..255], d)
  {
  }

  /** The offsets of those tokens. */
  function FieldStarts(line: string, d: char): (ps: seq<int>)
    ensures |ps| == |Fields(line, d)|
    ensures |ps| <= MAX_TOKEN && forall i :: 0 <= i < |ps| ==> 0 <= ps[i] < MAX_SC_CONTENT
  {
    var ps := Starts(Truncate(line, MAX_SC_CONTENT), d, 0);
    if |ps| <= MAX_TOKEN then ps else ps[..MAX_TOKEN]
  }

  /** `got` has been taken from the tokens of the line, at `offsets`, and `left` at `leftAt` has not. */
  ghost predicate Shared(line: string, d: char, offsets: seq<int>, got: seq<string>, leftAt: seq<int>,
                         left: seq<string>)
  {
    && |offsets| == |got|
    && Split(Truncate(line, MAX_SC_CONTENT), d) == got + left
    && Starts(Truncate(line, MAX_SC_CONTENT), d, 0) == offsets + leftAt
  }

  lemma Move(line: string, d: char, offsets: seq<int>, got: seq<string>, t: int, tok: string, leftAt: seq<int>,
             left: seq<string>)
    requires Shared(line, d, offsets, got, [t] + leftAt, [tok] + left)
    ensures Shared(line, d, offsets + [t], got + [tok], leftAt, left)
    ensures |got| < MAX_TOKEN ==> |got| < |Fields(line, d)|
  {
    Regroup(got, [tok], left);
    Regroup(offsets, [t], leftAt);
  }

  lemma FieldsAre(line: string, d: char, offsets: seq<int>, got: seq<string>, leftAt: seq<int>, left: seq<string>)
    requires Shared(line, d, offsets, got, leftAt, left) && |got| <= MAX_TOKEN
    requires left == [] || |got| == MAX_TOKEN
    ensures Fields(line, d) == got && FieldStarts(line, d) == offsets
    ensures left != [] ==> |Split(Truncate(line, MAX_SC_CONTENT), d)| > MAX_TOKEN
  {
  }

  lemma {:induction false} SplitKeepsOut(s: string, d: char, c: char)
    requires c !in s
    ensures forall t :: t in Split(s, d) ==> c !in t
    decreases |s|
  {
    if s != "" && s[0] == d {
      SplitKeepsOut(s[1..], d, c);
    } else if s != "" {
      SplitKeepsOut(s[FirstIndex(s, d)..], d, c);
    }
  }

  /** A character that is not in the line is in none of its tokens. */
  lemma FieldsKeepOut(line: string, d: char, c: char)
    requires c !in line
    ensures forall t :: t in Fields(line, d) ==> c !in t
  {
    SplitKeepsOut(Truncate(line, MAX_SC_CONTENT), d, c);
  }

  // ---- Strings inside a buffer ----

  lemma StringAtEnd(b: seq<char>, i: nat)
    requires i < |b| && b[i] == NUL
    ensures StringAt(b, i) == ""
  {
  }

  lemma StringAtIs(b: seq<char>, i: nat, j: nat)
    requires i <= j < |b| && b[j] == NUL && NUL !in b[i..j]
    ensures StringAt(b, i) == b[i..j]
  {
    forall k | 0 <= k < j - i ensures b[i..][k] != NUL {
      assert b[i..][k] == b[i..j][k];
    }
    FirstIndexIs(b[i..], NUL, j - i);
  }

  lemma StringAtSplits(b: seq<char>, i: nat, j: nat)
    requires i <= j <= |b| && NUL !in b[i..j]
    ensures StringAt(b, i) == b[i..j] + StringAt(b, j)
    decreases j - i
  {
    if i == j {
      assert b[i..j] == "";
    } else {
      assert b[i] == b[i..j][0];
      assert b[i + 1..j] == b[i..j][1..];
      StringAtSplits(b, i + 1, j);
      assert b[i..][1..] == b[i + 1..];
      assert StringAt(b, i) == [b[i]] + StringAt(b, i + 1);
      assert b[i..j] == [b[i]] + b[i + 1..j];
    }
  }

  lemma SkipDelimiter(b: seq<char>, i: nat, d: char)
    requires i < |b| && b[i] == d && d != NUL
    ensures Split(StringAt(b, i), d) == Split(StringAt(b, i + 1), d)
    ensures Starts(StringAt(b, i), d, i) == Starts(StringAt(b, i + 1), d, i + 1)
  {
    StringAtSplits(b, i, i + 1);
    assert StringAt(b, i)[1..] == StringAt(b, i + 1);
  }

  lemma TakeToken(b: seq<char>, i: nat, j: nat, d: char)
    requires i < j < |b| && NUL !in b[i..j] && d !in b[i..j] && d != NUL
    requires b[j] == NUL || b[j] == d
    ensures Split(StringAt(b, i), d) == [b[i..j]] + Split(StringAt(b, j), d)
    ensures Starts(StringAt(b, i), d, i) == [i] + Starts(StringAt(b, j), d, j)
  {
    StringAtSplits(b, i, j);
    SplitHead(b[i..j], StringAt(b, j), d);
    StartsHead(b[i..j], StringAt(b, j), d, i);
  }

  lemma {:induction false} SkipDelimiters(b: seq<char>, i: nat, j: nat, d: char)
    requires i <= j <= |b| && d != NUL && forall k :: i <= k < j ==> b[k] == d
    ensures Split(StringAt(b, i), d) == Split(StringAt(b, j), d)
    ensures Starts(StringAt(b, i), d, i) == Starts(StringAt(b, j), d, j)
    decreases j - i
  {
    if i < j {
      SkipDelimiter(b, i, d);
      SkipDelimiters(b, i + 1, j, d);
    }
  }

  /** One token and the delimiter that closes it, if any. */
  lemma TakeField(b: seq<char>, from: nat, i: nat, j: nat, d: char)
    requires from <= i < j < |b| && d != NUL && forall k :: from <= k < i ==> b[k] == d
    requires forall k :: i <= k < j ==> b[k] != d && b[k] != NUL
    requires b[j] == NUL || b[j] == d
    ensures var rest := if b[j] == NUL then j else j + 1;
      && Split(StringAt(b, from), d) == [b[i..j]] + Split(StringAt(b, rest), d)
      && Starts(StringAt(b, from), d, from) == [i] + Starts(StringAt(b, rest), d, rest)
  {
    SkipDelimiters(b, from, i, d);
    TakeToken(b, i, j, d);
    if b[j] == d {
      SkipDelimiter(b, j, d);
    }
  }

  /** Only delimiters are left. */
  lemma NoMoreFields(b: seq<char>, from: nat, j: nat, d: char)
    requires from <= j < |b| && d != NUL && b[j] == NUL && forall k :: from <= k < j ==> b[k] == d
    ensures Split(StringAt(b, from), d) == Split(StringAt(b, j), d) == []
    ensures Starts(StringAt(b, from), d, from) == Starts(StringAt(b, j), d, j) == []
  {
    SkipDelimiters(b, from, j, d);
    StringAtEnd(b, j);
  }

  /** The zero-filled 256-byte buffer after snprintf(tmp, sizeof(tmp), inStr). */
  function Padded(s: string): (b: seq<char>)
    ensures |b| == MAX_SC_CONTENT && b[MAX_SC_CONTENT - 1] == NUL
  {
    var t := Truncate(s, MAX_SC_CONTENT);
    t + Run(NUL, MAX_SC_CONTENT - |t|)
  }

  lemma PaddedText(s: string)
    requires NUL !in s
    ensures StringAt(Padded(s), 0) == Truncate(s, MAX_SC_CONTENT)
  {
    var t := Truncate(s, MAX_SC_CONTENT);
    assert Padded(s)[0..|t|] == t;
    StringAtIs(Padded(s), 0, |t|);
  }

  /** How strtok leaves character k of a text it has worked through: it ends each token. */
  function CutAt(b: seq<char>, d: char, k: nat): char
    requires k < |b|
  {
    if k > 0 && b[k] == d && b[k - 1] != d then NUL else b[k]
  }

  /** The buffer once strtok has worked through all of the text. */
  function Cut(text: string, d: char): (b: seq<char>)
    ensures |b| == MAX_SC_CONTENT
  {
    seq(MAX_SC_CONTENT, k requires 0 <= k < MAX_SC_CONTENT => CutAt(Padded(text), d, k))
  }

  /** Offset p of buffer b points at token tok, closed by a NUL. */
  ghost predicate Holds(b: seq<char>, p: int, tok: string)
  {
    0 <= p && p + |tok| < |b| && b[p..p + |tok|] == tok && b[p + |tok|] == NUL && NUL !in tok
  }

  lemma HoldsReads(b: seq<char>, p: int, tok: string)
    requires Holds(b, p, tok)
    ensures StringAt(b, p) == tok
  {
    StringAtIs(b, p, p + |tok|);
  }

  /** The offsets point, in order and without overlap, at the given tokens before `save`. */
  ghost predicate Taken(b: seq<char>, save: nat, offsets: seq<int>, ts: seq<string>)
    requires |offsets| == |ts|
  {
    && (forall i :: 0 <= i < |ts| ==> Holds(b, offsets[i], ts[i]) && offsets[i] + |ts[i]| <= save)
    && (forall i :: 0 < i < |ts| ==> offsets[i - 1] + |ts[i - 1]| < offsets[i])
  }

  lemma TakenMore(b: seq<char>, save: nat, offsets: seq<int>, ts: seq<string>, t: int, tok: string)
    requires |offsets| == |ts| && Taken(b, save, offsets, ts)
    requires Holds(b, t, tok) && t + |tok| <= save
    requires |ts| > 0 ==> offsets[|ts| - 1] + |ts[|ts| - 1]| < t
    ensures Taken(b, save, offsets + [t], ts + [tok])
  {
  }

  lemma StillTaken(b: seq<char>, save: nat, b': seq<char>, save': nat, offsets: seq<int>, ts: seq<string>)
    requires |offsets| == |ts| && Taken(b, save, offsets, ts)
    requires save <= save' && save < |b| == |b'| && b'[..save] == b[..save]
    requires b[save] == NUL ==> b'[save] == NUL
    ensures Taken(b', save', offsets, ts)
  {
    forall i | 0 <= i < |ts| ensures Holds(b', offsets[i], ts[i]) {
      var p, q := offsets[i], offsets[i] + |ts[i]|;
      assert Holds(b, p, ts[i]);
      assert b'[p..q] == b'[..save][p..q];
      assert b[p..q] == b[..save][p..q];
      if q < save {
        assert b'[q] == b'[..save][q] == b[..save][q];
      }
    }
  }

  /** Buffer b holds the text, with the delimiter after each token overwritten up to `save`. */
  ghost predicate CutTo(b: seq<char>, save: nat, text: string, d: char)
  {
    && |b| == MAX_SC_CONTENT && save < MAX_SC_CONTENT
    && (forall k :: 0 <= k < save ==> b[k] == CutAt(Padded(text), d, k))
    && (forall k :: save <= k < MAX_SC_CONTENT ==> b[k] == Padded(text)[k])
    && (save == 0 || Padded(text)[save - 1] == d || Padded(text)[save] == NUL)
  }

  /** What one strtok call that starts at `from` does to buffer b. */
  ghost predicate StrtokStep(b: seq<char>, from: nat, b': seq<char>, save: nat, d: char, t: int, end: nat)
    requires |b| == MAX_SC_CONTENT
  {
    && from <= save < MAX_SC_CONTENT && end < MAX_SC_CONTENT
    && if t == -1 then
         save == end && b' == b && b[end] == NUL && forall k :: from <= k < end ==> b[k] == d
       else
         && from <= t < end
         && b' == b[end := NUL]
         && (forall k :: from <= k < t ==> b[k] == d)
         && (forall k :: t <= k < end ==> b[k] != d && b[k] != NUL)
         && (if b[end] == NUL then save == end else b[end] == d && save == end + 1)
  }

  /** The tokens of the text not yet taken. */
  ghost function Left(text: string, save: nat, d: char): seq<string>
    requires save < MAX_SC_CONTENT
  {
    Split(StringAt(Padded(text), save), d)
  }

  /** Where they start. */
  ghost function LeftAt(text: string, save: nat, d: char): seq<int>
    requires save < MAX_SC_CONTENT
  {
    Starts(StringAt(Padded(text), save), d, save)
  }

  lemma StepCuts(b: seq<char>, from: nat, b': seq<char>, save: nat, d: char, t: int, end: nat, text: string)
    requires d != NUL && CutTo(b, from, text, d) && StrtokStep(b, from, b', save, d, t, end)
    ensures CutTo(b', save, text, d)
  {
  }

  lemma StepTakes(b: seq<char>, from: nat, b': seq<char>, save: nat, d: char, t: int, end: nat, text: string)
    requires d != NUL && CutTo(b, from, text, d) && StrtokStep(b, from, b', save, d, t, end)
    ensures if t == -1 then
        && Left(text, from, d) == Left(text, save, d) == []
        && LeftAt(text, from, d) == LeftAt(text, save, d) == []
      else
        && Holds(b', t, b'[t..end]) && end <= save
        && Left(text, from, d) == [b'[t..end]] + Left(text, save, d)
        && LeftAt(text, from, d) == [t] + LeftAt(text, save, d)
  {
    hide Split, Starts, StringAt;
    var p := Padded(text);
    if t == -1 {
      NoMoreFields(p, from, end, d);
    } else {
      TakeField(p, from, t, end, d);
      assert b'[t..end] == p[t..end];
    }
  }

  lemma StepKeeps(b: seq<char>, from: nat, b': seq<char>, save: nat, d: char, t: int, end: nat,
                  offsets: seq<int>, ts: seq<string>)
    requires |b| == MAX_SC_CONTENT && StrtokStep(b, from, b', save, d, t, end)
    requires |offsets| == |ts| && Taken(b, from, offsets, ts)
    ensures Taken(b', save, offsets, ts)
    ensures t != -1 && |ts| > 0 ==> offsets[|ts| - 1] + |ts[|ts| - 1]| < t
  {
    assert b'[..from] == b[..from];
    StillTaken(b, from, b', save, offsets, ts);
    if t != -1 && |ts| > 0 {
      var i := |ts| - 1;
      assert Holds(b, offsets[i], ts[i]);
    }
  }

  // ---- What an old pointer can read ----

  predicate EndsWith(s: string, t: string)
  {
    |t| <= |s| && s[|s| - |t|..] == t
  }

  lemma FirstTokenEnd(s: string, i: nat, j: nat, d: char)
    requires i < j <= |s| && d !in s[i..j] && (j == |s| || s[j] == d)
    requires s[0] != d && i < FirstIndex(s, d)
    ensures EndsWith(s[..FirstIndex(s, d)], s[i..j]) && j == FirstIndex(s, d)
  {
    hide FirstIndex;
    var n := FirstIndex(s, d);
    assert forall k :: i <= k < j ==> s[k] == s[i..j][k - i];
    assert j == n;
    assert s[..n][i..] == s[i..j];
  }

  /** Token k of s ends in w, in front of position j. */
  predicate EndsAt(s: string, d: char, base: nat, k: nat, j: int, w: string)
  {
    && k < |Split(s, d)| && EndsWith(Split(s, d)[k], w)
    && Starts(s, d, base)[k] + |Split(s, d)[k]| == base + j
  }

  lemma EndsBehindDelimiter(s: string, d: char, base: nat, k: nat, j: int, w: string)
    requires s != "" && s[0] == d && EndsAt(s[1..], d, base + 1, k, j - 1, w)
    ensures EndsAt(s, d, base, k, j, w)
  {
    hide EndsWith;
  }

  lemma EndsBehindToken(s: string, d: char, base: nat, k: nat, j: int, w: string)
    requires s != "" && s[0] != d
    requires var n := FirstIndex(s, d); EndsAt(s[n..], d, base + n, k, j - n, w)
    ensures EndsAt(s, d, base, k + 1, j, w)
  {
    hide EndsWith, FirstIndex;
  }

  /** Text up to a delimiter or the end is the end of a token. */
  lemma {:induction false} TokenEnd(s: string, i: nat, j: nat, d: char, base: nat) returns (k: nat)
    requires i < j <= |s| && d !in s[i..j] && (j == |s| || s[j] == d)
    ensures EndsAt(s, d, base, k, j, s[i..j])
    decreases |s|
  {
    hide EndsAt, EndsWith, FirstIndex, Split, Starts;
    var n := FirstIndex(s, d);
    if s[0] == d {
      assert s[i] == s[i..j][0];
      Slice(s, 1, i, j);
      k := TokenEnd(s[1..], i - 1, j - 1, d, base + 1);
      EndsBehindDelimiter(s, d, base, k, j, s[i..j]);
    } else if i < n {
      FirstTokenEnd(s, i, j, d);
      FirstEndsAt(s, d, base, s[i..j]);
      k := 0;
    } else {
      Slice(s, n, i, j);
      k := TokenEnd(s[n..], i - n, j - n, d, base + n);
      EndsBehindToken(s, d, base, k, j, s[i..j]);
      k := k + 1;
    }
  }

  lemma FirstEndsAt(s: string, d: char, base: nat, w: string)
    requires s != "" && s[0] != d && EndsWith(s[..FirstIndex(s, d)], w)
    ensures EndsAt(s, d, base, 0, FirstIndex(s, d), w)
  {
    hide EndsWith;
  }

  lemma Slice(s: string, n: nat, i: nat, j: nat)
    requires n <= i <= j <= |s|
    ensures s[n..][i - n..j - n] == s[i..j]
  {
  }

  /** The last characters of the line's token i are w, and offset p points at them. */
  predicate PointsIntoToken(line: string, d: char, p: int, w: string, i: nat)
  {
    var text := Truncate(line, MAX_SC_CONTENT);
    EndsAt(text, d, 0, i, p + |w|, w)
  }

  lemma TokenUnderPointer(b: seq<char>, save: nat, line: string, d: char, p: nat) returns (i: nat)
    requires CutTo(b, save, line, d) && NUL !in line && d != NUL && p < MAX_SC_CONTENT
    requires StringAt(b, p) != "" && d !in StringAt(b, p)
    ensures PointsIntoToken(line, d, p, StringAt(b, p), i)
  {
    var r, text, pad := StringAt(b, p), Truncate(line, MAX_SC_CONTENT), Padded(line);
    var q := p + |r|;
    assert pad[MAX_SC_CONTENT - 1] == NUL;
    assert forall k :: p <= k < q ==> b[k] == r[k - p] == b[p..][k - p] && b[k] != NUL && b[k] != d;
    assert b[p..][MAX_SC_CONTENT - 1 - p] == b[MAX_SC_CONTENT - 1] == NUL;
    assert q < MAX_SC_CONTENT && b[p..][q - p] == b[q] == NUL;
    assert forall k :: p <= k < q ==> pad[k] == b[k];
    assert forall k :: |text| <= k < MAX_SC_CONTENT ==> pad[k] == NUL;
    assert pad[q - 1] != NUL;
    assert forall k :: 0 <= k < |text| ==> pad[k] == text[k];
    assert text[p..q] == r;
    hide Starts, Split, EndsWith;
    i := TokenEnd(text, p, q, d, 0);
  }

  /**
   Whatever offset a pointer kept from an earlier line has, in the buffer of a later line it
   reads nothing, or text with a delimiter in it, or the end of one of that line's tokens.
   */
  lemma OldPointer(b: seq<char>, save: nat, line: string, d: char, p: nat)
    requires CutTo(b, save, line, d) && NUL !in line && d != NUL && p < MAX_SC_CONTENT
    ensures StringAt(b, p) == "" || d in StringAt(b, p) ||
      exists i: nat :: PointsIntoToken(line, d, p, StringAt(b, p), i)
  {
    assert |b| == MAX_SC_CONTENT;
    hide CutTo, StringAt, PointsIntoToken;
    if StringAt(b, p) != "" && d !in StringAt(b, p) {
      var i := TokenUnderPointer(b, save, line, d, p);
    }
  }

  /** Text t stands at offset p of s and is followed by a delimiter or the end. */
  predicate Stands(s: string, d: char, p: int, t: string)
  {
    0 <= p && p + |t| <= |s| && s[p..p + |t|] == t && (p + |t| == |s| || s[p + |t|] == d)
  }

  lemma StandsBehind(s: string, n: nat, d: char, p: int, t: string)
    requires n <= |s| && Stands(s[n..], d, p, t)
    ensures Stands(s, d, p + n, t)
  {
    Slice(s, n, p + n, p + n + |t|);
  }

  /** Token k stands where it starts. */
  lemma {:induction false} TokenStands(s: string, d: char, base: nat, k: nat)
    requires k < |Split(s, d)|
    ensures Stands(s, d, Starts(s, d, base)[k] - base, Split(s, d)[k])
    decreases |s|
  {
    hide Stands, FirstIndex;
    var n := FirstIndex(s, d);
    if s[0] == d {
      TokenStands(s[1..], d, base + 1, k);
      StandsBehind(s, 1, d, Starts(s, d, base)[k] - base - 1, Split(s, d)[k]);
    } else if k > 0 {
      TokenStands(s[n..], d, base + n, k - 1);
      StandsBehind(s, n, d, Starts(s, d, base)[k] - base - n, Split(s, d)[k]);
    } else {
      FirstStands(s, d, n);
    }
  }

  lemma FirstStands(s: string, d: char, n: nat)
    requires n <= |s| && (n == |s| || s[n] == d)
    ensures Stands(s, d, 0, s[..n])
  {
  }

  lemma CutReads(line: string, d: char, p: nat, q: nat)
    requires NUL !in line && d != NUL && p < q <= |Truncate(line, MAX_SC_CONTENT)|
    requires var text := Truncate(line, MAX_SC_CONTENT); d !in text[p..q] && (q == |text| || text[q] == d)
    ensures StringAt(Cut(line, d), p) == Truncate(line, MAX_SC_CONTENT)[p..q]
  {
    var text, cut := Truncate(line, MAX_SC_CONTENT), Cut(line, d);
    hide Cut, Padded, Truncate;
    CutLetters(line, d);
    assert forall k :: p <= k < q ==> text[k] == text[p..q][k - p] != d;
    assert cut[p..q] == text[p..q];
    StringAtIs(cut, p, q);
  }

  /** What the worked-through buffer holds: the tokens' characters, and a NUL behind each token. */
  lemma CutLetters(line: string, d: char)
    requires NUL !in line && d != NUL
    ensures var text := Truncate(line, MAX_SC_CONTENT);
      && |text| < MAX_SC_CONTENT && NUL !in text
      && (forall k :: 0 <= k < |text| && text[k] != d ==> Cut(line, d)[k] == text[k])
      && (forall k :: 0 < k <= |text| && text[k - 1] != d && (k == |text| || text[k] == d) ==> Cut(line, d)[k] == NUL)
  {
    var text := Truncate(line, MAX_SC_CONTENT);
    assert forall k :: 0 <= k < |text| ==> Padded(line)[k] == text[k] == line[k];
    assert Padded(line)[|text|] == NUL;
  }

  lemma EndStands(s: string, d: char, p: int, t: string, w: string)
    requires Stands(s, d, p, t) && EndsWith(t, w)
    ensures Stands(s, d, p + |t| - |w|, w)
  {
    assert t[|t| - |w|..] == s[p + |t| - |w|..p + |t|];
  }

  lemma ReadsTokenEnd(line: string, d: char, p: nat, w: string, i: nat)
    requires NUL !in line && d != NUL && p < MAX_SC_CONTENT && IsToken(w, d)
    requires PointsIntoToken(line, d, p, w, i)
    ensures StringAt(Cut(line, d), p) == w
  {
    hide Cut, StringAt, Split, Starts, Truncate;
    var text := Truncate(line, MAX_SC_CONTENT);
    TokenStands(text, d, 0, i);
    EndStands(text, d, Starts(text, d, 0)[i], Split(text, d)[i], w);
    CutReads(line, d, p, p + |w|);
  }

  lemma CutIsAll(line: string, d: char)
    requires d != NUL
    ensures CutTo(Cut(line, d), MAX_SC_CONTENT - 1, line, d)
  {
  }

  /**
   Once a line has been worked through, an offset reads the text w, if that could be a token,
   exactly when it points at the last characters of one of the line's tokens and they are w.
   */
  lemma OldPointerReads(line: string, d: char, p: nat, w: string)
    requires NUL !in line && d != NUL && p < MAX_SC_CONTENT && IsToken(w, d) && NUL !in w
    ensures StringAt(Cut(line, d), p) == w <==> exists i: nat :: PointsIntoToken(line, d, p, w, i)
  {
    CutIsAll(line, d);
    hide CutTo, PointsIntoToken, StringAt, Cut;
    if StringAt(Cut(line, d), p) == w {
      var i := TokenUnderPointer(Cut(line, d), MAX_SC_CONTENT - 1, line, d, p);
    }
    if i: nat :| PointsIntoToken(line, d, p, w, i) {
      ReadsTokenEnd(line, d, p, w, i);
    }
  }

  /** Between two strtok calls: `got` is taken, at `offsets`, and the rest is still in the text. */
  ghost predicate Pending(b: seq<char>, save: nat, line: string, d: char, offsets: seq<int>, got: seq<string>)
  {
    && CutTo(b, save, line, d)
    && |offsets| == |got| && Taken(b, save, offsets, got)
    && Shared(line, d, offsets, got, LeftAt(line, save, d), Left(line, save, d))
  }

  /** After a strtok call that returned t: token `tok` at t, or NULL (-1) and nothing left. */
  ghost predicate Offered(b: seq<char>, save: nat, line: string, d: char, offsets: seq<int>, got: seq<string>,
                          t: int, tok: string)
  {
    && CutTo(b, save, line, d)
    && |offsets| == |got| && Taken(b, save, offsets, got)
    && if t == -1 then Shared(line, d, offsets, got, [], []) && b[save] == NUL else
         && Shared(line, d, offsets, got, [t] + LeftAt(line, save, d), [tok] + Left(line, save, d))
         && Holds(b, t, tok) && t + |tok| <= save
         && (|got| > 0 ==> offsets[|got| - 1] + |got[|got| - 1]| < t)
  }

  lemma Take(b: seq<char>, save: nat, line: string, d: char, offsets: seq<int>, got: seq<string>, t: int, tok: string)
    requires t != -1 && Offered(b, save, line, d, offsets, got, t, tok)
    ensures Pending(b, save, line, d, offsets + [t], got + [tok])
    ensures |got| < MAX_TOKEN ==> |got| < |Fields(line, d)|
  {
    TakenMore(b, save, offsets, got, t, tok);
    Move(line, d, offsets, got, t, tok, LeftAt(line, save, d), Left(line, save, d));
  }

  lemma Offer(b: seq<char>, from: nat, b': seq<char>, save: nat, d: char, t: int, end: nat,
              line: string, offsets: seq<int>, got: seq<string>)
    requires d != NUL && Pending(b, from, line, d, offsets, got) && StrtokStep(b, from, b', save, d, t, end)
    ensures Offered(b', save, line, d, offsets, got, t, if t == -1 then "" else b'[t..end])
  {
    StepCuts(b, from, b', save, d, t, end, line);
    StepTakes(b, from, b', save, d, t, end, line);
    StepKeeps(b, from, b', save, d, t, end, offsets, got);
  }

  lemma AllTaken(b: seq<char>, save: nat, line: string, d: char, offsets: seq<int>, got: seq<string>, t: int,
    tok: string)
    requires Offered(b, save, line, d, offsets, got, t, tok)
    requires |got| <= MAX_TOKEN && (t == -1 || |got| == MAX_TOKEN)
    ensures Fields(line, d) == got && CutTo(b, save, line, d) && |offsets| == |got| && Taken(b, save, offsets, got)
    ensures FieldStarts(line, d) == offsets
    ensures |Split(Truncate(line, MAX_SC_CONTENT), d)| <= MAX_TOKEN ==> b[save] == NUL
  {
    if t == -1 {
      FieldsAre(line, d, offsets, got, [], []);
    } else {
      FieldsAre(line, d, offsets, got, [t] + LeftAt(line, save, d), [tok] + Left(line, save, d));
    }
  }

  lemma AllCut(b: seq<char>, save: nat, line: string, d: char)
    requires CutTo(b, save, line, d) && b[save] == NUL && NUL !in line && d != NUL
    ensures b == Cut(line, d)
  {
    var text := Truncate(line, MAX_SC_CONTENT);
    assert forall k :: 0 <= k < |text| ==> Padded(line)[k] == text[k] == line[k];
    assert save >= |text|;
    assert forall k :: save <= k < MAX_SC_CONTENT ==> Padded(line)[k] == NUL;
  }

  /** The static buffer of getTokens together with the position strtok keeps. */
  class TokenBuffer {
    const tmp: array<char>
    var save: nat

    ghost predicate Valid()
      reads this, tmp
    {
      tmp.Length == MAX_SC_CONTENT && tmp[MAX_SC_CONTENT - 1] == NUL && save < MAX_SC_CONTENT
    }

    constructor ()
      ensures Valid() && fresh(tmp) && tmp[..] == Padded("")
    {
      tmp := new char[MAX_SC_CONTENT](_ => NUL);
      save := 0;
      new;
      assert tmp[..] == Padded("");
    }

    /** The string gCmdParam[i] reads, as a C string, when it holds offset p. */
    function Read(p: nat): string
      requires Valid() && p < MAX_SC_CONTENT
      reads this, tmp
    {
      StringAt(tmp[..], p)
    }

    /** strtok(NULL, d): the next token from the saved position; -1 stands for NULL. */
    method Strtok(d: char) returns (t: int, ghost end: nat)
      requires Valid() && d != NUL
      modifies this`save, tmp
      ensures Valid() && StrtokStep(old(tmp[..]), old(save), tmp[..], save, d, t, end)
    {
      var p := save;
      ghost var b := tmp[..];
      while tmp[p] == d
        invariant old(save) <= p < MAX_SC_CONTENT && tmp[..] == b
        invariant forall k :: old(save) <= k < p ==> b[k] == d
        decreases MAX_SC_CONTENT - p
      {
        p := p + 1;
      }
      if tmp[p] == NUL {
        save := p;
        return -1, p;
      }
      t := p;
      while tmp[p] != NUL && tmp[p] != d
        invariant t <= p < MAX_SC_CONTENT && tmp[..] == b
        invariant forall k :: t <= k < p ==> b[k] != d && b[k] != NUL
        decreases MAX_SC_CONTENT - p
      {
        p := p + 1;
      }
      end := p;
      if tmp[p] == NUL {
        save := p;
      } else {
        tmp[p] := NUL;
        save := p + 1;
      }
      assert tmp[..] == b[end := NUL];
    }

    /** One strtok call inside getTokens: the tokens taken before stay where they are. */
    method NextToken(ghost line: string, d: char, ghost offsets: seq<int>, ghost got: seq<string>)
      returns (t: int, ghost tok: string)
      requires Valid() && d != NUL && Pending(tmp[..], save, line, d, offsets, got)
      modifies this`save, tmp
      ensures Valid() && Offered(tmp[..], save, line, d, offsets, got, t, tok)
    {
      hide Pending, Offered;
      ghost var end;
      ghost var was, from := tmp[..], save;
      t, end := Strtok(d);
      Offer(was, from, tmp[..], save, d, t, end, line, offsets, got);
      tok := if t == -1 then "" else tmp[..][t..end];
    }

    /** The pointers read the tokens ts. */
    ghost predicate Reads(offsets: seq<int>, ts: seq<string>)
      requires Valid()
      reads this, tmp
    {
      |ts| <= |offsets| && forall i :: 0 <= i < |ts| ==> 0 <= offsets[i] < MAX_SC_CONTENT && Read(offsets[i]) == ts[i]
    }

    lemma TakenReads(offsets: seq<int>, ts: seq<string>)
      requires Valid() && |offsets| == |ts| && Taken(tmp[..], save, offsets, ts)
      ensures Reads(offsets, ts)
    {
      forall i | 0 <= i < |ts| ensures 0 <= offsets[i] < MAX_SC_CONTENT && Read(offsets[i]) == ts[i] {
        HoldsReads(tmp[..], offsets[i], ts[i]);
      }
    }

    lemma ReadsMore(offsets: seq<int>, more: seq<int>, ts: seq<string>)
      requires Valid() && Reads(offsets, ts) && offsets <= more
      ensures Reads(more, ts)
    {
    }

    method GetTokens(inStr: string, delim: char, pArgv: array<int>) returns (last: int)
      requires Valid() && NUL !in inStr && '%' !in inStr && delim != NUL
      requires |Fields(inStr, delim)| <= pArgv.Length
      modifies this`save, tmp, pArgv
      ensures Valid() && CutTo(tmp[..], save, inStr, delim)
      ensures |Split(Truncate(inStr, MAX_SC_CONTENT), delim)| <= MAX_TOKEN ==> tmp[..] == Cut(inStr, delim)
      ensures var ts := Fields(inStr, delim);
        && last == |ts| - 1
        && pArgv[..|ts|] == FieldStarts(inStr, delim)
        && Taken(tmp[..], save, pArgv[..|ts|], ts) && Reads(pArgv[..], ts)
        && forall i :: |ts| <= i < pArgv.Length ==> pArgv[i] == old(pArgv[i])
    {
      hide Pending, Offered, Fields, Taken, CutTo, Reads;
      ghost var got, offsets, tok := [], [], "";
      SetText(inStr, delim);
      var num := 0;
      var t;
      t, tok := NextToken(inStr, delim, offsets, got);
      while t != -1 && num < MAX_TOKEN
        invariant Valid() && Offered(tmp[..], save, inStr, delim, offsets, got, t, tok)
        invariant num == |got| == |offsets| <= MAX_TOKEN && num <= pArgv.Length
        invariant forall i :: 0 <= i < num ==> pArgv[i] == offsets[i]
        invariant forall i :: num <= i < pArgv.Length ==> pArgv[i] == old(pArgv[i])
        decreases MAX_TOKEN - num
      {
        Take(tmp[..], save, inStr, delim, offsets, got, t, tok);
        pArgv[num] := t;
        num := num + 1;
        got, offsets := got + [tok], offsets + [t];
        t, tok := NextToken(inStr, delim, offsets, got);
      }
      last := num - 1;
      AllTaken(tmp[..], save, inStr, delim, offsets, got, t, tok);
      assert offsets == pArgv[..num];
      if tmp[save] == NUL {
        AllCut(tmp[..], save, inStr, delim);
      }
      TakenReads(offsets, got);
      ReadsMore(offsets, pArgv[..], got);
    }

    /** memset(tmp,0,..); snprintf(tmp,sizeof(tmp),inStr) for a format without conversions. */
    method SetText(s: string, ghost d: char)
      requires Valid() && '%' !in s && NUL !in s
      modifies this`save, tmp
      ensures Valid() && tmp[..] == Padded(s) && save == 0
      ensures Pending(tmp[..], save, s, d, [], [])
    {
      var i := 0;
      while i < MAX_SC_CONTENT
        invariant 0 <= i <= MAX_SC_CONTENT
        invariant tmp[..i] == Padded(s)[..i]
      {
        tmp[i] := if i < MAX_SC_CONTENT - 1 && i < |s| then s[i] else NUL;
        i := i + 1;
      }
      assert tmp[..] == tmp[..i];
      save := 0;
      PaddedText(s);
    }
  }
}
