/**
 The C library's view of text, as the tool uses it.  A C string is a `string` without NUL
 characters; a buffer is a sequence of characters in which a string ends at the first NUL.
 */
module CStrings {

  const NUL: char := '\0'
  const INT_MAX: int := 0x7fff_ffff
  const LONG_MAX: int := 0x7fff_ffff_ffff_ffff

  datatype Option<+T> = None | Some(value: T)

  /** Where strstr(s, "c") points, as an offset; |s| stands for NULL. */
  function FirstIndex(s: string, c: char): (n: nat)
    ensures n <= |s|
    ensures forall i :: 0 <= i < n ==> s[i] != c
    ensures n < |s| ==> s[n] == c
  {
    if s == "" || s[0] == c then 0 else 1 + FirstIndex(s[1..], c)
  }

  function Until(s: string, c: char): (r: string)
  {
    s[..FirstIndex(s, c)]
  }

  lemma FirstIndexIs(s: string, c: char, n: nat)
    requires n <= |s| && (forall i :: 0 <= i < n ==> s[i] != c) && (n < |s| ==> s[n] == c)
    ensures FirstIndex(s, c) == n
  {
    if n > 0 {
      FirstIndexIs(s[1..], c, n - 1);
    }
  }

  /** The string a pointer to offset i of buffer b denotes. */
  function StringAt(b: seq<char>, i: nat): string
    requires i <= |b|
  {
    Until(b[i..], NUL)
  }

  /** What snprintf(dst, size, "%s", s) leaves in dst. */
  function Truncate(s: string, size: nat): (r: string)
    requires size > 0
  {
    if |s| < size then s else s[..size - 1]
  }

  lemma Regroup<T>(a: seq<T>, b: seq<T>, c: seq<T>)
    ensures a + (b + c) == (a + b) + c
  {
  }

  // ---- strncasecmp against a keyword ----

  function Lower(c: char): char
  {
    if 'A' <= c <= 'Z' then c - 'A' + 'a' else c
  }

  /** strncasecmp(line, word, strlen(word)) == 0 */
  predicate HasPrefixNoCase(line: string, word: string)
  {
    word == "" || (line != "" && Lower(line[0]) == Lower(word[0]) && HasPrefixNoCase(line[1..], word[1..]))
  }

  /** The prefix, character by character. */
  lemma {:induction false} PrefixIs(line: string, word: string)
    ensures HasPrefixNoCase(line, word) <==>
      |word| <= |line| && forall i :: 0 <= i < |word| ==> Lower(line[i]) == Lower(word[i])
  {
    hide Lower;
    if word != "" && line != "" {
      PrefixIs(line[1..], word[1..]);
      if HasPrefixNoCase(line, word) {
        forall i | 0 <= i < |word| ensures Lower(line[i]) == Lower(word[i]) {
          if i > 0 {
            assert line[1..][i - 1] == line[i] && word[1..][i - 1] == word[i];
          }
        }
      }
      if |word| <= |line| && forall i :: 0 <= i < |word| ==> Lower(line[i]) == Lower(word[i]) {
        assert forall i :: 0 <= i < |word[1..]| ==> word[1..][i] == word[i + 1] && line[1..][i] == line[i + 1];
      }
    }
  }

  // ---- atoi ----

  predicate IsSpace(c: char)
  {
    c == ' ' || '\t' <= c <= '\r'
  }

  predicate IsDigit(c: char)
  {
    '0' <= c <= '9'
  }

  function SkipSpaces(s: string): string
  {
    if s != "" && IsSpace(s[0]) then SkipSpaces(s[1..]) else s
  }

  function DigitValue(c: char): int
  {
    c as int - '0' as int
  }

  /** The value of the leading digits of s, continuing a number already read as acc. */
  function LeadingDigits(s: string, acc: nat): nat
  {
    if s != "" && IsDigit(s[0]) then LeadingDigits(s[1..], 10 * acc + DigitValue(s[0])) else acc
  }

  function SignedValue(s: string): int
  {
    if s != "" && s[0] == '-' then 0 - LeadingDigits(s[1..], 0)
    else if s != "" && s[0] == '+' then LeadingDigits(s[1..], 0)
    else LeadingDigits(s, 0)
  }

  /** strtol stops at the ends of a 64-bit long. */
  function ClampLong(v: int): int
  {
    if v > LONG_MAX then LONG_MAX else if v < -LONG_MAX - 1 then -LONG_MAX - 1 else v
  }

  /** Conversion of a wider integer to a 32-bit int. */
  function ToInt32(v: int): (r: int)
    ensures -INT_MAX - 1 <= r <= INT_MAX
    ensures (r - v) % 0x1_0000_0000 == 0
  {
    (v + INT_MAX + 1) % 0x1_0000_0000 - INT_MAX - 1
  }

  /** atoi(s) is (int) strtol(s, NULL, 10). */
  function Atoi(s: string): int
  {
    ToInt32(ClampLong(SignedValue(SkipSpaces(s))))
  }

  // ---- "%d" ----

  function Digits(n: nat): (s: string)
    ensures s != ""
  {
    if n < 10 then [n as char + '0'] else Digits(n / 10) + [(n % 10) as char + '0']
  }

  function Decimal(n: int): (s: string)
    ensures s != ""
  {
    if n < 0 then "-" + Digits(-n) else Digits(n)
  }

  lemma {:induction false} LeadingDigitsDecimal(n: nat, rest: string)
    requires rest == "" || !IsDigit(rest[0])
    ensures LeadingDigits(Digits(n) + rest, 0) == n
    ensures IsDigit(Digits(n)[0])
  {
    LeadingDigitsContinue(n, rest);
    assert LeadingDigits(rest, n) == n;
  }

  lemma {:induction false} LeadingDigitsContinue(n: nat, rest: string)
    ensures LeadingDigits(Digits(n) + rest, 0) == LeadingDigits(rest, n)
    ensures IsDigit(Digits(n)[0])
    decreases n
  {
    var last := (n % 10) as char + '0';
    if n < 10 {
      assert (Digits(n) + rest)[1..] == rest;
    } else {
      LeadingDigitsContinue(n / 10, [last] + rest);
      assert Digits(n) + rest == Digits(n / 10) + ([last] + rest);
      assert ([last] + rest)[1..] == rest;
    }
  }

  /** The number a run of digits stands for. */
  function NumberOf(digits: string): nat
    requires forall i :: 0 <= i < |digits| ==> '0' <= digits[i] <= '9'
  {
    if digits == "" then 0
    else 10 * NumberOf(digits[..|digits| - 1]) + (digits[|digits| - 1] as int - '0' as int)
  }

  /**
   atoi on blanks, perhaps a sign, digits, and whatever follows: up to the ends of an int the number
   itself, up to those of a long the number without its upper half, and beyond them -1 or 0.
   */
  lemma AtoiIs(blanks: string, sign: string, digits: string, rest: string)
    requires forall i :: 0 <= i < |blanks| ==> blanks[i] in " \t\n\U{b}\U{c}\r"
    requires (sign == "" && digits != "") || sign == "+" || sign == "-"
    requires (forall i :: 0 <= i < |digits| ==> '0' <= digits[i] <= '9') && (rest == "" || !('0' <= rest[0] <= '9'))
    ensures var k := NumberOf(digits);
      var v := if sign == "-" then 0 - k else k;
      var r := Atoi(blanks + (sign + (digits + rest)));
      && (-0x8000_0000 <= v <= 0x7fff_ffff ==> r == v)
      && (-0x8000_0000_0000_0000 <= v <= 0x7fff_ffff_ffff_ffff ==> (r - v) % 0x1_0000_0000 == 0)
      && (v > 0x7fff_ffff_ffff_ffff ==> r == -1)
      && (v < -0x8000_0000_0000_0000 ==> r == 0)
      && -0x8000_0000 <= r <= 0x7fff_ffff
  {
    hide SignedValue, SkipSpaces, NumberOf, ToInt32, ClampLong;
    SkipBlanks(blanks, sign + (digits + rest));
    SignedIs(sign, digits, rest);
    Converted(if sign == "-" then 0 - NumberOf(digits) else NumberOf(digits));
  }

  lemma Converted(v: int)
    ensures var r := ToInt32(ClampLong(v));
      && (-0x8000_0000 <= v <= 0x7fff_ffff ==> r == v)
      && (-0x8000_0000_0000_0000 <= v <= 0x7fff_ffff_ffff_ffff ==> (r - v) % 0x1_0000_0000 == 0)
      && (v > 0x7fff_ffff_ffff_ffff ==> r == -1)
      && (v < -0x8000_0000_0000_0000 ==> r == 0)
  {
  }

  lemma {:induction false} SkipBlanks(blanks: string, rest: string)
    requires forall i :: 0 <= i < |blanks| ==> blanks[i] in " \t\n\U{b}\U{c}\r"
    ensures SkipSpaces(blanks + rest) == SkipSpaces(rest)
  {
    if blanks == "" {
      assert blanks + rest == rest;
    } else {
      SkipBlanks(blanks[1..], rest);
      assert (blanks + rest)[1..] == blanks[1..] + rest;
    }
  }

  lemma SignedIs(sign: string, digits: string, rest: string)
    requires (sign == "" && digits != "") || sign == "+" || sign == "-"
    requires (forall i :: 0 <= i < |digits| ==> '0' <= digits[i] <= '9') && (rest == "" || !('0' <= rest[0] <= '9'))
    ensures var s := sign + (digits + rest);
      && SkipSpaces(s) == s
      && SignedValue(s) == if sign == "-" then 0 - NumberOf(digits) else NumberOf(digits)
  {
    hide NumberOf, LeadingDigits, SkipSpaces;
    var s, t := sign + (digits + rest), digits + rest;
    DigitsCount(digits, rest);
    if sign == "" {
      assert s == t && s[0] == digits[0];
    } else {
      assert s[0] == sign[0] && s[1..] == t;
    }
    NoBlank(s);
  }

  lemma NoBlank(s: string)
    requires s != "" && !IsSpace(s[0])
    ensures SkipSpaces(s) == s
  {
  }

  lemma {:induction false} DigitsCount(digits: string, rest: string)
    requires (forall i :: 0 <= i < |digits| ==> '0' <= digits[i] <= '9') && (rest == "" || !('0' <= rest[0] <= '9'))
    ensures LeadingDigits(digits + rest, 0) == NumberOf(digits)
  {
    DigitsThen(digits, rest);
    assert LeadingDigits(rest, NumberOf(digits)) == NumberOf(digits);
  }

  lemma {:induction false} DigitsThen(digits: string, rest: string)
    requires forall i :: 0 <= i < |digits| ==> '0' <= digits[i] <= '9'
    ensures LeadingDigits(digits + rest, 0) == LeadingDigits(rest, NumberOf(digits))
    decreases |digits|
  {
    if digits == "" {
      assert digits + rest == rest;
    } else {
      var t, c := digits[..|digits| - 1], digits[|digits| - 1];
      DigitsThen(t, [c] + rest);
      assert t + ([c] + rest) == digits + rest && ([c] + rest)[1..] == rest;
    }
  }

  /** Reading back a printed number gives the number, for everything an int can hold. */
  lemma AtoiDecimal(n: int)
    requires -INT_MAX - 1 <= n <= INT_MAX
    ensures Atoi(Decimal(n)) == n
  {
    AtoiReads("", n, "");
    assert "" + Decimal(n) + "" == Decimal(n);
  }

  /** So it does between spaces and whatever follows that is no digit. */
  lemma AtoiReads(spaces: string, n: int, rest: string)
    requires -INT_MAX - 1 <= n <= INT_MAX
    requires (forall i :: 0 <= i < |spaces| ==> spaces[i] == ' ') && (rest == "" || !('0' <= rest[0] <= '9'))
    ensures Atoi(spaces + Decimal(n) + rest) == n
  {
    hide Digits, Atoi, NumberOf;
    var sign, digits := if n < 0 then "-" else "", Digits(if n < 0 then -n else n);
    NumberOfDigits(if n < 0 then -n else n);
    AtoiIs(spaces, sign, digits, rest);
    assert spaces + Decimal(n) + rest == spaces + (sign + (digits + rest));
  }

  lemma {:induction false} NumberOfDigits(n: nat)
    ensures forall i :: 0 <= i < |Digits(n)| ==> '0' <= Digits(n)[i] <= '9'
    ensures NumberOf(Digits(n)) == n
  {
    var last := (n % 10) as char + '0';
    if n >= 10 {
      NumberOfDigits(n / 10);
      assert Digits(n)[..|Digits(n)| - 1] == Digits(n / 10);
    } else {
      assert Digits(n)[..0] == "" && NumberOf("") == 0;
    }
  }

  /** Text that does not start with a number counts as 0. */
  lemma AtoiNothing(s: string)
    requires s == "" || (s[0] != ' ' && !('\t' <= s[0] <= '\r') && !('0' <= s[0] <= '9') && s[0] != '-' && s[0] != '+')
    ensures Atoi(s) == 0
  {
    assert SkipSpaces(s) == s;
    assert LeadingDigits(s, 0) == 0;
  }

  /** %d writes the digits of a number, the last one last. */
  lemma DigitsAre(n: nat)
    ensures n < 10 ==> Decimal(n) == ["0123456789"[n]]
    ensures n >= 10 ==> Decimal(n) == Decimal(n / 10) + ["0123456789"[n % 10]]
    ensures n > 0 ==> Decimal(0 - n) == "-" + Decimal(n)
  {
    assert forall d: nat :: d < 10 ==> "0123456789"[d] == d as char + '0';
  }

  function Ten(k: nat): nat
  {
    if k == 0 then 1 else 10 * Ten(k - 1)
  }

  /** A number with few digits is small. */
  lemma {:induction false} DigitsBound(n: nat)
    ensures n < Ten(|Digits(n)|)
  {
    if n >= 10 {
      DigitsBound(n / 10);
      assert Ten(|Digits(n)|) == 10 * Ten(|Digits(n / 10)|);
    } else {
      assert Ten(1) == 10;
    }
  }

  lemma {:induction false} TenGrows(k: nat, m: nat)
    requires k <= m
    ensures Ten(k) <= Ten(m)
    decreases m
  {
    if k < m {
      TenGrows(k, m - 1);
    }
  }

  /** Nine characters hold no number beyond an int. */
  lemma NineCharacters(n: int)
    requires |Decimal(n)| <= 9
    ensures -INT_MAX <= n <= INT_MAX
  {
    var m := if n < 0 then -n else n;
    DigitsBound(m);
    TenGrows(|Digits(m)|, 9);
    assert Ten(3) == 1000;
    assert Ten(6) == 1000 * 1000;
    assert Ten(9) == 1000 * 1000 * 1000;
  }

  /** Digits without a superfluous 0 are what %d writes for their value. */
  lemma {:induction false} DigitsOfValue(s: string)
    requires s != "" && (forall i :: 0 <= i < |s| ==> '0' <= s[i] <= '9') && (|s| > 1 ==> s[0] != '0')
    ensures Digits(LeadingDigits(s, 0)) == s && (s[0] != '0' ==> LeadingDigits(s, 0) > 0)
    decreases |s|
  {
    var t, c := s[..|s| - 1], s[|s| - 1];
    assert s == t + [c];
    LastDigit(t, c, 0);
    if t == "" {
      assert LeadingDigits("", 0) == 0;
    } else {
      DigitsOfValue(t);
    }
  }

  lemma {:induction false} LastDigit(t: string, c: char, acc: nat)
    requires (forall i :: 0 <= i < |t| ==> '0' <= t[i] <= '9') && '0' <= c <= '9'
    ensures LeadingDigits(t + [c], acc) == 10 * LeadingDigits(t, acc) + (c as int - '0' as int)
    decreases |t|
  {
    if t == "" {
      assert t + [c] == [c] && [c][1..] == "";
      assert LeadingDigits("", 10 * acc + DigitValue(c)) == 10 * acc + DigitValue(c);
    } else {
      assert (t + [c])[1..] == t[1..] + [c];
      LastDigit(t[1..], c, 10 * acc + DigitValue(t[0]));
    }
  }
}
