// The parts of Go's strings and strconv packages that the deploy engine relies on.
module Strings {
  import opened Wrappers

  predicate HasSuffix(s: string, suffix: string) {
    |suffix| <= |s| && s[|s| - |suffix|..] == suffix
  }

  // strings.TrimPrefix: drops one occurrence of prefix, if s starts with it.
  function TrimPrefix(s: string, prefix: string): string {
    if prefix <= s then s[|prefix|..] else s
  }

  predicate StandsAt(s: string, sub: string, i: nat) { i + |sub| <= |s| && s[i..i + |sub|] == sub }

  predicate Contains(s: string, sub: string) { exists i | 0 <= i <= |s| :: StandsAt(s, sub, i) }

  // strings.Split for a separator of one character.
  function Split(s: string, sep: char): (parts: seq<string>)
    ensures |parts| > 0
    ensures forall p :: p in parts ==> sep !in p
  {
    if s == "" then [""]
    else
      var rest := Split(s[1..], sep);
      if s[0] == sep then [""] + rest else [[s[0]] + rest[0]] + rest[1..]
  }

  // strings.Join for a separator of one character.
  function Join(parts: seq<string>, sep: char): string
    requires |parts| > 0
  {
    if |parts| == 1 then parts[0] else parts[0] + [sep] + Join(parts[1..], sep)
  }

  lemma {:induction false} JoinOfSplit(s: string, sep: char)
    ensures Join(Split(s, sep), sep) == s
  {
    if s == "" {
    } else {
      JoinOfSplit(s[1..], sep);
      var rest := Split(s[1..], sep);
      if s[0] == sep {
        assert ([""] + rest)[1..] == rest;
      } else {
        var parts := [[s[0]] + rest[0]] + rest[1..];
        assert parts[1..] == rest[1..];
        assert s == [s[0]] + s[1..];
      }
    }
  }

  lemma {:induction false} SplitWithoutSeparator(s: string, sep: char)
    requires sep !in s
    ensures Split(s, sep) == [s]
  {
    if s == "" {
    } else {
      SplitWithoutSeparator(s[1..], sep);
      assert [s[0]] + s[1..] == s;
    }
  }

  // A separator cuts the string: what stands before the first one is the first part.
  lemma {:induction false} SplitAtSeparator(a: string, b: string, sep: char)
    requires sep !in a
    ensures Split(a + [sep] + b, sep) == [a] + Split(b, sep)
  {
    var s := a + [sep] + b;
    if a == "" {
      assert s[1..] == b;
    } else {
      SplitAtSeparator(a[1..], b, sep);
      assert s[1..] == a[1..] + [sep] + b;
      assert [a[0]] + a[1..] == a;
    }
  }

  // Every string with a separator has a first one.
  lemma {:induction false} FirstSeparator(s: string, sep: char) returns (a: string, b: string)
    requires sep in s
    ensures sep !in a && s == a + [sep] + b
  {
    if s[0] == sep {
      a, b := "", s[1..];
    } else {
      a, b := FirstSeparator(s[1..], sep);
      a := [s[0]] + a;
    }
  }

  // Decimal numbers.

  predicate IsDigit(c: char) { '0' <= c <= '9' }

  predicate AllDigits(s: string) { forall i | 0 <= i < |s| :: IsDigit(s[i]) }

  function DigitChar(d: nat): char
    requires d < 10
  {
    (d + '0' as int) as char
  }

  // fmt's %d on a number that is not negative.
  function Itoa(n: nat): string {
    if n < 10 then [DigitChar(n)] else Itoa(n / 10) + [DigitChar(n % 10)]
  }

  function Value(s: string): nat
    requires AllDigits(s)
  {
    if s == "" then 0 else 10 * Value(s[..|s| - 1]) + (s[|s| - 1] as int - '0' as int)
  }

  const MAX_INT := 0x7fff_ffff_ffff_ffff

  // strconv.Atoi on a 64-bit platform: an optional sign, then one digit or more.
  function Atoi(s: string): Option<int> {
    var negative := "-" <= s;
    var digits := if negative || "+" <= s then s[1..] else s;
    if digits == "" || !AllDigits(digits) then None
    else
      var v: int := Value(digits);
      if negative then (if v <= MAX_INT + 1 then Some(0 - v) else None)
      else if v <= MAX_INT then Some(v)
      else None
  }

  lemma {:induction false} ValueOfItoa(n: nat)
    ensures Itoa(n) != "" && AllDigits(Itoa(n)) && Value(Itoa(n)) == n
  {
    if n < 10 {
      assert Value([DigitChar(n)]) == 10 * Value("") + n;
    } else {
      ValueOfItoa(n / 10);
      var front := Itoa(n / 10);
      var s := front + [DigitChar(n % 10)];
      assert s[..|s| - 1] == front;
    }
  }

  // Reading back a printed number gives the number.
  lemma AtoiOfItoa(n: nat)
    requires n <= MAX_INT
    ensures Atoi(Itoa(n)) == Some(n)
  {
    ValueOfItoa(n);
    assert IsDigit(Itoa(n)[0]);
  }
  // What a numeral looks like: a sign, zeros in front, and the number as it is printed.

  predicate AllZeros(s: string) { forall i | 0 <= i < |s| :: s[i] == '0' }

  lemma {:induction false} ValueIsZero(s: string)
    requires AllDigits(s)
    ensures Value(s) == 0 <==> AllZeros(s)
  {
    if s != "" { ValueIsZero(s[..|s| - 1]); }
  }

  lemma {:induction false} ValueOfPadded(zeros: string, s: string)
    requires AllZeros(zeros) && AllDigits(s)
    ensures AllDigits(zeros + s) && Value(zeros + s) == Value(s)
  {
    if s == "" {
      assert zeros + s == zeros;
      ValueIsZero(zeros);
    } else {
      var front := s[..|s| - 1];
      ValueOfPadded(zeros, front);
      assert (zeros + s)[..|zeros + s| - 1] == zeros + front;
    }
  }

  lemma {:induction false} PaddedNumber(s: string) returns (zeros: string)
    requires AllDigits(s) && Value(s) >= 1
    ensures AllZeros(zeros) && s == zeros + Itoa(Value(s))
  {
    var front, last := s[..|s| - 1], s[|s| - 1];
    ValueIsZero(front);
    if Value(front) == 0 {
      zeros := front;
    } else {
      zeros := PaddedNumber(front);
      assert Itoa(Value(s)) == Itoa(Value(front)) + [last];
    }
    assert s == front + [last];
  }

  // A plus or nothing, any zeros, and the number as it is printed.
  ghost predicate IsNumeral(s: string, n: nat) {
    exists sign, zeros :: sign in {"", "+"} && AllZeros(zeros) && s == sign + (zeros + Itoa(n))
  }

  lemma PlainDigits(digits: string, n: nat)
    requires digits != "" && AllDigits(digits) && Value(digits) == n <= MAX_INT
    ensures Atoi(digits) == Some(n)
  {
    assert IsDigit(digits[0]);
  }

  lemma PlusDigits(s: string, digits: string, n: nat)
    requires digits != "" && AllDigits(digits) && Value(digits) == n <= MAX_INT
    requires |s| > 0 && s[0] == '+' && s[1..] == digits
    ensures Atoi(s) == Some(n)
  {
    assert "+" <= s && !("-" <= s);
  }

  lemma AtoiOfNumeral(s: string, sign: string, digits: string, zeros: string, n: nat)
    requires sign in {"", "+"} && AllZeros(zeros) && digits == zeros + Itoa(n) && s == sign + digits && n <= MAX_INT
    ensures Atoi(s) == Some(n)
  {
    ValueOfItoa(n);
    ValueOfPadded(zeros, Itoa(n));
    if sign == "" {
      assert s == digits;
      PlainDigits(digits, n);
    } else {
      assert s[1..] == digits;
      PlusDigits(s, digits, n);
    }
  }

  lemma DigitsOfAtoi(s: string, n: nat) returns (sign: string, digits: string)
    requires Atoi(s) == Some(n) && n >= 1
    ensures sign in {"", "+"} && s == sign + digits && AllDigits(digits) && Value(digits) == n
  {
    sign := if "+" <= s then "+" else "";
    digits := s[|sign|..];
  }

  lemma NumeralOfDigits(sign: string, digits: string)
    requires sign in {"", "+"} && AllDigits(digits) && Value(digits) >= 1
    ensures IsNumeral(sign + digits, Value(digits))
  {
    var zeros := PaddedNumber(digits);
  }

  // The numerals of a positive number, and no other text, are read as it.
  lemma AtoiIff(s: string, n: nat)
    requires 1 <= n <= MAX_INT
    ensures Atoi(s) == Some(n) <==> IsNumeral(s, n)
  {
    if IsNumeral(s, n) {
      var sign, zeros :| sign in {"", "+"} && AllZeros(zeros) && s == sign + (zeros + Itoa(n));
      AtoiOfNumeral(s, sign, zeros + Itoa(n), zeros, n);
    }
    if Atoi(s) == Some(n) {
      var sign, digits := DigitsOfAtoi(s, n);
      NumeralOfDigits(sign, digits);
    }
  }
}
