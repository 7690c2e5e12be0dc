/** The C string functions the configuration code relies on, over sequences of characters. */
module Text {
  import opened Wrappers

  predicate IsSpace(c: char) { c == ' ' || '\t' <= c <= '\r' }

  predicate IsDigit(c: char) { '0' <= c <= '9' }

  predicate AllSpace(s: string) { forall i :: 0 <= i < |s| ==> IsSpace(s[i]) }

  /** No character of s is one of cs. */
  predicate Free(s: string, cs: set<char>) { forall i :: 0 <= i < |s| ==> s[i] !in cs }

  function Lower(c: char): char {
    if 'A' <= c <= 'Z' then (c as int + 32) as char else c
  }

  /** strcasecmp(a, b) == 0. */
  predicate Same(a: string, b: string) {
    |a| == |b| && forall i :: 0 <= i < |a| ==> Lower(a[i]) == Lower(b[i])
  }

  /** Two characters are the same but for case exactly when they are equal, or one letter in its two forms. */
  lemma SameLetter(a: char, b: char)
    ensures Lower(a) == Lower(b) <==>
            || a == b
            || ('A' <= a <= 'Z' && b as int == a as int + 32)
            || ('A' <= b <= 'Z' && a as int == b as int + 32)
  {
  }

  /** White space is the blank, tab, newline, vertical tab, form feed and return; the digits are ten. */
  lemma CharacterClasses(c: char)
    ensures IsSpace(c) <==> c in {' ', '\t', '\n', '\U{0B}', '\U{0C}', '\r'}
    ensures IsDigit(c) <==> c in {'0', '1', '2', '3', '4', '5', '6', '7', '8', '9'}
  {
  }

  lemma NotSame(a: string, b: string, i: nat)
    requires i < |a| && i < |b| && Lower(a[i]) != Lower(b[i])
    ensures !Same(a, b)
  {
  }

  /** strnlen and memcpy into a field of the given size. */
  function Copied(s: string, size: nat): string
    requires size > 0
  {
    if |s| < size then s else s[..size - 1]
  }

  /** The length of the longest prefix free of cs. */
  function Find(s: string, cs: set<char>): (n: nat)
    ensures n <= |s| && Free(s[..n], cs)
    ensures n < |s| ==> s[n] in cs
  {
    if s == "" || s[0] in cs then 0 else
      var n := 1 + Find(s[1..], cs);
      assert forall i :: 0 < i < n ==> s[..n][i] == s[1..][..n - 1][i - 1];
      n
  }

  lemma {:induction false} FindIs(s: string, cs: set<char>, n: nat)
    requires n <= |s| && Free(s[..n], cs) && (n < |s| ==> s[n] in cs)
    ensures Find(s, cs) == n
  {
    if n > 0 {
      assert s[..n][0] == s[0];
      assert s[1..][..n - 1] == s[..n][1..];
      FindIs(s[1..], cs, n - 1);
    }
  }

  function TrimLeft(s: string): string {
    if s != "" && IsSpace(s[0]) then TrimLeft(s[1..]) else s
  }

  function TrimRight(s: string): string {
    if s != "" && IsSpace(s[|s| - 1]) then TrimRight(s[..|s| - 1]) else s
  }

  function Strip(s: string): string { TrimRight(TrimLeft(s)) }

  /** Neither begins nor ends with white space. */
  predicate Tight(s: string) { s == "" || (!IsSpace(s[0]) && !IsSpace(s[|s| - 1])) }

  lemma {:induction false} TrimLeftIs(pad: string, s: string)
    requires AllSpace(pad) && (s == "" || !IsSpace(s[0]))
    ensures TrimLeft(pad + s) == s
  {
    if pad == "" {
      assert pad + s == s;
    } else {
      assert (pad + s)[1..] == pad[1..] + s;
      TrimLeftIs(pad[1..], s);
    }
  }

  lemma {:induction false} TrimRightIs(s: string, pad: string)
    requires AllSpace(pad) && (s == "" || !IsSpace(s[|s| - 1]))
    ensures TrimRight(s + pad) == s
  {
    if pad == "" {
      assert s + pad == s;
    } else {
      var n := |s + pad| - 1;
      assert (s + pad)[..n] == s + pad[..|pad| - 1];
      assert (s + pad)[n] == pad[|pad| - 1];
      TrimRightIs(s, pad[..|pad| - 1]);
    }
  }

  /** Stripping takes off exactly the padding. */
  lemma StripIs(before: string, s: string, after: string)
    requires AllSpace(before) && AllSpace(after) && Tight(s)
    ensures Strip(before + s + after) == s
  {
    if s == "" {
      assert before + s + after == (before + after) + s;
      TrimLeftIs(before + after, s);
    } else {
      assert before + s + after == before + (s + after);
      TrimLeftIs(before, s + after);
      TrimRightIs(s, after);
    }
  }

  // ---------- numbers ----------

  function DigitValue(c: char): nat
    requires IsDigit(c)
  {
    c as int - '0' as int
  }

  /** The digits of s as a decimal number. */
  function Number(s: string): nat
    requires forall i :: 0 <= i < |s| ==> IsDigit(s[i])
  {
    if s == "" then 0 else 10 * Number(s[..|s| - 1]) + DigitValue(s[|s| - 1])
  }

  function Saturated(v: int): int {
    if v > 0x7fff_ffff_ffff_ffff then 0x7fff_ffff_ffff_ffff
    else if v < -0x8000_0000_0000_0000 then -0x8000_0000_0000_0000 else v
  }

  /** The cast from long to int. */
  function Truncated(v: int): (r: int)
    ensures -0x8000_0000 <= r < 0x8000_0000
    ensures (r - v) % 0x1_0000_0000 == 0
    ensures -0x8000_0000 <= v < 0x8000_0000 ==> r == v
  {
    (v + 0x8000_0000) % 0x1_0000_0000 - 0x8000_0000
  }

  predicate AllDigits(s: string) { forall i :: 0 <= i < |s| ==> IsDigit(s[i]) }

  /** strtol in base 10, refused unless it consumes something and everything; then cast to int. */
  function ParseInt(s: string): Option<int> {
    var t := TrimLeft(s);
    var negative := t != "" && t[0] == '-';
    var digits := if t != "" && (t[0] == '-' || t[0] == '+') then t[1..] else t;
    if digits == "" || !AllDigits(digits) then None else
      var v: int := Number(digits);
      Some(Truncated(Saturated(if negative then -v else v)))
  }

  function Digits(n: nat): (s: string)
    ensures s != "" && AllDigits(s)
  {
    if n < 10 then [(n + '0' as int) as char] else Digits(n / 10) + [(n % 10 + '0' as int) as char]
  }

  /** printf("%d"). */
  function Decimal(v: int): string {
    if v < 0 then "-" + Digits(-v) else Digits(v)
  }

  lemma {:induction false} NumberOfDigits(n: nat)
    ensures Number(Digits(n)) == n
  {
    var s := Digits(n);
    if n < 10 {
      assert s[..0] == "";
      assert Number(s[..0]) == 0;
    } else {
      assert s[..|s| - 1] == Digits(n / 10);
      NumberOfDigits(n / 10);
    }
  }

  /** Every int written in decimal is read back as itself. */
  lemma DecimalParses(v: int)
    requires -0x8000_0000 <= v < 0x8000_0000
    ensures ParseInt(Decimal(v)) == Some(v)
  {
    var n := if v < 0 then -v else v;
    NumberOfDigits(n);
    assert IsDigit(Digits(n)[0]);
    if v < 0 {
      assert ("-" + Digits(n))[1..] == Digits(n);
    }
  }

  lemma DecimalIsPlain(v: int)
    ensures var s := Decimal(v);
            s != "" && forall i :: 0 <= i < |s| ==> IsDigit(s[i]) || s[i] == '-'
  {
  }

  lemma {:induction false} DigitsAreFew(n: nat, k: nat, bound: nat)
    requires k > 0 && bound == Power10(k) && n < bound
    ensures |Digits(n)| <= k
    decreases k
  {
    if n >= 10 {
      DigitsAreFew(n / 10, k - 1, Power10(k - 1));
    }
  }

  function Power10(k: nat): nat { if k == 0 then 1 else 10 * Power10(k - 1) }

  lemma DecimalIsShort(v: int)
    requires -0x8000_0000 <= v < 0x8000_0000
    ensures |Decimal(v)| <= 11
  {
    assert Power10(5) == 100000;
    assert Power10(10) == 10000000000;
    DigitsAreFew(if v < 0 then -v else v, 10, Power10(10));
  }

  /** What is longer than its field loses exactly what does not fit before the terminating NUL. */
  lemma CopiedIsCut(s: string, size: nat)
    requires size > 0
    ensures |Copied(s, size)| == (if |s| < size then |s| else size - 1)
    ensures Copied(s, size) == s[..|Copied(s, size)|]
  {
  }

  /** The value of a digit string, most significant digit first. */
  function Positional(s: string): nat
    requires AllDigits(s)
  {
    if s == "" then 0 else DigitValue(s[0]) * Power10(|s| - 1) + Positional(s[1..])
  }

  lemma {:induction false} NumberIsPositional(s: string)
    requires AllDigits(s)
    ensures Number(s) == Positional(s)
    decreases |s|
  {
    if s != "" {
      var n := |s| - 1;
      NumberIsPositional(s[..n]);
      PositionalSnoc(s[..n], s[n]);
      assert s == s[..n] + [s[n]];
    }
  }

  lemma {:induction false} PositionalSnoc(s: string, c: char)
    requires AllDigits(s) && IsDigit(c)
    ensures Positional(s + [c]) == 10 * Positional(s) + DigitValue(c)
    decreases |s|
  {
    if s == "" {
      assert s + [c] == [c];
      assert [c][1..] == "";
      assert Power10(0) == 1;
    } else {
      var t := s[1..];
      assert (s + [c])[1..] == t + [c];
      PositionalSnoc(t, c);
      assert Power10(|s|) == 10 * Power10(|s| - 1);
      TenTimes(DigitValue(s[0]), Power10(|s| - 1));
    }
  }

  lemma TenTimes(d: nat, p: nat)
    ensures d * (10 * p) == 10 * (d * p)
  {
  }

  /** The numbers taken: white space, a sign or none, decimal digits to the end; nothing else.  The value is
      that of the digits, held within 64 bits and then cut to an int. */
  lemma NumbersTaken(pad: string, sign: string, digits: string)
    requires AllSpace(pad) && sign in {"", "+", "-"} && digits != "" && AllDigits(digits)
    ensures var v: int := Positional(digits);
            ParseInt(pad + (sign + digits)) == Some(Truncated(Saturated(if sign == "-" then -v else v)))
  {
    var t := sign + digits;
    TrimLeftIs(pad, t);
    NumberIsPositional(digits);
    assert IsDigit(digits[0]);
    if sign == "" {
      assert t == digits;
    } else {
      assert t[1..] == digits;
    }
  }

  lemma OneMoreSpace(c: char, pad: string, rest: string)
    requires IsSpace(c) && AllSpace(pad)
    ensures AllSpace([c] + pad) && [c] + (pad + rest) == ([c] + pad) + rest
  {
  }

  lemma {:induction false} Padding(s: string) returns (pad: string)
    ensures AllSpace(pad) && s == pad + TrimLeft(s)
    decreases |s|
  {
    if s != "" && IsSpace(s[0]) {
      var rest := Padding(s[1..]);
      var t := TrimLeft(s);
      OneMoreSpace(s[0], rest, t);
      pad := [s[0]] + rest;
      assert s == [s[0]] + s[1..];
    } else {
      pad := "";
      assert "" + s == s;
    }
  }

  lemma SignAndDigits(t: string) returns (sign: string, digits: string)
    requires t != ""
    ensures sign in {"", "+", "-"} && t == sign + digits
    ensures digits == if t[0] == '-' || t[0] == '+' then t[1..] else t
  {
    if t[0] == '-' || t[0] == '+' {
      sign, digits := [t[0]], t[1..];
      assert t == [t[0]] + t[1..];
    } else {
      sign, digits := "", t;
    }
  }

  lemma NothingElseTaken(s: string) returns (pad: string, sign: string, digits: string)
    requires ParseInt(s).Some?
    ensures AllSpace(pad) && sign in {"", "+", "-"} && digits != "" && AllDigits(digits)
    ensures s == pad + (sign + digits)
  {
    pad := Padding(s);
    sign, digits := SignAndDigits(TrimLeft(s));
  }

  /** Numbers beyond 64 bits: the largest long is -1 as an int, the smallest 0. */
  lemma HugeNumbers(v: int)
    ensures v > 0x7fff_ffff_ffff_ffff ==> Truncated(Saturated(v)) == -1
    ensures v < -0x8000_0000_0000_0000 ==> Truncated(Saturated(v)) == 0
    ensures -0x8000_0000 <= v < 0x8000_0000 ==> Truncated(Saturated(v)) == v
  {
  }
}
