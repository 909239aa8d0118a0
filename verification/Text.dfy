/** Strings as the Go standard library treats them, over Unicode code points. */
module Text {
  /** Byte-wise string order; UTF-8 keeps it equal to code-point order. */
  predicate Before(a: string, b: string) {
    b != "" && (a == "" || a[0] < b[0] || (a[0] == b[0] && Before(a[1..], b[1..])))
  }

  /** The first difference decides, and a proper prefix comes first. */
  lemma {:induction false} BeforeIff(a: string, b: string)
    ensures Before(a, b) <==> exists k: nat :: FirstDifference(a, b, k) && (k == |a| || (k < |b| && a[k] < b[k]))
  {
    if a != "" && b != "" && a[0] == b[0] {
      BeforeIff(a[1..], b[1..]);
      forall k: nat | FirstDifference(a[1..], b[1..], k) ensures FirstDifference(a, b, k + 1) {
        assert a == [a[0]] + a[1..] && b == [b[0]] + b[1..];
        assert a[..k + 1] == [a[0]] + a[1..][..k] && b[..k + 1] == [b[0]] + b[1..][..k];
      }
      forall k: nat | FirstDifference(a, b, k) ensures k > 0 && FirstDifference(a[1..], b[1..], k - 1) {
        if k > 0 { assert a[1..][..k - 1] == a[..k][1..] && b[1..][..k - 1] == b[..k][1..]; }
      }
    } else {
      assert a[..0] == b[..0] == "";
      forall k: nat | FirstDifference(a, b, k) ensures k == 0 {
        if k > 0 { SameFirst(a, b, k); }
      }
      if !(a == "" && b == "") { assert FirstDifference(a, b, 0); }
    }
  }

  lemma SameFirst(a: string, b: string, k: nat)
    requires FirstDifference(a, b, k) && k > 0
    ensures a != "" && b != "" && a[0] == b[0]
  {
    assert a[0] == a[..k][0] && b[0] == b[..k][0];
  }

  /** The strings agree on `k` characters and not on the next; one of them may end there. */
  predicate FirstDifference(a: string, b: string, k: nat) {
    && k <= |a| && k <= |b| && a[..k] == b[..k]
    && (k < |a| || k < |b|) && (k < |a| && k < |b| ==> a[k] != b[k])
  }

  lemma BeforeIrreflexive(a: string)
    ensures !Before(a, a)
  {}

  lemma {:induction false} BeforeTransitive(a: string, b: string, c: string)
    requires Before(a, b) && Before(b, c)
    ensures Before(a, c)
  {
    if a != "" && a[0] == b[0] && b[0] == c[0] {
      BeforeTransitive(a[1..], b[1..], c[1..]);
    }
  }

  lemma {:induction false} BeforeTotal(a: string, b: string)
    ensures a == b || Before(a, b) || Before(b, a)
  {
    if a != "" && b != "" && a[0] == b[0] {
      BeforeTotal(a[1..], b[1..]);
      assert a == [a[0]] + a[1..] && b == [b[0]] + b[1..];
    }
  }

  /** Bytes of the UTF-8 encoding of a string, which is what Go counts and slices. */
  function Utf8Length(s: string): nat {
    if s == "" then 0 else Utf8Length(s[1..]) + Utf8Width(s[0])
  }

  function Utf8Width(c: char): nat {
    if c < '\U{0080}' then 1 else if c < '\U{0800}' then 2 else if c < '\U{10000}' then 3 else 4
  }

  // ---------------------------------------------------------------------------------------
  // White space.

  /** unicode.IsSpace. */
  predicate IsSpace(c: char) {
    || IsRegexSpace(c) || c == '\U{000B}' || c == '\U{0085}' || c == '\U{00A0}' || c == '\U{1680}'
    || '\U{2000}' <= c <= '\U{200A}' || c == '\U{2028}' || c == '\U{2029}' || c == '\U{202F}'
    || c == '\U{205F}' || c == '\U{3000}'
  }

  /** The class \s of the regexp package. */
  predicate IsRegexSpace(c: char) {
    c == '\t' || c == '\n' || c == '\U{000C}' || c == '\r' || c == ' '
  }

  predicate Blank(s: string) {
    forall i :: 0 <= i < |s| ==> IsSpace(s[i])
  }

  function TrimLeft(s: string): string {
    if s != "" && IsSpace(s[0]) then TrimLeft(s[1..]) else s
  }

  function TrimRight(s: string): string {
    if s != "" && IsSpace(s[|s| - 1]) then TrimRight(s[..|s| - 1]) else s
  }

  function TrimSpace(s: string): string {
    TrimRight(TrimLeft(s))
  }

  predicate Trimmed(s: string) {
    s == "" || (!IsSpace(s[0]) && !IsSpace(s[|s| - 1]))
  }

  lemma {:induction false} TrimLeftBlank(a: string, s: string)
    requires Blank(a) && (s == "" || !IsSpace(s[0]))
    ensures TrimLeft(a + s) == s
  {
    if a == "" {
      assert a + s == s;
    } else {
      assert (a + s)[1..] == a[1..] + s;
      TrimLeftBlank(a[1..], s);
    }
  }

  lemma {:induction false} TrimRightBlank(s: string, b: string)
    requires Blank(b) && (s == "" || !IsSpace(s[|s| - 1]))
    ensures TrimRight(s + b) == s
  {
    if b == "" {
      assert s + b == s;
    } else {
      assert (s + b)[..|s + b| - 1] == s + b[..|b| - 1];
      TrimRightBlank(s, b[..|b| - 1]);
    }
  }

  /** Trimming strips exactly the blank surroundings of a trimmed text. */
  lemma TrimAround(a: string, s: string, b: string)
    requires Blank(a) && Blank(b) && Trimmed(s)
    ensures TrimSpace(a + s + b) == s
  {
    if s == "" {
      assert a + s + b == (a + b) + "";
      TrimLeftBlank(a + b, "");
    } else {
      assert a + s + b == a + (s + b);
      TrimLeftBlank(a, s + b);
      TrimRightBlank(s, b);
    }
  }

  /** What trimming leaves does not start with white space. */
  lemma TrimmedStart(s: string)
    ensures TrimSpace(s) == "" || !IsSpace(TrimSpace(s)[0])
  {
    TrimLeftStart(s);
    TrimRightPrefix(TrimLeft(s));
  }

  lemma {:induction false} TrimLeftStart(s: string)
    ensures TrimLeft(s) == "" || !IsSpace(TrimLeft(s)[0])
  {
    if s != "" && IsSpace(s[0]) { TrimLeftStart(s[1..]); }
  }

  lemma {:induction false} TrimRightPrefix(s: string)
    ensures TrimRight(s) <= s
  {
    if s != "" && IsSpace(s[|s| - 1]) { TrimRightPrefix(s[..|s| - 1]); }
  }

  lemma TrimOfTrimmed(s: string)
    requires Trimmed(s)
    ensures TrimSpace(s) == s
  {
    assert "" + s + "" == s;
    TrimAround("", s, "");
  }

  /** Drop leading regexp white space. */
  function SkipSpaces(s: string): (r: string)
    ensures |r| <= |s|
  {
    if s != "" && IsRegexSpace(s[0]) then SkipSpaces(s[1..]) else s
  }

  // ---------------------------------------------------------------------------------------
  // Decimal numbers.

  /** The four widths of UTF-8, by code point. */
  lemma WidthByCode(c: char)
    ensures Utf8Width(c) == 1 <==> c as int < 0x80
    ensures Utf8Width(c) == 2 <==> 0x80 <= c as int < 0x800
    ensures Utf8Width(c) == 3 <==> 0x800 <= c as int < 0x10000
    ensures Utf8Width(c) == 4 <==> 0x10000 <= c as int
  {}

  predicate IsDigit(c: char) {
    '0' <= c <= '9'
  }

  predicate Digits(s: string) {
    forall i :: 0 <= i < |s| ==> IsDigit(s[i])
  }

  function DigitChar(n: nat): char
    requires n < 10
  {
    '0' + n as char
  }

  function DigitValue(c: char): nat
    requires IsDigit(c)
  {
    c as int - '0' as int
  }

  /** Decimal notation of a natural number. */
  function Itoa(n: nat): string {
    if n < 10 then [DigitChar(n)] else Itoa(n / 10) + [DigitChar(n % 10)]
  }

  /** The number a digit string denotes. */
  function NatOf(s: string): nat
    requires Digits(s)
  {
    if s == "" then 0 else NatOf(s[..|s| - 1]) * 10 + DigitValue(s[|s| - 1])
  }

  lemma {:induction false} ItoaRoundTrip(n: nat)
    ensures Itoa(n) != "" && Digits(Itoa(n)) && NatOf(Itoa(n)) == n
  {
    if n >= 10 {
      ItoaRoundTrip(n / 10);
      assert Itoa(n)[..|Itoa(n)| - 1] == Itoa(n / 10);
    }
  }

  lemma ItoaInjective(m: nat, n: nat)
    requires Itoa(m) == Itoa(n)
    ensures m == n
  {
    ItoaRoundTrip(m);
    ItoaRoundTrip(n);
  }

  /** The longest digit prefix, and what follows it. */
  function TakeDigits(s: string): (r: (string, string))
    ensures s == r.0 + r.1 && Digits(r.0) && (r.1 == "" || !IsDigit(r.1[0]))
  {
    if s != "" && IsDigit(s[0]) then
      var (d, rest) := TakeDigits(s[1..]);
      ([s[0]] + d, rest)
    else ("", s)
  }

  lemma {:induction false} TakeDigitsOf(d: string, t: string)
    requires Digits(d) && (t == "" || !IsDigit(t[0]))
    ensures TakeDigits(d + t) == (d, t)
  {
    if d == "" {
      assert d + t == t;
    } else {
      assert (d + t)[1..] == d[1..] + t;
      TakeDigitsOf(d[1..], t);
      assert [d[0]] + d[1..] == d;
    }
  }

  const MAX_INT64: int := 0x7FFF_FFFF_FFFF_FFFF

  /** strconv.Atoi: the value, and whether there was no error.  Overflow saturates and is an error. */
  function Atoi(s: string): (int, bool) {
    var negative := s != "" && s[0] == '-';
    var d := if s != "" && (s[0] == '-' || s[0] == '+') then s[1..] else s;
    if d == "" || !Digits(d) then (0, false)
    else if !negative then (if NatOf(d) > MAX_INT64 then (MAX_INT64, false) else (NatOf(d) as int, true))
    else if NatOf(d) > MAX_INT64 + 1 then (-MAX_INT64 - 1, false)
    else (-(NatOf(d) as int), true)
  }

  lemma AtoiOfItoa(n: nat)
    requires n <= MAX_INT64
    ensures Atoi(Itoa(n)) == (n, true)
  {
    ItoaRoundTrip(n);
    assert IsDigit(Itoa(n)[0]);
  }

  /** What reads as a number: digits with an optional sign, and no more than 64 bits can hold. */
  lemma AtoiReads(d: string)
    requires d != "" && Digits(d)
    ensures Atoi(d) == (if NatOf(d) <= 0x7FFF_FFFF_FFFF_FFFF then (NatOf(d) as int, true)
                        else (0x7FFF_FFFF_FFFF_FFFF, false))
    ensures Atoi("+" + d) == Atoi(d)
    ensures Atoi("-" + d) == (if NatOf(d) <= 0x8000_0000_0000_0000 then (-(NatOf(d) as int), true)
                              else (-0x8000_0000_0000_0000, false))
  {
    assert IsDigit(d[0]);
    assert ("+" + d)[1..] == d && ("-" + d)[1..] == d;
  }

  lemma AtoiRejects(s: string)
    requires s == "" || !Digits(s[1..]) || (!IsDigit(s[0]) && s[0] != '+' && s[0] != '-') || s == "+" || s == "-"
    ensures Atoi(s) == (0, false)
  {
    if s != "" && Digits(s) { DigitsTail(s); }
  }

  lemma DigitsTail(s: string)
    requires s != "" && Digits(s)
    ensures IsDigit(s[0]) && Digits(s[1..])
  {}

  // ---------------------------------------------------------------------------------------
  // Splitting and joining.

  function Split(s: string, sep: char): (parts: seq<string>)
    ensures |parts| >= 1
  {
    if s == "" then [""]
    else if s[0] == sep then [""] + Split(s[1..], sep)
    else
      var rest := Split(s[1..], sep);
      [[s[0]] + rest[0]] + rest[1..]
  }

  function Join(parts: seq<string>, sep: string): string {
    if parts == [] then ""
    else if |parts| == 1 then parts[0]
    else parts[0] + sep + Join(parts[1..], sep)
  }

  /** A piece without the separator, then the separator, then the rest. */
  lemma {:induction false} SplitPiece(a: string, sep: char, t: string)
    requires sep !in a
    ensures Split(a + [sep] + t, sep) == [a] + Split(t, sep)
  {
    if a == "" {
      assert a + [sep] + t == [sep] + t;
    } else {
      var s := a + [sep] + t;
      assert s[1..] == a[1..] + [sep] + t;
      SplitPiece(a[1..], sep, t);
      assert [s[0]] + a[1..] == a;
    }
  }

  lemma {:induction false} SplitWhole(a: string, sep: char)
    requires sep !in a
    ensures Split(a, sep) == [a]
  {
    if a != "" {
      SplitWhole(a[1..], sep);
      assert [a[0]] + a[1..] == a;
    }
  }

  /** Splitting and joining with the same separator is the identity. */
  lemma {:induction false} JoinSplit(s: string, sep: char)
    ensures Join(Split(s, sep), [sep]) == s
  {
    if s != "" {
      JoinSplit(s[1..], sep);
      var rest := Split(s[1..], sep);
      if s[0] == sep {
        assert ([""] + rest)[1..] == rest;
        assert "" + [sep] + s[1..] == s;
      } else {
        assert Split(s, sep)[1..] == rest[1..];
        if |rest| > 1 {
          var more := Join(rest[1..], [sep]);
          assert [s[0]] + rest[0] + [sep] + more == [s[0]] + (rest[0] + [sep] + more);
        }
        assert [s[0]] + s[1..] == s;
      }
    }
  }
}
