/** Decimal numerals and the few string operations the parsers and keys are made of. */
module Text {
  import opened Basics

  predicate IsDigit(c: char) {
    '0' <= c <= '9'
  }

  predicate AllDigits(s: string) {
    forall c :: c in s ==> IsDigit(c)
  }

  function DigitValue(c: char): (d: nat)
    requires IsDigit(c)
    ensures d < 10
  {
    c as int - '0' as int
  }

  /** The decimal numeral of a number, as str() and \(n) print it. */
  function PrintNat(n: nat): (s: string)
    ensures s != "" && AllDigits(s)
  {
    var last := [('0' as int + n % 10) as char];
    if n < 10 then last else PrintNat(n / 10) + last
  }

  /** The number a string of digits stands for. */
  function ReadNat(s: string): nat
    requires AllDigits(s)
  {
    if s == "" then 0
    else 10 * ReadNat(s[..|s| - 1]) + DigitValue(s[|s| - 1])
  }

  lemma {:induction false} ReadPrinted(n: nat)
    ensures ReadNat(PrintNat(n)) == n
  {
    if n >= 10 {
      ReadPrinted(n / 10);
      assert PrintNat(n)[..|PrintNat(n)| - 1] == PrintNat(n / 10);
    }
  }

  lemma PrintInjective(a: nat, b: nat)
    requires PrintNat(a) == PrintNat(b)
    ensures a == b
  {
    ReadPrinted(a);
    ReadPrinted(b);
  }

  predicate StartsWith(s: string, prefix: string) {
    |prefix| <= |s| && s[..|prefix|] == prefix
  }

  lemma StartsWithChar(s: string, c: char)
    ensures StartsWith(s, [c]) <==> s != "" && s[0] == c
  {
    if s != "" {
      assert s[..1] == [s[0]];
    }
  }

  /**
   * Two texts cut at the first separator character agree only if both halves agree.
   */
  lemma CutUnique(a: string, b: string, c: string, d: string, sep: char)
    requires sep !in a && sep !in c
    requires a + [sep] + b == c + [sep] + d
    ensures a == c && b == d
  {
    var s, t := a + [sep] + b, c + [sep] + d;
    assert s[|a|] == sep && t[|c|] == sep;
    assert forall i :: 0 <= i < |a| ==> s[i] == a[i];
    assert forall i :: 0 <= i < |c| ==> t[i] == c[i];
    assert |a| == |c|;
    assert a == s[..|a|] && c == t[..|c|];
    assert b == s[|a| + 1..] && d == t[|c| + 1..];
  }

  /** A text starts with a cut prefix exactly when the heads agree and the tail starts with the rest. */
  lemma PrefixCut(a: string, x: string, k: string, q: string, sep: char)
    requires sep !in a && sep !in k
    ensures StartsWith(a + [sep] + x, k + [sep] + q) <==> a == k && StartsWith(x, q)
  {
    var s, p := a + [sep] + x, k + [sep] + q;
    if StartsWith(s, p) {
      assert s == k + [sep] + (q + s[|p|..]);
      CutUnique(a, x, k, q + s[|p|..], sep);
    }
    if a == k && StartsWith(x, q) {
      assert s[..|p|] == p;
    }
  }

  // ---------------------------------------------------------------------------------
  // str.split, str.strip and int().

  /** The position of the first occurrence of a character, or the length. */
  function Find(s: string, c: char): (i: nat)
    ensures i <= |s| && c !in s[..i]
    ensures i < |s| ==> s[i] == c
    ensures i == |s| ==> c !in s
  {
    if s == "" || s[0] == c then 0
    else
      assert s == [s[0]] + s[1..];
      var i := Find(s[1..], c);
      assert s[..i + 1] == [s[0]] + s[1..][..i];
      i + 1
  }

  function Split(s: string, sep: char): seq<string>
    decreases |s|
  {
    var i := Find(s, sep);
    if i == |s| then [s] else [s[..i]] + Split(s[i + 1..], sep)
  }

  lemma SplitFirst(a: string, sep: char, rest: string)
    requires sep !in a
    ensures Split(a + [sep] + rest, sep) == [a] + Split(rest, sep)
  {
    var s := a + [sep] + rest;
    var i := Find(s, sep);
    assert s[|a|] == sep;
    assert i < |s| && s == s[..i] + [sep] + s[i + 1..];
    CutUnique(a, rest, s[..i], s[i + 1..], sep);
  }

  lemma {:induction false} SplitHasNoSeparator(s: string, sep: char)
    ensures forall p :: p in Split(s, sep) ==> sep !in p
    ensures |Split(s, sep)| >= 1
    ensures forall c :: c in Split(s, sep)[0] ==> c in s
    decreases |s|
  {
    var i := Find(s, sep);
    if i < |s| {
      SplitHasNoSeparator(s[i + 1..], sep);
    }
  }

  /** str.isspace for one character. */
  predicate IsSpace(c: char) {
    var u := c as int;
    || 9 <= u <= 13 || 28 <= u <= 32 || u == 0x85 || u == 0xA0 || u == 0x1680
    || 0x2000 <= u <= 0x200A || u == 0x2028 || u == 0x2029 || u == 0x202F || u == 0x205F || u == 0x3000
  }

  function StripLeft(s: string): (t: string)
    ensures t == "" || !IsSpace(t[0])
    ensures forall c :: c in t ==> c in s
  {
    if s != "" && IsSpace(s[0]) then StripLeft(s[1..]) else s
  }

  function StripRight(s: string): (t: string)
    ensures t == "" || !IsSpace(t[|t| - 1])
    ensures |t| <= |s| && t == s[..|t|]
  {
    if s != "" && IsSpace(s[|s| - 1]) then StripRight(s[..|s| - 1]) else s
  }

  function Strip(s: string): string {
    StripRight(StripLeft(s))
  }

  lemma StripNothing(s: string)
    requires s != "" && !IsSpace(s[0]) && !IsSpace(s[|s| - 1])
    ensures Strip(s) == s
  {
  }

  function Without(s: string, c: char): (t: string)
    ensures forall x :: x in t <==> x in s && x != c
  {
    if s == "" then ""
    else
      assert s == [s[0]] + s[1..];
      (if s[0] == c then "" else [s[0]]) + Without(s[1..], c)
  }

  /** Digits, with single underscores allowed between them, as int() reads them. */
  predicate DigitGroups(s: string) {
    && s != "" && IsDigit(s[0]) && IsDigit(s[|s| - 1])
    && (forall c :: c in s ==> IsDigit(c) || c == '_')
    && (forall i :: 0 <= i < |s| - 1 ==> s[i] != '_' || s[i + 1] != '_')
  }

  /** The number that ASCII text stands for in Python; None where the conversion fails. */
  function ParseInt(s: string): Option<int> {
    var t := Strip(s);
    var digits := if t != "" && (t[0] == '+' || t[0] == '-') then t[1..] else t;
    if !DigitGroups(digits) then None
    else
      var magnitude: int := ReadNat(Without(digits, '_'));
      Some(if t[0] == '-' then -magnitude else magnitude)
  }

  lemma {:induction false} WithoutAbsent(s: string, c: char)
    requires c !in s
    ensures Without(s, c) == s
  {
    if s != "" {
      WithoutAbsent(s[1..], c);
    }
  }

  lemma ParsePrinted(n: nat)
    ensures ParseInt(PrintNat(n)) == Some(n)
  {
    var s := PrintNat(n);
    assert s[0] in s && s[|s| - 1] in s;
    StripNothing(s);
    assert '_' !in s;
    WithoutAbsent(s, '_');
    ReadPrinted(n);
  }
}
