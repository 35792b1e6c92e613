/** Go strings are byte sequences; a byte is written as the character of the same code. */
module Text {

  type Byte = c: char | c as int < 256 witness 'a'
  type Bytes = seq<Byte>

  // ---- strings.Split and its inverse ----

  function Split(s: Bytes, sep: Byte): (parts: seq<Bytes>)
    ensures |parts| >= 1
  {
    if s == [] then [[]]
    else
      var rest := Split(s[1..], sep);
      if s[0] == sep then [[]] + rest else [[s[0]] + rest[0]] + rest[1..]
  }

  function Join(parts: seq<Bytes>, sep: Byte): Bytes
    requires |parts| >= 1
  {
    if |parts| == 1 then parts[0] else parts[0] + [sep] + Join(parts[1..], sep)
  }

  lemma SplitStep(s: Bytes, sep: Byte)
    requires s != []
    ensures Split(s, sep) == if s[0] == sep then [[]] + Split(s[1..], sep)
                             else [[s[0]] + Split(s[1..], sep)[0]] + Split(s[1..], sep)[1..]
  {
  }

  lemma PrependConcat(c: Byte, p: seq<Bytes>, q: seq<Bytes>, sep: Byte)
    requires |p| >= 1
    ensures (if c == sep then [[]] + (p + q) else [[c] + (p + q)[0]] + (p + q)[1..])
            == (if c == sep then [[]] + p else [[c] + p[0]] + p[1..]) + q
  {
    assert (p + q)[1..] == p[1..] + q;
  }

  lemma {:induction false} SplitConcat(a: Bytes, b: Bytes, sep: Byte)
    ensures Split(a + [sep] + b, sep) == Split(a, sep) + Split(b, sep)
  {
    hide Split;
    var s := a + [sep] + b;
    SplitStep(s, sep);
    if a == [] {
      SplitEmpty(sep);
      assert s[1..] == b;
    } else {
      var first, second := Split(a[1..], sep), Split(b, sep);
      assert s[1..] == a[1..] + [sep] + b && s[0] == a[0];
      SplitConcat(a[1..], b, sep);
      SplitStep(a, sep);
      PrependConcat(s[0], first, second, sep);
    }
  }

  lemma SplitEmpty(sep: Byte)
    ensures Split([], sep) == [[]]
  {
  }

  lemma {:induction false} SplitWithoutSeparator(a: Bytes, sep: Byte)
    requires sep !in a
    ensures Split(a, sep) == [a]
  {
    if a != [] {
      SplitWithoutSeparator(a[1..], sep);
      assert [a[0]] + a[1..] == a;
    }
  }

  lemma {:induction false} SplitJoin(parts: seq<Bytes>, sep: Byte)
    requires |parts| >= 1
    requires forall i :: 0 <= i < |parts| ==> sep !in parts[i]
    ensures Split(Join(parts, sep), sep) == parts
  {
    SplitWithoutSeparator(parts[0], sep);
    if |parts| > 1 {
      var rest := parts[1..];
      assert forall i :: 0 <= i < |rest| ==> rest[i] == parts[i + 1];
      SplitJoin(rest, sep);
      SplitConcat(parts[0], Join(rest, sep), sep);
      assert parts == [parts[0]] + rest;
    }
  }

  lemma JoinStep(first: Bytes, rest: seq<Bytes>, sep: Byte)
    ensures Join([first] + rest, sep) == if rest == [] then first else first + [sep] + Join(rest, sep)
  {
    assert ([first] + rest)[1..] == rest;
  }

  lemma {:induction false} JoinSplit(s: Bytes, sep: Byte)
    ensures Join(Split(s, sep), sep) == s
  {
    hide Split, Join;
    if s == [] {
      SplitEmpty(sep);
      JoinStep([], [], sep);
      assert [[]] + [] == Split(s, sep);
    } else {
      JoinSplit(s[1..], sep);
      SplitStep(s, sep);
      var rest := Split(s[1..], sep);
      JoinStep([], rest, sep);
      JoinStep(rest[0], rest[1..], sep);
      JoinStep([s[0]] + rest[0], rest[1..], sep);
      assert [rest[0]] + rest[1..] == rest;
      assert [[s[0]] + rest[0]] + rest[1..] == Split(s, sep) || s[0] == sep;
    }
  }

  lemma {:induction false} PartsWithoutSeparator(s: Bytes, sep: Byte)
    ensures forall i :: 0 <= i < |Split(s, sep)| ==> sep !in Split(s, sep)[i]
  {
    if s != [] {
      PartsWithoutSeparator(s[1..], sep);
    }
  }

  // ---- strings.TrimSpace, restricted to ASCII white space ----

  predicate IsSpace(c: Byte) {
    c == ' ' || 9 <= c as int <= 13
  }

  /** Tab, line feed, vertical tab, form feed, carriage return and blank. */
  lemma SpacesListed(c: Byte)
    ensures IsSpace(c) <==> c as int in {9, 10, 11, 12, 13, 32}
  {
  }

  function TrimRight(s: Bytes): Bytes {
    if s != [] && IsSpace(s[|s| - 1]) then TrimRight(s[..|s| - 1]) else s
  }

  function TrimLeft(s: Bytes): Bytes {
    if s != [] && IsSpace(s[0]) then TrimLeft(s[1..]) else s
  }

  function TrimSpace(s: Bytes): Bytes {
    TrimRight(TrimLeft(s))
  }

  /** Trimming on the right removes a suffix made of white space and leaves none behind. */
  lemma {:induction false} TrimRightSplits(s: Bytes)
    ensures TrimRight(s) <= s
    ensures forall i :: |TrimRight(s)| <= i < |s| ==> IsSpace(s[i])
    ensures TrimRight(s) != [] ==> !IsSpace(TrimRight(s)[|TrimRight(s)| - 1])
  {
    if s != [] && IsSpace(s[|s| - 1]) {
      TrimRightSplits(s[..|s| - 1]);
    }
  }

  // ---- strings.EqualFold (ASCII) and strings.Contains ----

  function Lower(c: Byte): Byte {
    if 'A' <= c <= 'Z' then (c as int + 32) as char else c
  }

  function Fold(s: Bytes): Bytes {
    seq(|s|, i requires 0 <= i < |s| => Lower(s[i]))
  }

  predicate EqualFold(a: Bytes, b: Bytes) {
    Fold(a) == Fold(b)
  }

  predicate Contains(s: Bytes, sub: Bytes) {
    exists i :: 0 <= i <= |s| && sub <= s[i..]
  }

  const UPPER: string := "ABCDEFGHIJKLMNOPQRSTUVWXYZ"
  const LOWER: string := "abcdefghijklmnopqrstuvwxyz"

  /** Two bytes are the upper and lower case of one letter. */
  ghost predicate Cases(a: Byte, b: Byte) {
    exists v :: 0 <= v < 26 && |UPPER| == |LOWER| == 26 && UPPER[v] == a && LOWER[v] == b
  }

  lemma UpperCases(a: Byte, b: Byte)
    ensures Cases(a, b) <==> 'A' <= a <= 'Z' && b == (a as int + 32) as char
  {
    if 'A' <= a <= 'Z' && b == (a as int + 32) as char {
      var v := a as int - 'A' as int;
      LetterAt(v);
      assert UPPER[v] == a && LOWER[v] == b;
    }
    if v :| 0 <= v < 26 && |UPPER| == |LOWER| == 26 && UPPER[v] == a && LOWER[v] == b {
      LetterAt(v);
    }
  }

  lemma LetterAt(v: int)
    requires 0 <= v < 26
    ensures |UPPER| == |LOWER| == 26
    ensures UPPER[v] == ('A' as int + v) as char && LOWER[v] == ('a' as int + v) as char
  {
  }

  /** Strings are equal under folding if they differ in the case of letters only. */
  lemma EqualFoldIff(a: Bytes, b: Bytes)
    ensures EqualFold(a, b) <==>
            |a| == |b| && forall i :: 0 <= i < |a| ==> a[i] == b[i] || Cases(a[i], b[i]) || Cases(b[i], a[i])
  {
    if |a| == |b| {
      forall i | 0 <= i < |a|
        ensures Lower(a[i]) == Lower(b[i]) <==> a[i] == b[i] || Cases(a[i], b[i]) || Cases(b[i], a[i])
      {
        UpperCases(a[i], b[i]);
        UpperCases(b[i], a[i]);
      }
      assert forall i :: 0 <= i < |a| ==> Fold(a)[i] == Lower(a[i]) && Fold(b)[i] == Lower(b[i]);
    } else {
      assert |Fold(a)| == |a| && |Fold(b)| == |b|;
    }
  }

  /** A string contains another if it is that one with something before and after it. */
  lemma ContainsIff(s: Bytes, sub: Bytes)
    ensures Contains(s, sub) <==> exists u: Bytes, v: Bytes :: s == u + sub + v
  {
    if Contains(s, sub) {
      var i :| 0 <= i <= |s| && sub <= s[i..];
      assert s == s[..i] + sub + s[i + |sub|..];
    }
    if u: Bytes, v: Bytes :| s == u + sub + v {
      assert s[|u|..] == sub + v;
    }
  }

  lemma ContainsItself(s: Bytes)
    ensures Contains(s, s)
  {
    assert s <= s[0..];
  }

  // ---- decimal numerals, as printed by %d ----

  function DigitChar(d: nat): Byte
    requires d < 10
  {
    ('0' as int + d) as char
  }

  function Decimal(n: nat): (s: Bytes)
    ensures |s| >= 1
    ensures forall c :: c in s ==> '0' <= c <= '9'
  {
    if n < 10 then [DigitChar(n)] else Decimal(n / 10) + [DigitChar(n % 10)]
  }

  /** Reads a numeral back; other bytes count by their distance from '0'. */
  function Numeral(s: Bytes): int {
    if s == [] then 0 else 10 * Numeral(s[..|s| - 1]) + (s[|s| - 1] as int - '0' as int)
  }

  lemma {:induction false} NumeralDecimal(n: nat)
    ensures Numeral(Decimal(n)) == n
  {
    if n >= 10 {
      NumeralDecimal(n / 10);
      assert Decimal(n)[..|Decimal(n)| - 1] == Decimal(n / 10);
    } else {
      assert Numeral([]) == 0;
    }
  }

  /** No leading zeros. */
  lemma {:induction false} DecimalLeads(n: nat)
    ensures n > 0 ==> Decimal(n)[0] != '0'
    ensures Decimal(0) == "0" && Decimal(10) == "10" && Decimal(305) == "305"
  {
    assert Decimal(10) == Decimal(1) + [DigitChar(0)] && Decimal(1) == "1";
    assert Decimal(305) == Decimal(30) + [DigitChar(5)] && Decimal(30) == Decimal(3) + [DigitChar(0)];
    if n >= 10 {
      DecimalLeads(n / 10);
    }
  }

  lemma DecimalInjective(m: nat, n: nat)
    requires Decimal(m) == Decimal(n)
    ensures m == n
  {
    NumeralDecimal(m);
    NumeralDecimal(n);
  }
}
