/**
 * String helpers the Go service relies on: `fmt.Sprint` of a non-negative
 * integer, `strings.TrimSuffix`, `strings.Split` on a one-character
 * separator, and the text a sequence of Python `print` calls produces.
 */
module Text {

  predicate IsDigit(c: char) {
    '0' <= c <= '9'
  }

  predicate AllDigits(s: string) {
    forall i :: 0 <= i < |s| ==> IsDigit(s[i])
  }

  function DigitChar(d: nat): (c: char)
    requires d < 10
    ensures IsDigit(c) && c as int - '0' as int == d
  {
    (('0' as int) + d) as char
  }

  /** The decimal rendering of `n`, as `fmt.Sprint` writes a non-negative int. */
  function Decimal(n: nat): (s: string)
    ensures |s| >= 1 && AllDigits(s)
    ensures (s[0] == '0') == (n == 0)
    ensures |s| > 1 ==> n >= 10
  {
    if n < 10 then [DigitChar(n)] else Decimal(n / 10) + [DigitChar(n % 10)]
  }

  /** Reads a string of digits back as a number; the inverse of `Decimal`. */
  function ParseDecimal(s: string): nat
    requires AllDigits(s)
  {
    if s == [] then 0
    else ParseDecimal(s[..|s| - 1]) * 10 + (s[|s| - 1] as int - '0' as int)
  }

  lemma {:induction false} ParseDecimalOfDecimal(n: nat)
    ensures ParseDecimal(Decimal(n)) == n
  {
    if n >= 10 {
      var s := Decimal(n);
      assert s[..|s| - 1] == Decimal(n / 10);
      ParseDecimalOfDecimal(n / 10);
    }
  }

  /** Distinct numbers have distinct decimal renderings. */
  lemma DecimalInjective(a: nat, b: nat)
    requires Decimal(a) == Decimal(b)
    ensures a == b
  {
    ParseDecimalOfDecimal(a);
    ParseDecimalOfDecimal(b);
  }

  /** An entity id: a one-letter prefix followed by the decimal number. */
  lemma PrefixedDecimalInjective(prefix: string, a: nat, b: nat)
    requires prefix + Decimal(a) == prefix + Decimal(b)
    ensures a == b
  {
    assert Decimal(a) == (prefix + Decimal(a))[|prefix|..];
    assert Decimal(b) == (prefix + Decimal(b))[|prefix|..];
    DecimalInjective(a, b);
  }

  predicate HasSuffix(s: string, suffix: string) {
    |suffix| <= |s| && s[|s| - |suffix|..] == suffix
  }

  /** `strings.TrimSuffix`: drops one occurrence of `suffix` at the end, if present. */
  function TrimSuffix(s: string, suffix: string): (r: string)
    ensures HasSuffix(s, suffix) ==> r + suffix == s
    ensures !HasSuffix(s, suffix) ==> r == s
  {
    if HasSuffix(s, suffix) then s[..|s| - |suffix|] else s
  }

  lemma TrimSuffixOfAppended(r: string, suffix: string)
    ensures TrimSuffix(r + suffix, suffix) == r
  {
    assert (r + suffix)[|r|..] == suffix;
    assert (r + suffix)[..|r|] == r;
  }

  /** How often `v` occurs in `s` (for votes, its entry in a Python `Counter`). */
  function Count<T(==)>(s: seq<T>, v: T): nat
    decreases |s|
  {
    if s == [] then 0 else (if s[0] == v then 1 else 0) + Count(s[1..], v)
  }

  /** The count is the multiplicity of `v` in the multiset of `s`. */
  lemma {:induction false} CountIsMultiplicity<T>(s: seq<T>, v: T)
    ensures Count(s, v) == multiset(s)[v]
    decreases |s|
  {
    if s != [] {
      assert s == [s[0]] + s[1..];
      CountIsMultiplicity(s[1..], v);
    }
  }

  /**
   * `strings.Split(s, string(sep))`: the pieces between separators, so
   * one more piece than there are separators; the empty string gives `[""]`.
   */
  function Split(s: string, sep: char): (parts: seq<string>)
    ensures |parts| == Count(s, sep) + 1
    ensures forall i :: 0 <= i < |parts| ==> sep !in parts[i]
    decreases |s|
  {
    if s == [] then [""]
    else
      var rest := Split(s[1..], sep);
      if s[0] == sep then [""] + rest
      else [[s[0]] + rest[0]] + rest[1..]
  }

  /** `strings.Join(parts, string(sep))`, the partner of `Split`. */
  function Join(parts: seq<string>, sep: char): string
    requires |parts| >= 1
    decreases |parts|
  {
    if |parts| == 1 then parts[0] else parts[0] + [sep] + Join(parts[1..], sep)
  }

  lemma JoinConsHead(c: char, parts: seq<string>, sep: char)
    requires |parts| >= 1
    ensures Join([[c] + parts[0]] + parts[1..], sep) == [c] + Join(parts, sep)
  {
    var p := [[c] + parts[0]] + parts[1..];
    if |parts| > 1 {
      assert p[1..] == parts[1..];
    }
  }

  /** Joining the pieces of a split gives back the original text. */
  lemma {:induction false} JoinSplit(s: string, sep: char)
    ensures Join(Split(s, sep), sep) == s
    decreases |s|
  {
    if s != [] {
      var rest := Split(s[1..], sep);
      JoinSplit(s[1..], sep);
      if s[0] == sep {
        assert ([""] + rest)[1..] == rest;
      } else {
        JoinConsHead(s[0], rest, sep);
      }
      assert s == [s[0]] + s[1..];
    }
  }

  lemma {:induction false} SplitPrefix(w: string, t: string, sep: char)
    requires sep !in w
    ensures Split(w + t, sep) == [w + Split(t, sep)[0]] + Split(t, sep)[1..]
    decreases |w|
  {
    if w != [] {
      assert (w + t)[1..] == w[1..] + t;
      assert (w + t)[0] == w[0];
      SplitPrefix(w[1..], t, sep);
      var r := Split(t, sep);
      var rest := Split(w[1..] + t, sep);
      assert rest[0] == w[1..] + r[0] && rest[1..] == r[1..];
      assert Split(w + t, sep) == [[w[0]] + rest[0]] + rest[1..];
      assert [w[0]] + (w[1..] + r[0]) == w + r[0];
    } else {
      var r := Split(t, sep);
      assert w + t == t && w + r[0] == r[0];
      assert [r[0]] + r[1..] == r;
    }
  }

  /** Splitting a join of separator-free pieces gives back the pieces. */
  lemma {:induction false} SplitJoin(parts: seq<string>, sep: char)
    requires |parts| >= 1
    requires forall i :: 0 <= i < |parts| ==> sep !in parts[i]
    ensures Split(Join(parts, sep), sep) == parts
    decreases |parts|
  {
    var w := parts[0];
    if |parts| == 1 {
      SplitPrefix(w, "", sep);
      assert w + "" == w;
    } else {
      var j := Join(parts[1..], sep);
      SplitJoin(parts[1..], sep);
      assert ([sep] + j)[1..] == j;
      assert Split([sep] + j, sep) == [""] + parts[1..];
      SplitPrefix(w, [sep] + j, sep);
      assert w + ([sep] + j) == w + [sep] + j;
      assert w + "" == w;
      assert [w] + parts[1..] == parts;
    }
  }

  /** The text written by one Python `print` per element of `lines`. */
  function Printed(lines: seq<string>): string
    decreases |lines|
  {
    if lines == [] then "" else lines[0] + "\n" + Printed(lines[1..])
  }

  lemma {:induction false} PrintedIsJoin(lines: seq<string>)
    requires |lines| >= 1
    ensures Printed(lines) == Join(lines, '\n') + "\n"
    decreases |lines|
  {
    if |lines| > 1 {
      PrintedIsJoin(lines[1..]);
    }
  }
}
