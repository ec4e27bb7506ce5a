/**
  * The JavaScript string and number built-ins that the core uses, on `string`
  * (`seq<char>`): `Number.prototype.toString` of an integer, `padStart`,
  * `includes`, `replace` with a string pattern (first occurrence only),
  * `endsWith` and `split` on a one-character separator.
  */
module JsText {
  import opened Options

  predicate IsDigit(c: char) {
    '0' <= c <= '9'
  }

  predicate AllDigits(s: string) {
    forall i :: 0 <= i < |s| ==> IsDigit(s[i])
  }

  function DigitChar(d: nat): (c: char)
    requires d < 10
    ensures IsDigit(c) && c as int - '0' as int == d
  {
    ('0' as int + d) as char
  }

  function DigitValue(c: char): (d: nat)
    requires IsDigit(c)
    ensures d < 10 && DigitChar(d) == c
  {
    c as int - '0' as int
  }

  /** `n.toString()` for a non-negative integer: its decimal digits, without a leading zero. */
  function NatToString(n: nat): (s: string)
    ensures 1 <= |s| && AllDigits(s)
    ensures (|s| == 1) == (n < 10)
    ensures |s| > 1 ==> s[0] != '0'
    decreases n
  {
    if n < 10 then [DigitChar(n)] else NatToString(n / 10) + [DigitChar(n % 10)]
  }

  /** The value of a string of decimal digits (the inverse of `NatToString`). */
  function ParseDecimal(s: string): nat
    requires AllDigits(s)
    decreases |s|
  {
    if s == [] then 0 else ParseDecimal(s[..|s| - 1]) * 10 + DigitValue(s[|s| - 1])
  }

  lemma {:induction false} ParseNatToString(n: nat)
    ensures ParseDecimal(NatToString(n)) == n
    decreases n
  {
    var s := NatToString(n);
    if n >= 10 {
      ParseNatToString(n / 10);
      assert s[..|s| - 1] == NatToString(n / 10);
    }
  }

  /** `n.toString()` for any integer: a minus sign before the digits of a negative one. */
  function IntToString(n: int): (s: string)
    ensures n >= 0 ==> s == NatToString(n)
    ensures n < 0 ==> |s| >= 2 && s[0] == '-' && s[1..] == NatToString(-n)
  {
    if n < 0 then "-" + NatToString(-n) else NatToString(n)
  }

  /** `s.padStart(width, fill)` with a one-character `fill`. */
  function PadStart(s: string, width: nat, fill: char): (r: string)
    ensures |r| == if |s| < width then width else |s|
    ensures r[|r| - |s|..] == s
    ensures forall i :: 0 <= i < |r| - |s| ==> r[i] == fill
  {
    if |s| >= width then s else seq(width - |s|, _ => fill) + s
  }

  predicate OccursAt(s: string, pattern: string, i: nat) {
    i + |pattern| <= |s| && s[i..i + |pattern|] == pattern
  }

  /** `i` is where `pattern` first occurs in `s`. */
  predicate IsFirstOccurrence(s: string, pattern: string, i: nat) {
    OccursAt(s, pattern, i) && forall j :: 0 <= j < i ==> !OccursAt(s, pattern, j)
  }

  /** `s.indexOf(pattern, from)`, with `None` for -1. */
  function IndexOfFrom(s: string, pattern: string, from: nat): (r: Option<nat>)
    ensures r.Some? ==> from <= r.value && OccursAt(s, pattern, r.value)
    ensures r.Some? ==> forall j :: from <= j < r.value ==> !OccursAt(s, pattern, j)
    ensures r.None? ==> forall j :: from <= j ==> !OccursAt(s, pattern, j)
    decreases |s| - from
  {
    if from + |pattern| > |s| then None
    else if OccursAt(s, pattern, from) then Some(from)
    else IndexOfFrom(s, pattern, from + 1)
  }

  function IndexOf(s: string, pattern: string): (r: Option<nat>)
    ensures r.Some? ==> IsFirstOccurrence(s, pattern, r.value)
    ensures r.None? ==> forall j :: !OccursAt(s, pattern, j)
  {
    IndexOfFrom(s, pattern, 0)
  }

  /** `s.includes(pattern)`. */
  predicate Includes(s: string, pattern: string) {
    IndexOf(s, pattern).Some?
  }

  /** One character that differs from the pattern's is enough to rule an occurrence out. */
  lemma MismatchNoOccurrence(s: string, pattern: string, i: nat, k: nat)
    requires k < |pattern| && i + k < |s| && s[i + k] != pattern[k]
    ensures !OccursAt(s, pattern, i)
  {
    if i + |pattern| <= |s| {
      assert s[i..i + |pattern|][k] == s[i + k];
    }
  }

  /**
    * `s.replace(pattern, replacement)` with a string pattern: only the first
    * occurrence is replaced, and the replacement is taken literally (it is
    * assumed to hold no `$` pattern).
    */
  function ReplaceFirst(s: string, pattern: string, replacement: string): (r: string)
  {
    match IndexOf(s, pattern)
    case None => s
    case Some(i) => s[..i] + replacement + s[i + |pattern|..]
  }

  lemma FirstOccurrenceUnique(s: string, pattern: string, i: nat, k: nat)
    requires IsFirstOccurrence(s, pattern, i) && IsFirstOccurrence(s, pattern, k)
    ensures i == k
  {
  }

  /** Replacing at the first occurrence: the text before it and after it is kept. */
  lemma ReplaceFirstAt(s: string, pattern: string, replacement: string, i: nat)
    requires IsFirstOccurrence(s, pattern, i)
    ensures ReplaceFirst(s, pattern, replacement) == s[..i] + replacement + s[i + |pattern|..]
  {
    var k := IndexOf(s, pattern).value;
    FirstOccurrenceUnique(s, pattern, i, k);
  }

  /** A string without the pattern is returned unchanged. */
  lemma ReplaceFirstAbsent(s: string, pattern: string, replacement: string)
    requires forall j :: !OccursAt(s, pattern, j)
    ensures ReplaceFirst(s, pattern, replacement) == s
  {
  }

  /**
    * Only the first occurrence is replaced: a later occurrence of the pattern
    * that does not overlap the first one is still there, shifted by the
    * difference in length.
    */
  lemma {:induction false} ReplaceFirstKeepsLater(s: string, pattern: string, replacement: string, i: nat, j: nat)
    requires IsFirstOccurrence(s, pattern, i)
    requires i + |pattern| <= j && OccursAt(s, pattern, j)
    ensures OccursAt(ReplaceFirst(s, pattern, replacement), pattern, j - |pattern| + |replacement|)
  {
    ReplaceFirstAt(s, pattern, replacement, i);
    var r := s[..i] + replacement + s[i + |pattern|..];
    var j' := j - |pattern| + |replacement|;
    assert r[j'..j' + |pattern|] == s[j..j + |pattern|];
  }

  /** `s.endsWith(suffix)`. */
  predicate EndsWith(s: string, suffix: string) {
    |suffix| <= |s| && s[|s| - |suffix|..] == suffix
  }

  /** `s.split(sep)` for a one-character separator: never empty, and no part holds `sep`. */
  function Split(s: string, sep: char): (parts: seq<string>)
    ensures |parts| >= 1
    ensures forall k :: 0 <= k < |parts| ==> sep !in parts[k]
    ensures (|parts| == 1) == (sep !in s)
    decreases |s|
  {
    if s == [] then [[]]
    else
      var rest := Split(s[1..], sep);
      if s[0] == sep then [[]] + rest
      else [[s[0]] + rest[0]] + rest[1..]
  }

  /** `parts.join(sep)`. */
  function Join(parts: seq<string>, sep: char): string
    requires |parts| >= 1
    decreases |parts|
  {
    if |parts| == 1 then parts[0] else parts[0] + [sep] + Join(parts[1..], sep)
  }

  /** Joining the parts of a split with the same separator gives the string back. */
  lemma {:induction false} JoinSplit(s: string, sep: char)
    ensures Join(Split(s, sep), sep) == s
    decreases |s|
  {
    if s != [] {
      var rest := Split(s[1..], sep);
      JoinSplit(s[1..], sep);
      if s[0] == sep {
        assert ([[]] + rest)[1..] == rest;
      } else if |rest| > 1 {
        var parts := [[s[0]] + rest[0]] + rest[1..];
        assert parts[1..] == rest[1..];
        assert Join(rest, sep) == rest[0] + [sep] + Join(rest[1..], sep);
      }
    }
  }

  /**
    * The first part of a split is the text before the first separator (or the
    * whole string), and the remaining parts are the split of what follows it.
    */
  lemma {:induction false} SplitHead(s: string, sep: char, j: nat)
    requires j <= |s| && sep !in s[..j] && (j == |s| || s[j] == sep)
    ensures Split(s, sep)[0] == s[..j]
    ensures j < |s| ==> |Split(s, sep)| >= 2 && Split(s, sep)[1..] == Split(s[j + 1..], sep)
    decreases j
  {
    if j > 0 {
      assert s[0] in s[..j];
      SplitHead(s[1..], sep, j - 1);
      assert s[1..][..j - 1] == s[1..j];
      if j < |s| {
        assert s[1..][j - 1 + 1..] == s[j + 1..];
      }
      assert s[..j] == [s[0]] + s[1..j];
    } else if s != [] {
      assert s[0] == sep;
    }
  }
}
