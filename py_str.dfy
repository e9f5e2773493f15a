/**
 * The Python string operations the knowledge base and the pipeline rely on:
 * `sep.join(parts)`, `s.replace(old, new)` for one character, `s.title()`
 * restricted to ASCII, and `f"{n}"` for a natural number; plus `s.split(sep)`,
 * which the code does not call and which serves only to state the line
 * structure of a document.
 */
module PyStr {

  // ---------------------------------------------------------------------------
  // str.join and str.split
  // ---------------------------------------------------------------------------

  /** `sep.join(parts)`: the parts with `sep` between neighbours. */
  function Join(sep: string, parts: seq<string>): string
  {
    if |parts| == 0 then ""
    else if |parts| == 1 then parts[0]
    else parts[0] + sep + Join(sep, parts[1..])
  }

  /** `s.split(sep)` for a one-character separator: never empty, `"".split(sep) == [""]`. */
  function Split(s: string, sep: char): (r: seq<string>)
    ensures |r| >= 1
  {
    if |s| == 0 then [""]
    else if s[0] == sep then [""] + Split(s[1..], sep)
    else
      var rest := Split(s[1..], sep);
      [[s[0]] + rest[0]] + rest[1..]
  }

  /** Joining two non-empty lists of parts puts one separator between the two joins. */
  lemma {:induction false} JoinAppend(sep: string, a: seq<string>, b: seq<string>)
    requires |a| > 0 && |b| > 0
    ensures Join(sep, a + b) == Join(sep, a) + sep + Join(sep, b)
  {
    if |a| == 1 {
      assert (a + b)[1..] == b;
    } else {
      assert (a + b)[1..] == a[1..] + b;
      JoinAppend(sep, a[1..], b);
    }
  }

  /** Joining a part in front of a non-empty list puts one separator after it. */
  lemma JoinCons(sep: string, first: string, rest: seq<string>)
    requires |rest| > 0
    ensures Join(sep, [first] + rest) == first + sep + Join(sep, rest)
  {
    assert ([first] + rest)[1..] == rest;
  }

  /** No part contains the separator character. */
  predicate SeparatorFree(parts: seq<string>, sep: char)
  {
    forall i :: 0 <= i < |parts| ==> sep !in parts[i]
  }

  lemma {:induction false} SplitWithoutSeparator(a: string, sep: char)
    requires sep !in a
    ensures Split(a, sep) == [a]
  {
    if |a| > 0 {
      SplitWithoutSeparator(a[1..], sep);
      assert [a[0]] + a[1..] == a;
    }
  }

  lemma {:induction false} SplitAtFirstSeparator(a: string, sep: char, b: string)
    requires sep !in a
    ensures Split(a + [sep] + b, sep) == [a] + Split(b, sep)
  {
    if |a| == 0 {
      assert (a + [sep] + b)[1..] == b;
    } else {
      assert (a + [sep] + b)[1..] == a[1..] + [sep] + b;
      SplitAtFirstSeparator(a[1..], sep, b);
      assert [a[0]] + a[1..] == a;
    }
  }

  /** Splitting undoes joining, as long as no part contains the separator. */
  lemma {:induction false} SplitJoin(parts: seq<string>, sep: char)
    requires |parts| > 0 && SeparatorFree(parts, sep)
    ensures Split(Join([sep], parts), sep) == parts
  {
    if |parts| == 1 {
      SplitWithoutSeparator(parts[0], sep);
    } else {
      SplitJoin(parts[1..], sep);
      SplitAtFirstSeparator(parts[0], sep, Join([sep], parts[1..]));
    }
  }

  // ---------------------------------------------------------------------------
  // str.replace for one character
  // ---------------------------------------------------------------------------

  /** `s.replace(from, to)` where both are single characters. */
  function Replace(s: string, from: char, to: char): (r: string)
    ensures |r| == |s|
    ensures forall i :: 0 <= i < |s| ==> r[i] == (if s[i] == from then to else s[i])
  {
    if |s| == 0 then ""
    else [if s[0] == from then to else s[0]] + Replace(s[1..], from, to)
  }

  // ---------------------------------------------------------------------------
  // str.title, ASCII only
  // ---------------------------------------------------------------------------

  predicate IsUpper(c: char) { 'A' <= c <= 'Z' }
  predicate IsLower(c: char) { 'a' <= c <= 'z' }
  /** A cased character, in the ASCII range. */
  predicate IsLetter(c: char) { IsUpper(c) || IsLower(c) }

  function ToUpper(c: char): (r: char)
    ensures IsLetter(r) == IsLetter(c) && !IsLower(r)
  {
    if IsLower(c) then (c as int - 32) as char else c
  }

  function ToLower(c: char): (r: char)
    ensures IsLetter(r) == IsLetter(c) && !IsUpper(r)
  {
    if IsUpper(c) then (c as int + 32) as char else c
  }

  /**
   * CPython's title-casing loop: a cased character is upper-cased when the
   * character before it is not cased, lower-cased otherwise; everything else
   * is copied. `previousCased` says whether the character before `s` was cased.
   */
  function TitleFrom(s: string, previousCased: bool): (r: string)
    ensures |r| == |s|
  {
    if |s| == 0 then ""
    else
      var c := if !IsLetter(s[0]) then s[0]
               else if previousCased then ToLower(s[0])
               else ToUpper(s[0]);
      [c] + TitleFrom(s[1..], IsLetter(s[0]))
  }

  /** `s.title()`. */
  function Title(s: string): string
  {
    TitleFrom(s, false)
  }

  /** Position-wise reading of title case: a letter at a word start is upper case, other letters lower. */
  function TitleCharAt(s: string, i: nat): char
    requires i < |s|
  {
    if !IsLetter(s[i]) then s[i]
    else if i > 0 && IsLetter(s[i - 1]) then ToLower(s[i])
    else ToUpper(s[i])
  }

  lemma {:induction false} TitleFromAt(s: string, previousCased: bool, i: nat)
    requires i < |s|
    ensures |TitleFrom(s, previousCased)| == |s|
    ensures TitleFrom(s, previousCased)[i] ==
      if !IsLetter(s[i]) then s[i]
      else if (if i == 0 then previousCased else IsLetter(s[i - 1])) then ToLower(s[i])
      else ToUpper(s[i])
  {
    if i == 0 {
      if |s| > 1 {
        TitleFromAt(s[1..], IsLetter(s[0]), 0);
      } else {
        assert s[1..] == [];
      }
    } else {
      TitleFromAt(s[1..], IsLetter(s[0]), i - 1);
    }
  }

  /** `Title(s)` keeps the length of `s` and puts `TitleCharAt(s, i)` at every position `i`. */
  lemma TitleAt(s: string)
    ensures |Title(s)| == |s|
    ensures forall i :: 0 <= i < |s| ==> Title(s)[i] == TitleCharAt(s, i)
  {
    forall i | 0 <= i < |s|
      ensures Title(s)[i] == TitleCharAt(s, i)
    {
      TitleFromAt(s, false, i);
    }
  }

  // ---------------------------------------------------------------------------
  // f"{n}" for a natural number
  // ---------------------------------------------------------------------------

  predicate IsDigit(c: char) { '0' <= c <= '9' }

  function DigitChar(d: nat): (c: char)
    requires d < 10
    ensures IsDigit(c)
  {
    ('0' as int + d) as char
  }

  /** Decimal rendering of `n`, most significant digit first. */
  function NatToString(n: nat): string
  {
    if n < 10 then [DigitChar(n)]
    else NatToString(n / 10) + [DigitChar(n % 10)]
  }

  /** The value of a string of decimal digits (the reading `int(s)` gives it). */
  function DecimalValue(s: string): nat
    requires forall i :: 0 <= i < |s| ==> IsDigit(s[i])
  {
    if |s| == 0 then 0
    else
      assert IsDigit(s[|s| - 1]);
      10 * DecimalValue(s[..|s| - 1]) + (s[|s| - 1] as int - '0' as int)
  }

  /**
   * `NatToString(n)` is a well-formed decimal numeral: non-empty, digits only,
   * no leading zero unless it is "0", and it reads back as `n`.
   */
  lemma {:induction false} NatToStringDecimal(n: nat)
    ensures var s := NatToString(n);
      && |s| > 0
      && (forall i :: 0 <= i < |s| ==> IsDigit(s[i]))
      && (s[0] == '0' ==> n == 0)
      && DecimalValue(s) == n
  {
    if n >= 10 {
      NatToStringDecimal(n / 10);
      var s := NatToString(n);
      assert s[..|s| - 1] == NatToString(n / 10);
    }
  }
}
