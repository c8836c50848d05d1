/**
 * Text helpers used by the ticket logic: plate normalisation
 * (`toUpperCase()` followed by `trim()`) and the order on timestamp strings
 * that the exit query sorts by.
 */
module Text {

  /** ECMAScript WhiteSpace and LineTerminator code points: what `trim()` removes. */
  predicate IsSpace(c: char)
  {
    c == ' ' || c == '\t' || c == '\n' || c == '\r' || c == '\U{0B}' || c == '\U{0C}'
    || c == '\U{A0}' || c == '\U{1680}' || ('\U{2000}' <= c <= '\U{200A}')
    || c == '\U{2028}' || c == '\U{2029}' || c == '\U{202F}' || c == '\U{205F}'
    || c == '\U{3000}' || c == '\U{FEFF}'
  }

  /** Upper-cases the ASCII letters a-z and leaves every other character alone. */
  function UpperChar(c: char): char
  {
    if 'a' <= c <= 'z' then (c as int - 'a' as int + 'A' as int) as char else c
  }

  function ToUpper(s: string): (r: string)
    ensures |r| == |s|
  {
    if s == [] then [] else [UpperChar(s[0])] + ToUpper(s[1..])
  }

  /** Drops the longest prefix of white space. */
  function TrimStart(s: string): string
  {
    if s != [] && IsSpace(s[0]) then TrimStart(s[1..]) else s
  }

  /** Drops the longest suffix of white space. */
  function TrimEnd(s: string): string
  {
    if s != [] && IsSpace(s[|s| - 1]) then TrimEnd(s[..|s| - 1]) else s
  }

  /** TrimStart removes a prefix made only of white space, and as long a one as there is. */
  lemma {:induction false} TrimStartSpec(s: string)
    ensures var r := TrimStart(s);
      |r| <= |s| && r == s[|s| - |r|..]
      && (r == [] || !IsSpace(r[0]))
      && forall k :: 0 <= k < |s| - |r| ==> IsSpace(s[k])
  {
    if s != [] && IsSpace(s[0]) {
      var t := s[1..];
      TrimStartSpec(t);
      var r := TrimStart(t);
      assert TrimStart(s) == r;
      assert t[|t| - |r|..] == s[|s| - |r|..];
      forall k | 0 <= k < |s| - |r|
        ensures IsSpace(s[k])
      {
        if k > 0 {
          assert s[k] == t[k - 1];
        }
      }
    }
  }

  /** TrimEnd removes a suffix made only of white space, and as long a one as there is. */
  lemma {:induction false} TrimEndSpec(s: string)
    ensures var r := TrimEnd(s);
      |r| <= |s| && r == s[..|r|]
      && (r == [] || !IsSpace(r[|r| - 1]))
      && forall k :: |r| <= k < |s| ==> IsSpace(s[k])
  {
    if s != [] && IsSpace(s[|s| - 1]) {
      TrimEndSpec(s[..|s| - 1]);
    }
  }

  /** `String.prototype.trim`: white space removed from both ends. */
  function Trim(s: string): (r: string)
  {
    TrimEnd(TrimStart(s))
  }

  /** The plate normalisation the ticket operations apply: upper-case, then trim. */
  function NormalizePlate(s: string): string
  {
    Trim(ToUpper(s))
  }

  lemma {:induction false} ToUpperAt(s: string, k: nat)
    requires k < |s|
    ensures ToUpper(s)[k] == UpperChar(s[k])
  {
    if k > 0 {
      ToUpperAt(s[1..], k - 1);
    }
  }

  lemma {:induction false} ToUpperFixed(s: string)
    requires forall k :: 0 <= k < |s| ==> UpperChar(s[k]) == s[k]
    ensures ToUpper(s) == s
  {
    if s != [] {
      ToUpperFixed(s[1..]);
    }
  }

  /** The result of Trim has no white space at either end and is a slice of its input. */
  lemma TrimShape(s: string)
    ensures var r, i := Trim(s), |s| - |TrimStart(s)|;
      (r == [] || (!IsSpace(r[0]) && !IsSpace(r[|r| - 1])))
      && 0 <= i && i + |r| <= |s| && r == s[i..i + |r|]
  {
    var t := TrimStart(s);
    var r := TrimEnd(t);
    TrimStartSpec(s);
    TrimEndSpec(t);
    if r != [] {
      assert r[0] == t[0];
    }
  }

  /** Trim leaves a string that has no white space at either end unchanged. */
  lemma TrimFixed(s: string)
    requires s == [] || (!IsSpace(s[0]) && !IsSpace(s[|s| - 1]))
    ensures Trim(s) == s
  {
  }

  /** Normalising an already normalised plate changes nothing. */
  lemma {:induction false} NormalizeIdempotent(s: string)
    ensures NormalizePlate(NormalizePlate(s)) == NormalizePlate(s)
  {
    var u := ToUpper(s);
    var r := Trim(u);
    TrimShape(u);
    var i := |u| - |TrimStart(u)|;
    forall k | 0 <= k < |r|
      ensures UpperChar(r[k]) == r[k]
    {
      ToUpperAt(s, i + k);
    }
    ToUpperFixed(r);
    TrimFixed(r);
  }

  lemma {:induction false} ToUpperOfAsciiUpper(s: string)
    requires forall k :: 0 <= k < |s| ==> !('a' <= s[k] <= 'z')
    ensures ToUpper(s) == s
  {
    ToUpperFixed(s);
  }

  lemma UpperExample()
    ensures ToUpper(" abc1 ") == " ABC1 "
    ensures ToUpper("ABC1") == "ABC1"
  {
    var raw: string := " abc1 ";
    var up: string := " ABC1 ";
    forall k | 0 <= k < |raw|
      ensures ToUpper(raw)[k] == up[k]
    {
      ToUpperAt(raw, k);
    }
    var plain: string := "ABC1";
    ToUpperOfAsciiUpper(plain);
  }

  lemma TrimExample()
    ensures Trim(" ABC1 ") == "ABC1"
    ensures Trim("ABC1") == "ABC1"
  {
    var up: string := " ABC1 ";
    assert IsSpace(up[0]) && !IsSpace(up[1]);
    assert TrimStart(up) == "ABC1 ";
    var t: string := "ABC1 ";
    assert IsSpace(t[4]) && !IsSpace(t[3]);
    var plain: string := "ABC1";
    assert !IsSpace(plain[0]) && !IsSpace(plain[3]);
  }

  /** Two spellings of one plate that differ in case and surrounding blanks normalise alike. */
  lemma NormalizeExample()
    ensures NormalizePlate(" abc1 ") == NormalizePlate("ABC1") == "ABC1"
  {
    UpperExample();
    TrimExample();
  }

  /**
   * The order `localeCompare` gives to timestamp strings, taken as plain
   * lexicographic order on character codes.
   */
  predicate Le(a: string, b: string)
  {
    a == [] || (b != [] && (a[0] < b[0] || (a[0] == b[0] && Le(a[1..], b[1..]))))
  }

  lemma {:induction false} LeTotal(a: string, b: string)
    ensures Le(a, b) || Le(b, a)
  {
    if a != [] && b != [] && a[0] == b[0] {
      LeTotal(a[1..], b[1..]);
    }
  }

  lemma {:induction false} LeTransitive(a: string, b: string, c: string)
    requires Le(a, b) && Le(b, c)
    ensures Le(a, c)
  {
    if a != [] && b != [] && c != [] && a[0] == b[0] == c[0] {
      LeTransitive(a[1..], b[1..], c[1..]);
    }
  }

  lemma {:induction false} ToUpperKeepsOutNewline(s: string)
    requires '\n' !in s
    ensures '\n' !in ToUpper(s)
  {
    if '\n' in ToUpper(s) {
      var k :| 0 <= k < |s| && ToUpper(s)[k] == '\n';
      ToUpperAt(s, k);
    }
  }

  /** Normalising and trimming never introduce a line feed. */
  lemma NormalizeKeepsOutNewline(s: string)
    requires '\n' !in s
    ensures '\n' !in NormalizePlate(s) && '\n' !in Trim(s)
  {
    ToUpperKeepsOutNewline(s);
    TrimShape(ToUpper(s));
    TrimShape(s);
  }
}
