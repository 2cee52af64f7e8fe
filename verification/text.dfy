/**
 The string operations of the .NET base library that the application relies on:
 ordinal case-insensitive comparison (StringComparison.OrdinalIgnoreCase and
 StringComparer.OrdinalIgnoreCase), Char.IsWhiteSpace, String.IsNullOrWhiteSpace
 and String.Trim. Case folding is modelled for ASCII letters only.
 */
module Text {

  /** Upper-case mapping used by the ordinal case-insensitive comparison (ASCII letters only). */
  function ToUpper(c: char): (u: char)
    ensures 'a' <= c <= 'z' ==> 'A' <= u <= 'Z' && u as int == c as int - 32
    ensures !('a' <= c <= 'z') ==> u == c
  {
    if 'a' <= c <= 'z' then (c as int - 32) as char else c
  }

  /** Ordinal comparison that ignores case: same length, same upper-cased characters. */
  predicate EqualsIgnoreCase(a: string, b: string)
  {
    |a| == |b| && forall i | 0 <= i < |a| :: ToUpper(a[i]) == ToUpper(b[i])
  }

  lemma EqualsIgnoreCaseReflexive(a: string)
    ensures EqualsIgnoreCase(a, a)
  {
  }

  lemma EqualsIgnoreCaseSymmetric(a: string, b: string)
    ensures EqualsIgnoreCase(a, b) <==> EqualsIgnoreCase(b, a)
  {
  }

  lemma EqualsIgnoreCaseTransitive(a: string, b: string, c: string)
    requires EqualsIgnoreCase(a, b) && EqualsIgnoreCase(b, c)
    ensures EqualsIgnoreCase(a, c)
  {
  }

  /** Two strings that differ only in the case of ASCII letters compare equal. */
  lemma {:induction false} CaseVariantsEqual(a: string, b: string)
    requires |a| == |b|
    requires forall i | 0 <= i < |a| :: a[i] == b[i] || ToUpper(a[i]) == b[i] || a[i] == ToUpper(b[i])
    ensures EqualsIgnoreCase(a, b)
  {
    forall i | 0 <= i < |a|
      ensures ToUpper(a[i]) == ToUpper(b[i])
    {
      ToUpperIdempotent(a[i]);
      ToUpperIdempotent(b[i]);
    }
  }

  lemma ToUpperIdempotent(c: char)
    ensures ToUpper(ToUpper(c)) == ToUpper(c)
  {
  }

  /** Char.IsWhiteSpace: the Unicode space separators, line and paragraph separators,
      and the control characters U+0009..U+000D and U+0085. */
  predicate IsWhiteSpace(c: char)
  {
    || ('\t' <= c <= '\r')
    || c == ' '
    || c == '\U{0085}'
    || c == '\U{00A0}'
    || c == '\U{1680}'
    || ('\U{2000}' <= c <= '\U{200A}')
    || c == '\U{2028}'
    || c == '\U{2029}'
    || c == '\U{202F}'
    || c == '\U{205F}'
    || c == '\U{3000}'
  }

  /** String.IsNullOrWhiteSpace on a non-null string: every character is white space
      (so the empty string is blank too). */
  predicate IsBlank(s: string)
  {
    forall i | 0 <= i < |s| :: IsWhiteSpace(s[i])
  }

  /** Every character of s[lo..hi] is white space. */
  predicate BlankBetween(s: string, lo: nat, hi: nat)
    requires lo <= hi <= |s|
  {
    forall i | lo <= i < hi :: IsWhiteSpace(s[i])
  }

  /** Leading white space removed. */
  function TrimStart(s: string): (r: string)
    ensures |r| <= |s|
    ensures r != [] ==> !IsWhiteSpace(r[0])
  {
    if s != [] && IsWhiteSpace(s[0]) then TrimStart(s[1..]) else s
  }

  /** TrimStart keeps a suffix of its argument and drops only white space before it. */
  lemma {:induction false} TrimStartDropsBlankPrefix(s: string)
    ensures TrimStart(s) == s[|s| - |TrimStart(s)|..]
    ensures BlankBetween(s, 0, |s| - |TrimStart(s)|)
  {
    if s != [] && IsWhiteSpace(s[0]) {
      TrimStartDropsBlankPrefix(s[1..]);
      forall j | 0 < j < |s| - |TrimStart(s)|
        ensures IsWhiteSpace(s[j])
      {
        assert s[j] == s[1..][j - 1];
      }
    }
  }

  /** Trailing white space removed. */
  function TrimEnd(s: string): (r: string)
    ensures |r| <= |s|
    ensures r != [] ==> !IsWhiteSpace(r[|r| - 1])
  {
    if s != [] && IsWhiteSpace(s[|s| - 1]) then TrimEnd(s[..|s| - 1]) else s
  }

  /** TrimEnd keeps a prefix of its argument and drops only white space after it. */
  lemma {:induction false} TrimEndDropsBlankSuffix(s: string)
    ensures TrimEnd(s) == s[..|TrimEnd(s)|]
    ensures BlankBetween(s, |TrimEnd(s)|, |s|)
  {
    if s != [] && IsWhiteSpace(s[|s| - 1]) {
      var p := s[..|s| - 1];
      TrimEndDropsBlankSuffix(p);
      forall j | |TrimEnd(s)| <= j < |s| - 1
        ensures IsWhiteSpace(s[j])
      {
        assert s[j] == p[j];
      }
    }
  }

  /** String.Trim: leading and trailing white space removed. */
  function Trim(s: string): (r: string)
    ensures |r| <= |s|
    ensures r != [] ==> !IsWhiteSpace(r[0]) && !IsWhiteSpace(r[|r| - 1])
  {
    var t := TrimStart(s);
    TrimEndDropsBlankSuffix(t);
    TrimEnd(t)
  }

  /** Trim keeps one contiguous slice of its argument and drops only white space around it. */
  lemma TrimIsSlice(s: string)
    ensures exists i | 0 <= i <= |s| - |Trim(s)| ::
      && Trim(s) == s[i..i + |Trim(s)|]
      && BlankBetween(s, 0, i)
      && BlankBetween(s, i + |Trim(s)|, |s|)
  {
    var t := TrimStart(s);
    var i := |s| - |t|;
    TrimStartDropsBlankPrefix(s);
    TrimEndDropsBlankSuffix(t);
    SliceOfSuffix(s, i, TrimEnd(t));
  }

  /** A prefix r of s[i..], followed by white space only, is the slice s[i..i + |r|],
      followed in s by white space only. */
  lemma SliceOfSuffix(s: string, i: nat, r: string)
    requires i <= |s| && |r| <= |s| - i && r == s[i..][..|r|]
    requires BlankBetween(s[i..], |r|, |s| - i)
    ensures r == s[i..i + |r|]
    ensures BlankBetween(s, i + |r|, |s|)
  {
    SuffixSlices(s, i, |r|);
    forall j | i + |r| <= j < |s|
      ensures IsWhiteSpace(s[j])
    {
      assert s[j] == s[i..][j - i];
    }
  }

  /** Slicing the suffix s[i..] at n is slicing s at i + n. */
  lemma SuffixSlices(s: string, i: nat, n: nat)
    requires i + n <= |s|
    ensures s[i..][..n] == s[i..i + n]
    ensures s[i..][n..] == s[i + n..]
  {
  }

  /** A string trims to nothing exactly when it is blank. */
  lemma TrimEmptyIffBlank(s: string)
    ensures Trim(s) == [] <==> IsBlank(s)
  {
    if Trim(s) == [] {
      TrimmedToEmptyIsBlank(s);
    }
    if IsBlank(s) {
      BlankTrimsStartToEmpty(s);
    }
  }

  lemma {:induction false} BlankTrimsStartToEmpty(s: string)
    requires IsBlank(s)
    ensures TrimStart(s) == []
  {
    if s != [] {
      assert IsBlank(s[1..]) by {
        forall i | 0 <= i < |s[1..]| ensures IsWhiteSpace(s[1..][i]) {
          assert s[1..][i] == s[i + 1];
        }
      }
      BlankTrimsStartToEmpty(s[1..]);
    }
  }

  lemma TrimmedToEmptyIsBlank(s: string)
    requires Trim(s) == []
    ensures IsBlank(s)
  {
    var t := TrimStart(s);
    TrimStartDropsBlankPrefix(s);
    TrimEndDropsBlankSuffix(t);
    assert t == [];
  }

  /** Trimming twice is trimming once. */
  lemma TrimIdempotent(s: string)
    ensures Trim(Trim(s)) == Trim(s)
  {
    var r := Trim(s);
    if r != [] {
      assert TrimStart(r) == r;
      assert TrimEnd(r) == r;
    }
  }
}
