/** The .NET string primitives the domain code relies on: char.IsWhiteSpace,
    string.IsNullOrWhiteSpace, Trim, Replace(x, ""), EndsWith and an ordinal
    ASCII case fold. */
module Text {

  /** char.IsWhiteSpace: the Unicode separators Zs, Zl and Zp plus the controls
      U+0009..U+000D, U+0085 and U+00A0. */
  predicate IsWhiteSpace(c: char) {
    || c == ' ' || ('\t' <= c <= '\r') || c == '\U{0085}' || c == '\U{00A0}'
    || c == '\U{1680}' || ('\U{2000}' <= c <= '\U{200A}') || c == '\U{2028}'
    || c == '\U{2029}' || c == '\U{202F}' || c == '\U{205F}' || c == '\U{3000}'
  }

  /** string.IsNullOrWhiteSpace on a non-null string: empty or only white space. */
  predicate IsNullOrWhiteSpace(s: string) {
    forall i :: 0 <= i < |s| ==> IsWhiteSpace(s[i])
  }

  predicate IsAsciiDigit(c: char) {
    '0' <= c <= '9'
  }

  predicate AllDigits(s: string) {
    forall i :: 0 <= i < |s| ==> IsAsciiDigit(s[i])
  }

  /** The index of the first character at or after i that is not white
      space (|s| when there is none). */
  function FirstNonWhite(s: string, i: nat): (k: nat)
    requires i <= |s|
    ensures i <= k <= |s|
    ensures forall j :: i <= j < k ==> IsWhiteSpace(s[j])
    ensures k < |s| ==> !IsWhiteSpace(s[k])
    decreases |s| - i
  {
    if i < |s| && IsWhiteSpace(s[i]) then FirstNonWhite(s, i + 1) else i
  }

  /** One past the last character before j, and at or after lo, that is not
      white space (lo when there is none). */
  function EndOfNonWhite(s: string, lo: nat, j: nat): (k: nat)
    requires lo <= j <= |s|
    ensures lo <= k <= j
    ensures forall m :: k <= m < j ==> IsWhiteSpace(s[m])
    ensures lo < k ==> !IsWhiteSpace(s[k - 1])
    decreases j
  {
    if lo < j && IsWhiteSpace(s[j - 1]) then EndOfNonWhite(s, lo, j - 1) else j
  }

  /** Where Trim's result starts in its input. */
  function TrimOffset(s: string): nat
    ensures TrimOffset(s) <= |s|
  {
    FirstNonWhite(s, 0)
  }

  /** string.Trim(): removes leading and trailing white space. */
  function Trim(s: string): string {
    s[TrimOffset(s)..EndOfNonWhite(s, TrimOffset(s), |s|)]
  }

  /** What Trim keeps: a contiguous slice of the input, starting after the
      leading white space, with no white space at either end. */
  lemma TrimIsSlice(s: string)
    ensures var r, k := Trim(s), TrimOffset(s);
      && k + |r| <= |s| && r == s[k..k + |r|]
      && (r != [] ==> !IsWhiteSpace(r[0]) && !IsWhiteSpace(r[|r| - 1]))
  {
  }

  /** Trim only drops characters: each one it keeps occurs in the input. */
  lemma TrimMembers(s: string)
    ensures forall i :: 0 <= i < |Trim(s)| ==> Trim(s)[i] in s
  {
    var r, k := Trim(s), TrimOffset(s);
    forall i | 0 <= i < |r| ensures r[i] in s {
      assert r[i] == s[k + i];
    }
  }

  /** Trim yields the empty string exactly on white-space-only input. */
  lemma TrimEmptyIff(s: string)
    ensures Trim(s) == [] <==> IsNullOrWhiteSpace(s)
  {
    var k := TrimOffset(s);
    if Trim(s) != [] {
      assert Trim(s)[0] == s[k];
    }
  }

  /** A string with no white space at either end is left alone by Trim. */
  lemma TrimNoOp(s: string)
    requires s != [] ==> !IsWhiteSpace(s[0]) && !IsWhiteSpace(s[|s| - 1])
    ensures Trim(s) == s
  {
  }

  /** s.Replace(c, ""): every occurrence of c removed. */
  function Remove(s: string, c: char): (r: string)
    ensures c !in r
    ensures |r| <= |s|
    ensures forall x :: x in r <==> x in s && x != c
  {
    if s == [] then [] else (if s[0] == c then [] else [s[0]]) + Remove(s[1..], c)
  }

  lemma {:induction false} RemoveConcat(a: string, b: string, c: char)
    ensures Remove(a + b, c) == Remove(a, c) + Remove(b, c)
  {
    if a == [] {
      assert a + b == b;
    } else {
      assert (a + b)[0] == a[0] && (a + b)[1..] == a[1..] + b;
      RemoveConcat(a[1..], b, c);
    }
  }

  lemma {:induction false} RemoveAbsent(s: string, c: char)
    requires c !in s
    ensures Remove(s, c) == s
  {
    if s != [] {
      RemoveAbsent(s[1..], c);
    }
  }

  /** The UTF-16 code units of one character: two for a character outside
      the Basic Multilingual Plane, which .NET stores as a surrogate pair. */
  function CodeUnits(c: char): (n: nat)
    ensures 1 <= n <= 2
    ensures n == 2 <==> c as int > 0xFFFF
  {
    if c as int > 0xFFFF then 2 else 1
  }

  /** string.Length: the number of UTF-16 code units, which is the number of
      characters exactly when none lies outside the Basic Multilingual
      Plane. */
  function Utf16Length(s: string): (n: nat)
    ensures |s| <= n <= 2 * |s|
    ensures (forall i :: 0 <= i < |s| ==> s[i] as int <= 0xFFFF) ==> n == |s|
  {
    if s == [] then 0 else CodeUnits(s[0]) + Utf16Length(s[1..])
  }

  /** Utf16Length adds up over concatenation. */
  lemma {:induction false} Utf16LengthConcat(a: string, b: string)
    ensures Utf16Length(a + b) == Utf16Length(a) + Utf16Length(b)
  {
    if a == [] {
      assert a + b == b;
    } else {
      assert (a + b)[0] == a[0] && (a + b)[1..] == a[1..] + b;
      Utf16LengthConcat(a[1..], b);
    }
  }

  /** A slice is never longer, in code units, than the text it comes from. */
  lemma Utf16LengthSlice(s: string, i: nat, j: nat)
    requires i <= j <= |s|
    ensures Utf16Length(s[i..j]) <= Utf16Length(s)
  {
    assert s == s[..i] + s[i..j] + s[j..];
    Utf16LengthConcat(s[..i] + s[i..j], s[j..]);
    Utf16LengthConcat(s[..i], s[i..j]);
  }

  /** Trim never lengthens a text, counted in code units. */
  lemma TrimUtf16Length(s: string)
    ensures Utf16Length(Trim(s)) <= Utf16Length(s)
  {
    TrimIsSlice(s);
    Utf16LengthSlice(s, TrimOffset(s), TrimOffset(s) + |Trim(s)|);
  }

  /** string.EndsWith(string), as used on type names. The .NET overload
      compares under the current culture; for an ASCII type name against an
      ASCII suffix such as "Query" that gives the same answer as the ordinal
      suffix comparison written here. */
  predicate EndsWith(s: string, suffix: string) {
    |suffix| <= |s| && s[|s| - |suffix|..] == suffix
  }

  /** The ordinal case fold used by StringComparison.OrdinalIgnoreCase,
      restricted to the ASCII letters. */
  function FoldChar(c: char): (r: char)
    ensures 'a' <= c <= 'z' ==> 'A' <= r <= 'Z' && r as int == c as int - 32
    ensures !('a' <= c <= 'z') ==> r == c
  {
    if 'a' <= c <= 'z' then (c as int - 32) as char else c
  }

  function Fold(s: string): (r: string)
    ensures |r| == |s|
    ensures forall i :: 0 <= i < |s| ==> r[i] == FoldChar(s[i])
  {
    seq(|s|, i requires 0 <= i < |s| => FoldChar(s[i]))
  }

  /** Two strings equal under StringComparison.OrdinalIgnoreCase. */
  predicate EqualsIgnoreCase(a: string, b: string) {
    Fold(a) == Fold(b)
  }

  lemma EqualsIgnoreCaseIsEquivalence(a: string, b: string, c: string)
    ensures EqualsIgnoreCase(a, a)
    ensures EqualsIgnoreCase(a, b) ==> EqualsIgnoreCase(b, a)
    ensures EqualsIgnoreCase(a, b) && EqualsIgnoreCase(b, c) ==> EqualsIgnoreCase(a, c)
  {
  }
}
