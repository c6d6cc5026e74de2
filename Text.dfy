/**
 * Foundation's `trimmingCharacters(in: .whitespacesAndNewlines)`, which the
 * session coordinator applies to the transcription text before it stores and
 * delivers it (Vox/Core/VoxEngine.swift:123).
 */
module Text {

  /**
   * Membership in `CharacterSet.whitespacesAndNewlines`: the Unicode space
   * separators (general category Zs), the line and paragraph separators,
   * tab, U+000A to U+000D and U+0085.
   */
  predicate IsWhitespace(c: char) {
    var n := c as int;
    n == 0x20 || (0x09 <= n <= 0x0D) || n == 0x85 || n == 0xA0 || n == 0x1680 ||
    (0x2000 <= n <= 0x200A) || n == 0x2028 || n == 0x2029 || n == 0x202F ||
    n == 0x205F || n == 0x3000
  }

  /** Every character of `s` is whitespace (the empty string included). */
  predicate Blank(s: string) {
    forall i :: 0 <= i < |s| ==> IsWhitespace(s[i])
  }

  /** Drops the leading whitespace. */
  function TrimStart(s: string): string {
    if s != [] && IsWhitespace(s[0]) then TrimStart(s[1..]) else s
  }

  /** Drops the trailing whitespace. */
  function TrimEnd(s: string): string {
    if s != [] && IsWhitespace(s[|s| - 1]) then TrimEnd(s[..|s| - 1]) else s
  }

  /** `trimmingCharacters(in: .whitespacesAndNewlines)`. */
  function Trim(s: string): string {
    TrimEnd(TrimStart(s))
  }

  /** What `TrimStart` leaves is a suffix after an all-whitespace head, starting with non-whitespace. */
  lemma {:induction false} TrimStartIsSuffix(s: string)
    ensures var r := TrimStart(s);
      |r| <= |s| && r == s[|s| - |r|..] && Blank(s[..|s| - |r|]) &&
      (r == [] || !IsWhitespace(r[0]))
  {
    if s != [] && IsWhitespace(s[0]) {
      var r := TrimStart(s[1..]);
      TrimStartIsSuffix(s[1..]);
      var n := |s| - |r|;
      assert s[1..][n - 1..] == s[n..];
      forall k | 0 <= k < n
        ensures IsWhitespace(s[k])
      {
        if k > 0 {
          assert s[k] == s[1..][..n - 1][k - 1];
        }
      }
      assert Blank(s[..n]);
    }
  }

  /** What `TrimEnd` leaves is a prefix before an all-whitespace tail, ending with non-whitespace. */
  lemma {:induction false} TrimEndIsPrefix(s: string)
    ensures var r := TrimEnd(s);
      |r| <= |s| && r == s[..|r|] && Blank(s[|r|..]) &&
      (r == [] || !IsWhitespace(r[|r| - 1]))
  {
    if s != [] && IsWhitespace(s[|s| - 1]) {
      var p := s[..|s| - 1];
      var r := TrimEnd(p);
      TrimEndIsPrefix(p);
      assert p[..|r|] == s[..|r|];
      forall k | |r| <= k < |s|
        ensures IsWhitespace(s[k])
      {
        if k < |s| - 1 {
          assert s[k] == p[|r|..][k - |r|];
        }
      }
      assert Blank(s[|r|..]);
    }
  }

  /** The trimmed text is the slice of `s` that starts where the leading whitespace ends. */
  lemma TrimSlice(s: string)
    ensures |TrimStart(s)| <= |s|
    ensures var r, a := Trim(s), |s| - |TrimStart(s)|;
      a + |r| <= |s| && r == s[a..a + |r|]
  {
    var t := TrimStart(s);
    var r, a := TrimEnd(t), |s| - |t|;
    TrimStartIsSuffix(s);
    TrimEndIsPrefix(t);
    forall k | 0 <= k < |r|
      ensures r[k] == s[a + k]
    {
      assert r[k] == t[k];
    }
  }

  /** Everything after the trimmed text is whitespace. */
  lemma TrimTailBlank(s: string)
    ensures |TrimStart(s)| <= |s|
    ensures var r, a := Trim(s), |s| - |TrimStart(s)|;
      a + |r| <= |s| && Blank(s[a + |r|..])
  {
    var t := TrimStart(s);
    var r, a := TrimEnd(t), |s| - |t|;
    TrimStartIsSuffix(s);
    TrimEndIsPrefix(t);
    forall k | a + |r| <= k < |s|
      ensures IsWhitespace(s[k])
    {
      assert s[k] == t[k - a];
    }
  }

  /**
   * The trimmed text is the slice of `s` between a blank head and a blank
   * tail, and it neither starts nor ends with whitespace.
   */
  lemma TrimIsInnerSlice(s: string)
    ensures |TrimStart(s)| <= |s|
    ensures var r, a := Trim(s), |s| - |TrimStart(s)|;
      a + |r| <= |s| && r == s[a..a + |r|] &&
      Blank(s[..a]) && Blank(s[a + |r|..]) &&
      (r == [] || (!IsWhitespace(r[0]) && !IsWhitespace(r[|r| - 1])))
  {
    var t := TrimStart(s);
    var r := TrimEnd(t);
    TrimSlice(s);
    TrimTailBlank(s);
    TrimStartIsSuffix(s);
    TrimEndIsPrefix(t);
    if r != [] {
      assert r[0] == t[0];
    }
  }

  /** The trimmed text is empty exactly when the input is all whitespace. */
  lemma TrimEmptyIffBlank(s: string)
    ensures Trim(s) == [] <==> Blank(s)
  {
    var t := TrimStart(s);
    var a := |s| - |t|;
    TrimStartIsSuffix(s);
    TrimEndIsPrefix(t);
    if Trim(s) == [] {
      assert t[0..] == t;
      assert t == [];
      assert s[..a] == s;
    } else if t != [] {
      assert t[0] == s[a];
    }
  }

  /** Text without whitespace at either end is left as it is. */
  lemma TrimKeepsTrimmedText(s: string)
    requires s == [] || (!IsWhitespace(s[0]) && !IsWhitespace(s[|s| - 1]))
    ensures Trim(s) == s
  {
  }

  /** Trimming twice is trimming once. */
  lemma TrimIdempotent(s: string)
    ensures Trim(Trim(s)) == Trim(s)
  {
    TrimIsInnerSlice(s);
    TrimKeepsTrimmedText(Trim(s));
  }
}
