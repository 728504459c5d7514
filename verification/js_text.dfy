/** The JavaScript string operations the modelled code relies on:
    truthiness, `startsWith`, `trim` and the ASCII part of `toLowerCase`. */
module JsText {

  /** A string is truthy in JavaScript exactly when it is non-empty. */
  predicate Truthy(s: string) {
    |s| > 0
  }

  /** `s.startsWith(p)`. */
  predicate StartsWith(s: string, p: string) {
    |p| <= |s| && s[..|p|] == p
  }

  /** A prefix of a prefix is a prefix. */
  lemma StartsWithTrans(s: string, p: string, q: string)
    requires StartsWith(s, p) && StartsWith(p, q)
    ensures StartsWith(s, q)
  {
    assert s[..|q|] == s[..|p|][..|q|];
  }

  /** The characters `String.prototype.trim` strips: the ECMAScript
      WhiteSpace set (tab, vertical tab, form feed, space, no-break space,
      byte order mark and the Unicode space separators) and the
      LineTerminator set. */
  predicate IsWhitespace(c: char) {
    || c == ' ' || c == '\t' || c == '\n' || c == '\r'
    || c == '\U{000B}' || c == '\U{000C}'
    || c == '\U{00A0}' || c == '\U{1680}'
    || ('\U{2000}' <= c <= '\U{200A}')
    || c == '\U{2028}' || c == '\U{2029}' || c == '\U{202F}' || c == '\U{205F}'
    || c == '\U{3000}' || c == '\U{FEFF}'
  }

  /** Every character of `s` is whitespace. */
  predicate AllWhitespace(s: string) {
    forall i :: 0 <= i < |s| ==> IsWhitespace(s[i])
  }

  /** `s.trimStart()`: the suffix of `s` left after its leading whitespace. */
  function TrimStart(s: string): (r: string)
    ensures |r| <= |s| && r == s[|s| - |r|..]
    ensures AllWhitespace(s[..|s| - |r|])
    ensures |r| > 0 ==> !IsWhitespace(r[0])
    decreases |s|
  {
    if |s| > 0 && IsWhitespace(s[0]) then
      var rest := TrimStart(s[1..]);
      var k := |s| - |rest|;
      assert AllWhitespace(s[..k]) by {
        assert forall j :: 0 < j < k ==> s[..k][j] == s[1..][..k - 1][j - 1];
      }
      assert rest == s[k..] by {
        assert s[1..][k - 1..] == s[k..];
      }
      rest
    else s
  }

  /** `s.trimEnd()`: the prefix of `s` left after its trailing whitespace. */
  function TrimEnd(s: string): (r: string)
    ensures |r| <= |s| && r == s[..|r|]
    ensures AllWhitespace(s[|r|..])
    ensures |r| > 0 ==> !IsWhitespace(r[|r| - 1])
    decreases |s|
  {
    if |s| > 0 && IsWhitespace(s[|s| - 1]) then
      var rest := TrimEnd(s[..|s| - 1]);
      assert s[|rest|..] == s[..|s| - 1][|rest|..] + [s[|s| - 1]];
      rest
    else s
  }

  /** `s.trim()`. */
  function Trim(s: string): string {
    TrimEnd(TrimStart(s))
  }

  /** `t` is the piece of `s` starting at `k`, and everything of `s`
      before and after it is whitespace. */
  predicate TrimmedAt(s: string, t: string, k: int) {
    0 <= k && k + |t| <= |s| && t == s[k..k + |t|]
    && AllWhitespace(s[..k]) && AllWhitespace(s[k + |t|..])
  }

  /** The trimmed string is a contiguous piece of the input, bounded by
      non-whitespace characters, and everything cut off is whitespace. */
  lemma TrimIsInfix(s: string)
    ensures exists k :: TrimmedAt(s, Trim(s), k)
    ensures var t := Trim(s);
      |t| > 0 ==> !IsWhitespace(t[0]) && !IsWhitespace(t[|t| - 1])
  {
    var a := TrimStart(s);
    var t := TrimEnd(a);
    var k := |s| - |a|;
    assert t == Trim(s);
    assert TrimmedAt(s, t, k) by {
      // The two cuts, as slices of `s`.
      assert a == s[k..];
      assert a[..|t|] == s[k..k + |t|];
      assert a[|t|..] == s[k + |t|..];
    }
    assert |t| > 0 ==> !IsWhitespace(t[0]) by {
      assert |t| > 0 ==> t[0] == a[0];
    }
  }

  /** A string trims to the empty string exactly when it is all whitespace. */
  lemma TrimBlank(s: string)
    ensures Trim(s) == [] <==> AllWhitespace(s)
  {
    var a := TrimStart(s);
    var k := |s| - |a|;
    assert |a| > 0 ==> a[0] == s[k];
    if !AllWhitespace(s) {
      var i :| 0 <= i < |s| && !IsWhitespace(s[i]);
      assert forall j :: 0 <= j < k ==> s[..k][j] == s[j];
      assert a[i - k] == s[i];
      var t := TrimEnd(a);
      assert forall j :: |t| <= j < |a| ==> a[|t|..][j - |t|] == a[j];
    }
  }

  /** Trimming is idempotent. */
  lemma TrimIdempotent(s: string)
    ensures Trim(Trim(s)) == Trim(s)
  {
    var t := Trim(s);
    TrimIsInfix(s);
    assert TrimStart(t) == t;
    assert TrimEnd(t) == t;
  }

  /** ASCII upper-case letters lowered; every other character unchanged. */
  function LowerAscii(c: char): (r: char)
    ensures 'A' <= c <= 'Z' ==> r != c && r == c + ('a' - 'A')
    ensures !('A' <= c <= 'Z') ==> r == c
  {
    if 'A' <= c <= 'Z' then (c as int + 32) as char else c
  }

  /** `p` matches the start of `s` ignoring ASCII case. For a lower-case
      ASCII `p` this is what `s.toLowerCase().startsWith(p)` decides: no
      character outside ASCII lower-cases to an ASCII letter of `p` or to a
      space (the Kelvin sign lowers to `k` and the dotted capital I to
      `i` plus a combining mark, neither of which occurs in the prefixes
      matched here). */
  predicate StartsWithIgnoringCase(s: string, p: string) {
    |p| <= |s| && forall i :: 0 <= i < |p| ==> LowerAscii(s[i]) == p[i]
  }
}
