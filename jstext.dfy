/**
 * The JavaScript string operations the scripts rely on: `String.prototype.trim`,
 * `toLowerCase`, `includes` and `endsWith`.
 */
module JsText {

  /**
   * The characters `trim()` removes: ECMAScript's WhiteSpace (tab, vertical tab,
   * form feed, the byte order mark and every Unicode space separator) and its
   * LineTerminator (line feed, carriage return, line and paragraph separators).
   */
  predicate IsWhitespace(c: char)
  {
    || c == '\t' || c == '\U{000B}' || c == '\U{000C}' || c == '\U{FEFF}'
    || c == ' ' || c == '\U{00A0}' || c == '\U{1680}' || ('\U{2000}' <= c <= '\U{200A}')
    || c == '\U{202F}' || c == '\U{205F}' || c == '\U{3000}'
    || c == '\n' || c == '\r' || c == '\U{2028}' || c == '\U{2029}'
  }

  predicate AllWhitespace(s: string)
  {
    forall i :: 0 <= i < |s| ==> IsWhitespace(s[i])
  }

  /** `s` without its leading whitespace: a suffix of `s` that starts with a non-space. */
  function TrimStart(s: string): (r: string)
    ensures |r| <= |s| && r == s[|s| - |r|..]
    ensures AllWhitespace(s[..|s| - |r|])
    ensures r != [] ==> !IsWhitespace(r[0])
  {
    if s != [] && IsWhitespace(s[0]) then TrimStart(s[1..]) else s
  }

  /** `s` without its trailing whitespace: a prefix of `s` that ends with a non-space. */
  function TrimEnd(s: string): (r: string)
    ensures |r| <= |s| && r == s[..|r|]
    ensures AllWhitespace(s[|r|..])
    ensures r != [] ==> !IsWhitespace(r[|r| - 1])
  {
    if s != [] && IsWhitespace(s[|s| - 1]) then TrimEnd(s[..|s| - 1]) else s
  }

  /**
   * `s.trim()`: the slice of `s` left once the whitespace at both ends is cut off;
   * what is cut off is whitespace, what is left neither starts nor ends with it, and
   * it is empty exactly when `s` is all whitespace.
   */
  function Trim(s: string): (r: string)
    ensures r == [] <==> AllWhitespace(s)
    ensures r != [] ==> !IsWhitespace(r[0]) && !IsWhitespace(r[|r| - 1])
    ensures exists i :: CutsWhitespace(s, i, r)
  {
    var t := TrimStart(s);
    var r := TrimEnd(t);
    TrimEmptyIff(s);
    TrimCutsWhitespace(s);
    assert r != [] ==> r[0] == t[0];
    r
  }

  /** `r` sits at offset `i` of `s`, with only whitespace before and after it. */
  predicate CutsWhitespace(s: string, i: int, r: string)
  {
    && 0 <= i <= |s| - |r| && s == s[..i] + r + s[i + |r|..]
    && AllWhitespace(s[..i]) && AllWhitespace(s[i + |r|..])
  }

  /** Trimming cuts a whitespace prefix and a whitespace suffix off `s`. */
  lemma TrimCutsWhitespace(s: string)
    ensures CutsWhitespace(s, |s| - |TrimStart(s)|, TrimEnd(TrimStart(s)))
  {
    var t := TrimStart(s);
    SliceOfSlice(s, |s| - |t|, t, TrimEnd(t));
  }

  /** A prefix `r` of the suffix `t` of `s`, cut out of `s` by whitespace on both sides. */
  lemma SliceOfSlice(s: string, k: nat, t: string, r: string)
    requires k <= |s| && t == s[k..] && |r| <= |t| && r == t[..|r|]
    requires AllWhitespace(s[..k]) && AllWhitespace(t[|r|..])
    ensures CutsWhitespace(s, k, r)
  {
    assert s == s[..k] + t;
    assert t == r + t[|r|..];
    assert t[|r|..] == s[k + |r|..];
  }

  lemma TrimEmptyIff(s: string)
    ensures TrimEnd(TrimStart(s)) == [] <==> AllWhitespace(s)
  {
    var t := TrimStart(s);
    if t == [] {
      assert s[..|s|] == s;
    } else {
      var k := |s| - |t|;
      assert t[0] == s[k] && !IsWhitespace(s[k]);
      assert t[0..] == t && !AllWhitespace(t[0..]);
    }
  }

  /** Text that neither starts nor ends with whitespace is left alone by `trim()`. */
  lemma TrimKeepsTrimmed(s: string)
    requires s != [] && !IsWhitespace(s[0]) && !IsWhitespace(s[|s| - 1])
    ensures Trim(s) == s
  {
    assert TrimStart(s) == s;
  }

  /** Trimming twice is trimming once. */
  lemma TrimIdempotent(s: string)
    ensures Trim(Trim(s)) == Trim(s)
  {
    var r := Trim(s);
    if r != [] {
      TrimKeepsTrimmed(r);
    } else {
      assert AllWhitespace(r);
    }
  }

  /** `toLowerCase` on one character (only the ASCII letters are modelled). */
  function LowerChar(c: char): (d: char)
  {
    if 'A' <= c <= 'Z' then (c as int - 'A' as int + 'a' as int) as char else c
  }

  /**
   * `s.toLowerCase()`: same length, each upper-case ASCII letter replaced by its
   * lower-case partner (32 code points further on), other characters kept.
   */
  function ToLower(s: string): (r: string)
    ensures |r| == |s|
    ensures forall i :: 0 <= i < |s| ==> !('A' <= r[i] <= 'Z')
    ensures forall i :: 0 <= i < |s| && 'A' <= s[i] <= 'Z' ==> r[i] as int == s[i] as int + 32 && 'a' <= r[i] <= 'z'
    ensures forall i :: 0 <= i < |s| && !('A' <= s[i] <= 'Z') ==> r[i] == s[i]
  {
    seq(|s|, i requires 0 <= i < |s| => LowerChar(s[i]))
  }

  /** `hay.includes(needle)`: `needle` occurs in `hay` starting at some offset. */
  function Includes(hay: string, needle: string): bool
  {
    needle <= hay || (hay != [] && Includes(hay[1..], needle))
  }

  lemma {:induction false} IncludesIff(hay: string, needle: string)
    ensures Includes(hay, needle) <==> exists i :: 0 <= i <= |hay| && needle <= hay[i..]
  {
    if Includes(hay, needle) {
      if needle <= hay {
        assert hay[0..] == hay;
      } else {
        IncludesIff(hay[1..], needle);
        var i :| 0 <= i <= |hay[1..]| && needle <= hay[1..][i..];
        assert hay[1..][i..] == hay[i + 1..];
      }
    }
    if exists i :: 0 <= i <= |hay| && needle <= hay[i..] {
      var i :| 0 <= i <= |hay| && needle <= hay[i..];
      if i > 0 {
        assert hay[1..][i - 1..] == hay[i..];
        IncludesIff(hay[1..], needle);
      }
    }
  }

  /** `s.endsWith(suffix)`: the last `|suffix|` characters of `s` are those of `suffix`. */
  predicate EndsWith(s: string, suffix: string): (r: bool)
    ensures r <==> |suffix| <= |s| && forall i :: 0 <= i < |suffix| ==> s[|s| - |suffix| + i] == suffix[i]
  {
    |suffix| <= |s| && s[|s| - |suffix|..] == suffix
  }
}
