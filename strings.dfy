/**
  The few functions of Go's `strings` package that the bridge relies on,
  over strings seen as sequences of runes.
*/
module Strings {

  /** unicode.IsSpace: the Latin-1 spaces and the Unicode White_Space characters. */
  predicate IsSpace(c: char) {
    || c == '\t' || c == '\n' || c == '\U{B}' || c == '\U{C}' || c == '\r' || c == ' '
    || c == '\U{85}' || c == '\U{A0}' || c == '\U{1680}'
    || ('\U{2000}' <= c <= '\U{200A}')
    || c == '\U{2028}' || c == '\U{2029}' || c == '\U{202F}' || c == '\U{205F}' || c == '\U{3000}'
  }

  /** Every rune of `s` is white space. */
  predicate AllSpace(s: string) {
    forall i :: 0 <= i < |s| ==> IsSpace(s[i])
  }

  /** `s` neither starts nor ends with white space: TrimSpace leaves it alone. */
  predicate Trimmed(s: string) {
    s == [] || (!IsSpace(s[0]) && !IsSpace(s[|s| - 1]))
  }

  predicate HasSuffix(s: string, suffix: string) {
    |suffix| <= |s| && s[|s| - |suffix|..] == suffix
  }

  /** strings.CutPrefix: `s` without `prefix`, and whether `prefix` was there. */
  function CutPrefix(s: string, prefix: string): (r: (string, bool))
    ensures r.1 <==> prefix <= s
    ensures r.1 ==> prefix + r.0 == s
    ensures !r.1 ==> r.0 == s
  {
    if prefix <= s then (s[|prefix|..], true) else (s, false)
  }

  /** strings.TrimSuffix: `s` without one trailing `suffix`, if it has one. */
  function TrimSuffix(s: string, suffix: string): (r: string)
    ensures HasSuffix(s, suffix) ==> r + suffix == s
    ensures !HasSuffix(s, suffix) ==> r == s
  {
    if HasSuffix(s, suffix) then s[..|s| - |suffix|] else s
  }

  /** strings.TrimLeftFunc(s, unicode.IsSpace): drop the leading white space. */
  function TrimLeftSpace(s: string): (r: string)
    ensures |r| <= |s|
    ensures r != [] ==> !IsSpace(r[0])
  {
    if s != [] && IsSpace(s[0]) then TrimLeftSpace(s[1..]) else s
  }

  /** strings.TrimRightFunc(s, unicode.IsSpace): drop the trailing white space. */
  function TrimRightSpace(s: string): (r: string)
    ensures |r| <= |s| && r == s[..|r|]
    ensures r != [] ==> !IsSpace(r[|r| - 1])
  {
    if s != [] && IsSpace(s[|s| - 1]) then TrimRightSpace(s[..|s| - 1]) else s
  }

  /** strings.TrimSpace: drop the leading, then the trailing white space. */
  function TrimSpace(s: string): (r: string)
    ensures |r| <= |s|
    ensures Trimmed(r)
  {
    TrimRightSpace(TrimLeftSpace(s))
  }

  /** White space in front of a string that does not start with white space is all that TrimLeftSpace drops. */
  lemma {:induction false} TrimLeftSpacePadded(pad: string, s: string)
    requires AllSpace(pad)
    requires s == [] || !IsSpace(s[0])
    ensures TrimLeftSpace(pad + s) == s
  {
    if pad == [] {
      assert pad + s == s;
    } else {
      assert (pad + s)[1..] == pad[1..] + s;
      TrimLeftSpacePadded(pad[1..], s);
    }
  }

  /** White space after a string that does not end with white space is all that TrimRightSpace drops. */
  lemma {:induction false} TrimRightSpacePadded(s: string, pad: string)
    requires AllSpace(pad)
    requires s == [] || !IsSpace(s[|s| - 1])
    ensures TrimRightSpace(s + pad) == s
  {
    if pad == [] {
      assert s + pad == s;
    } else {
      assert (s + pad)[..|s + pad| - 1] == s + pad[..|pad| - 1];
      TrimRightSpacePadded(s, pad[..|pad| - 1]);
    }
  }

  /** TrimSpace undoes any white-space padding of a trimmed string. */
  lemma TrimSpacePadded(before: string, s: string, after: string)
    requires AllSpace(before) && AllSpace(after) && Trimmed(s)
    ensures TrimSpace(before + s + after) == s
  {
    if s == [] {
      assert before + s + after == (before + after) + [];
      TrimLeftSpacePadded(before + after, []);
    } else {
      assert before + s + after == before + (s + after);
      TrimLeftSpacePadded(before, s + after);
      TrimRightSpacePadded(s, after);
    }
  }

  /** A string that starts with a non-space rune does not trim to nothing. */
  lemma TrimSpaceNonEmpty(s: string)
    requires s != [] && !IsSpace(s[0])
    ensures TrimSpace(s) != []
  {
    assert TrimLeftSpace(s) == s;
    TrimRightSpaceNonEmpty(s);
  }

  lemma {:induction false} TrimRightSpaceNonEmpty(s: string)
    requires s != [] && !IsSpace(s[0])
    ensures TrimRightSpace(s) != []
  {
    if |s| > 1 {
      assert s[..|s| - 1][0] == s[0];
      TrimRightSpaceNonEmpty(s[..|s| - 1]);
    }
  }

  /** Text in front of `s` that starts with a non-space rune is never trimmed away entirely. */
  lemma TrimSpaceNotSuffix(p: string, s: string)
    requires p != [] && !IsSpace(p[0])
    ensures TrimSpace(p + s) != s
  {
    var x := p + s;
    var r := TrimSpace(x);
    assert r != [] && Trimmed(r) by {
      TrimSpaceNonEmpty(x);
    }
    if s != [] && !IsSpace(s[|s| - 1]) {
      assert r == x by {
        assert x[0] == p[0] && x[|x| - 1] == s[|s| - 1];
        assert [] + x + [] == x;
        TrimSpacePadded([], x, []);
      }
      assert |r| > |s|;
    }
  }
}
