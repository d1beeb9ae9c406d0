/** Whitespace trimming as the chat component uses it to judge and normalise
    the input box: ECMAScript's String.prototype.trim, which removes every
    WhiteSpace and LineTerminator code point from both ends of a string. */
module Text {

  /** ECMAScript WhiteSpace (TAB, VT, FF, ZWNBSP and every code point of the
      Unicode category Zs) together with LineTerminator (LF, CR, LS, PS). */
  predicate IsWhiteSpace(c: char) {
    || c == '\t' || c == '\n' || c == '\U{000B}' || c == '\U{000C}' || c == '\r'
    || c == ' ' || c == '\U{00A0}' || c == '\U{1680}'
    || ('\U{2000}' <= c <= '\U{200A}')
    || c == '\U{2028}' || c == '\U{2029}' || c == '\U{202F}' || c == '\U{205F}'
    || c == '\U{3000}' || c == '\U{FEFF}'
  }

  /** True when every character of `s` is whitespace (the empty string included). */
  predicate Blank(s: string) {
    forall i :: 0 <= i < |s| ==> IsWhiteSpace(s[i])
  }

  /** Drops the leading whitespace: the result is the longest suffix of `s`
      that does not start with whitespace, and all that was dropped was. */
  function TrimStart(s: string): (r: string)
    ensures |r| <= |s| && r == s[|s| - |r|..]
    ensures forall i :: 0 <= i < |s| - |r| ==> IsWhiteSpace(s[i])
    ensures r == [] || !IsWhiteSpace(r[0])
  {
    if |s| > 0 && IsWhiteSpace(s[0]) then
      var r := TrimStart(s[1..]);
      assert forall i :: 1 <= i < |s| - |r| ==> s[i] == s[1..][i - 1];
      r
    else
      s
  }

  /** Drops the trailing whitespace: the result is the longest prefix of `s`
      that does not end with whitespace, and all that was dropped was. */
  function TrimEnd(s: string): (r: string)
    ensures |r| <= |s| && r == s[..|r|]
    ensures forall i :: |r| <= i < |s| ==> IsWhiteSpace(s[i])
    ensures r == [] || !IsWhiteSpace(r[|r| - 1])
  {
    if |s| > 0 && IsWhiteSpace(s[|s| - 1]) then
      var r := TrimEnd(s[..|s| - 1]);
      assert forall i :: |r| <= i < |s| - 1 ==> s[i] == s[..|s| - 1][i];
      r
    else
      s
  }

  /** String.prototype.trim: a contiguous piece of `s` that neither starts nor
      ends with whitespace, everything around it being whitespace; it is
      empty exactly when `s` is blank. */
  function Trim(s: string): (r: string)
    ensures r == [] || (!IsWhiteSpace(r[0]) && !IsWhiteSpace(r[|r| - 1]))
    ensures r == [] <==> Blank(s)
  {
    var f := TrimStart(s);
    var r := TrimEnd(f);
    TrimmedPiece(s, f, r);
    r
  }

  /** What TrimStart and TrimEnd promise, put together: `r` is `s` with a
      blank prefix and a blank suffix taken off. */
  lemma TrimmedPiece(s: string, f: string, r: string)
    requires |f| <= |s| && f == s[|s| - |f|..]
    requires forall i :: 0 <= i < |s| - |f| ==> IsWhiteSpace(s[i])
    requires f == [] || !IsWhiteSpace(f[0])
    requires |r| <= |f| && r == f[..|r|]
    requires forall i :: |r| <= i < |f| ==> IsWhiteSpace(f[i])
    requires r == [] || !IsWhiteSpace(r[|r| - 1])
    ensures var k := |s| - |f|; k + |r| <= |s| && r == s[k..k + |r|] && Blank(s[..k]) && Blank(s[k + |r|..])
    ensures r == [] || (!IsWhiteSpace(r[0]) && !IsWhiteSpace(r[|r| - 1]))
    ensures r == [] <==> Blank(s)
  {
    var k := |s| - |f|;
    var a, b := s[..k], f[|r|..];
    assert Blank(a) by {
      assert forall i :: 0 <= i < k ==> a[i] == s[i];
    }
    assert Blank(b) by {
      assert forall i :: 0 <= i < |b| ==> b[i] == f[i + |r|];
    }
    assert s == a + r + b by {
      assert s == a + f && f == r + b;
    }
    assert r != [] ==> r[0] == f[0];
    Surrounded(s, a, r, b);
  }

  /** `r` sits in `s` between two blank pieces `a` and `b`; if `r` starts
      with a non-whitespace character, `s` is blank exactly when `r` is empty. */
  lemma Surrounded(s: string, a: string, r: string, b: string)
    requires s == a + r + b && Blank(a) && Blank(b)
    requires r == [] || !IsWhiteSpace(r[0])
    ensures r == s[|a|..|a| + |r|] && a == s[..|a|] && b == s[|a| + |r|..]
    ensures r == [] <==> Blank(s)
  {
    if r == [] {
      BlankAppend(a, b);
      assert s == a + b;
    } else {
      assert s[|a|] == r[0];
    }
  }

  /** A concatenation is blank exactly when both parts are. */
  lemma BlankAppend(a: string, b: string)
    ensures Blank(a + b) <==> Blank(a) && Blank(b)
  {
    if Blank(a + b) {
      assert forall i :: 0 <= i < |a| ==> a[i] == (a + b)[i];
      assert forall i :: 0 <= i < |b| ==> b[i] == (a + b)[|a| + i];
    }
  }

  /** `t` sits in `s` at offset `i`, with nothing but whitespace before and
      after it. */
  ghost predicate PieceAt(s: string, t: string, i: int) {
    0 <= i <= |s| - |t| && t == s[i..i + |t|] && Blank(s[..i]) && Blank(s[i + |t|..])
  }

  /** Trimming removes whitespace and nothing else, and only at the ends:
      the result is a contiguous piece of the input with blank text on either
      side of it. */
  lemma TrimRemovesOnlyWhiteSpace(s: string)
    ensures exists i :: PieceAt(s, Trim(s), i)
  {
    var f := TrimStart(s);
    var r := TrimEnd(f);
    TrimmedPiece(s, f, r);
    assert Trim(s) == r;
    assert PieceAt(s, r, |s| - |f|);
  }

  /** Text with no whitespace at either end is left as it is. */
  lemma TrimKeepsTrimmed(s: string)
    requires s != [] && !IsWhiteSpace(s[0]) && !IsWhiteSpace(s[|s| - 1])
    ensures Trim(s) == s
  {
    assert TrimStart(s) == s;
    assert TrimEnd(s) == s;
  }

  /** Trimming twice trims no more than trimming once. */
  lemma TrimIdempotent(s: string)
    ensures Trim(Trim(s)) == Trim(s)
  {
    var r := Trim(s);
    if r != [] {
      assert TrimStart(r) == r;
      assert TrimEnd(r) == r;
    }
  }
}
