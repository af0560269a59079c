/** JavaScript's String.prototype.trim and the truthiness test `s.trim()` that the chat box
    applies to the message input and to the API-key field before acting on them. */
module JsString {

  /** The code points ECMAScript counts as WhiteSpace or LineTerminator, which is exactly
      what trim removes from both ends: TAB, VT, FF, SP, NBSP, ZWNBSP, the space separators
      of category Zs, LF, CR, LINE SEPARATOR and PARAGRAPH SEPARATOR. */
  predicate IsWhiteSpace(c: char) {
    c == '\t' || c == '\n' || c == '\U{000B}' || c == '\U{000C}' || c == '\r' ||
    c == ' ' || c == '\U{00A0}' || c == '\U{1680}' ||
    ('\U{2000}' <= c <= '\U{200A}') ||
    c == '\U{2028}' || c == '\U{2029}' || c == '\U{202F}' || c == '\U{205F}' ||
    c == '\U{3000}' || c == '\U{FEFF}'
  }

  /** Every character of `s` is white space. */
  predicate AllWhiteSpace(s: string) {
    s == [] || (IsWhiteSpace(s[0]) && AllWhiteSpace(s[1..]))
  }

  lemma {:induction false} AllWhiteSpaceAppend(a: string, b: string)
    ensures AllWhiteSpace(a + b) <==> AllWhiteSpace(a) && AllWhiteSpace(b)
    decreases |a|
  {
    if a != [] {
      assert (a + b)[0] == a[0];
      assert (a + b)[1..] == a[1..] + b;
      AllWhiteSpaceAppend(a[1..], b);
    } else {
      assert a + b == b;
    }
  }

  /** AllWhiteSpace says of each character what its name says. */
  lemma {:induction false} AllWhiteSpaceAt(s: string)
    ensures AllWhiteSpace(s) <==> forall i :: 0 <= i < |s| ==> IsWhiteSpace(s[i])
    decreases |s|
  {
    if s != [] {
      AllWhiteSpaceAt(s[1..]);
      if forall i :: 0 <= i < |s| ==> IsWhiteSpace(s[i]) {
        forall i | 0 <= i < |s| - 1 ensures IsWhiteSpace(s[1..][i]) {
          assert s[1..][i] == s[i + 1];
        }
      }
      if AllWhiteSpace(s) {
        forall i | 0 <= i < |s| ensures IsWhiteSpace(s[i]) {
          if i > 0 { assert s[i] == s[1..][i - 1]; }
        }
      }
    }
  }

  /** Drops the leading white space: what is left is a suffix of `s` that starts with a
      visible character (or is empty), and everything dropped was white space. */
  function TrimStart(s: string): (r: string)
    ensures |r| <= |s| && r == s[|s| - |r|..]
    ensures r == [] || !IsWhiteSpace(r[0])
    ensures AllWhiteSpace(s[..|s| - |r|])
    decreases |s|
  {
    if s != [] && IsWhiteSpace(s[0]) then
      var r := TrimStart(s[1..]);
      assert s[..|s| - |r|][1..] == s[1..][..|s| - 1 - |r|];
      r
    else
      s
  }

  /** Drops the trailing white space: what is left is a prefix of `s` that ends with a
      visible character (or is empty), and everything dropped was white space. */
  function TrimEnd(s: string): (r: string)
    ensures |r| <= |s| && r == s[..|r|]
    ensures r == [] || !IsWhiteSpace(r[|r| - 1])
    ensures AllWhiteSpace(s[|r|..])
    decreases |s|
  {
    if s != [] && IsWhiteSpace(s[|s| - 1]) then
      var r := TrimEnd(s[..|s| - 1]);
      assert s[|r|..] == s[..|s| - 1][|r|..] + [s[|s| - 1]];
      assert AllWhiteSpace([s[|s| - 1]]);
      AllWhiteSpaceAppend(s[..|s| - 1][|r|..], [s[|s| - 1]]);
      r
    else
      s
  }

  /** `s.trim()`: a slice of `s` with no white space at either end, and empty exactly when
      `s` consists of white space only. */
  function Trim(s: string): (r: string)
    ensures |r| <= |s|
    ensures r != [] ==> !IsWhiteSpace(r[0]) && !IsWhiteSpace(r[|r| - 1])
    ensures r == [] <==> AllWhiteSpace(s)
  {
    var t := TrimStart(s);
    var r := TrimEnd(t);
    assert r != [] ==> r[0] == t[0];
    assert r == [] ==> AllWhiteSpace(s) by {
      if r == [] {
        assert t[|r|..] == t;
        assert t == [];
        assert s[..|s| - |t|] == s;
      }
    }
    assert AllWhiteSpace(s) ==> r == [] by {
      if r != [] {
        AllWhiteSpaceAt(s);
        assert r[0] == s[|s| - |t|];
      }
    }
    r
  }

  /** `s.trim()` is the slice of `s` left once its leading and its trailing white space are
      cut off: the piece before it and the piece after it are white space only. */
  lemma TrimIsSlice(s: string)
    ensures exists a ::
              0 <= a <= a + |Trim(s)| <= |s| && Trim(s) == s[a..a + |Trim(s)|] &&
              AllWhiteSpace(s[..a]) && AllWhiteSpace(s[a + |Trim(s)|..])
  {
    var t := TrimStart(s);
    var a := |s| - |t|;
    var r := TrimEnd(t);
    assert Trim(s) == r;
    assert t == s[a..];
    assert r == t[..|r|];
    assert r == s[a..a + |r|];
    assert t[|r|..] == s[a + |r|..];
    assert AllWhiteSpace(s[..a]);
  }

  /** The string is falsy after trimming, `!s.trim()` in JavaScript; Trim's contract says
      that this is the case exactly when every character is white space. */
  predicate IsBlank(s: string) {
    AllWhiteSpace(s)
  }

  /** A string is blank exactly when trimming leaves nothing, that is when every one of its
      characters is white space. */
  lemma BlankIffAllWhiteSpace(s: string)
    ensures IsBlank(s) <==> Trim(s) == []
    ensures IsBlank(s) <==> forall i :: 0 <= i < |s| ==> IsWhiteSpace(s[i])
  {
    AllWhiteSpaceAt(s);
  }

  /** A string that starts with a visible character is not blank. */
  lemma VisibleStartNotBlank(s: string)
    requires s != [] && !IsWhiteSpace(s[0])
    ensures !IsBlank(s)
  {
  }
}
