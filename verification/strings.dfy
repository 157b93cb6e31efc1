/** The JavaScript string built-ins the provider layer relies on:
    `trim`, `slice(0, n)`, `includes` and `replace(/literal/g, "")`. */
module Strings {

  /** The characters `String.prototype.trim` removes: WhiteSpace (tab,
      vertical tab, form feed, space, no-break space, byte-order mark and
      the Unicode space separators) and LineTerminator. */
  predicate IsWhitespace(c: char)
  {
    || c in {'\t', '\U{0B}', '\U{0C}', ' ', '\U{A0}', '\U{FEFF}', '\U{1680}', '\U{202F}', '\U{205F}', '\U{3000}'}
    || ('\U{2000}' <= c <= '\U{200A}')
    || c in {'\n', '\r', '\U{2028}', '\U{2029}'}
  }

  predicate AllWhitespace(s: string)
  {
    forall i | 0 <= i < |s| :: IsWhitespace(s[i])
  }

  /** Neither end of `s` is whitespace. */
  predicate Trimmed(s: string)
  {
    s == [] || (!IsWhitespace(s[0]) && !IsWhitespace(s[|s| - 1]))
  }

  /** `s` with its leading whitespace removed: a suffix of `s` whose
      dropped part is all whitespace and which does not start with any. */
  function TrimStart(s: string): (r: string)
    ensures |r| <= |s| && r == s[|s| - |r|..]
    ensures AllWhitespace(s[..|s| - |r|])
    ensures r == [] || !IsWhitespace(r[0])
  {
    if s != [] && IsWhitespace(s[0]) then
      var r := TrimStart(s[1..]);
      assert s[..|s| - |r|] == [s[0]] + s[1..][..|s| - 1 - |r|];
      r
    else
      s
  }

  /** `s` with its trailing whitespace removed: a prefix of `s` whose
      dropped part is all whitespace and which does not end with any. */
  function TrimEnd(s: string): (r: string)
    ensures |r| <= |s| && r == s[..|r|]
    ensures AllWhitespace(s[|r|..])
    ensures r == [] || !IsWhitespace(r[|r| - 1])
  {
    if s != [] && IsWhitespace(s[|s| - 1]) then
      var r := TrimEnd(s[..|s| - 1]);
      assert s[|r|..] == s[..|s| - 1][|r|..] + [s[|s| - 1]];
      r
    else
      s
  }

  /** `s.trim()`: leading, then trailing whitespace removed. */
  function Trim(s: string): (r: string)
    ensures Trimmed(r)
    ensures |r| <= |s|
  {
    var t := TrimStart(s);
    var r := TrimEnd(t);
    assert r != [] ==> r[0] == t[0];
    r
  }

  /** What `trim` keeps is an infix of its input, and what it drops at
      either end is all whitespace. */
  lemma TrimIsInfix(s: string)
    ensures var r, k := Trim(s), |s| - |TrimStart(s)|;
      && k + |r| <= |s| && s[k..k + |r|] == r
      && AllWhitespace(s[..k]) && AllWhitespace(s[k + |r|..])
  {
    var t := TrimStart(s);
    var r := TrimEnd(t);
    var k := |s| - |t|;
    assert t == s[k..];
    assert s[k..k + |r|] == t[..|r|];
    assert s[k + |r|..] == t[|r|..];
  }

  lemma {:induction false} TrimStartPadded(a: string, y: string)
    requires AllWhitespace(a) && (y == [] || !IsWhitespace(y[0]))
    ensures TrimStart(a + y) == y
    decreases |a|
  {
    if a == [] {
      assert a + y == y;
    } else {
      assert (a + y)[1..] == a[1..] + y;
      TrimStartPadded(a[1..], y);
    }
  }

  lemma {:induction false} TrimEndPadded(y: string, b: string)
    requires AllWhitespace(b) && (y == [] || !IsWhitespace(y[|y| - 1]))
    ensures TrimEnd(y + b) == y
    decreases |b|
  {
    if b == [] {
      assert y + b == y;
    } else {
      assert (y + b)[..|y + b| - 1] == y + b[..|b| - 1];
      TrimEndPadded(y, b[..|b| - 1]);
    }
  }

  /** Trimming is determined by the trimmed core: padding a trimmed string
      with whitespace on both sides and trimming gives it back. */
  lemma TrimPadded(a: string, x: string, b: string)
    requires AllWhitespace(a) && AllWhitespace(b) && Trimmed(x)
    ensures Trim(a + x + b) == x
  {
    if x == [] {
      assert a + x + b == (a + b) + [];
      TrimStartPadded(a + b, []);
    } else {
      assert a + x + b == a + (x + b);
      TrimStartPadded(a, x + b);
      TrimEndPadded(x, b);
    }
  }

  /** `s.slice(0, n)`: the first `n` characters, or all of `s` when it is
      shorter. */
  function Take(s: string, n: nat): (r: string)
    ensures r <= s
    ensures |r| == if |s| <= n then |s| else n
  {
    if |s| <= n then s else s[..n]
  }

  predicate StartsWith(s: string, p: string)
  {
    |p| <= |s| && s[..|p|] == p
  }

  /** `s.includes(p)`: `p` occurs somewhere in `s`. */
  predicate Contains(s: string, p: string)
    decreases |s|
  {
    StartsWith(s, p) || (s != [] && Contains(s[1..], p))
  }

  /** `s.replace(/p/g, "")` for a pattern `p` without special characters:
      occurrences are removed left to right, never overlapping. Text with
      no occurrence comes back unchanged. */
  function RemoveAll(s: string, p: string): (r: string)
    requires p != []
    ensures |r| <= |s|
    ensures !Contains(s, p) ==> r == s
    decreases |s|
  {
    if s == [] then []
    else if StartsWith(s, p) then RemoveAll(s[|p|..], p)
    else [s[0]] + RemoveAll(s[1..], p)
  }

  lemma ContainsAppend(x: string, b: string, p: string)
    requires Contains(x, p)
    ensures Contains(x + b, p)
    decreases |x|
  {
    if !StartsWith(x, p) {
      assert (x + b)[1..] == x[1..] + b;
      ContainsAppend(x[1..], b, p);
    } else {
      assert (x + b)[..|p|] == x[..|p|];
    }
  }

  /** An occurrence inside an infix is an occurrence in the whole. */
  lemma {:induction false} ContainsInfix(a: string, x: string, b: string, p: string)
    requires Contains(x, p)
    ensures Contains(a + x + b, p)
    decreases |a|
  {
    if a == [] {
      assert a + x + b == x + b;
      ContainsAppend(x, b, p);
    } else {
      assert (a + x + b)[1..] == a[1..] + x + b;
      ContainsInfix(a[1..], x, b, p);
    }
  }

  /** Dropping leading whitespace cannot create an occurrence. */
  lemma TrimStartKeepsAbsence(s: string, p: string)
    requires !Contains(s, p)
    ensures !Contains(TrimStart(s), p)
  {
    var t := TrimStart(s);
    var a := s[..|s| - |t|];
    assert s == a + t + [];
    if Contains(t, p) {
      ContainsInfix(a, t, [], p);
    }
  }

  /** Dropping trailing whitespace cannot create an occurrence. */
  lemma TrimEndKeepsAbsence(s: string, p: string)
    requires !Contains(s, p)
    ensures !Contains(TrimEnd(s), p)
  {
    var r := TrimEnd(s);
    var b := s[|r|..];
    assert s == [] + r + b;
    if Contains(r, p) {
      ContainsInfix([], r, b, p);
    }
  }

  /** Trimming cannot create an occurrence. */
  lemma TrimKeepsAbsence(s: string, p: string)
    requires !Contains(s, p)
    ensures !Contains(Trim(s), p)
  {
    TrimStartKeepsAbsence(s, p);
    TrimEndKeepsAbsence(TrimStart(s), p);
  }

  /** A prefix that cannot begin an occurrence passes through untouched. */
  lemma {:induction false} RemoveAllPlainPrefix(t: string, u: string, p: string)
    requires p != []
    requires forall i | 0 <= i < |t| :: t[i] != p[0]
    ensures RemoveAll(t + u, p) == t + RemoveAll(u, p)
    decreases |t|
  {
    if t != [] {
      assert (t + u)[0] == t[0];
      assert (t + u)[1..] == t[1..] + u;
      RemoveAllPlainPrefix(t[1..], u, p);
    } else {
      assert t + u == u;
    }
  }

  const Fence: string := "```"

  /** Removing every fence leaves none behind: the scan never lets a
      backtick that survives join two others across a removed fence. */
  lemma {:induction false} RemoveAllFencesLeavesNone(s: string)
    ensures !Contains(RemoveAll(s, Fence), Fence)
    decreases |s|
  {
    if s == [] {
    } else if StartsWith(s, Fence) {
      RemoveAllFencesLeavesNone(s[3..]);
    } else {
      var t := s[1..];
      var rest := RemoveAll(t, Fence);
      var r := [s[0]] + rest;
      assert RemoveAll(s, Fence) == r;
      RemoveAllFencesLeavesNone(t);
      assert r[1..] == rest;
      if s[0] == '`' && |t| >= 2 {
        if t[0] != '`' {
          assert !StartsWith(t, Fence);
          assert rest[0] == t[0];
        } else {
          assert t[1] != '`';
          assert !StartsWith(t, Fence);
          assert rest == [t[0]] + RemoveAll(t[1..], Fence);
          assert !StartsWith(t[1..], Fence);
          assert rest[1] == t[1];
        }
      } else if s[0] == '`' && |t| == 1 {
        assert rest == [t[0]] + RemoveAll([], Fence);
      }
      assert !StartsWith(r, Fence);
    }
  }
}
