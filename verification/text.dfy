/** The handful of Python `str` operations the system relies on: substring
    membership (`sub in s`), `any(k in s for k in keys)`, prefix slicing
    `s[:n]`, `s.split('\n')`, `sep.join(parts)` and `s.strip()`.
    Characters are Unicode code points, as in Python 3 strings. */
module Text {

  // ---------------------------------------------------------------------
  // Substring membership
  // ---------------------------------------------------------------------

  /** Python's `sub in s`: `sub` occurs somewhere in `s` (the empty string
      occurs everywhere). */
  predicate Contains(s: string, sub: string)
    decreases |s|
  {
    sub <= s || (|s| > 0 && Contains(s[1..], sub))
  }

  /** `sub` occurs in `s` starting at position `i`. */
  predicate OccursAt(s: string, sub: string, i: nat) {
    i + |sub| <= |s| && s[i..i + |sub|] == sub
  }

  /** `Contains` agrees with the positional definition of an occurrence. */
  lemma {:induction false} ContainsIffOccurs(s: string, sub: string)
    ensures Contains(s, sub) <==> exists i: nat :: OccursAt(s, sub, i)
    decreases |s|
  {
    if Contains(s, sub) {
      if sub <= s {
        assert s[0..|sub|] == sub;
        assert OccursAt(s, sub, 0);
      } else {
        ContainsIffOccurs(s[1..], sub);
        var i: nat :| OccursAt(s[1..], sub, i);
        TailSlice(s, i, |sub|);
        assert OccursAt(s, sub, i + 1);
      }
    }
    if exists i: nat :: OccursAt(s, sub, i) {
      var i: nat :| OccursAt(s, sub, i);
      if i == 0 {
        assert s[..|sub|] == sub;
      } else {
        TailSlice(s, i - 1, |sub|);
        assert OccursAt(s[1..], sub, i - 1);
        ContainsIffOccurs(s[1..], sub);
      }
    }
  }

  /** A slice of the tail is the slice one position further on. */
  lemma TailSlice(s: string, i: nat, n: nat)
    requires i + n < |s|
    ensures s[1..][i..i + n] == s[i + 1..i + 1 + n]
  {
    var a, b := s[1..][i..i + n], s[i + 1..i + 1 + n];
    assert forall k :: 0 <= k < n ==> a[k] == b[k];
  }

  /** An occurrence never is longer than the text it occurs in. */
  lemma {:induction false} ContainsLength(s: string, sub: string)
    requires Contains(s, sub)
    ensures |sub| <= |s|
    decreases |s|
  {
    if !(sub <= s) {
      ContainsLength(s[1..], sub);
    }
  }

  /** Whatever occurs in a prefix of `q` occurs in `q`. */
  lemma {:induction false} PrefixContains(a: string, q: string, b: string)
    requires a <= q && Contains(a, b)
    ensures Contains(q, b)
    decreases |a|
  {
    if b <= a {
      assert b <= q;
    } else {
      assert a[1..] <= q[1..];
      PrefixContains(a[1..], q[1..], b);
    }
  }

  /** Substring membership is transitive: if `a` occurs in `q` and `b`
      occurs in `a`, then `b` occurs in `q`. */
  lemma {:induction false} ContainsTransitive(q: string, a: string, b: string)
    requires Contains(q, a) && Contains(a, b)
    ensures Contains(q, b)
    decreases |q|
  {
    if a <= q {
      PrefixContains(a, q, b);
    } else {
      ContainsTransitive(q[1..], a, b);
    }
  }

  /** Python's `any(k in s for k in keys)`. */
  predicate ContainsAny(s: string, keys: seq<string>) {
    exists k :: k in keys && Contains(s, k)
  }

  /** A text that contains some non-empty keyword is itself non-empty. */
  lemma ContainsAnyNonEmpty(s: string, keys: seq<string>)
    requires ContainsAny(s, keys)
    requires forall k :: k in keys ==> k != ""
    ensures s != ""
  {
    var k :| k in keys && Contains(s, k);
    ContainsLength(s, k);
  }

  // ---------------------------------------------------------------------
  // Slicing
  // ---------------------------------------------------------------------

  /** Python's `s[:n]` for a non-negative `n`: the first `n` characters, or
      all of `s` when it is shorter. */
  function Take(s: string, n: nat): (r: string)
    ensures r <= s
    ensures |r| <= n
    ensures |s| <= n ==> r == s
  {
    if |s| <= n then s else s[..n]
  }

  // ---------------------------------------------------------------------
  // Splitting on newlines and joining
  // ---------------------------------------------------------------------

  /** Python's `s.split('\n')`: the maximal newline-free pieces between
      newlines; always at least one piece (`"".split('\n') == [""]`). */
  function SplitLines(s: string): (r: seq<string>)
    ensures |r| >= 1
    ensures forall i :: 0 <= i < |r| ==> '\n' !in r[i]
    decreases |s|
  {
    if |s| == 0 then [""]
    else
      var rest := SplitLines(s[1..]);
      if s[0] == '\n' then [""] + rest
      else [[s[0]] + rest[0]] + rest[1..]
  }

  /** Python's `sep.join(parts)`. */
  function JoinWith(sep: string, parts: seq<string>): string
    decreases |parts|
  {
    if |parts| == 0 then ""
    else if |parts| == 1 then parts[0]
    else parts[0] + sep + JoinWith(sep, parts[1..])
  }

  /** Joining the pieces of a split with newlines gives the text back. */
  lemma {:induction false} JoinSplitLines(s: string)
    ensures JoinWith("\n", SplitLines(s)) == s
    decreases |s|
  {
    if |s| > 0 {
      var rest := SplitLines(s[1..]);
      JoinSplitLines(s[1..]);
      if s[0] == '\n' {
        assert SplitLines(s) == [""] + rest;
        assert ([""] + rest)[1..] == rest;
      } else {
        var r := [[s[0]] + rest[0]] + rest[1..];
        assert SplitLines(s) == r;
        if |rest| == 1 {
          assert JoinWith("\n", r) == [s[0]] + rest[0];
        } else {
          assert r[1..] == rest[1..];
          assert JoinWith("\n", r) == [s[0]] + rest[0] + "\n" + JoinWith("\n", rest[1..]);
        }
        assert s == [s[0]] + s[1..];
      }
    }
  }

  /** Splitting "a + sep + rest" when `a` holds no newline. */
  lemma {:induction false} SplitLinesCons(a: string, rest: string)
    requires '\n' !in a
    ensures SplitLines(a + "\n" + rest) == [a] + SplitLines(rest)
    decreases |a|
  {
    if |a| == 0 {
      assert a + "\n" + rest == "\n" + rest;
      assert ("\n" + rest)[1..] == rest;
    } else {
      var t := a + "\n" + rest;
      assert t[1..] == a[1..] + "\n" + rest;
      SplitLinesCons(a[1..], rest);
      assert t[0] == a[0] && t[0] != '\n';
      assert [a[0]] + a[1..] == a;
    }
  }

  /** A newline-free text splits into itself. */
  lemma {:induction false} SplitLinesSingle(a: string)
    requires '\n' !in a
    ensures SplitLines(a) == [a]
    decreases |a|
  {
    if |a| > 0 {
      SplitLinesSingle(a[1..]);
      assert [a[0]] + a[1..] == a;
    }
  }

  /** The other round trip: splitting a newline-join of newline-free pieces
      gives the pieces back. */
  lemma {:induction false} SplitJoinLines(parts: seq<string>)
    requires |parts| >= 1
    requires forall i :: 0 <= i < |parts| ==> '\n' !in parts[i]
    ensures SplitLines(JoinWith("\n", parts)) == parts
    decreases |parts|
  {
    if |parts| == 1 {
      SplitLinesSingle(parts[0]);
    } else {
      SplitJoinLines(parts[1..]);
      SplitLinesCons(parts[0], JoinWith("\n", parts[1..]));
      assert [parts[0]] + parts[1..] == parts;
    }
  }

  /** Regrouping a four-part concatenation to the right. */
  lemma ConcatRight(a: string, b: string, c: string, d: string)
    ensures (a + b + c) + d == a + (b + (c + d))
  {
    assert a + b + c + d == a + (b + c + d);
    assert b + c + d == b + (c + d);
  }

  /** Appending one more piece to a non-empty join. */
  lemma {:induction false} JoinAppend(sep: string, parts: seq<string>, x: string)
    ensures JoinWith(sep, parts + [x]) == if |parts| == 0 then x else JoinWith(sep, parts) + sep + x
    decreases |parts|
  {
    if |parts| == 1 {
      assert (parts + [x])[1..] == [x];
    } else if |parts| > 1 {
      assert (parts + [x])[1..] == parts[1..] + [x];
      JoinAppend(sep, parts[1..], x);
    }
  }

  /** A join splits at any inner piece boundary. */
  lemma {:induction false} JoinSplitAt(sep: string, parts: seq<string>, k: nat)
    requires 0 < k < |parts|
    ensures JoinWith(sep, parts) == JoinWith(sep, parts[..k]) + sep + JoinWith(sep, parts[k..])
    decreases k
  {
    if k > 1 {
      JoinSplitAt(sep, parts[1..], k - 1);
      assert parts[1..][..k - 1] == parts[..k][1..];
      assert parts[1..][k - 1..] == parts[k..];
    }
  }

  // ---------------------------------------------------------------------
  // Stripping whitespace
  // ---------------------------------------------------------------------

  /** The characters for which Python's `str.isspace()` holds; `str.strip()`
      with no argument removes exactly these from both ends. */
  predicate IsSpace(c: char) {
    c == ' ' || ('\t' <= c <= '\r') || ('\U{1c}' <= c <= '\U{1f}') || c == '\U{85}' || c == '\U{a0}'
    || c == '\U{1680}' || ('\U{2000}' <= c <= '\U{200a}') || c == '\U{2028}' || c == '\U{2029}'
    || c == '\U{202f}' || c == '\U{205f}' || c == '\U{3000}'
  }

  predicate AllSpace(s: string) {
    forall i :: 0 <= i < |s| ==> IsSpace(s[i])
  }

  /** Neither end of `s` is whitespace. */
  predicate Trimmed(s: string) {
    |s| == 0 || (!IsSpace(s[0]) && !IsSpace(s[|s| - 1]))
  }

  function StripLeft(s: string): (r: string)
    ensures |r| <= |s| && r == s[|s| - |r|..]
    ensures AllSpace(s[..|s| - |r|])
    ensures |r| == 0 || !IsSpace(r[0])
    decreases |s|
  {
    if |s| > 0 && IsSpace(s[0]) then
      var r := StripLeft(s[1..]);
      var k := |s| - |r|;
      assert r == s[k..] by {
        assert s[1..][k - 1..] == s[k..];
      }
      assert AllSpace(s[..k]) by {
        forall i | 0 <= i < k
          ensures IsSpace(s[..k][i])
        {
          if i > 0 {
            assert s[..k][i] == s[1..][..k - 1][i - 1];
          }
        }
      }
      r
    else s
  }

  function StripRight(s: string): (r: string)
    ensures |r| <= |s| && r == s[..|r|]
    ensures AllSpace(s[|r|..])
    ensures |r| == 0 || !IsSpace(r[|r| - 1])
    decreases |s|
  {
    if |s| > 0 && IsSpace(s[|s| - 1]) then StripRight(s[..|s| - 1]) else s
  }

  /** Python's `s.strip()`: `s` minus its leading and trailing whitespace. */
  function Strip(s: string): (r: string)
    ensures Trimmed(r)
    ensures exists i: nat :: StrippedAt(s, r, i)
  {
    var l := StripLeft(s);
    var r := StripRight(l);
    StripParts(s, l, r);
    r
  }

  /** Every part of a white-space text is white space. */
  lemma BlankSlice(s: string, r: string, i: nat)
    requires AllSpace(s)
    requires StrippedAt(s, r, i)
    ensures AllSpace(r)
  {
    forall k | 0 <= k < |r| ensures IsSpace(r[k]) {
      assert r[k] == s[i + k];
    }
  }

  /** Stripping the right end of a left-stripped text leaves a trimmed slice
      of the original. */
  lemma StripParts(s: string, l: string, r: string)
    requires |l| <= |s| && l == s[|s| - |l|..] && AllSpace(s[..|s| - |l|]) && (|l| == 0 || !IsSpace(l[0]))
    requires |r| <= |l| && r == l[..|r|] && AllSpace(l[|r|..]) && (|r| == 0 || !IsSpace(r[|r| - 1]))
    ensures Trimmed(r) && StrippedAt(s, r, |s| - |l|)
  {
    var i := |s| - |l|;
    assert |r| > 0 ==> r[0] == l[0];
    assert s[i..i + |r|] == l[..|r|];
    assert s[i + |r|..] == l[|r|..];
  }

  /** `r` is `s` with an all-whitespace prefix of length `i` and an
      all-whitespace suffix removed. */
  predicate StrippedAt(s: string, r: string, i: nat) {
    && i + |r| <= |s|
    && s[i..i + |r|] == r
    && AllSpace(s[..i])
    && AllSpace(s[i + |r|..])
  }
}
