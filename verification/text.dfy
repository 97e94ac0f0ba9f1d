/**
 The string primitives the transaction search is built from:
 `String.prototype.trim`, `toLowerCase` and `includes`, restricted to ASCII.
 */
module Text {

  /** The ASCII characters `trim` removes: space, tab, line feed, vertical tab, form feed, carriage return. */
  predicate IsWhitespace(c: char)
  {
    c == ' ' || 9 <= c as int <= 13
  }

  /** Every character of `s` in positions `lo..hi` is whitespace. */
  predicate WhitespaceBetween(s: string, lo: int, hi: int)
    requires 0 <= lo && hi <= |s|
  {
    forall i :: lo <= i < hi ==> IsWhitespace(s[i])
  }

  predicate AllWhitespace(s: string)
  {
    WhitespaceBetween(s, 0, |s|)
  }

  /** Drops the leading whitespace. */
  function TrimStart(s: string): string
    decreases |s|
  {
    if |s| > 0 && IsWhitespace(s[0]) then TrimStart(s[1..]) else s
  }

  /** Drops the trailing whitespace. */
  function TrimEnd(s: string): string
    decreases |s|
  {
    if |s| > 0 && IsWhitespace(s[|s| - 1]) then TrimEnd(s[..|s| - 1]) else s
  }

  /** `TrimStart` leaves a suffix that starts with non-whitespace, after a whitespace prefix. */
  lemma {:induction false} TrimStartSpec(s: string)
    ensures var r := TrimStart(s);
      && |r| <= |s| && r == s[|s| - |r|..]
      && WhitespaceBetween(s, 0, |s| - |r|)
      && (r == [] || !IsWhitespace(r[0]))
    decreases |s|
  {
    if |s| > 0 && IsWhitespace(s[0]) {
      TrimStartSpec(s[1..]);
      var r := TrimStart(s[1..]);
      assert s[1..][|s| - 1 - |r|..] == s[|s| - |r|..];
      forall i | 0 <= i < |s| - |r|
        ensures IsWhitespace(s[i])
      {
        if i > 0 {
          assert s[i] == s[1..][i - 1];
        }
      }
    }
  }

  /** `TrimEnd` leaves a prefix that ends with non-whitespace, before a whitespace suffix. */
  lemma {:induction false} TrimEndSpec(s: string)
    ensures var r := TrimEnd(s);
      && |r| <= |s| && r == s[..|r|]
      && WhitespaceBetween(s, |r|, |s|)
      && (r == [] || !IsWhitespace(r[|r| - 1]))
    decreases |s|
  {
    if |s| > 0 && IsWhitespace(s[|s| - 1]) {
      var s' := s[..|s| - 1];
      TrimEndSpec(s');
      var r := TrimEnd(s');
      assert s'[..|r|] == s[..|r|];
      forall i | |r| <= i < |s|
        ensures IsWhitespace(s[i])
      {
        if i < |s| - 1 {
          assert s[i] == s'[i];
        }
      }
    }
  }

  /** `r` sits in `s` at position `a` with only whitespace around it. */
  ghost predicate TrimmedAt(s: string, r: string, a: int)
  {
    && 0 <= a && a + |r| <= |s|
    && s[a..a + |r|] == r
    && WhitespaceBetween(s, 0, a)
    && WhitespaceBetween(s, a + |r|, |s|)
  }

  /** Neither end of `r` is whitespace. */
  predicate TightEnds(r: string)
  {
    r == [] || (!IsWhitespace(r[0]) && !IsWhitespace(r[|r| - 1]))
  }

  /** `trim`: removes the whitespace at both ends. */
  function Trim(s: string): (r: string)
    ensures r == [] <==> AllWhitespace(s)
    ensures TightEnds(r)
    ensures exists a :: TrimmedAt(s, r, a)
  {
    var t := TrimStart(s);
    var r := TrimEnd(t);
    TrimParts(s, t, r);
    r
  }

  lemma TrimParts(s: string, t: string, r: string)
    requires t == TrimStart(s) && r == TrimEnd(t)
    ensures TightEnds(r)
    ensures TrimmedAt(s, r, |s| - |t|)
    ensures r == [] <==> AllWhitespace(s)
  {
    TrimStartSpec(s);
    TrimEndSpec(t);
    var a := |s| - |t|;
    assert s[a..a + |r|] == r;
    assert WhitespaceBetween(s, a + |r|, |s|) by {
      forall i | a + |r| <= i < |s|
        ensures IsWhitespace(s[i])
      {
        assert s[i] == t[i - a];
      }
    }
    assert TightEnds(r) by {
      if r != [] {
        assert r[0] == t[0];
      }
    }
  }

  /** Trimmed forms are unique: a tight infix with only whitespace around it is the trim. */
  lemma TrimUnique(s: string, r: string, a: int)
    requires TrimmedAt(s, r, a) && TightEnds(r)
    ensures Trim(s) == r
  {
    var r' := Trim(s);
    var a' :| TrimmedAt(s, r', a');
    if r == [] {
      assert AllWhitespace(s);
    } else {
      assert s[a] == r[0] && s[a + |r| - 1] == r[|r| - 1];
      assert r' != [];
      assert s[a'] == r'[0] && s[a' + |r'| - 1] == r'[|r'| - 1];
      assert a == a';
      assert |r| == |r'|;
    }
  }

  /** Whitespace around a string does not change its trimmed form. */
  lemma TrimIgnoresPadding(pre: string, s: string, post: string)
    requires AllWhitespace(pre) && AllWhitespace(post)
    ensures Trim(pre + s + post) == Trim(s)
  {
    var r := Trim(s);
    var a :| TrimmedAt(s, r, a);
    var x := pre + s + post;
    var b := |pre| + a;
    PaddedTrimmedAt(pre, s, post, r, a);
    TrimUnique(x, r, b);
  }

  lemma PaddedTrimmedAt(pre: string, s: string, post: string, r: string, a: int)
    requires AllWhitespace(pre) && AllWhitespace(post) && TrimmedAt(s, r, a)
    ensures TrimmedAt(pre + s + post, r, |pre| + a)
  {
    var x := pre + s + post;
    var b := |pre| + a;
    forall i | 0 <= i < |x|
      ensures x[i] == if i < |pre| then pre[i] else if i < |pre| + |s| then s[i - |pre|] else post[i - |pre| - |s|]
    {
    }
    assert x[b..b + |r|] == s[a..a + |r|];
  }

  /** Trimming twice is trimming once. */
  lemma TrimIdempotent(s: string)
    ensures Trim(Trim(s)) == Trim(s)
  {
    var r := Trim(s);
    assert r[0..|r|] == r;
    TrimUnique(r, r, 0);
  }

  /** ASCII `toLowerCase` of one character. */
  function LowerChar(c: char): char
  {
    if 'A' <= c <= 'Z' then (c as int + 32) as char else c
  }

  /** ASCII `toLowerCase`. */
  function Lower(s: string): (r: string)
    ensures |r| == |s|
    ensures forall i :: 0 <= i < |s| ==> r[i] == LowerChar(s[i])
  {
    seq(|s|, i requires 0 <= i < |s| => LowerChar(s[i]))
  }

  /** Lower-casing leaves no ASCII capital behind, and changes nothing else. */
  lemma LowerCharSpec(c: char)
    ensures !('A' <= LowerChar(c) <= 'Z')
    ensures LowerChar(c) != c <==> 'A' <= c <= 'Z'
    ensures LowerChar(c) as int - c as int == if 'A' <= c <= 'Z' then 32 else 0
  {
  }

  /** Lower-casing twice is lower-casing once. */
  lemma LowerIdempotent(s: string)
    ensures Lower(Lower(s)) == Lower(s)
  {
  }

  /** Lower-casing commutes with concatenation. */
  lemma LowerAppend(a: string, b: string)
    ensures Lower(a + b) == Lower(a) + Lower(b)
  {
  }

  /** Lower-casing never turns a character into whitespace or whitespace into something else. */
  lemma LowerKeepsWhitespace(c: char)
    ensures IsWhitespace(LowerChar(c)) <==> IsWhitespace(c)
  {
  }

  /** Trimming and lower-casing can be done in either order. */
  lemma {:induction false} TrimLowerCommute(s: string)
    ensures Trim(Lower(s)) == Lower(Trim(s))
  {
    TrimStartLower(s);
    TrimEndLower(TrimStart(s));
  }

  lemma {:induction false} TrimStartLower(s: string)
    ensures TrimStart(Lower(s)) == Lower(TrimStart(s))
    decreases |s|
  {
    if |s| > 0 {
      var ls := Lower(s);
      LowerKeepsWhitespace(s[0]);
      if IsWhitespace(s[0]) {
        assert ls[1..] == Lower(s[1..]);
        TrimStartLower(s[1..]);
      }
    }
  }

  lemma {:induction false} TrimEndLower(s: string)
    ensures TrimEnd(Lower(s)) == Lower(TrimEnd(s))
    decreases |s|
  {
    if |s| > 0 {
      var ls := Lower(s);
      LowerKeepsWhitespace(s[|s| - 1]);
      if IsWhitespace(s[|s| - 1]) {
        assert ls[..|s| - 1] == Lower(s[..|s| - 1]);
        TrimEndLower(s[..|s| - 1]);
      }
    }
  }

  /** `q` occurs in `s` at position `k`. */
  ghost predicate OccursAt(s: string, q: string, k: int)
  {
    0 <= k && k + |q| <= |s| && s[k..k + |q|] == q
  }

  /** The characters `q[j..]` occur in `s` from position `k + j` on. */
  predicate MatchFrom(s: string, q: string, k: nat, j: nat)
    decreases |q| - j
  {
    j >= |q| || (k + j < |s| && s[k + j] == q[j] && MatchFrom(s, q, k, j + 1))
  }

  /** `q` occurs in `s` at some position `k` or later. */
  predicate IncludesFrom(s: string, q: string, k: nat)
    decreases |s| - k
  {
    k + |q| <= |s| && (MatchFrom(s, q, k, 0) || IncludesFrom(s, q, k + 1))
  }

  /** `String.prototype.includes`: the position-by-position search. */
  predicate Includes(s: string, q: string)
  {
    IncludesFrom(s, q, 0)
  }

  lemma {:induction false} MatchFromSpec(s: string, q: string, k: nat, j: nat)
    requires j <= |q| && k + |q| <= |s|
    ensures MatchFrom(s, q, k, j) <==> s[k + j..k + |q|] == q[j..]
    decreases |q| - j
  {
    if j < |q| {
      MatchFromSpec(s, q, k, j + 1);
      assert s[k + j..k + |q|] == [s[k + j]] + s[k + j + 1..k + |q|];
      assert q[j..] == [q[j]] + q[j + 1..];
    }
  }

  lemma {:induction false} IncludesFromSpec(s: string, q: string, k: nat)
    ensures IncludesFrom(s, q, k) <==> exists i :: k <= i && OccursAt(s, q, i)
    decreases |s| - k
  {
    if k + |q| <= |s| {
      MatchFromSpec(s, q, k, 0);
      IncludesFromSpec(s, q, k + 1);
      assert q[0..] == q;
      if MatchFrom(s, q, k, 0) {
        assert OccursAt(s, q, k);
      } else if !IncludesFrom(s, q, k + 1) {
        forall i | k <= i && OccursAt(s, q, i)
          ensures false
        {
        }
      }
    } else {
      forall i | k <= i && OccursAt(s, q, i)
        ensures false
      {
      }
    }
  }

  /** The search finds `q` exactly when `q` is an infix of `s`. */
  lemma IncludesSpec(s: string, q: string)
    ensures Includes(s, q) <==> exists i :: OccursAt(s, q, i)
  {
    IncludesFromSpec(s, q, 0);
  }

  /** The empty string is found in every string. */
  lemma IncludesEmpty(s: string)
    ensures Includes(s, "")
  {
    assert OccursAt(s, "", 0);
    IncludesSpec(s, "");
  }

  /** A witness position proves an occurrence. */
  lemma IncludesAt(s: string, q: string, k: nat)
    requires k + |q| <= |s| && MatchFrom(s, q, k, 0)
    ensures Includes(s, q)
  {
    MatchFromSpec(s, q, k, 0);
    assert OccursAt(s, q, k);
    IncludesSpec(s, q);
  }

  /** A character of `q` that never appears in `s` rules out any occurrence. */
  lemma MissingChar(s: string, q: string, j: nat)
    requires j < |q| && q[j] !in s
    ensures !Includes(s, q)
  {
    IncludesSpec(s, q);
  }

  /** `q` cannot occur in `s` when `s` is shorter, or when `q[j]` is missing
      from every position it could take in an occurrence: the first
      `|s| - |q| + j + 1` characters of `s`. */
  lemma MissingEarly(s: string, q: string, j: nat)
    requires j < |q| && (|s| < |q| || q[j] !in s[..|s| - |q| + j + 1])
    ensures !Includes(s, q)
  {
    forall k | 0 <= k
      ensures !OccursAt(s, q, k)
    {
      if k + |q| <= |s| {
        assert s[k..k + |q|][j] == s[..|s| - |q| + j + 1][k + j];
      }
    }
    IncludesSpec(s, q);
  }

  /** When a character of `q` is absent from the first `P` characters of `s`
      and a later character of `q` is absent from the rest, `q` cannot occur:
      the first would have to sit at or after `P` and the second before it. */
  lemma AbsentInOrder(s: string, q: string, P: nat, i: nat, k: nat)
    requires P <= |s| && i < k < |q|
    requires q[i] !in s[..P] && q[k] !in s[P..]
    ensures !Includes(s, q)
  {
    IncludesSpec(s, q);
  }

  /** When `q[i]` occurs in `s` only at position `P`, the only candidate
      occurrence of `q` starts at `P - i`; if that one fails, `q` does not occur. */
  lemma SoleOccurrence(s: string, q: string, i: nat, P: nat)
    requires i < |q| && P < |s|
    requires q[i] !in s[..P] && q[i] !in s[P + 1..]
    requires !(i <= P && OccursAt(s, q, P - i))
    ensures !Includes(s, q)
  {
    IncludesSpec(s, q);
  }

  /** `q` occurs in `x + y + z` where `y` sits. */
  lemma IncludesInfix(x: string, y: string, z: string)
    ensures Includes(x + y + z, y)
  {
    var s := x + y + z;
    assert s[|x|..|x| + |y|] == y;
    assert OccursAt(s, y, |x|);
    IncludesSpec(s, y);
  }

  /** A needle without spaces found in `x + " " + y` lies wholly in `x` or wholly in `y`. */
  lemma NoSpaceSplit(x: string, y: string, q: string)
    requires ' ' !in q
    ensures Includes(x + " " + y, q) ==> Includes(x, q) || Includes(y, q)
  {
    var s := x + " " + y;
    IncludesSpec(s, q);
    IncludesSpec(x, q);
    IncludesSpec(y, q);
    if Includes(s, q) {
      var p :| OccursAt(s, q, p);
      if p + |q| <= |x| {
        OccursInPrefix(x, " " + y, q, p);
      } else if p <= |x| {
        SpaceInside(x, y, q, p);
      } else {
        assert s == (x + " ") + y;
        OccursInSuffix(x + " ", y, q, p);
      }
    }
  }

  /** An occurrence that ends within `a` is an occurrence in `a`. */
  lemma OccursInPrefix(a: string, b: string, q: string, p: int)
    requires OccursAt(a + b, q, p) && p + |q| <= |a|
    ensures OccursAt(a, q, p)
  {
    assert (a + b)[p..p + |q|] == a[p..p + |q|];
  }

  /** An occurrence that starts after `a` is an occurrence in `b`. */
  lemma OccursInSuffix(a: string, b: string, q: string, p: int)
    requires OccursAt(a + b, q, p) && |a| <= p
    ensures OccursAt(b, q, p - |a|)
  {
    assert (a + b)[p..p + |q|] == b[p - |a|..p - |a| + |q|];
  }

  /** An occurrence of `q` in `x + " " + y` that covers the separator contains a space. */
  lemma SpaceInside(x: string, y: string, q: string, p: int)
    requires OccursAt(x + " " + y, q, p) && p <= |x| < p + |q|
    ensures ' ' in q
  {
    var s := x + " " + y;
    assert q[|x| - p] == s[p..p + |q|][|x| - p] == s[|x|];
  }

  /** `AbsentInOrder` with the split at a space: a character of `q` missing
      before the space and a later one missing after it. */
  lemma InOrderAcrossSpace(x: string, y: string, q: string, i: nat, k: nat)
    requires i < k < |q| && q[i] != ' ' && q[i] !in x && q[k] !in y
    ensures !Includes(x + " " + y, q)
  {
    var s := x + " " + y;
    assert s[..|x| + 1] == x + " ";
    assert s[|x| + 1..] == y;
    AbsentInOrder(s, q, |x| + 1, i, k);
  }
}
