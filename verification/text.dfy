/** String helpers with the semantics of the Python `str` methods the
    analyzer relies on: `strip`, `lstrip`, `startswith`, `endswith`, `in`,
    `lower`, `find`, line splitting and joining, and `str(int)`. */
module Text {

  /** The characters Python's `str.isspace()` accepts, which are exactly the
      characters `strip()` and `lstrip()` remove when called without arguments. */
  predicate IsSpace(c: char) {
    || ('\t' <= c <= '\r')
    || ('\U{1C}' <= c <= '\U{1F}')
    || c == ' '
    || c == '\U{85}'
    || c == '\U{A0}'
    || c == '\U{1680}'
    || ('\U{2000}' <= c <= '\U{200A}')
    || c == '\U{2028}'
    || c == '\U{2029}'
    || c == '\U{202F}'
    || c == '\U{205F}'
    || c == '\U{3000}'
  }

  /** `s` has no leading and no trailing whitespace. */
  predicate IsStripped(s: string) {
    |s| == 0 || (!IsSpace(s[0]) && !IsSpace(s[|s| - 1]))
  }

  /** `s.lstrip()`: the suffix of `s` left after removing leading whitespace. */
  function LStrip(s: string): (r: string)
    ensures |r| <= |s| && r == s[|s| - |r|..]
    ensures forall i :: 0 <= i < |s| - |r| ==> IsSpace(s[i])
    ensures |r| == 0 || !IsSpace(r[0])
  {
    if |s| > 0 && IsSpace(s[0]) then LStrip(s[1..]) else s
  }

  /** `s.rstrip()`: the prefix of `s` left after removing trailing whitespace. */
  function RStrip(s: string): (r: string)
    ensures |r| <= |s| && r == s[..|r|]
    ensures forall i :: |r| <= i < |s| ==> IsSpace(s[i])
    ensures |r| == 0 || !IsSpace(r[|r| - 1])
  {
    if |s| > 0 && IsSpace(s[|s| - 1]) then RStrip(s[..|s| - 1]) else s
  }

  /** Every character of `s` is whitespace. */
  predicate AllSpace(s: string) {
    forall i :: 0 <= i < |s| ==> IsSpace(s[i])
  }

  /** `r` sits in `s` at index `k` with only whitespace before and after it. */
  predicate TrimmedAt(s: string, r: string, k: nat) {
    k + |r| <= |s| && s[k..k + |r|] == r && AllSpace(s[..k]) && AllSpace(s[k + |r|..])
  }

  /** `s.strip()`: the middle of `s` once whitespace is removed from both
      ends; everything cut off on either side is whitespace. */
  function Strip(s: string): (r: string)
    ensures IsStripped(r)
    ensures |r| <= |s|
    ensures |r| == 0 <==> AllSpace(s)
    ensures exists k :: 0 <= k <= |s| && TrimmedAt(s, r, k)
  {
    var l := LStrip(s);
    var head := s[..|s| - |l|];
    assert AllSpace(head) by {
      forall i | 0 <= i < |head|
        ensures IsSpace(head[i])
      {
        assert head[i] == s[i];
      }
    }
    var r := RStrip(l);
    var tail := l[|r|..];
    assert AllSpace(tail) by {
      forall i | 0 <= i < |tail|
        ensures IsSpace(tail[i])
      {
        assert tail[i] == l[|r| + i];
      }
    }
    TrimParts(s, l, r);
    StripEmpty(s, l);
    StripStrips(l);
    r
  }

  /** A prefix `r` of a suffix `l` of `s`, with only whitespace cut off on
      either side, sits in `s` trimmed. */
  lemma TrimParts(s: string, l: string, r: string)
    requires |l| <= |s| && l == s[|s| - |l|..] && AllSpace(s[..|s| - |l|])
    requires |r| <= |l| && r == l[..|r|] && AllSpace(l[|r|..])
    ensures TrimmedAt(s, r, |s| - |l|)
  {
    var k := |s| - |l|;
    assert s[k..k + |r|] == r;
    assert s[k + |r|..] == l[|r|..];
  }

  /** Nothing is left exactly when everything is whitespace. */
  lemma StripEmpty(s: string, l: string)
    requires l == LStrip(s)
    ensures |RStrip(l)| == 0 <==> AllSpace(s)
  {
    if |l| > 0 {
      var k := |s| - |l|;
      assert l[0] == s[k] && !IsSpace(l[0]);
      assert RStrip(l)[0] == l[0];
    } else {
      assert s[..|s|] == s;
    }
  }

  /** Right-stripping left-stripped text gives stripped text. */
  lemma StripStrips(l: string)
    requires |l| == 0 || !IsSpace(l[0])
    ensures IsStripped(RStrip(l))
  {
    var r := RStrip(l);
    if |r| > 0 {
      assert r[0] == l[0];
    }
  }

  /** Stripping is idempotent. */
  lemma StripStripped(s: string)
    requires IsStripped(s)
    ensures Strip(s) == s
  {
    assert LStrip(s) == s;
    assert RStrip(s) == s;
  }

  /** `s.startswith(p)`. */
  predicate StartsWith(s: string, p: string) {
    |p| <= |s| && s[..|p|] == p
  }

  /** `s.endswith(p)`. */
  predicate EndsWith(s: string, p: string) {
    |p| <= |s| && s[|s| - |p|..] == p
  }

  /** `t` occurs in `s` starting at index `i`. */
  predicate OccursAt(s: string, t: string, i: nat) {
    i + |t| <= |s| && s[i..i + |t|] == t
  }

  /** `t in s` for strings: `t` occurs in `s` at some offset (the empty string
      occurs everywhere). */
  predicate Contains(s: string, t: string) {
    exists i :: 0 <= i <= |s| && OccursAt(s, t, i)
  }

  /** An occurrence inside a concatenation is an occurrence in the whole. */
  lemma ContainsMiddle(a: string, b: string, c: string)
    ensures Contains(a + b + c, b)
  {
    assert OccursAt(a + b + c, b, |a|);
  }

  /** A concatenation contains its first part. */
  lemma ContainsStart(b: string, c: string)
    ensures Contains(b + c, b)
  {
    assert OccursAt(b + c, b, 0);
  }

  /** A string keeps its occurrences when something is put in front of it. */
  lemma ContainsAfter(a: string, s: string, t: string)
    requires Contains(s, t)
    ensures Contains(a + s, t)
  {
    var i :| 0 <= i <= |s| && OccursAt(s, t, i);
    assert (a + s)[|a| + i..|a| + i + |t|] == s[i..i + |t|];
    assert OccursAt(a + s, t, |a| + i);
  }

  /** `"".join(ps)`. */
  function Concat(ps: seq<string>): string
    decreases |ps|
  {
    if |ps| == 0 then "" else ps[0] + Concat(ps[1..])
  }

  /** Every piece of a concatenation occurs in it, and the first one starts
      it. */
  lemma {:induction false} ConcatContains(ps: seq<string>, k: nat)
    requires k < |ps|
    ensures Contains(Concat(ps), ps[k])
    ensures StartsWith(Concat(ps), ps[0])
    decreases |ps|
  {
    ContainsStart(ps[0], Concat(ps[1..]));
    assert StartsWith(Concat(ps), ps[0]) by {
      assert (ps[0] + Concat(ps[1..]))[..|ps[0]|] == ps[0];
    }
    if k > 0 {
      ConcatContains(ps[1..], k - 1);
      ContainsAfter(ps[0], Concat(ps[1..]), ps[k]);
    }
  }

  /** Python's `s[:n]` for a non-negative `n`. */
  function Take(s: string, n: nat): (r: string)
    ensures |r| <= n && |r| <= |s| && r == s[..|r|]
    ensures n <= |s| ==> |r| == n
    ensures n > |s| ==> r == s
  {
    if n <= |s| then s[..n] else s
  }

  /** Lower-casing of one character; only the ASCII letters are mapped. */
  function LowerChar(c: char): char {
    if 'A' <= c <= 'Z' then (c as int + 32) as char else c
  }

  /** `s.lower()`, character by character. */
  function Lower(s: string): (r: string)
    ensures |r| == |s|
    ensures forall i :: 0 <= i < |s| ==> r[i] == LowerChar(s[i])
  {
    seq(|s|, i requires 0 <= i < |s| => LowerChar(s[i]))
  }

  /** Lower-casing commutes with taking a slice. */
  lemma LowerSlice(s: string, i: nat, j: nat)
    requires i <= j <= |s|
    ensures Lower(s)[i..j] == Lower(s[i..j])
  {
  }

  /** Whatever occurs in `s` occurs lower-cased in `s.lower()`. */
  lemma ContainsLower(s: string, t: string)
    requires Contains(s, t)
    ensures Contains(Lower(s), Lower(t))
  {
    var i :| 0 <= i <= |s| && OccursAt(s, t, i);
    LowerSlice(s, i, i + |t|);
    assert OccursAt(Lower(s), Lower(t), i);
  }

  /** Lower-casing twice is lower-casing once. */
  lemma LowerLower(s: string)
    ensures Lower(Lower(s)) == Lower(s)
  {
  }

  /** A pattern without lower-case letters occurs in `s.lower()` only where
      it already occurs in `s`: no other character lower-cases onto it. */
  lemma ContainsUnlowered(s: string, t: string)
    requires forall j :: 0 <= j < |t| ==> !('a' <= t[j] <= 'z')
    requires Contains(Lower(s), t)
    ensures Contains(s, t)
  {
    var i :| 0 <= i <= |Lower(s)| && OccursAt(Lower(s), t, i);
    forall j | 0 <= j < |t|
      ensures s[i + j] == t[j]
    {
      assert Lower(s)[i..i + |t|][j] == t[j];
      assert LowerChar(s[i + j]) == t[j];
    }
    assert s[i..i + |t|] == t;
    assert OccursAt(s, t, i);
  }

  /** Index of the first `c` in `s`, or `|s|` when there is none. */
  function IndexOf(s: string, c: char): (i: nat)
    ensures i <= |s|
    ensures i < |s| ==> s[i] == c
    ensures c !in s[..i]
  {
    if |s| == 0 then 0
    else if s[0] == c then 0
    else
      var j := IndexOf(s[1..], c);
      assert s[1..][..j] == s[1..j + 1];
      assert s[..j + 1] == [s[0]] + s[1..j + 1];
      1 + j
  }

  /** Python's `s.find(c)`: the first index of `c`, or -1 when absent. */
  function Find(s: string, c: char): (i: int)
    ensures -1 <= i < |s|
    ensures i == -1 <==> c !in s
    ensures 0 <= i ==> s[i] == c && c !in s[..i]
  {
    var k := IndexOf(s, c);
    assert k == |s| ==> s[..k] == s;
    if k == |s| then -1 else k
  }

  /** Splits `s` at every '\n'; the pieces never contain '\n'. */
  function Split(s: string): (r: seq<string>)
    ensures |r| >= 1
    ensures forall i :: 0 <= i < |r| ==> '\n' !in r[i]
    decreases |s|
  {
    var k := IndexOf(s, '\n');
    if k == |s| then
      assert s[..k] == s;
      [s]
    else [s[..k]] + Split(s[k + 1..])
  }

  /** `"\n".join(ls)`. */
  function Join(ls: seq<string>): string {
    if |ls| == 0 then ""
    else if |ls| == 1 then ls[0]
    else ls[0] + "\n" + Join(ls[1..])
  }

  /** Joining the pieces of a split gives the original string back. */
  lemma {:induction false} JoinSplit(s: string)
    ensures Join(Split(s)) == s
    decreases |s|
  {
    var k := IndexOf(s, '\n');
    if k == |s| {
      assert s[..k] == s;
      assert Split(s) == [s];
    } else {
      var rest := Split(s[k + 1..]);
      assert Split(s) == [s[..k]] + rest;
      JoinCons(s[..k], rest);
      JoinSplit(s[k + 1..]);
      assert s == s[..k] + "\n" + s[k + 1..];
    }
  }

  /** Joining a line in front of at least one more line puts a '\n' between. */
  lemma JoinCons(a: string, ls: seq<string>)
    requires |ls| >= 1
    ensures Join([a] + ls) == a + "\n" + Join(ls)
  {
    assert ([a] + ls)[1..] == ls;
  }

  /** Splitting a join of newline-free lines gives the lines back. */
  lemma {:induction false} SplitJoin(ls: seq<string>)
    requires |ls| >= 1
    requires forall i :: 0 <= i < |ls| ==> '\n' !in ls[i]
    ensures Split(Join(ls)) == ls
  {
    if |ls| == 1 {
      assert IndexOf(ls[0], '\n') == |ls[0]|;
      assert ls[0][..|ls[0]|] == ls[0];
    } else {
      var s := Join(ls);
      assert s == ls[0] + "\n" + Join(ls[1..]);
      IndexOfAfter(ls[0], Join(ls[1..]));
      var k := IndexOf(s, '\n');
      assert k == |ls[0]|;
      assert s[..k] == ls[0];
      assert s[k + 1..] == Join(ls[1..]);
      SplitJoin(ls[1..]);
    }
  }

  /** The first '\n' of `a + "\n" + b` is the one after `a` when `a` has none. */
  lemma {:induction false} IndexOfAfter(a: string, b: string)
    requires '\n' !in a
    ensures IndexOf(a + "\n" + b, '\n') == |a|
  {
    if |a| > 0 {
      assert (a + "\n" + b)[1..] == a[1..] + "\n" + b;
      IndexOfAfter(a[1..], b);
    }
  }

  /** The number a string of decimal digits denotes. */
  function Value(d: string): nat
    requires forall i :: 0 <= i < |d| ==> '0' <= d[i] <= '9'
  {
    if |d| == 0 then 0
    else Value(d[..|d| - 1]) * 10 + (d[|d| - 1] as int - '0' as int)
  }

  /** The decimal digits of `n`, as Python's `str(n)` writes them: they
      denote `n`, and there is no leading zero unless `n` is 0. */
  function Decimal(n: nat): (r: string)
    ensures |r| >= 1
    ensures forall i :: 0 <= i < |r| ==> '0' <= r[i] <= '9'
    ensures Value(r) == n
    ensures r[0] == '0' ==> r == "0"
  {
    if n < 10 then
      var r := [('0' as int + n) as char];
      assert r[..0] == [];
      r
    else
      var p := Decimal(n / 10);
      var r := p + [('0' as int + n % 10) as char];
      assert r[..|r| - 1] == p;
      r
  }

  /** The first character of a join is that of its first line, or the
      separator when the first line is empty. */
  lemma JoinFirst(ls: seq<string>)
    requires |ls| >= 1
    ensures |ls[0]| > 0 ==> |Join(ls)| > 0 && Join(ls)[0] == ls[0][0]
    ensures |ls[0]| == 0 && |ls| > 1 ==> |Join(ls)| > 0 && Join(ls)[0] == '\n'
    ensures |ls[0]| == 0 && |ls| == 1 ==> Join(ls) == ""
  {
  }

  /** The last character of a join is that of its last line, or the
      separator when the last line is empty. */
  lemma {:induction false} JoinLast(ls: seq<string>)
    requires |ls| >= 1
    ensures var j := Join(ls); var e := ls[|ls| - 1];
      && (|e| > 0 ==> |j| > 0 && j[|j| - 1] == e[|e| - 1])
      && (|e| == 0 && |ls| > 1 ==> |j| > 0 && j[|j| - 1] == '\n')
  {
    if |ls| > 1 {
      JoinLast(ls[1..]);
      assert ls[1..][|ls[1..]| - 1] == ls[|ls| - 1];
    }
  }
}
