/**
  The Python `str` operations that the web server applies to tool output and
  to file names, stated exactly: `strip()`, `lstrip()`, `strip(chars)`,
  `startswith`, `in`, `find`, `split(sep)`, `join`, `rsplit(c, 1)[-1]`
  and `lower()` (the last one for ASCII letters only).
 */
module PyStr {
  import opened Wrappers

  /**
    Python's `str.isspace()`: the ASCII controls TAB..CR and FS..US, SPACE,
    NEL, NO-BREAK SPACE, OGHAM SPACE MARK, EN QUAD..HAIR SPACE, LINE and
    PARAGRAPH SEPARATOR, NARROW NO-BREAK SPACE, MEDIUM MATHEMATICAL SPACE and
    IDEOGRAPHIC SPACE.
   */
  predicate IsSpace(c: char) {
    var x := c as int;
    || 0x09 <= x <= 0x0D || 0x1C <= x <= 0x20 || x == 0x85 || x == 0xA0 || x == 0x1680
    || 0x2000 <= x <= 0x200A || x == 0x2028 || x == 0x2029 || x == 0x202F || x == 0x205F || x == 0x3000
  }

  /** A class of characters to strip: the whitespace of `strip()`, or the ones given to `strip(chars)`. */
  datatype Chars = Spaces | AnyOf(cs: set<char>)

  predicate In(c: char, cls: Chars) {
    match cls
    case Spaces => IsSpace(c)
    case AnyOf(cs) => c in cs
  }

  /** `s.lstrip(chars)`: drops the longest prefix made of characters of `cls`. */
  function LStripSet(s: string, cls: Chars): (r: string)
    ensures |r| <= |s| && r == s[|s| - |r|..]
    ensures forall i :: 0 <= i < |s| - |r| ==> In(s[i], cls)
    ensures r == [] || !In(r[0], cls)
    decreases |s|
  {
    if |s| > 0 && In(s[0], cls) then LStripSet(s[1..], cls) else s
  }

  /** `s.rstrip(chars)`: drops the longest suffix made of characters of `cls`. */
  function RStripSet(s: string, cls: Chars): (r: string)
    ensures |r| <= |s| && r == s[..|r|]
    ensures forall i :: |r| <= i < |s| ==> In(s[i], cls)
    ensures r == [] || !In(r[|r| - 1], cls)
    decreases |s|
  {
    if |s| > 0 && In(s[|s| - 1], cls) then RStripSet(s[..|s| - 1], cls) else s
  }

  /** `s.strip(chars)`: both ends at once. */
  function StripSet(s: string, cls: Chars): string {
    RStripSet(LStripSet(s, cls), cls)
  }

  /** `s.lstrip()` */
  function LStrip(s: string): string {
    LStripSet(s, Spaces)
  }

  /** `s.strip()` */
  function Strip(s: string): string {
    StripSet(s, Spaces)
  }

  /** `s.startswith(prefix)` */
  predicate StartsWith(s: string, prefix: string) {
    |prefix| <= |s| && s[..|prefix|] == prefix
  }

  predicate OccursAt(s: string, sub: string, i: int) {
    0 <= i && i + |sub| <= |s| && s[i..i + |sub|] == sub
  }

  /** `sub in s` */
  predicate Contains(s: string, sub: string) {
    exists i | 0 <= i <= |s| :: OccursAt(s, sub, i)
  }

  /** `s.find(sub, start)`: the leftmost occurrence of `sub` at or after `start`. */
  function Find(s: string, sub: string, start: nat): (r: Option<nat>)
    ensures r.Some? ==> start <= r.value && OccursAt(s, sub, r.value)
    ensures r.Some? ==> forall j :: start <= j < r.value ==> !OccursAt(s, sub, j)
    ensures r.None? ==> forall j :: start <= j ==> !OccursAt(s, sub, j)
    decreases |s| - start
  {
    if start + |sub| > |s| then None
    else if OccursAt(s, sub, start) then Some(start)
    else Find(s, sub, start + 1)
  }

  /** `sep.join(pieces)` */
  function Join(pieces: seq<string>, sep: string): string {
    if |pieces| == 0 then ""
    else if |pieces| == 1 then pieces[0]
    else pieces[0] + sep + Join(pieces[1..], sep)
  }

  /** An occurrence inside a prefix of `s` is an occurrence in `s`. */
  lemma OccursInPrefix(s: string, n: nat, sub: string, j: int)
    requires n <= |s| && OccursAt(s[..n], sub, j)
    ensures OccursAt(s, sub, j) && j + |sub| <= n
  {
    assert s[..n][j..j + |sub|] == s[j..j + |sub|];
  }

  /**
    `s.split(sep)`: `s` cut at each leftmost, non-overlapping occurrence of
    `sep` (Python raises on an empty separator, hence the precondition).
    There is more than one piece exactly when `sep` occurs.
   */
  function Split(s: string, sep: string): (r: seq<string>)
    requires sep != []
    ensures |r| >= 1
    ensures |r| == 1 <==> !Contains(s, sep)
    decreases |s|
  {
    match Find(s, sep, 0)
    case None => [s]
    case Some(i) =>
      SplitAtFirst(s, sep, i);
      [s[..i]] + Split(s[i + |sep|..], sep)
  }

  /** The pieces of `s.split(sep)` join back to `s`, and none of them contains `sep`. */
  lemma {:induction false} SplitJoins(s: string, sep: string)
    requires sep != []
    ensures Join(Split(s, sep), sep) == s
    ensures forall k :: 0 <= k < |Split(s, sep)| ==> !Contains(Split(s, sep)[k], sep)
    decreases |s|
  {
    match Find(s, sep, 0)
    case None =>
    case Some(i) =>
      SplitAtFirst(s, sep, i);
      var rest := Split(s[i + |sep|..], sep);
      SplitJoins(s[i + |sep|..], sep);
      JoinCons(s[..i], rest, sep);
      assert Split(s, sep) == [s[..i]] + rest;
  }

  /** The facts about the first cut that `Split` builds on. */
  lemma SplitAtFirst(s: string, sep: string, i: nat)
    requires sep != [] && Find(s, sep, 0) == Some(i)
    ensures i + |sep| <= |s| && Contains(s, sep)
    ensures !Contains(s[..i], sep)
    ensures s[..i] + sep + s[i + |sep|..] == s
  {
    assert OccursAt(s, sep, i);
    forall j | 0 <= j <= i && OccursAt(s[..i], sep, j)
      ensures false
    {
      OccursInPrefix(s, i, sep, j);
    }
    assert s[i..i + |sep|] == sep;
    assert s == s[..i] + s[i..i + |sep|] + s[i + |sep|..];
  }

  lemma JoinCons(x: string, rest: seq<string>, sep: string)
    requires |rest| >= 1
    ensures Join([x] + rest, sep) == x + sep + Join(rest, sep)
  {
    assert ([x] + rest)[1..] == rest;
  }

  /** `s.rsplit(c, 1)[-1]`: the text after the last `c`, or all of `s` when `c` does not occur. */
  function AfterLast(s: string, c: char): (r: string)
    ensures |r| <= |s| && r == s[|s| - |r|..]
    ensures c !in r
    ensures |r| < |s| ==> s[|s| - |r| - 1] == c
    decreases |s|
  {
    if |s| == 0 then s
    else if s[|s| - 1] == c then []
    else AfterLast(s[..|s| - 1], c) + [s[|s| - 1]]
  }

  /** `c.lower()` for the ASCII letters; every other character is left as it is. */
  function LowerChar(c: char): char {
    if 'A' <= c <= 'Z' then (c as int + 32) as char else c
  }

  /** `s.lower()`, character by character. */
  function Lower(s: string): string {
    seq(|s|, i requires 0 <= i < |s| => LowerChar(s[i]))
  }

  /** A text that differs from `prefix` at some position within both does not start with it. */
  lemma DiffersAt(s: string, prefix: string, k: nat)
    requires k < |prefix| && k < |s| && s[k] != prefix[k]
    ensures !StartsWith(s, prefix)
  {
    if |prefix| <= |s| {
      assert s[..|prefix|][k] == s[k];
    }
  }

  // ---------------------------------------------------------------------
  // Facts about stripping
  // ---------------------------------------------------------------------

  /** `lstrip(chars)` removes a leading run of stripped characters and stops at the first other one. */
  lemma {:induction false} LStripSetSkips(p: string, m: string, cls: Chars)
    requires forall i :: 0 <= i < |p| ==> In(p[i], cls)
    requires m == [] || !In(m[0], cls)
    ensures LStripSet(p + m, cls) == m
    decreases |p|
  {
    if p == [] {
      assert p + m == m;
    } else {
      assert (p + m)[1..] == p[1..] + m;
      LStripSetSkips(p[1..], m, cls);
    }
  }

  /** `rstrip(chars)` removes a trailing run of stripped characters and stops at the last other one. */
  lemma {:induction false} RStripSetSkips(m: string, q: string, cls: Chars)
    requires forall i :: 0 <= i < |q| ==> In(q[i], cls)
    requires m == [] || !In(m[|m| - 1], cls)
    ensures RStripSet(m + q, cls) == m
    decreases |q|
  {
    if q == [] {
      assert m + q == m;
    } else {
      assert (m + q)[..|m + q| - 1] == m + q[..|q| - 1];
      RStripSetSkips(m, q[..|q| - 1], cls);
    }
  }

  /** Stripping a text that sits between runs of stripped characters gives back that text. */
  lemma StripSetFramed(p: string, n: string, q: string, cls: Chars)
    requires forall i :: 0 <= i < |p| ==> In(p[i], cls)
    requires forall i :: 0 <= i < |q| ==> In(q[i], cls)
    requires n != [] && !In(n[0], cls) && !In(n[|n| - 1], cls)
    ensures StripSet(p + n + q, cls) == n
  {
    assert p + n + q == p + (n + q);
    LStripSetSkips(p, n + q, cls);
    RStripSetSkips(n, q, cls);
  }

  /**
    A text whose first character and whose `|prefix|`-th character are not
    whitespace still starts with `prefix` after `strip()`.
   */
  lemma StripKeepsPrefix(s: string, prefix: string)
    requires StartsWith(s, prefix) && prefix != []
    requires !IsSpace(prefix[0]) && !IsSpace(prefix[|prefix| - 1])
    ensures StartsWith(Strip(s), prefix)
  {
    var l := LStripSet(s, Spaces);
    assert s[0] == prefix[0];
    assert l == s;
    var r := RStripSet(l, Spaces);
    assert s[|prefix| - 1] == prefix[|prefix| - 1];
    assert r[..|prefix|] == s[..|prefix|];
  }

  /** `strip()` and `lstrip()` agree on whether the text starts with a given non-blank character. */
  lemma StripAgreesWithLStrip(s: string, c: char)
    requires !IsSpace(c)
    ensures StartsWith(Strip(s), [c]) <==> StartsWith(LStrip(s), [c])
  {
    var l := LStrip(s);
    var r := RStripSet(l, Spaces);
    if StartsWith(l, [c]) {
      assert !IsSpace(l[0]);
      assert r[0] == l[0];
    }
  }

  // ---------------------------------------------------------------------
  // Facts about searching and splitting
  // ---------------------------------------------------------------------

  /** A slice of `a + t + b` that lies inside `t` is a slice of `t`. */
  lemma MiddleSlice(a: string, t: string, b: string, lo: int, hi: int)
    requires 0 <= lo <= hi <= |t|
    ensures (a + t + b)[|a| + lo..|a| + hi] == t[lo..hi]
  {
    var s := a + t + b;
    forall k | lo <= k < hi ensures s[|a| + k] == t[k] { }
  }

  /**
    A separator whose first character differs from `a` and whose last
    character differs from `b` occurs in `[a] + t + [b]` only inside `t`.
   */
  lemma NotContainedFramed(a: string, t: string, b: string, sep: string)
    requires |a| <= 1 && |b| <= 1 && sep != []
    requires a != [] ==> a[0] != sep[0]
    requires b != [] ==> b[0] != sep[|sep| - 1]
    requires !Contains(t, sep)
    ensures !Contains(a + t + b, sep)
  {
    var s := a + t + b;
    forall i | 0 <= i <= |s| && OccursAt(s, sep, i)
      ensures false
    {
      assert s[i] == sep[0] && s[i + |sep| - 1] == sep[|sep| - 1];
      if |a| <= i && i + |sep| <= |a| + |t| {
        MiddleSlice(a, t, b, i - |a|, i - |a| + |sep|);
        assert OccursAt(t, sep, i - |a|);
      }
    }
  }

  /**
    A text that starts with `sep` and has no further occurrence of it splits
    into the empty text and the remainder.
   */
  lemma SplitAfterLeadingSep(s: string, sep: string)
    requires sep != [] && StartsWith(s, sep)
    requires !Contains(s[|sep|..], sep)
    ensures Split(s, sep) == ["", s[|sep|..]]
  {
    assert OccursAt(s, sep, 0);
    assert Find(s, sep, 0) == Some(0);
    assert s[..0] == "";
  }

  /** A text with no `c` in it, then `c`, splits at that `c` first. */
  lemma SplitAtChar(x: string, c: char, rest: string)
    requires c !in x
    ensures Split(x + [c] + rest, [c]) == [x] + Split(rest, [c])
  {
    var s := x + [c] + rest;
    assert OccursAt(s, [c], |x|);
    var f := Find(s, [c], 0);
    forall j | 0 <= j < |x|
      ensures !OccursAt(s, [c], j)
    {
      assert s[j..j + 1][0] == x[j];
    }
    assert f == Some(|x|);
    assert s[..|x|] == x;
    assert s[|x| + 1..] == rest;
  }

  /**
    `s.split(c)` for a one-character separator, cut character by character:
    each `c` closes the current piece and opens a new, empty one.
   */
  function Cut(s: string, c: char): (r: seq<string>)
    ensures |r| >= 1
    decreases |s|
  {
    if s == [] then [""]
    else
      var rest := Cut(s[1..], c);
      if s[0] == c then [""] + rest else [[s[0]] + rest[0]] + rest[1..]
  }

  lemma {:induction false} CutNoChar(s: string, c: char)
    requires c !in s
    ensures Cut(s, c) == [s]
    decreases |s|
  {
    if s != [] {
      assert c !in s[1..];
      CutNoChar(s[1..], c);
      assert [s[0]] + s[1..] == s;
    }
  }

  lemma {:induction false} CutAtChar(x: string, c: char, rest: string)
    requires c !in x
    ensures Cut(x + [c] + rest, c) == [x] + Cut(rest, c)
    decreases |x|
  {
    if x == [] {
      assert x + [c] + rest == [c] + rest;
      assert ([c] + rest)[1..] == rest;
    } else {
      assert (x + [c] + rest)[1..] == x[1..] + [c] + rest;
      assert c !in x[1..];
      CutAtChar(x[1..], c, rest);
      assert [x[0]] + x[1..] == x;
    }
  }

  /** Cutting at each `c` is exactly `s.split(c)`. */
  lemma {:induction false} CutIsSplit(s: string, c: char)
    ensures Cut(s, c) == Split(s, [c])
    decreases |s|
  {
    match Find(s, [c], 0)
    case None =>
      forall j | 0 <= j < |s| ensures s[j] != c {
        assert !OccursAt(s, [c], j);
        assert s[j..j + 1] == [s[j]];
      }
      CutNoChar(s, c);
    case Some(i) =>
      var x := s[..i];
      forall j | 0 <= j < i ensures x[j] != c {
        assert !OccursAt(s, [c], j);
        assert s[j..j + 1] == [x[j]];
      }
      assert s == x + [c] + s[i + 1..];
      SplitAtChar(x, c, s[i + 1..]);
      CutAtChar(x, c, s[i + 1..]);
      CutIsSplit(s[i + 1..], c);
  }

  /** `AfterLast` finds the text after the last `c` wherever the cut is made. */
  lemma AfterLastUnique(p: string, c: char, t: string)
    requires c !in t
    ensures AfterLast(p + [c] + t, c) == t
  {
    var s := p + [c] + t;
    var r := AfterLast(s, c);
    assert s[|p|] == c;
    assert forall i :: 0 <= i < |t| ==> s[|p| + 1 + i] == t[i];
    assert forall i :: 0 <= i < |r| ==> r[i] == s[|s| - |r| + i];
    assert |r| == |t|;
    assert r == s[|s| - |t|..] == t;
  }

  /** When `c` occurs, the text after the last `c` is strictly shorter than the whole. */
  lemma AfterLastShorter(s: string, c: char)
    requires c in s
    ensures |AfterLast(s, c)| < |s|
  {
  }
}
