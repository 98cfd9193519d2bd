/** Order-preserving selection over sequences, the shape of every "keep the visible lines" loop. */
module Seqs {

  /** The elements of `s` that satisfy `p`, in their original order. */
  function Filter<T>(p: T -> bool, s: seq<T>): (r: seq<T>)
    ensures |r| <= |s|
    ensures forall i :: 0 <= i < |r| ==> r[i] in s && p(r[i])
    ensures forall i :: 0 <= i < |s| && p(s[i]) ==> s[i] in r
  {
    if s == [] then [] else (if p(s[0]) then [s[0]] else []) + Filter(p, s[1..])
  }

  /** Selection distributes over concatenation, so relative order is kept across any cut. */
  lemma {:induction false} FilterAppend<T>(p: T -> bool, a: seq<T>, b: seq<T>)
    ensures Filter(p, a + b) == Filter(p, a) + Filter(p, b)
  {
    if a == [] {
      assert a + b == b;
    } else {
      assert (a + b)[1..] == a[1..] + b;
      FilterAppend(p, a[1..], b);
    }
  }

  /**
    A left-to-right pass over `xs` that threads a state through `step` and
    collects what each step emits: the shape of a `for line in ...` loop that
    updates local variables and yields.
   */
  function Scan<S, T, U>(step: (S, T) -> (S, seq<U>), st: S, xs: seq<T>): (r: (S, seq<U>))
    decreases |xs|
  {
    if xs == [] then (st, [])
    else
      var h := step(st, xs[0]);
      var rest := Scan(step, h.0, xs[1..]);
      (rest.0, h.1 + rest.1)
  }

  lemma ScanCons<S, T, U>(step: (S, T) -> (S, seq<U>), st: S, x: T, xs: seq<T>)
    ensures Scan(step, st, [x] + xs) == (Scan(step, step(st, x).0, xs).0, step(st, x).1 + Scan(step, step(st, x).0, xs).1)
  {
    assert ([x] + xs)[0] == x;
    assert ([x] + xs)[1..] == xs;
  }

  /** A pass over `a + b` is a pass over `a` continued, from where it stopped, over `b`. */
  lemma {:induction false} ScanAppend<S, T, U>(step: (S, T) -> (S, seq<U>), st: S, a: seq<T>, b: seq<T>)
    ensures Scan(step, st, a + b).0 == Scan(step, Scan(step, st, a).0, b).0
    ensures Scan(step, st, a + b).1 == Scan(step, st, a).1 + Scan(step, Scan(step, st, a).0, b).1
    decreases |a|
  {
    if a == [] {
      assert a + b == b;
    } else {
      var h := step(st, a[0]);
      ScanCons(step, st, a[0], a[1..] + b);
      assert [a[0]] + (a[1..] + b) == a + b;
      ScanCons(step, st, a[0], a[1..]);
      assert [a[0]] + a[1..] == a;
      ScanAppend(step, h.0, a[1..], b);
      var mid := Scan(step, h.0, a[1..]);
      assert h.1 + (mid.1 + Scan(step, mid.0, b).1) == (h.1 + mid.1) + Scan(step, mid.0, b).1;
    }
  }

  /** A pass whose every step emits its element exactly when `p` holds emits the selection by `p`. */
  lemma {:induction false} ScanEmitsFilter<S, T>(step: (S, T) -> (S, seq<T>), p: T -> bool, st: S, xs: seq<T>)
    requires forall s, i :: 0 <= i < |xs| ==> step(s, xs[i]).1 == (if p(xs[i]) then [xs[i]] else [])
    ensures Scan(step, st, xs).1 == Filter(p, xs)
    decreases |xs|
  {
    if xs != [] {
      ScanEmitsFilter(step, p, step(st, xs[0]).0, xs[1..]);
    }
  }

  /** `f` applied to every element, in order. */
  function Map<A, B>(f: A -> B, s: seq<A>): (r: seq<B>)
    ensures |r| == |s|
    decreases |s|
  {
    if s == [] then [] else [f(s[0])] + Map(f, s[1..])
  }

  lemma {:induction false} MapAppend<A, B>(f: A -> B, a: seq<A>, b: seq<A>)
    ensures Map(f, a + b) == Map(f, a) + Map(f, b)
    decreases |a|
  {
    if a == [] {
      assert a + b == b;
    } else {
      assert (a + b)[0] == a[0];
      assert (a + b)[1..] == a[1..] + b;
      MapAppend(f, a[1..], b);
    }
  }

  lemma MapCons<A, B>(f: A -> B, x: A, s: seq<A>)
    ensures Map(f, [x] + s) == [f(x)] + Map(f, s)
  {
    assert ([x] + s)[0] == x;
    assert ([x] + s)[1..] == s;
  }

  /** Selecting by a property of the image, before or after mapping, gives the same images. */
  lemma {:induction false} MapFilter<A, B>(f: A -> B, q: B -> bool, p: A -> bool, s: seq<A>)
    requires forall x :: p(x) == q(f(x))
    ensures Map(f, Filter(p, s)) == Filter(q, Map(f, s))
    decreases |s|
  {
    if s != [] {
      MapFilter(f, q, p, s[1..]);
      MapAppend(f, if p(s[0]) then [s[0]] else [], Filter(p, s[1..]));
      assert Map(f, s)[1..] == Map(f, s[1..]);
    }
  }

  /** Selecting twice by the same property selects nothing more. */
  lemma {:induction false} FilterTwice<T>(p: T -> bool, s: seq<T>)
    ensures Filter(p, Filter(p, s)) == Filter(p, s)
    decreases |s|
  {
    if s != [] {
      FilterTwice(p, s[1..]);
      FilterAppend(p, if p(s[0]) then [s[0]] else [], Filter(p, s[1..]));
    }
  }

  /** Two selections that agree on every element of `s` select the same elements. */
  lemma {:induction false} FilterCongruent<T>(p: T -> bool, q: T -> bool, s: seq<T>)
    requires forall i :: 0 <= i < |s| ==> p(s[i]) == q(s[i])
    ensures Filter(p, s) == Filter(q, s)
    decreases |s|
  {
    if s != [] {
      FilterCongruent(p, q, s[1..]);
    }
  }

  /** A left-to-right pass over `xs` that only threads a state through `step`. */
  function Fold<S, T>(step: (S, T) -> S, st: S, xs: seq<T>): S
    decreases |xs|
  {
    if xs == [] then st else Fold(step, step(st, xs[0]), xs[1..])
  }

  lemma {:induction false} FoldAppend<S, T>(step: (S, T) -> S, st: S, a: seq<T>, b: seq<T>)
    ensures Fold(step, st, a + b) == Fold(step, Fold(step, st, a), b)
    decreases |a|
  {
    if a == [] {
      assert a + b == b;
    } else {
      assert (a + b)[0] == a[0];
      assert (a + b)[1..] == a[1..] + b;
      FoldAppend(step, step(st, a[0]), a[1..], b);
    }
  }

  lemma FoldCons<S, T>(step: (S, T) -> S, st: S, x: T, xs: seq<T>)
    ensures Fold(step, st, [x] + xs) == Fold(step, step(st, x), xs)
  {
    assert ([x] + xs)[0] == x;
    assert ([x] + xs)[1..] == xs;
  }

  /** Elements on which `step` changes nothing can be dropped from the pass. */
  lemma {:induction false} FoldSkips<S, T>(step: (S, T) -> S, keep: T -> bool, st: S, xs: seq<T>)
    requires forall s, x :: !keep(x) ==> step(s, x) == s
    ensures Fold(step, st, xs) == Fold(step, st, Filter(keep, xs))
    decreases |xs|
  {
    if xs != [] {
      if keep(xs[0]) {
        FoldSkips(step, keep, step(st, xs[0]), xs[1..]);
        FoldCons(step, st, xs[0], Filter(keep, xs[1..]));
      } else {
        assert step(st, xs[0]) == st;
        assert Filter(keep, xs) == Filter(keep, xs[1..]);
        FoldSkips(step, keep, st, xs[1..]);
      }
    }
  }

  /** A property every step keeps holds after the whole pass. */
  lemma {:induction false} FoldKeeps<S, T>(step: (S, T) -> S, inv: S -> bool, st: S, xs: seq<T>)
    requires forall s, x :: inv(s) ==> inv(step(s, x))
    requires inv(st)
    ensures inv(Fold(step, st, xs))
    decreases |xs|
  {
    if xs != [] {
      FoldKeeps(step, inv, step(st, xs[0]), xs[1..]);
    }
  }
}
