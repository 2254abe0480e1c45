/** Folding a step over a sequence, oldest element first; and two small sequences. */
module Folds {

  function Fold<S, P>(step: (S, P) -> S, s: S, ps: seq<P>): S {
    if ps == [] then s else step(Fold(step, s, ps[..|ps| - 1]), ps[|ps| - 1])
  }

  lemma FoldSnoc<S, P>(step: (S, P) -> S, s: S, ps: seq<P>, p: P)
    ensures Fold(step, s, ps + [p]) == step(Fold(step, s, ps), p)
  {
    assert (ps + [p])[..|ps|] == ps;
  }

  lemma {:induction false} FoldConcat<S, P>(step: (S, P) -> S, s: S, a: seq<P>, b: seq<P>)
    ensures Fold(step, s, a + b) == Fold(step, Fold(step, s, a), b)
  {
    if b == [] {
      assert a + b == a;
    } else {
      var n := |b| - 1;
      assert (a + b)[..|a| + n] == a + b[..n];
      FoldConcat(step, s, a, b[..n]);
    }
  }

  function Repeat<T>(v: T, n: nat): seq<T> {
    if n == 0 then [] else Repeat(v, n - 1) + [v]
  }

  /** A sequence can be cut in only one way at its first separator. */
  lemma {:induction false} CutAt<T>(x: seq<T>, r: seq<T>, y: seq<T>, s: seq<T>, sep: T)
    requires sep !in x && sep !in y && x + [sep] + r == y + [sep] + s
    ensures x == y && r == s
  {
    var a, b := x + [sep] + r, y + [sep] + s;
    if x == [] || y == [] {
      assert a[|x|] == sep == b[|y|];
      assert x == y;
      assert a[1..] == r && b[1..] == s;
    } else {
      assert a[0] == x[0] && b[0] == y[0];
      assert x[1..] + [sep] + r == a[1..] == b[1..] == y[1..] + [sep] + s;
      CutAt(x[1..], r, y[1..], s, sep);
      assert x == [x[0]] + x[1..] && y == [y[0]] + y[1..];
    }
  }

  lemma HeadTail<T>(s: seq<T>)
    requires s != []
    ensures s == [s[0]] + s[1..]
  {}

  lemma FrontLast<T>(s: seq<T>)
    requires s != []
    ensures s == s[..|s| - 1] + [s[|s| - 1]]
  {}
}
