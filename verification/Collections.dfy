/** Facts about finite sets, maps and sequences used throughout the project. */
module Collections {

  datatype Option<+T> = None | Some(value: T)

  /** The sum of a sequence of naturals. */
  function Sum(xs: seq<nat>): (n: nat)
  {
    if xs == [] then 0 else Sum(xs[..|xs| - 1]) + xs[|xs| - 1]
  }

  lemma {:induction false} SumAppend(xs: seq<nat>, x: nat)
    ensures Sum(xs + [x]) == Sum(xs) + x
  {
    assert (xs + [x])[..|xs|] == xs;
  }

  lemma {:induction false} SumUpdate(xs: seq<nat>, i: nat, x: nat)
    requires i < |xs|
    ensures Sum(xs[i := x]) + xs[i] == Sum(xs) + x
  {
    var n := |xs| - 1;
    if i == n {
      assert xs[i := x][..n] == xs[..n];
    } else {
      SumUpdate(xs[..n], i, x);
      assert xs[i := x][..n] == xs[..n][i := x];
    }
  }

  /** Sums of smaller parts are smaller, and equal only if all parts are. */
  lemma {:induction false} SumBelow(xs: seq<nat>, ys: seq<nat>)
    requires |xs| == |ys| && forall i :: 0 <= i < |xs| ==> xs[i] <= ys[i]
    ensures Sum(xs) <= Sum(ys)
    ensures Sum(xs) == Sum(ys) <==> xs == ys
  {
    if xs != [] {
      var n := |xs| - 1;
      SumBelow(xs[..n], ys[..n]);
      assert xs == xs[..n] + [xs[n]] && ys == ys[..n] + [ys[n]];
    }
  }

  /** A set included in another is no larger. */
  lemma {:induction false} SubsetSize<T>(a: set<T>, b: set<T>)
    requires a <= b
    ensures |a| <= |b|
    decreases |a|
  {
    if a != {} {
      var x :| x in a;
      SubsetSize(a - {x}, b - {x});
    }
  }

  /** The image of a set under an injective function has as many elements. */
  lemma {:induction false} ImageSize<S, T>(dom: set<S>, img: set<T>, f: S --> T)
    requires forall x :: x in dom ==> f.requires(x)
    requires forall x :: x in dom ==> f(x) in img
    requires forall x, y :: x in dom && y in dom && f(x) == f(y) ==> x == y
    requires forall y :: y in img ==> exists x :: x in dom && f(x) == y
    ensures |dom| == |img|
    decreases |dom|
  {
    if dom != {} {
      var x :| x in dom;
      ImageSize(dom - {x}, img - {f(x)}, f);
    } else {
      assert img == {};
    }
  }

  /** A set of naturals below n has at most n elements. */
  lemma {:induction false} BelowSize(a: set<nat>, n: nat)
    requires forall x :: x in a ==> x < n
    ensures |a| <= n
  {
    if n > 0 {
      BelowSize(a - {n - 1}, n - 1);
    } else {
      assert a == {};
    }
  }

  /** A nonempty set of naturals has a largest element. */
  lemma {:induction false} LargestExists(a: set<nat>) returns (m: nat)
    requires a != {}
    ensures m in a && forall x :: x in a ==> x <= m
    decreases |a|
  {
    var x :| x in a;
    if a - {x} == {} {
      m := x;
      assert forall y :: y in a ==> y == x || y in a - {x};
    } else {
      var rest := LargestExists(a - {x});
      m := if rest < x then x else rest;
      assert forall y :: y in a ==> y == x || y in a - {x};
    }
  }

  ghost function Elements<T>(xs: seq<T>): set<T>
  {
    set x | x in xs
  }

  /** A sequence has at most as many distinct elements as positions, and
      exactly as many when its elements are pairwise distinct. */
  lemma {:induction false} ElementsSize<T>(xs: seq<T>)
    ensures |Elements(xs)| <= |xs|
    ensures (forall i, j :: 0 <= i < j < |xs| ==> xs[i] != xs[j]) ==> |Elements(xs)| == |xs|
  {
    if xs != [] {
      var n := |xs| - 1;
      ElementsSize(xs[..n]);
      assert Elements(xs) == Elements(xs[..n]) + {xs[n]};
      assert xs == xs[..n] + [xs[n]];
    }
  }
}
