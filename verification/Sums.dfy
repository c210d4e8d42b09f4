/** Finite sums over sequences, and the fact that their order does not matter. */
module Sums {

  function Sum<T>(xs: seq<T>, f: T -> int): int {
    if xs == [] then 0 else f(xs[0]) + Sum(xs[1..], f)
  }

  lemma {:induction false} SumConcat<T>(xs: seq<T>, ys: seq<T>, f: T -> int)
    ensures Sum(xs + ys, f) == Sum(xs, f) + Sum(ys, f)
  {
    if xs == [] {
      assert xs + ys == ys;
    } else {
      assert (xs + ys)[1..] == xs[1..] + ys;
      SumConcat(xs[1..], ys, f);
    }
  }

  lemma {:induction false} SumPlus<T>(xs: seq<T>, f: T -> int, g: T -> int, h: T -> int)
    requires forall x | x in xs :: h(x) == f(x) + g(x)
    ensures Sum(xs, h) == Sum(xs, f) + Sum(xs, g)
  {
    if xs != [] {
      assert h(xs[0]) == f(xs[0]) + g(xs[0]);
      SumPlus(xs[1..], f, g, h);
    }
  }

  /** A sum is monotone, and strictly so as soon as one term is strictly larger. */
  lemma {:induction false} SumMonotone<T>(xs: seq<T>, f: T -> int, g: T -> int)
    requires forall x | x in xs :: f(x) <= g(x)
    ensures Sum(xs, f) <= Sum(xs, g)
    ensures (exists x | x in xs :: f(x) < g(x)) ==> Sum(xs, f) < Sum(xs, g)
  {
    if xs != [] {
      SumMonotone(xs[1..], f, g);
      assert f(xs[0]) <= g(xs[0]);
    }
  }

  lemma {:induction false} SumZero<T>(xs: seq<T>, f: T -> int)
    requires forall x | x in xs :: f(x) == 0
    ensures Sum(xs, f) == 0
  {
    if xs != [] {
      assert f(xs[0]) == 0;
      SumZero(xs[1..], f);
    }
  }

  lemma SumInsert<T>(front: seq<T>, x: T, back: seq<T>, f: T -> int)
    ensures Sum(front + [x] + back, f) == f(x) + Sum(front + back, f)
  {
    SumConcat(front, back, f);
    SumConcat(front + [x], back, f);
    SumConcat(front, [x], f);
    assert Sum([x], f) == f(x) + Sum([], f);
  }

  /** Two listings of the same multiset have the same sum. */
  lemma {:induction false} SumPermutation<T>(xs: seq<T>, ys: seq<T>, f: T -> int)
    requires multiset(xs) == multiset(ys)
    ensures Sum(xs, f) == Sum(ys, f)
  {
    if xs == [] {
      assert |multiset(ys)| == 0;
    } else {
      var x := xs[0];
      assert x in multiset(ys);
      var i :| 0 <= i < |ys| && ys[i] == x;
      var front, back := ys[..i], ys[i + 1..];
      assert ys == front + [x] + back;
      assert xs == [x] + xs[1..];
      assert multiset(xs[1..]) == multiset(front + back) by {
        assert multiset(front + [x] + back) == multiset(front + [x]) + multiset(back);
        assert multiset(front + back) == multiset(ys) - multiset{x};
        assert multiset([x] + xs[1..]) == multiset([x]) + multiset(xs[1..]);
        assert multiset(xs[1..]) == multiset(xs) - multiset{x};
      }
      SumPermutation(xs[1..], front + back, f);
      SumInsert(front, x, back, f);
    }
  }

  lemma {:induction false} SumCongruence<T>(xs: seq<T>, f: T -> int, g: T -> int)
    requires forall x | x in xs :: f(x) == g(x)
    ensures Sum(xs, f) == Sum(xs, g)
  {
    if xs != [] {
      assert f(xs[0]) == g(xs[0]);
      SumCongruence(xs[1..], f, g);
    }
  }

  function Row<A, B>(f: (A, B) -> int, x: A): B -> int {
    y => f(x, y)
  }

  function Column<A, B>(f: (A, B) -> int, y: B): A -> int {
    x => f(x, y)
  }

  /** Exchanging the order of a double sum. */
  lemma {:induction false} SumExchange<A, B>(xs: seq<A>, ys: seq<B>, f: (A, B) -> int, rows: A -> int, columns: B -> int)
    requires forall x | x in xs :: rows(x) == Sum(ys, Row(f, x))
    requires forall y | y in ys :: columns(y) == Sum(xs, Column(f, y))
    ensures Sum(xs, rows) == Sum(ys, columns)
  {
    if xs == [] {
      SumZero(ys, columns);
    } else {
      var others := (y: B) => Sum(xs[1..], Column(f, y));
      assert rows(xs[0]) == Sum(ys, Row(f, xs[0]));
      SumExchange(xs[1..], ys, f, rows, others);
      SumPlus(ys, Row(f, xs[0]), others, columns);
    }
  }

  /** The step of a loop that adds up the terms from left to right. */
  lemma SumPrefix<T>(xs: seq<T>, i: nat, f: T -> int)
    requires i < |xs|
    ensures Sum(xs[..i + 1], f) == Sum(xs[..i], f) + f(xs[i])
  {
    assert xs[..i + 1] == xs[..i] + [xs[i]];
    SumConcat(xs[..i], [xs[i]], f);
    assert Sum([xs[i]], f) == f(xs[i]) + Sum([], f);
  }

  lemma {:induction false} SumConstant<T>(xs: seq<T>, f: T -> int, c: int)
    requires forall x | x in xs :: f(x) == c
    ensures Sum(xs, f) == |xs| * c
  {
    if xs != [] {
      assert f(xs[0]) == c;
      SumConstant(xs[1..], f, c);
    }
  }

  /** A term that is `c` at one place and 0 elsewhere. */
  lemma {:induction false} SumSingle<T>(xs: seq<T>, x: T, f: T -> int)
    requires forall i, j | 0 <= i < j < |xs| :: xs[i] != xs[j]
    requires x in xs && forall y | y in xs && y != x :: f(y) == 0
    ensures Sum(xs, f) == f(x)
  {
    if xs[0] == x {
      SumZero(xs[1..], f);
    } else {
      assert f(xs[0]) == 0;
      SumSingle(xs[1..], x, f);
    }
  }

  lemma SumUpdate<T>(xs: seq<T>, i: nat, x: T, f: T -> int)
    requires i < |xs|
    ensures Sum(xs[i := x], f) == Sum(xs, f) - f(xs[i]) + f(x)
  {
    var front, back := xs[..i], xs[i + 1..];
    assert xs == front + [xs[i]] + back && xs[i := x] == front + [x] + back;
    SumInsert(front, xs[i], back, f);
    SumInsert(front, x, back, f);
  }

  function Mapped<A, B>(xs: seq<A>, h: A -> B): (r: seq<B>)
    ensures |r| == |xs| && forall i | 0 <= i < |xs| :: r[i] == h(xs[i])
  {
    seq(|xs|, i requires 0 <= i < |xs| => h(xs[i]))
  }

  lemma {:induction false} SumMapped<A, B>(xs: seq<A>, h: A -> B, f: B -> int, g: A -> int)
    requires forall x | x in xs :: g(x) == f(h(x))
    ensures Sum(Mapped(xs, h), f) == Sum(xs, g)
  {
    if xs != [] {
      assert g(xs[0]) == f(h(xs[0]));
      assert Mapped(xs, h)[1..] == Mapped(xs[1..], h);
      SumMapped(xs[1..], h, f, g);
    }
  }
}
