/** Python's `sorted` and C++'s `std::sort`, as a function over an arbitrary order,
    and sums that do not depend on the order of their terms. */
module Sorting {

  /** The comparison is total and transitive. */
  ghost predicate Linear<T(!new)>(le: (T, T) -> bool) {
    && (forall x, y :: le(x, y) || le(y, x))
    && (forall x, y, z :: le(x, y) && le(y, z) ==> le(x, z))
  }

  ghost predicate Sorted<T>(le: (T, T) -> bool, xs: seq<T>) {
    forall i, j | 0 <= i < j < |xs| :: le(xs[i], xs[j])
  }

  function Insert<T>(le: (T, T) -> bool, x: T, xs: seq<T>): (r: seq<T>)
    ensures multiset(r) == multiset{x} + multiset(xs)
    ensures |r| == |xs| + 1
  {
    if xs == [] || le(x, xs[0]) then
      [x] + xs
    else
      assert xs == [xs[0]] + xs[1..];
      [xs[0]] + Insert(le, x, xs[1..])
  }

  function Sort<T>(le: (T, T) -> bool, xs: seq<T>): (r: seq<T>)
    ensures multiset(r) == multiset(xs)
    ensures |r| == |xs|
  {
    if xs == [] then
      []
    else
      assert xs == [xs[0]] + xs[1..];
      Insert(le, xs[0], Sort(le, xs[1..]))
  }

  lemma {:induction false} InsertKeepsSorted<T(!new)>(le: (T, T) -> bool, x: T, xs: seq<T>)
    requires Linear(le) && Sorted(le, xs)
    ensures Sorted(le, Insert(le, x, xs))
  {
    if xs == [] || le(x, xs[0]) {
    } else {
      var rest := Insert(le, x, xs[1..]);
      InsertKeepsSorted(le, x, xs[1..]);
      forall i | 0 <= i < |rest| ensures le(xs[0], rest[i]) {
        assert rest[i] in multiset(rest);
        assert rest[i] in multiset{x} + multiset(xs[1..]);
      }
    }
  }

  lemma {:induction false} SortIsSorted<T(!new)>(le: (T, T) -> bool, xs: seq<T>)
    requires Linear(le)
    ensures Sorted(le, Sort(le, xs))
  {
    if xs == [] {
    } else {
      SortIsSorted(le, xs[1..]);
      InsertKeepsSorted(le, xs[0], Sort(le, xs[1..]));
    }
  }

  /** The sum of `f` over a list, folded from the left. */
  function Sum<T>(f: T -> nat, xs: seq<T>): nat {
    if xs == [] then 0 else Sum(f, xs[..|xs| - 1]) + f(xs[|xs| - 1])
  }

  lemma {:induction false} SumConcat<T>(f: T -> nat, xs: seq<T>, ys: seq<T>)
    ensures Sum(f, xs + ys) == Sum(f, xs) + Sum(f, ys)
  {
    if ys == [] {
      assert xs + ys == xs;
    } else {
      var n := |ys| - 1;
      assert (xs + ys)[..|xs + ys| - 1] == xs + ys[..n];
      SumConcat(f, xs, ys[..n]);
    }
  }

  lemma SumSnoc<T>(f: T -> nat, xs: seq<T>, x: T)
    ensures Sum(f, xs + [x]) == Sum(f, xs) + f(x)
    ensures multiset(xs + [x]) == multiset(xs) + multiset{x}
  {
    assert (xs + [x])[..|xs + [x]| - 1] == xs;
  }

  lemma SumRemove<T>(f: T -> nat, xs: seq<T>, i: nat)
    requires i < |xs|
    ensures Sum(f, xs) == Sum(f, xs[..i] + xs[i + 1..]) + f(xs[i])
  {
    hide Sum;
    var left, right := xs[..i], xs[i + 1..];
    assert xs == left + [xs[i]] + right;
    SumConcat(f, left + [xs[i]], right);
    SumSnoc(f, left, xs[i]);
    SumConcat(f, left, right);
  }

  lemma MultisetRemove<T>(xs: seq<T>, i: nat)
    requires i < |xs|
    ensures multiset(xs[..i] + xs[i + 1..]) == multiset(xs) - multiset{xs[i]}
  {
    assert xs == xs[..i] + [xs[i]] + xs[i + 1..];
  }

  lemma {:induction false} SumPermutation<T>(f: T -> nat, xs: seq<T>, ys: seq<T>)
    requires multiset(xs) == multiset(ys)
    ensures Sum(f, xs) == Sum(f, ys)
    decreases |xs|
  {
    if xs == [] {
      assert |multiset(ys)| == 0;
    } else {
      var n := |xs| - 1;
      var last := xs[n];
      assert last in multiset(ys);
      var i :| 0 <= i < |ys| && ys[i] == last;
      assert xs == xs[..n] + [last];
      SumRemove(f, ys, i);
      MultisetRemove(ys, i);
      SumPermutation(f, xs[..n], ys[..i] + ys[i + 1..]);
    }
  }

  lemma {:induction false} SumSplit<T>(f: T -> nat, g: T -> nat, h: T -> nat, xs: seq<T>)
    requires forall i | 0 <= i < |xs| :: h(xs[i]) == f(xs[i]) + g(xs[i])
    ensures Sum(h, xs) == Sum(f, xs) + Sum(g, xs)
  {
    if xs == [] {
    } else {
      SumSplit(f, g, h, xs[..|xs| - 1]);
    }
  }

  ghost predicate Distinct<T>(xs: seq<T>) {
    forall i, j | 0 <= i < j < |xs| :: xs[i] != xs[j]
  }

  lemma TakeOneMore<T>(xs: seq<T>, n: nat)
    requires n < |xs|
    ensures forall x :: x in xs[..n + 1] <==> x in xs[..n] || x == xs[n]
  {
    assert xs[..n + 1] == xs[..n] + [xs[n]];
  }

  lemma SameElements<T>(xs: seq<T>, ys: seq<T>)
    requires multiset(xs) == multiset(ys)
    ensures Distinct(xs) ==> Distinct(ys)
    ensures forall x :: x in ys <==> x in xs
  {
    forall x ensures x in ys <==> x in xs {
      assert x in ys <==> x in multiset(ys);
      assert x in xs <==> x in multiset(xs);
    }
    if Distinct(xs) {
      forall i, j | 0 <= i < j < |ys| ensures ys[i] != ys[j] {
        if ys[i] == ys[j] {
          TwiceInMultiset(ys, i, j);
          OnceInMultiset(xs, ys[i]);
        }
      }
    }
  }

  lemma TwiceInMultiset<T>(xs: seq<T>, i: nat, j: nat)
    requires i < j < |xs| && xs[i] == xs[j]
    ensures multiset(xs)[xs[i]] >= 2
  {
    assert xs == xs[..i] + [xs[i]] + xs[i + 1..j] + [xs[j]] + xs[j + 1..];
  }

  lemma {:induction false} OnceInMultiset<T>(xs: seq<T>, x: T)
    requires Distinct(xs)
    ensures multiset(xs)[x] <= 1
  {
    if xs == [] {
    } else {
      var n := |xs| - 1;
      OnceInMultiset(xs[..n], x);
      assert xs == xs[..n] + [xs[n]];
      if x == xs[n] {
        assert x !in xs[..n];
        assert x !in multiset(xs[..n]);
      }
    }
  }

  method Elements<T(==)>(s: set<T>) returns (xs: seq<T>)
    ensures Distinct(xs) && forall x :: x in xs <==> x in s
  {
    xs := [];
    var rest := s;
    while rest != {}
      invariant rest <= s && Distinct(xs) && forall x :: x in xs <==> x in s - rest
      decreases |rest|
    {
      var x :| x in rest;
      assert x !in xs;
      rest := rest - {x};
      xs := xs + [x];
    }
  }

  /** The sum of `f` over a set, in whatever order its elements are taken. */
  ghost function Total<T(!new)>(f: T -> nat, s: set<T>): nat {
    if s == {} then 0
    else
      var x :| x in s;
      f(x) + Total(f, s - {x})
  }

  lemma {:induction false} TotalRemove<T(!new)>(f: T -> nat, s: set<T>, x: T)
    requires x in s
    ensures Total(f, s) == f(x) + Total(f, s - {x})
    decreases |s|
  {
    var y :| y in s && Total(f, s) == f(y) + Total(f, s - {y});
    if y != x {
      TotalRemove(f, s - {y}, x);
      TotalRemove(f, s - {x}, y);
      assert s - {y} - {x} == s - {x} - {y};
    }
  }

  function Members<T>(xs: seq<T>): set<T> {
    set x | x in xs
  }

  lemma {:induction false} TotalOfList<T(!new)>(f: T -> nat, xs: seq<T>)
    requires Distinct(xs)
    ensures Sum(f, xs) == Total(f, Members(xs))
  {
    if xs == [] {
    } else {
      var n := |xs| - 1;
      TotalOfList(f, xs[..n]);
      assert xs == xs[..n] + [xs[n]];
      TotalRemove(f, Members(xs), xs[n]);
      assert Members(xs) - {xs[n]} == Members(xs[..n]);
    }
  }

  lemma {:induction false} SameTerms<T(!new)>(f: T -> nat, g: T -> nat, s: set<T>)
    requires forall x | x in s :: f(x) == g(x)
    ensures Total(f, s) == Total(g, s)
  {
    if s == {} {
    } else {
      var x :| x in s;
      TotalRemove(f, s, x);
      TotalRemove(g, s, x);
      SameTerms(f, g, s - {x});
    }
  }
}
