/** Lists of rows, and the multisets they stand for. */
module Bags {
  datatype List<T> = Nil | Cons(head: T, tail: List<T>)

  function Concat<T>(a: List<T>, b: List<T>): List<T> {
    match a
    case Nil => b
    case Cons(x, rest) => Cons(x, Concat(rest, b))
  }

  function Filter<T>(s: List<T>, keep: T -> bool): List<T> {
    match s
    case Nil => Nil
    case Cons(x, rest) => if keep(x) then Cons(x, Filter(rest, keep)) else Filter(rest, keep)
  }

  function Map<S, T>(s: List<S>, f: S -> T): List<T> {
    match s
    case Nil => Nil
    case Cons(x, rest) => Cons(f(x), Map(rest, f))
  }

  function FlatMap<S, T>(s: List<S>, f: S -> List<T>): List<T> {
    match s
    case Nil => Nil
    case Cons(x, rest) => Concat(f(x), FlatMap(rest, f))
  }

  ghost predicate Has<T(!new)>(s: List<T>, x: T) {
    s.Cons? && (s.head == x || Has(s.tail, x))
  }

  /** The rows of a list with their multiplicities, whatever their order. */
  ghost function Bag<T>(s: List<T>): multiset<T> {
    match s
    case Nil => multiset{}
    case Cons(x, rest) => multiset{x} + Bag(rest)
  }

  // ---- Concatenation ---------------------------------------------------------------------------------

  lemma {:induction false} ConcatNil<T>(a: List<T>)
    ensures Concat(a, Nil) == a
  {
    if a.Nil? {
    } else {
      ConcatNil(a.tail);
    }
  }

  lemma {:induction false} ConcatAssoc<T>(a: List<T>, b: List<T>, c: List<T>)
    ensures Concat(Concat(a, b), c) == Concat(a, Concat(b, c))
  {
    if a.Nil? {
    } else {
      ConcatAssoc(a.tail, b, c);
    }
  }

  lemma {:induction false} HasConcat<T(!new)>(a: List<T>, b: List<T>, x: T)
    ensures Has(Concat(a, b), x) <==> Has(a, x) || Has(b, x)
  {
    if a.Nil? {
    } else {
      HasConcat(a.tail, b, x);
    }
  }

  lemma {:induction false} BagConcat<T>(a: List<T>, b: List<T>)
    ensures Bag(Concat(a, b)) == Bag(a) + Bag(b)
  {
    if a.Nil? {
    } else {
      BagConcat(a.tail, b);
    }
  }

  lemma {:induction false} HasBag<T(!new)>(s: List<T>, x: T)
    ensures Has(s, x) <==> x in Bag(s)
  {
    if s.Nil? {
    } else {
      HasBag(s.tail, x);
    }
  }

  lemma EmptyBag<T>(s: List<T>)
    ensures Bag(s) == multiset{} <==> s.Nil?
  {
    if s.Cons? {
      assert s.head in multiset{s.head} + Bag(s.tail);
    }
  }

  // ---- Selection -------------------------------------------------------------------------------------

  lemma {:induction false} FilterConcat<T>(a: List<T>, b: List<T>, keep: T -> bool)
    ensures Filter(Concat(a, b), keep) == Concat(Filter(a, keep), Filter(b, keep))
  {
    if a.Nil? {
    } else {
      FilterConcat(a.tail, b, keep);
    }
  }

  lemma {:induction false} HasFilter<T(!new)>(s: List<T>, keep: T -> bool, x: T)
    ensures Has(Filter(s, keep), x) <==> Has(s, x) && keep(x)
  {
    if s.Nil? {
    } else {
      HasFilter(s.tail, keep, x);
    }
  }

  lemma {:induction false} FilterAll<T(!new)>(s: List<T>, keep: T -> bool)
    requires forall x :: Has(s, x) ==> keep(x)
    ensures Filter(s, keep) == s
  {
    if s.Nil? {
    } else {
      assert Has(s, s.head);
      forall x | Has(s.tail, x) ensures keep(x) {
        assert Has(s, x);
      }
      FilterAll(s.tail, keep);
    }
  }

  lemma {:induction false} FilterNone<T(!new)>(s: List<T>, keep: T -> bool)
    requires forall x :: Has(s, x) ==> !keep(x)
    ensures Filter(s, keep) == Nil
  {
    if s.Nil? {
    } else {
      assert Has(s, s.head);
      forall x | Has(s.tail, x) ensures !keep(x) {
        assert Has(s, x);
      }
      FilterNone(s.tail, keep);
    }
  }

  lemma {:induction false} FilterSame<T(!new)>(s: List<T>, f: T -> bool, g: T -> bool)
    requires forall x :: f(x) == g(x)
    ensures Filter(s, f) == Filter(s, g)
  {
    if s.Nil? {
    } else {
      FilterSame(s.tail, f, g);
    }
  }

  lemma {:induction false} FilterCompose<T(!new)>(s: List<T>, f: T -> bool, g: T -> bool, both: T -> bool)
    requires forall x :: both(x) == (f(x) && g(x))
    ensures Filter(Filter(s, f), g) == Filter(s, both)
  {
    if s.Nil? {
    } else {
      FilterCompose(s.tail, f, g, both);
    }
  }

  lemma {:induction false} FilterMap<S(!new), T>(s: List<S>, f: S -> T, keepS: S -> bool, keepT: T -> bool)
    requires forall x :: keepS(x) == keepT(f(x))
    ensures Map(Filter(s, keepS), f) == Filter(Map(s, f), keepT)
  {
    if s.Nil? {
    } else {
      FilterMap(s.tail, f, keepS, keepT);
    }
  }

  lemma PairUp<T>(a: multiset<T>, b: multiset<T>, x: multiset<T>, y: multiset<T>)
    ensures (a + x) + (b + y) == (a + b) + (x + y)
  {
  }

  /** One row, if it passes. */
  ghost function Once<T>(x: T, pass: bool): multiset<T> {
    if pass then multiset{x} else multiset{}
  }

  lemma FilterHead<T>(s: List<T>, f: T -> bool)
    requires s.Cons?
    ensures Bag(Filter(s, f)) == Once(s.head, f(s.head)) + Bag(Filter(s.tail, f))
  {
  }

  /** Inclusion and exclusion: counting two tests separately counts the rows that pass both twice. */
  lemma {:induction false} FilterOverlap<T(!new)>(s: List<T>, f: T -> bool, g: T -> bool, either: T -> bool,
                                                  both: T -> bool)
    requires forall x :: either(x) == (f(x) || g(x)) && both(x) == (f(x) && g(x))
    ensures Bag(Filter(s, f)) + Bag(Filter(s, g)) == Bag(Filter(s, either)) + Bag(Filter(s, both))
  {
    if s.Nil? {
    } else {
      var x, rest := s.head, s.tail;
      calc {
        Bag(Filter(s, f)) + Bag(Filter(s, g));
        { FilterHead(s, f); FilterHead(s, g); }
        (Once(x, f(x)) + Bag(Filter(rest, f))) + (Once(x, g(x)) + Bag(Filter(rest, g)));
        { PairUp(Once(x, f(x)), Once(x, g(x)), Bag(Filter(rest, f)), Bag(Filter(rest, g))); }
        (Once(x, f(x)) + Once(x, g(x))) + (Bag(Filter(rest, f)) + Bag(Filter(rest, g)));
        { FilterOverlap(rest, f, g, either, both); }
        (Once(x, either(x)) + Once(x, both(x))) + (Bag(Filter(rest, either)) + Bag(Filter(rest, both)));
        { PairUp(Once(x, either(x)), Once(x, both(x)), Bag(Filter(rest, either)), Bag(Filter(rest, both))); }
        (Once(x, either(x)) + Bag(Filter(rest, either))) + (Once(x, both(x)) + Bag(Filter(rest, both)));
        { FilterHead(s, either); FilterHead(s, both); }
        Bag(Filter(s, either)) + Bag(Filter(s, both));
      }
    }
  }

  /** Two tests that split a third split the bag. */
  lemma FilterSplit<T(!new)>(s: List<T>, f: T -> bool, g: T -> bool, either: T -> bool)
    requires forall x :: !(f(x) && g(x)) && either(x) == (f(x) || g(x))
    ensures Bag(Filter(s, either)) == Bag(Filter(s, f)) + Bag(Filter(s, g))
  {
    var both := x => f(x) && g(x);
    FilterOverlap(s, f, g, either, both);
    FilterNone(s, both);
  }

  // ---- One to many -----------------------------------------------------------------------------------

  lemma {:induction false} FlatMapConcat<S, T>(a: List<S>, b: List<S>, f: S -> List<T>)
    ensures FlatMap(Concat(a, b), f) == Concat(FlatMap(a, f), FlatMap(b, f))
  {
    if a.Nil? {
    } else {
      FlatMapConcat(a.tail, b, f);
      ConcatAssoc(f(a.head), FlatMap(a.tail, f), FlatMap(b, f));
    }
  }

  lemma {:induction false} HasFlatMap<S(!new), T(!new)>(s: List<S>, f: S -> List<T>, y: T)
    ensures Has(FlatMap(s, f), y) <==> exists x :: Has(s, x) && Has(f(x), y)
  {
    if s.Nil? {
    } else {
      HasFlatMap(s.tail, f, y);
      HasConcat(f(s.head), FlatMap(s.tail, f), y);
      if exists x :: Has(s.tail, x) && Has(f(x), y) {
        var x :| Has(s.tail, x) && Has(f(x), y);
        assert Has(s, x);
      }
      assert Has(s, s.head);
    }
  }

  /** A step that decides from the input row alone commutes with filtering. */
  lemma {:induction false} FilterFlatMap<S(!new), T(!new)>(s: List<S>, f: S -> List<T>, keepS: S -> bool,
                                                            keepT: T -> bool)
    requires forall x, y :: Has(f(x), y) ==> keepT(y) == keepS(x)
    ensures Filter(FlatMap(s, f), keepT) == FlatMap(Filter(s, keepS), f)
  {
    if s.Nil? {
    } else {
      FilterFlatMap(s.tail, f, keepS, keepT);
      FilterConcat(f(s.head), FlatMap(s.tail, f), keepT);
      if keepS(s.head) {
        FilterAll(f(s.head), keepT);
      } else {
        FilterNone(f(s.head), keepT);
      }
    }
  }

  /** A list without one occurrence of a row. */
  function Remove<T(==)>(s: List<T>, x: T): List<T> {
    match s
    case Nil => Nil
    case Cons(y, rest) => if y == x then rest else Cons(y, Remove(rest, x))
  }

  lemma {:induction false} RemoveBag<T>(s: List<T>, x: T)
    requires x in Bag(s)
    ensures Bag(s) == multiset{x} + Bag(Remove(s, x))
  {
    if s.head != x {
      RemoveBag(s.tail, x);
    }
  }

  lemma {:induction false} RemoveFlatMap<S, T>(s: List<S>, x: S, f: S -> List<T>)
    requires x in Bag(s)
    ensures Bag(FlatMap(s, f)) == Bag(f(x)) + Bag(FlatMap(Remove(s, x), f))
  {
    BagConcat(f(s.head), FlatMap(s.tail, f));
    if s.head != x {
      RemoveFlatMap(s.tail, x, f);
      BagConcat(f(s.head), FlatMap(Remove(s.tail, x), f));
    }
  }

  lemma SameRest<T>(a: multiset<T>, b: multiset<T>, x: T)
    requires multiset{x} + a == multiset{x} + b
    ensures a == b
  {
    assert a == (multiset{x} + a) - multiset{x};
    assert b == (multiset{x} + b) - multiset{x};
  }

  /** What a one-to-many step returns depends on its input only as a multiset. */
  lemma {:induction false} FlatMapBag<S, T>(a: List<S>, b: List<S>, f: S -> List<T>)
    requires Bag(a) == Bag(b)
    ensures Bag(FlatMap(a, f)) == Bag(FlatMap(b, f))
    decreases a
  {
    if a.Nil? {
      EmptyBag(b);
    } else {
      var x := a.head;
      assert x in Bag(b);
      RemoveBag(b, x);
      SameRest(Bag(a.tail), Bag(Remove(b, x)), x);
      FlatMapBag(a.tail, Remove(b, x), f);
      RemoveFlatMap(b, x, f);
      BagConcat(f(x), FlatMap(a.tail, f));
    }
  }

  lemma FilterBag<T(!new)>(a: List<T>, b: List<T>, keep: T -> bool)
    requires Bag(a) == Bag(b)
    ensures Bag(Filter(a, keep)) == Bag(Filter(b, keep))
  {
    var f := x => if keep(x) then Cons(x, Nil) else Nil;
    FilterIsFlatMap(a, keep, f);
    FilterIsFlatMap(b, keep, f);
    FlatMapBag(a, b, f);
  }

  lemma {:induction false} FilterIsFlatMap<T(!new)>(a: List<T>, keep: T -> bool, f: T -> List<T>)
    requires forall x :: f(x) == if keep(x) then Cons(x, Nil) else Nil
    ensures Filter(a, keep) == FlatMap(a, f)
  {
    if a.Nil? {
    } else {
      FilterIsFlatMap(a.tail, keep, f);
      assert Concat(Cons(a.head, Nil), FlatMap(a.tail, f)) == Cons(a.head, FlatMap(a.tail, f));
    }
  }
}
