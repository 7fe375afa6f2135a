/**
 * `Array.prototype.sort` with a comparator, read as a stable insertion sort over a total
 * preorder `le` ("may come before"): the result is ordered, a permutation of the input, and
 * keeps sums over the elements.
 */
module Orden {
  import opened Seqs

  ghost predicate Total<T(!new)>(le: (T, T) -> bool)
  {
    forall a, b :: le(a, b) || le(b, a)
  }

  ghost predicate Transitiva<T(!new)>(le: (T, T) -> bool)
  {
    forall a, b, c :: le(a, b) && le(b, c) ==> le(a, c)
  }

  ghost predicate Ordenada<T>(s: seq<T>, le: (T, T) -> bool)
  {
    forall i, j :: 0 <= i < j < |s| ==> le(s[i], s[j])
  }

  /** No value occurs twice. */
  ghost predicate SinRepetidos<T>(s: seq<T>)
  {
    forall i, j :: 0 <= i < j < |s| ==> s[i] != s[j]
  }

  /** Put `x` in front of the first element it may precede; everything before that stays in front of it. */
  function Insertar<T>(x: T, s: seq<T>, le: (T, T) -> bool): (r: seq<T>)
    ensures multiset(r) == multiset(s) + multiset{x}
  {
    if s == [] || le(x, s[0]) then [x] + s
    else
      assert s == [s[0]] + s[1..];
      [s[0]] + Insertar(x, s[1..], le)
  }

  /** The sort: each element, from the last to the first, inserted into the sorted rest. */
  function Ordenar<T>(s: seq<T>, le: (T, T) -> bool): (r: seq<T>)
    ensures multiset(r) == multiset(s)
  {
    if s == [] then []
    else
      assert s == [s[0]] + s[1..];
      Insertar(s[0], Ordenar(s[1..], le), le)
  }

  lemma {:induction false} InsertarOrdenada<T(!new)>(x: T, s: seq<T>, le: (T, T) -> bool)
    requires Total(le) && Transitiva(le)
    requires Ordenada(s, le)
    ensures Ordenada(Insertar(x, s, le), le)
  {
    if s != [] && !le(x, s[0]) {
      var resto := Insertar(x, s[1..], le);
      assert Ordenada(s[1..], le);
      InsertarOrdenada(x, s[1..], le);
      assert le(s[0], x);
      forall y | y in resto
        ensures le(s[0], y)
      {
        assert y in multiset(resto);
        if y != x {
          assert y in multiset(s[1..]);
          assert y in s[1..];
        }
      }
    }
  }

  /** The sorted list is ordered by `le`. */
  lemma {:induction false} OrdenarOrdenada<T(!new)>(s: seq<T>, le: (T, T) -> bool)
    requires Total(le) && Transitiva(le)
    ensures Ordenada(Ordenar(s, le), le)
  {
    if s != [] {
      OrdenarOrdenada(s[1..], le);
      InsertarOrdenada(s[0], Ordenar(s[1..], le), le);
    }
  }

  /** Inserting a new value into a list without repeats gives a list without repeats. */
  lemma {:induction false} InsertarSinRepetidos<T>(x: T, s: seq<T>, le: (T, T) -> bool)
    requires SinRepetidos(s) && x !in s
    ensures SinRepetidos(Insertar(x, s, le))
  {
    if s != [] && !le(x, s[0]) {
      var resto := Insertar(x, s[1..], le);
      InsertarSinRepetidos(x, s[1..], le);
      assert s[0] !in s[1..];
      assert s[0] !in multiset(resto);
    }
  }

  /** Sorting a list without repeats gives a list without repeats. */
  lemma {:induction false} OrdenarSinRepetidos<T>(s: seq<T>, le: (T, T) -> bool)
    requires SinRepetidos(s)
    ensures SinRepetidos(Ordenar(s, le))
  {
    if s != [] {
      OrdenarSinRepetidos(s[1..], le);
      assert s[0] !in s[1..];
      assert s[0] !in multiset(Ordenar(s[1..], le));
      InsertarSinRepetidos(s[0], Ordenar(s[1..], le), le);
    }
  }

  lemma {:induction false} SumInsertar<T>(x: T, s: seq<T>, le: (T, T) -> bool, f: T -> int)
    ensures Sum(Insertar(x, s, le), f) == f(x) + Sum(s, f)
  {
    if s != [] && !le(x, s[0]) {
      SumInsertar(x, s[1..], le, f);
    }
  }

  /** Sorting does not change a sum over the elements. */
  lemma {:induction false} SumOrdenar<T>(s: seq<T>, le: (T, T) -> bool, f: T -> int)
    ensures Sum(Ordenar(s, le), f) == Sum(s, f)
  {
    if s != [] {
      SumOrdenar(s[1..], le, f);
      SumInsertar(s[0], Ordenar(s[1..], le), le, f);
    }
  }

  /** Filtering a list without repeats gives a list without repeats. */
  lemma {:induction false} FilterSinRepetidos<T(!new)>(s: seq<T>, p: T -> bool)
    requires SinRepetidos(s)
    ensures SinRepetidos(Filter(s, p))
  {
    if s != [] {
      FilterSinRepetidos(s[1..], p);
      assert s[0] !in s[1..];
    }
  }

  /** A list without repeats has as many elements as the set of its values. */
  lemma {:induction false} CardinalSinRepetidos<T>(s: seq<T>, c: set<T>)
    requires SinRepetidos(s)
    requires forall x :: x in s <==> x in c
    ensures |s| == |c|
  {
    if s != [] {
      assert s[0] !in s[1..];
      CardinalSinRepetidos(s[1..], c - {s[0]});
    } else {
      assert c == {};
    }
  }

  /** Two lists without repeats and without a common value concatenate to one without repeats. */
  lemma ConcatSinRepetidos<T>(a: seq<T>, b: seq<T>)
    requires SinRepetidos(a) && SinRepetidos(b)
    requires forall x :: x in a ==> x !in b
    ensures SinRepetidos(a + b)
  {
    forall i, j | 0 <= i < j < |a + b|
      ensures (a + b)[i] != (a + b)[j]
    {
      if i < |a| && j >= |a| {
        assert (a + b)[i] in a;
        assert (a + b)[j] == b[j - |a|];
      }
    }
  }
}
