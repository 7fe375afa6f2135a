/**
 * The list combinators the screens use (`Array.prototype.filter`, `reduce`, `find`, `.length`)
 * with their meaning stated once, so each screen can state its own result in terms of them.
 */
module Seqs {
  import opened Wrappers

  /** `a` is an order-preserving sub-list of `b`: `a` can be obtained from `b` by deleting elements. */
  ghost predicate IsSublist<T>(a: seq<T>, b: seq<T>)
    decreases |b|
  {
    if a == [] then true
    else if b == [] then false
    else (a[0] == b[0] && IsSublist(a[1..], b[1..])) || IsSublist(a, b[1..])
  }

  /** `s.filter(p)`: the elements satisfying `p`, in their original order. */
  function Filter<T(!new)>(s: seq<T>, p: T -> bool): (r: seq<T>)
    ensures |r| <= |s|
    ensures forall x :: x in r <==> x in s && p(x)
    ensures IsSublist(r, s)
  {
    if s == [] then []
    else if p(s[0]) then [s[0]] + Filter(s[1..], p)
    else Filter(s[1..], p)
  }

  /** `s.filter(p).length`. */
  function Count<T(!new)>(s: seq<T>, p: T -> bool): (n: nat)
    ensures n <= |s|
  {
    |Filter(s, p)|
  }

  /** `s.reduce((acc, x) => acc + f(x), 0)`. */
  function Sum<T>(s: seq<T>, f: T -> int): int
  {
    if s == [] then 0 else f(s[0]) + Sum(s[1..], f)
  }

  /** `s.find(p)`: the first element satisfying `p`, if any. */
  function Find<T>(s: seq<T>, p: T -> bool): (r: Option<T>)
    ensures r.Some? <==> exists x :: x in s && p(x)
    ensures r.Some? ==> r.value in s && p(r.value)
    ensures r.Some? ==> exists i :: 0 <= i < |s| && s[i] == r.value && forall j :: 0 <= j < i ==> !p(s[j])
  {
    if s == [] then None
    else if p(s[0]) then Some(s[0])
    else
      var r := Find(s[1..], p);
      if r.Some? then
        ghost var i :| 0 <= i < |s[1..]| && s[1..][i] == r.value && forall j :: 0 <= j < i ==> !p(s[1..][j]);
        assert s[i + 1] == r.value && forall j :: 0 <= j < i + 1 ==> !p(s[j]);
        r
      else r
  }

  lemma {:induction false} FilterAppend<T(!new)>(a: seq<T>, b: seq<T>, p: T -> bool)
    ensures Filter(a + b, p) == Filter(a, p) + Filter(b, p)
  {
    if a == [] {
      assert a + b == b;
    } else {
      assert (a + b)[1..] == a[1..] + b;
      FilterAppend(a[1..], b, p);
    }
  }

  /** A sum of non-negative terms is non-negative. */
  lemma {:induction false} SumNoNegativa<T>(s: seq<T>, f: T -> int)
    ensures (forall x :: x in s ==> f(x) >= 0) ==> Sum(s, f) >= 0
  {
    if s != [] && forall x :: x in s ==> f(x) >= 0 {
      assert s[0] in s;
      assert forall x :: x in s[1..] ==> x in s;
      SumNoNegativa(s[1..], f);
    }
  }

  lemma {:induction false} SumAppend<T>(a: seq<T>, b: seq<T>, f: T -> int)
    ensures Sum(a + b, f) == Sum(a, f) + Sum(b, f)
  {
    if a == [] {
      assert a + b == b;
    } else {
      assert (a + b)[1..] == a[1..] + b;
      SumAppend(a[1..], b, f);
    }
  }

  /** Sum over the last element: the form a left-to-right `reduce` uses. */
  lemma SumSnoc<T>(a: seq<T>, x: T, f: T -> int)
    ensures Sum(a + [x], f) == Sum(a, f) + f(x)
  {
    SumAppend(a, [x], f);
  }

  /** Replacing one element changes the sum by the difference of the two values. */
  lemma {:induction false} SumUpdate<T>(s: seq<T>, i: nat, x: T, f: T -> int)
    requires i < |s|
    ensures Sum(s[i := x], f) == Sum(s, f) - f(s[i]) + f(x)
  {
    if i == 0 {
      assert s[i := x][1..] == s[1..];
    } else {
      assert s[i := x][1..] == s[1..][i - 1 := x];
      SumUpdate(s[1..], i - 1, x, f);
    }
  }

  /** Removing one element lowers the sum by its value. */
  lemma {:induction false} SumRemove<T>(s: seq<T>, i: nat, f: T -> int)
    requires i < |s|
    ensures Sum(s[..i] + s[i + 1..], f) == Sum(s, f) - f(s[i])
  {
    var pre, post := s[..i], s[i + 1..];
    assert s == pre + ([s[i]] + post);
    SumAppend(pre, [s[i]] + post, f);
    assert ([s[i]] + post)[1..] == post;
    SumAppend(pre, post, f);
  }

  /** Two predicates that agree on every element select the same elements. */
  lemma {:induction false} FilterCongruent<T(!new)>(s: seq<T>, p: T -> bool, q: T -> bool)
    requires forall x :: x in s ==> p(x) == q(x)
    ensures Filter(s, p) == Filter(s, q)
  {
    if s != [] {
      FilterCongruent(s[1..], p, q);
    }
  }

  /** When every element satisfies exactly one of three predicates, the three counts add up to the length. */
  lemma {:induction false} CountPartition3<T(!new)>(s: seq<T>, a: T -> bool, b: T -> bool, c: T -> bool)
    requires forall x :: x in s ==> (a(x) || b(x) || c(x))
    requires forall x :: x in s ==> !(a(x) && b(x)) && !(a(x) && c(x)) && !(b(x) && c(x))
    ensures Count(s, a) + Count(s, b) + Count(s, c) == |s|
  {
    if s != [] {
      CountPartition3(s[1..], a, b, c);
    }
  }

  /** When every element satisfies exactly one of two predicates, the two counts add up to the length. */
  lemma {:induction false} CountPartition2<T(!new)>(s: seq<T>, a: T -> bool, b: T -> bool)
    requires forall x :: x in s ==> (a(x) || b(x)) && !(a(x) && b(x))
    ensures Count(s, a) + Count(s, b) == |s|
  {
    if s != [] {
      CountPartition2(s[1..], a, b);
    }
  }

  /** A predicate that holds exactly when one of two exclusive ones does counts their sum. */
  lemma {:induction false} CountDisjointUnion<T(!new)>(s: seq<T>, a: T -> bool, b: T -> bool, c: T -> bool)
    requires forall x :: x in s ==> c(x) == (a(x) || b(x)) && !(a(x) && b(x))
    ensures Count(s, c) == Count(s, a) + Count(s, b)
  {
    if s != [] {
      CountDisjointUnion(s[1..], a, b, c);
    }
  }

  /** Counting distinct values: the values of `f` over `s`, as a set (`new Set(s.map(f)).size`). */
  function Image<T, U(!new)>(s: seq<T>, f: T -> U): (r: set<U>)
    ensures forall y :: y in r <==> exists x :: x in s && f(x) == y
  {
    if s == [] then {} else {f(s[0])} + Image(s[1..], f)
  }

  /** A non-empty list has at least one value. */
  lemma ImageNoVacia<T, U(!new)>(s: seq<T>, f: T -> U)
    requires s != []
    ensures |Image(s, f)| > 0
  {
    assert f(s[0]) in Image(s, f);
  }

  /** A set built from a list never has more elements than the list. */
  lemma {:induction false} ImageBound<T, U(!new)>(s: seq<T>, f: T -> U)
    ensures |Image(s, f)| <= |s|
  {
    if s != [] {
      ImageBound(s[1..], f);
    }
  }

  /** A predicate every element satisfies keeps the whole list. */
  lemma {:induction false} FilterTodos<T(!new)>(s: seq<T>, p: T -> bool)
    requires forall x :: x in s ==> p(x)
    ensures Filter(s, p) == s
  {
    if s != [] {
      FilterTodos(s[1..], p);
    }
  }

  /** A predicate no element satisfies keeps nothing. */
  lemma {:induction false} FilterNinguno<T(!new)>(s: seq<T>, p: T -> bool)
    requires forall x :: x in s ==> !p(x)
    ensures Filter(s, p) == []
  {
    if s != [] {
      FilterNinguno(s[1..], p);
    }
  }

  /** `[...new Set(s)]`: the distinct elements of `s` not in `visto`, in order of first occurrence. */
  function Dedup<T(==,!new)>(s: seq<T>, visto: set<T>): (r: seq<T>)
    ensures forall i, j :: 0 <= i < j < |r| ==> r[i] != r[j]
    ensures forall x :: x in r <==> x in s && x !in visto
  {
    if s == [] then []
    else if s[0] in visto then Dedup(s[1..], visto)
    else
      var rest := Dedup(s[1..], visto + {s[0]});
      assert s[0] !in rest;
      [s[0]] + rest
  }

  /** Every list is a sub-list of itself. */
  lemma {:induction false} SublistaPropia<T>(s: seq<T>)
    ensures IsSublist(s, s)
  {
    if s != [] {
      SublistaPropia(s[1..]);
    }
  }

  /** `s.map(f)`. */
  function Map<T, U>(s: seq<T>, f: T -> U): (r: seq<U>)
    ensures |r| == |s| && forall i :: 0 <= i < |s| ==> r[i] == f(s[i])
  {
    if s == [] then [] else [f(s[0])] + Map(s[1..], f)
  }

  /** A value not seen before goes to the end of the distinct list; a seen one leaves it alone. */
  lemma {:induction false} DedupSnoc<T(!new)>(s: seq<T>, x: T, visto: set<T>)
    ensures Dedup(s + [x], visto) == if x in s || x in visto then Dedup(s, visto) else Dedup(s, visto) + [x]
    decreases |s|
  {
    if s == [] {
      assert [] + [x] == [x];
    } else {
      assert (s + [x])[1..] == s[1..] + [x];
      if s[0] in visto {
        DedupSnoc(s[1..], x, visto);
      } else {
        DedupSnoc(s[1..], x, visto + {s[0]});
      }
    }
  }

  /** Two functions that add up pointwise add up in the sum. */
  lemma {:induction false} SumAdd<T>(s: seq<T>, f: T -> int, g: T -> int, h: T -> int)
    requires forall x :: x in s ==> h(x) == f(x) + g(x)
    ensures Sum(s, h) == Sum(s, f) + Sum(s, g)
  {
    if s != [] {
      SumAdd(s[1..], f, g, h);
    }
  }

  /** Functions that agree on every element have the same sum. */
  lemma {:induction false} SumCongruent<T>(s: seq<T>, f: T -> int, g: T -> int)
    requires forall x :: x in s ==> f(x) == g(x)
    ensures Sum(s, f) == Sum(s, g)
  {
    if s != [] {
      SumCongruent(s[1..], f, g);
    }
  }

  /** Summing over a mapped list is summing the composed function. */
  lemma {:induction false} SumMap<T, U>(s: seq<T>, g: T -> U, f: U -> int)
    ensures Sum(Map(s, g), f) == Sum(s, x => f(g(x)))
  {
    if s != [] {
      assert Map(s, g)[1..] == Map(s[1..], g);
      SumMap(s[1..], g, f);
    }
  }
}
