/**
 * Grouping sale lines by invoice, as both client screens do it: the lines of one key in their
 * input order, the keys in order of first occurrence, and the fact that the groups partition
 * the lines, so that group sums add up to the sum over all lines.
 */
module Agrupacion {
  import opened Seqs

  /** The lines whose key is `c`, in input order. */
  function Grupo<T(!new), K(==)>(ds: seq<T>, clave: T -> K, c: K): (r: seq<T>)
    ensures IsSublist(r, ds)
    ensures forall d :: d in r <==> d in ds && clave(d) == c
  {
    Filter(ds, d => clave(d) == c)
  }

  /** The distinct keys, in order of first occurrence (`Map` insertion order). */
  function ClavesEnOrden<T, K(==,!new)>(ds: seq<T>, clave: T -> K): (r: seq<K>)
    ensures forall i, j :: 0 <= i < j < |r| ==> r[i] != r[j]
    ensures forall c :: c in r <==> exists d :: d in ds && clave(d) == c
  {
    var ks := Map(ds, clave);
    assert forall c :: c in ks <==> exists d :: d in ds && clave(d) == c by {
      forall c | c in ks
        ensures exists d :: d in ds && clave(d) == c
      {
        var i :| 0 <= i < |ks| && ks[i] == c;
        assert ds[i] in ds;
      }
      forall d | d in ds
        ensures clave(d) in ks
      {
        var i :| 0 <= i < |ds| && ds[i] == d;
        assert ks[i] == clave(d);
      }
    }
    Dedup(ks, {})
  }

  /** Appending a line extends its own group and no other. */
  lemma GrupoSnoc<T(!new), K>(ds: seq<T>, d: T, clave: T -> K, c: K)
    ensures Grupo(ds + [d], clave, c) == Grupo(ds, clave, c) + (if clave(d) == c then [d] else [])
  {
    FilterAppend(ds, [d], x => clave(x) == c);
  }

  /** Appending a line with a new key opens its group after all existing ones. */
  lemma ClavesSnoc<T, K(!new)>(ds: seq<T>, d: T, clave: T -> K)
    ensures ClavesEnOrden(ds + [d], clave) ==
      if clave(d) in ClavesEnOrden(ds, clave) then ClavesEnOrden(ds, clave) else ClavesEnOrden(ds, clave) + [clave(d)]
  {
    assert Map(ds + [d], clave) == Map(ds, clave) + [clave(d)];
    DedupSnoc(Map(ds, clave), clave(d), {});
  }

  /** Summing the one element of a duplicate-free list that equals `c` picks out `v`. */
  lemma {:induction false} SumaIndicador<K>(ks: seq<K>, c: K, v: int, g: K -> int)
    requires forall i, j :: 0 <= i < j < |ks| ==> ks[i] != ks[j]
    requires c in ks
    requires forall k :: k in ks ==> g(k) == (if k == c then v else 0)
    ensures Sum(ks, g) == v
  {
    if ks[0] == c {
      assert c !in ks[1..];
      SumCero(ks[1..], g);
    } else {
      SumaIndicador(ks[1..], c, v, g);
    }
  }

  lemma {:induction false} SumCero<K>(ks: seq<K>, g: K -> int)
    requires forall k :: k in ks ==> g(k) == 0
    ensures Sum(ks, g) == 0
  {
    if ks != [] {
      SumCero(ks[1..], g);
    }
  }

  /** The first line counts towards its own group's sum and no other. */
  lemma SumaGrupoCabeza<T(!new), K>(ds: seq<T>, clave: T -> K, c: K, f: T -> int)
    requires ds != []
    ensures Sum(Grupo(ds, clave, c), f) ==
      (if c == clave(ds[0]) then f(ds[0]) else 0) + Sum(Grupo(ds[1..], clave, c), f)
  {
    assert ds == [ds[0]] + ds[1..];
    FilterAppend([ds[0]], ds[1..], x => clave(x) == c);
    SumAppend(Filter([ds[0]], x => clave(x) == c), Grupo(ds[1..], clave, c), f);
  }

  /**
   * The groups partition the lines: over any duplicate-free list of keys that covers every line,
   * the group sums add up to the sum over all lines.
   */
  lemma {:induction false} SumaPorGrupos<T(!new), K>(ds: seq<T>, clave: T -> K, ks: seq<K>, f: T -> int)
    requires forall i, j :: 0 <= i < j < |ks| ==> ks[i] != ks[j]
    requires forall d :: d in ds ==> clave(d) in ks
    ensures Sum(ks, c => Sum(Grupo(ds, clave, c), f)) == Sum(ds, f)
  {
    if ds == [] {
      SumCero(ks, c => Sum(Grupo(ds, clave, c), f));
    } else {
      var d, r := ds[0], ds[1..];
      assert forall x :: x in r ==> x in ds;
      SumaPorGrupos(r, clave, ks, f);
      var uno := c => if c == clave(d) then f(d) else 0;
      forall c | c in ks
        ensures Sum(Grupo(ds, clave, c), f) == uno(c) + Sum(Grupo(r, clave, c), f)
      {
        SumaGrupoCabeza(ds, clave, c, f);
      }
      SumAdd(ks, uno, c => Sum(Grupo(r, clave, c), f), c => Sum(Grupo(ds, clave, c), f));
      SumaIndicador(ks, clave(d), f(d), uno);
    }
  }
}
