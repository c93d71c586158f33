/** `Array.prototype.filter` and the order-preserving-subsequence relation it establishes. */
module Listas {

  /** `s.filter(keep)`: keeps exactly the elements satisfying `keep`, each with all its
      occurrences, and drops every other. */
  function Filtrar<T(==, !new)>(s: seq<T>, keep: T -> bool): (r: seq<T>)
    ensures |r| <= |s|
    ensures forall x :: multiset(r)[x] == if keep(x) then multiset(s)[x] else 0
    ensures forall x :: x in r ==> keep(x)
  {
    if s == [] then []
    else
      assert s == [s[0]] + s[1..];
      if keep(s[0]) then [s[0]] + Filtrar(s[1..], keep) else Filtrar(s[1..], keep)
  }

  /** `a` is obtained from `b` by deleting elements, keeping the order of the rest. */
  predicate EsSubsecuencia<T(==)>(a: seq<T>, b: seq<T>)
    decreases |b|
  {
    if a == [] then true
    else if b == [] then false
    else if a[0] == b[0] then EsSubsecuencia(a[1..], b[1..])
    else EsSubsecuencia(a, b[1..])
  }

  /** The filtered list is an order-preserving subsequence of the list it came from. */
  lemma {:induction false} FiltrarEsSubsecuencia<T(!new)>(s: seq<T>, keep: T -> bool)
    ensures EsSubsecuencia(Filtrar(s, keep), s)
    decreases |s|
  {
    if s != [] {
      FiltrarEsSubsecuencia(s[1..], keep);
      var r := Filtrar(s, keep);
      if keep(s[0]) {
        assert r[0] == s[0] && r[1..] == Filtrar(s[1..], keep);
      } else {
        SubsecuenciaSaltaCabeza(r, s);
      }
    }
  }

  /** Deleting the head of `b` is one more deletion. */
  lemma {:induction false} SubsecuenciaSaltaCabeza<T>(a: seq<T>, b: seq<T>)
    requires b != [] && EsSubsecuencia(a, b[1..])
    ensures EsSubsecuencia(a, b)
    decreases |b|, 0
  {
    if a != [] && a[0] == b[0] {
      SubsecuenciaCola(a, b[1..]);
    }
  }

  /** Dropping the head of a subsequence keeps it a subsequence. */
  lemma {:induction false} SubsecuenciaCola<T>(a: seq<T>, b: seq<T>)
    requires a != [] && EsSubsecuencia(a, b)
    ensures EsSubsecuencia(a[1..], b)
    decreases |b|, 1
  {
    if a[0] == b[0] {
      SubsecuenciaSaltaCabeza(a[1..], b);
    } else {
      SubsecuenciaCola(a, b[1..]);
      SubsecuenciaSaltaCabeza(a[1..], b);
    }
  }

  /** When every element passes, filtering changes nothing. */
  lemma {:induction false} FiltrarTodos<T(!new)>(s: seq<T>, keep: T -> bool)
    requires forall k :: 0 <= k < |s| ==> keep(s[k])
    ensures Filtrar(s, keep) == s
    decreases |s|
  {
    if s != [] {
      FiltrarTodos(s[1..], keep);
      assert s == [s[0]] + s[1..];
    }
  }

  /** Every sequence is a subsequence of itself. */
  lemma {:induction false} SubsecuenciaReflexiva<T>(s: seq<T>)
    ensures EsSubsecuencia(s, s)
    decreases |s|
  {
    if s != [] {
      SubsecuenciaReflexiva(s[1..]);
    }
  }

  /** Filtering with a stricter test keeps a subsequence of what the looser test keeps. */
  lemma {:induction false} FiltrarMasEstricto<T(!new)>(s: seq<T>, p: T -> bool, q: T -> bool)
    requires forall x :: p(x) ==> q(x)
    ensures EsSubsecuencia(Filtrar(s, p), Filtrar(s, q))
    decreases |s|
  {
    if s != [] {
      FiltrarMasEstricto(s[1..], p, q);
      var a := Filtrar(s, p);
      var b := Filtrar(s, q);
      if p(s[0]) {
        assert a[0] == b[0] && a[1..] == Filtrar(s[1..], p) && b[1..] == Filtrar(s[1..], q);
      } else if q(s[0]) {
        assert a == Filtrar(s[1..], p) && b[1..] == Filtrar(s[1..], q);
        SubsecuenciaSaltaCabeza(a, b);
      }
    }
  }
}
