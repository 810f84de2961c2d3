/**
 * Small shared vocabulary: optional values, results that may carry an error,
 * the outcome of a call that may raise, and Python's `list.remove`.
 */
module Base {

  datatype Option<T> = None | Some(value: T)

  datatype Result<T, E> = Success(value: T) | Failure(error: E)

  /** How a Python call that returns nothing ends: normally, or by raising `excepcion`. */
  datatype Salida<E> = Normal | Lanza(excepcion: E)

  /** `s.remove(x)`: the first element equal to `x` is taken out, the rest keep their order. */
  function Quitar<T(==)>(s: seq<T>, x: T): (r: seq<T>)
    requires x in s
    ensures |r| == |s| - 1
  {
    if s[0] == x then s[1..] else [s[0]] + Quitar(s[1..], x)
  }

  /** Taking out the first `x` is cutting the sequence at the first index that holds `x`. */
  lemma {:induction false} QuitarEnIndice<T>(s: seq<T>, x: T, k: nat)
    requires k < |s| && s[k] == x
    requires forall i :: 0 <= i < k ==> s[i] != x
    ensures Quitar(s, x) == s[..k] + s[k + 1..]
  {
    if k > 0 {
      QuitarEnIndice(s[1..], x, k - 1);
      assert s[1..][..k - 1] + s[1..][k..] == s[1..k] + s[k + 1..];
      assert s[..k] == [s[0]] + s[1..k];
    }
  }

  /** `remove` takes out one copy of `x` and keeps every other element. */
  lemma {:induction false} QuitarMismosElementos<T>(s: seq<T>, x: T)
    requires x in s
    ensures multiset(Quitar(s, x)) + multiset{x} == multiset(s)
  {
    assert s == [s[0]] + s[1..];
    if s[0] != x {
      QuitarMismosElementos(s[1..], x);
    }
  }

  /** Cutting an element out and putting it back at the end keeps the same elements. */
  lemma AlFinalMismosElementos<T>(s: seq<T>, k: nat)
    requires k < |s|
    ensures multiset(s[..k] + s[k + 1..] + [s[k]]) == multiset(s)
  {
    assert s == s[..k] + [s[k]] + s[k + 1..];
  }

  /** Positions `i` and `j` of `ps` hold different elements. */
  predicate Separados<T(==)>(ps: seq<T>, i: int, j: int) {
    0 <= i < |ps| && 0 <= j < |ps| && ps[i] != ps[j]
  }

  /** No element appears twice. */
  predicate Distintos<T(==)>(ps: seq<T>) {
    forall i, j {:trigger Separados(ps, i, j)} :: 0 <= i < j < |ps| ==> Separados(ps, i, j)
  }

  /** Two different positions of a list without repeats hold different elements. */
  lemma EnPosicionesDistintas<T>(ps: seq<T>, i: int, j: int)
    requires Distintos(ps) && 0 <= i < |ps| && 0 <= j < |ps| && i != j
    ensures ps[i] != ps[j]
  {
    if i < j {
      assert Separados(ps, i, j);
    } else {
      assert Separados(ps, j, i);
    }
  }

  /** Appending an element not in the list keeps it free of repeats. */
  lemma DistintosAlAnexar<T>(ps: seq<T>, p: T)
    requires Distintos(ps) && p !in ps
    ensures Distintos(ps + [p])
  {
    var qs := ps + [p];
    forall i, j | 0 <= i < j < |qs|
      ensures Separados(qs, i, j)
    {
      assert qs[i] == ps[i];
      if j < |ps| {
        assert Separados(ps, i, j);
      }
    }
  }

  /** Cutting position `k` out keeps the elements distinct. */
  lemma DistintosAlQuitar<T>(ps: seq<T>, k: nat)
    requires Distintos(ps) && k < |ps|
    ensures Distintos(ps[..k] + ps[k + 1..])
  {
    var cut := ps[..k] + ps[k + 1..];
    forall i, j | 0 <= i < j < |cut|
      ensures Separados(cut, i, j)
    {
      EnPosicionesDistintas(ps, if i < k then i else i + 1, if j < k then j else j + 1);
    }
  }
}
