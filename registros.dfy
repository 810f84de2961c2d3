/**
 * The value held by one inventory record (identifier, name, quantity, price)
 * and the list operations both inventories perform on their records: the
 * first record with a given id, the case-insensitive name filter and the
 * uniqueness of ids. The inventories keep Producto objects; each object's
 * fields read together are one Registro.
 */
module Registros {
  import opened Base
  import opened Texto

  /** The four fields of a product; `precio` is a Python float, modelled as a real. */
  datatype Registro = Registro(id: int, nombre: string, cantidad: int, precio: real)

  /** Index of the first record whose id is `productoId`, or None when no record has it. */
  function IndiceDeId(rs: seq<Registro>, productoId: int): (r: Option<nat>)
    ensures r.None? <==> forall i :: 0 <= i < |rs| ==> rs[i].id != productoId
    ensures r.Some? ==> r.value < |rs| && rs[r.value].id == productoId
    ensures r.Some? ==> forall i :: 0 <= i < r.value ==> rs[i].id != productoId
  {
    if rs == [] then None
    else if rs[0].id == productoId then Some(0)
    else match IndiceDeId(rs[1..], productoId)
      case None => None
      case Some(k) => Some(k + 1)
  }

  /** Positions `i` and `j` of `rs` hold records with different ids. */
  predicate IdsDistintos(rs: seq<Registro>, i: int, j: int) {
    0 <= i < |rs| && 0 <= j < |rs| && rs[i].id != rs[j].id
  }

  /** No two records share an id. */
  ghost predicate IdsUnicos(rs: seq<Registro>) {
    forall i, j {:trigger IdsDistintos(rs, i, j)} :: 0 <= i < j < |rs| ==> IdsDistintos(rs, i, j)
  }

  /** With unique ids, two different positions hold different ids. */
  lemma IdsEnPosiciones(rs: seq<Registro>, i: int, j: int)
    requires IdsUnicos(rs) && 0 <= i < |rs| && 0 <= j < |rs| && i != j
    ensures rs[i].id != rs[j].id
  {
    if i < j {
      assert IdsDistintos(rs, i, j);
    } else {
      assert IdsDistintos(rs, j, i);
    }
  }

  /** With unique ids, the record found by id is the only one holding that id. */
  lemma UnicoConEseId(rs: seq<Registro>, productoId: int)
    requires IdsUnicos(rs) && IndiceDeId(rs, productoId).Some?
    ensures forall i :: 0 <= i < |rs| && rs[i].id == productoId ==> i == IndiceDeId(rs, productoId).value
  {
    var k := IndiceDeId(rs, productoId).value;
    forall i | 0 <= i < |rs| && i != k
      ensures rs[i].id != productoId
    {
      IdsEnPosiciones(rs, i, k);
    }
  }

  /** Appending a record whose id is not present keeps ids unique. */
  lemma UnicosAlAgregar(rs: seq<Registro>, r: Registro)
    requires IdsUnicos(rs) && IndiceDeId(rs, r.id).None?
    ensures IdsUnicos(rs + [r])
  {
    var qs := rs + [r];
    forall i, j | 0 <= i < j < |qs|
      ensures IdsDistintos(qs, i, j)
    {
      assert qs[i] == rs[i];
      if j < |rs| {
        assert IdsDistintos(rs, i, j);
      }
    }
  }

  /** Cutting out one record keeps ids unique, and so does putting it back at the end. */
  lemma UnicosAlQuitar(rs: seq<Registro>, k: nat)
    requires IdsUnicos(rs) && k < |rs|
    ensures IdsUnicos(rs[..k] + rs[k + 1..])
    ensures IdsUnicos(rs[..k] + rs[k + 1..] + [rs[k]])
  {
    var cut := rs[..k] + rs[k + 1..];
    var back := cut + [rs[k]];
    forall i, j | 0 <= i < j < |back|
      ensures IdsDistintos(back, i, j) && (j < |cut| ==> IdsDistintos(cut, i, j))
    {
      var i2 := if i < k then i else if i < |rs| - 1 then i + 1 else k;
      var j2 := if j < k then j else if j < |rs| - 1 then j + 1 else k;
      assert back[i] == rs[i2] && back[j] == rs[j2];
      IdsEnPosiciones(rs, i2, j2);
    }
  }

  /** After cutting out the only record with an id, no record has that id anymore. */
  lemma SinIdTrasQuitar(rs: seq<Registro>, productoId: int)
    requires IdsUnicos(rs) && IndiceDeId(rs, productoId).Some?
    ensures var k := IndiceDeId(rs, productoId).value;
      IndiceDeId(rs[..k] + rs[k + 1..], productoId).None?
  {
    var k := IndiceDeId(rs, productoId).value;
    var cut := rs[..k] + rs[k + 1..];
    forall i | 0 <= i < |cut|
      ensures cut[i].id != productoId
    {
      if i >= k {
        assert cut[i] == rs[i + 1];
        IdsEnPosiciones(rs, k, i + 1);
      }
    }
  }

  /** The record after an update: each field given as Some is replaced, id and nombre never are. */
  function Actualizado(r: Registro, nuevaCantidad: Option<int>, nuevoPrecio: Option<real>): (s: Registro)
    ensures s.id == r.id && s.nombre == r.nombre
    ensures s.cantidad == (if nuevaCantidad.Some? then nuevaCantidad.value else r.cantidad)
    ensures s.precio == (if nuevoPrecio.Some? then nuevoPrecio.value else r.precio)
  {
    var conCantidad := if nuevaCantidad.Some? then r.(cantidad := nuevaCantidad.value) else r;
    if nuevoPrecio.Some? then conCantidad.(precio := nuevoPrecio.value) else conCantidad
  }

  /** Updating one record in place never changes any id, so uniqueness survives. */
  lemma UnicosAlActualizar(rs: seq<Registro>, k: nat, nuevaCantidad: Option<int>, nuevoPrecio: Option<real>)
    requires IdsUnicos(rs) && k < |rs|
    ensures IdsUnicos(rs[k := Actualizado(rs[k], nuevaCantidad, nuevoPrecio)])
  {
    var qs := rs[k := Actualizado(rs[k], nuevaCantidad, nuevoPrecio)];
    forall i, j | 0 <= i < j < |qs|
      ensures IdsDistintos(qs, i, j)
    {
      assert IdsDistintos(rs, i, j);
    }
  }

  /** The records whose name matches the query, in list order (the search of both inventories). */
  function Filtrar(rs: seq<Registro>, consulta: string): (r: seq<Registro>)
    ensures forall x :: x in r ==> x in rs && NombreCoincide(x.nombre, consulta)
  {
    if rs == [] then []
    else
      var ultimo := rs[|rs| - 1];
      Filtrar(rs[..|rs| - 1], consulta) + (if NombreCoincide(ultimo.nombre, consulta) then [ultimo] else [])
  }

  /** Filtering a concatenation filters each part and keeps their order. */
  lemma {:induction false} FiltrarConcatenacion(a: seq<Registro>, b: seq<Registro>, consulta: string)
    ensures Filtrar(a + b, consulta) == Filtrar(a, consulta) + Filtrar(b, consulta)
    decreases |b|
  {
    if b == [] {
      assert a + b == a;
    } else {
      var n := |b| - 1;
      assert (a + b)[..|a + b| - 1] == a + b[..n];
      FiltrarConcatenacion(a, b[..n], consulta);
    }
  }

  /** A record is in the result exactly when it is in the list and its name matches. */
  lemma {:induction false} FiltrarPertenencia(rs: seq<Registro>, consulta: string, r: Registro)
    ensures r in Filtrar(rs, consulta) <==> r in rs && NombreCoincide(r.nombre, consulta)
    decreases |rs|
  {
    if rs != [] {
      var n := |rs| - 1;
      FiltrarPertenencia(rs[..n], consulta, r);
      assert rs == rs[..n] + [rs[n]];
    }
  }

  /** The result never grows beyond the list, and it is empty when no name matches. */
  lemma {:induction false} FiltrarSinCoincidencias(rs: seq<Registro>, consulta: string)
    ensures |Filtrar(rs, consulta)| <= |rs|
    ensures (forall i :: 0 <= i < |rs| ==> !NombreCoincide(rs[i].nombre, consulta)) ==> Filtrar(rs, consulta) == []
    decreases |rs|
  {
    if rs != [] {
      FiltrarSinCoincidencias(rs[..|rs| - 1], consulta);
    }
  }

  /** A query that is blank after stripping returns the whole list. */
  lemma {:induction false} FiltrarConsultaEnBlanco(rs: seq<Registro>, consulta: string)
    requires Recortar(consulta) == ""
    ensures Filtrar(rs, consulta) == rs
    decreases |rs|
  {
    if rs != [] {
      var n := |rs| - 1;
      FiltrarConsultaEnBlanco(rs[..n], consulta);
      ConsultaEnBlancoCoincideSiempre(rs[n].nombre, consulta);
      assert rs == rs[..n] + [rs[n]];
    }
  }
}
