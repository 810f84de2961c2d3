/**
 * The in-memory inventory (semana_9/inventario.py): a list of Producto
 * objects changed in place by append and `remove`, with boolean results and
 * the same first-match id lookup and name search as the persistent one.
 */
module InventarioSimple {
  import opened Base
  import opened Texto
  import opened Registros
  import opened ProductoSimple

  // Corresponden, CorrespondenAlQuitar, Seleccionar and SeleccionarSigueAFiltrar
  // are the definitions of the same names in InventarioPersistente, stated over
  // this module's own Producto class (semana_9/producto.py).

  /** The objects hold, in order, exactly the given records. */
  ghost predicate Corresponden(ps: seq<Producto>, rs: seq<Registro>)
    reads ps
  {
    |ps| == |rs| && forall i :: 0 <= i < |ps| ==> ps[i].Valor() == rs[i]
  }

  /** Cutting position `k` out of both lists keeps them in step. */
  lemma CorrespondenAlQuitar(ps: seq<Producto>, rs: seq<Registro>, k: nat)
    requires Corresponden(ps, rs) && k < |ps|
    ensures Corresponden(ps[..k] + ps[k + 1..], rs[..k] + rs[k + 1..])
  {
    var cut := ps[..k] + ps[k + 1..];
    assert forall i :: 0 <= i < |cut| ==> cut[i] == ps[if i < k then i else i + 1];
    var rcut := rs[..k] + rs[k + 1..];
    assert forall i :: 0 <= i < |rcut| ==> rcut[i] == rs[if i < k then i else i + 1];
  }

  /** The objects whose name matches the query, in list order. */
  function Seleccionar(ps: seq<Producto>, consulta: string): (r: seq<Producto>)
    reads ps
    ensures forall p :: p in r ==> p in ps
  {
    if ps == [] then []
    else
      var ultimo := ps[|ps| - 1];
      Seleccionar(ps[..|ps| - 1], consulta) + (if NombreCoincide(ultimo.nombre, consulta) then [ultimo] else [])
  }

  /** Selecting objects follows filtering their values, one result for one result. */
  lemma {:induction false} SeleccionarSigueAFiltrar(ps: seq<Producto>, rs: seq<Registro>, consulta: string)
    requires |ps| == |rs| && forall i :: 0 <= i < |ps| ==> ps[i].Valor() == rs[i]
    ensures |Seleccionar(ps, consulta)| == |Filtrar(rs, consulta)|
    ensures forall i :: 0 <= i < |Filtrar(rs, consulta)| ==> Seleccionar(ps, consulta)[i].Valor() == Filtrar(rs, consulta)[i]
    decreases |ps|
  {
    if ps != [] {
      var n := |ps| - 1;
      SeleccionarSigueAFiltrar(ps[..n], rs[..n], consulta);
    }
  }

  class Inventario {
    var productos: seq<Producto>
    /** The records the objects hold, in list order. */
    ghost var Contents: seq<Registro>

    ghost predicate Valid()
      reads this`productos, this`Contents, productos
    {
      Corresponden(productos, Contents) && Distintos(productos)
    }

    /** A new inventory holds no product. */
    constructor ()
      ensures Valid() && productos == [] && Contents == []
    {
      productos := [];
      Contents := [];
    }

    /** `_buscar_por_id`: the first object with the id, or null. */
    method BuscarPorId(productoId: int) returns (p: Producto?)
      requires Valid()
      ensures IndiceDeId(Contents, productoId).None? ==> p == null
      ensures IndiceDeId(Contents, productoId).Some? ==> p == productos[IndiceDeId(Contents, productoId).value]
    {
      var i := 0;
      while i < |productos|
        invariant 0 <= i <= |productos|
        invariant forall j :: 0 <= j < i ==> Contents[j].id != productoId
      {
        if productos[i].GetId() == productoId {
          return productos[i];
        }
        i := i + 1;
      }
      return null;
    }

    /** `agregar_producto`: append when no product has the id, and say whether it did. */
    method AgregarProducto(producto: Producto) returns (agregado: bool)
      requires Valid()
      modifies this`productos, this`Contents
      ensures Valid()
      ensures agregado <==> old(IndiceDeId(Contents, producto.id)).None?
      ensures agregado ==> productos == old(productos) + [producto] && Contents == old(Contents) + [producto.Valor()]
      ensures !agregado ==> productos == old(productos) && Contents == old(Contents)
      ensures old(IdsUnicos(Contents)) ==> IdsUnicos(Contents)
    {
      var existente := BuscarPorId(producto.GetId());
      if existente != null {
        return false;
      }
      ghost var antes := Contents;
      assert producto !in productos;
      DistintosAlAnexar(productos, producto);
      productos := productos + [producto];
      Contents := Contents + [producto.Valor()];
      if IdsUnicos(antes) {
        UnicosAlAgregar(antes, producto.Valor());
      }
      agregado := true;
    }

    /** `eliminar_producto`: `remove` the first product with the id, and say whether there was one. */
    method EliminarProducto(productoId: int) returns (eliminado: bool)
      requires Valid()
      modifies this`productos, this`Contents
      ensures Valid()
      ensures eliminado <==> old(IndiceDeId(Contents, productoId)).Some?
      ensures eliminado ==>
        var k := old(IndiceDeId(Contents, productoId)).value;
        && productos == old(productos)[..k] + old(productos)[k + 1..]
        && Contents == old(Contents)[..k] + old(Contents)[k + 1..]
      ensures !eliminado ==> productos == old(productos) && Contents == old(Contents)
      ensures old(IdsUnicos(Contents)) ==> IdsUnicos(Contents) && IndiceDeId(Contents, productoId).None?
    {
      var producto := BuscarPorId(productoId);
      if producto == null {
        return false;
      }
      ghost var antes, objetos := Contents, productos;
      ghost var k := IndiceDeId(Contents, productoId).value;
      forall i | 0 <= i < k
        ensures productos[i] != producto
      {
        EnPosicionesDistintas(productos, i, k);
      }
      QuitarEnIndice(productos, producto, k);
      productos := Quitar(productos, producto);
      Contents := Contents[..k] + Contents[k + 1..];
      CorrespondenAlQuitar(objetos, antes, k);
      DistintosAlQuitar(objetos, k);
      if IdsUnicos(antes) {
        UnicosAlQuitar(antes, k);
        SinIdTrasQuitar(antes, productoId);
      }
      eliminado := true;
    }

    /**
     * `actualizar_producto`: set the given fields of the first product with the
     * id; it reports success whenever the id is found, even with nothing to set.
     */
    method ActualizarProducto(productoId: int, nuevaCantidad: Option<int>, nuevoPrecio: Option<real>)
      returns (actualizado: bool)
      requires Valid()
      modifies this`Contents, productos
      ensures Valid() && productos == old(productos)
      ensures actualizado <==> old(IndiceDeId(Contents, productoId)).Some?
      ensures actualizado ==>
        var k := old(IndiceDeId(Contents, productoId)).value;
        Contents == old(Contents)[k := Actualizado(old(Contents)[k], nuevaCantidad, nuevoPrecio)]
      ensures !actualizado ==> Contents == old(Contents)
      ensures old(IdsUnicos(Contents)) ==> IdsUnicos(Contents)
    {
      var producto := BuscarPorId(productoId);
      if producto == null {
        return false;
      }
      ghost var k := IndiceDeId(Contents, productoId).value;
      if IdsUnicos(Contents) {
        UnicosAlActualizar(Contents, k, nuevaCantidad, nuevoPrecio);
      }
      CambiarEnPosicion(producto, k, nuevaCantidad, nuevoPrecio);
      actualizado := true;
    }

    /** The two setter calls of `actualizar_producto` on the object at position `k`. */
    method CambiarEnPosicion(producto: Producto, ghost k: nat, nuevaCantidad: Option<int>, nuevoPrecio: Option<real>)
      requires Valid() && k < |productos| && productos[k] == producto
      modifies this`Contents, producto
      ensures Valid() && productos == old(productos)
      ensures Contents == old(Contents)[k := Actualizado(old(Contents)[k], nuevaCantidad, nuevoPrecio)]
    {
      forall j | 0 <= j < |productos| && j != k
        ensures productos[j] != producto
      {
        EnPosicionesDistintas(productos, j, k);
      }
      if nuevaCantidad.Some? {
        producto.SetCantidad(nuevaCantidad.value);
      }
      if nuevoPrecio.Some? {
        producto.SetPrecio(nuevoPrecio.value);
      }
      Contents := Contents[k := producto.Valor()];
    }

    /** `buscar_por_nombre`: the loop collecting, in order, the products whose name contains the stripped query, ignoring case. */
    method BuscarPorNombre(nombre: string) returns (resultados: seq<Producto>)
      requires Valid()
      ensures resultados == Seleccionar(productos, nombre)
      ensures |resultados| == |Filtrar(Contents, nombre)|
      ensures forall i :: 0 <= i < |resultados| ==> resultados[i] in productos && resultados[i].Valor() == Filtrar(Contents, nombre)[i]
    {
      var normalizado := Minusculas(Recortar(nombre));
      resultados := [];
      var i := 0;
      while i < |productos|
        invariant 0 <= i <= |productos|
        invariant resultados == Seleccionar(productos[..i], nombre)
      {
        assert productos[..i + 1][..i] == productos[..i];
        if Contiene(Minusculas(productos[i].GetNombre()), normalizado) {
          resultados := resultados + [productos[i]];
        }
        i := i + 1;
      }
      assert productos[..i] == productos;
      SeleccionarSigueAFiltrar(productos, Contents, nombre);
    }

    /** `mostrar_todos`: a copy of the list, in insertion order. */
    function MostrarTodos(): (r: seq<Producto>)
      requires Valid()
      reads this, productos
      ensures r == productos
      ensures |r| == |Contents|
      ensures forall i :: 0 <= i < |r| ==> r[i].Valor() == Contents[i]
    {
      productos
    }
  }
}
