/**
 * The product of the persistent inventory (semana_10/producto.py): a class
 * whose four fields the setters overwrite, and its conversion to and from the
 * key/value object stored for it in the JSON file.
 */
module ProductoPersistente {
  import opened Base
  import opened Registros

  /** A JSON value as `json.loads` returns it, with the kinds a record field can take. */
  datatype Valor =
    | Entero(i: int)
    | Flotante(r: real)
    | Cadena(s: string)
    | OtroValor            // true, false, null, an array or an object

  /** One element of the JSON list in the file: an object, or anything else. */
  datatype Elemento = Objeto(campos: map<string, Valor>) | NoObjeto

  /** The four keys of a serialized product. */
  const CLAVES: set<string> := {"id", "nombre", "cantidad", "precio"}

  /** Why a stored element could not become a product. */
  datatype ErrorDict =
    | FaltaClave(clave: string)      // Python raises KeyError(clave)
    | NoEsDiccionario                // Python raises TypeError: the element is not an object
    | TipoInesperado(clave: string)  // the value under `clave` is not of the field's JSON type

  /** The object `to_dict` builds for a record: exactly the four keys, mapped to the fields. */
  function ADict(r: Registro): (d: map<string, Valor>)
    ensures d.Keys == CLAVES
    ensures d["id"] == Entero(r.id) && d["nombre"] == Cadena(r.nombre)
    ensures d["cantidad"] == Entero(r.cantidad) && d["precio"] == Flotante(r.precio)
  {
    map["id" := Entero(r.id), "nombre" := Cadena(r.nombre),
        "cantidad" := Entero(r.cantidad), "precio" := Flotante(r.precio)]
  }

  /** A JSON number as a real: an integer price is read as the same real. */
  predicate EsNumero(v: Valor) {
    v.Entero? || v.Flotante?
  }

  function ComoReal(v: Valor): real
    requires EsNumero(v)
  {
    if v.Entero? then v.i as real else v.r
  }

  /** Every key is present and holds a value of its field's type. */
  predicate TiposEsperados(m: map<string, Valor>) {
    && CLAVES <= m.Keys
    && m["id"].Entero? && m["nombre"].Cadena? && m["cantidad"].Entero? && EsNumero(m["precio"])
  }

  /**
   * `Producto.from_dict(data)`: the four keys are looked up in the order
   * id, nombre, cantidad, precio, the first absent one fails with no default,
   * and every other key is ignored.
   */
  function FromDict(e: Elemento): (r: Result<Registro, ErrorDict>)
    ensures r.Success? <==> e.Objeto? && TiposEsperados(e.campos)
    ensures r.Success? ==>
      && r.value.id == e.campos["id"].i && r.value.nombre == e.campos["nombre"].s
      && r.value.cantidad == e.campos["cantidad"].i && r.value.precio == ComoReal(e.campos["precio"])
    ensures e.NoObjeto? ==> r == Failure(NoEsDiccionario)
    ensures r.Failure? && r.error.FaltaClave? ==> e.Objeto? && r.error.clave in CLAVES && r.error.clave !in e.campos
    ensures e.Objeto? && !(CLAVES <= e.campos.Keys) ==> r.Failure? && r.error.FaltaClave?
  {
    match e
    case NoObjeto => Failure(NoEsDiccionario)
    case Objeto(m) =>
      if "id" !in m then Failure(FaltaClave("id"))
      else if "nombre" !in m then Failure(FaltaClave("nombre"))
      else if "cantidad" !in m then Failure(FaltaClave("cantidad"))
      else if "precio" !in m then Failure(FaltaClave("precio"))
      else if !m["id"].Entero? then Failure(TipoInesperado("id"))
      else if !m["nombre"].Cadena? then Failure(TipoInesperado("nombre"))
      else if !m["cantidad"].Entero? then Failure(TipoInesperado("cantidad"))
      else if !EsNumero(m["precio"]) then Failure(TipoInesperado("precio"))
      else Success(Registro(m["id"].i, m["nombre"].s, m["cantidad"].i, ComoReal(m["precio"])))
  }

  /** Reading back what `to_dict` wrote gives the same four fields. */
  lemma {:induction false} DesdeDictDeADict(r: Registro)
    ensures FromDict(Objeto(ADict(r))) == Success(r)
  {
    var d := ADict(r);
    assert "id" in d && "nombre" in d && "cantidad" in d && "precio" in d;
  }

  /** Keys other than the four are ignored: only the restriction to CLAVES matters. */
  lemma ExtrasIgnorados(m: map<string, Valor>, extra: map<string, Valor>)
    requires extra.Keys !! CLAVES
    ensures FromDict(Objeto(m + extra)) == FromDict(Objeto(m))
  {
    var n := m + extra;
    assert forall k :: k in CLAVES ==> (k in n <==> k in m) && (k in m ==> n[k] == m[k]);
  }

  /** An object missing a key fails on the first missing key of id, nombre, cantidad, precio. */
  lemma PrimeraClaveFaltante(m: map<string, Valor>)
    ensures "id" !in m ==> FromDict(Objeto(m)) == Failure(FaltaClave("id"))
    ensures "id" in m && "nombre" !in m ==> FromDict(Objeto(m)) == Failure(FaltaClave("nombre"))
    ensures "id" in m && "nombre" in m && "cantidad" !in m ==> FromDict(Objeto(m)) == Failure(FaltaClave("cantidad"))
    ensures "id" in m && "nombre" in m && "cantidad" in m && "precio" !in m ==> FromDict(Objeto(m)) == Failure(FaltaClave("precio"))
  {
  }

  /** A product: four fields that the setters overwrite one at a time. */
  class Producto {
    var id: int
    var nombre: string
    var cantidad: int
    var precio: real

    /** The four fields read together. */
    function Valor(): Registro
      reads this
    {
      Registro(id, nombre, cantidad, precio)
    }

    constructor (productoId: int, nombre: string, cantidad: int, precio: real)
      ensures Valor() == Registro(productoId, nombre, cantidad, precio)
      ensures GetId() == productoId && GetNombre() == nombre
      ensures GetCantidad() == cantidad && GetPrecio() == precio
    {
      this.id := productoId;
      this.nombre := nombre;
      this.cantidad := cantidad;
      this.precio := precio;
    }

    function GetId(): int reads this { id }
    function GetNombre(): string reads this { nombre }
    function GetCantidad(): int reads this { cantidad }
    function GetPrecio(): real reads this { precio }

    method SetId(productoId: int)
      modifies this
      ensures GetId() == productoId
      ensures Valor() == old(Valor()).(id := productoId)
    {
      id := productoId;
    }

    method SetNombre(nombre: string)
      modifies this
      ensures GetNombre() == nombre
      ensures Valor() == old(Valor()).(nombre := nombre)
    {
      this.nombre := nombre;
    }

    method SetCantidad(cantidad: int)
      modifies this
      ensures GetCantidad() == cantidad
      ensures Valor() == old(Valor()).(cantidad := cantidad)
    {
      this.cantidad := cantidad;
    }

    method SetPrecio(precio: real)
      modifies this
      ensures GetPrecio() == precio
      ensures Valor() == old(Valor()).(precio := precio)
    {
      this.precio := precio;
    }

    /** `to_dict()`: the keys id, nombre, cantidad, precio, each mapped to the current field. */
    function ToDict(): (d: map<string, Valor>)
      reads this
      ensures d.Keys == CLAVES
      ensures d["id"] == Entero(id) && d["nombre"] == Cadena(nombre)
      ensures d["cantidad"] == Entero(cantidad) && d["precio"] == Flotante(precio)
      ensures FromDict(Objeto(d)) == Success(Valor())
    {
      DesdeDictDeADict(Valor());
      ADict(Valor())
    }
  }
}
