/**
 * The persistent inventory (semana_10/inventario.py): an ordered list of
 * Producto objects kept in step with a JSON file that is rewritten whole
 * after every change.
 *
 * The file system is abstract. What a load finds at the path is an
 * `Archivo` parameter; what the operating system does with each whole-file
 * write is an `Escritura` parameter; the copy made of a corrupt file and the
 * moment it is made are parameters too. The model's knowledge of the file is
 * the ghost field `disco`: a successful write makes it the serialization of
 * the records, a failed write makes it `Desconocido` (a write that fails may
 * have truncated the file or left it as it was).
 */
module InventarioPersistente {
  import opened Base
  import opened Texto
  import opened Registros
  import opened ProductoPersistente

  /** The backing file as the load finds it. */
  datatype Archivo =
    | Ausente              // nothing at the path
    | SinPermisoLectura    // it exists, and opening it for reading raises PermissionError
    | Desaparecido         // it existed at the check; opening it raises FileNotFoundError
    | IlegibleOS           // opening or reading it raises another OSError (e.g. it is a directory)
    | EnBlanco             // its text is empty or whitespace only
    | NoJson               // its text is not JSON, or not UTF-8 (json.loads or decoding raises ValueError)
    | NoLista              // it decodes to a JSON value that is not a list
    | Lista(elementos: seq<Elemento>)

  /** What the model knows of the backing file. */
  datatype Disco = Conocido(archivo: Archivo) | Desconocido

  /** What the operating system does with one whole-file write. */
  datatype Escritura = Escrita | NoEncontrado | PermisoDenegado | OtroErrorOS(detalle: string)

  /** An exception that escapes the load, so that constructing the inventory raises. */
  datatype Excepcion =
    | ErrorDeDict(error: ErrorDict)     // KeyError or TypeError from from_dict
    | ErrorEscritura(fallo: Escritura)  // a write made while loading failed
    | ErrorLectura                      // an OSError other than FileNotFoundError and PermissionError

  const MSG_LISTO := "Inventario listo para usar."
  const MSG_CREADO := "Archivo de inventario creado."
  const MSG_VACIO := "Archivo vacio cargado correctamente."
  const MSG_CARGADO := "Inventario cargado desde archivo."
  const MSG_NO_ENCONTRADO := "Archivo no encontrado. Se creara uno nuevo."
  const MSG_PERMISO_LECTURA := "Permiso denegado al leer el archivo de inventario."
  const MSG_CORRUPTO := "Archivo corrupto detectado. Se respaldo y se creo un nuevo archivo."
  const MSG_DUPLICADO := "Error: ya existe un producto con ese ID."
  const MSG_AGREGADO := "Producto agregado y guardado en archivo."
  const MSG_NO_EXISTE := "Error: no se encontro un producto con ese ID."
  const MSG_ELIMINADO := "Producto eliminado y archivo actualizado."
  const MSG_ACTUALIZADO := "Producto actualizado y archivo sincronizado."
  const MSG_GUARDADO := "Archivo actualizado correctamente."
  const MSG_GUARDAR_NO_ENCONTRADO := "Error: archivo de inventario no encontrado."
  const MSG_GUARDAR_PERMISO := "Error: permiso denegado al escribir en el archivo."
  const MSG_GUARDAR_INESPERADO := "Error inesperado al guardar el archivo: "

  /** The JSON list a persist writes: one `to_dict` object per record, in list order. */
  function Serializar(rs: seq<Registro>): (items: seq<Elemento>)
    ensures |items| == |rs|
  {
    if rs == [] then [] else Serializar(rs[..|rs| - 1]) + [Objeto(ADict(rs[|rs| - 1]))]
  }

  /**
   * `[Producto.from_dict(item) for item in datos]`: every element converted
   * in file order; the first element that cannot be converted stops the load.
   */
  function CargarElementos(items: seq<Elemento>): (r: Result<seq<Registro>, ErrorDict>)
    ensures r.Success? <==> forall i :: 0 <= i < |items| ==> FromDict(items[i]).Success?
    ensures r.Success? ==> |r.value| == |items|
    ensures r.Success? ==> forall i :: 0 <= i < |items| ==> FromDict(items[i]) == Success(r.value[i])
  {
    if items == [] then Success([])
    else
      var n := |items| - 1;
      match CargarElementos(items[..n])
      case Failure(e) => Failure(e)
      case Success(rs) =>
        match FromDict(items[n])
        case Failure(e) => Failure(e)
        case Success(r) => Success(rs + [r])
  }

  /** Element `i` of the written list is the `to_dict` object of record `i`. */
  lemma {:induction false} SerializarEnPosicion(rs: seq<Registro>)
    ensures forall i :: 0 <= i < |rs| ==> Serializar(rs)[i] == Objeto(ADict(rs[i]))
    decreases |rs|
  {
    if rs != [] {
      SerializarEnPosicion(rs[..|rs| - 1]);
    }
  }

  /** Loading what a persist wrote gives back the same records in the same order. */
  lemma {:induction false} CargaDeSerializacion(rs: seq<Registro>)
    ensures CargarElementos(Serializar(rs)) == Success(rs)
    decreases |rs|
  {
    if rs != [] {
      var n := |rs| - 1;
      var items := Serializar(rs);
      assert items == Serializar(rs[..n]) + [Objeto(ADict(rs[n]))];
      assert items[..n] == Serializar(rs[..n]);
      CargaDeSerializacion(rs[..n]);
      DesdeDictDeADict(rs[n]);
      assert rs[..n] + [rs[n]] == rs;
    }
  }

  /** Once a prefix of the list fails to load, the whole list fails with the same error. */
  lemma {:induction false} FalloDePrefijo(items: seq<Elemento>, i: nat)
    requires i <= |items| && CargarElementos(items[..i]).Failure?
    ensures CargarElementos(items) == CargarElementos(items[..i])
    decreases |items|
  {
    if i < |items| {
      var n := |items| - 1;
      assert items[..n][..i] == items[..i];
      FalloDePrefijo(items[..n], i);
    } else {
      assert items[..i] == items;
    }
  }

  /** One more element of the list: loading `items[..i + 1]` loads `items[..i]` and then `items[i]`. */
  lemma CargarUnoMas(items: seq<Elemento>, i: nat)
    requires i < |items|
    ensures CargarElementos(items[..i + 1]) ==
      match CargarElementos(items[..i])
      case Failure(e) => Failure(e)
      case Success(rs) => (match FromDict(items[i]) case Failure(e) => Failure(e) case Success(r) => Success(rs + [r]))
  {
    assert items[..i + 1][..i] == items[..i];
    assert items[..i + 1][i] == items[i];
  }

  /** Load accepts repeated ids: two stored objects with id 1 both become records. */
  lemma CargaAdmiteIdsRepetidos()
    ensures var items := Serializar([Registro(1, "Lapiz", 5, 1.2), Registro(1, "Borrador", 3, 0.8)]);
      CargarElementos(items).Success? && !IdsUnicos(CargarElementos(items).value)
  {
    var rs := [Registro(1, "Lapiz", 5, 1.2), Registro(1, "Borrador", 3, 0.8)];
    CargaDeSerializacion(rs);
    assert !IdsDistintos(rs, 0, 1);
  }

  /** `_guardar_en_archivo`'s answer for each outcome of the write. */
  function ResultadoGuardado(escritura: Escritura): (r: (bool, string))
    ensures r.0 <==> escritura.Escrita?
    ensures escritura.Escrita? ==> r.1 == MSG_GUARDADO
    ensures escritura.NoEncontrado? ==> r.1 == MSG_GUARDAR_NO_ENCONTRADO
    ensures escritura.PermisoDenegado? ==> r.1 == MSG_GUARDAR_PERMISO
    ensures escritura.OtroErrorOS? ==> r.1 == MSG_GUARDAR_INESPERADO + escritura.detalle
  {
    match escritura
    case Escrita => (true, MSG_GUARDADO)
    case NoEncontrado => (false, MSG_GUARDAR_NO_ENCONTRADO)
    case PermisoDenegado => (false, MSG_GUARDAR_PERMISO)
    case OtroErrorOS(detalle) => (false, MSG_GUARDAR_INESPERADO + detalle)
  }

  /** A timestamp as `time.strftime("%Y%m%d_%H%M%S")` writes it. */
  predicate EsMarcaDeTiempo(marca: string) {
    |marca| == 15 && marca[8] == '_' &&
    forall i :: 0 <= i < 15 && i != 8 ==> '0' <= marca[i] <= '9'
  }

  /** The backup path `<ruta>.corrupto_<marca>`. */
  function NombreRespaldo(ruta: string, marca: string): (nombre: string)
    ensures |nombre| == |ruta| + 10 + |marca|
    ensures nombre[..|ruta|] == ruta && nombre[|ruta|..|ruta| + 10] == ".corrupto_"
    ensures nombre[|ruta| + 10..] == marca
  {
    ruta + ".corrupto_" + marca
  }

  /** Two backups of one file get the same path exactly when they are taken in the same second. */
  lemma RespaldosDelMismoSegundo(ruta: string, marca1: string, marca2: string)
    ensures NombreRespaldo(ruta, marca1) == NombreRespaldo(ruta, marca2) <==> marca1 == marca2
  {
    if NombreRespaldo(ruta, marca1) == NombreRespaldo(ruta, marca2) {
      assert NombreRespaldo(ruta, marca1)[|ruta| + 10..] == marca1;
    }
  }

  /** The exception, if any, that a load with these file conditions lets escape. */
  function ExcepcionDeCarga(archivo: Archivo, primera: Escritura, segunda: Escritura): (r: Option<Excepcion>)
    ensures primera.Escrita? && segunda.Escrita? ==>
      (r.Some? <==> archivo.IlegibleOS? || (archivo.Lista? && CargarElementos(archivo.elementos).Failure?))
    ensures archivo.SinPermisoLectura? || archivo.EnBlanco? ==> r.None?
    // the unguarded writes of the not-found and corrupt-file handlers raise when they fail
    ensures (archivo.Desaparecido? || archivo.NoJson? || archivo.NoLista?) && !primera.Escrita? ==>
      r == Some(ErrorEscritura(primera))
    ensures archivo.Ausente? && primera.NoEncontrado? && !segunda.Escrita? ==> r == Some(ErrorEscritura(segunda))
    ensures archivo.Ausente? && primera.OtroErrorOS? ==> r == Some(ErrorEscritura(primera))
  {
    match archivo
    case Ausente =>
      if primera.Escrita? || primera.PermisoDenegado? then None
      else if primera.NoEncontrado? then (if segunda.Escrita? then None else Some(ErrorEscritura(segunda)))
      else Some(ErrorEscritura(primera))
    case Desaparecido => if primera.Escrita? then None else Some(ErrorEscritura(primera))
    case SinPermisoLectura => None
    case IlegibleOS => Some(ErrorLectura)
    case EnBlanco => None
    case NoJson => if primera.Escrita? then None else Some(ErrorEscritura(primera))
    case NoLista => if primera.Escrita? then None else Some(ErrorEscritura(primera))
    case Lista(items) =>
      var cargados := CargarElementos(items);
      if cargados.Failure? then Some(ErrorDeDict(cargados.error)) else None
  }

  /** The producto objects whose name matches, in list order (the comprehension of buscar_por_nombre). */
  function Seleccionar(ps: seq<Producto>, consulta: string): (r: seq<Producto>)
    reads ps
    ensures forall p :: p in r ==> p in ps
  {
    if ps == [] then []
    else
      var ultimo := ps[|ps| - 1];
      Seleccionar(ps[..|ps| - 1], consulta) + (if NombreCoincide(ultimo.nombre, consulta) then [ultimo] else [])
  }

  /** Selecting objects follows filtering their values, one result for one result. */
  lemma {:induction false} SeleccionarSigueAFiltrar(ps: seq<Producto>, rs: seq<Registro>, consulta: string)
    requires |ps| == |rs| && forall i :: 0 <= i < |ps| ==> ps[i].Valor() == rs[i]
    ensures |Seleccionar(ps, consulta)| == |Filtrar(rs, consulta)|
    ensures forall i :: 0 <= i < |Filtrar(rs, consulta)| ==> Seleccionar(ps, consulta)[i].Valor() == Filtrar(rs, consulta)[i]
    decreases |ps|
  {
    if ps != [] {
      var n := |ps| - 1;
      SeleccionarSigueAFiltrar(ps[..n], rs[..n], consulta);
    }
  }

  /** The objects hold, in order, exactly the given records. */
  ghost predicate Corresponden(ps: seq<Producto>, rs: seq<Registro>)
    reads ps
  {
    |ps| == |rs| && forall i :: 0 <= i < |ps| ==> ps[i].Valor() == rs[i]
  }

  /** Appending a new object and its record keeps the lists in step, and dropping the last undoes it. */
  lemma CorrespondenAlAnexar(ps: seq<Producto>, rs: seq<Registro>, p: Producto)
    requires Corresponden(ps, rs)
    ensures Corresponden(ps + [p], rs + [p.Valor()])
    ensures (ps + [p])[..|ps|] == ps && (rs + [p.Valor()])[..|rs|] == rs
  {
  }

  /** Cutting position `k` out of both lists keeps them in step. */
  lemma CorrespondenAlQuitar(ps: seq<Producto>, rs: seq<Registro>, k: nat)
    requires Corresponden(ps, rs) && k < |ps|
    ensures Corresponden(ps[..k] + ps[k + 1..], rs[..k] + rs[k + 1..])
  {
    var cut := ps[..k] + ps[k + 1..];
    assert forall i :: 0 <= i < |cut| ==> cut[i] == ps[if i < k then i else i + 1];
    var rcut := rs[..k] + rs[k + 1..];
    assert forall i :: 0 <= i < |rcut| ==> rcut[i] == rs[if i < k then i else i + 1];
  }

  /**
   * The list comprehension of the load: one new Producto per stored element, in
   * file order; the first element `from_dict` rejects stops it with that error.
   */
  method ConvertirElementos(items: seq<Elemento>) returns (r: Result<seq<Producto>, ErrorDict>)
    ensures r.Success? <==> CargarElementos(items).Success?
    ensures r.Failure? ==> r.error == CargarElementos(items).error
    ensures r.Success? ==>
      && Corresponden(r.value, CargarElementos(items).value) && Distintos(r.value)
      && forall p :: p in r.value ==> fresh(p)
  {
    var nuevos: seq<Producto> := [];
    ghost var registros: seq<Registro> := [];
    var i := 0;
    while i < |items|
      invariant 0 <= i <= |items|
      invariant CargarElementos(items[..i]) == Success(registros)
      invariant |nuevos| == |registros| == i && Distintos(nuevos)
      invariant forall j :: 0 <= j < i ==> nuevos[j].Valor() == registros[j]
      invariant forall p :: p in nuevos ==> fresh(p)
    {
      CargarUnoMas(items, i);
      var convertido := FromDict(items[i]);
      if convertido.Failure? {
        FalloDePrefijo(items, i + 1);
        return Failure(convertido.error);
      }
      var p := new Producto(convertido.value.id, convertido.value.nombre, convertido.value.cantidad, convertido.value.precio);
      DistintosAlAnexar(nuevos, p);
      nuevos := nuevos + [p];
      registros := registros + [convertido.value];
      i := i + 1;
    }
    assert items[..i] == items;
    return Success(nuevos);
  }

  /** The inventory: the path of its file, its products, and the status the load left. */
  class Inventario {
    var ruta: string
    var productos: seq<Producto>
    var cargaOk: bool
    var mensajeCarga: string
    /** The records held, in list order: the fields of each object of `productos`. */
    ghost var Contents: seq<Registro>
    /** What is known of the backing file. */
    ghost var disco: Disco
    /** Backups of corrupt files, by path. */
    ghost var respaldos: map<string, Archivo>

    /** Each object appears once, and Contents holds the fields of the objects in order. */
    ghost predicate Valid()
      reads this`productos, this`Contents, productos
    {
      Corresponden(productos, Contents) && Distintos(productos)
    }

    /** The field settings of `__init__`, before it calls the load. */
    constructor (ruta: string)
      ensures Valid() && this.ruta == ruta
      ensures productos == [] && Contents == []
      ensures cargaOk && mensajeCarga == MSG_LISTO
      ensures disco == Desconocido && respaldos == map[]
    {
      this.ruta := ruta;
      productos := [];
      cargaOk := true;
      mensajeCarga := MSG_LISTO;
      Contents := [];
      disco := Desconocido;
      respaldos := map[];
    }

    /** `obtener_estado_carga`: the flag and message left by the load. */
    function ObtenerEstadoCarga(): (estado: (bool, string))
      reads this
      ensures estado.0 == cargaOk && estado.1 == mensajeCarga
    {
      (cargaOk, mensajeCarga)
    }

    /** `_buscar_por_id`: the first object with that id, or null. */
    method BuscarPorId(productoId: int) returns (p: Producto?)
      requires Valid()
      ensures IndiceDeId(Contents, productoId).None? ==> p == null
      ensures IndiceDeId(Contents, productoId).Some? ==> p == productos[IndiceDeId(Contents, productoId).value]
    {
      var i := 0;
      while i < |productos|
        invariant 0 <= i <= |productos|
        invariant forall j :: 0 <= j < i ==> Contents[j].id != productoId
      {
        if productos[i].GetId() == productoId {
          return productos[i];
        }
        i := i + 1;
      }
      return null;
    }

    /** `_guardar_en_archivo`: one whole-file write of the serialized records. */
    method GuardarEnArchivo(escritura: Escritura) returns (exito: bool, mensaje: string)
      requires Valid()
      modifies this`disco
      ensures Valid()
      ensures (exito, mensaje) == ResultadoGuardado(escritura)
      ensures exito ==> disco == Conocido(Lista(Serializar(Contents)))
      ensures !exito ==> disco == Desconocido
    {
      ghost var datos := Serializar(Contents);
      if escritura.Escrita? {
        disco := Conocido(Lista(datos));
      } else {
        disco := Desconocido;
      }
      exito, mensaje := ResultadoGuardado(escritura).0, ResultadoGuardado(escritura).1;
    }

    /** The append of `agregar_producto`, its persist, and the `pop` that undoes it when the persist fails. */
    method AnexarYGuardar(producto: Producto, escritura: Escritura) returns (exito: bool, mensaje: string)
      requires Valid() && producto !in productos
      modifies this`productos, this`Contents, this`disco
      ensures Valid() && (exito, mensaje) == ResultadoGuardado(escritura)
      ensures escritura.Escrita? ==>
        && productos == old(productos) + [producto] && Contents == old(Contents) + [producto.Valor()]
        && disco == Conocido(Lista(Serializar(Contents)))
      ensures !escritura.Escrita? ==> productos == old(productos) && Contents == old(Contents) && disco == Desconocido
    {
      Anexar(producto);
      exito, mensaje := GuardarEnArchivo(escritura);
      if !exito {
        productos := productos[..|productos| - 1];
        Contents := Contents[..|Contents| - 1];
      }
    }

    /** `agregar_producto`: refuse a present id; else append, persist, and undo the append if the persist fails. */
    method AgregarProducto(producto: Producto, escritura: Escritura) returns (exito: bool, mensaje: string)
      requires Valid()
      modifies this`productos, this`Contents, this`disco
      ensures Valid()
      ensures old(IndiceDeId(Contents, producto.id)).Some? ==>
        && !exito && mensaje == MSG_DUPLICADO
        && productos == old(productos) && Contents == old(Contents) && disco == old(disco)
      ensures old(IndiceDeId(Contents, producto.id)).None? && escritura.Escrita? ==>
        && exito && mensaje == MSG_AGREGADO
        && productos == old(productos) + [producto] && Contents == old(Contents) + [producto.Valor()]
        && disco == Conocido(Lista(Serializar(Contents)))
      ensures old(IndiceDeId(Contents, producto.id)).None? && !escritura.Escrita? ==>
        && !exito && mensaje == ResultadoGuardado(escritura).1
        && productos == old(productos) && Contents == old(Contents) && disco == Desconocido
      ensures old(IdsUnicos(Contents)) ==> IdsUnicos(Contents)
    {
      var existente := BuscarPorId(producto.GetId());
      if existente != null {
        return false, MSG_DUPLICADO;
      }
      ghost var antes := Contents;
      assert producto !in productos;
      var mensajeArchivo;
      exito, mensajeArchivo := AnexarYGuardar(producto, escritura);
      if !exito {
        return false, mensajeArchivo;
      }
      if IdsUnicos(antes) {
        UnicosAlAgregar(antes, producto.Valor());
      }
      mensaje := MSG_AGREGADO;
    }

    /** The `remove` of `eliminar_producto`, its persist, and the re-append at the end when the persist fails. */
    method QuitarYGuardar(producto: Producto, ghost k: nat, escritura: Escritura) returns (exito: bool, mensaje: string)
      requires Valid() && k < |productos| && productos[k] == producto
      modifies this`productos, this`Contents, this`disco
      ensures Valid() && (exito, mensaje) == ResultadoGuardado(escritura)
      ensures escritura.Escrita? ==>
        && productos == old(productos)[..k] + old(productos)[k + 1..]
        && Contents == old(Contents)[..k] + old(Contents)[k + 1..]
        && disco == Conocido(Lista(Serializar(Contents)))
      ensures !escritura.Escrita? ==>
        && productos == old(productos)[..k] + old(productos)[k + 1..] + [producto]
        && Contents == old(Contents)[..k] + old(Contents)[k + 1..] + [old(Contents)[k]]
        && disco == Desconocido
    {
      QuitarEnPosicion(producto, k);
      exito, mensaje := GuardarEnArchivo(escritura);
      if !exito {
        Anexar(producto);
      }
    }

    /** `list.append` of an object that is not in the list yet. */
    method Anexar(producto: Producto)
      requires Valid() && producto !in productos
      modifies this`productos, this`Contents
      ensures Valid()
      ensures productos == old(productos) + [producto] && Contents == old(Contents) + [producto.Valor()]
    {
      CorrespondenAlAnexar(productos, Contents, producto);
      DistintosAlAnexar(productos, producto);
      productos := productos + [producto];
      Contents := Contents + [producto.Valor()];
    }

    /** `list.remove` of the object at position `k`, its first and only occurrence. */
    method QuitarEnPosicion(producto: Producto, ghost k: nat)
      requires Valid() && k < |productos| && productos[k] == producto
      modifies this`productos, this`Contents
      ensures Valid() && producto !in productos
      ensures productos == old(productos)[..k] + old(productos)[k + 1..]
      ensures Contents == old(Contents)[..k] + old(Contents)[k + 1..]
    {
      ghost var antes, objetos := Contents, productos;
      forall i | 0 <= i < k
        ensures productos[i] != producto
      {
        EnPosicionesDistintas(productos, i, k);
      }
      QuitarEnIndice(productos, producto, k);
      productos := Quitar(productos, producto);
      Contents := Contents[..k] + Contents[k + 1..];
      CorrespondenAlQuitar(objetos, antes, k);
      DistintosAlQuitar(objetos, k);
      forall i | 0 <= i < |productos|
        ensures productos[i] != producto
      {
        EnPosicionesDistintas(objetos, if i < k then i else i + 1, k);
      }
    }

    /** `eliminar_producto`: remove the first record with the id, persist, and re-append it at the end if the persist fails. */
    method EliminarProducto(productoId: int, escritura: Escritura) returns (exito: bool, mensaje: string)
      requires Valid()
      modifies this`productos, this`Contents, this`disco
      ensures Valid()
      ensures old(IndiceDeId(Contents, productoId)).None? ==>
        && !exito && mensaje == MSG_NO_EXISTE
        && productos == old(productos) && Contents == old(Contents) && disco == old(disco)
      ensures old(IndiceDeId(Contents, productoId)).Some? && escritura.Escrita? ==>
        var k := old(IndiceDeId(Contents, productoId)).value;
        && exito && mensaje == MSG_ELIMINADO
        && productos == old(productos)[..k] + old(productos)[k + 1..]
        && Contents == old(Contents)[..k] + old(Contents)[k + 1..]
        && disco == Conocido(Lista(Serializar(Contents)))
        && (old(IdsUnicos(Contents)) ==> IndiceDeId(Contents, productoId).None?)
      ensures old(IndiceDeId(Contents, productoId)).Some? && !escritura.Escrita? ==>
        var k := old(IndiceDeId(Contents, productoId)).value;
        && !exito && mensaje == ResultadoGuardado(escritura).1
        && productos == old(productos)[..k] + old(productos)[k + 1..] + [old(productos)[k]]
        && Contents == old(Contents)[..k] + old(Contents)[k + 1..] + [old(Contents)[k]]
        && disco == Desconocido
      ensures old(IdsUnicos(Contents)) ==> IdsUnicos(Contents)
    {
      var producto := BuscarPorId(productoId);
      if producto == null {
        exito, mensaje := false, MSG_NO_EXISTE;
      } else {
        ghost var antes := Contents;
        ghost var k := IndiceDeId(Contents, productoId).value;
        var mensajeArchivo;
        exito, mensajeArchivo := QuitarYGuardar(producto, k, escritura);
        if IdsUnicos(antes) {
          UnicosAlQuitar(antes, k);
          SinIdTrasQuitar(antes, productoId);
        }
        mensaje := if exito then MSG_ELIMINADO else mensajeArchivo;
      }
    }

    /** The setter calls of `actualizar_producto` on the object at position `k`: each field given is set. */
    method CambiarEnPosicion(producto: Producto, ghost k: nat, nuevaCantidad: Option<int>, nuevoPrecio: Option<real>)
      requires Valid() && k < |productos| && productos[k] == producto
      modifies this`Contents, producto
      ensures Valid() && productos == old(productos)
      ensures Contents == old(Contents)[k := Actualizado(old(Contents)[k], nuevaCantidad, nuevoPrecio)]
    {
      forall j | 0 <= j < |productos| && j != k
        ensures productos[j] != producto
      {
        EnPosicionesDistintas(productos, j, k);
      }
      if nuevaCantidad.Some? {
        producto.SetCantidad(nuevaCantidad.value);
      }
      if nuevoPrecio.Some? {
        producto.SetPrecio(nuevoPrecio.value);
      }
      Contents := Contents[k := producto.Valor()];
    }

    /**
     * `actualizar_producto`: set the given fields of the first record with the id,
     * persist, and restore its previous cantidad and precio if the persist fails.
     */
    method ActualizarProducto(productoId: int, nuevaCantidad: Option<int>, nuevoPrecio: Option<real>, escritura: Escritura)
      returns (exito: bool, mensaje: string)
      requires Valid()
      modifies this`Contents, this`disco, productos
      ensures Valid() && productos == old(productos)
      ensures old(IndiceDeId(Contents, productoId)).None? ==>
        && !exito && mensaje == MSG_NO_EXISTE
        && Contents == old(Contents) && disco == old(disco)
      ensures old(IndiceDeId(Contents, productoId)).Some? && escritura.Escrita? ==>
        var k := old(IndiceDeId(Contents, productoId)).value;
        && exito && mensaje == MSG_ACTUALIZADO
        && Contents == old(Contents)[k := Actualizado(old(Contents)[k], nuevaCantidad, nuevoPrecio)]
        && disco == Conocido(Lista(Serializar(Contents)))
      ensures old(IndiceDeId(Contents, productoId)).Some? && !escritura.Escrita? ==>
        && !exito && mensaje == ResultadoGuardado(escritura).1
        && Contents == old(Contents) && disco == Desconocido
      ensures old(IdsUnicos(Contents)) ==> IdsUnicos(Contents)
    {
      var producto := BuscarPorId(productoId);
      if producto == null {
        return false, MSG_NO_EXISTE;
      }
      ghost var antes := Contents;
      ghost var k := IndiceDeId(Contents, productoId).value;
      var cantidadAnterior := producto.GetCantidad();
      var precioAnterior := producto.GetPrecio();
      CambiarEnPosicion(producto, k, nuevaCantidad, nuevoPrecio);
      var mensajeArchivo;
      exito, mensajeArchivo := GuardarEnArchivo(escritura);
      if !exito {
        CambiarEnPosicion(producto, k, Some(cantidadAnterior), Some(precioAnterior));
        assert Contents == antes;
        return false, mensajeArchivo;
      }
      if IdsUnicos(antes) {
        UnicosAlActualizar(antes, k, nuevaCantidad, nuevoPrecio);
      }
      mensaje := MSG_ACTUALIZADO;
    }

    /** `buscar_por_nombre`: the objects whose lowered name contains the stripped, lowered query, in list order. */
    function BuscarPorNombre(nombre: string): (r: seq<Producto>)
      requires Valid()
      reads this, productos
      ensures r == Seleccionar(productos, nombre)
      ensures |r| == |Filtrar(Contents, nombre)|
      ensures forall i :: 0 <= i < |r| ==> r[i] in productos && r[i].Valor() == Filtrar(Contents, nombre)[i]
    {
      SeleccionarSigueAFiltrar(productos, Contents, nombre);
      Seleccionar(productos, nombre)
    }

    /** `mostrar_todos`: a copy of the list, in insertion order. */
    function MostrarTodos(): (r: seq<Producto>)
      requires Valid()
      reads this, productos
      ensures r == productos
      ensures |r| == |Contents|
      ensures forall i :: 0 <= i < |r| ==> r[i].Valor() == Contents[i]
    {
      productos
    }

    /** `_respaldar_archivo_corrupto`: copy the file to its timestamped backup path; a failed copy is ignored. */
    method RespaldarArchivoCorrupto(contenido: Archivo, marca: string, copiaOk: bool)
      modifies this`respaldos
      ensures copiaOk ==> respaldos == old(respaldos)[NombreRespaldo(ruta, marca) := contenido]
      ensures !copiaOk ==> respaldos == old(respaldos)
    {
      if copiaOk {
        respaldos := respaldos[NombreRespaldo(ruta, marca) := contenido];
      }
    }

    /**
     * The absent-file branch of the load: write `[]`; a write that fails with
     * FileNotFoundError or PermissionError is handled like a failed read.
     */
    method TrasAusente(primera: Escritura, segunda: Escritura) returns (salida: Salida<Excepcion>)
      requires Valid() && productos == []
      modifies this`productos, this`Contents, this`cargaOk, this`mensajeCarga, this`disco
      ensures Valid() && productos == [] && Contents == []
      ensures primera.Escrita? ==> salida.Normal? && cargaOk && mensajeCarga == MSG_CREADO && disco == Conocido(Lista([]))
      ensures primera.NoEncontrado? ==>
        && !cargaOk && mensajeCarga == MSG_NO_ENCONTRADO
        && (segunda.Escrita? ==> salida.Normal? && disco == Conocido(Lista([])))
        && (!segunda.Escrita? ==> salida == Lanza(ErrorEscritura(segunda)))
      ensures primera.PermisoDenegado? ==> salida.Normal? && !cargaOk && mensajeCarga == MSG_PERMISO_LECTURA
      ensures primera.OtroErrorOS? ==> salida == Lanza(ErrorEscritura(primera))
    {
      if primera.Escrita? {
        disco := Conocido(Lista([]));
        cargaOk := true;
        mensajeCarga := MSG_CREADO;
        salida := Normal;
      } else if primera.NoEncontrado? {
        disco := Desconocido;
        salida := TrasNoEncontrado(segunda);
      } else if primera.PermisoDenegado? {
        disco := Desconocido;
        productos, Contents := [], [];
        cargaOk := false;
        mensajeCarga := MSG_PERMISO_LECTURA;
        salida := Normal;
      } else {
        disco := Desconocido;
        salida := Lanza(ErrorEscritura(primera));
      }
    }

    /** The `except FileNotFoundError` branch of the load: empty list, failed status, and a write of `[]` that may raise. */
    method TrasNoEncontrado(escritura: Escritura) returns (salida: Salida<Excepcion>)
      requires Valid() && productos == []
      modifies this`cargaOk, this`mensajeCarga, this`disco
      ensures Valid() && !cargaOk && mensajeCarga == MSG_NO_ENCONTRADO
      ensures escritura.Escrita? ==> salida.Normal? && disco == Conocido(Lista([]))
      ensures !escritura.Escrita? ==> salida == Lanza(ErrorEscritura(escritura)) && disco == Desconocido
    {
      cargaOk := false;
      mensajeCarga := MSG_NO_ENCONTRADO;
      if escritura.Escrita? {
        disco := Conocido(Lista([]));
        salida := Normal;
      } else {
        disco := Desconocido;
        salida := Lanza(ErrorEscritura(escritura));
      }
    }

    /**
     * `_cargar_desde_archivo`, called once from `__init__` on the empty list.
     * `primera` and `segunda` are the outcomes of the first and second write the
     * load attempts, `copiaOk` that of the backup copy, `marca` the time of the backup.
     */
    method CargarDesdeArchivo(archivo: Archivo, primera: Escritura, segunda: Escritura, copiaOk: bool, marca: string)
      returns (salida: Salida<Excepcion>)
      requires Valid() && productos == []
      requires EsMarcaDeTiempo(marca)
      modifies this`productos, this`Contents, this`cargaOk, this`mensajeCarga, this`disco, this`respaldos
      ensures Valid()
      ensures salida == (match ExcepcionDeCarga(archivo, primera, segunda) case None => Normal case Some(e) => Lanza(e))
      ensures forall p :: p in productos ==> fresh(p)
      ensures !archivo.Lista? ==> Contents == []
      ensures !(archivo.NoJson? || archivo.NoLista?) ==> respaldos == old(respaldos)
      // absent file: created with an empty list
      ensures archivo.Ausente? && primera.Escrita? ==>
        cargaOk && mensajeCarga == MSG_CREADO && disco == Conocido(Lista([]))
      // the file vanished, or the directory for it does not exist: recreated with an empty list
      ensures archivo.Desaparecido? || (archivo.Ausente? && primera.NoEncontrado?) ==>
        var escritura := if archivo.Ausente? then segunda else primera;
        && !cargaOk && mensajeCarga == MSG_NO_ENCONTRADO
        && (escritura.Escrita? ==> disco == Conocido(Lista([])))
      // reading (or creating) is forbidden: empty, failed, and no rewrite
      ensures archivo.SinPermisoLectura? || (archivo.Ausente? && primera.PermisoDenegado?) ==>
        && !cargaOk && mensajeCarga == MSG_PERMISO_LECTURA
        && (archivo.SinPermisoLectura? ==> disco == Conocido(archivo))
      // blank file: an empty inventory loaded successfully
      ensures archivo.EnBlanco? ==> cargaOk && mensajeCarga == MSG_VACIO && disco == Conocido(archivo)
      // corrupt file: backed up, reset to an empty list, failed status
      ensures archivo.NoJson? || archivo.NoLista? ==>
        && !cargaOk
        && respaldos == (if copiaOk then old(respaldos)[NombreRespaldo(ruta, marca) := archivo] else old(respaldos))
        && (primera.Escrita? ==> mensajeCarga == MSG_CORRUPTO && disco == Conocido(Lista([])))
      // a JSON list: the records in file order
      ensures archivo.Lista? && CargarElementos(archivo.elementos).Success? ==>
        && cargaOk && mensajeCarga == MSG_CARGADO && disco == Conocido(archivo)
        && Contents == CargarElementos(archivo.elementos).value
    {
      disco := Conocido(archivo);
      match archivo
      case Ausente =>
        salida := TrasAusente(primera, segunda);
      case Desaparecido =>
        productos, Contents := [], [];
        salida := TrasNoEncontrado(primera);
      case SinPermisoLectura =>
        productos, Contents := [], [];
        cargaOk := false;
        mensajeCarga := MSG_PERMISO_LECTURA;
        salida := Normal;
      case IlegibleOS =>
        salida := Lanza(ErrorLectura);
      case EnBlanco =>
        productos, Contents := [], [];
        cargaOk := true;
        mensajeCarga := MSG_VACIO;
        salida := Normal;
      case NoJson =>
        salida := TrasCorrupto(archivo, primera, copiaOk, marca);
      case NoLista =>
        salida := TrasCorrupto(archivo, primera, copiaOk, marca);
      case Lista(items) =>
        salida := TrasLista(items);
    }

    /** The JSON-list branch of the load: every element becomes a Producto, or the first bad one raises. */
    method TrasLista(items: seq<Elemento>) returns (salida: Salida<Excepcion>)
      requires Valid() && productos == []
      modifies this`productos, this`Contents, this`cargaOk, this`mensajeCarga
      ensures Valid() && forall p :: p in productos ==> fresh(p)
      ensures CargarElementos(items).Failure? ==>
        salida == Lanza(ErrorDeDict(CargarElementos(items).error)) && Contents == [] && cargaOk == old(cargaOk)
      ensures CargarElementos(items).Success? ==>
        && salida.Normal? && cargaOk && mensajeCarga == MSG_CARGADO
        && Contents == CargarElementos(items).value
    {
      var convertidos := ConvertirElementos(items);
      if convertidos.Failure? {
        return Lanza(ErrorDeDict(convertidos.error));
      }
      productos := convertidos.value;
      Contents := CargarElementos(items).value;
      cargaOk := true;
      mensajeCarga := MSG_CARGADO;
      salida := Normal;
    }

    /** The `except (JSONDecodeError, ValueError)` branch: back up, reset to `[]`, report corruption. */
    method TrasCorrupto(archivo: Archivo, escritura: Escritura, copiaOk: bool, marca: string)
      returns (salida: Salida<Excepcion>)
      requires Valid() && productos == []
      modifies this`cargaOk, this`mensajeCarga, this`disco, this`respaldos
      ensures Valid() && !cargaOk
      ensures respaldos == (if copiaOk then old(respaldos)[NombreRespaldo(ruta, marca) := archivo] else old(respaldos))
      ensures escritura.Escrita? ==> salida.Normal? && mensajeCarga == MSG_CORRUPTO && disco == Conocido(Lista([]))
      ensures !escritura.Escrita? ==> salida == Lanza(ErrorEscritura(escritura)) && disco == Desconocido
    {
      cargaOk := false;
      RespaldarArchivoCorrupto(archivo, marca, copiaOk);
      if !escritura.Escrita? {
        disco := Desconocido;
        return Lanza(ErrorEscritura(escritura));
      }
      disco := Conocido(Lista([]));
      mensajeCarga := MSG_CORRUPTO;
      salida := Normal;
    }
  }

  /**
   * `Inventario(ruta)`: the field settings of `__init__` followed by the load.
   * When the load raises, so does the construction, and no inventory exists.
   */
  method Crear(ruta: string, archivo: Archivo, primera: Escritura, segunda: Escritura, copiaOk: bool, marca: string)
    returns (r: Result<Inventario, Excepcion>)
    requires EsMarcaDeTiempo(marca)
    ensures r.Failure? <==> ExcepcionDeCarga(archivo, primera, segunda).Some?
    ensures r.Failure? ==> r.error == ExcepcionDeCarga(archivo, primera, segunda).value
    ensures r.Success? ==>
      && fresh(r.value) && r.value.Valid() && r.value.ruta == ruta
      && (forall p :: p in r.value.productos ==> fresh(p))
      && r.value.Contents == (if archivo.Lista? then CargarElementos(archivo.elementos).value else [])
      && r.value.respaldos == (if (archivo.NoJson? || archivo.NoLista?) && copiaOk then map[NombreRespaldo(ruta, marca) := archivo] else map[])
    // absent file: created with an empty list
    ensures r.Success? && archivo.Ausente? && primera.Escrita? ==>
      r.value.cargaOk && r.value.mensajeCarga == MSG_CREADO && r.value.disco == Conocido(Lista([]))
    // the file vanished, or its directory is missing: recreated with an empty list, failed status
    ensures r.Success? && (archivo.Desaparecido? || (archivo.Ausente? && primera.NoEncontrado?)) ==>
      !r.value.cargaOk && r.value.mensajeCarga == MSG_NO_ENCONTRADO && r.value.disco == Conocido(Lista([]))
    // reading (or creating) is forbidden: empty, failed status, no rewrite
    ensures r.Success? && (archivo.SinPermisoLectura? || (archivo.Ausente? && primera.PermisoDenegado?)) ==>
      && !r.value.cargaOk && r.value.mensajeCarga == MSG_PERMISO_LECTURA
      && (archivo.SinPermisoLectura? ==> r.value.disco == Conocido(archivo))
    // blank file: an empty inventory loaded successfully
    ensures r.Success? && archivo.EnBlanco? ==>
      r.value.cargaOk && r.value.mensajeCarga == MSG_VACIO && r.value.disco == Conocido(archivo)
    // corrupt file: backed up when the copy succeeds, reset to an empty list, failed status
    ensures r.Success? && (archivo.NoJson? || archivo.NoLista?) ==>
      !r.value.cargaOk && r.value.mensajeCarga == MSG_CORRUPTO && r.value.disco == Conocido(Lista([]))
    // a JSON list: the records in file order
    ensures r.Success? && archivo.Lista? ==>
      r.value.cargaOk && r.value.mensajeCarga == MSG_CARGADO && r.value.disco == Conocido(archivo)
  {
    var inventario := new Inventario(ruta);
    var salida := inventario.CargarDesdeArchivo(archivo, primera, segunda, copiaOk, marca);
    if salida.Lanza? {
      return Failure(salida.excepcion);
    }
    return Success(inventario);
  }
}
