# Inventories, bank accounts and animals, modelled in Dafny

This project models the stateful parts of a set of Python object-oriented
coursework exercises and proves properties of the model.

- **The persistent inventory** (`semana_10/producto.py`, `semana_10/inventario.py`).
  - A `Producto` class has four fields and setters. It converts to and from the JSON object stored for it.
  - An `Inventario` class keeps an ordered list of `Producto` objects in step with a JSON file that is rewritten whole after every change.
  - The load at construction handles each condition of the backing file: absent, blank, a list, not a list, not JSON, unreadable, or vanished.
  - Add, remove and update persist the list. When the persist fails, they roll the in-memory list back.
  - Search by name is case-insensitive on the stripped query.
- **The in-memory twin** (`semana_9/producto.py`, `semana_9/inventario.py`): the same operations with boolean results and no file.
- **Two bank accounts**:
  - `semana_2/encapsulacion/cuenta_bancaria.py`: a private balance with a read-only property;
  - `semana_4/EjemplosMundoReal_POO/ejemplo_banco.py`: accounts with guarded deposits and withdrawals, and clients holding a list of accounts.
- **The animals** of `semana_6/main.py`:
  - energy kept in [0, 100] by `comer`, `jugar` and `dormir`;
  - validating setters for name and age;
  - the three subclasses `Perro`, `Gato` and `Pajaro`, with their sounds.

## Layout

| file | module | models |
|---|---|---|
| `base.dfy` | `Base` | Option, Result, the outcome of a call that may raise, `list.remove`, lists without repeated objects |
| `texto.dfy` | `Texto` | `str.strip()`, `str.lower()`, the substring test `q in s`, the name match of both searches |
| `registros.dfy` | `Registros` | the four fields of a product as a value; first index by id; uniqueness of ids; the name filter |
| `producto_persistente.dfy` | `ProductoPersistente` | `semana_10/producto.py` |
| `inventario_persistente.dfy` | `InventarioPersistente` | `semana_10/inventario.py` |
| `producto_simple.dfy` | `ProductoSimple` | `semana_9/producto.py` |
| `inventario_simple.dfy` | `InventarioSimple` | `semana_9/inventario.py` |
| `cuenta_encapsulada.dfy` | `CuentaEncapsulada` | `semana_2/encapsulacion/cuenta_bancaria.py` |
| `banco.dfy` | `Banco` | `semana_4/EjemplosMundoReal_POO/ejemplo_banco.py` |
| `animales.dfy` | `Animales` | `semana_6/main.py` |

### Modelling choices

**Two product classes.** `semana_9` and `semana_10` each define their own `Producto`. So `Corresponden`, `CorrespondenAlQuitar`, `Seleccionar` and `SeleccionarSigueAFiltrar` appear in both inventory modules with the same definitions, each over its own class.

**List state.** Each inventory is a class with the field `productos: seq<Producto>`, the product objects in list order, plus a ghost `Contents: seq<Registro>`.
- `Contents` holds the fields of each object, read together.
- `Valid()` ties the two lists together and says that no object appears twice.
- Every operation's contract states the new `productos` and `Contents` in terms of the old ones.

**The file system is abstract.**
- What the load finds at the path is the parameter `archivo: Archivo`.
- The outcome of each whole-file write is an `Escritura` parameter: written, FileNotFoundError, PermissionError, or another OSError with its text.
- The outcome of the backup copy (`copiaOk`) and its timestamp (`marca`) are parameters too.

**What the model knows of the file** is the ghost field `disco`:
- after a successful write it is the serialization of the records;
- after a failed write it is `Desconocido`. The write may have truncated the file, so nothing is claimed about its content.

**Exceptions.** A load that raises makes the construction raise. `Crear` models the construction (`__init__` and its load) and returns `Failure(excepcion)` in that case.

**Subclasses.** `Animal` records the subclass an object was built as, with that subclass's own attribute, in the `Clase` datatype. `Perro`, `Gato` and `Pajaro` are named constructors.

### Behaviours of the code worth knowing

The store guarantees less than a reader might assume:

- **Duplicate ids.** The load does not check for them (line 117), so the "at most one record per id" invariant holds only for inventories whose load produced unique ids. `CargaAdmiteIdsRepetidos` shows a file whose load yields two records with id 1. Add, remove and update preserve uniqueness (`old(IdsUnicos(Contents)) ==> IdsUnicos(Contents)`).
- **Failed remove.** A remove whose persist fails re-appends the record at the end (line 49). The list then holds the same records in a different order, not the list from before the call.
- **Writes during the load.** The writes the load makes in its `FileNotFoundError` and corrupt-file handlers (lines 127 and 141) are not guarded. If one of them fails, the construction raises instead of recovering.
- **Rejected stored objects.** A stored object that `from_dict` cannot read raises `KeyError` or `TypeError` out of the constructor (lines 117 and 121-144 catch neither). It is not reported as a failed load.
- **Memory and disk after a failed write.** After a failed write, memory is rolled back, but the file may not match it.

## Model

| member | source | states |
|---|---|---|
| Base.Quitar | semana_10/inventario.py:46 | `list.remove` takes out exactly one element |
| Base.QuitarEnIndice | semana_9/inventario.py:27 | `remove(x)` is the cut at the first index holding `x`: the elements before and after keep their order |
| Base.QuitarMismosElementos | semana_10/inventario.py:46 | `remove(x)` takes out one copy of `x` and keeps every other element (multiset) |
| Base.AlFinalMismosElementos | semana_10/inventario.py:46-49 | removing an element and re-appending it keeps the same multiset of elements |
| Base.EnPosicionesDistintas | semana_9/inventario.py:15-20 | in a list without repeats, two different positions hold different elements |
| Base.DistintosAlAnexar | semana_9/inventario.py:19 | appending an element not in the list keeps it free of repeats |
| Base.DistintosAlQuitar | semana_9/inventario.py:27 | cutting one position out keeps the list free of repeats |
| Texto.MinusculaChar | semana_10/inventario.py:75 | one character lowered: a capital of Basic Latin or Latin-1 becomes the character 32 code points higher, the rest are unchanged, and no result is a capital |
| Texto.Minusculas | semana_10/inventario.py:75 | `lower()` keeps the length and lowers each character in place |
| Texto.MinusculasIdempotente | semana_10/inventario.py:79 | lowering twice is lowering once |
| Texto.QuitarIniciales | semana_10/inventario.py:75 | the result is a suffix of the input; what was dropped is all whitespace; the result does not start with whitespace |
| Texto.QuitarFinales | semana_10/inventario.py:75 | the result is a prefix of the input; what was dropped is all whitespace; the result does not end with whitespace |
| Texto.Recortar | semana_10/inventario.py:75 | `strip()` gives a slice of the input with only whitespace around it, and a non-empty result neither starts nor ends with whitespace |
| Texto.RecortarIdempotente | semana_10/inventario.py:75 | stripping twice is stripping once |
| Texto.MinusculaConservaEspacio | semana_10/inventario.py:75 | lowering neither creates nor removes whitespace |
| Texto.QuitarInicialesMinusculas | semana_10/inventario.py:75 | dropping leading whitespace commutes with lowering |
| Texto.QuitarFinalesMinusculas | semana_10/inventario.py:75 | dropping trailing whitespace commutes with lowering |
| Texto.RecortarMinusculas | semana_10/inventario.py:75 | `s.strip().lower() == s.lower().strip()` |
| Texto.Contiene | semana_10/inventario.py:79 | `p in t` fails when `p` is longer than `t`, and for equal lengths holds exactly when `p == t` |
| Texto.ContieneSiAparece | semana_10/inventario.py:79 | the scan `p in t` is true exactly when `p` occurs at some position of `t` (both directions) |
| Texto.MinusculasEnPosicion | semana_10/inventario.py:79 | an occurrence of the query in the name survives lowering both |
| Texto.ContieneVacio | semana_10/inventario.py:79 | the empty query occurs in every name |
| Texto.NombreSinMayusculas | semana_10/inventario.py:79 | the case of the name does not change whether it matches |
| Texto.ConsultaSinMayusculas | semana_10/inventario.py:75 | the case of the query does not change whether it matches |
| Texto.ConsultaSinBordes | semana_10/inventario.py:75 | blanks around the query do not change whether it matches |
| Texto.ConsultaEnBlancoCoincideSiempre | semana_10/inventario.py:75-80 | a query that is blank after stripping matches every name |
| Texto.NombreCoincide | semana_10/inventario.py:75-79 | the match test of both searches; a stripped query longer than the name never matches |
| Texto.EjemploLap | semana_10/inventario.py:73-80 | each of "lap" and " lap " matches both "Lapiz" and "LAPTOP"; "lap" does not match "Borrador" |
| Registros.IndiceDeId | semana_10/inventario.py:86-91 | None exactly when no record has the id; otherwise a position holding the id with no earlier position holding it |
| Registros.IdsEnPosiciones | semana_10/inventario.py:32-34 | with unique ids, two different positions hold different ids |
| Registros.UnicoConEseId | semana_10/inventario.py:86-91 | with unique ids, the record found by id is the only one holding it |
| Registros.UnicosAlAgregar | semana_10/inventario.py:32-34 | appending a record whose id is absent keeps ids unique |
| Registros.UnicosAlQuitar | semana_10/inventario.py:46-49 | removing a record keeps ids unique, and so does re-appending it at the end |
| Registros.SinIdTrasQuitar | semana_10/inventario.py:43-46 | with unique ids, no record has the id after its record is removed |
| Registros.Actualizado | semana_10/inventario.py:61-64 | each field given is replaced and each one absent is kept; id and nombre never change |
| Registros.UnicosAlActualizar | semana_10/inventario.py:53-64 | an update keeps ids unique |
| Registros.Filtrar | semana_10/inventario.py:76-80 | every record of the result is in the list and its name matches the query |
| Registros.FiltrarConcatenacion | semana_10/inventario.py:76-80 | filtering a concatenation filters each part, keeping their order |
| Registros.FiltrarPertenencia | semana_10/inventario.py:76-80 | a record is in the result exactly when it is in the list and its name matches |
| Registros.FiltrarSinCoincidencias | semana_10/inventario.py:76-80 | the result is never longer than the list, and it is empty when no name matches |
| Registros.FiltrarConsultaEnBlanco | semana_10/inventario.py:75-80 | a blank query returns the whole list |
| ProductoPersistente.ADict | semana_10/producto.py:48-55 | `to_dict` has exactly the keys id, nombre, cantidad, precio, each mapped to its field |
| ProductoPersistente.FromDict | semana_10/producto.py:57-65 | a non-object fails; success exactly when the four keys are present with values of the field types, then the record holds those values; a missing key fails naming a missing key of the four |
| ProductoPersistente.DesdeDictDeADict | semana_10/producto.py:48-65 | `from_dict(to_dict(r)) == r` |
| ProductoPersistente.ExtrasIgnorados | semana_10/producto.py:57-65 | keys other than the four do not change the result |
| ProductoPersistente.PrimeraClaveFaltante | semana_10/producto.py:60-65 | with keys missing, the failure names the first missing key in the order id, nombre, cantidad, precio |
| ProductoPersistente.Producto.constructor | semana_10/producto.py:9-14 | the four arguments are stored, and each getter returns its own |
| ProductoPersistente.Producto.SetId | semana_10/producto.py:20-22 | only the id changes |
| ProductoPersistente.Producto.SetNombre | semana_10/producto.py:28-30 | only the nombre changes |
| ProductoPersistente.Producto.SetCantidad | semana_10/producto.py:36-38 | only the cantidad changes |
| ProductoPersistente.Producto.SetPrecio | semana_10/producto.py:44-46 | only the precio changes |
| ProductoPersistente.Producto.ToDict | semana_10/producto.py:48-55 | exactly the four keys mapped to the current fields, and `from_dict` of it gives back the fields |
| InventarioPersistente.Serializar | semana_10/inventario.py:149 | the written list has one element per record |
| InventarioPersistente.SerializarEnPosicion | semana_10/inventario.py:149 | element `i` of the written list is the `to_dict` object of record `i` |
| InventarioPersistente.CargarElementos | semana_10/inventario.py:117 | success exactly when every element converts; then one record per element, in file order, pointwise equal to `from_dict` |
| InventarioPersistente.CargaDeSerializacion | semana_10/inventario.py:113-152 | loading what a persist wrote gives back the same records in the same order |
| InventarioPersistente.FalloDePrefijo | semana_10/inventario.py:117 | once a prefix fails to convert, the whole list fails with the same error |
| InventarioPersistente.CargaAdmiteIdsRepetidos | semana_10/inventario.py:117 | a file whose two objects share an id loads, with ids not unique |
| InventarioPersistente.ResultadoGuardado | semana_10/inventario.py:146-158 | success exactly when the write succeeds; FileNotFoundError, PermissionError and other OSErrors each give their own message, the last one followed by the error's text |
| InventarioPersistente.NombreRespaldo | semana_10/inventario.py:169-170 | the backup path is the path, then `.corrupto_`, then the timestamp |
| InventarioPersistente.RespaldosDelMismoSegundo | semana_10/inventario.py:169-172 | two backups of one file collide exactly when their timestamps are equal |
| InventarioPersistente.CargarUnoMas | semana_10/inventario.py:117 | the comprehension over one more element converts the earlier ones, then that element, stopping at the first failure |
| InventarioPersistente.ExcepcionDeCarga | semana_10/inventario.py:93-144 | with every write succeeding, the load raises exactly on an unreadable file or a list element `from_dict` rejects; a read permission error and a blank file never raise; a failing write in the not-found or corrupt-file handler, or a first write failing with another OSError, raises that write's error |
| InventarioPersistente.Seleccionar | semana_10/inventario.py:76-80 | the selected objects all come from the list |
| InventarioPersistente.SeleccionarSigueAFiltrar | semana_10/inventario.py:76-80 | selecting objects by name gives, in order, the objects of the filtered records |
| InventarioPersistente.ConvertirElementos | semana_10/inventario.py:117 | the comprehension succeeds exactly when the load of the values does, with the same error otherwise; on success, new distinct objects holding the loaded records in order |
| InventarioPersistente.Inventario.constructor | semana_10/inventario.py:16-23 | path stored, empty list, status `(True, "Inventario listo para usar.")` before the load |
| InventarioPersistente.Inventario.ObtenerEstadoCarga | semana_10/inventario.py:26-28 | the flag and message left by the load |
| InventarioPersistente.Inventario.BuscarPorId | semana_10/inventario.py:86-91 | null exactly when no record has the id, otherwise the object at the first position holding it |
| InventarioPersistente.Inventario.GuardarEnArchivo | semana_10/inventario.py:146-158 | the answer for the write's outcome; after success the file holds the serialization of the list; the list is untouched |
| InventarioPersistente.Inventario.AnexarYGuardar | semana_10/inventario.py:34-38 | after a successful persist, the list is the old list plus the product; after a failed one, the old list and an unknown file |
| InventarioPersistente.Inventario.AgregarProducto | semana_10/inventario.py:30-39 | a present id is refused with no change and no write; otherwise append and persist, or the old list again and the persist's message; ids stay unique |
| InventarioPersistente.Inventario.Anexar | semana_10/inventario.py:49 | `append` of an object not in the list: list and records grow by it at the end |
| InventarioPersistente.Inventario.QuitarEnPosicion | semana_10/inventario.py:46 | `remove` cuts the object's position out of the list and the records, after which the object is gone |
| InventarioPersistente.Inventario.QuitarYGuardar | semana_10/inventario.py:46-50 | after a successful persist, the list without the position; after a failed one, the list without it followed by it at the end |
| InventarioPersistente.Inventario.EliminarProducto | semana_10/inventario.py:41-51 | an unknown id fails with no change; otherwise the first record with the id is cut out and persisted, or re-appended at the end when the persist fails; ids stay unique, and with unique ids the id is gone |
| InventarioPersistente.Inventario.CambiarEnPosicion | semana_10/inventario.py:61-64 | the setter calls change only the record at that position, as `Actualizado` says |
| InventarioPersistente.Inventario.ActualizarProducto | semana_10/inventario.py:53-71 | an unknown id fails with no change; otherwise the given fields change and are persisted, or the previous cantidad and precio are restored when the persist fails; ids stay unique |
| InventarioPersistente.Inventario.BuscarPorNombre | semana_10/inventario.py:73-80 | the stored objects selected by name, in list order, whose values are exactly the filtered records |
| InventarioPersistente.Inventario.MostrarTodos | semana_10/inventario.py:82-84 | a copy of the list of stored objects, whose values are the records in insertion order |
| InventarioPersistente.Inventario.RespaldarArchivoCorrupto | semana_10/inventario.py:165-174 | a successful copy adds the file's content under the backup path; a failed one changes nothing |
| InventarioPersistente.Inventario.TrasAusente | semana_10/inventario.py:96-101 | an absent file is written as `[]` and reported as created; a failing write is handled by its exception's branch or raises |
| InventarioPersistente.Inventario.TrasNoEncontrado | semana_10/inventario.py:121-127 | empty list, failed status with the "not found" message, and a write of `[]` that raises when it fails |
| InventarioPersistente.Inventario.TrasLista | semana_10/inventario.py:113-119 | every element becomes a new product in file order and the load succeeds, or the first rejected element raises |
| InventarioPersistente.Inventario.TrasCorrupto | semana_10/inventario.py:135-144 | failed status, a best-effort backup, then `[]` written with the corruption message, or a raise when that write fails |
| InventarioPersistente.Inventario.CargarDesdeArchivo | semana_10/inventario.py:93-144 | for each file condition, the list, the status flag and message, the backups and what is known of the file; it raises exactly as `ExcepcionDeCarga` says |
| InventarioPersistente.Crear | semana_10/inventario.py:16-24 | construction fails exactly when the load raises; otherwise a new valid inventory whose records are those the file's list loads to (none for the other conditions), with per file condition the status flag and message, the known file (`[]` after creation or reset) and the backup of a corrupt file; the loaded products are new objects |
| ProductoSimple.Producto.constructor | semana_9/producto.py:9-14 | the four arguments are stored, and each getter returns its own |
| ProductoSimple.Producto.SetId | semana_9/producto.py:21-23 | only the id changes |
| ProductoSimple.Producto.SetNombre | semana_9/producto.py:30-32 | only the nombre changes |
| ProductoSimple.Producto.SetCantidad | semana_9/producto.py:39-41 | only the cantidad changes |
| ProductoSimple.Producto.SetPrecio | semana_9/producto.py:48-50 | only the precio changes |
| InventarioSimple.CorrespondenAlQuitar | semana_9/inventario.py:27 | cutting one position out of the objects and of their records keeps the two lists in step |
| InventarioSimple.Seleccionar | semana_9/inventario.py:41-48 | the selected objects all come from the list |
| InventarioSimple.SeleccionarSigueAFiltrar | semana_9/inventario.py:41-48 | selecting objects by name gives, in order, the objects of the filtered records |
| InventarioSimple.Inventario.constructor | semana_9/inventario.py:11-13 | a new inventory is empty |
| InventarioSimple.Inventario.BuscarPorId | semana_9/inventario.py:54-59 | null exactly when no record has the id, otherwise the object at the first position holding it |
| InventarioSimple.Inventario.AgregarProducto | semana_9/inventario.py:15-20 | true exactly when the id is absent, and then the product is appended; otherwise nothing changes; ids stay unique |
| InventarioSimple.Inventario.EliminarProducto | semana_9/inventario.py:22-28 | true exactly when the id is present, and then its first record is cut out with the rest in order; otherwise nothing changes; ids stay unique and the id is gone |
| InventarioSimple.Inventario.ActualizarProducto | semana_9/inventario.py:30-39 | true exactly when the id is present, even with nothing to set; only the given fields of that record change |
| InventarioSimple.Inventario.CambiarEnPosicion | semana_9/inventario.py:35-38 | the setter calls change only the record at that position, as `Actualizado` says |
| InventarioSimple.Inventario.BuscarPorNombre | semana_9/inventario.py:41-48 | the loop returns the selection, which holds exactly the filtered records in list order |
| InventarioSimple.Inventario.MostrarTodos | semana_9/inventario.py:50-52 | a copy of the list of stored objects, whose values are the records in insertion order |
| CuentaEncapsulada.CuentaBancaria.Saldo | semana_2/encapsulacion/cuenta_bancaria.py:22-31 | the read-only `saldo` property never reports a negative balance |
| CuentaEncapsulada.CuentaBancaria.constructor | semana_2/encapsulacion/cuenta_bancaria.py:13-20 | a new account has balance 0 |
| CuentaEncapsulada.CuentaBancaria.Depositar | semana_2/encapsulacion/cuenta_bancaria.py:33-46 | a positive amount is added, any other leaves the balance alone, and the balance stays non-negative |
| CuentaEncapsulada.CuentaBancaria.Retirar | semana_2/encapsulacion/cuenta_bancaria.py:48-65 | true and subtracted exactly when `0 < monto <= saldo`, otherwise false and unchanged, and the balance stays non-negative |
| Banco.CuentaBancaria.constructor | semana_4/EjemplosMundoReal_POO/ejemplo_banco.py:20-25 | holder and number stored, balance 0.0 |
| Banco.CuentaBancaria.Depositar | semana_4/EjemplosMundoReal_POO/ejemplo_banco.py:27-40 | None and amounts not above zero are rejected with no change; other amounts are added; the balance stays non-negative |
| Banco.CuentaBancaria.Retirar | semana_4/EjemplosMundoReal_POO/ejemplo_banco.py:42-58 | None, amounts not above zero and amounts above the balance are rejected with no change; others are subtracted; withdrawing the whole balance leaves 0 |
| Banco.Cliente.constructor | semana_4/EjemplosMundoReal_POO/ejemplo_banco.py:76-81 | a new client has no accounts |
| Banco.Cliente.AgregarCuenta | semana_4/EjemplosMundoReal_POO/ejemplo_banco.py:83-92 | an account is appended at the end and the earlier ones stay; None is rejected |
| Animales.Natural | semana_6/main.py:86 | the digits of a number: at least one, no leading zero |
| Animales.LeerNatural | semana_6/main.py:86 | reading back the digits gives the number |
| Animales.Decimal | semana_6/main.py:86 | an int in an f-string: a minus sign exactly for negatives, then at least one decimal digit with no leading zero, reading back as the magnitude |
| Animales.Sonido | semana_6/main.py:76-81 | the plain Animal's fixed sound; a subclass's sound starts with the name and ends with "!" |
| Animales.SonidoIdentificaAnimal | semana_6/main.py:133-214 | two subclass objects make the same sound only when they have the same species and the same name |
| Animales.Animal.constructor | semana_6/main.py:27-58 | the arguments are stored and energy starts at 100, and each getter returns its own |
| Animales.Animal.Perro | semana_6/main.py:115-130 | an Animal of species "Perro" with energy 100, whose `get_raza` returns the breed it was given, and each getter returns its own |
| Animales.Animal.Gato | semana_6/main.py:153-168 | an Animal of species "Gato" with energy 100, whose `get_color_pelaje` returns the fur colour it was given, and each getter returns its own |
| Animales.Animal.Pajaro | semana_6/main.py:191-206 | an Animal of species "Pájaro" with energy 100, whose `puede_volar` returns the flag it was given, and each getter returns its own |
| Animales.Animal.SetNombre | semana_6/main.py:61-66 | only a non-empty string replaces the name; anything else leaves it |
| Animales.Animal.SetEdad | semana_6/main.py:68-73 | only an int of at least 0 (a bool counting as 0 or 1) replaces the age; anything else leaves it |
| Animales.Animal.Comer | semana_6/main.py:83-86 | energy becomes `min(100, e + 20)`, never drops and stays in [0, 100]; the message shows the new energy |
| Animales.Animal.Dormir | semana_6/main.py:88-91 | energy becomes 100; the fixed message with the name |
| Animales.Animal.Jugar | semana_6/main.py:93-96 | energy becomes `max(0, e - 15)`, never rises and stays in [0, 100]; the message shows the new energy |
| Animales.Animal.HacerSonido | semana_6/main.py:76-214 | a plain Animal makes the generic sound; a Perro, Gato or Pajaro says its own sound after its name |
| Animales.Animal.MostrarInfo | semana_6/main.py:98-100 | the whole info line: name, species, age with " años", and energy followed by `%`, each after its label |
| Animales.Animal.TraerPelota | semana_6/main.py:141-143 | the name followed by " corre feliz a traer la pelota" |
| Animales.Animal.Ronronear | semana_6/main.py:179-181 | the name followed by " ronronea contento" |
| Animales.Animal.Volar | semana_6/main.py:217-222 | a Pajaro that can fly says it flies high, one that cannot says it walks |

## Left out

- The real file system. `os.path.exists`, `open`, `read`, `json.loads`, `json.dump` (with its 4-space indentation and ASCII escaping), `shutil.copy2` and `time.strftime` are library calls. The file's condition, each write's outcome, the copy's outcome and the timestamp are parameters.
- The default path built from `__file__` (semana_10/inventario.py:18-19): the path is always a parameter.
- `_escribir_datos` (semana_10/inventario.py:160-163) is folded into the `Escritura` outcome of each write.
- The existence check before the backup (semana_10/inventario.py:167-168) is folded into `copiaOk`.
- ProductoPersistente.FromDict: Python's `from_dict` accepts values of any JSON type. The model types the fields (int id and cantidad, string nombre, number precio) and rejects other values with `TipoInesperado`, which makes the load raise. In Python such an object would load, and a later search or comparison could fail on it.
- ProductoPersistente.ComoReal: an integer price in the file stays an `int` in Python; the model reads it as the same real.
- Texto.MinusculaChar: it lowers only the capitals of Basic Latin and Latin-1, whereas Python's `str.lower()` covers all of Unicode. Some Unicode capitals lower to several characters, which the model does not capture.
- Floating point. Prices and balances are reals, so nothing is claimed about rounding.
- `print` output:
  - every message the bank and animal classes print;
  - `mostrar_saldo` and `mostrar_cuentas` in the semana_4 bank, which only print;
  - `hacer_sonar_animal`, `presentar_animal` and `main` in semana_6, which only print.
- Python's dynamic typing of constructor arguments:
  - `Animal`, `CuentaBancaria` and `Cliente` take typed arguments;
  - the isinstance check of `agregar_cuenta` rejects only None (no other non-account value can be passed).
- Animales.Animal.SetEdad: Python stores a bool age as the bool itself. The model stores it as 0 or 1, its value as an int, so its printed form ("True" rather than 1) is not modelled.
- The external assignment of the public `saldo` field in the semana_4 bank: the balance invariant holds when the balance changes only through `depositar` and `retirar`.
- Shared Producto objects. In Python both inventories hold the caller's objects: the caller keeps the object passed to `agregar_producto`, and `mostrar_todos` and `buscar_por_nombre` hand out the stored objects. A later `set_id`, `set_nombre`, `set_cantidad` or `set_precio` from outside changes what the inventory holds, and `set_id` can create repeated ids. The model does not follow such a change. `InventarioPersistente.Inventario.AgregarProducto`, `MostrarTodos` and `BuscarPorNombre`, and their `InventarioSimple` counterparts, are verified only for callers that change stored objects through the inventory. After any other change `Valid()` no longer holds, and no further call is verified.
- Concurrency and an external process changing the file are not modelled. The file vanishing between the check and the read is the `Desaparecido` condition.
