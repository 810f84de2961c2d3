/**
 * The product of the in-memory inventory (semana_9/producto.py): four fields
 * behind getters, each overwritten by its own setter.
 */
module ProductoSimple {
  import opened Registros

  class Producto {
    var id: int
    var nombre: string
    var cantidad: int
    var precio: real

    /** The four fields read together. */
    function Valor(): Registro
      reads this
    {
      Registro(id, nombre, cantidad, precio)
    }

    constructor (productoId: int, nombre: string, cantidad: int, precio: real)
      ensures Valor() == Registro(productoId, nombre, cantidad, precio)
      ensures GetId() == productoId && GetNombre() == nombre
      ensures GetCantidad() == cantidad && GetPrecio() == precio
    {
      this.id := productoId;
      this.nombre := nombre;
      this.cantidad := cantidad;
      this.precio := precio;
    }

    function GetId(): int reads this { id }
    function GetNombre(): string reads this { nombre }
    function GetCantidad(): int reads this { cantidad }
    function GetPrecio(): real reads this { precio }

    method SetId(productoId: int)
      modifies this
      ensures GetId() == productoId
      ensures Valor() == old(Valor()).(id := productoId)
    {
      id := productoId;
    }

    method SetNombre(nombre: string)
      modifies this
      ensures GetNombre() == nombre
      ensures Valor() == old(Valor()).(nombre := nombre)
    {
      this.nombre := nombre;
    }

    method SetCantidad(cantidad: int)
      modifies this
      ensures GetCantidad() == cantidad
      ensures Valor() == old(Valor()).(cantidad := cantidad)
    {
      this.cantidad := cantidad;
    }

    method SetPrecio(precio: real)
      modifies this
      ensures GetPrecio() == precio
      ensures Valor() == old(Valor()).(precio := precio)
    {
      this.precio := precio;
    }
  }
}
