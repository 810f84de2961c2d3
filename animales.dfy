/**
 * The animals of semana_6/main.py: an Animal whose energy starts at 100 and
 * is kept in [0, 100] by eating, sleeping and playing, whose name and age
 * setters validate the value they are given, and the three subclasses Perro,
 * Gato and Pajaro, each with its own species, attribute and sound.
 */
module Animales {

  /** A Python value handed to a setter; `bool` is a subclass of `int` in Python. */
  datatype ValorPy = Cadena(s: string) | Entero(i: int) | Booleano(b: bool) | OtroValor

  /** Which class the object was built as, with the attribute that class adds. */
  datatype Clase = Base | Perro(raza: string) | Gato(colorPelaje: string) | Pajaro(puedeVolar: bool)

  /** The digit character for 0..9. */
  function Digito(d: int): char
    requires 0 <= d < 10
  {
    ('0' as int + d) as char
  }

  /** The value of a digit character. */
  function ValorDigito(c: char): int
  {
    c as int - '0' as int
  }

  /** The decimal text of a natural number, without leading zeros. */
  function Natural(n: nat): (r: string)
    ensures |r| >= 1 && (|r| > 1 ==> r[0] != '0')
    ensures forall i :: 0 <= i < |r| ==> '0' <= r[i] <= '9'
  {
    if n < 10 then [Digito(n)] else Natural(n / 10) + [Digito(n % 10)]
  }

  /** The number written by a string of digits. */
  function Leer(s: string): int
  {
    if s == [] then 0 else 10 * Leer(s[..|s| - 1]) + ValorDigito(s[|s| - 1])
  }

  /** Reading back the decimal text of a number gives that number. */
  lemma {:induction false} LeerNatural(n: nat)
    ensures Leer(Natural(n)) == n
  {
    if n >= 10 {
      LeerNatural(n / 10);
      var s := Natural(n);
      assert s[..|s| - 1] == Natural(n / 10);
    }
  }

  /** How `str` writes an int in an f-string: a minus sign before negatives, then the digits. */
  function Decimal(n: int): (r: string)
    ensures |r| >= 1 && (r[0] == '-' <==> n < 0)
    ensures var d := if n < 0 then 1 else 0; |r| > d && (|r| > d + 1 ==> r[d] != '0')
    ensures forall i :: (if n < 0 then 1 else 0) <= i < |r| ==> '0' <= r[i] <= '9'
    ensures n < 0 ==> Leer(r[1..]) == -n
    ensures n >= 0 ==> Leer(r) == n
  {
    LeerNatural(if n < 0 then -n else n);
    if n < 0 then
      assert ("-" + Natural(-n))[1..] == Natural(-n);
      "-" + Natural(-n)
    else Natural(n)
  }

  /** The species each subclass passes to the Animal constructor. */
  function EspecieDe(c: Clase): string
    requires !c.Base?
  {
    match c
    case Perro(_) => "Perro"
    case Gato(_) => "Gato"
    case Pajaro(_) => "Pájaro"
  }

  /** What a subclass's `hacer_sonido` says after the name. */
  function Cola(c: Clase): string
    requires !c.Base?
  {
    match c
    case Perro(_) => " dice: ¡Guau guau!"
    case Gato(_) => " dice: ¡Miau miau!"
    case Pajaro(_) => " dice: ¡Pío pío!"
  }

  /** `hacer_sonido` for an object of class `clase` named `nombre`. */
  function Sonido(clase: Clase, nombre: string): (r: string)
    ensures clase.Base? ==> r == "El animal hace un sonido"
    ensures !clase.Base? ==> |r| > |nombre| && r[..|nombre|] == nombre && r[|r| - 1] == '!'
  {
    if clase.Base? then "El animal hace un sonido" else nombre + Cola(clase)
  }

  /**
   * Each override has its own sound: two subclass objects say the same only
   * when they have the same species and the same name.
   */
  lemma SonidoIdentificaAnimal(c1: Clase, n1: string, c2: Clase, n2: string)
    requires !c1.Base? && !c2.Base?
    ensures Sonido(c1, n1) == Sonido(c2, n2) ==> n1 == n2 && EspecieDe(c1) == EspecieDe(c2)
  {
  }

  class Animal {
    var nombre: string
    var edad: int
    const especie: string
    var energia: int
    const clase: Clase

    /** Energy stays a percentage. */
    ghost predicate Valid()
      reads this
    {
      0 <= energia <= 100
    }

    /** `Animal(nombre, edad, especie)`: the arguments are stored as given, with full energy. */
    constructor (nombre: string, edad: int, especie: string)
      ensures Valid() && energia == 100 && clase == Base
      ensures this.nombre == nombre && this.edad == edad && this.especie == especie
      ensures GetNombre() == nombre && GetEdad() == edad && GetEspecie() == especie && GetEnergia() == 100
    {
      this.nombre := nombre;
      this.edad := edad;
      this.especie := especie;
      energia := 100;
      clase := Base;
    }

    /** `Perro(nombre, edad, raza)`: an Animal of species "Perro" that keeps its breed. */
    constructor Perro(nombre: string, edad: int, raza: string)
      ensures Valid() && energia == 100 && clase == Clase.Perro(raza) && especie == EspecieDe(clase) == "Perro"
      ensures GetRaza() == raza
      ensures this.nombre == nombre && this.edad == edad
      ensures GetNombre() == nombre && GetEdad() == edad && GetEspecie() == "Perro" && GetEnergia() == 100
    {
      this.nombre := nombre;
      this.edad := edad;
      especie := "Perro";
      energia := 100;
      clase := Clase.Perro(raza);
    }

    /** `Gato(nombre, edad, color_pelaje)`: an Animal of species "Gato" that keeps its fur colour. */
    constructor Gato(nombre: string, edad: int, colorPelaje: string)
      ensures Valid() && energia == 100 && clase == Clase.Gato(colorPelaje) && especie == EspecieDe(clase) == "Gato"
      ensures GetColorPelaje() == colorPelaje
      ensures this.nombre == nombre && this.edad == edad
      ensures GetNombre() == nombre && GetEdad() == edad && GetEspecie() == "Gato" && GetEnergia() == 100
    {
      this.nombre := nombre;
      this.edad := edad;
      especie := "Gato";
      energia := 100;
      clase := Clase.Gato(colorPelaje);
    }

    /** `Pajaro(nombre, edad, puede_volar)`: an Animal of species "Pájaro" that knows whether it flies. */
    constructor Pajaro(nombre: string, edad: int, puedeVolar: bool)
      ensures Valid() && energia == 100 && clase == Clase.Pajaro(puedeVolar) && especie == EspecieDe(clase) == "Pájaro"
      ensures PuedeVolar() == puedeVolar
      ensures this.nombre == nombre && this.edad == edad
      ensures GetNombre() == nombre && GetEdad() == edad && GetEspecie() == "Pájaro" && GetEnergia() == 100
    {
      this.nombre := nombre;
      this.edad := edad;
      especie := "Pájaro";
      energia := 100;
      clase := Clase.Pajaro(puedeVolar);
    }

    function GetNombre(): string reads this { nombre }
    function GetEdad(): int reads this { edad }
    function GetEspecie(): string { especie }
    function GetEnergia(): int reads this { energia }

    function GetRaza(): string
      requires clase.Perro?
    {
      clase.raza
    }

    function GetColorPelaje(): string
      requires clase.Gato?
    {
      clase.colorPelaje
    }

    function PuedeVolar(): bool
      requires clase.Pajaro?
    {
      clase.puedeVolar
    }

    /** `set_nombre`: only a non-empty string replaces the name. */
    method SetNombre(nuevoNombre: ValorPy)
      modifies this`nombre
      ensures nuevoNombre.Cadena? && |nuevoNombre.s| > 0 ==> nombre == nuevoNombre.s
      ensures !(nuevoNombre.Cadena? && |nuevoNombre.s| > 0) ==> nombre == old(nombre)
    {
      if nuevoNombre.Cadena? && |nuevoNombre.s| > 0 {
        nombre := nuevoNombre.s;
      }
    }

    /**
     * `set_edad`: only an int of at least zero replaces the age; a bool passes
     * the int check and is stored as 0 or 1.
     */
    method SetEdad(nuevaEdad: ValorPy)
      modifies this`edad
      ensures nuevaEdad.Entero? && nuevaEdad.i >= 0 ==> edad == nuevaEdad.i
      ensures nuevaEdad.Booleano? ==> edad == (if nuevaEdad.b then 1 else 0)
      ensures nuevaEdad.Cadena? || nuevaEdad.OtroValor? || (nuevaEdad.Entero? && nuevaEdad.i < 0) ==> edad == old(edad)
      ensures edad >= 0 || edad == old(edad)
    {
      match nuevaEdad
      case Entero(i) =>
        if i >= 0 {
          edad := i;
        }
      case Booleano(b) =>
        edad := if b then 1 else 0;
      case _ =>
    }

    /** `hacer_sonido`: the generic sound for a plain Animal, the name followed by the class's own sound for a subclass. */
    function HacerSonido(): (r: string)
      reads this
      ensures clase.Base? ==> r == "El animal hace un sonido"
      ensures clase.Perro? ==> r == nombre + " dice: ¡Guau guau!"
      ensures clase.Gato? ==> r == nombre + " dice: ¡Miau miau!"
      ensures clase.Pajaro? ==> r == nombre + " dice: ¡Pío pío!"
    {
      Sonido(clase, nombre)
    }

    /** `comer`: twenty more points of energy, capped at 100. */
    method Comer() returns (mensaje: string)
      requires Valid()
      modifies this`energia
      ensures Valid()
      ensures energia == if old(energia) + 20 < 100 then old(energia) + 20 else 100
      ensures old(energia) <= energia
      ensures mensaje == nombre + " ha comido y ahora tiene " + Decimal(energia) + "% de energía"
    {
      energia := if energia + 20 < 100 then energia + 20 else 100;
      mensaje := nombre + " ha comido y ahora tiene " + Decimal(energia) + "% de energía";
    }

    /** `dormir`: energy back to 100. */
    method Dormir() returns (mensaje: string)
      requires Valid()
      modifies this`energia
      ensures Valid() && energia == 100
      ensures mensaje == nombre + " ha dormido y recuperó toda su energía"
    {
      energia := 100;
      mensaje := nombre + " ha dormido y recuperó toda su energía";
    }

    /** `jugar`: fifteen points of energy less, never below 0. */
    method Jugar() returns (mensaje: string)
      requires Valid()
      modifies this`energia
      ensures Valid()
      ensures energia == if old(energia) - 15 > 0 then old(energia) - 15 else 0
      ensures energia <= old(energia)
      ensures mensaje == nombre + " ha jugado y ahora tiene " + Decimal(energia) + "% de energía"
    {
      energia := if energia - 15 > 0 then energia - 15 else 0;
      mensaje := nombre + " ha jugado y ahora tiene " + Decimal(energia) + "% de energía";
    }

    /** `mostrar_info`: name, species, age and energy on one line. */
    function MostrarInfo(): (r: string)
      reads this
      ensures r == nombre + " | Especie: " + especie + " | Edad: " + Decimal(edad) + " años | Energía: " + Decimal(energia) + "%"
      ensures |r| > |nombre| + |Decimal(energia)|
      ensures r[..|nombre|] == nombre
      ensures r[|r| - 1 - |Decimal(energia)|..] == Decimal(energia) + "%"
    {
      var cabeza := nombre + " | Especie: " + especie + " | Edad: " + Decimal(edad) + " años | Energía: ";
      var cola := Decimal(energia) + "%";
      assert (cabeza + cola)[..|nombre|] == cabeza[..|nombre|];
      cabeza + cola
    }

    /** `traer_pelota`, which only a Perro has. */
    function TraerPelota(): (r: string)
      requires clase.Perro?
      reads this
      ensures |r| > |nombre| && r[..|nombre|] == nombre && r[|nombre|..] == " corre feliz a traer la pelota"
    {
      nombre + " corre feliz a traer la pelota"
    }

    /** `ronronear`, which only a Gato has. */
    function Ronronear(): (r: string)
      requires clase.Gato?
      reads this
      ensures |r| > |nombre| && r[..|nombre|] == nombre && r[|nombre|..] == " ronronea contento"
    {
      nombre + " ronronea contento"
    }

    /** `volar`, which only a Pajaro has: the message depends on whether it can fly. */
    function Volar(): (r: string)
      requires clase.Pajaro?
      reads this
      ensures clase.puedeVolar ==> r == nombre + " vuela alto en el cielo"
      ensures !clase.puedeVolar ==> r == nombre + " no puede volar, pero camina feliz"
    {
      if clase.puedeVolar then nombre + " vuela alto en el cielo"
      else nombre + " no puede volar, pero camina feliz"
    }
  }
}
