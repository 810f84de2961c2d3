/**
 * The bank of semana_4/EjemplosMundoReal_POO/ejemplo_banco.py: accounts
 * whose balance starts at 0.0 and changes only through deposits and
 * withdrawals that reject a missing, non-positive or uncovered amount, and
 * clients that collect accounts in a list.
 */
module Banco {
  import opened Base

  /** The account number: the source accepts a string or an integer. */
  datatype NumeroCuenta = NumeroTexto(texto: string) | NumeroEntero(numero: int)

  class CuentaBancaria {
    var titular: string
    var numeroCuenta: NumeroCuenta
    /** A Python float, modelled as a real. */
    var saldo: real

    /** Deposits and withdrawals keep the balance non-negative. */
    ghost predicate Valid()
      reads this
    {
      saldo >= 0.0
    }

    /** A new account stores its holder and number and starts empty. */
    constructor (titular: string, numeroCuenta: NumeroCuenta)
      ensures Valid() && saldo == 0.0
      ensures this.titular == titular && this.numeroCuenta == numeroCuenta
    {
      this.titular := titular;
      this.numeroCuenta := numeroCuenta;
      saldo := 0.0;
    }

    /**
     * `depositar`: a missing amount (None) or one not above zero is rejected
     * and leaves the balance alone; any other amount is added.
     */
    method Depositar(cantidad: Option<real>)
      requires Valid()
      modifies this`saldo
      ensures Valid()
      ensures cantidad.None? || cantidad.value <= 0.0 ==> saldo == old(saldo)
      ensures cantidad.Some? && cantidad.value > 0.0 ==> saldo == old(saldo) + cantidad.value
    {
      if cantidad.None? {
        return;
      }
      if cantidad.value <= 0.0 {
        return;
      }
      saldo := saldo + cantidad.value;
    }

    /**
     * `retirar`: a missing amount, one not above zero or one above the balance
     * is rejected; otherwise it is subtracted, so withdrawing the whole
     * balance leaves exactly zero.
     */
    method Retirar(cantidad: Option<real>)
      requires Valid()
      modifies this`saldo
      ensures Valid()
      ensures cantidad.None? || cantidad.value <= 0.0 || cantidad.value > old(saldo) ==> saldo == old(saldo)
      ensures cantidad.Some? && 0.0 < cantidad.value <= old(saldo) ==> saldo == old(saldo) - cantidad.value
      ensures cantidad == Some(old(saldo)) && old(saldo) > 0.0 ==> saldo == 0.0
    {
      if cantidad.None? {
        return;
      }
      if cantidad.value <= 0.0 {
        return;
      }
      if cantidad.value > saldo {
        return;
      }
      saldo := saldo - cantidad.value;
    }
  }

  class Cliente {
    var nombre: string
    var edad: int
    var cuentas: seq<CuentaBancaria>

    /** A new client has no accounts. */
    constructor (nombre: string, edad: int)
      ensures this.nombre == nombre && this.edad == edad && cuentas == []
    {
      this.nombre := nombre;
      this.edad := edad;
      cuentas := [];
    }

    /**
     * `agregar_cuenta`: an account goes to the end of the list and the earlier
     * ones stay; anything that is not an account (here: None) is rejected.
     */
    method AgregarCuenta(cuenta: CuentaBancaria?)
      modifies this`cuentas
      ensures cuenta != null ==> cuentas == old(cuentas) + [cuenta]
      ensures cuenta == null ==> cuentas == old(cuentas)
      ensures |cuentas| >= |old(cuentas)| && cuentas[..|old(cuentas)|] == old(cuentas)
    {
      if cuenta == null {
        return;
      }
      cuentas := cuentas + [cuenta];
    }
  }
}
