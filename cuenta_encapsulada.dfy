/**
 * The encapsulated bank account (semana_2/encapsulacion/cuenta_bancaria.py):
 * a private balance that starts at 0, is read through a property and changes
 * only through a guarded deposit and a guarded withdrawal.
 */
module CuentaEncapsulada {

  class CuentaBancaria {
    /** The private `__saldo`; a Python number, modelled as a real. */
    var saldoPrivado: real

    /** The balance the guards keep: it is never negative. */
    ghost predicate Valid()
      reads this
    {
      saldoPrivado >= 0.0
    }

    /** A new account holds nothing. */
    constructor ()
      ensures Valid() && Saldo() == 0.0
    {
      saldoPrivado := 0.0;
    }

    /** The read-only `saldo` property: it never reports a negative balance. */
    function Saldo(): (r: real)
      requires Valid()
      reads this
      ensures r >= 0.0
    {
      saldoPrivado
    }

    /** `depositar`: a positive amount is added; any other amount leaves the balance alone. */
    method Depositar(monto: real)
      requires Valid()
      modifies this
      ensures Valid()
      ensures monto > 0.0 ==> Saldo() == old(Saldo()) + monto
      ensures monto <= 0.0 ==> Saldo() == old(Saldo())
    {
      if monto > 0.0 {
        saldoPrivado := saldoPrivado + monto;
      }
    }

    /** `retirar`: succeeds and subtracts exactly when the amount is positive and covered by the balance. */
    method Retirar(monto: real) returns (exito: bool)
      requires Valid()
      modifies this
      ensures Valid()
      ensures exito <==> 0.0 < monto <= old(Saldo())
      ensures exito ==> Saldo() == old(Saldo()) - monto
      ensures !exito ==> Saldo() == old(Saldo())
    {
      if 0.0 < monto <= saldoPrivado {
        saldoPrivado := saldoPrivado - monto;
        return true;
      }
      return false;
    }
  }
}
