/**
 * The balance calculator (`SaldoCalculatorUtil`): a user's balance is the
 * sum of their incomes minus the sum of their expenses, with the type
 * compared after lower-casing and any other type counting nothing.
 */
module Saldo {
  import opened Wrappers
  import opened Text
  import opened ListOps
  import opened Dto

  const TipoIngreso: string := "ingreso"
  const TipoGasto: string := "gasto"

  predicate EsIngreso(t: Transaccion) { Lowercase(t.tipo) == TipoIngreso }
  predicate EsGasto(t: Transaccion) { Lowercase(t.tipo) == TipoGasto }

  function Monto(t: Transaccion): real { t.monto }

  /** What one transaction adds to the balance. */
  function Contribucion(t: Transaccion): (r: real)
    ensures EsIngreso(t) ==> r == t.monto
    ensures EsGasto(t) ==> r == -t.monto
    ensures !EsIngreso(t) && !EsGasto(t) ==> r == 0.0
  {
    var tipo := Lowercase(t.tipo);
    if tipo == TipoIngreso then t.monto
    else if tipo == TipoGasto then -t.monto
    else 0.0
  }

  /** The `sumOf` both functions compute. */
  function SaldoCalculado(ts: seq<Transaccion>): real {
    SumOf(ts, Contribucion)
  }

  /** The balance is the total of the incomes minus the total of the expenses. */
  lemma {:induction false} SaldoIsIngresosMinusGastos(ts: seq<Transaccion>)
    ensures SaldoCalculado(ts) == SumOf(Filter(ts, EsIngreso), Monto) - SumOf(Filter(ts, EsGasto), Monto)
  {
    if ts != [] {
      SaldoIsIngresosMinusGastos(ts[1..]);
      var t := ts[0];
      var ing := if EsIngreso(t) then [t] else [];
      var gas := if EsGasto(t) then [t] else [];
      assert Filter(ts, EsIngreso) == ing + Filter(ts[1..], EsIngreso);
      assert Filter(ts, EsGasto) == gas + Filter(ts[1..], EsGasto);
      SumOfConcat(ing, Filter(ts[1..], EsIngreso), Monto);
      SumOfConcat(gas, Filter(ts[1..], EsGasto), Monto);
      assert SumOf(ing, Monto) == (if EsIngreso(t) then t.monto else 0.0);
      assert SumOf(gas, Monto) == (if EsGasto(t) then t.monto else 0.0);
    }
  }

  /** The balance of two lists put together is the sum of their balances. */
  lemma SaldoConcat(a: seq<Transaccion>, b: seq<Transaccion>)
    ensures SaldoCalculado(a + b) == SaldoCalculado(a) + SaldoCalculado(b)
  {
    SumOfConcat(a, b, Contribucion);
  }

  /** The type is compared ignoring ASCII case: "Ingreso" and "INGRESO" both add. */
  lemma TipoIgnoresCase(t: Transaccion)
    requires t.tipo == "INGRESO"
    ensures Contribucion(t) == t.monto
  {
    assert Lowercase(t.tipo) == TipoIngreso;
  }

  /** What `actualizarSaldoUsuario` returns and the user it sent to `updateUsuario`, if it got that far. */
  datatype Actualizacion = Actualizacion(resultado: Option<Usuario>, enviado: Option<Usuario>)

  /**
   * `actualizarSaldoUsuario`, given the outcome of the three calls. The
   * fetched user goes back with only its balance replaced; any exception
   * makes the result null.
   */
  function ActualizarSaldoUsuario(transacciones: Attempt<seq<Transaccion>>, actual: Attempt<Usuario>,
                                  guardado: Attempt<Usuario>): (r: Actualizacion)
    ensures r.enviado.Some? <==> transacciones.Done? && actual.Done?
    ensures r.enviado.Some? ==> r.enviado.value == actual.value.(saldoTotal := SaldoCalculado(transacciones.value))
    ensures r.resultado.Some? <==> transacciones.Done? && actual.Done? && guardado.Done?
    ensures r.resultado.Some? ==> r.resultado.value == guardado.value
  {
    match transacciones
    case Thrown(_) => Actualizacion(None, None)
    case Done(ts) =>
      match actual
      case Thrown(_) => Actualizacion(None, None)
      case Done(u) =>
        var usuarioActualizado := u.(saldoTotal := SaldoCalculado(ts));
        match guardado
        case Thrown(_) => Actualizacion(None, Some(usuarioActualizado))
        case Done(g) => Actualizacion(Some(g), Some(usuarioActualizado))
  }

  /** `calcularSaldoLocal`: the same balance, or 0.0 if fetching the transactions throws. */
  function CalcularSaldoLocal(transacciones: Attempt<seq<Transaccion>>): (r: real)
    ensures transacciones.Done? ==> r == SaldoCalculado(transacciones.value)
    ensures transacciones.Thrown? ==> r == 0.0
  {
    match transacciones
    case Done(ts) => SaldoCalculado(ts)
    case Thrown(_) => 0.0
  }

  /** On the same transactions, the balance sent by the update is the local balance. */
  lemma BothAgree(ts: seq<Transaccion>, u: Usuario, g: Attempt<Usuario>)
    ensures ActualizarSaldoUsuario(Done(ts), Done(u), g).enviado.value.saldoTotal == CalcularSaldoLocal(Done(ts))
  {
  }
}
