/**
 * The spending-limit detail screen (`LimiteDetalleScreen`): the amount
 * spent in the limit's category, the percentage of the limit consumed,
 * the icon fallback and the delete-confirmation dialog.
 */
module LimiteDetalle {
  import opened Wrappers
  import opened Text
  import opened ListOps
  import opened Dto
  import opened DoubleArith

  /** Which transactions count against a limit: its category and tipo exactly "Gasto" (case matters). */
  predicate CuentaParaLimite(t: Transaccion, categoriaId: int) {
    t.categoriaId == categoriaId && t.tipo == "Gasto"
  }

  function Monto(t: Transaccion): real { t.monto }

  /** `gastadoActual`: the sum of the amounts of the transactions that count. */
  function GastadoActual(txs: seq<Transaccion>, limite: LimiteGasto): real {
    SumOf(Filter(txs, (t: Transaccion) => CuentaParaLimite(t, limite.categoriaId)), Monto)
  }

  /** Transactions of other categories or other tipos do not change the amount spent. */
  lemma {:induction false} GastadoIgnoresOthers(txs: seq<Transaccion>, t: Transaccion, limite: LimiteGasto)
    requires !CuentaParaLimite(t, limite.categoriaId)
    ensures GastadoActual(txs + [t], limite) == GastadoActual(txs, limite)
  {
    var p := (t: Transaccion) => CuentaParaLimite(t, limite.categoriaId);
    FilterConcat(txs, [t], p);
    assert Filter([t], p) == [];
    assert Filter(txs + [t], p) == Filter(txs, p) + [];
    assert Filter(txs, p) + [] == Filter(txs, p);
  }

  /** A transaction that counts adds its amount to what was spent. */
  lemma {:induction false} GastadoAddsCounted(txs: seq<Transaccion>, t: Transaccion, limite: LimiteGasto)
    requires CuentaParaLimite(t, limite.categoriaId)
    ensures GastadoActual(txs + [t], limite) == GastadoActual(txs, limite) + t.monto
  {
    var p := (t: Transaccion) => CuentaParaLimite(t, limite.categoriaId);
    FilterConcat(txs, [t], p);
    assert Filter([t], p) == [t];
    SumOfConcat(Filter(txs, p), [t], Monto);
    assert SumOf([t], Monto) == t.monto + SumOf([], Monto);
  }

  /**
   * `(gastado / montoLimite * 100).coerceAtMost(100.0)`: capped above at
   * 100 but not below, and a zero limit is not guarded against.
   */
  function Porcentaje(gastado: real, montoLimite: real): (p: Double)
    ensures p != PosInf
    ensures p.Finite? ==> p.value <= 100.0
    ensures montoLimite != 0.0 ==>
      p == Finite(if gastado / montoLimite * 100.0 > 100.0 then 100.0 else gastado / montoLimite * 100.0)
    ensures montoLimite == 0.0 ==>
      (gastado > 0.0 ==> p == Finite(100.0)) && (gastado < 0.0 ==> p == NegInf) && (gastado == 0.0 ==> p == NaN)
  {
    CoerceAtMost(Times100(Divide(gastado, montoLimite)), 100.0)
  }

  /** With a positive limit and nothing negative spent, the percentage is a finite value in 0..100. */
  lemma PorcentajeInRange(gastado: real, montoLimite: real)
    requires montoLimite > 0.0 && gastado >= 0.0
    ensures Porcentaje(gastado, montoLimite).Finite?
    ensures 0.0 <= Porcentaje(gastado, montoLimite).value <= 100.0
  {
    assert gastado / montoLimite >= 0.0;
  }

  /** `categoriaIcono.takeIf { it.isNotBlank() } ?: "💵"`. */
  function IconoMostrado(categoriaIcono: string): (r: string)
    ensures IsBlank(categoriaIcono) ==> r == "💵"
    ensures !IsBlank(categoriaIcono) ==> r == categoriaIcono
  {
    if !IsBlank(categoriaIcono) then categoriaIcono else "💵"
  }

  /** The screen's only mutable state, the confirmation dialog, and the callbacks it has fired. */
  class DialogoEliminar {
    var mostrarDialogoEliminar: bool
    /** How many times `onEliminarConfirmado` has been called. */
    var confirmaciones: nat

    constructor ()
      ensures !mostrarDialogoEliminar && confirmaciones == 0
    {
      mostrarDialogoEliminar := false;
      confirmaciones := 0;
    }

    /** The "Eliminar" button only opens the dialog. */
    method OnEliminarClick()
      modifies this`mostrarDialogoEliminar
      ensures mostrarDialogoEliminar
    {
      mostrarDialogoEliminar := true;
    }

    /** Confirm: the dialog closes and `onEliminarConfirmado` runs once. */
    method OnConfirmar()
      requires mostrarDialogoEliminar
      modifies this
      ensures !mostrarDialogoEliminar && confirmaciones == old(confirmaciones) + 1
    {
      mostrarDialogoEliminar := false;
      confirmaciones := confirmaciones + 1;
    }

    /** Cancel or dismiss: the dialog closes and nothing is deleted. */
    method OnCancelar()
      modifies this`mostrarDialogoEliminar
      ensures !mostrarDialogoEliminar
    {
      mostrarDialogoEliminar := false;
    }
  }
}
