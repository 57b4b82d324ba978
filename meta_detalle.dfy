/**
 * The savings-goal detail screen (`MetaDetalleScreen`): the progress
 * percentage, its colour band, the bar's fill fraction, the label, and the
 * delete-confirmation dialog.
 */
module MetaDetalle {
  import opened Dto
  import opened Text

  /** `montoAhorrado ?: 0.0`. */
  function MontoAhorrado(meta: MetaAhorro): (r: real)
    ensures meta.montoAhorrado.Some? ==> r == meta.montoAhorrado.value
    ensures meta.montoAhorrado.None? ==> r == 0.0
  {
    meta.montoAhorrado.GetOr(0.0)
  }

  /**
   * `porcentajeProgreso`: 0 for a target that is not positive, otherwise
   * the saved share of the target in percent, clamped below at 0 but not
   * above (a goal saved past its target exceeds 100).
   */
  function PorcentajeProgreso(ahorrado: real, objetivo: real): (p: real)
    ensures p >= 0.0
    ensures objetivo <= 0.0 ==> p == 0.0
    ensures objetivo > 0.0 && ahorrado >= 0.0 ==> p == ahorrado / objetivo * 100.0
    ensures objetivo > 0.0 && ahorrado < 0.0 ==> p == 0.0
  {
    if objetivo > 0.0 then
      var v := ahorrado / objetivo * 100.0;
      if v < 0.0 then 0.0 else v
    else 0.0
  }

  /** A product of two amounts that are not negative is not negative. */
  lemma MulNonNeg(a: real, b: real)
    requires a >= 0.0 && b >= 0.0
    ensures a * b >= 0.0
  {
  }

  /** The share of a positive whole is at least one exactly when the part reaches the whole. */
  lemma DivAtLeastOne(a: real, c: real)
    requires c > 0.0
    ensures a / c >= 1.0 <==> a >= c
  {
    var q := a / c;
    assert q * c == a;
    if q >= 1.0 {
      MulNonNeg(q - 1.0, c);
      assert (q - 1.0) * c == a - c;
    }
    if a >= c {
      MulNonNeg(a - c, 1.0 / c);
      assert (a - c) * (1.0 / c) == q - 1.0;
    }
  }

  /** Progress reaches 100 exactly when the saved amount reaches a positive target. */
  lemma ProgresoCompleto(ahorrado: real, objetivo: real)
    requires objetivo > 0.0
    ensures PorcentajeProgreso(ahorrado, objetivo) >= 100.0 <==> ahorrado >= objetivo
  {
    DivAtLeastOne(ahorrado, objetivo);
  }

  /** Progress grows with the saved amount. */
  lemma ProgresoMonotone(a: real, b: real, objetivo: real)
    requires a <= b
    ensures PorcentajeProgreso(a, objetivo) <= PorcentajeProgreso(b, objetivo)
  {
    if objetivo > 0.0 {
      assert a / objetivo <= b / objetivo;
    }
  }

  datatype ColorProgreso = Naranja | Amarillo | Verde

  /** `colorProgreso`: up to 50 orange, up to 90 yellow, green above. */
  function ColorDe(p: real): (c: ColorProgreso)
    ensures c == Naranja <==> p <= 50.0
    ensures c == Amarillo <==> 50.0 < p <= 90.0
    ensures c == Verde <==> p > 90.0
  {
    if p <= 50.0 then Naranja
    else if p <= 90.0 then Amarillo
    else Verde
  }

  /** Over a higher progress the band never goes back: orange, then yellow, then green. */
  lemma ColorMonotone(p: real, q: real)
    requires p <= q
    ensures ColorDe(p) == Amarillo ==> ColorDe(q) != Naranja
    ensures ColorDe(p) == Verde ==> ColorDe(q) == Verde
  {
  }

  /** `(porcentajeProgreso / 100).coerceAtMost(1.0)`: the bar's fill, in 0..1 for a progress of at least 0. */
  function FraccionBarra(p: real): (f: real)
    ensures f <= 1.0
    ensures p >= 0.0 ==> f >= 0.0
    ensures f == 1.0 <==> p >= 100.0
    ensures p < 100.0 ==> f * 100.0 == p
  {
    if p / 100.0 > 1.0 then 1.0 else p / 100.0
  }

  /**
   * `porcentajeProgreso.toInt()`: truncation toward zero, which is the floor
   * of a progress of at least 0, clamped at the largest `Int` because the
   * progress is not capped.
   */
  function PorcentajeEntero(p: real): (n: int)
    requires p >= 0.0
    ensures 0 <= n <= IntMax
    ensures p < IntMax as real ==> n as real <= p < n as real + 1.0
    ensures p >= IntMax as real ==> n == IntMax
  {
    if p.Floor > IntMax then IntMax else p.Floor
  }

  /** Thirty million saved against a target of one shows the largest `Int`, not three thousand million. */
  lemma HugeProgressIsClamped()
    ensures PorcentajeEntero(PorcentajeProgreso(30000000.0, 1.0)) == IntMax
  {
    assert PorcentajeProgreso(30000000.0, 1.0) == 3000000000.0;
  }

  /** The screen's dialog flag and the two callbacks a confirmation fires. */
  class DialogoEliminarMeta {
    var mostrarDialogoEliminar: bool
    /** The callbacks fired so far, in order: `onEliminarConfirmado` then `onEliminarClick`. */
    var callbacks: seq<string>

    constructor ()
      ensures !mostrarDialogoEliminar && callbacks == []
    {
      mostrarDialogoEliminar := false;
      callbacks := [];
    }

    method OnEliminarClick()
      modifies this`mostrarDialogoEliminar
      ensures mostrarDialogoEliminar
    {
      mostrarDialogoEliminar := true;
    }

    /** Confirm: closes the dialog, then `onEliminarConfirmado`, then `onEliminarClick`. */
    method OnConfirmar()
      requires mostrarDialogoEliminar
      modifies this
      ensures !mostrarDialogoEliminar
      ensures callbacks == old(callbacks) + ["onEliminarConfirmado", "onEliminarClick"]
    {
      mostrarDialogoEliminar := false;
      callbacks := callbacks + ["onEliminarConfirmado"];
      callbacks := callbacks + ["onEliminarClick"];
    }

    /** Cancel or dismiss: closes the dialog and fires nothing. */
    method OnCancelar()
      modifies this`mostrarDialogoEliminar
      ensures !mostrarDialogoEliminar
    {
      mostrarDialogoEliminar := false;
    }
  }
}
