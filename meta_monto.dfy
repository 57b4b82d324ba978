/**
 * The two "add a saved amount" screens: `MetaMAhorroScreen` (its
 * `GuardarButton` parses the amount and navigates back) and
 * `MetaMontoAhorroScreen` (it saves any non-blank text and resets).
 */
module MetaMAhorro {
  import opened Wrappers
  import opened Text
  import opened Calendar
  import opened Dto

  /** What a click of `GuardarButton` does: the callback's arguments, and the route it navigates to. */
  datatype Guardado = Guardado(monto: real, fecha: DateTime, ruta: string)

  /** The route back to the user's goal list. */
  function RutaMetas(usuarioId: int): string {
    "metaahorros/" + IntToString(usuarioId)
  }

  /**
   * `GuardarButton`: accepted exactly when the text parses to a positive
   * amount; then `onGuardarMonto(parsed, fecha)` runs and the screen goes
   * back to the goal list. A rejected click only shows a toast.
   */
  function GuardarButton(monto: string, fecha: DateTime, usuarioId: int): (r: Option<Guardado>)
    ensures r.Some? <==> ParseDecimal(monto).Some? && ParseDecimal(monto).value > 0.0
    ensures r.Some? ==> r.value == Guardado(ParseDecimal(monto).value, fecha, RutaMetas(usuarioId))
  {
    var montoValido := ParseDecimal(monto);
    if montoValido.Some? && montoValido.value > 0.0 then Some(Guardado(montoValido.value, fecha, RutaMetas(usuarioId)))
    else None
  }

  /** Blank text is always rejected. */
  lemma BlankIsRejected(monto: string, fecha: DateTime, usuarioId: int)
    requires IsBlank(monto)
    ensures GuardarButton(monto, fecha, usuarioId).None?
  {
    BlankNeverParses(monto);
  }

  class MetaMAhorroState {
    var montoAhorrado: string
    var fechaMonto: DateTime

    /** The amount starts empty; the date is the goal's last saving date, or `ahora` (UTC) without one. */
    constructor (meta: MetaAhorro, ahora: DateTime)
      ensures montoAhorrado == ""
      ensures fechaMonto == meta.fechaMontoAhorrado.GetOr(ahora)
    {
      montoAhorrado := "";
      fechaMonto := meta.fechaMontoAhorrado.GetOr(ahora);
    }

    method OnMontoChange(nuevo: string)
      modifies this`montoAhorrado
      ensures montoAhorrado == nuevo
    {
      montoAhorrado := nuevo;
    }

    method OnFechaSeleccionada(f: DateTime)
      modifies this`fechaMonto
      ensures fechaMonto == f
    {
      fechaMonto := f;
    }

    /** The click on the current fields; this screen keeps its fields either way. */
    method Guardar(usuarioId: int) returns (r: Option<Guardado>)
      ensures r.Some? <==> ParseDecimal(montoAhorrado).Some? && ParseDecimal(montoAhorrado).value > 0.0
      ensures r.Some? ==> (r.value.monto == ParseDecimal(montoAhorrado).value && r.value.monto > 0.0
        && r.value.fecha == fechaMonto && r.value.ruta == RutaMetas(usuarioId))
    {
      r := GuardarButton(montoAhorrado, fechaMonto, usuarioId);
    }
  }
}

module MetaMontoAhorro {
  import opened Wrappers
  import opened Text
  import opened Calendar

  datatype Guardado = Guardado(monto: real, fecha: DateTime)

  class MetaMontoAhorroState {
    var monto: string
    var fechaMonto: DateTime

    constructor (ahora: DateTime)
      ensures monto == "" && fechaMonto == ahora
    {
      monto := "";
      fechaMonto := ahora;
    }

    method OnMontoChange(nuevo: string)
      modifies this`monto
      ensures monto == nuevo
    {
      monto := nuevo;
    }

    method OnFechaSeleccionada(f: DateTime)
      modifies this`fechaMonto
      ensures fechaMonto == f
    {
      fechaMonto := f;
    }

    /**
     * The save click: blank text shows a toast and changes nothing; any
     * other text is saved, as 0 when it is not a number, and the amount and
     * date reset to "" and `ahora`.
     */
    method Guardar(ahora: DateTime) returns (r: Option<Guardado>)
      modifies this
      ensures r.Some? <==> !IsBlank(old(monto))
      ensures r.Some? ==> r.value == Guardado(ParseDecimal(old(monto)).GetOr(0.0), old(fechaMonto))
      ensures r.Some? ==> monto == "" && fechaMonto == ahora
      ensures r.None? ==> unchanged(this)
    {
      if IsBlank(monto) {
        return None;
      }
      r := Some(Guardado(ParseDecimal(monto).GetOr(0.0), fechaMonto));
      monto := "";
      fechaMonto := ahora;
    }
  }
}
