/**
 * The recurring-payment form (`PagoScreen`): the `EstadoPago` holder, the
 * ordered checks of `validarDatos`, `manejarGuardado` with its reset of a
 * new form, the amount filter of `CampoMonto`, and the ISO text the date
 * picker produces.
 */
module PagoForm {
  import opened Wrappers
  import opened Text
  import opened Calendar
  import opened ListOps
  import opened Dto
  import opened AmountText

  datatype Validacion = Valido | Invalido(mensaje: string)

  const MsgMontoObligatorio: string := "El monto es obligatorio"
  const MsgMontoInvalido: string := "El monto debe ser un número válido mayor que cero"
  const MsgCategoria: string := "Selecciona una categoría"
  const MsgFrecuencia: string := "Selecciona una frecuencia"
  const MsgFechaInicio: string := "Selecciona una fecha de inicio"

  /**
   * `validarDatos`: blank amount, then an amount that does not parse or is
   * not positive, then no category, blank frequency, blank start date; the
   * first failing check names the error. The end date is never checked.
   */
  function ValidarDatos(monto: string, categoria: Option<Categoria>, frecuencia: string, fechaInicio: string): (v: Validacion)
    ensures v == Valido <==> (!IsBlank(monto) && ParseDecimal(monto).Some? && ParseDecimal(monto).value > 0.0
      && categoria.Some? && !IsBlank(frecuencia) && !IsBlank(fechaInicio))
    ensures IsBlank(monto) ==> v == Invalido(MsgMontoObligatorio)
    ensures !IsBlank(monto) && (ParseDecimal(monto).None? || ParseDecimal(monto).value <= 0.0) ==> v == Invalido(MsgMontoInvalido)
    ensures v == Invalido(MsgCategoria) <==> (!IsBlank(monto) && ParseDecimal(monto).Some? && ParseDecimal(monto).value > 0.0
      && categoria.None?)
    ensures v == Invalido(MsgFrecuencia) <==> (!IsBlank(monto) && ParseDecimal(monto).Some? && ParseDecimal(monto).value > 0.0
      && categoria.Some? && IsBlank(frecuencia))
    ensures v == Invalido(MsgFechaInicio) <==> (!IsBlank(monto) && ParseDecimal(monto).Some? && ParseDecimal(monto).value > 0.0
      && categoria.Some? && !IsBlank(frecuencia) && IsBlank(fechaInicio))
  {
    var montoVal := ParseDecimal(monto);
    if IsBlank(monto) then Invalido(MsgMontoObligatorio)
    else if montoVal.None? || montoVal.value <= 0.0 then Invalido(MsgMontoInvalido)
    else if categoria.None? then Invalido(MsgCategoria)
    else if IsBlank(frecuencia) then Invalido(MsgFrecuencia)
    else if IsBlank(fechaInicio) then Invalido(MsgFechaInicio)
    else Valido
  }

  /**
   * The arguments of `onGuardar`. The two dates are the form's text, which
   * the screen then hands to `OffsetDateTime.parse`.
   */
  datatype PagoGuardado = PagoGuardado(
    monto: real,
    categoriaId: int,
    frecuencia: string,
    fechaInicio: string,
    fechaFin: Option<string>,
    usuarioId: int)

  /** `takeIf { it.isNotBlank() }`: a blank end date is passed as null. */
  function FechaFinOpcional(fechaFin: string): (r: Option<string>)
    ensures r.None? <==> IsBlank(fechaFin)
    ensures r.Some? ==> r.value == fechaFin
  {
    if !IsBlank(fechaFin) then Some(fechaFin) else None
  }

  class EstadoPago {
    var monto: string
    var categoriaSeleccionada: Option<Categoria>
    var frecuencia: string
    var fechaInicio: string
    var fechaFin: string

    /**
     * The remembered initial values: the edited payment's fields, else
     * empty text. `montoTexto`, `inicioTexto` and `finTexto` stand for the
     * `toString` of the edited amount and dates.
     */
    constructor (editar: Option<PagoRecurrente>, montoTexto: string, inicioTexto: string, finTexto: string)
      ensures monto == (if editar.Some? then montoTexto else "")
      ensures categoriaSeleccionada == None
      ensures frecuencia == (if editar.Some? then editar.value.frecuencia else "")
      ensures fechaInicio == (if editar.Some? then inicioTexto else "")
      ensures fechaFin == (if editar.Some? && editar.value.fechaFin.Some? then finTexto else "")
    {
      monto := if editar.Some? then montoTexto else "";
      categoriaSeleccionada := None;
      frecuencia := if editar.Some? then editar.value.frecuencia else "";
      fechaInicio := if editar.Some? then inicioTexto else "";
      fechaFin := if editar.Some? && editar.value.fechaFin.Some? then finTexto else "";
    }

    /** The `LaunchedEffect`: once categories are there, the edited payment's category is looked up by id. */
    method SincronizarCategoria(editar: Option<PagoRecurrente>, categorias: seq<Categoria>)
      modifies this`categoriaSeleccionada
      ensures editar.Some? && categorias != [] ==>
        categoriaSeleccionada == FindById(categorias, CategoriaKey, editar.value.categoriaId)
      ensures editar.None? || categorias == [] ==> categoriaSeleccionada == old(categoriaSeleccionada)
    {
      if editar.Some? && categorias != [] {
        categoriaSeleccionada := FindById(categorias, CategoriaKey, editar.value.categoriaId);
      }
    }

    /** `CampoMonto`'s callback: text is accepted only when it passes `^\d*(\.\d*)?$`. */
    method OnMontoChange(nuevo: string)
      modifies this`monto
      ensures MatchesDigitsOptionalFraction(nuevo) ==> monto == nuevo
      ensures !MatchesDigitsOptionalFraction(nuevo) ==> monto == old(monto)
    {
      if IsAmountText(nuevo) {
        monto := nuevo;
      }
    }

    /** `limpiarFormulario`: all five fields cleared. */
    method LimpiarFormulario()
      modifies this
      ensures monto == "" && categoriaSeleccionada == None && frecuencia == "" && fechaInicio == "" && fechaFin == ""
    {
      monto := "";
      categoriaSeleccionada := None;
      frecuencia := "";
      fechaInicio := "";
      fechaFin := "";
    }

    /**
     * `manejarGuardado`: an invalid form makes no call and changes nothing;
     * a valid one yields the `onGuardar` arguments, and a new form
     * (nothing being edited) is cleared afterwards.
     */
    method ManejarGuardado(editando: bool, usuarioId: int) returns (r: Option<PagoGuardado>)
      modifies this
      ensures old(ValidarDatos(monto, categoriaSeleccionada, frecuencia, fechaInicio)).Invalido? ==>
        r.None? && unchanged(this)
      ensures old(ValidarDatos(monto, categoriaSeleccionada, frecuencia, fechaInicio)) == Valido ==>
        r == Some(PagoGuardado(old(ParseDecimal(monto).value), old(categoriaSeleccionada.value.categoriaId),
                               old(frecuencia), old(fechaInicio), FechaFinOpcional(old(fechaFin)), usuarioId))
      ensures old(ValidarDatos(monto, categoriaSeleccionada, frecuencia, fechaInicio)) == Valido && !editando ==>
        monto == "" && categoriaSeleccionada == None && frecuencia == "" && fechaInicio == "" && fechaFin == ""
      ensures editando || old(ValidarDatos(monto, categoriaSeleccionada, frecuencia, fechaInicio)).Invalido? ==> unchanged(this)
    {
      var validacion := ValidarDatos(monto, categoriaSeleccionada, frecuencia, fechaInicio);
      if validacion.Invalido? {
        return None;
      }
      r := Some(PagoGuardado(ParseDecimal(monto).value, categoriaSeleccionada.value.categoriaId,
                             frecuencia, fechaInicio, FechaFinOpcional(fechaFin), usuarioId));
      if !editando {
        LimpiarFormulario();
      }
    }
  }

  /**
   * The picker callback's text: year, the zero-based month plus one and the
   * day, each of the last two padded to two digits, at midnight UTC.
   */
  function FechaPickerTexto(year: int, month: int, dayOfMonth: int): string {
    var mes := PadStart2(IntToString(month + 1));
    var dia := PadStart2(IntToString(dayOfMonth));
    IntToString(year) + "-" + mes + "-" + dia + "T00:00:00Z"
  }

  const SufijoMedianoche: string := "T00:00:00Z"

  /** Reads text of the shape `YYYY-MM-DDT00:00:00Z` as a date. */
  function ParseFechaPicker(s: string): (r: Option<LocalDate>)
    ensures r.Some? ==> |s| == 20 && s[10..] == SufijoMedianoche
  {
    if |s| == 20 && s[4] == '-' && s[7] == '-' && s[10..] == SufijoMedianoche
      && AllDigits(s[..4]) && AllDigits(s[5..7]) && AllDigits(s[8..10]) then
      var d := YMD(DigitsValue(s[..4]), DigitsValue(s[5..7]), DigitsValue(s[8..10]));
      if ValidYMD(d) then var ld: LocalDate := d; Some(ld) else None
    else None
  }

  /** Numbers 1..99 padded to two digits read back as themselves. */
  lemma TwoDigits(n: int)
    requires 1 <= n <= 99
    ensures var t := PadStart2(IntToString(n)); |t| == 2 && AllDigits(t) && DigitsValue(t) == n
  {
    var s := NatToString(n);
    DigitsValueOfNatToString(n);
    var t := PadStart2(s);
    if n < 10 {
      assert |s| == 1;
      assert t == "0" + s;
      assert t[..1] == "0";
      assert DigitsValue(t) == DigitsValue(t[..1]) * 10 + DigitValue(t[1]);
      assert DigitsValue(s) == DigitValue(s[0]);
    } else {
      assert NatToString(n / 10) == [DigitChar(n / 10)];
      assert |s| == 2;
    }
  }

  /** Four-digit years are written with four digits. */
  lemma FourDigits(y: int)
    requires 1000 <= y <= 9999
    ensures var t := IntToString(y); |t| == 4 && AllDigits(t) && DigitsValue(t) == y
  {
    DigitsValueOfNatToString(y);
    assert |NatToString(y / 1000)| == 1;
    assert |NatToString(y / 100)| == 2;
    assert |NatToString(y / 10)| == 3;
  }

  /** The picker's text for a real date of a four-digit year reads back as that date. */
  lemma FechaPickerRoundTrip(year: int, month: int, dayOfMonth: int)
    requires 1000 <= year <= 9999 && 0 <= month <= 11 && 1 <= dayOfMonth <= DaysInMonth(year, month + 1)
    ensures ParseFechaPicker(FechaPickerTexto(year, month, dayOfMonth)) == Some(YMD(year, month + 1, dayOfMonth))
  {
    var y := IntToString(year);
    var m := PadStart2(IntToString(month + 1));
    var d := PadStart2(IntToString(dayOfMonth));
    FourDigits(year);
    TwoDigits(month + 1);
    TwoDigits(dayOfMonth);
    var s := FechaPickerTexto(year, month, dayOfMonth);
    assert s == y + "-" + m + "-" + d + SufijoMedianoche;
    assert |s| == 20;
    assert s[..4] == y;
    assert s[5..7] == m;
    assert s[8..10] == d;
    assert s[10..] == SufijoMedianoche;
  }
}
