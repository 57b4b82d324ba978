/**
 * The transaction form (`GastoScreen`): its remembered fields, the amount
 * filter, the categories offered for the chosen type, and the save guard
 * of `GuardarBoton`.
 */
module GastoForm {
  import opened Wrappers
  import opened Text
  import opened Calendar
  import opened ListOps
  import opened Dto
  import opened AmountText

  /** The arguments of `onGuardar`. */
  datatype Guardado = Guardado(
    tipo: string,
    monto: real,
    categoriaNombre: string,
    fecha: DateTime,
    notas: string,
    usuarioId: int)

  /** `toDoubleOrNull() ?: 0.0`. */
  function MontoOCero(texto: string): (m: real)
    ensures ParseDecimal(texto).Some? ==> m == ParseDecimal(texto).value
    ensures ParseDecimal(texto).None? ==> m == 0.0
  {
    ParseDecimal(texto).GetOr(0.0)
  }

  /**
   * The `GuardarBoton` click: rejected (a toast, no callback) when the
   * amount is not positive or no category with a non-zero id is selected;
   * otherwise every field goes to `onGuardar` as it is.
   */
  function GuardarBoton(monto: string, categoria: Option<Categoria>, fecha: DateTime, tipo: string,
                        notas: string, usuarioId: int): (r: Option<Guardado>)
    ensures r.None? <==> MontoOCero(monto) <= 0.0 || categoria.None? || categoria.value.categoriaId == 0
    ensures r.Some? ==> r.value == Guardado(tipo, ParseDecimal(monto).value, categoria.value.nombre, fecha, notas, usuarioId)
  {
    var montoDouble := MontoOCero(monto);
    var categoriaId := if categoria.Some? then categoria.value.categoriaId else 0;
    if montoDouble <= 0.0 || categoriaId == 0 then None
    else Some(Guardado(tipo, montoDouble, if categoria.Some? then categoria.value.nombre else "", fecha, notas, usuarioId))
  }

  /** Text the amount filter admits is saved only when it holds a digit and is not zero. */
  lemma GuardarNeedsPositiveAmount(monto: string, categoria: Option<Categoria>, fecha: DateTime, tipo: string,
                                   notas: string, usuarioId: int)
    requires IsAmountText(monto)
    requires GuardarBoton(monto, categoria, fecha, tipo, notas, usuarioId).Some?
    ensures HasDigit(monto) && ParseDecimal(monto).value > 0.0
  {
    AmountTextParses(monto);
  }

  /** The categories offered: those whose tipo equals the selected tipo, ignoring case. */
  function CategoriasFiltradas(categorias: seq<Categoria>, tipo: string): (r: seq<Categoria>)
    ensures forall i :: 0 <= i < |r| ==> r[i] in categorias && EqualsIgnoreCase(r[i].tipo, tipo)
    ensures forall i :: 0 <= i < |categorias| && EqualsIgnoreCase(categorias[i].tipo, tipo) ==> categorias[i] in r
  {
    Filter(categorias, (c: Categoria) => EqualsIgnoreCase(c.tipo, tipo))
  }

  class GastoFormState {
    var tipo: string
    var monto: string
    var fechaSeleccionada: DateTime
    var notas: string
    var categoriaSeleccionada: Option<Categoria>

    /**
     * The remembered initial values: the edited transaction's fields when
     * there is one, else `tipoInicial`, "", now and "". `montoTexto` stands
     * for `Double.toString` of the edited amount.
     */
    constructor (editar: Option<Transaccion>, tipoInicial: string, montoTexto: string, ahora: DateTime)
      ensures tipo == (if editar.Some? then editar.value.tipo else tipoInicial)
      ensures monto == (if editar.Some? then montoTexto else "")
      ensures fechaSeleccionada == (if editar.Some? then editar.value.fecha else ahora)
      ensures notas == (if editar.Some? && editar.value.notas.Some? then editar.value.notas.value else "")
      ensures categoriaSeleccionada == None
    {
      tipo := if editar.Some? then editar.value.tipo else tipoInicial;
      monto := if editar.Some? then montoTexto else "";
      fechaSeleccionada := if editar.Some? then editar.value.fecha else ahora;
      notas := if editar.Some? && editar.value.notas.Some? then editar.value.notas.value else "";
      categoriaSeleccionada := None;
    }

    /** The `LaunchedEffect`: the category of the edited transaction, looked up by id. */
    method SincronizarCategoria(editar: Option<Transaccion>, categorias: seq<Categoria>)
      modifies this`categoriaSeleccionada
      ensures editar.None? ==> categoriaSeleccionada == None
      ensures editar.Some? ==> categoriaSeleccionada == FindById(categorias, CategoriaKey, editar.value.categoriaId)
    {
      if editar.Some? {
        categoriaSeleccionada := FindById(categorias, CategoriaKey, editar.value.categoriaId);
      } else {
        categoriaSeleccionada := None;
      }
    }

    /** `MontoInput`'s callback: new text is taken only when it passes `^\d*\.?\d*$`. */
    method OnMontoChange(nuevo: string)
      modifies this`monto
      ensures MatchesDigitsDotDigits(nuevo) ==> monto == nuevo
      ensures !MatchesDigitsDotDigits(nuevo) ==> monto == old(monto)
    {
      if IsAmountText(nuevo) {
        monto := nuevo;
      }
    }

    method OnTipoChange(nuevo: string)
      modifies this`tipo
      ensures tipo == nuevo
    {
      tipo := nuevo;
    }

    method OnCategoriaSelect(c: Categoria)
      modifies this`categoriaSeleccionada
      ensures categoriaSeleccionada == Some(c)
    {
      categoriaSeleccionada := Some(c);
    }

    method OnFechaChange(f: DateTime)
      modifies this`fechaSeleccionada
      ensures fechaSeleccionada == f
    {
      fechaSeleccionada := f;
    }

    method OnNotasChange(n: string)
      modifies this`notas
      ensures notas == n
    {
      notas := n;
    }

    /** The save click on the current fields. */
    method Guardar(usuarioId: int) returns (r: Option<Guardado>)
      ensures r.None? <==> MontoOCero(monto) <= 0.0 || categoriaSeleccionada.None? || categoriaSeleccionada.value.categoriaId == 0
      ensures r.Some? ==> (r.value.tipo == tipo && r.value.fecha == fechaSeleccionada && r.value.notas == notas
        && r.value.usuarioId == usuarioId && r.value.monto == ParseDecimal(monto).value && r.value.monto > 0.0
        && r.value.categoriaNombre == categoriaSeleccionada.value.nombre)
    {
      r := GuardarBoton(monto, categoriaSeleccionada, fechaSeleccionada, tipo, notas, usuarioId);
    }
  }
}
