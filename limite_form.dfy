/**
 * The spending-limit form (`LimiteScreen`): the categories of type "Gasto",
 * the `EstadoLimite` holder, the ordered checks of `validarDatosLimite`
 * and `manejarGuardadoLimite` with its reset of a new form.
 */
module LimiteForm {
  import opened Wrappers
  import opened Text
  import opened ListOps
  import opened Dto

  datatype Validacion = Valido | Invalido(mensaje: string)

  const MsgCategoria: string := "Selecciona una categoría"
  const MsgMontoVacio: string := "Ingresa el monto del límite"
  const MsgMontoInvalido: string := "El monto debe ser un número válido mayor que cero"
  const MsgPeriodo: string := "Selecciona un período"

  /** `categoriasGasto`: the categories whose tipo is "Gasto", ignoring case. */
  function CategoriasGasto(categorias: seq<Categoria>): (r: seq<Categoria>)
    ensures forall i :: 0 <= i < |r| ==> r[i] in categorias && EqualsIgnoreCase(r[i].tipo, "Gasto")
    ensures forall i :: 0 <= i < |categorias| && EqualsIgnoreCase(categorias[i].tipo, "Gasto") ==> categorias[i] in r
  {
    Filter(categorias, (c: Categoria) => EqualsIgnoreCase(c.tipo, "Gasto"))
  }

  /**
   * `validarDatosLimite`: no category, then a blank amount, then an amount
   * that does not parse or is not positive, then a blank period.
   */
  function ValidarDatosLimite(categoria: Option<Categoria>, monto: string, periodo: string): (v: Validacion)
    ensures v == Valido <==> (categoria.Some? && !IsBlank(monto) && ParseDecimal(monto).Some?
      && ParseDecimal(monto).value > 0.0 && !IsBlank(periodo))
    ensures categoria.None? ==> v == Invalido(MsgCategoria)
    ensures v == Invalido(MsgMontoVacio) <==> categoria.Some? && IsBlank(monto)
    ensures v == Invalido(MsgMontoInvalido) <==>
      (categoria.Some? && !IsBlank(monto) && (ParseDecimal(monto).None? || ParseDecimal(monto).value <= 0.0))
    ensures v == Invalido(MsgPeriodo) <==>
      (categoria.Some? && !IsBlank(monto) && ParseDecimal(monto).Some? && ParseDecimal(monto).value > 0.0 && IsBlank(periodo))
  {
    if categoria.None? then Invalido(MsgCategoria)
    else if IsBlank(monto) then Invalido(MsgMontoVacio)
    else if ParseDecimal(monto).None? || ParseDecimal(monto).value <= 0.0 then Invalido(MsgMontoInvalido)
    else if IsBlank(periodo) then Invalido(MsgPeriodo)
    else Valido
  }

  /** The arguments of `onGuardar`: amount, category id, period and user id. */
  datatype LimiteGuardado = LimiteGuardado(monto: real, categoriaId: int, periodo: string, usuarioId: int)

  class EstadoLimite {
    var categoriaSeleccionada: Option<Categoria>
    var montoLimite: string
    var periodoSeleccionado: string

    /** `montoTexto` stands for `Double.toString` of the edited limit's amount. */
    constructor (editar: Option<LimiteGasto>, montoTexto: string)
      ensures categoriaSeleccionada == None
      ensures montoLimite == (if editar.Some? then montoTexto else "")
      ensures periodoSeleccionado == (if editar.Some? then editar.value.periodo else "")
    {
      categoriaSeleccionada := None;
      montoLimite := if editar.Some? then montoTexto else "";
      periodoSeleccionado := if editar.Some? then editar.value.periodo else "";
    }

    /** The `LaunchedEffect`: the edited limit's category is looked up among the "Gasto" categories. */
    method SincronizarCategoria(editar: Option<LimiteGasto>, categorias: seq<Categoria>)
      modifies this`categoriaSeleccionada
      ensures editar.Some? && CategoriasGasto(categorias) != [] ==>
        categoriaSeleccionada == FindById(CategoriasGasto(categorias), CategoriaKey, editar.value.categoriaId)
      ensures editar.None? || CategoriasGasto(categorias) == [] ==> categoriaSeleccionada == old(categoriaSeleccionada)
    {
      var gasto := CategoriasGasto(categorias);
      if editar.Some? && gasto != [] {
        categoriaSeleccionada := FindById(gasto, CategoriaKey, editar.value.categoriaId);
      }
    }

    /** The amount field takes any text; there is no character filter on this form. */
    method OnMontoChange(nuevo: string)
      modifies this`montoLimite
      ensures montoLimite == nuevo
    {
      montoLimite := nuevo;
    }

    /** `limpiarFormularioLimite`. */
    method LimpiarFormularioLimite()
      modifies this
      ensures montoLimite == "" && categoriaSeleccionada == None && periodoSeleccionado == ""
    {
      montoLimite := "";
      categoriaSeleccionada := None;
      periodoSeleccionado := "";
    }

    /**
     * `manejarGuardadoLimite`: an invalid form makes no call and changes
     * nothing; a valid one yields (amount, category id, period, user id),
     * and a new form is cleared afterwards.
     */
    method ManejarGuardadoLimite(editando: bool, usuarioId: int) returns (r: Option<LimiteGuardado>)
      modifies this
      ensures old(ValidarDatosLimite(categoriaSeleccionada, montoLimite, periodoSeleccionado)).Invalido? ==>
        r.None? && unchanged(this)
      ensures old(ValidarDatosLimite(categoriaSeleccionada, montoLimite, periodoSeleccionado)) == Valido ==>
        r == Some(LimiteGuardado(old(ParseDecimal(montoLimite).value), old(categoriaSeleccionada.value.categoriaId),
                                 old(periodoSeleccionado), usuarioId))
      ensures old(ValidarDatosLimite(categoriaSeleccionada, montoLimite, periodoSeleccionado)) == Valido && !editando ==>
        montoLimite == "" && categoriaSeleccionada == None && periodoSeleccionado == ""
      ensures editando ==> unchanged(this)
    {
      var validacion := ValidarDatosLimite(categoriaSeleccionada, montoLimite, periodoSeleccionado);
      if validacion.Invalido? {
        return None;
      }
      var monto := ParseDecimal(montoLimite).GetOr(0.0);
      r := Some(LimiteGuardado(monto, categoriaSeleccionada.value.categoriaId, periodoSeleccionado, usuarioId));
      if !editando {
        LimpiarFormularioLimite();
      }
    }
  }
}
