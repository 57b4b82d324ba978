/**
 * The savings-goal form (`MetaScreen`): its remembered fields, the save
 * guard, the values handed to `onGuardar` and the reset of a new form.
 */
module MetaForm {
  import opened Wrappers
  import opened Text
  import opened Calendar
  import opened Dto

  /** The arguments of `onGuardar`: name, target, end date, contribution flag, image and user id. */
  datatype MetaGuardada = MetaGuardada(
    nombreMeta: string,
    montoObjetivo: real,
    fechaFinalizacion: DateTime,
    contribucion: bool,
    imagen: Option<string>,
    usuarioId: int)

  /** The save guard: a name and a target amount that are not blank. */
  predicate PuedeGuardar(nombreMeta: string, montoObjetivo: string) {
    !IsBlank(nombreMeta) && !IsBlank(montoObjetivo)
  }

  class MetaFormState {
    var nombreMeta: string
    var montoObjetivo: string
    var fechaFinalizacion: DateTime
    var contribucionEstablecida: bool
    var imagenUri: Option<string>

    /**
     * The remembered initial values: the edited goal's fields, else empty
     * text and `ahora`. The contribution switch starts on exactly when the
     * edited goal has a recurring contribution. `montoTexto` stands for
     * `Double.toString` of its target.
     */
    constructor (editar: Option<MetaAhorro>, montoTexto: string, ahora: DateTime)
      ensures nombreMeta == (if editar.Some? then editar.value.nombreMeta else "")
      ensures montoObjetivo == (if editar.Some? then montoTexto else "")
      ensures fechaFinalizacion == (if editar.Some? then editar.value.fechaFinalizacion else ahora)
      ensures contribucionEstablecida <==> editar.Some? && editar.value.contribucionRecurrente.Some?
      ensures imagenUri == (if editar.Some? then editar.value.imagen else None)
    {
      nombreMeta := if editar.Some? then editar.value.nombreMeta else "";
      montoObjetivo := if editar.Some? then montoTexto else "";
      fechaFinalizacion := if editar.Some? then editar.value.fechaFinalizacion else ahora;
      contribucionEstablecida := editar.Some? && editar.value.contribucionRecurrente.Some?;
      imagenUri := if editar.Some? then editar.value.imagen else None;
    }

    method OnNombreChange(nuevo: string)
      modifies this`nombreMeta
      ensures nombreMeta == nuevo
    {
      nombreMeta := nuevo;
    }

    /** The target field takes any text; there is no character filter on this form. */
    method OnMontoChange(nuevo: string)
      modifies this`montoObjetivo
      ensures montoObjetivo == nuevo
    {
      montoObjetivo := nuevo;
    }

    method OnFechaChange(f: DateTime)
      modifies this`fechaFinalizacion
      ensures fechaFinalizacion == f
    {
      fechaFinalizacion := f;
    }

    method OnContribucionChange(b: bool)
      modifies this`contribucionEstablecida
      ensures contribucionEstablecida == b
    {
      contribucionEstablecida := b;
    }

    /**
     * The image picker's result: a chosen uri is remembered and reported to
     * `onImagenSeleccionada`; a cancelled pick changes nothing.
     */
    method OnImagenElegida(uri: Option<string>) returns (notificada: Option<string>)
      modifies this`imagenUri
      ensures uri.Some? ==> imagenUri == uri && notificada == uri
      ensures uri.None? ==> imagenUri == old(imagenUri) && notificada.None?
    {
      notificada := None;
      if uri.Some? {
        imagenUri := uri;
        notificada := uri;
      }
    }

    /**
     * The save click: without a name or a target only a toast is shown;
     * otherwise the fields are handed on, an unparseable target as 0, and a
     * new form (`ahora` is the clock) is reset to empty text, `ahora`, no
     * contribution and no image.
     */
    method Guardar(editando: bool, usuarioId: int, ahora: DateTime) returns (r: Option<MetaGuardada>)
      modifies this
      ensures r.Some? <==> old(PuedeGuardar(nombreMeta, montoObjetivo))
      ensures r.Some? ==> r.value == old(MetaGuardada(nombreMeta, ParseDecimal(montoObjetivo).GetOr(0.0), fechaFinalizacion,
        contribucionEstablecida, imagenUri, usuarioId))
      ensures r.Some? && !editando ==>
        (nombreMeta == "" && montoObjetivo == "" && fechaFinalizacion == ahora && !contribucionEstablecida && imagenUri.None?)
      ensures r.None? || editando ==> unchanged(this)
    {
      if !PuedeGuardar(nombreMeta, montoObjetivo) {
        return None;
      }
      r := Some(MetaGuardada(nombreMeta, ParseDecimal(montoObjetivo).GetOr(0.0), fechaFinalizacion,
        contribucionEstablecida, imagenUri, usuarioId));
      if !editando {
        nombreMeta := "";
        montoObjetivo := "";
        fechaFinalizacion := ahora;
        contribucionEstablecida := false;
        imagenUri := None;
      }
    }
  }

  /** Any non-blank target that is not a number is saved as 0: the guard does not check the amount. */
  lemma UnparseableTargetIsZero(nombre: string, monto: string)
    requires !IsBlank(nombre) && !IsBlank(monto) && ParseDecimal(monto).None?
    ensures PuedeGuardar(nombre, monto) && ParseDecimal(monto).GetOr(0.0) == 0.0
  {
  }
}
