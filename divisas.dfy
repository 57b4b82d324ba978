/**
 * The currency screen's view-model (`DivisasViewModel`): loading the
 * user's currency, choosing one, and saving it on the user record.
 */
module Divisas {
  import opened Wrappers
  import opened Dto

  datatype Divisa = Divisa(nombre: string, codigo: string)

  const DivisaPorDefecto: string := "DOP"

  /** The ten currencies offered, in their order on screen. */
  const DivisasOfrecidas: seq<Divisa> := [
    Divisa("Peso dominicano", "DOP"),
    Divisa("Dólar estadounidense", "USD"),
    Divisa("Euro", "EUR"),
    Divisa("Libra esterlina", "GBP"),
    Divisa("Yen japonés", "JPY"),
    Divisa("Dólar canadiense", "CAD"),
    Divisa("Dólar australiano", "AUD"),
    Divisa("Franco suizo", "CHF"),
    Divisa("Yuan chino", "CNY"),
    Divisa("Real brasileño", "BRL")]

  datatype DivisasUiState = DivisasUiState(
    divisas: seq<Divisa>,
    divisaSeleccionada: string,
    isLoading: bool,
    error: Option<string>)

  const InitialUiState: DivisasUiState := DivisasUiState(DivisasOfrecidas, DivisaPorDefecto, false, None)

  const PrefijoErrorCarga: string := "Error al cargar divisa actual: "
  const PrefijoErrorGuardado: string := "Error al guardar divisa: "

  /** `ifEmpty { "DOP" }`: an empty currency falls back to the Dominican peso. */
  function DivisaOPorDefecto(divisa: string): (r: string)
    ensures divisa != [] ==> r == divisa
    ensures divisa == [] ==> r == DivisaPorDefecto
    ensures r != []
  {
    if divisa == [] then DivisaPorDefecto else divisa
  }

  /** The default currency is the first one offered, and every code offered is distinct. */
  lemma OfrecidasDistintas()
    ensures DivisasOfrecidas[0].codigo == DivisaPorDefecto
    ensures forall i, j :: 0 <= i < j < |DivisasOfrecidas| ==> DivisasOfrecidas[i].codigo != DivisasOfrecidas[j].codigo
  {
  }

  /** The call `updateUsuario(usuarioId, usuario)` that `guardarDivisa` makes. */
  datatype Actualizacion = Actualizacion(usuarioId: int, usuario: Usuario)

  class DivisasViewModel {
    var uiState: DivisasUiState
    /** The ids passed to the launched loads of the current currency. */
    var cargas: seq<int>
    var actualizaciones: seq<Actualizacion>
    /** How many times `onSuccess` has been called. */
    var exitos: nat

    constructor ()
      ensures uiState == InitialUiState && cargas == [] && actualizaciones == [] && exitos == 0
    {
      uiState := InitialUiState;
      cargas := [];
      actualizaciones := [];
      exitos := 0;
    }

    /** `inicializar`: launches `cargarDivisaActual`. */
    method Inicializar(usuarioId: int)
      modifies this`cargas
      ensures cargas == old(cargas) + [usuarioId]
    {
      cargas := cargas + [usuarioId];
    }

    /** The outcome of `cargarDivisaActual`. */
    method OnDivisaActual(r: Attempt<Usuario>)
      modifies this`uiState
      ensures r.Done? ==> uiState == old(uiState).(divisaSeleccionada := DivisaOPorDefecto(r.value.divisa))
      ensures r.Thrown? ==> uiState == old(uiState).(error := Some(PrefijoErrorCarga + MessageText(r.message)))
    {
      match r
      case Done(u) => uiState := uiState.(divisaSeleccionada := DivisaOPorDefecto(u.divisa));
      case Thrown(m) => uiState := uiState.(error := Some(PrefijoErrorCarga + MessageText(m)));
    }

    method SeleccionarDivisa(codigoDivisa: string)
      modifies this`uiState
      ensures uiState == old(uiState).(divisaSeleccionada := codigoDivisa)
    {
      uiState := uiState.(divisaSeleccionada := codigoDivisa);
    }

    /**
     * `guardarDivisa` as one transition, given the outcome of fetching the
     * user and of the update. When the fetch succeeds the user goes back
     * with the selected currency, and a failed update is swallowed:
     * loading ends, no error is shown and `onSuccess` is still called. Only
     * a failed fetch reports an error.
     */
    method GuardarDivisa(usuarioId: int, obtenido: Attempt<Usuario>, actualizado: Attempt<Usuario>)
      modifies this`uiState, this`actualizaciones, this`exitos
      ensures obtenido.Done? ==> (
        actualizaciones == old(actualizaciones) +
          [Actualizacion(usuarioId, obtenido.value.(divisa := old(uiState.divisaSeleccionada)))]
        && uiState == old(uiState).(isLoading := false, error := None)
        && exitos == old(exitos) + 1)
      ensures obtenido.Thrown? ==> (
        actualizaciones == old(actualizaciones)
        && uiState == old(uiState).(isLoading := false, error := Some(PrefijoErrorGuardado + MessageText(obtenido.message)))
        && exitos == old(exitos))
    {
      uiState := uiState.(isLoading := true, error := None);
      match obtenido
      case Done(usuarioActual) =>
        var usuarioActualizado := usuarioActual.(divisa := uiState.divisaSeleccionada);
        actualizaciones := actualizaciones + [Actualizacion(usuarioId, usuarioActualizado)];
        if actualizado.Done? {
          uiState := uiState.(isLoading := false);
          exitos := exitos + 1;
        } else {
          uiState := uiState.(isLoading := false);
          exitos := exitos + 1;
        }
      case Thrown(m) =>
        uiState := uiState.(isLoading := false, error := Some(PrefijoErrorGuardado + MessageText(m)));
    }
  }
}
