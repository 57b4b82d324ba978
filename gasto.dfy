/**
 * The transactions view-model (`GastoViewModel`): the in-memory list of the
 * user's transactions, the date-window and type filters applied to it, and
 * the handlers that fold each repository result into the ui-state.
 */
module Gasto {
  import opened Wrappers
  import opened Text
  import opened Calendar
  import opened ListOps
  import opened Dto

  datatype GastoUiState = GastoUiState(
    transacciones: seq<Transaccion>,
    filtro: string,
    tipoSeleccionado: string,
    isLoading: bool,
    error: Option<string>)

  /** The initial ui-state; note the initial filter "Dia" has no accent. */
  const InitialUiState: GastoUiState := GastoUiState([], "Dia", "Gasto", false, None)

  const ErrorDesconocido: string := "Error desconocido"
  const ErrorActualizando: string := "Error actualizando transacción"

  /** The repository calls the view-model launches. */
  datatype Request =
    | FetchCategorias(usuarioId: int)
    | CargarTransacciones(usuarioId: int)
    | CargarDatos(usuarioId: int)
    | CrearTransaccion(dto: Transaccion)
    | ActualizarTransaccion(id: int, dto: Transaccion)
    | EliminarTransaccion(id: int)

  /** The four window names `filtrarTransaccionesPorFecha` recognises. */
  predicate IsDateFilter(filtro: string) {
    filtro == "Día" || filtro == "Semana" || filtro == "Mes" || filtro == "Año"
  }

  /**
   * Whether the window `filtro` around today `hoy` holds the date `d`:
   * the same day; Monday..Sunday of today's ISO week, both inclusive
   * (compared on the day line, which is the `LocalDate` order by
   * `Calendar.IsBeforeIffDayNumber`); the same month and year; the same year.
   */
  predicate InDateWindow(filtro: string, hoy: LocalDate, d: LocalDate) {
    if filtro == "Día" then d == hoy
    else if filtro == "Semana" then WeekMonday(DayNumber(hoy)) <= DayNumber(d) <= WeekSunday(DayNumber(hoy))
    else if filtro == "Mes" then d.month == hoy.month && d.year == hoy.year
    else if filtro == "Año" then d.year == hoy.year
    else true
  }

  /**
   * `filtrarTransaccionesPorFecha`: the transactions whose local date lies in
   * the window, in their original order; an unrecognised filter name
   * returns the list as it is.
   */
  function FiltrarTransaccionesPorFecha(txs: seq<Transaccion>, filtro: string, hoy: LocalDate): (r: seq<Transaccion>)
    ensures |r| <= |txs|
    ensures forall i :: 0 <= i < |r| ==> r[i] in txs && InDateWindow(filtro, hoy, r[i].fecha.date)
    ensures forall i :: 0 <= i < |txs| && InDateWindow(filtro, hoy, txs[i].fecha.date) ==> txs[i] in r
    ensures !IsDateFilter(filtro) ==> r == txs
  {
    if IsDateFilter(filtro) then Filter(txs, (t: Transaccion) => InDateWindow(filtro, hoy, t.fecha.date))
    else txs
  }

  /** The week window holds exactly the dates of today's ISO week. */
  lemma WeekWindowIsIsoWeek(hoy: LocalDate, d: LocalDate)
    ensures InDateWindow("Semana", hoy, d) <==> WeekMonday(DayNumber(d)) == WeekMonday(DayNumber(hoy))
  {
    if InDateWindow("Semana", hoy, d) {
      SameWeekSameMonday(DayNumber(hoy), DayNumber(d));
    }
  }

  /** The windows are nested: today lies in this week, this month and this year. */
  lemma WindowsNested(hoy: LocalDate, d: LocalDate)
    ensures InDateWindow("Día", hoy, d) ==> InDateWindow("Semana", hoy, d) && InDateWindow("Mes", hoy, d)
    ensures InDateWindow("Mes", hoy, d) ==> InDateWindow("Año", hoy, d)
    ensures InDateWindow("Día", hoy, hoy)
  {
  }

  /** Type match of `transaccionesFiltradas`: both sides trimmed, case ignored. */
  predicate TipoCoincide(t: Transaccion, tipo: string) {
    EqualsIgnoreCase(Trim(t.tipo), Trim(tipo))
  }

  /**
   * `transaccionesFiltradas`: the date window of the state's filter, then
   * the transactions of the selected type.
   */
  function TransaccionesFiltradas(st: GastoUiState, hoy: LocalDate): (r: seq<Transaccion>)
    ensures forall i :: 0 <= i < |r| ==>
      (r[i] in st.transacciones && InDateWindow(st.filtro, hoy, r[i].fecha.date) && TipoCoincide(r[i], st.tipoSeleccionado))
    ensures forall i :: 0 <= i < |st.transacciones| ==>
      var t := st.transacciones[i];
      InDateWindow(st.filtro, hoy, t.fecha.date) && TipoCoincide(t, st.tipoSeleccionado) ==> t in r
  {
    var porFecha := FiltrarTransaccionesPorFecha(st.transacciones, st.filtro, hoy);
    Filter(porFecha, (t: Transaccion) => TipoCoincide(t, st.tipoSeleccionado))
  }

  /** Under the initial filter "Dia" only the type selects: the date window lets everything through. */
  lemma InitialFilterKeepsAllDates(st: GastoUiState, hoy: LocalDate)
    requires st.filtro == "Dia"
    ensures TransaccionesFiltradas(st, hoy) == Filter(st.transacciones, (t: Transaccion) => TipoCoincide(t, st.tipoSeleccionado))
  {
  }

  class GastoViewModel {
    var usuarioIdActual: Option<int>
    var uiState: GastoUiState
    var categorias: seq<Categoria>
    /** The repository calls launched so far, oldest first. */
    var requests: seq<Request>
    /** How many events `eventoEliminacion` has emitted. */
    var eliminaciones: nat

    constructor ()
      ensures usuarioIdActual == None && uiState == InitialUiState
      ensures categorias == [] && requests == [] && eliminaciones == 0
    {
      usuarioIdActual := None;
      uiState := InitialUiState;
      categorias := [];
      requests := [];
      eliminaciones := 0;
    }

    /**
     * `inicializar`: a non-positive id is ignored; an id other than the
     * current one is recorded and starts the category fetch, the
     * transaction load and two summary loads; the same id again does nothing.
     */
    method Inicializar(usuarioId: int)
      modifies this
      ensures usuarioId <= 0 || old(usuarioIdActual) == Some(usuarioId) ==> unchanged(this)
      ensures usuarioId > 0 && old(usuarioIdActual) != Some(usuarioId) ==>
        usuarioIdActual == Some(usuarioId)
        && requests == old(requests) + [FetchCategorias(usuarioId), CargarTransacciones(usuarioId),
                                        CargarDatos(usuarioId), CargarDatos(usuarioId)]
      ensures uiState == old(uiState) && categorias == old(categorias) && eliminaciones == old(eliminaciones)
    {
      if usuarioId <= 0 {
        return;
      }
      if usuarioIdActual != Some(usuarioId) {
        usuarioIdActual := Some(usuarioId);
        requests := requests + [FetchCategorias(usuarioId), CargarTransacciones(usuarioId),
                                CargarDatos(usuarioId), CargarDatos(usuarioId)];
      }
    }

    /** One result of the category fetch: Loading is ignored, Success stores the list, Error empties it. */
    method OnCategorias(result: Resource<seq<Categoria>>)
      modifies this`categorias
      ensures result.Loading? ==> categorias == old(categorias)
      ensures result.Success? ==> categorias == result.data.GetOr([])
      ensures result.Error? ==> categorias == []
    {
      match result
      case Loading =>
      case Success(data) => categorias := data.GetOr([]);
      case Error(_) => categorias := [];
    }

    /** The shared Loading branch: loading on, error cleared, list untouched. */
    method OnLoading()
      modifies this`uiState
      ensures uiState == old(uiState).(isLoading := true, error := None)
    {
      uiState := uiState.(isLoading := true, error := None);
    }

    /** One result of `cargarTransacciones`: Success replaces the list (null means empty). */
    method OnTransacciones(result: Resource<seq<Transaccion>>)
      modifies this`uiState
      ensures result.Loading? ==> uiState == old(uiState).(isLoading := true, error := None)
      ensures result.Success? ==>
        uiState == old(uiState).(isLoading := false, transacciones := result.data.GetOr([]), error := None)
      ensures result.Error? ==>
        uiState == old(uiState).(isLoading := false, error := Some(result.message.GetOr(ErrorDesconocido)))
    {
      match result
      case Loading => OnLoading();
      case Success(data) =>
        uiState := uiState.(isLoading := false, transacciones := data.GetOr([]), error := None);
      case Error(msg) =>
        uiState := uiState.(isLoading := false, error := Some(msg.GetOr(ErrorDesconocido)));
    }

    /** `cambiarFiltro`: only the filter changes. */
    method CambiarFiltro(filtro: string)
      modifies this`uiState
      ensures uiState == old(uiState).(filtro := filtro)
    {
      uiState := uiState.(filtro := filtro);
    }

    /** `cambiarTipo`: only the selected type changes, and a known user gets a summary reload. */
    method CambiarTipo(tipo: string)
      modifies this`uiState, this`requests
      ensures uiState == old(uiState).(tipoSeleccionado := tipo)
      ensures requests == old(requests) + (if usuarioIdActual.Some? then [CargarDatos(usuarioIdActual.value)] else [])
    {
      uiState := uiState.(tipoSeleccionado := tipo);
      if usuarioIdActual.Some? {
        requests := requests + [CargarDatos(usuarioIdActual.value)];
      }
    }

    method CrearTransaccion(dto: Transaccion)
      modifies this`requests
      ensures requests == old(requests) + [Request.CrearTransaccion(dto)]
    {
      requests := requests + [Request.CrearTransaccion(dto)];
    }

    /** One result of the create call: a non-null payload is appended; Success leaves `error` as it was. */
    method OnCrear(result: Resource<Transaccion>)
      modifies this`uiState
      ensures result.Loading? ==> uiState == old(uiState).(isLoading := true, error := None)
      ensures result.Success? ==> uiState == old(uiState).(isLoading := false,
        transacciones := old(uiState.transacciones) + (if result.data.Some? then [result.data.value] else []))
      ensures result.Error? ==>
        uiState == old(uiState).(isLoading := false, error := Some(result.message.GetOr(ErrorDesconocido)))
    {
      match result
      case Loading => OnLoading();
      case Success(data) =>
        var lista := uiState.transacciones;
        if data.Some? {
          lista := lista + [data.value];
        }
        uiState := uiState.(isLoading := false, transacciones := lista);
      case Error(msg) =>
        uiState := uiState.(isLoading := false, error := Some(msg.GetOr(ErrorDesconocido)));
    }

    method ActualizarTransaccion(dto: Transaccion)
      modifies this`requests
      ensures requests == old(requests) + [Request.ActualizarTransaccion(dto.transaccionId, dto)]
    {
      requests := requests + [Request.ActualizarTransaccion(dto.transaccionId, dto)];
    }

    /**
     * One result of the update call for `dto`: Success writes the argument
     * (not the payload) over the first transaction with its id.
     */
    method OnActualizar(dto: Transaccion, result: Resource<Transaccion>)
      modifies this`uiState
      ensures result.Loading? ==> uiState == old(uiState).(isLoading := true, error := None)
      ensures result.Success? ==> uiState == old(uiState).(isLoading := false, error := None,
        transacciones := ReplaceFirst(old(uiState.transacciones), TransaccionKey, dto.transaccionId, dto))
      ensures result.Error? ==>
        uiState == old(uiState).(isLoading := false, error := Some(result.message.GetOr(ErrorActualizando)))
    {
      match result
      case Loading => OnLoading();
      case Success(_) =>
        var lista := ReplaceFirst(uiState.transacciones, TransaccionKey, dto.transaccionId, dto);
        uiState := uiState.(isLoading := false, transacciones := lista, error := None);
      case Error(msg) =>
        uiState := uiState.(isLoading := false, error := Some(msg.GetOr(ErrorActualizando)));
    }

    method EliminarTransaccion(id: int)
      modifies this`requests
      ensures requests == old(requests) + [Request.EliminarTransaccion(id)]
    {
      requests := requests + [Request.EliminarTransaccion(id)];
    }

    /** One result of the delete call: Success drops every transaction with the id and emits one event. */
    method OnEliminar(id: int, result: Resource<()>)
      modifies this`uiState, this`eliminaciones
      ensures result.Loading? ==> uiState == old(uiState).(isLoading := true, error := None)
      ensures result.Success? ==> uiState == old(uiState).(isLoading := false, error := None,
        transacciones := RemoveById(old(uiState.transacciones), TransaccionKey, id))
      ensures result.Error? ==>
        uiState == old(uiState).(isLoading := false, error := Some(result.message.GetOr(ErrorDesconocido)))
      ensures eliminaciones == old(eliminaciones) + (if result.Success? then 1 else 0)
    {
      match result
      case Loading => OnLoading();
      case Success(_) =>
        uiState := uiState.(isLoading := false, transacciones := RemoveById(uiState.transacciones, TransaccionKey, id), error := None);
        eliminaciones := eliminaciones + 1;
      case Error(msg) =>
        uiState := uiState.(isLoading := false, error := Some(msg.GetOr(ErrorDesconocido)));
    }

    /** `obtenerTransaccionPorId`: the first transaction with the id, or none when no transaction has it. */
    method ObtenerTransaccionPorId(id: int) returns (r: Option<Transaccion>)
      ensures r.None? <==> forall j :: 0 <= j < |uiState.transacciones| ==> uiState.transacciones[j].transaccionId != id
      ensures r.Some? ==> r.value in uiState.transacciones && r.value.transaccionId == id
      ensures r.Some? ==> exists k :: (0 <= k < |uiState.transacciones| && uiState.transacciones[k] == r.value
        && forall j :: 0 <= j < k ==> uiState.transacciones[j].transaccionId != id)
    {
      r := FindById(uiState.transacciones, TransaccionKey, id);
    }
  }

  /** An update leaves the list length alone, and leaves the list as it was when no id matches. */
  lemma UpdateKeepsLength(txs: seq<Transaccion>, dto: Transaccion)
    ensures |ReplaceFirst(txs, TransaccionKey, dto.transaccionId, dto)| == |txs|
    ensures (forall j :: 0 <= j < |txs| ==> txs[j].transaccionId != dto.transaccionId) ==>
      ReplaceFirst(txs, TransaccionKey, dto.transaccionId, dto) == txs
  {
  }

  /** After an update the argument can be found by its id. */
  lemma UpdatedIsFound(txs: seq<Transaccion>, dto: Transaccion)
    requires exists j :: 0 <= j < |txs| && txs[j].transaccionId == dto.transaccionId
    ensures FindById(ReplaceFirst(txs, TransaccionKey, dto.transaccionId, dto), TransaccionKey, dto.transaccionId) == Some(dto)
  {
    var i := IndexWhere(txs, TransaccionKey, dto.transaccionId).value;
    var r := ReplaceFirst(txs, TransaccionKey, dto.transaccionId, dto);
    assert r == txs[i := dto];
    var k := IndexWhere(r, TransaccionKey, dto.transaccionId);
    assert r[i].transaccionId == dto.transaccionId;
    assert k.Some?;
    assert k.value == i;
  }

  /** After a delete no transaction with the id remains, so the lookup finds none. */
  lemma DeletedIsGone(txs: seq<Transaccion>, id: int)
    ensures FindById(RemoveById(txs, TransaccionKey, id), TransaccionKey, id).None?
  {
  }
}
