/**
 * The recurring-payments view-model (`PagoViewModel`): the list of
 * recurring payments and the handlers that fold each repository result
 * into it.
 */
module Pago {
  import opened Wrappers
  import opened ListOps
  import opened Dto

  datatype PagoUiState = PagoUiState(
    pagos: seq<PagoRecurrente>,
    isLoading: bool,
    error: Option<string>,
    pagoCreado: bool)

  const InitialUiState: PagoUiState := PagoUiState([], false, None, false)
  const ErrorDesconocido: string := "Error desconocido"

  datatype Request =
    | FetchCategorias(usuarioId: int)
    | CargarPagos(usuarioId: int)
    | CrearPago(dto: PagoRecurrente)
    | ActualizarPago(id: int, dto: PagoRecurrente)
    | EliminarPago(id: int)

  class PagoViewModel {
    var usuarioIdActual: Option<int>
    var uiState: PagoUiState
    var categorias: seq<Categoria>
    var requests: seq<Request>
    var eliminaciones: nat

    constructor ()
      ensures usuarioIdActual == None && uiState == InitialUiState
      ensures categorias == [] && requests == [] && eliminaciones == 0
    {
      usuarioIdActual := None;
      uiState := InitialUiState;
      categorias := [];
      requests := [];
      eliminaciones := 0;
    }

    /** `inicializar`: records the id and fetches the categories; the payments load separately. */
    method Inicializar(usuarioId: int)
      modifies this`usuarioIdActual, this`requests
      ensures usuarioIdActual == Some(usuarioId)
      ensures requests == old(requests) + [FetchCategorias(usuarioId)]
    {
      usuarioIdActual := Some(usuarioId);
      requests := requests + [FetchCategorias(usuarioId)];
    }

    method OnCategorias(result: Resource<seq<Categoria>>)
      modifies this`categorias
      ensures result.Loading? ==> categorias == old(categorias)
      ensures result.Success? ==> categorias == result.data.GetOr([])
      ensures result.Error? ==> categorias == []
    {
      match result
      case Loading =>
      case Success(data) => categorias := data.GetOr([]);
      case Error(_) => categorias := [];
    }

    method CargarPagosRecurrentes(usuarioId: int)
      modifies this`requests
      ensures requests == old(requests) + [CargarPagos(usuarioId)]
    {
      requests := requests + [CargarPagos(usuarioId)];
    }

    /** The shared Loading and Error branches: the list is never touched. */
    method OnLoadingOrError(result: Resource<()>)
      requires !result.Success?
      modifies this`uiState
      ensures result.Loading? ==> uiState == old(uiState).(isLoading := true, error := None)
      ensures result.Error? ==> uiState == old(uiState).(isLoading := false, error := Some(result.message.GetOr(ErrorDesconocido)))
      ensures uiState.pagos == old(uiState.pagos)
    {
      if result.Loading? {
        uiState := uiState.(isLoading := true, error := None);
      } else {
        uiState := uiState.(isLoading := false, error := Some(result.message.GetOr(ErrorDesconocido)));
      }
    }

    /** One result of the payments load: Success replaces the list (null means empty). */
    method OnPagos(result: Resource<seq<PagoRecurrente>>)
      modifies this`uiState
      ensures result.Success? ==> uiState == old(uiState).(isLoading := false, pagos := result.data.GetOr([]), error := None)
      ensures result.Loading? ==> uiState == old(uiState).(isLoading := true, error := None)
      ensures result.Error? ==> uiState == old(uiState).(isLoading := false, error := Some(result.message.GetOr(ErrorDesconocido)))
    {
      match result
      case Success(data) => uiState := uiState.(isLoading := false, pagos := data.GetOr([]), error := None);
      case Loading => OnLoadingOrError(Loading);
      case Error(m) => OnLoadingOrError(Error(m));
    }

    method CrearPagoRecurrente(dto: PagoRecurrente)
      modifies this`requests
      ensures requests == old(requests) + [CrearPago(dto)]
    {
      requests := requests + [CrearPago(dto)];
    }

    /** One result of the create call: a payload is appended and flags `pagoCreado`; a null one only ends loading. */
    method OnCrear(result: Resource<PagoRecurrente>)
      modifies this`uiState
      ensures result.Success? && result.data.Some? ==> uiState == old(uiState).(isLoading := false, pagoCreado := true,
        pagos := old(uiState.pagos) + [result.data.value], error := None)
      ensures result.Success? && result.data.None? ==> uiState == old(uiState).(isLoading := false)
      ensures result.Loading? ==> uiState == old(uiState).(isLoading := true, error := None)
      ensures result.Error? ==> uiState == old(uiState).(isLoading := false, error := Some(result.message.GetOr(ErrorDesconocido)))
    {
      match result
      case Success(data) =>
        if data.Some? {
          uiState := uiState.(isLoading := false, pagoCreado := true, pagos := uiState.pagos + [data.value], error := None);
        } else {
          uiState := uiState.(isLoading := false);
        }
      case Loading => OnLoadingOrError(Loading);
      case Error(m) => OnLoadingOrError(Error(m));
    }

    method ActualizarPagoRecurrente(id: int, dto: PagoRecurrente)
      modifies this`requests
      ensures requests == old(requests) + [ActualizarPago(id, dto)]
    {
      requests := requests + [ActualizarPago(id, dto)];
    }

    /** One result of the update of `id`: every payment with that id becomes the payload, if there is one. */
    method OnActualizar(id: int, result: Resource<PagoRecurrente>)
      modifies this`uiState
      ensures result.Success? ==> uiState == old(uiState).(isLoading := false, error := None,
        pagos := MapWhere(old(uiState.pagos), PagoKey, id, result.data))
      ensures result.Loading? ==> uiState == old(uiState).(isLoading := true, error := None)
      ensures result.Error? ==> uiState == old(uiState).(isLoading := false, error := Some(result.message.GetOr(ErrorDesconocido)))
    {
      match result
      case Success(data) =>
        var lista := MapWhere(uiState.pagos, PagoKey, id, data);
        uiState := uiState.(isLoading := false, pagos := lista, error := None);
      case Loading => OnLoadingOrError(Loading);
      case Error(m) => OnLoadingOrError(Error(m));
    }

    method EliminarPagoRecurrente(id: int)
      modifies this`requests
      ensures requests == old(requests) + [EliminarPago(id)]
    {
      requests := requests + [EliminarPago(id)];
    }

    /** One result of the delete of `id`: Success drops the payments with that id and emits one event. */
    method OnEliminar(id: int, result: Resource<()>)
      modifies this`uiState, this`eliminaciones
      ensures result.Success? ==> uiState == old(uiState).(isLoading := false, error := None,
        pagos := RemoveById(old(uiState.pagos), PagoKey, id))
      ensures result.Loading? ==> uiState == old(uiState).(isLoading := true, error := None)
      ensures result.Error? ==> uiState == old(uiState).(isLoading := false, error := Some(result.message.GetOr(ErrorDesconocido)))
      ensures eliminaciones == old(eliminaciones) + (if result.Success? then 1 else 0)
    {
      match result
      case Success(_) =>
        uiState := uiState.(isLoading := false, pagos := RemoveById(uiState.pagos, PagoKey, id), error := None);
        eliminaciones := eliminaciones + 1;
      case Loading => OnLoadingOrError(Loading);
      case Error(m) => OnLoadingOrError(Error(m));
    }
  }

  /** A successful update whose payload keeps the id is what a lookup of that id then finds. */
  lemma UpdatedPagoIsFound(pagos: seq<PagoRecurrente>, id: int, x: PagoRecurrente)
    requires x.pagoRecurrenteId == id && exists j :: 0 <= j < |pagos| && pagos[j].pagoRecurrenteId == id
    ensures FindById(MapWhere(pagos, PagoKey, id, Some(x)), PagoKey, id) == Some(x)
  {
    MapWhereFind(pagos, PagoKey, id, x);
  }

  /** A successful create with a fresh id makes the new payment findable. */
  lemma CreatedPagoIsFound(pagos: seq<PagoRecurrente>, x: PagoRecurrente)
    requires forall j :: 0 <= j < |pagos| ==> pagos[j].pagoRecurrenteId != x.pagoRecurrenteId
    ensures FindById(pagos + [x], PagoKey, x.pagoRecurrenteId) == Some(x)
  {
    AppendFind(pagos, PagoKey, x);
  }
}
