/**
 * The spending-limits view-model (`LimiteViewModel`): the list of spending
 * limits and the handlers that fold each repository result into it.
 */
module Limite {
  import opened Wrappers
  import opened ListOps
  import opened Dto

  datatype LimiteUiState = LimiteUiState(
    limites: seq<LimiteGasto>,
    isLoading: bool,
    error: Option<string>,
    limiteCreado: bool)

  const InitialUiState: LimiteUiState := LimiteUiState([], false, None, false)
  const ErrorDesconocido: string := "Error desconocido"

  datatype Request =
    | FetchCategorias(usuarioId: int)
    | CargarLimitesRequest(usuarioId: int)
    | CrearLimiteRequest(dto: LimiteGasto)
    | ActualizarLimiteRequest(id: int, dto: LimiteGasto)
    | EliminarLimiteRequest(id: int)

  class LimiteViewModel {
    var usuarioIdActual: Option<int>
    var uiState: LimiteUiState
    var categorias: seq<Categoria>
    var requests: seq<Request>

    constructor ()
      ensures usuarioIdActual == None && uiState == InitialUiState
      ensures categorias == [] && requests == []
    {
      usuarioIdActual := None;
      uiState := InitialUiState;
      categorias := [];
      requests := [];
    }

    /** `inicializar`: records the id, then fetches the categories and loads the limits. */
    method Inicializar(usuarioId: int)
      modifies this`usuarioIdActual, this`requests
      ensures usuarioIdActual == Some(usuarioId)
      ensures requests == old(requests) + [FetchCategorias(usuarioId), CargarLimitesRequest(usuarioId)]
    {
      usuarioIdActual := Some(usuarioId);
      requests := requests + [FetchCategorias(usuarioId), CargarLimitesRequest(usuarioId)];
    }

    method OnCategorias(result: Resource<seq<Categoria>>)
      modifies this`categorias
      ensures result.Loading? ==> categorias == old(categorias)
      ensures result.Success? ==> categorias == result.data.GetOr([])
      ensures result.Error? ==> categorias == []
    {
      match result
      case Loading =>
      case Success(data) => categorias := data.GetOr([]);
      case Error(_) => categorias := [];
    }

    method CargarLimites(usuarioId: int)
      modifies this`requests
      ensures requests == old(requests) + [CargarLimitesRequest(usuarioId)]
    {
      requests := requests + [CargarLimitesRequest(usuarioId)];
    }

    /** The shared Loading and Error branches: the list is never touched. */
    method OnLoadingOrError(result: Resource<()>)
      requires !result.Success?
      modifies this`uiState
      ensures result.Loading? ==> uiState == old(uiState).(isLoading := true, error := None)
      ensures result.Error? ==> uiState == old(uiState).(isLoading := false, error := Some(result.message.GetOr(ErrorDesconocido)))
      ensures uiState.limites == old(uiState.limites)
    {
      if result.Loading? {
        uiState := uiState.(isLoading := true, error := None);
      } else {
        uiState := uiState.(isLoading := false, error := Some(result.message.GetOr(ErrorDesconocido)));
      }
    }

    /** One result of the limits load: Success replaces the list (null means empty). */
    method OnLimites(result: Resource<seq<LimiteGasto>>)
      modifies this`uiState
      ensures result.Success? ==> uiState == old(uiState).(isLoading := false, limites := result.data.GetOr([]), error := None)
      ensures result.Loading? ==> uiState == old(uiState).(isLoading := true, error := None)
      ensures result.Error? ==> uiState == old(uiState).(isLoading := false, error := Some(result.message.GetOr(ErrorDesconocido)))
    {
      match result
      case Success(data) => uiState := uiState.(isLoading := false, limites := data.GetOr([]), error := None);
      case Loading => OnLoadingOrError(Loading);
      case Error(m) => OnLoadingOrError(Error(m));
    }

    method CrearLimite(dto: LimiteGasto)
      modifies this`requests
      ensures requests == old(requests) + [CrearLimiteRequest(dto)]
    {
      requests := requests + [CrearLimiteRequest(dto)];
    }

    /** One result of the create call: a payload is appended (`limiteCreado` is not set); a null one only ends loading. */
    method OnCrear(result: Resource<LimiteGasto>)
      modifies this`uiState
      ensures result.Success? && result.data.Some? ==> uiState == old(uiState).(isLoading := false,
        limites := old(uiState.limites) + [result.data.value], error := None)
      ensures result.Success? && result.data.None? ==> uiState == old(uiState).(isLoading := false)
      ensures result.Loading? ==> uiState == old(uiState).(isLoading := true, error := None)
      ensures result.Error? ==> uiState == old(uiState).(isLoading := false, error := Some(result.message.GetOr(ErrorDesconocido)))
    {
      match result
      case Success(data) =>
        if data.Some? {
          uiState := uiState.(isLoading := false, limites := uiState.limites + [data.value], error := None);
        } else {
          uiState := uiState.(isLoading := false);
        }
      case Loading => OnLoadingOrError(Loading);
      case Error(m) => OnLoadingOrError(Error(m));
    }

    method ActualizarLimite(id: int, dto: LimiteGasto)
      modifies this`requests
      ensures requests == old(requests) + [ActualizarLimiteRequest(id, dto)]
    {
      requests := requests + [ActualizarLimiteRequest(id, dto)];
    }

    /** One result of the update of `id`: every limit with that id becomes the payload, if there is one. */
    method OnActualizar(id: int, result: Resource<LimiteGasto>)
      modifies this`uiState
      ensures result.Success? ==> uiState == old(uiState).(isLoading := false, error := None,
        limites := MapWhere(old(uiState.limites), LimiteKey, id, result.data))
      ensures result.Loading? ==> uiState == old(uiState).(isLoading := true, error := None)
      ensures result.Error? ==> uiState == old(uiState).(isLoading := false, error := Some(result.message.GetOr(ErrorDesconocido)))
    {
      match result
      case Success(data) =>
        var lista := MapWhere(uiState.limites, LimiteKey, id, data);
        uiState := uiState.(isLoading := false, limites := lista, error := None);
      case Loading => OnLoadingOrError(Loading);
      case Error(m) => OnLoadingOrError(Error(m));
    }

    method EliminarLimite(id: int)
      modifies this`requests
      ensures requests == old(requests) + [EliminarLimiteRequest(id)]
    {
      requests := requests + [EliminarLimiteRequest(id)];
    }

    /** One result of the delete of `id`: Success drops the limits with that id. */
    method OnEliminar(id: int, result: Resource<()>)
      modifies this`uiState
      ensures result.Success? ==> uiState == old(uiState).(isLoading := false, error := None,
        limites := RemoveById(old(uiState.limites), LimiteKey, id))
      ensures result.Loading? ==> uiState == old(uiState).(isLoading := true, error := None)
      ensures result.Error? ==> uiState == old(uiState).(isLoading := false, error := Some(result.message.GetOr(ErrorDesconocido)))
    {
      match result
      case Success(_) =>
        uiState := uiState.(isLoading := false, limites := RemoveById(uiState.limites, LimiteKey, id), error := None);
      case Loading => OnLoadingOrError(Loading);
      case Error(m) => OnLoadingOrError(Error(m));
    }
  }

  /** A successful update whose payload keeps the id is what a lookup of that id then finds. */
  lemma UpdatedLimiteIsFound(limites: seq<LimiteGasto>, id: int, x: LimiteGasto)
    requires x.limiteGastoId == id && exists j :: 0 <= j < |limites| && limites[j].limiteGastoId == id
    ensures FindById(MapWhere(limites, LimiteKey, id, Some(x)), LimiteKey, id) == Some(x)
  {
    MapWhereFind(limites, LimiteKey, id, x);
  }

  /** A successful create with a fresh id makes the new limit findable. */
  lemma CreatedLimiteIsFound(limites: seq<LimiteGasto>, x: LimiteGasto)
    requires forall j :: 0 <= j < |limites| ==> limites[j].limiteGastoId != x.limiteGastoId
    ensures FindById(limites + [x], LimiteKey, x.limiteGastoId) == Some(x)
  {
    AppendFind(limites, LimiteKey, x);
  }
}
