/**
 * The savings-goal view-model (`MetaViewModel`): the list of goals, the
 * selected goal, and the handlers for loading, creating, updating,
 * recording a saved amount and deleting.
 */
module Meta {
  import opened Wrappers
  import opened Calendar
  import opened ListOps
  import opened Dto

  datatype MetaUiState = MetaUiState(
    metas: seq<MetaAhorro>,
    metaSeleccionada: Option<MetaAhorro>,
    isLoading: bool,
    error: Option<string>,
    metaCreada: bool)

  const InitialUiState: MetaUiState := MetaUiState([], None, false, None, false)
  const ErrorDesconocido: string := "Error desconocido"

  datatype Request =
    | CargarMetasRequest(usuarioId: int)
    | CrearMetaRequest(dto: MetaAhorro)
    | ActualizarMetaRequest(id: int, dto: MetaAhorro)
    | EliminarMetaRequest(id: int)

  /** `metaId?.let { metas.find { it.metaAhorroId == id } }`. */
  function Seleccion(metas: seq<MetaAhorro>, metaId: Option<int>): (r: Option<MetaAhorro>)
    ensures metaId.None? ==> r.None?
    ensures metaId.Some? ==> r == FindById(metas, MetaKey, metaId.value)
    ensures r.Some? ==> r.value in metas && r.value.metaAhorroId == metaId.value
  {
    if metaId.Some? then FindById(metas, MetaKey, metaId.value) else None
  }

  /** The goal with `metaAhorroId` replaced: only the saved amount and its date differ. */
  function ConMontoAhorrado(meta: MetaAhorro, monto: real, fecha: DateTime): (r: MetaAhorro)
    ensures r.montoAhorrado == Some(monto) && r.fechaMontoAhorrado == Some(fecha)
    ensures r.(montoAhorrado := meta.montoAhorrado, fechaMontoAhorrado := meta.fechaMontoAhorrado) == meta
  {
    meta.(montoAhorrado := Some(monto), fechaMontoAhorrado := Some(fecha))
  }

  class MetaViewModel {
    /** The private `usuarioId`, 0 until `setUsuarioId`; only `actualizarMeta` reads it. */
    var usuarioId: int
    var uiState: MetaUiState
    var requests: seq<Request>

    constructor ()
      ensures usuarioId == 0 && uiState == InitialUiState && requests == []
    {
      usuarioId := 0;
      uiState := InitialUiState;
      requests := [];
    }

    method SetUsuarioId(id: int)
      modifies this`usuarioId
      ensures usuarioId == id
    {
      usuarioId := id;
    }

    /** `cargarMetas` up to its fetch: loading on, error cleared, the fetch made. */
    method CargarMetas(usuarioIdParam: int)
      modifies this`uiState, this`requests
      ensures uiState == old(uiState).(isLoading := true, error := None)
      ensures requests == old(requests) + [CargarMetasRequest(usuarioIdParam)]
    {
      uiState := uiState.(isLoading := true, error := None);
      requests := requests + [CargarMetasRequest(usuarioIdParam)];
    }

    /**
     * The fetch's outcome: the list is replaced and the goal with `metaId`
     * selected (none without an id); a thrown exception leaves the list and
     * the selection and reports "Error: " + its message.
     */
    method OnMetasCargadas(metaId: Option<int>, result: Attempt<seq<MetaAhorro>>)
      modifies this`uiState
      ensures result.Done? ==> uiState == old(uiState).(isLoading := false, metas := result.value,
        metaSeleccionada := Seleccion(result.value, metaId))
      ensures result.Thrown? ==> uiState == old(uiState).(isLoading := false, error := Some("Error: " + MessageText(result.message)))
    {
      match result
      case Done(metas) =>
        uiState := uiState.(isLoading := false, metas := metas, metaSeleccionada := Seleccion(metas, metaId));
      case Thrown(m) =>
        uiState := uiState.(isLoading := false, error := Some("Error: " + MessageText(m)));
    }

    /** `obtenerMetas`: the first goal in the list with that id. */
    function ObtenerMetas(metaId: int): (r: Option<MetaAhorro>)
      reads this
      ensures r.None? <==> forall j :: 0 <= j < |uiState.metas| ==> uiState.metas[j].metaAhorroId != metaId
      ensures r.Some? ==> r.value in uiState.metas && r.value.metaAhorroId == metaId
    {
      FindById(uiState.metas, MetaKey, metaId)
    }

    /** `crearMeta`: the goal is sent with its user id overwritten by the argument. */
    method CrearMeta(dto: MetaAhorro, usuarioIdParam: int)
      modifies this`requests
      ensures requests == old(requests) + [CrearMetaRequest(dto.(usuarioId := usuarioIdParam))]
      ensures requests[|requests| - 1].dto.usuarioId == usuarioIdParam
    {
      requests := requests + [CrearMetaRequest(dto.(usuarioId := usuarioIdParam))];
    }

    /** The shared Loading and Error branches. */
    method OnLoadingOrError(result: Resource<()>)
      requires !result.Success?
      modifies this`uiState
      ensures result.Loading? ==> uiState == old(uiState).(isLoading := true, error := None)
      ensures result.Error? ==> uiState == old(uiState).(isLoading := false, error := Some(result.message.GetOr(ErrorDesconocido)))
      ensures uiState.metas == old(uiState.metas)
    {
      if result.Loading? {
        uiState := uiState.(isLoading := true, error := None);
      } else {
        uiState := uiState.(isLoading := false, error := Some(result.message.GetOr(ErrorDesconocido)));
      }
    }

    /** One result of the create call: a payload is appended and flags `metaCreada`; a null one only ends loading. */
    method OnCrear(result: Resource<MetaAhorro>)
      modifies this`uiState
      ensures result.Success? && result.data.Some? ==> uiState == old(uiState).(isLoading := false, metaCreada := true,
        metas := old(uiState.metas) + [result.data.value], error := None)
      ensures result.Success? && result.data.None? ==> uiState == old(uiState).(isLoading := false)
      ensures result.Loading? ==> uiState == old(uiState).(isLoading := true, error := None)
      ensures result.Error? ==> uiState == old(uiState).(isLoading := false, error := Some(result.message.GetOr(ErrorDesconocido)))
    {
      match result
      case Success(data) =>
        if data.Some? {
          uiState := uiState.(isLoading := false, metaCreada := true, metas := uiState.metas + [data.value], error := None);
        } else {
          uiState := uiState.(isLoading := false);
        }
      case Loading => OnLoadingOrError(Loading);
      case Error(m) => OnLoadingOrError(Error(m));
    }

    /** `actualizarMeta`: sent with the view-model's own user id, not the goal's. */
    method ActualizarMeta(id: int, dto: MetaAhorro)
      modifies this`requests
      ensures requests == old(requests) + [ActualizarMetaRequest(id, dto.(usuarioId := usuarioId))]
    {
      requests := requests + [ActualizarMetaRequest(id, dto.(usuarioId := usuarioId))];
    }

    /**
     * One result of the update: Success starts a reload for the stored user
     * (its first step runs at once) and then ends loading and clears the
     * selection; the list itself waits for the reload.
     */
    method OnActualizar(result: Resource<MetaAhorro>)
      modifies this`uiState, this`requests
      ensures result.Success? ==> uiState == old(uiState).(isLoading := false, metaSeleccionada := None, error := None)
      ensures result.Success? ==> requests == old(requests) + [CargarMetasRequest(usuarioId)]
      ensures result.Loading? ==> uiState == old(uiState).(isLoading := true, error := None) && requests == old(requests)
      ensures result.Error? ==>
        (uiState == old(uiState).(isLoading := false, error := Some(result.message.GetOr(ErrorDesconocido)))
         && requests == old(requests))
    {
      match result
      case Success(_) =>
        CargarMetas(usuarioId);
        uiState := uiState.(isLoading := false, metaSeleccionada := None, error := None);
      case Loading => OnLoadingOrError(Loading);
      case Error(m) => OnLoadingOrError(Error(m));
    }

    /**
     * `actualizarMontoAhorrado`: nothing for an unknown id; otherwise the
     * goal is re-sent with the saved amount and its date replaced.
     */
    method ActualizarMontoAhorrado(metaId: int, monto: real, fecha: DateTime)
      modifies this`requests
      ensures ObtenerMetas(metaId).None? ==> requests == old(requests)
      ensures ObtenerMetas(metaId).Some? ==>
        requests == old(requests) + [ActualizarMetaRequest(metaId, ConMontoAhorrado(ObtenerMetas(metaId).value, monto, fecha).(usuarioId := usuarioId))]
    {
      var metaActual := ObtenerMetas(metaId);
      if metaActual.None? {
        return;
      }
      ActualizarMeta(metaId, ConMontoAhorrado(metaActual.value, monto, fecha));
    }

    method EliminarMeta(id: int)
      modifies this`requests
      ensures requests == old(requests) + [EliminarMetaRequest(id)]
    {
      requests := requests + [EliminarMetaRequest(id)];
    }

    /** One result of the delete of `id`: Success drops the goals with that id. */
    method OnEliminar(id: int, result: Resource<()>)
      modifies this`uiState
      ensures result.Success? ==> uiState == old(uiState).(isLoading := false, error := None,
        metas := RemoveById(old(uiState.metas), MetaKey, id))
      ensures result.Loading? ==> uiState == old(uiState).(isLoading := true, error := None)
      ensures result.Error? ==> uiState == old(uiState).(isLoading := false, error := Some(result.message.GetOr(ErrorDesconocido)))
    {
      match result
      case Success(_) =>
        uiState := uiState.(isLoading := false, metas := RemoveById(uiState.metas, MetaKey, id), error := None);
      case Loading => OnLoadingOrError(Loading);
      case Error(m) => OnLoadingOrError(Error(m));
    }
  }

  /** After a delete of `id` no goal with that id remains, and a lookup finds nothing. */
  lemma DeletedMetaIsGone(metas: seq<MetaAhorro>, id: int)
    ensures FindById(RemoveById(metas, MetaKey, id), MetaKey, id).None?
  {
  }

  /** Recording a saved amount twice keeps only the second amount: the value is replaced, not added. */
  lemma MontoAhorradoReplaces(meta: MetaAhorro, a: real, b: real, f: DateTime, g: DateTime)
    ensures ConMontoAhorrado(ConMontoAhorrado(meta, a, f), b, g) == ConMontoAhorrado(meta, b, g)
  {
  }
}
