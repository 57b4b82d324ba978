/**
 * The profile-photo screen's view-model (`CambiarFotoViewModel`): loading
 * the user, choosing a photo, the guards and outcomes of saving it, and the
 * flag setters. A `Uri` is modelled by its text.
 */
module Foto {
  import opened Wrappers
  import opened Dto

  /**
   * The ui state. `fotoPerfilUri` is read and written by the view-model but
   * missing from the shown data class; it is added here.
   */
  datatype CambiarFotoUiState = CambiarFotoUiState(
    usuarioId: Option<int>,
    nombreUsuario: string,
    apellidoUsuario: string,
    fotoPerfilPath: Option<string>,
    fotoPerfilUrl: Option<string>,
    fotoPerfilUri: Option<string>,
    isLoading: bool,
    isUploadingFoto: bool,
    isError: bool,
    errorMessage: string,
    fotoGuardadaExitosamente: bool,
    mostrarOpcionesFoto: bool)

  const InitialUiState: CambiarFotoUiState :=
    CambiarFotoUiState(None, "", "", None, None, None, false, false, false, "", false, false)

  const PrefijoConexion: string := "Error de conexión: "
  const MsgIdInvalido: string := "Error: ID de usuario no válido"
  const MsgSinFoto: string := "Por favor selecciona una foto antes de guardar"

  /** The messages for HTTP errors while loading the user. */
  function MensajeCarga(code: int): (m: string)
    ensures code == 404 ==> m == "Usuario no encontrado"
    ensures code == 401 ==> m == "No autorizado"
    ensures code == 500 ==> m == "Error del servidor"
    ensures code !in {404, 401, 500} ==> m == "Error al cargar los datos del usuario"
  {
    if code == 404 then "Usuario no encontrado"
    else if code == 401 then "No autorizado"
    else if code == 500 then "Error del servidor"
    else "Error al cargar los datos del usuario"
  }

  /** The messages for HTTP errors while saving the photo. */
  function MensajeGuardado(code: int): (m: string)
    ensures code == 400 ==> m == "Formato de imagen no válido"
    ensures code == 413 ==> m == "La imagen es demasiado grande"
    ensures code == 401 ==> m == "No autorizado"
    ensures code == 500 ==> m == "Error del servidor"
    ensures code !in {400, 413, 401, 500} ==> m == "Error al guardar la foto"
  {
    if code == 400 then "Formato de imagen no válido"
    else if code == 413 then "La imagen es demasiado grande"
    else if code == 401 then "No autorizado"
    else if code == 500 then "Error del servidor"
    else "Error al guardar la foto"
  }

  /** The one guard of `guardarFotoPerfil` that fails first, if any. */
  function GuardaGuardado(st: CambiarFotoUiState): (r: Option<string>)
    ensures r.None? <==> st.usuarioId.Some? && st.fotoPerfilUri.Some?
    ensures st.usuarioId.None? ==> r == Some(MsgIdInvalido)
    ensures r == Some(MsgSinFoto) <==> st.usuarioId.Some? && st.fotoPerfilUri.None?
  {
    if st.usuarioId.None? then Some(MsgIdInvalido)
    else if st.fotoPerfilUri.None? then Some(MsgSinFoto)
    else None
  }

  class CambiarFotoViewModel {
    var uiState: CambiarFotoUiState
    /** The ids passed to the launched `getUsuario` calls. */
    var cargas: seq<int>
    /** The photo uri `guardarFotoPerfil` captured for the upload it launched, while that upload runs. */
    var subida: Option<string>

    constructor ()
      ensures uiState == InitialUiState && cargas == [] && subida.None?
    {
      uiState := InitialUiState;
      cargas := [];
      subida := None;
    }

    /** The start of `cargarDatosUsuario`: loading on, error cleared, the user requested. */
    method CargarDatosUsuario(usuarioId: int)
      modifies this`uiState, this`cargas
      ensures uiState == old(uiState).(isLoading := true, isError := false, errorMessage := "")
      ensures cargas == old(cargas) + [usuarioId]
    {
      uiState := uiState.(isLoading := true, isError := false, errorMessage := "");
      cargas := cargas + [usuarioId];
    }

    /** The rest of `cargarDatosUsuario` for user `usuarioId`. */
    method OnUsuarioCargado(usuarioId: int, r: Llamada<Usuario>)
      modifies this`uiState
      ensures r.Ok? ==> uiState == old(uiState).(usuarioId := Some(usuarioId), nombreUsuario := r.value.nombre,
        apellidoUsuario := r.value.apellido, fotoPerfilUrl := r.value.fotoPerfil,
        isLoading := false, isError := false, errorMessage := "")
      ensures r.HttpError? ==> uiState == old(uiState).(isLoading := false, isError := true, errorMessage := MensajeCarga(r.code))
      ensures r.Failure? ==>
        uiState == old(uiState).(isLoading := false, isError := true, errorMessage := PrefijoConexion + MessageText(r.message))
    {
      match r
      case Ok(u) =>
        uiState := uiState.(usuarioId := Some(usuarioId), nombreUsuario := u.nombre, apellidoUsuario := u.apellido,
          fotoPerfilUrl := u.fotoPerfil, isLoading := false, isError := false, errorMessage := "");
      case HttpError(code, _) =>
        uiState := uiState.(isLoading := false, isError := true, errorMessage := MensajeCarga(code));
      case Failure(m) =>
        uiState := uiState.(isLoading := false, isError := true, errorMessage := PrefijoConexion + MessageText(m));
    }

    /** `seleccionarFotoDesdeGaleria`: the uri (possibly null) is taken and the options and success flag cleared. */
    method SeleccionarFotoDesdeGaleria(uri: Option<string>)
      modifies this`uiState
      ensures uiState == old(uiState).(fotoPerfilUri := uri, mostrarOpcionesFoto := false, fotoGuardadaExitosamente := false)
    {
      uiState := uiState.(fotoPerfilUri := uri, mostrarOpcionesFoto := false, fotoGuardadaExitosamente := false);
    }

    /** `seleccionarFotoDesdeCamara`: the same transition as the gallery. */
    method SeleccionarFotoDesdeCamara(uri: Option<string>)
      modifies this`uiState
      ensures uiState == old(uiState).(fotoPerfilUri := uri, mostrarOpcionesFoto := false, fotoGuardadaExitosamente := false)
    {
      uiState := uiState.(fotoPerfilUri := uri, mostrarOpcionesFoto := false, fotoGuardadaExitosamente := false);
    }

    method MostrarOpcionesFoto()
      modifies this`uiState
      ensures uiState == old(uiState).(mostrarOpcionesFoto := true)
    {
      uiState := uiState.(mostrarOpcionesFoto := true);
    }

    method OcultarOpcionesFoto()
      modifies this`uiState
      ensures uiState == old(uiState).(mostrarOpcionesFoto := false)
    {
      uiState := uiState.(mostrarOpcionesFoto := false);
    }

    /**
     * `guardarFotoPerfil` up to its pause: with no user id or no photo it
     * sets the guard's error and launches nothing; otherwise the upload
     * starts with the error cleared.
     */
    method GuardarFotoPerfil() returns (lanzado: bool)
      modifies this`uiState, this`subida
      ensures lanzado <==> old(GuardaGuardado(uiState)).None?
      ensures !lanzado ==> (uiState == old(uiState).(isError := true, errorMessage := old(GuardaGuardado(uiState)).value)
        && subida == old(subida))
      ensures lanzado ==> (uiState == old(uiState).(isUploadingFoto := true, isError := false, errorMessage := "")
        && subida == old(uiState.fotoPerfilUri))
    {
      var guarda := GuardaGuardado(uiState);
      if guarda.Some? {
        uiState := uiState.(isError := true, errorMessage := guarda.value);
        return false;
      }
      uiState := uiState.(isUploadingFoto := true, isError := false, errorMessage := "");
      subida := uiState.fotoPerfilUri;
      lanzado := true;
    }

    /**
     * The end of the upload. The shown code only simulates it, so its
     * success publishes the chosen uri as the photo url; the two catch
     * branches set the code's message or a connection error. The uri
     * published is the one captured when the upload was launched.
     */
    method OnSubida(r: Llamada<()>)
      requires subida.Some?
      modifies this`uiState, this`subida
      ensures r.Ok? ==> uiState == old(uiState).(isUploadingFoto := false, fotoGuardadaExitosamente := true,
        fotoPerfilUrl := old(subida), isError := false, errorMessage := "")
      ensures r.HttpError? ==>
        uiState == old(uiState).(isUploadingFoto := false, isError := true, errorMessage := MensajeGuardado(r.code))
      ensures r.Failure? ==> uiState == old(uiState).(isUploadingFoto := false, isError := true,
        errorMessage := PrefijoConexion + MessageText(r.message))
      ensures subida.None?
    {
      var uri := subida;
      subida := None;
      match r
      case Ok(_) =>
        uiState := uiState.(isUploadingFoto := false, fotoGuardadaExitosamente := true, fotoPerfilUrl := uri,
          isError := false, errorMessage := "");
      case HttpError(code, _) =>
        uiState := uiState.(isUploadingFoto := false, isError := true, errorMessage := MensajeGuardado(code));
      case Failure(m) =>
        uiState := uiState.(isUploadingFoto := false, isError := true, errorMessage := PrefijoConexion + MessageText(m));
    }

    method LimpiarError()
      modifies this`uiState
      ensures uiState == old(uiState).(isError := false, errorMessage := "")
    {
      uiState := uiState.(isError := false, errorMessage := "");
    }

    method LimpiarEstadoExito()
      modifies this`uiState
      ensures uiState == old(uiState).(fotoGuardadaExitosamente := false)
    {
      uiState := uiState.(fotoGuardadaExitosamente := false);
    }
  }

  /** Selecting a photo after a load makes the save go ahead. */
  lemma LoadThenSelectCanSave(st: CambiarFotoUiState, usuarioId: int, u: Usuario, uri: string)
    ensures var cargado := st.(usuarioId := Some(usuarioId), nombreUsuario := u.nombre, apellidoUsuario := u.apellido,
        fotoPerfilUrl := u.fotoPerfil, isLoading := false, isError := false, errorMessage := "");
      GuardaGuardado(cargado.(fotoPerfilUri := Some(uri), mostrarOpcionesFoto := false, fotoGuardadaExitosamente := false)).None?
  {
  }
}
