/**
 * The remote user repository (`repository/UsuarioRepository.kt`): each flow
 * as the pair of what it emits and which API calls it makes, given the
 * outcome of each call. The file system is not modelled: a photo file is
 * given by its path, whether it exists and its length in bytes.
 */
module UsuarioRepositorio {
  import opened Wrappers
  import opened Text
  import opened Dto

  const UsuarioNoEncontrado: string := "Usuario no encontrado"
  const NoAutorizado: string := "No autorizado"
  const ErrorDelServidor: string := "Error del servidor"
  const ErrorConexionPrefix: string := "Error de conexión: "
  const MaxFileSizeMb: int := 5
  const MaxFileSizeBytes: int := MaxFileSizeMb * 1024 * 1024
  const AllowedExtensions: seq<string> := ["jpg", "jpeg", "png", "gif", "webp"]

  const MsgNoExiste: string := "El archivo de imagen no existe"
  const MsgFormato: string := "Formato de imagen no válido. Use: jpg, jpeg, png, gif, webp"
  const MsgTamano: string := "La imagen es demasiado grande. Máximo 5MB permitido"

  /** The calls a flow makes on the API. */
  datatype ApiCall = GetUsuario(usuarioId: int) | UpdateUsuario(usuarioId: int, dto: Usuario) | DeleteUsuario(usuarioId: int)

  /** What a flow emits, in order, and the calls it made. */
  datatype Flujo<T> = Flujo(emisiones: seq<Resource<T>>, llamadas: seq<ApiCall>)

  /** One flow that starts with `Loading` and then emits exactly one outcome. */
  predicate LoadingThenOne<T>(f: Flujo<T>) {
    |f.emisiones| == 2 && f.emisiones[0] == Loading && !f.emisiones[1].Loading?
  }

  /** `getHttpErrorMessage`: three fixed codes, the caller's default for the rest. */
  function GetHttpErrorMessage(code: int, defaultMessage: string): (m: string)
    ensures code == 404 ==> m == UsuarioNoEncontrado
    ensures code == 401 ==> m == NoAutorizado
    ensures code == 500 ==> m == ErrorDelServidor
    ensures code !in {404, 401, 500} ==> m == defaultMessage
  {
    if code == 404 then UsuarioNoEncontrado
    else if code == 401 then NoAutorizado
    else if code == 500 then ErrorDelServidor
    else defaultMessage
  }

  /** The error text any non-HTTP exception becomes. */
  function ErrorConexion(message: Option<string>): (m: string)
    ensures m == ErrorConexionPrefix + MessageText(message)
  {
    ErrorConexionPrefix + MessageText(message)
  }

  /** A photo file as the repository sees it. */
  datatype Archivo = Archivo(path: string, existe: bool, longitud: int)

  /** `File.name`: the text after the last '/', or the whole path. */
  function Nombre(path: string): (r: string)
    ensures '/' !in r
    ensures '/' !in path ==> r == path
  {
    SubstringAfterLast(path, '/').GetOr(path)
  }

  /** `File.extension`: the name's text after its last '.', or "" when it has none. */
  function Extension(path: string): (r: string)
    ensures '.' !in r && '/' !in r
  {
    SubstringAfterLast(Nombre(path), '.').GetOr("")
  }

  predicate ExtensionPermitida(path: string) {
    Lowercase(Extension(path)) in AllowedExtensions
  }

  /**
   * `validateImageFile`: missing file, then an extension (lower-cased) not
   * in the allowed list, then more than 5 MiB; the first failure's text, or
   * `None` when all pass.
   */
  function ValidateImageFile(f: Archivo): (r: Option<string>)
    ensures r.None? <==> f.existe && ExtensionPermitida(f.path) && f.longitud <= MaxFileSizeBytes
    ensures !f.existe ==> r == Some(MsgNoExiste)
    ensures r == Some(MsgFormato) <==> f.existe && !ExtensionPermitida(f.path)
    ensures r == Some(MsgTamano) <==> f.existe && ExtensionPermitida(f.path) && f.longitud > MaxFileSizeBytes
  {
    if !f.existe then Some(MsgNoExiste)
    else if !ExtensionPermitida(f.path) then Some(MsgFormato)
    else if f.longitud > MaxFileSizeBytes then Some(MsgTamano)
    else None
  }

  /** A path "dir/base.ext" whose base and extension hold no '/' has extension `ext` when `ext` holds no '.'. */
  lemma ExtensionOfPath(dir: string, base: string, ext: string)
    requires '/' !in base && '/' !in ext && '.' !in ext
    ensures Extension(dir + ['/'] + (base + ['.'] + ext)) == ext
  {
    var nombre := base + ['.'] + ext;
    assert '/' !in nombre by {
      assert forall i :: 0 <= i < |nombre| ==> nombre[i] == (if i < |base| then base[i] else if i == |base| then '.' else ext[i - |base| - 1]);
    }
    SubstringAfterLastOf(dir, '/', nombre);
    SubstringAfterLastOf(base, '.', ext);
  }

  /** A file of exactly 5 MiB passes, and the extension is compared ignoring ASCII case. */
  lemma FiveMebibytesPasses()
    ensures ValidateImageFile(Archivo("/fotos/yo.JPG", true, 5242880)).None?
  {
    JoinYoJpg("JPG");
    ExtensionOfPath("/fotos", "yo", "JPG");
    JpgPermitted("/fotos/yo.JPG");
  }

  /** One byte over 5 MiB is refused for its size. */
  lemma OneByteMoreIsTooLarge()
    ensures ValidateImageFile(Archivo("/fotos/yo.jpg", true, 5242881)) == Some(MsgTamano)
  {
    JoinYoJpg("jpg");
    ExtensionOfPath("/fotos", "yo", "jpg");
    JpgPermitted("/fotos/yo.jpg");
  }

  /** The two example paths are "/fotos", '/', "yo", '.' and the extension. */
  lemma JoinYoJpg(ext: string)
    requires ext == "JPG" || ext == "jpg"
    ensures "/fotos" + ['/'] + ("yo" + ['.'] + ext) == "/fotos/yo." + ext
    ensures "/fotos/yo." + ext == (if ext == "JPG" then "/fotos/yo.JPG" else "/fotos/yo.jpg")
  {
  }

  /** A path whose extension is "jpg" in either case is allowed. */
  lemma JpgPermitted(p: string)
    requires Extension(p) == "JPG" || Extension(p) == "jpg"
    ensures ExtensionPermitida(p)
  {
    LowercaseJpg();
    assert AllowedExtensions[0] == "jpg";
  }

  /** Both spellings of "jpg" used here lower-case to "jpg". */
  lemma LowercaseJpg()
    ensures Lowercase("JPG") == "jpg" && Lowercase("jpg") == "jpg"
  {
  }

  /** A '.' in a directory name is no extension: a file name without '.' is refused for its format. */
  lemma DotInDirectoryIsNoExtension()
    ensures ValidateImageFile(Archivo("/fotos.d/yo", true, 10)) == Some(MsgFormato)
  {
    var p := "/fotos.d/yo";
    SubstringAfterLastOf("/fotos.d", '/', "yo");
    assert "/fotos.d" + ['/'] + "yo" == p;
    assert Nombre(p) == "yo";
    assert Extension(p) == "";
  }

  /** `prepareUserWithNewPhoto`: the fetched user with only the photo replaced by the path. */
  function PrepareUserWithNewPhoto(actual: Usuario, fotoPath: string): (u: Usuario)
    ensures u.fotoPerfil == Some(fotoPath)
    ensures u.(fotoPerfil := actual.fotoPerfil) == actual
  {
    actual.(fotoPerfil := Some(fotoPath))
  }

  /**
   * `updateUserPhoto` with `verifyPhotoUpdate`: the update's result; if the
   * update throws, the re-fetched user when its photo is the path, else the
   * update's own exception.
   */
  function UpdateUserPhoto(update: Llamada<Usuario>, verificado: Llamada<Usuario>, fotoPath: string): (r: Llamada<Usuario>)
    ensures update.Ok? ==> r == update
    ensures !update.Ok? && verificado.Ok? && verificado.value.fotoPerfil == Some(fotoPath) ==> r == verificado
    ensures !update.Ok? && !(verificado.Ok? && verificado.value.fotoPerfil == Some(fotoPath)) ==> r == update
    ensures r.Ok? ==> r == update || r.value.fotoPerfil == Some(fotoPath)
  {
    if update.Ok? then update
    else if verificado.Ok? && verificado.value.fotoPerfil == Some(fotoPath) then verificado
    else update
  }

  /** The result of a flow whose body produced `r`, with `onHttp` mapping status codes. */
  function Emitir<T>(r: Llamada<T>, onHttp: (int, string) -> string): (e: Resource<T>)
    ensures r.Ok? ==> e == Success(Some(r.value))
    ensures r.HttpError? ==> e == Error(Some(onHttp(r.code, r.httpMessage)))
    ensures r.Failure? ==> e == Error(Some(ErrorConexion(r.message)))
  {
    match r
    case Ok(v) => Success(Some(v))
    case HttpError(code, msg) => Error(Some(onHttp(code, msg)))
    case Failure(m) => Error(Some(ErrorConexion(m)))
  }

  /** `getUsuario`. */
  function GetUsuarioFlow(usuarioId: int, r: Llamada<Usuario>): (f: Flujo<Usuario>)
    ensures LoadingThenOne(f) && f.llamadas == [GetUsuario(usuarioId)]
    ensures r.HttpError? ==> f.emisiones[1] == Error(Some(GetHttpErrorMessage(r.code, "Error al obtener el usuario")))
    ensures r.Ok? ==> f.emisiones[1] == Success(Some(r.value))
  {
    Flujo([Loading, Emitir(r, (code, _) => GetHttpErrorMessage(code, "Error al obtener el usuario"))], [GetUsuario(usuarioId)])
  }

  /** The status text of `actualizarUsuario`: 400 first, then the shared mapping. */
  function MensajeActualizar(code: int): (m: string)
    ensures code == 400 ==> m == "Datos de usuario no válidos"
    ensures code != 400 ==> m == GetHttpErrorMessage(code, "Error al actualizar el usuario")
  {
    if code == 400 then "Datos de usuario no válidos" else GetHttpErrorMessage(code, "Error al actualizar el usuario")
  }

  /** `actualizarUsuario`. */
  function ActualizarUsuarioFlow(usuarioId: int, dto: Usuario, r: Llamada<Usuario>): (f: Flujo<Usuario>)
    ensures LoadingThenOne(f) && f.llamadas == [UpdateUsuario(usuarioId, dto)]
    ensures r.HttpError? ==> f.emisiones[1] == Error(Some(MensajeActualizar(r.code)))
    ensures r.Ok? ==> f.emisiones[1] == Success(Some(r.value))
  {
    Flujo([Loading, Emitir(r, (code, _) => MensajeActualizar(code))], [UpdateUsuario(usuarioId, dto)])
  }

  /** `eliminarUsuario`. */
  function EliminarUsuarioFlow(usuarioId: int, r: Llamada<()>): (f: Flujo<()>)
    ensures LoadingThenOne(f) && f.llamadas == [DeleteUsuario(usuarioId)]
    ensures r.HttpError? ==> f.emisiones[1] == Error(Some(GetHttpErrorMessage(r.code, "Error al eliminar el usuario")))
    ensures r.Ok? ==> f.emisiones[1] == Success(Some(r.value))
  {
    Flujo([Loading, Emitir(r, (code, _) => GetHttpErrorMessage(code, "Error al eliminar el usuario"))], [DeleteUsuario(usuarioId)])
  }

  /** The status text of `actualizarFotoPerfil`: 400 first, then the shared mapping with the status text appended. */
  function MensajeFoto(code: int, httpMessage: string): (m: string)
    ensures code == 400 ==> m == "Datos no válidos"
    ensures code != 400 ==> m == GetHttpErrorMessage(code, "Error al guardar la foto: " + httpMessage)
  {
    if code == 400 then "Datos no válidos" else GetHttpErrorMessage(code, "Error al guardar la foto: " + httpMessage)
  }

  /**
   * `actualizarFotoPerfil` once the file has passed and the current user
   * `u` is fetched: the photo is replaced and the update, with its
   * fallback, decides the result.
   */
  function FotoTrasBuscar(usuarioId: int, u: Usuario, fotoPath: string,
                          update: Llamada<Usuario>, verificado: Llamada<Usuario>): (f: Flujo<Usuario>)
    ensures LoadingThenOne(f) && |f.llamadas| >= 2
    ensures f.llamadas[..2] == [GetUsuario(usuarioId), UpdateUsuario(usuarioId, PrepareUserWithNewPhoto(u, fotoPath))]
    ensures update.Ok? ==> f.emisiones[1] == Success(Some(update.value)) && |f.llamadas| == 2
    ensures !update.Ok? ==> |f.llamadas| == 3 && f.llamadas[2] == GetUsuario(usuarioId)
    ensures f.emisiones[1].Success? ==> (f.emisiones[1].data.Some?
      && ((update.Ok? && f.emisiones[1].data.value == update.value) || f.emisiones[1].data.value.fotoPerfil == Some(fotoPath)))
  {
    var usuarioActualizado := PrepareUserWithNewPhoto(u, fotoPath);
    var resultado := UpdateUserPhoto(update, verificado, fotoPath);
    var llamadas := [GetUsuario(usuarioId), UpdateUsuario(usuarioId, usuarioActualizado)]
      + (if update.Ok? then [] else [GetUsuario(usuarioId)]);
    Flujo([Loading, Emitir(resultado, MensajeFoto)], llamadas)
  }

  /**
   * `actualizarFotoPerfil`, given the file, the fetch of the current user,
   * the update and the verifying re-fetch. A file that fails validation
   * emits its error and calls nothing; otherwise the user is fetched and a
   * failed fetch ends the flow with its error.
   */
  function ActualizarFotoPerfilFlow(usuarioId: int, archivo: Archivo, actual: Llamada<Usuario>,
                                    update: Llamada<Usuario>, verificado: Llamada<Usuario>): (f: Flujo<Usuario>)
    ensures LoadingThenOne(f)
    ensures ValidateImageFile(archivo).Some? ==> f.emisiones[1] == Error(ValidateImageFile(archivo)) && f.llamadas == []
    ensures ValidateImageFile(archivo).None? && actual.HttpError? ==>
      f.llamadas == [GetUsuario(usuarioId)] && f.emisiones[1] == Error(Some(MensajeFoto(actual.code, actual.httpMessage)))
    ensures ValidateImageFile(archivo).None? && actual.Failure? ==>
      f.llamadas == [GetUsuario(usuarioId)] && f.emisiones[1] == Error(Some(ErrorConexion(actual.message)))
    ensures ValidateImageFile(archivo).None? && actual.Ok? ==> f == FotoTrasBuscar(usuarioId, actual.value, archivo.path, update, verificado)
  {
    var validationError := ValidateImageFile(archivo);
    if validationError.Some? then
      Flujo([Loading, Error(validationError)], [])
    else match actual
      case Ok(u) => FotoTrasBuscar(usuarioId, u, archivo.path, update, verificado)
      case HttpError(code, msg) => Flujo([Loading, Error(Some(MensajeFoto(code, msg)))], [GetUsuario(usuarioId)])
      case Failure(m) => Flujo([Loading, Error(Some(ErrorConexion(m)))], [GetUsuario(usuarioId)])
  }
}

/**
 * The local copy of the user repository
 * (`data/local/repository/UsuarioRepository.kt`): the same flows with the
 * status texts written inline, and a photo update that fetches the user
 * before checking the file and has no fallback.
 */
module UsuarioRepositorioLocal {
  import opened Wrappers
  import opened Text
  import opened Dto
  import R = UsuarioRepositorio

  function MensajeGet(code: int): (m: string)
    ensures code == 404 ==> m == "Usuario no encontrado"
    ensures code == 401 ==> m == "No autorizado"
    ensures code == 500 ==> m == "Error del servidor"
    ensures code !in {404, 401, 500} ==> m == "Error al obtener el usuario"
  {
    match code
    case 404 => "Usuario no encontrado"
    case 401 => "No autorizado"
    case 500 => "Error del servidor"
    case _ => "Error al obtener el usuario"
  }

  function MensajeActualizar(code: int): (m: string)
    ensures code == 400 ==> m == "Datos de usuario no válidos"
    ensures code == 404 ==> m == "Usuario no encontrado"
    ensures code == 401 ==> m == "No autorizado"
    ensures code == 500 ==> m == "Error del servidor"
    ensures code !in {400, 404, 401, 500} ==> m == "Error al actualizar el usuario"
  {
    match code
    case 400 => "Datos de usuario no válidos"
    case 404 => "Usuario no encontrado"
    case 401 => "No autorizado"
    case 500 => "Error del servidor"
    case _ => "Error al actualizar el usuario"
  }

  function MensajeFoto(code: int): (m: string)
    ensures code == 400 ==> m == "Datos no válidos"
    ensures code == 401 ==> m == "No autorizado"
    ensures code == 404 ==> m == "Usuario no encontrado"
    ensures code == 500 ==> m == "Error del servidor"
    ensures code !in {400, 401, 404, 500} ==> m == "Error al guardar la foto"
  {
    match code
    case 400 => "Datos no válidos"
    case 401 => "No autorizado"
    case 404 => "Usuario no encontrado"
    case 500 => "Error del servidor"
    case _ => "Error al guardar la foto"
  }

  function MensajeEliminar(code: int): (m: string)
    ensures code == 404 ==> m == "Usuario no encontrado"
    ensures code == 401 ==> m == "No autorizado"
    ensures code == 500 ==> m == "Error del servidor"
    ensures code !in {404, 401, 500} ==> m == "Error al eliminar el usuario"
  {
    match code
    case 404 => "Usuario no encontrado"
    case 401 => "No autorizado"
    case 500 => "Error del servidor"
    case _ => "Error al eliminar el usuario"
  }

  /** The inline mappings of get, update and delete agree with the remote copy's; the photo one only on the fixed codes. */
  lemma AgreesWithRemote(code: int, httpMessage: string)
    ensures MensajeGet(code) == R.GetHttpErrorMessage(code, "Error al obtener el usuario")
    ensures MensajeActualizar(code) == R.MensajeActualizar(code)
    ensures MensajeEliminar(code) == R.GetHttpErrorMessage(code, "Error al eliminar el usuario")
    ensures code in {400, 401, 404, 500} ==> MensajeFoto(code) == R.MensajeFoto(code, httpMessage)
  {
  }

  /** The photo mapping in the shape the flows take, ignoring the status text. */
  function MensajeFotoHttp(code: int, httpMessage: string): (m: string)
    ensures m == MensajeFoto(code)
  {
    MensajeFoto(code)
  }

  function GetUsuarioFlow(usuarioId: int, r: Llamada<Usuario>): (f: R.Flujo<Usuario>)
    ensures R.LoadingThenOne(f) && f.llamadas == [R.GetUsuario(usuarioId)]
    ensures r.HttpError? ==> f.emisiones[1] == Error(Some(MensajeGet(r.code)))
    ensures r.Ok? ==> f.emisiones[1] == Success(Some(r.value))
  {
    R.Flujo([Loading, R.Emitir(r, (code, _) => MensajeGet(code))], [R.GetUsuario(usuarioId)])
  }

  function ActualizarUsuarioFlow(usuarioId: int, dto: Usuario, r: Llamada<Usuario>): (f: R.Flujo<Usuario>)
    ensures R.LoadingThenOne(f) && f.llamadas == [R.UpdateUsuario(usuarioId, dto)]
    ensures r.HttpError? ==> f.emisiones[1] == Error(Some(MensajeActualizar(r.code)))
    ensures r.Ok? ==> f.emisiones[1] == Success(Some(r.value))
  {
    R.Flujo([Loading, R.Emitir(r, (code, _) => MensajeActualizar(code))], [R.UpdateUsuario(usuarioId, dto)])
  }

  function EliminarUsuarioFlow(usuarioId: int, r: Llamada<()>): (f: R.Flujo<()>)
    ensures R.LoadingThenOne(f) && f.llamadas == [R.DeleteUsuario(usuarioId)]
    ensures r.HttpError? ==> f.emisiones[1] == Error(Some(MensajeEliminar(r.code)))
    ensures r.Ok? ==> f.emisiones[1] == Success(Some(r.value))
  {
    R.Flujo([Loading, R.Emitir(r, (code, _) => MensajeEliminar(code))], [R.DeleteUsuario(usuarioId)])
  }

  /**
   * `actualizarFotoPerfil`: the user is fetched first, so a failed fetch
   * wins over any file problem; then the file checks in the remote copy's
   * order; then one update with the photo replaced and no fallback.
   */
  function ActualizarFotoPerfilFlow(usuarioId: int, archivo: R.Archivo, actual: Llamada<Usuario>,
                                    update: Llamada<Usuario>): (f: R.Flujo<Usuario>)
    ensures R.LoadingThenOne(f)
    ensures |f.llamadas| >= 1 && f.llamadas[0] == R.GetUsuario(usuarioId)
    ensures actual.HttpError? ==> f.emisiones[1] == Error(Some(MensajeFoto(actual.code))) && |f.llamadas| == 1
    ensures actual.Failure? ==> f.emisiones[1] == Error(Some(R.ErrorConexion(actual.message))) && |f.llamadas| == 1
    ensures actual.Ok? && R.ValidateImageFile(archivo).Some? ==> f.emisiones[1] == Error(R.ValidateImageFile(archivo)) && |f.llamadas| == 1
    ensures actual.Ok? && R.ValidateImageFile(archivo).None? ==> (
      f.llamadas == [R.GetUsuario(usuarioId), R.UpdateUsuario(usuarioId, R.PrepareUserWithNewPhoto(actual.value, archivo.path))]
      && f.emisiones[1] == R.Emitir(update, MensajeFotoHttp))
  {
    match actual
    case Ok(u) =>
      var validationError := R.ValidateImageFile(archivo);
      if validationError.Some? then R.Flujo([Loading, Error(validationError)], [R.GetUsuario(usuarioId)])
      else
        var usuarioActualizado := u.(fotoPerfil := Some(archivo.path));
        R.Flujo([Loading, R.Emitir(update, MensajeFotoHttp)],
                [R.GetUsuario(usuarioId), R.UpdateUsuario(usuarioId, usuarioActualizado)])
    case HttpError(code, _) => R.Flujo([Loading, Error(Some(MensajeFoto(code)))], [R.GetUsuario(usuarioId)])
    case Failure(m) => R.Flujo([Loading, Error(Some(R.ErrorConexion(m)))], [R.GetUsuario(usuarioId)])
  }

  /** The two copies differ on a missing file when the fetch fails: the local one reports the fetch, the remote one the file. */
  lemma CheckOrderDiffers(usuarioId: int, path: string, update: Llamada<Usuario>, verificado: Llamada<Usuario>)
    ensures var archivo := R.Archivo(path, false, 0);
      var caido: Llamada<Usuario> := Failure(None);
      ActualizarFotoPerfilFlow(usuarioId, archivo, caido, update).emisiones[1] == Error(Some("Error de conexión: null"))
      && R.ActualizarFotoPerfilFlow(usuarioId, archivo, caido, update, verificado).emisiones[1] == Error(Some(R.MsgNoExiste))
  {
    var archivo := R.Archivo(path, false, 0);
    var caido: Llamada<Usuario> := Failure(None);
    assert R.ErrorConexion(None) == "Error de conexión: null";
    assert R.ValidateImageFile(archivo) == Some(R.MsgNoExiste);
    assert R.ActualizarFotoPerfilFlow(usuarioId, archivo, caido, update, verificado).emisiones[1] == Error(Some(R.MsgNoExiste));
  }
}
