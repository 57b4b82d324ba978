/**
 * Changing the password: the form of `CambiarContrasenaScreen` (its
 * enabling rule and what the save button sends) and the transitions of
 * `CambiarContrasenaViewModel` for each outcome of the server call.
 */
module Contrasena {
  import opened Wrappers
  import opened Text

  datatype CambiarContrasenaUiState = CambiarContrasenaUiState(
    isLoading: bool,
    mensaje: string,
    isSuccess: bool,
    isError: bool,
    errorMessage: string)

  const InitialUiState: CambiarContrasenaUiState := CambiarContrasenaUiState(false, "", false, false, "")
  const MsgExito: string := "Contraseña cambiada exitosamente"
  const MsgActualIncorrecta: string := "Contraseña actual incorrecta"
  const MsgNoEncontrado: string := "Usuario no encontrado"
  const MsgGenerico: string := "Error al cambiar la contraseña"
  const PrefijoConexion: string := "Error de conexión: "

  /** The server's answer: whether it is 2xx, and its status code. */
  datatype Respuesta = Respuesta(isSuccessful: bool, code: int)

  /** The request `cambiarContrasena` sends. */
  datatype Request = CambiarContrasenaRequest(usuarioId: int, contrasenaActual: string, contrasenaNueva: string)

  /** The error text of a non-success answer. */
  function MensajeCodigo(code: int): (m: string)
    ensures code == 400 ==> m == MsgActualIncorrecta
    ensures code == 404 ==> m == MsgNoEncontrado
    ensures code != 400 && code != 404 ==> m == MsgGenerico
  {
    if code == 400 then MsgActualIncorrecta
    else if code == 404 then MsgNoEncontrado
    else MsgGenerico
  }

  class CambiarContrasenaViewModel {
    var uiState: CambiarContrasenaUiState
    var requests: seq<Request>

    constructor ()
      ensures uiState == InitialUiState && requests == []
    {
      uiState := InitialUiState;
      requests := [];
    }

    /** The start of `cambiarContrasena`: loading on, error cleared, the request sent. */
    method CambiarContrasena(usuarioId: int, contrasenaActual: string, nuevaContrasena: string)
      modifies this
      ensures uiState == old(uiState).(isLoading := true, isError := false, errorMessage := "")
      ensures requests == old(requests) + [CambiarContrasenaRequest(usuarioId, contrasenaActual, nuevaContrasena)]
    {
      uiState := uiState.(isLoading := true, isError := false, errorMessage := "");
      requests := requests + [CambiarContrasenaRequest(usuarioId, contrasenaActual, nuevaContrasena)];
    }

    /**
     * The rest of `cambiarContrasena`: a 2xx answer sets the success message,
     * any other answer the message for its code, and an exception a
     * connection error carrying the exception's message. Loading always ends.
     */
    method OnRespuesta(r: Attempt<Respuesta>)
      modifies this`uiState
      ensures r.Done? && r.value.isSuccessful ==>
        uiState == old(uiState).(isLoading := false, isSuccess := true, mensaje := MsgExito)
      ensures r.Done? && !r.value.isSuccessful ==>
        uiState == old(uiState).(isLoading := false, isError := true, errorMessage := MensajeCodigo(r.value.code))
      ensures r.Thrown? ==>
        uiState == old(uiState).(isLoading := false, isError := true, errorMessage := PrefijoConexion + MessageText(r.message))
    {
      match r
      case Done(resp) =>
        if resp.isSuccessful {
          uiState := uiState.(isLoading := false, isSuccess := true, mensaje := MsgExito);
        } else {
          uiState := uiState.(isLoading := false, isError := true, errorMessage := MensajeCodigo(resp.code));
        }
      case Thrown(m) =>
        uiState := uiState.(isLoading := false, isError := true, errorMessage := PrefijoConexion + MessageText(m));
    }

    /** `limpiarMensajes`: every message and flag but `isLoading` reset. */
    method LimpiarMensajes()
      modifies this`uiState
      ensures uiState == old(uiState).(isSuccess := false, isError := false, errorMessage := "", mensaje := "")
    {
      uiState := uiState.(isSuccess := false, isError := false, errorMessage := "", mensaje := "");
    }
  }

  /** `isFormValid`: at least 8 UTF-16 units, confirmed, and a non-blank current password. No character classes are checked. */
  predicate IsFormValid(contrasenaActual: string, nuevaContrasena: string, confirmarContrasena: string) {
    Utf16Length(nuevaContrasena) >= 8 && nuevaContrasena == confirmarContrasena && !IsBlank(contrasenaActual)
  }

  /** A valid form's new password has at least four characters and matches its confirmation. */
  lemma FormValidBounds(actual: string, nueva: string, confirmar: string)
    requires IsFormValid(actual, nueva, confirmar)
    ensures |nueva| >= 4 && |confirmar| >= 4 && actual != []
  {
    assert !IsBlank(actual);
  }

  /** Eight letters, confirmed, with a current password, pass even with no digit or symbol. */
  lemma NoCharacterClassCheck()
    ensures IsFormValid("x", "abcdefgh", "abcdefgh")
  {
    var actual := "x";
    assert !IsWhitespace(actual[0]);
    assert Utf16Length("abcdefgh") == 8;
  }

  class CambiarContrasenaForm {
    var contrasenaActual: string
    var nuevaContrasena: string
    var confirmarContrasena: string

    constructor ()
      ensures contrasenaActual == "" && nuevaContrasena == "" && confirmarContrasena == ""
    {
      contrasenaActual := "";
      nuevaContrasena := "";
      confirmarContrasena := "";
    }

    method OnContrasenaActualChange(s: string)
      modifies this`contrasenaActual
      ensures contrasenaActual == s
    {
      contrasenaActual := s;
    }

    method OnNuevaContrasenaChange(s: string)
      modifies this`nuevaContrasena
      ensures nuevaContrasena == s
    {
      nuevaContrasena := s;
    }

    method OnConfirmarContrasenaChange(s: string)
      modifies this`confirmarContrasena
      ensures confirmarContrasena == s
    {
      confirmarContrasena := s;
    }

    /** The save button: enabled iff the form is valid and nothing is loading; a click sends the id and both passwords. */
    method GuardarCambios(vm: CambiarContrasenaViewModel, usuarioId: int) returns (enviado: bool)
      modifies vm
      ensures enviado <==> old(IsFormValid(contrasenaActual, nuevaContrasena, confirmarContrasena) && !vm.uiState.isLoading)
      ensures enviado ==> vm.requests == old(vm.requests) + [CambiarContrasenaRequest(usuarioId, contrasenaActual, nuevaContrasena)]
      ensures enviado ==> vm.uiState == old(vm.uiState).(isLoading := true, isError := false, errorMessage := "")
      ensures !enviado ==> vm.requests == old(vm.requests) && vm.uiState == old(vm.uiState)
    {
      enviado := IsFormValid(contrasenaActual, nuevaContrasena, confirmarContrasena) && !vm.uiState.isLoading;
      if enviado {
        vm.CambiarContrasena(usuarioId, contrasenaActual, nuevaContrasena);
      }
    }
  }

  /**
   * The `LaunchedEffect` on `isSuccess`: on success the screen goes back and
   * clears the messages, after which the effect has nothing left to do.
   */
  method EfectoExito(vm: CambiarContrasenaViewModel) returns (navegaAtras: bool)
    modifies vm`uiState
    ensures navegaAtras <==> old(vm.uiState.isSuccess)
    ensures navegaAtras ==> vm.uiState == old(vm.uiState).(isSuccess := false, isError := false, errorMessage := "", mensaje := "")
    ensures !navegaAtras ==> vm.uiState == old(vm.uiState)
    ensures !vm.uiState.isSuccess
  {
    navegaAtras := vm.uiState.isSuccess;
    if navegaAtras {
      vm.LimpiarMensajes();
    }
  }
}
