/**
 * The login view-model (`LoginViewModel`): the login outcome, the user
 * registration builds, the field setters and the tab switch.
 */
module LoginVm {
  import opened Wrappers
  import opened Dto
  import Session

  /**
   * `LoginUiState`. The view-model and the screen also use
   * `registerApellido`, `tabIndex`, `loginError`, `resetEmail`, `resetError`
   * and `resetSuccess`, which the data class lacks; they are added here
   * with the defaults "", 0, false, "", null and null.
   */
  datatype LoginUiState = LoginUiState(
    loginEmail: string,
    loginPassword: string,
    registerNombre: string,
    registerApellido: string,
    registerEmail: string,
    registerPassword: string,
    usuarioId: int,
    tabIndex: int,
    loginError: bool,
    resetEmail: string,
    resetError: Option<string>,
    resetSuccess: Option<bool>)

  const InitialUiState: LoginUiState := LoginUiState("", "", "", "", "", "", 0, 0, false, "", None, None)

  /** The user `registerUser` sends: id 0, currency "DOP", the rest from the form or the DTO defaults. */
  function NuevoUsuario(st: LoginUiState): (u: Usuario)
    ensures u.usuarioId == Some(0) && u.divisa == "DOP"
    ensures u.nombre == st.registerNombre && u.apellido == st.registerApellido
    ensures u.email == st.registerEmail && u.contrasena == st.registerPassword
    ensures u.fotoPerfil.None? && u.saldoTotal == 0.0
  {
    Usuario(Some(0), st.registerNombre, st.registerApellido, st.registerEmail, st.registerPassword, None, "DOP", 0.0)
  }

  datatype Callback = OnSuccess | OnError(message: Option<string>)

  /** After `register`: `onSuccess` when it returns, `onError` with the exception when it throws. */
  function RegistroCallback(result: Attempt<Usuario>): (c: Callback)
    ensures result.Done? <==> c == OnSuccess
    ensures result.Thrown? ==> c == OnError(result.message)
  {
    match result
    case Done(_) => OnSuccess
    case Thrown(m) => OnError(m)
  }

  class LoginViewModel {
    var uiState: LoginUiState
    var usuarioLogueado: Option<Usuario>

    constructor ()
      ensures uiState == InitialUiState && usuarioLogueado.None?
    {
      uiState := InitialUiState;
      usuarioLogueado := None;
    }

    /**
     * `login` with the users the data source returned (or the exception it
     * threw): a match is remembered, its id (null as 0) goes to the state
     * and the session, and the error flag is cleared; no match or an
     * exception sets the flag and forgets the user.
     */
    method Login(fetched: Attempt<seq<Usuario>>, store: Session.DataLogin)
      modifies this, store
      ensures var r := if fetched.Done? then Session.BuscarUsuario(fetched.value, old(uiState.loginEmail), old(uiState.loginPassword)) else None;
        (r.Some? ==>
          usuarioLogueado == r && uiState == old(uiState).(usuarioId := r.value.usuarioId.GetOr(0), loginError := false)
          && store.ObtenerUsuarioId() == Some(r.value.usuarioId.GetOr(0)))
        && (r.None? ==> usuarioLogueado.None? && uiState == old(uiState).(loginError := true) && unchanged(store))
    {
      if fetched.Thrown? {
        usuarioLogueado := None;
        uiState := uiState.(loginError := true);
        return;
      }
      var usuario := Session.Login(fetched.value, uiState.loginEmail, uiState.loginPassword, store);
      if usuario.Some? {
        usuarioLogueado := usuario;
        uiState := uiState.(usuarioId := usuario.value.usuarioId.GetOr(0), loginError := false);
      } else {
        usuarioLogueado := None;
        uiState := uiState.(loginError := true);
      }
    }

    method OnLoginEmailChange(value: string)
      modifies this`uiState
      ensures uiState == old(uiState).(loginEmail := value)
    {
      uiState := uiState.(loginEmail := value);
    }

    method OnLoginPasswordChange(value: string)
      modifies this`uiState
      ensures uiState == old(uiState).(loginPassword := value)
    {
      uiState := uiState.(loginPassword := value);
    }

    method OnRegisterNombreChange(value: string)
      modifies this`uiState
      ensures uiState == old(uiState).(registerNombre := value)
    {
      uiState := uiState.(registerNombre := value);
    }

    method OnRegisterApellidoChange(value: string)
      modifies this`uiState
      ensures uiState == old(uiState).(registerApellido := value)
    {
      uiState := uiState.(registerApellido := value);
    }

    method OnRegisterEmailChange(value: string)
      modifies this`uiState
      ensures uiState == old(uiState).(registerEmail := value)
    {
      uiState := uiState.(registerEmail := value);
    }

    method OnRegisterPasswordChange(value: string)
      modifies this`uiState
      ensures uiState == old(uiState).(registerPassword := value)
    {
      uiState := uiState.(registerPassword := value);
    }

    /** The reset email setter also clears the reset outcome. */
    method OnResetEmailChange(value: string)
      modifies this`uiState
      ensures uiState == old(uiState).(resetEmail := value, resetError := None, resetSuccess := None)
    {
      uiState := uiState.(resetEmail := value, resetError := None, resetSuccess := None);
    }

    method ChangeTab(index: int)
      modifies this`uiState
      ensures uiState == old(uiState).(tabIndex := index)
    {
      uiState := uiState.(tabIndex := index);
    }
  }
}
