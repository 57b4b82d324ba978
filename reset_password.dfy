/**
 * The password-reset view-model (`ResetPasswordViewModel`): the email
 * check, the account lookup and the states the request moves through.
 */
module ResetPassword {
  import opened Wrappers
  import opened Text
  import opened Dto
  import opened LoginForm

  datatype ResetPasswordUiState = ResetPasswordUiState(
    email: string,
    isLoading: bool,
    isEmailSent: bool,
    error: Option<string>,
    emailError: bool)

  const DefaultState: ResetPasswordUiState := ResetPasswordUiState("", false, false, None, false)
  const MsgEmailInvalido: string := "Por favor ingresa un email válido"
  const MsgNoEncontrado: string := "No se encontró ninguna cuenta con ese email"

  /** `isValidEmail`: not blank and matching the registration email pattern. */
  function IsValidEmail(email: string): (b: bool)
    ensures b <==> MatchesEmail(email)
  {
    if IsEmail(email) then EmailNotBlank(email); true else false
  }

  /** The lookup: some account's email equals the input, ignoring case. */
  predicate UsuarioExiste(usuarios: seq<Usuario>, email: string) {
    exists i :: 0 <= i < |usuarios| && EqualsIgnoreCase(usuarios[i].email, email)
  }

  datatype Request = GetUsuarios(email: string)

  class ResetPasswordViewModel {
    var uiState: ResetPasswordUiState
    var requests: seq<Request>

    constructor ()
      ensures uiState == DefaultState && requests == []
    {
      uiState := DefaultState;
      requests := [];
    }

    /** `onEmailChange`: the email, with its flag and the error cleared. */
    method OnEmailChange(email: string)
      modifies this`uiState
      ensures uiState == old(uiState).(email := email, emailError := false, error := None)
    {
      uiState := uiState.(email := email, emailError := false, error := None);
    }

    /**
     * `resetPassword` up to the lookup: an invalid email is flagged and
     * nothing is looked up; a valid one starts loading and fetches the
     * accounts for that email.
     */
    method ResetPassword()
      modifies this`uiState, this`requests
      ensures !MatchesEmail(old(uiState.email)) ==>
        uiState == old(uiState).(emailError := true, error := Some(MsgEmailInvalido)) && requests == old(requests)
      ensures MatchesEmail(old(uiState.email)) ==>
        uiState == old(uiState).(isLoading := true, error := None) && requests == old(requests) + [GetUsuarios(old(uiState.email))]
    {
      if !IsValidEmail(uiState.email) {
        uiState := uiState.(emailError := true, error := Some(MsgEmailInvalido));
        return;
      }
      requests := requests + [GetUsuarios(uiState.email)];
      uiState := uiState.(isLoading := true, error := None);
    }

    /**
     * The lookup's outcome for `email`: no account ends with an error and
     * no email sent; a match ends (after the pause) with the email sent; an
     * exception ends with its message.
     */
    method OnUsuarios(email: string, result: Attempt<seq<Usuario>>)
      modifies this`uiState
      ensures result.Done? && !UsuarioExiste(result.value, email) ==>
        uiState == old(uiState).(isLoading := false, error := Some(MsgNoEncontrado))
      ensures result.Done? && UsuarioExiste(result.value, email) ==>
        uiState == old(uiState).(isLoading := false, isEmailSent := true, error := None)
      ensures result.Thrown? ==>
        uiState == old(uiState).(isLoading := false, error := Some("Error al enviar el email: " + MessageText(result.message)))
    {
      match result
      case Done(usuarios) =>
        if !UsuarioExiste(usuarios, email) {
          uiState := uiState.(isLoading := false, error := Some(MsgNoEncontrado));
          return;
        }
        uiState := uiState.(isLoading := false, isEmailSent := true, error := None);
      case Thrown(m) =>
        uiState := uiState.(isLoading := false, error := Some("Error al enviar el email: " + MessageText(m)));
    }

    /** `clearState`: back to the default state. */
    method ClearState()
      modifies this`uiState
      ensures uiState == DefaultState
    {
      uiState := DefaultState;
    }
  }
}
