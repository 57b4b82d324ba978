/**
 * The support form's view-model (`SoporteViewModel`): the ordered checks
 * of `enviarMensaje` and the states a sent message passes through. The
 * platform's `Patterns.EMAIL_ADDRESS` check is not modelled; its verdict
 * on the current address is a parameter.
 */
module Soporte {
  import opened Wrappers
  import opened Text

  datatype SoporteUiState = SoporteUiState(
    asunto: string,
    correoElectronico: string,
    mensaje: string,
    isLoading: bool,
    isError: bool,
    errorMessage: string,
    mensajeEnviado: bool)

  const InitialUiState: SoporteUiState := SoporteUiState("", "", "", false, false, "", false)
  const MsgAsunto: string := "El asunto es requerido"
  const MsgCorreo: string := "El correo electrónico es requerido"
  const MsgCorreoInvalido: string := "Ingrese un correo electrónico válido"
  const MsgMensaje: string := "El mensaje es requerido"
  const MsgFalla: string := "Error al enviar el mensaje. Inténtelo de nuevo."

  /** The first failing check of `enviarMensaje`, or `None` when the message may go. */
  function ValidarSoporte(asunto: string, correo: string, correoValido: bool, mensaje: string): (r: Option<string>)
    ensures r.None? <==> !IsBlank(asunto) && !IsBlank(correo) && correoValido && !IsBlank(mensaje)
    ensures IsBlank(asunto) ==> r == Some(MsgAsunto)
    ensures r == Some(MsgCorreo) <==> !IsBlank(asunto) && IsBlank(correo)
    ensures r == Some(MsgCorreoInvalido) <==> !IsBlank(asunto) && !IsBlank(correo) && !correoValido
    ensures r == Some(MsgMensaje) <==> !IsBlank(asunto) && !IsBlank(correo) && correoValido && IsBlank(mensaje)
  {
    if IsBlank(asunto) then Some(MsgAsunto)
    else if IsBlank(correo) then Some(MsgCorreo)
    else if !correoValido then Some(MsgCorreoInvalido)
    else if IsBlank(mensaje) then Some(MsgMensaje)
    else None
  }

  /** Where the launched send is: not running, in the first pause, or showing the sent notice. */
  datatype Paso = Inactivo | Enviando | Enviado

  class SoporteViewModel {
    var uiState: SoporteUiState
    var paso: Paso

    constructor ()
      ensures uiState == InitialUiState && paso == Inactivo
    {
      uiState := InitialUiState;
      paso := Inactivo;
    }

    method OnAsuntoChange(asunto: string)
      modifies this`uiState
      ensures uiState == old(uiState).(asunto := asunto)
    {
      uiState := uiState.(asunto := asunto);
    }

    method OnCorreoElectronicoChange(correo: string)
      modifies this`uiState
      ensures uiState == old(uiState).(correoElectronico := correo)
    {
      uiState := uiState.(correoElectronico := correo);
    }

    method OnMensajeChange(mensaje: string)
      modifies this`uiState
      ensures uiState == old(uiState).(mensaje := mensaje)
    {
      uiState := uiState.(mensaje := mensaje);
    }

    /**
     * `enviarMensaje`: the first failing check sets the error and nothing is
     * sent; otherwise the send starts with loading on and the error cleared.
     */
    method EnviarMensaje(correoValido: bool)
      modifies this
      ensures var v := ValidarSoporte(old(uiState.asunto), old(uiState.correoElectronico), correoValido, old(uiState.mensaje));
        (v.Some? ==> uiState == old(uiState).(isError := true, errorMessage := v.value) && paso == old(paso))
        && (v.None? ==> uiState == old(uiState).(isLoading := true, isError := false, errorMessage := "") && paso == Enviando)
    {
      var v := ValidarSoporte(uiState.asunto, uiState.correoElectronico, correoValido, uiState.mensaje);
      if v.Some? {
        uiState := uiState.(isError := true, errorMessage := v.value);
        return;
      }
      uiState := uiState.(isLoading := true, isError := false, errorMessage := "");
      paso := Enviando;
    }

    /** After the first pause: the notice shows and all three fields are cleared. */
    method TrasPrimeraPausa()
      requires paso == Enviando
      modifies this
      ensures uiState == old(uiState).(isLoading := false, mensajeEnviado := true, asunto := "", correoElectronico := "", mensaje := "")
      ensures paso == Enviado
    {
      uiState := uiState.(isLoading := false, mensajeEnviado := true, asunto := "", correoElectronico := "", mensaje := "");
      paso := Enviado;
    }

    /** After the second pause: the notice goes away. */
    method TrasSegundaPausa()
      requires paso == Enviado
      modifies this
      ensures uiState == old(uiState).(mensajeEnviado := false) && paso == Inactivo
    {
      uiState := uiState.(mensajeEnviado := false);
      paso := Inactivo;
    }

    /** The `catch` of the launched send: loading off and the fixed failure message. */
    method OnFalla()
      requires paso != Inactivo
      modifies this
      ensures uiState == old(uiState).(isLoading := false, isError := true, errorMessage := MsgFalla) && paso == Inactivo
    {
      uiState := uiState.(isLoading := false, isError := true, errorMessage := MsgFalla);
      paso := Inactivo;
    }

    /** `limpiarError`: only the error flag and message change. */
    method LimpiarError()
      modifies this`uiState
      ensures uiState == old(uiState).(isError := false, errorMessage := "")
    {
      uiState := uiState.(isError := false, errorMessage := "");
    }

    /** `cargarDatosUsuario`: prefills the address. */
    method CargarDatosUsuario(correoUsuario: string)
      modifies this`uiState
      ensures uiState == old(uiState).(correoElectronico := correoUsuario)
    {
      uiState := uiState.(correoElectronico := correoUsuario);
    }
  }

  /** A full successful send leaves the form empty, not loading and with no notice. */
  method EnvioCompleto(vm: SoporteViewModel, correoValido: bool)
    requires vm.paso == Inactivo
    requires ValidarSoporte(vm.uiState.asunto, vm.uiState.correoElectronico, correoValido, vm.uiState.mensaje).None?
    modifies vm
    ensures vm.uiState == old(vm.uiState).(asunto := "", correoElectronico := "", mensaje := "", isLoading := false,
      isError := false, errorMessage := "", mensajeEnviado := false)
    ensures vm.paso == Inactivo
  {
    vm.EnviarMensaje(correoValido);
    vm.TrasPrimeraPausa();
    vm.TrasSegundaPausa();
  }
}
