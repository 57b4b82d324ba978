/**
 * The session store (`DataLogin`): a preference file with two entries,
 * `usuario_id` and `sesion_activa`; the login check of the navigation
 * host; and `login` of the two `LoginRepository` copies, which differ only
 * in package and are modelled once.
 */
module Session {
  import opened Wrappers
  import opened ListOps
  import opened Dto

  /** The two entries of `usuario_prefs`; an absent entry is `None`. */
  class DataLogin {
    var usuarioIdPref: Option<int>
    var sesionActivaPref: Option<bool>

    /** A store nothing has been written to. */
    constructor ()
      ensures usuarioIdPref.None? && sesionActivaPref.None?
    {
      usuarioIdPref := None;
      sesionActivaPref := None;
    }

    /** `guardarUsuarioId`: writes the id and marks the session active. */
    method GuardarUsuarioId(id: int)
      modifies this
      ensures usuarioIdPref == Some(id) && sesionActivaPref == Some(true)
      ensures ObtenerUsuarioId() == Some(id)
    {
      usuarioIdPref := Some(id);
      sesionActivaPref := Some(true);
    }

    /** `obtenerUsuarioId`: the stored id while the session is active (a missing flag counts as false), else null. */
    function ObtenerUsuarioId(): (r: Option<int>)
      reads this
      ensures r.Some? <==> sesionActivaPref == Some(true) && usuarioIdPref.Some?
      ensures r.Some? ==> r == usuarioIdPref
    {
      if sesionActivaPref.GetOr(false) then usuarioIdPref else None
    }

    /** `limpiarSesion`: only the flag is cleared; the last id is remembered. */
    method LimpiarSesion()
      modifies this`sesionActivaPref
      ensures sesionActivaPref == Some(false)
      ensures usuarioIdPref == old(usuarioIdPref)
      ensures ObtenerUsuarioId().None?
    {
      sesionActivaPref := Some(false);
    }

    /** `verificarSesionActiva`: the flag, false when absent. */
    function VerificarSesionActiva(): (b: bool)
      reads this
      ensures b <==> sesionActivaPref == Some(true)
    {
      sesionActivaPref.GetOr(false)
    }

    /** `verificarSesion` of the navigation host: logged in when a non-zero id is returned. */
    function VerificarSesion(): (b: bool)
      reads this
      ensures b <==> VerificarSesionActiva() && usuarioIdPref.Some? && usuarioIdPref.value != 0
    {
      var id := ObtenerUsuarioId();
      id.Some? && id.value != 0
    }
  }

  /** A fresh store has no session. */
  lemma FreshStoreHasNoSession(store: DataLogin)
    requires store.usuarioIdPref.None? && store.sesionActivaPref.None?
    ensures store.ObtenerUsuarioId().None? && !store.VerificarSesionActiva() && !store.VerificarSesion()
  {
  }

  /** Whether a user's email and password both equal the input exactly. */
  predicate Coincide(u: Usuario, email: string, contrasena: string) {
    u.email == email && u.contrasena == contrasena
  }

  /** The position of the first user matching both fields. */
  function IndiceUsuario(usuarios: seq<Usuario>, email: string, contrasena: string): (r: Option<nat>)
    ensures r.Some? ==> r.value < |usuarios| && Coincide(usuarios[r.value], email, contrasena)
    ensures r.Some? ==> forall j :: 0 <= j < r.value ==> !Coincide(usuarios[j], email, contrasena)
    ensures r.None? ==> forall j :: 0 <= j < |usuarios| ==> !Coincide(usuarios[j], email, contrasena)
  {
    if usuarios == [] then None
    else if Coincide(usuarios[0], email, contrasena) then Some(0)
    else match IndiceUsuario(usuarios[1..], email, contrasena)
      case None => None
      case Some(k) => Some(k + 1)
  }

  /** `usuarios.find { email == email && contraseña == contraseña }`: the first exact match. */
  function BuscarUsuario(usuarios: seq<Usuario>, email: string, contrasena: string): (r: Option<Usuario>)
    ensures r.None? <==> forall i :: 0 <= i < |usuarios| ==> !Coincide(usuarios[i], email, contrasena)
    ensures r.Some? ==> r.value in usuarios && Coincide(r.value, email, contrasena)
    ensures r.Some? ==> exists i :: (0 <= i < |usuarios| && usuarios[i] == r.value
      && forall j :: 0 <= j < i ==> !Coincide(usuarios[j], email, contrasena))
  {
    match IndiceUsuario(usuarios, email, contrasena)
    case None => None
    case Some(i) => Some(usuarios[i])
  }

  /**
   * `LoginRepository.login` over the fetched users: the first exact match
   * is returned and `usuarioId ?: 0` saved as the session; with no match
   * the store is untouched.
   */
  method Login(usuarios: seq<Usuario>, email: string, contrasena: string, store: DataLogin) returns (r: Option<Usuario>)
    modifies store
    ensures r == BuscarUsuario(usuarios, email, contrasena)
    ensures r.Some? ==> store.ObtenerUsuarioId() == Some(r.value.usuarioId.GetOr(0))
    ensures r.Some? ==> store.usuarioIdPref == Some(r.value.usuarioId.GetOr(0)) && store.sesionActivaPref == Some(true)
    ensures r.None? ==> unchanged(store)
  {
    r := BuscarUsuario(usuarios, email, contrasena);
    if r.Some? {
      store.GuardarUsuarioId(r.value.usuarioId.GetOr(0));
    }
  }

  /** Matching is exact: an email differing only in case does not log in. */
  lemma LoginIsCaseSensitive(u: Usuario)
    requires u.email == "Ana@x.com"
    ensures BuscarUsuario([u], "ana@x.com", u.contrasena).None?
  {
    assert "Ana@x.com"[0] != "ana@x.com"[0];
  }
}
