/**
 * The category view-model (`CategoriaViewModel`): the current user, the
 * one-time creation of the default categories, the category list and its
 * two filters, the form fields and saving a new category.
 */
module CategoriaVm {
  import opened Wrappers
  import opened Text
  import opened ListOps
  import opened Dto

  /**
   * `CategoriaUiState`. `filtroTipo` is read and written by the view-model
   * but missing from the data class; it is added here with default "".
   */
  datatype CategoriaUiState = CategoriaUiState(
    nombre: string,
    tipo: string,
    icono: string,
    colorFondo: string,
    isLoading: bool,
    selectedTabIndex: int,
    categorias: seq<Categoria>,
    error: Option<string>,
    filtroTipo: string)

  const InitialUiState: CategoriaUiState := CategoriaUiState("", "Gasto", "", "FF0000", false, 0, [], None, "")
  const UsuarioInvalido: string := "Usuario inválido"
  const UsuarioInvalidoGuardar: string := "Usuario inválido, no se puede guardar"

  datatype Request =
    | UsuarioEmitido(usuarioId: int)
    | GetCategorias(usuarioId: int)
    | CreateCategoria(dto: Categoria)

  /** A category as the DTO builds it: id 0 (the server assigns one). */
  function NuevaCategoria(nombre: string, tipo: string, icono: string, colorFondo: string, usuarioId: int): Categoria {
    Categoria(0, nombre, tipo, icono, colorFondo, usuarioId)
  }

  /** The five categories every user starts with. */
  function CategoriasDefault(usuarioId: int): (r: seq<Categoria>)
    ensures |r| == 5
    ensures forall i :: 0 <= i < |r| ==> r[i].usuarioId == usuarioId && r[i].tipo == "Gasto"
    ensures forall i, j :: 0 <= i < j < |r| ==> r[i].nombre != r[j].nombre
  {
    [NuevaCategoria("Gasolina", "Gasto", "⛽", "FF9800", usuarioId),
     NuevaCategoria("Casa", "Gasto", "🏠", "4CAF50", usuarioId),
     NuevaCategoria("Comida", "Gasto", "🍽", "F44336", usuarioId),
     NuevaCategoria("Viajes", "Gasto", "✈", "2196F3", usuarioId),
     NuevaCategoria("Celular", "Gasto", "📱", "9C27B0", usuarioId)]
  }

  /** Whether the user already has a category with that name. */
  predicate YaExiste(existentes: seq<Categoria>, nombre: string, usuarioId: int) {
    exists e :: e in existentes && e.nombre == nombre && e.usuarioId == usuarioId
  }

  /** `categoriasParaCrear`: the defaults whose name the user does not have yet. */
  function CategoriasParaCrear(existentes: seq<Categoria>, usuarioId: int): (r: seq<Categoria>)
    ensures forall i :: 0 <= i < |r| ==> r[i] in CategoriasDefault(usuarioId) && !YaExiste(existentes, r[i].nombre, usuarioId)
    ensures forall d :: d in CategoriasDefault(usuarioId) && !YaExiste(existentes, d.nombre, usuarioId) ==> d in r
    ensures |r| <= 5
  {
    Filter(CategoriasDefault(usuarioId), (d: Categoria) => !YaExiste(existentes, d.nombre, usuarioId))
  }

  /** Once the missing defaults exist, none is left to create: a second round creates nothing. */
  lemma ParaCrearIdempotent(existentes: seq<Categoria>, usuarioId: int)
    ensures CategoriasParaCrear(existentes + CategoriasParaCrear(existentes, usuarioId), usuarioId) == []
  {
    var creadas := CategoriasParaCrear(existentes, usuarioId);
    var todas := existentes + creadas;
    var defaults := CategoriasDefault(usuarioId);
    var p := (d: Categoria) => !YaExiste(todas, d.nombre, usuarioId);
    forall i | 0 <= i < |defaults|
      ensures !p(defaults[i])
    {
      var d := defaults[i];
      if !YaExiste(existentes, d.nombre, usuarioId) {
        assert d in creadas;
        assert d in todas;
      } else {
        var e :| e in existentes && e.nombre == d.nombre && e.usuarioId == usuarioId;
        assert e in todas;
      }
    }
    FilterNone(defaults, p);
  }

  /** A filter that keeps no element is empty. */
  lemma {:induction false} FilterNone<T>(s: seq<T>, p: T -> bool)
    requires forall i :: 0 <= i < |s| ==> !p(s[i])
    ensures Filter(s, p) == []
  {
    if s != [] {
      FilterNone(s[1..], p);
    }
  }

  /** `getCategoriasFiltradas`: everything for a blank filter, else the exact tipo matches. */
  function CategoriasPorFiltro(st: CategoriaUiState): (r: seq<Categoria>)
    ensures IsBlank(st.filtroTipo) ==> r == st.categorias
    ensures !IsBlank(st.filtroTipo) ==>
      (forall i :: 0 <= i < |r| ==> r[i] in st.categorias && r[i].tipo == st.filtroTipo)
      && (forall i :: 0 <= i < |st.categorias| && st.categorias[i].tipo == st.filtroTipo ==> st.categorias[i] in r)
  {
    if IsBlank(st.filtroTipo) then st.categorias
    else Filter(st.categorias, (c: Categoria) => c.tipo == st.filtroTipo)
  }

  /** The tab's tipo: "Gasto" for tab 0, "Ingreso" for any other index. */
  function TipoDeTab(index: int): (t: string)
    ensures index == 0 ==> t == "Gasto"
    ensures index != 0 ==> t == "Ingreso"
  {
    if index == 0 then "Gasto" else "Ingreso"
  }

  /** `categoriasFiltradas`: the categories of the selected tab's tipo, compared exactly. */
  function CategoriasPorTab(st: CategoriaUiState): (r: seq<Categoria>)
    ensures forall i :: 0 <= i < |r| ==> r[i] in st.categorias && r[i].tipo == TipoDeTab(st.selectedTabIndex)
    ensures forall i :: 0 <= i < |st.categorias| && st.categorias[i].tipo == TipoDeTab(st.selectedTabIndex) ==>
      st.categorias[i] in r
  {
    Filter(st.categorias, (c: Categoria) => c.tipo == TipoDeTab(st.selectedTabIndex))
  }

  class CategoriaViewModel {
    var usuarioId: Option<int>
    var uiState: CategoriaUiState
    var usuariosInicializados: set<int>
    var requests: seq<Request>
    /** How many times `onSuccess` of `saveCategoria` has run. */
    var exitos: nat

    constructor ()
      ensures usuarioId == None && uiState == InitialUiState
      ensures usuariosInicializados == {} && requests == [] && exitos == 0
    {
      usuarioId := None;
      uiState := InitialUiState;
      usuariosInicializados := {};
      requests := [];
      exitos := 0;
    }

    /**
     * `setUsuarioId`: 0 is ignored. A new id is emitted to the two
     * collectors of `init` (each fetches; the second first creates the
     * defaults); an id equal to the current one is not re-emitted.
     */
    method SetUsuarioId(id: int)
      modifies this`usuarioId, this`requests
      ensures id == 0 ==> usuarioId == old(usuarioId) && requests == old(requests)
      ensures id != 0 ==> usuarioId == Some(id)
      ensures id != 0 && old(usuarioId) != Some(id) ==> requests == old(requests) + [UsuarioEmitido(id)]
      ensures old(usuarioId) == Some(id) ==> requests == old(requests)
    {
      if id != 0 {
        if usuarioId != Some(id) {
          requests := requests + [UsuarioEmitido(id)];
        }
        usuarioId := Some(id);
      }
    }

    /**
     * `inicializarCategoriasPorDefecto`, given the first successful load of
     * the user's categories (`None` when the load never succeeded; a null
     * list counts as empty): at most once per user, the missing defaults
     * are created and the user is marked as initialised.
     */
    method InicializarCategoriasPorDefecto(uid: int, existentes: Option<seq<Categoria>>)
      modifies this`usuariosInicializados, this`requests
      ensures uid in old(usuariosInicializados) || existentes.None? ==> unchanged(this)
      ensures uid !in old(usuariosInicializados) && existentes.Some? ==>
        (usuariosInicializados == old(usuariosInicializados) + {uid}
         && requests == old(requests) + CreateRequests(CategoriasParaCrear(existentes.value, uid)))
    {
      if uid in usuariosInicializados || existentes.None? {
        return;
      }
      requests := requests + CreateRequests(CategoriasParaCrear(existentes.value, uid));
      usuariosInicializados := usuariosInicializados + {uid};
    }

    /** `fetchCategorias`: id 0 is rejected with "Usuario inválido" and nothing is fetched. */
    method FetchCategorias(uid: int)
      modifies this`uiState, this`requests
      ensures uid == 0 ==> uiState == old(uiState).(error := Some(UsuarioInvalido), isLoading := false) && requests == old(requests)
      ensures uid != 0 ==> uiState == old(uiState) && requests == old(requests) + [GetCategorias(uid)]
    {
      if uid == 0 {
        uiState := uiState.(error := Some(UsuarioInvalido), isLoading := false);
        return;
      }
      requests := requests + [GetCategorias(uid)];
    }

    /**
     * One result of the fetch: a list replaces the categories and clears the
     * error and the type filter; a null list only clears loading and the
     * filter; an error stores its (possibly null) message.
     */
    method OnCategorias(result: Resource<seq<Categoria>>)
      modifies this`uiState
      ensures result.Success? && result.data.Some? ==>
        uiState == old(uiState).(categorias := result.data.value, isLoading := false, error := None, filtroTipo := "")
      ensures result.Success? && result.data.None? ==> uiState == old(uiState).(isLoading := false, filtroTipo := "")
      ensures result.Error? ==> uiState == old(uiState).(error := result.message, isLoading := false)
      ensures result.Loading? ==> uiState == old(uiState).(isLoading := true)
    {
      match result
      case Success(data) =>
        if data.Some? {
          uiState := uiState.(categorias := data.value, isLoading := false, error := None, filtroTipo := "");
        } else {
          uiState := uiState.(isLoading := false, filtroTipo := "");
        }
      case Error(m) => uiState := uiState.(error := m, isLoading := false);
      case Loading => uiState := uiState.(isLoading := true);
    }

    /**
     * `saveCategoria`: id 0 is rejected and nothing is sent; otherwise the
     * form's fields go out as a new category and loading starts.
     */
    method SaveCategoria(uid: int)
      modifies this`uiState, this`requests
      ensures uid == 0 ==> uiState == old(uiState).(error := Some(UsuarioInvalidoGuardar)) && requests == old(requests)
      ensures uid != 0 ==> uiState == old(uiState).(isLoading := true, error := None)
      ensures uid != 0 ==>
        (requests == old(requests) +
         [CreateCategoria(NuevaCategoria(old(uiState.nombre), old(uiState.tipo), old(uiState.icono), old(uiState.colorFondo), uid))])
    {
      if uid == 0 {
        uiState := uiState.(error := Some(UsuarioInvalidoGuardar));
        return;
      }
      var nueva := NuevaCategoria(uiState.nombre, uiState.tipo, uiState.icono, uiState.colorFondo, uid);
      uiState := uiState.(isLoading := true, error := None);
      requests := requests + [CreateCategoria(nueva)];
    }

    /**
     * One result of the create: Success appends a returned category and
     * resets the form to ("", "Gasto", "", "FFFFFF"), then refetches and
     * runs `onSuccess` (also for a null payload).
     */
    method OnGuardado(uid: int, result: Resource<Categoria>)
      requires uid != 0
      modifies this`uiState, this`requests, this`exitos
      ensures result.Success? && result.data.Some? ==> uiState == old(uiState).(isLoading := false,
        categorias := old(uiState.categorias) + [result.data.value], nombre := "", tipo := "Gasto", icono := "",
        colorFondo := "FFFFFF", error := None)
      ensures result.Success? && result.data.None? ==> uiState == old(uiState)
      ensures result.Success? ==> requests == old(requests) + [GetCategorias(uid)] && exitos == old(exitos) + 1
      ensures result.Error? ==> uiState == old(uiState).(error := result.message, isLoading := false)
      ensures result.Loading? ==> uiState == old(uiState).(isLoading := true)
      ensures !result.Success? ==> requests == old(requests) && exitos == old(exitos)
    {
      match result
      case Success(data) =>
        if data.Some? {
          uiState := uiState.(isLoading := false, categorias := uiState.categorias + [data.value],
            nombre := "", tipo := "Gasto", icono := "", colorFondo := "FFFFFF", error := None);
        }
        FetchCategorias(uid);
        exitos := exitos + 1;
      case Error(m) => uiState := uiState.(error := m, isLoading := false);
      case Loading => uiState := uiState.(isLoading := true);
    }

    method OnTabSelected(index: int)
      modifies this`uiState
      ensures uiState == old(uiState).(selectedTabIndex := index)
    {
      uiState := uiState.(selectedTabIndex := index);
    }

    method OnNombreChange(value: string)
      modifies this`uiState
      ensures uiState == old(uiState).(nombre := value)
    {
      uiState := uiState.(nombre := value);
    }

    method OnTipoChange(value: string)
      modifies this`uiState
      ensures uiState == old(uiState).(tipo := value)
    {
      uiState := uiState.(tipo := value);
    }

    method OnFiltroTipoChange(filtro: string)
      modifies this`uiState
      ensures uiState == old(uiState).(filtroTipo := filtro)
    {
      uiState := uiState.(filtroTipo := filtro);
    }

    /** `inicializarSinFiltro` and `limpiarFiltro` both clear the type filter. */
    method LimpiarFiltro()
      modifies this`uiState
      ensures uiState == old(uiState).(filtroTipo := "")
      ensures CategoriasPorFiltro(uiState) == uiState.categorias
    {
      uiState := uiState.(filtroTipo := "");
    }

    method OnIconoChange(value: string)
      modifies this`uiState
      ensures uiState == old(uiState).(icono := value)
    {
      uiState := uiState.(icono := value);
    }

    method OnColorChange(value: string)
      modifies this`uiState
      ensures uiState == old(uiState).(colorFondo := value)
    {
      uiState := uiState.(colorFondo := value);
    }
  }

  /** One create request per category, in order. */
  function CreateRequests(cs: seq<Categoria>): (r: seq<Request>)
    ensures |r| == |cs|
    ensures forall i :: 0 <= i < |cs| ==> r[i] == CreateCategoria(cs[i])
  {
    seq(|cs|, i requires 0 <= i < |cs| => CreateCategoria(cs[i]))
  }
}
