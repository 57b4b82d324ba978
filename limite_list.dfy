/**
 * The spending-limit list (`LimiteListScreen`): which of its four faces the
 * screen shows, and what each row displays for a limit.
 */
module LimiteList {
  import opened Wrappers
  import opened ListOps
  import opened Dto
  import opened DoubleArith
  import opened Limite
  import LimiteDetalle

  const ErrorDesconocido: string := "Error desconocido"
  const SinLimites: string := "No hay límites de gasto."

  datatype Vista = Cargando | MensajeError(texto: string) | Vacia(texto: string) | Lista(limites: seq<LimiteGasto>)

  /** Loading wins over an error, an error over an empty list. */
  function VistaDe(st: LimiteUiState): (v: Vista)
    ensures v == Cargando <==> st.isLoading
    ensures v.MensajeError? <==> !st.isLoading && st.error.Some?
    ensures v.MensajeError? ==> v.texto == st.error.value
    ensures v.Vacia? <==> !st.isLoading && st.error.None? && st.limites == []
    ensures v.Lista? ==> v.limites == st.limites && v.limites != []
  {
    if st.isLoading then Cargando
    else if st.error.Some? then MensajeError(st.error.GetOr(ErrorDesconocido))
    else if st.limites == [] then Vacia(SinLimites)
    else Lista(st.limites)
  }

  /** What one row shows. */
  datatype Fila = Fila(nombreCategoria: string, icono: string, gastado: real, porcentaje: Double, limiteGastoId: int)

  /**
   * A row: the category with the limit's id (first match), "Sin categoría"
   * and "❓" when there is none, `gastadoActual ?: 0.0`, and the capped
   * percentage of the limit.
   */
  function FilaDe(limite: LimiteGasto, categorias: seq<Categoria>): (f: Fila)
    ensures FindById(categorias, CategoriaKey, limite.categoriaId).None? ==>
      f.nombreCategoria == "Sin categoría" && f.icono == "❓"
    ensures FindById(categorias, CategoriaKey, limite.categoriaId).Some? ==>
      f.nombreCategoria == FindById(categorias, CategoriaKey, limite.categoriaId).value.nombre
      && f.icono == FindById(categorias, CategoriaKey, limite.categoriaId).value.icono
    ensures f.gastado == limite.gastadoActual.GetOr(0.0)
    ensures f.porcentaje == LimiteDetalle.Porcentaje(f.gastado, limite.montoLimite)
    ensures f.limiteGastoId == limite.limiteGastoId
  {
    var categoria := FindById(categorias, CategoriaKey, limite.categoriaId);
    var nombre := if categoria.Some? then categoria.value.nombre else "Sin categoría";
    var icono := if categoria.Some? then categoria.value.icono else "❓";
    var gastado := limite.gastadoActual.GetOr(0.0);
    Fila(nombre, icono, gastado, LimiteDetalle.Porcentaje(gastado, limite.montoLimite), limite.limiteGastoId)
  }
}
