/**
 * The category form (`CategoriaScreen`): the ordered save checks of
 * `handleGuardarClick`, the icon and colour palettes, and the rows of the
 * icon grid.
 */
module CategoriaScreen {
  import opened Text

  datatype Clic = Toast(mensaje: string) | OnGuardar(nombre: string, tipo: string, icono: string, color: string)

  const MsgNombre: string := "Ingresa un nombre para la categoría"
  const MsgIcono: string := "Selecciona un icono"
  const MsgColor: string := "Selecciona un color"

  /** `handleGuardarClick`: a blank name, then a blank icon, then a blank colour each stop with a toast. */
  function HandleGuardarClick(nombre: string, tipo: string, icono: string, colorFondo: string): (c: Clic)
    ensures c.OnGuardar? <==> !IsBlank(nombre) && !IsBlank(icono) && !IsBlank(colorFondo)
    ensures c.OnGuardar? ==> c == OnGuardar(nombre, tipo, icono, colorFondo)
    ensures IsBlank(nombre) ==> c == Toast(MsgNombre)
    ensures c == Toast(MsgIcono) <==> !IsBlank(nombre) && IsBlank(icono)
    ensures c == Toast(MsgColor) <==> !IsBlank(nombre) && !IsBlank(icono) && IsBlank(colorFondo)
  {
    if IsBlank(nombre) then Toast(MsgNombre)
    else if IsBlank(icono) then Toast(MsgIcono)
    else if IsBlank(colorFondo) then Toast(MsgColor)
    else OnGuardar(nombre, tipo, icono, colorFondo)
  }

  const IconosBase: seq<string> := ["🏠", "🚗", "🍽️", "📱", "💡", "🛍️", "💳", "🛒",
                                    "❤️", "🎓", "🎮", "🎬", "🎉", "💼", "⛽"]
  const IconosExtra: seq<string> := ["📺", "🎵", "🎧", "📷", "🧾", "🚌", "✈️", "🛏️",
                                     "👕", "🐶", "🏥", "🧼", "📚", "💻", "🍻", "🎁",
                                     "🏦", "📦", "🔧", "🪙", "📍", "🧃", "🪑", "📡", "🕹️", "🧳"]
  const ColoresBase: seq<string> := ["#FF3B30", "#007AFF", "#34C759", "#FFCC00", "#AF52DE", "#5AC8FA"]
  const ColoresExtra: seq<string> := ["#FF9500", "#FF2D55", "#8E8E93", "#D1D1D6", "#FFD60A", "#1C1C1E",
                                      "#00C49A", "#A52A2A", "#00BFFF", "#8B008B", "#FFC0CB", "#FF1493"]

  /** `getIconos`: the 15 base icons, followed by the 26 extras when more are shown. */
  function GetIconos(mostrarMas: bool): (r: seq<string>)
    ensures |r| == (if mostrarMas then 41 else 15)
    ensures r[..15] == IconosBase
    ensures mostrarMas ==> r[15..] == IconosExtra
  {
    if mostrarMas then IconosBase + IconosExtra else IconosBase
  }

  /** `getColores`: the 6 base colours, followed by the 12 extras when more are shown. */
  function GetColores(mostrarMas: bool): (r: seq<string>)
    ensures |r| == (if mostrarMas then 18 else 6)
    ensures r[..6] == ColoresBase
    ensures mostrarMas ==> r[6..] == ColoresExtra
  {
    if mostrarMas then ColoresBase + ColoresExtra else ColoresBase
  }

  /** Showing more only adds choices: every base choice stays offered. */
  lemma MasKeepsBase(x: string)
    ensures x in GetIconos(false) ==> x in GetIconos(true)
    ensures x in GetColores(false) ==> x in GetColores(true)
  {
    var i := GetIconos(true);
    var c := GetColores(true);
    assert i[..15] == GetIconos(false);
    assert c[..6] == GetColores(false);
  }

  const IconosPorFila: nat := 4

  /** The elements of a list of rows, in order. */
  function Flatten<T>(rows: seq<seq<T>>): seq<T> {
    if rows == [] then [] else rows[0] + Flatten(rows[1..])
  }

  /** `chunked(n)`: rows of `n` in order, the last one possibly shorter. */
  function Chunked<T>(s: seq<T>, n: nat): (rows: seq<seq<T>>)
    requires n > 0
    ensures Flatten(rows) == s
    ensures forall i :: 0 <= i < |rows| ==> 0 < |rows[i]| <= n
    ensures forall i :: 0 <= i < |rows| - 1 ==> |rows[i]| == n
    decreases |s|
  {
    if |s| <= n then
      (if s == [] then [] else assert Flatten([s]) == s + Flatten([]); [s])
    else
      var rest := Chunked(s[n..], n);
      var rows := [s[..n]] + rest;
      assert rows[1..] == rest;
      assert Flatten(rows) == s[..n] + s[n..];
      assert s[..n] + s[n..] == s;
      rows
  }

  /** `repeat(iconosPorFila - fila.size)`: the spacers that pad a row. */
  function Espaciadores(fila: seq<string>): int {
    IconosPorFila as int - |fila|
  }

  /** Every row of the icon grid holds 1 to 4 icons, and its icons plus spacers are always 4. */
  lemma IconGridRows(iconos: seq<string>)
    ensures var rows := Chunked(iconos, IconosPorFila);
      Flatten(rows) == iconos
      && (forall i :: 0 <= i < |rows| ==>
            (1 <= |rows[i]| <= 4 && Espaciadores(rows[i]) >= 0 && |rows[i]| + Espaciadores(rows[i]) == 4))
  {
  }
}
