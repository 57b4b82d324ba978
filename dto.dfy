/**
 * The records the app exchanges with its API. The repository carries two
 * DTO packages whose shapes differ slightly; each record here has the
 * union of the fields the modelled code reads. Amounts (`Double`) are
 * exact reals; `OffsetDateTime` values are `Calendar.DateTime`.
 */
module Dto {
  import opened Wrappers
  import opened Calendar

  datatype Categoria = Categoria(
    categoriaId: int,
    nombre: string,
    tipo: string,
    icono: string,
    colorFondo: string,
    usuarioId: int)

  datatype Transaccion = Transaccion(
    transaccionId: int,
    monto: real,
    categoriaId: int,
    fecha: DateTime,
    notas: Option<string>,
    tipo: string,
    usuarioId: int)

  datatype PagoRecurrente = PagoRecurrente(
    pagoRecurrenteId: int,
    monto: real,
    categoriaId: int,
    frecuencia: string,
    fechaInicio: DateTime,
    fechaFin: Option<DateTime>,
    activo: bool,
    usuarioId: int)

  datatype LimiteGasto = LimiteGasto(
    limiteGastoId: int,
    categoriaId: int,
    montoLimite: real,
    periodo: string,
    gastadoActual: Option<real>,
    usuarioId: int)

  datatype AhorroRegistro = AhorroRegistro(monto: real, fecha: DateTime)

  datatype MetaAhorro = MetaAhorro(
    metaAhorroId: int,
    nombreMeta: string,
    montoObjetivo: real,
    fechaFinalizacion: DateTime,
    contribucionRecurrente: Option<real>,
    imagen: Option<string>,
    montoActual: Option<real>,
    montoAhorrado: Option<real>,
    fechaMontoAhorrado: Option<DateTime>,
    usuarioId: int,
    ahorros: seq<AhorroRegistro>)

  datatype Usuario = Usuario(
    usuarioId: Option<int>,
    nombre: string,
    apellido: string,
    email: string,
    contrasena: string,
    fotoPerfil: Option<string>,
    divisa: string,
    saldoTotal: real)

  function TransaccionKey(t: Transaccion): int { t.transaccionId }
  function PagoKey(p: PagoRecurrente): int { p.pagoRecurrenteId }
  function LimiteKey(l: LimiteGasto): int { l.limiteGastoId }
  function MetaKey(m: MetaAhorro): int { m.metaAhorroId }
  function CategoriaKey(c: Categoria): int { c.categoriaId }
}
