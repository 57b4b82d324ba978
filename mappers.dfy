/**
 * The DTO <-> Room entity mappers (`Mappers.kt`). Each entity is its DTO's
 * fields plus `syncPending`; the DTO of a saving goal also carries its list
 * of contributions, and the spending-limit entity carries the amount spent,
 * and neither of these is mapped.
 */
module Mappers {
  import opened Wrappers
  import opened Calendar
  import opened Dto

  datatype TransaccionEntity = TransaccionEntity(
    transaccionId: int,
    monto: real,
    categoriaId: int,
    fecha: DateTime,
    notas: Option<string>,
    tipo: string,
    usuarioId: int,
    syncPending: bool)

  datatype PagoRecurrenteEntity = PagoRecurrenteEntity(
    pagoRecurrenteId: int,
    monto: real,
    categoriaId: int,
    frecuencia: string,
    fechaInicio: DateTime,
    fechaFin: Option<DateTime>,
    activo: bool,
    usuarioId: int,
    syncPending: bool)

  datatype MetaAhorroEntity = MetaAhorroEntity(
    metaAhorroId: int,
    nombreMeta: string,
    montoObjetivo: real,
    fechaFinalizacion: DateTime,
    contribucionRecurrente: Option<real>,
    imagen: Option<string>,
    montoActual: Option<real>,
    montoAhorrado: Option<real>,
    fechaMontoAhorrado: Option<DateTime>,
    usuarioId: int,
    syncPending: bool)

  datatype LimiteGastoEntity = LimiteGastoEntity(
    limiteGastoId: int,
    categoriaId: int,
    montoLimite: real,
    periodo: string,
    gastadoActual: Option<real>,
    usuarioId: int,
    syncPending: bool)

  datatype CategoriaEntity = CategoriaEntity(
    categoriaId: int,
    nombre: string,
    tipo: string,
    icono: string,
    colorFondo: string,
    usuarioId: int,
    syncPending: bool)

  /** `TransaccionDto.toEntity`: never pending, and mapped back it is the DTO again. */
  function TransaccionToEntity(d: Transaccion): (e: TransaccionEntity)
    ensures !e.syncPending
    ensures TransaccionToDto(e) == d
  {
    TransaccionEntity(d.transaccionId, d.monto, d.categoriaId, d.fecha, d.notas, d.tipo, d.usuarioId, false)
  }

  /** `TransaccionEntity.toDto`. */
  function TransaccionToDto(e: TransaccionEntity): Transaccion {
    Transaccion(e.transaccionId, e.monto, e.categoriaId, e.fecha, e.notas, e.tipo, e.usuarioId)
  }

  /** An entity mapped to its DTO and back keeps every field but loses a pending sync. */
  lemma TransaccionEntityRoundTrip(e: TransaccionEntity)
    ensures TransaccionToEntity(TransaccionToDto(e)) == e.(syncPending := false)
  {
  }

  /** `PagoRecurrenteDto.toEntity(syncPending)`: pending as asked, and mapped back it is the DTO again. */
  function PagoToEntity(d: PagoRecurrente, syncPending: bool): (e: PagoRecurrenteEntity)
    ensures e.syncPending == syncPending
    ensures PagoToDto(e) == d
  {
    PagoRecurrenteEntity(d.pagoRecurrenteId, d.monto, d.categoriaId, d.frecuencia, d.fechaInicio, d.fechaFin,
                         d.activo, d.usuarioId, syncPending)
  }

  /** `PagoRecurrenteEntity.toDto`. */
  function PagoToDto(e: PagoRecurrenteEntity): PagoRecurrente {
    PagoRecurrente(e.pagoRecurrenteId, e.monto, e.categoriaId, e.frecuencia, e.fechaInicio, e.fechaFin, e.activo, e.usuarioId)
  }

  lemma PagoEntityRoundTrip(e: PagoRecurrenteEntity)
    ensures PagoToEntity(PagoToDto(e), e.syncPending) == e
  {
  }

  /**
   * `MetaAhorroDto.toEntity(syncPending)`: the contributions are not
   * stored, so mapped back the DTO has an empty list of them.
   */
  function MetaToEntity(d: MetaAhorro, syncPending: bool): (e: MetaAhorroEntity)
    ensures e.syncPending == syncPending
    ensures MetaToDto(e) == d.(ahorros := [])
  {
    MetaAhorroEntity(d.metaAhorroId, d.nombreMeta, d.montoObjetivo, d.fechaFinalizacion, d.contribucionRecurrente,
                     d.imagen, d.montoActual, d.montoAhorrado, d.fechaMontoAhorrado, d.usuarioId, syncPending)
  }

  /** `MetaAhorroEntity.toDto`: the list of contributions takes its default, empty. */
  function MetaToDto(e: MetaAhorroEntity): (d: MetaAhorro)
    ensures d.ahorros == []
  {
    MetaAhorro(e.metaAhorroId, e.nombreMeta, e.montoObjetivo, e.fechaFinalizacion, e.contribucionRecurrente,
               e.imagen, e.montoActual, e.montoAhorrado, e.fechaMontoAhorrado, e.usuarioId, [])
  }

  /** A goal with contributions does not survive the round trip. */
  lemma MetaRoundTripLosesAhorros(d: MetaAhorro, syncPending: bool)
    ensures MetaToDto(MetaToEntity(d, syncPending)) == d <==> d.ahorros == []
  {
    if d.ahorros != [] {
      assert MetaToDto(MetaToEntity(d, syncPending)).ahorros != d.ahorros;
    }
  }

  lemma MetaEntityRoundTrip(e: MetaAhorroEntity)
    ensures MetaToEntity(MetaToDto(e), e.syncPending) == e
  {
  }

  /**
   * `LimiteGastoDto.toEntity(syncPending)`: the amount spent is mapped in
   * neither direction, so the entity's takes its default, null.
   */
  function LimiteToEntity(d: LimiteGasto, syncPending: bool): (e: LimiteGastoEntity)
    ensures e.syncPending == syncPending && e.gastadoActual.None?
    ensures LimiteToDto(e) == d.(gastadoActual := None)
  {
    LimiteGastoEntity(d.limiteGastoId, d.categoriaId, d.montoLimite, d.periodo, None, d.usuarioId, syncPending)
  }

  /** `LimiteGastoEntity.toDto`: the DTO's amount spent takes its default, null. */
  function LimiteToDto(e: LimiteGastoEntity): (d: LimiteGasto)
    ensures d.gastadoActual.None?
  {
    LimiteGasto(e.limiteGastoId, e.categoriaId, e.montoLimite, e.periodo, None, e.usuarioId)
  }

  /** Both round trips of a spending limit drop the amount spent, and only that. */
  lemma LimiteRoundTrips(d: LimiteGasto, e: LimiteGastoEntity, syncPending: bool)
    ensures LimiteToDto(LimiteToEntity(d, syncPending)) == d <==> d.gastadoActual.None?
    ensures LimiteToEntity(LimiteToDto(e), e.syncPending) == e.(gastadoActual := None)
  {
    if d.gastadoActual.Some? {
      assert LimiteToDto(LimiteToEntity(d, syncPending)).gastadoActual != d.gastadoActual;
    }
  }

  /** `CategoriaDto.toEntity(syncPending)`: pending as asked, and mapped back it is the DTO again. */
  function CategoriaToEntity(d: Categoria, syncPending: bool): (e: CategoriaEntity)
    ensures e.syncPending == syncPending
    ensures CategoriaToDto(e) == d
  {
    CategoriaEntity(d.categoriaId, d.nombre, d.tipo, d.icono, d.colorFondo, d.usuarioId, syncPending)
  }

  /** `CategoriaEntity.toDto`. */
  function CategoriaToDto(e: CategoriaEntity): Categoria {
    Categoria(e.categoriaId, e.nombre, e.tipo, e.icono, e.colorFondo, e.usuarioId)
  }

  lemma CategoriaEntityRoundTrip(e: CategoriaEntity)
    ensures CategoriaToEntity(CategoriaToDto(e), e.syncPending) == e
  {
  }
}
