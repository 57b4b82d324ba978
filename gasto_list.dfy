/**
 * The transaction-list screen (`GastoListScreen`): the time range of the
 * selected period, the classification of a date relative to today, the
 * month grid of the calendar dialog, and the filtered list with its total.
 */
module GastoList {
  import opened Wrappers
  import opened Text
  import opened Calendar
  import opened ListOps
  import opened Dto
  import opened Gasto

  const LastNano: NanoOfDay := NanosPerDay - 1

  /** The first and the last instant of a period. */
  datatype Rango = Rango(inicio: DateTime, fin: DateTime)

  /**
   * `calcularRangoFechas`: midnight at the start of the day, ISO week
   * (Monday), month or year holding `sel`, and one nanosecond before the
   * next period starts; any other filter gives the pair (sel, sel).
   */
  function CalcularRangoFechas(filtro: string, sel: DateTime): (r: Rango)
    ensures IsDateFilter(filtro) ==> r.inicio.nanoOfDay == 0 && r.fin.nanoOfDay == LastNano
    ensures filtro == "Día" ==> r.inicio.date == sel.date && r.fin.date == sel.date
    ensures filtro == "Semana" ==>
      DayNumber(r.inicio.date) == WeekMonday(DayNumber(sel.date)) && DayOfWeek(r.inicio.date) == 1
      && DayNumber(r.fin.date) == DayNumber(r.inicio.date) + 6
    ensures filtro == "Mes" ==>
      r.inicio.date == YMD(sel.date.year, sel.date.month, 1)
      && r.fin.date == YMD(sel.date.year, sel.date.month, DaysInMonth(sel.date.year, sel.date.month))
    ensures filtro == "Año" ==> r.inicio.date == YMD(sel.date.year, 1, 1) && r.fin.date == YMD(sel.date.year, 12, 31)
    ensures !IsDateFilter(filtro) ==> r == Rango(sel, sel)
  {
    var d := sel.date;
    if filtro == "Día" then Rango(DateTime(d, 0), DateTime(d, LastNano))
    else if filtro == "Semana" then
      Rango(DateTime(InicioSemana(d), 0), DateTime(FinSemana(d), LastNano))
    else if filtro == "Mes" then
      Rango(DateTime(YMD(d.year, d.month, 1), 0), DateTime(YMD(d.year, d.month, DaysInMonth(d.year, d.month)), LastNano))
    else if filtro == "Año" then
      Rango(DateTime(YMD(d.year, 1, 1), 0), DateTime(YMD(d.year, 12, 31), LastNano))
    else Rango(sel, sel)
  }

  /** The start of the period that follows the range of a date filter. */
  function SiguientePeriodo(filtro: string, sel: DateTime): (n: int)
    requires IsDateFilter(filtro)
  {
    var d := sel.date;
    if filtro == "Día" then (DayNumber(d) + 1) * NanosPerDay
    else if filtro == "Semana" then (WeekMonday(DayNumber(d)) + 7) * NanosPerDay
    else if filtro == "Mes" then DayNumber(FirstOfNextMonth(YMD(d.year, d.month, 1))) * NanosPerDay
    else DaysBeforeYear(d.year + 1) * NanosPerDay
  }

  /** Each range of a date filter ends exactly one nanosecond before the next period starts. */
  lemma RangoEndsBeforeNextPeriod(filtro: string, sel: DateTime)
    requires IsDateFilter(filtro)
    ensures Instant(CalcularRangoFechas(filtro, sel).fin) + 1 == SiguientePeriodo(filtro, sel)
  {
    var y := sel.date.year;
    if filtro == "Año" {
      DaysBeforeMonthStep(y, 12);
      YearStep(y);
    }
  }

  /** Scaling whole days to nanoseconds keeps a day inside or outside a range of days. */
  lemma DaysToNanos(a: int, c: int, n: int, x: NanoOfDay)
    ensures a * NanosPerDay <= n * NanosPerDay + x < c * NanosPerDay <==> a <= n < c
  {
  }

  /**
   * A range from a midnight to one nanosecond before the midnight of day `c`
   * holds a timestamp exactly when its date lies in those whole days.
   */
  lemma RangeOfDays(r: Rango, c: int, t: DateTime)
    requires r.inicio.nanoOfDay == 0 && Instant(r.fin) + 1 == c * NanosPerDay
    ensures Instant(r.inicio) <= Instant(t) <= Instant(r.fin) <==> DayNumber(r.inicio.date) <= DayNumber(t.date) < c
  {
    DaysToNanos(DayNumber(r.inicio.date), c, DayNumber(t.date), t.nanoOfDay);
  }

  /** The day filter's range holds a timestamp exactly when it is on `sel`'s date. */
  lemma RangoDia(sel: DateTime, t: DateTime)
    ensures var r := CalcularRangoFechas("Día", sel);
      Instant(r.inicio) <= Instant(t) <= Instant(r.fin) <==> t.date == sel.date
  {
    var r := CalcularRangoFechas("Día", sel);
    RangeOfDays(r, DayNumber(sel.date) + 1, t);
    DayNumberInjective(t.date, sel.date);
  }

  /** The week filter's range holds a timestamp exactly when its day is in `sel`'s Monday..Sunday. */
  lemma RangoSemana(sel: DateTime, t: DateTime)
    ensures var r := CalcularRangoFechas("Semana", sel);
      Instant(r.inicio) <= Instant(t) <= Instant(r.fin) <==>
      WeekMonday(DayNumber(sel.date)) <= DayNumber(t.date) <= WeekSunday(DayNumber(sel.date))
  {
    var r := CalcularRangoFechas("Semana", sel);
    RangoEndsBeforeNextPeriod("Semana", sel);
    RangeOfDays(r, WeekMonday(DayNumber(sel.date)) + 7, t);
  }

  /** The month filter's range holds a timestamp exactly when it is in `sel`'s month. */
  lemma RangoMes(sel: DateTime, t: DateTime)
    ensures var r := CalcularRangoFechas("Mes", sel);
      Instant(r.inicio) <= Instant(t) <= Instant(r.fin) <==>
      t.date.month == sel.date.month && t.date.year == sel.date.year
  {
    var r := CalcularRangoFechas("Mes", sel);
    var d := sel.date;
    RangoEndsBeforeNextPeriod("Mes", sel);
    RangeOfDays(r, DayNumber(FirstOfNextMonth(YMD(d.year, d.month, 1))), t);
    InMonthIffBetween(t.date, d.year, d.month);
  }

  /** The year filter's range holds a timestamp exactly when it is in `sel`'s year. */
  lemma RangoAnio(sel: DateTime, t: DateTime)
    ensures var r := CalcularRangoFechas("Año", sel);
      Instant(r.inicio) <= Instant(t) <= Instant(r.fin) <==> t.date.year == sel.date.year
  {
    var r := CalcularRangoFechas("Año", sel);
    var y := sel.date.year;
    assert r.inicio == DateTime(YMD(y, 1, 1), 0) && r.fin == DateTime(YMD(y, 12, 31), LastNano);
    RangoEndsBeforeNextPeriod("Año", sel);
    assert DayNumber(r.inicio.date) == DaysBeforeYear(y) by { DaysBeforeMonthStep(y, 1); }
    RangeOfDays(r, DaysBeforeYear(y + 1), t);
    InYearIffBetween(t.date, y);
  }

  /**
   * The range of a date filter holds a timestamp exactly when the
   * view-model's date window around `sel`'s date holds its date.
   */
  lemma RangoIffWindow(filtro: string, sel: DateTime, t: DateTime)
    requires IsDateFilter(filtro)
    ensures var r := CalcularRangoFechas(filtro, sel);
      Instant(r.inicio) <= Instant(t) <= Instant(r.fin) <==> InDateWindow(filtro, sel.date, t.date)
  {
    if filtro == "Día" {
      RangoDia(sel, t);
    } else if filtro == "Semana" {
      RangoSemana(sel, t);
    } else if filtro == "Mes" {
      RangoMes(sel, t);
    } else {
      RangoAnio(sel, t);
    }
  }

  /** The list screen's test `isAfter(inicio - 1ns) && isBefore(fin + 1ns)`. */
  predicate EnRango(t: DateTime, r: Rango) {
    Instant(r.inicio) - 1 < Instant(t) && Instant(t) < Instant(r.fin) + 1
  }

  /** The widened strict test is the inclusive range. */
  lemma EnRangoInclusive(t: DateTime, r: Rango)
    ensures EnRango(t, r) <==> Instant(r.inicio) <= Instant(t) <= Instant(r.fin)
  {
  }

  /** The condition of the list filter. */
  predicate Visible(t: Transaccion, r: Rango, tipo: string) {
    EnRango(t.fecha, r) && EqualsIgnoreCase(t.tipo, tipo)
  }

  /** The transactions the list screen shows for the period of `filtro` around `sel`. */
  function TransaccionesVisibles(txs: seq<Transaccion>, filtro: string, sel: DateTime, tipo: string): (r: seq<Transaccion>)
    ensures forall i :: 0 <= i < |r| ==>
      (r[i] in txs && Visible(r[i], CalcularRangoFechas(filtro, sel), tipo))
    ensures forall i :: 0 <= i < |txs| && Visible(txs[i], CalcularRangoFechas(filtro, sel), tipo) ==> txs[i] in r
  {
    var rango := CalcularRangoFechas(filtro, sel);
    Filter(txs, (t: Transaccion) => Visible(t, rango, tipo))
  }

  /** The total shown under the list: the sum of the shown amounts. */
  function Total(txs: seq<Transaccion>, filtro: string, sel: DateTime, tipo: string): real {
    SumOf(TransaccionesVisibles(txs, filtro, sel, tipo), (t: Transaccion) => t.monto)
  }

  /**
   * For a date filter the screen shows the transactions of the chosen type
   * whose date lies in the view-model's date window, in list order.
   */
  lemma VisiblesMatchWindow(txs: seq<Transaccion>, filtro: string, sel: DateTime, tipo: string)
    requires IsDateFilter(filtro)
    ensures TransaccionesVisibles(txs, filtro, sel, tipo)
      == Filter(txs, (t: Transaccion) => InDateWindow(filtro, sel.date, t.fecha.date) && EqualsIgnoreCase(t.tipo, tipo))
  {
    var rango := CalcularRangoFechas(filtro, sel);
    forall i | 0 <= i < |txs|
      ensures Visible(txs[i], rango, tipo) == (InDateWindow(filtro, sel.date, txs[i].fecha.date) && EqualsIgnoreCase(txs[i].tipo, tipo))
    {
      RangoIffWindow(filtro, sel, txs[i].fecha);
      EnRangoInclusive(txs[i].fecha, rango);
    }
    FilterCongruent(txs, (t: Transaccion) => Visible(t, rango, tipo),
      (t: Transaccion) => InDateWindow(filtro, sel.date, t.fecha.date) && EqualsIgnoreCase(t.tipo, tipo));
  }

  /** Under an unknown filter only transactions at exactly the selected instant are shown. */
  lemma UnknownFilterShowsInstant(t: Transaccion, filtro: string, sel: DateTime, tipo: string)
    requires !IsDateFilter(filtro)
    ensures Visible(t, CalcularRangoFechas(filtro, sel), tipo) <==> Instant(t.fecha) == Instant(sel) && EqualsIgnoreCase(t.tipo, tipo)
  {
  }

  /** The total of two lists shown together is the sum of their totals. */
  lemma {:induction false} TotalConcat(a: seq<Transaccion>, b: seq<Transaccion>, filtro: string, sel: DateTime, tipo: string)
    ensures Total(a + b, filtro, sel, tipo) == Total(a, filtro, sel, tipo) + Total(b, filtro, sel, tipo)
  {
    var rango := CalcularRangoFechas(filtro, sel);
    FilterConcat(a, b, (t: Transaccion) => Visible(t, rango, tipo));
    SumOfConcat(TransaccionesVisibles(a, filtro, sel, tipo), TransaccionesVisibles(b, filtro, sel, tipo), (t: Transaccion) => t.monto);
  }

  /** `previousOrSame(MONDAY)`: the Monday of `hoy`'s week. */
  function InicioSemana(hoy: LocalDate): (l: LocalDate)
    ensures DayNumber(l) == WeekMonday(DayNumber(hoy))
  {
    MinusDays(hoy, DayOfWeek(hoy) - 1)
  }

  /** Six days after this week's Monday. */
  function FinSemana(hoy: LocalDate): (d: LocalDate)
    ensures DayNumber(d) == WeekMonday(DayNumber(hoy)) + 6
  {
    PlusDays(InicioSemana(hoy), 6)
  }

  /**
   * `obtenerFiltroPorFecha`: "Día" for today or a later date, "Semana" for
   * an earlier date of this Monday..Sunday week, "Otra" otherwise.
   */
  function ObtenerFiltroPorFecha(fechaTransaccion: DateTime, fechaActual: DateTime): string {
    var hoy := fechaActual.date;
    var fecha := fechaTransaccion.date;
    if fecha == hoy || IsBefore(hoy, fecha) then "Día"
    else if IsBefore(fecha, hoy) && !IsBefore(fecha, InicioSemana(hoy)) && !IsBefore(FinSemana(hoy), fecha) then "Semana"
    else "Otra"
  }

  /** The three labels split the day line at today and at this week's Monday. */
  lemma ObtenerFiltroPorFechaBands(ft: DateTime, fa: DateTime)
    ensures var f, h := DayNumber(ft.date), DayNumber(fa.date);
      (ObtenerFiltroPorFecha(ft, fa) == "Día" <==> f >= h)
      && (ObtenerFiltroPorFecha(ft, fa) == "Semana" <==> WeekMonday(h) <= f < h)
      && (ObtenerFiltroPorFecha(ft, fa) == "Otra" <==> f < WeekMonday(h))
  {
    var hoy, fecha := fa.date, ft.date;
    DayNumberInjective(fecha, hoy);
    IsBeforeIffDayNumber(hoy, fecha);
    IsBeforeIffDayNumber(fecha, hoy);
    IsBeforeIffDayNumber(fecha, InicioSemana(hoy));
    IsBeforeIffDayNumber(FinSemana(hoy), fecha);
    assert "Día" != "Semana" && "Día" != "Otra" && "Semana" != "Otra";
  }

  /** Column of the first day of the month: Monday = 0 ... Sunday = 6. */
  function GridOffset(y: int, m: int): (o: int)
    requires 1 <= m <= 12
    ensures 0 <= o <= 6
    ensures o == DayOfWeek(YMD(y, m, 1)) - 1
  {
    (DayOfWeek(YMD(y, m, 1)) + 6) % 7
  }

  /** `totalCeldas`: the cell count rounded up to whole weeks. */
  function TotalCeldas(offset: int, dias: int): (n: int)
    requires offset >= 0 && dias >= 0
    ensures n % 7 == 0 && offset + dias <= n < offset + dias + 7
  {
    var minimo := offset + dias;
    if minimo % 7 == 0 then minimo else (minimo / 7 + 1) * 7
  }

  /** `totalCeldas` is the least multiple of 7 that holds all cells. */
  lemma TotalCeldasLeast(offset: int, dias: int, k: int)
    requires offset >= 0 && dias >= 0
    requires k % 7 == 0 && k >= offset + dias
    ensures TotalCeldas(offset, dias) <= k
  {
  }

  /** The calendar dialog's cells for month `m` of year `y`: blanks, then the day numbers, then blanks. */
  function MonthGrid(y: int, m: int): (g: seq<Option<int>>)
    requires 1 <= m <= 12
    ensures |g| == TotalCeldas(GridOffset(y, m), DaysInMonth(y, m))
    ensures forall i :: 0 <= i < |g| ==>
      (g[i].Some? <==> GridOffset(y, m) <= i < GridOffset(y, m) + DaysInMonth(y, m))
    ensures forall i :: 0 <= i < |g| && g[i].Some? ==> g[i].value == i - GridOffset(y, m) + 1
  {
    var offset := GridOffset(y, m);
    var dias := DaysInMonth(y, m);
    seq(TotalCeldas(offset, dias), (index: int) =>
      var dia := index - offset + 1;
      if index < offset || dia > dias then None else Some(dia))
  }

  /** Each day of the month appears in the grid exactly once. */
  lemma MonthGridDayOnce(y: int, m: int, k: int)
    requires 1 <= m <= 12 && 1 <= k <= DaysInMonth(y, m)
    ensures var g := MonthGrid(y, m); var i := GridOffset(y, m) + k - 1;
      0 <= i < |g| && g[i] == Some(k) && forall j :: 0 <= j < |g| && g[j] == Some(k) ==> j == i
  {
  }

  /** Day `k` sits in the column of its weekday, Monday = 0. */
  lemma MonthGridColumn(y: int, m: int, k: int)
    requires 1 <= m <= 12 && 1 <= k <= DaysInMonth(y, m)
    ensures (GridOffset(y, m) + k - 1) % 7 == DayOfWeek(YMD(y, m, k)) - 1
  {
    var first: LocalDate := YMD(y, m, 1);
    var day: LocalDate := YMD(y, m, k);
    var a := DayNumber(first) + 3;
    assert DayNumber(day) + 3 == a + (k - 1);
    assert GridOffset(y, m) == a % 7;
    ModAdd(a, k - 1);
  }

  lemma ModAdd(a: int, b: int)
    ensures (a % 7 + b) % 7 == (a + b) % 7
  {
    var q := a / 7;
    assert a == 7 * q + a % 7;
    assert a + b == 7 * q + (a % 7 + b);
  }
}
