/**
 * `DateUtil` in the presentation layer (`presentation/remote/DateUtil.kt`):
 * a process-wide id counter and `parseFecha`, which reads "Hoy", "Ayer" or
 * a "day/month/year" text as a date. "Now" is a parameter.
 */
module DateUtil {
  import opened Wrappers
  import opened Text
  import opened Calendar

  /** The first value of the counter; the first id handed out is one more. */
  const CounterStart: int := 1000

  /** Kotlin's `Int` increment, which wraps from the largest value to the smallest. */
  function Increment32(c: int): (r: int)
    requires IsInt32(c)
    ensures IsInt32(r)
    ensures c < IntMax ==> r == c + 1
    ensures c == IntMax ==> r == IntMin
  {
    if c == IntMax then IntMin else c + 1
  }

  /** The companion object's `idCounter`. */
  class IdCounter {
    var idCounter: int

    constructor ()
      ensures idCounter == CounterStart
    {
      idCounter := CounterStart;
    }

    /** `generateUniqueId`: the counter is incremented and its new value returned. */
    method GenerateUniqueId() returns (id: int)
      requires IsInt32(idCounter)
      modifies this
      ensures id == idCounter == Increment32(old(idCounter))
    {
      idCounter := Increment32(idCounter);
      id := idCounter;
    }
  }

  /** The counter after `k` calls, starting from `c`. */
  function CounterAfter(c: int, k: nat): (r: int)
    requires IsInt32(c)
    ensures IsInt32(r)
  {
    if k == 0 then c else Increment32(CounterAfter(c, k - 1))
  }

  /**
   * Until it would pass the largest `Int`, the `k`-th id is 1000 + k: the
   * first is 1001 and each is one more than the one before.
   */
  lemma {:induction false} IdsIncrease(k: nat)
    requires k <= IntMax - CounterStart
    ensures CounterAfter(CounterStart, k) == CounterStart + k
  {
    if k > 0 {
      IdsIncrease(k - 1);
    }
  }

  /** The id after the largest `Int` is the smallest, so the counter is not increasing forever. */
  lemma CounterWraps()
    ensures CounterAfter(CounterStart, IntMax - CounterStart + 1) == IntMin
  {
    IdsIncrease(IntMax - CounterStart);
  }

  const DiaPorDefecto: int := 1
  const MesPorDefecto: int := 1
  const AnioPorDefecto: int := 2025
  const AnioMin: int := -999_999_999
  const AnioMax: int := 999_999_999

  /** `LocalDate.of(anio, mes, dia)`, which throws (here: `None`) for a date that does not exist. */
  function DateOf(anio: int, mes: int, dia: int): (r: Option<LocalDate>)
    ensures r.Some? <==> AnioMin <= anio <= AnioMax && ValidYMD(YMD(anio, mes, dia))
    ensures r.Some? ==> r.value == YMD(anio, mes, dia)
  {
    var d := YMD(anio, mes, dia);
    if AnioMin <= anio <= AnioMax && ValidYMD(d) then var ld: LocalDate := d; Some(ld) else None
  }

  /**
   * `parseFecha`: "Hoy" is today and "Ayer" the day before; text that
   * splits on '/' into exactly three pieces is day/month/year, each piece
   * that is not an `Int` taking its default (1, 1, 2025); anything else is
   * today. `None` stands for the exception `LocalDate.of` throws.
   */
  function ParseFecha(fechaTexto: string, hoy: LocalDate): (r: Option<LocalDate>)
    ensures fechaTexto == "Hoy" ==> r == Some(hoy)
    ensures fechaTexto == "Ayer" ==> r == Some(PrevDay(hoy))
    ensures fechaTexto != "Hoy" && fechaTexto != "Ayer" && |Split(fechaTexto, '/')| != 3 ==> r == Some(hoy)
    ensures fechaTexto != "Ayer" && |Split(fechaTexto, '/')| == 3 ==> (
      var partes := Split(fechaTexto, '/');
      r == DateOf(ParseInt(partes[2]).GetOr(AnioPorDefecto), ParseInt(partes[1]).GetOr(MesPorDefecto),
                  ParseInt(partes[0]).GetOr(DiaPorDefecto)))
  {
    if fechaTexto == "Hoy" then Some(hoy)
    else if fechaTexto == "Ayer" then Some(PrevDay(hoy))
    else
      var partes := Split(fechaTexto, '/');
      if |partes| == 3 then
        var dia := ParseInt(partes[0]).GetOr(DiaPorDefecto);
        var mes := ParseInt(partes[1]).GetOr(MesPorDefecto);
        var anio := ParseInt(partes[2]).GetOr(AnioPorDefecto);
        DateOf(anio, mes, dia)
      else Some(hoy)
  }

  /** "Hoy" has no '/', so it would be today even without its own branch. */
  lemma HoyHasOnePiece()
    ensures |Split("Hoy", '/')| == 1
  {
    assert '/' !in "Hoy";
  }

  /** Decimal text of an `Int` holds no '/'. */
  lemma NoSlashInInt(i: int)
    ensures '/' !in IntToString(i)
  {
    var s := IntToString(i);
    if i < 0 {
      assert s == "-" + NatToString(-i);
      assert forall j :: 1 <= j < |s| ==> s[j] == NatToString(-i)[j - 1];
    }
  }

  /** The text "day/month/year" of three numbers. */
  function FormatFecha(dia: int, mes: int, anio: int): string {
    IntToString(dia) + "/" + IntToString(mes) + "/" + IntToString(anio)
  }

  /**
   * Three `Int`s written as "day/month/year" are read back as exactly that
   * day, month and year: a date when it exists, the exception otherwise.
   */
  lemma ParseFormat(dia: int, mes: int, anio: int, hoy: LocalDate)
    requires IsInt32(dia) && IsInt32(mes) && IsInt32(anio)
    ensures ParseFecha(FormatFecha(dia, mes, anio), hoy) == DateOf(anio, mes, dia)
  {
    SplitFormat(dia, mes, anio);
    FormatNotAyer(dia, mes, anio);
    ParseIntOfIntToString(dia);
    ParseIntOfIntToString(mes);
    ParseIntOfIntToString(anio);
  }

  /** "day/month/year" splits on '/' into the three numbers' texts. */
  lemma SplitFormat(dia: int, mes: int, anio: int)
    ensures Split(FormatFecha(dia, mes, anio), '/') == [IntToString(dia), IntToString(mes), IntToString(anio)]
  {
    NoSlashInInt(dia);
    NoSlashInInt(mes);
    NoSlashInInt(anio);
    SplitThree(IntToString(dia), IntToString(mes), IntToString(anio));
  }

  /** Three pieces without '/' joined by '/' split back into those pieces. */
  lemma SplitThree(a: string, b: string, c: string)
    requires '/' !in a && '/' !in b && '/' !in c
    ensures Split(a + "/" + b + "/" + c, '/') == [a, b, c]
  {
    assert Split(c, '/') == [c];
    SplitCons(b, '/', c);
    assert a + "/" + b + "/" + c == a + ['/'] + (b + ['/'] + c);
    SplitCons(a, '/', b + ['/'] + c);
  }

  /** A "day/month/year" text is never "Ayer". */
  lemma FormatNotAyer(dia: int, mes: int, anio: int)
    ensures FormatFecha(dia, mes, anio) != "Ayer"
  {
    NoSlashInInt(dia);
    assert FormatFecha(dia, mes, anio)[|IntToString(dia)|] == '/';
    assert '/' !in "Ayer";
  }

  /** Every date with a 32-bit year is read back from its "day/month/year" text. */
  lemma ParseFormatRoundTrip(d: LocalDate, hoy: LocalDate)
    requires IsInt32(d.year) && AnioMin <= d.year <= AnioMax
    ensures ParseFecha(FormatFecha(d.day, d.month, d.year), hoy) == Some(d)
  {
    ParseFormat(d.day, d.month, d.year, hoy);
  }

  /** A day that does not exist in its month makes `LocalDate.of` throw. */
  lemma ImpossibleDayThrows(hoy: LocalDate)
    ensures ParseFecha(FormatFecha(31, 2, 2024), hoy).None?
  {
    ParseFormat(31, 2, 2024, hoy);
  }

  /** Pieces that are not numbers take their defaults: any "x/y/z" of non-numbers is 1 January 2025. */
  lemma DefaultsApply(hoy: LocalDate)
    ensures ParseFecha("x/y/z", hoy) == Some(YMD(2025, 1, 1))
  {
    SplitXYZ();
    assert ParseInt("x").None? && ParseInt("y").None? && ParseInt("z").None?;
    assert ValidYMD(YMD(2025, 1, 1));
  }

  /** "x/y/z" splits into its three letters. */
  lemma SplitXYZ()
    ensures Split("x/y/z", '/') == ["x", "y", "z"]
  {
    SplitThree("x", "y", "z");
    assert "x" + "/" + "y" + "/" + "z" == "x/y/z";
  }
}

/**
 * `DateUtil` in the data layer (`remote/DateUtil.kt`): its own counter, and
 * the same `parseFecha` at midnight as a `LocalDateTime` (here a
 * `DateTime` whose nanosecond of day is 0).
 */
module DateUtilRemoto {
  import opened Wrappers
  import opened Calendar
  import D = DateUtil

  /** `parseFecha` of this copy: the presentation copy's date, at midnight. */
  function ParseFecha(fechaTexto: string, hoy: LocalDate): (r: Option<DateTime>)
    ensures r.Some? <==> D.ParseFecha(fechaTexto, hoy).Some?
    ensures r.Some? ==> r.value.date == D.ParseFecha(fechaTexto, hoy).value && r.value.nanoOfDay == 0
  {
    match D.ParseFecha(fechaTexto, hoy)
    case None => None
    case Some(d) => Some(DateTime(d, 0))
  }
}
